/** openai_budget.py on values: the budget row with its cached totals, the run table, and one
    function per transaction. A transaction that raises returns the ledger it was given, because the
    surrounding session rolls back. Money is in whole micro-dollars; totals are clamped where the
    code clamps them. */
module BudgetLedger {
  import opened Common
  import opened Models
  import opened AgentModels

  datatype RunStatus = Reserved | Completed | Rejected | FailedRun

  datatype RequestKey = RequestKey(decisionId: DecisionId, model: string, promptVersion: string, context: AgentContext)

  datatype RunId = RunId(requestKey: RequestKey, attempt: nat)

  datatype RunRow = RunRow(
    runId: RunId,
    requestKey: RequestKey,
    status: RunStatus,
    reservedCost: int,
    actualCost: int,
    usage: Option<Usage>,
    responseId: Option<string>,
    review: Option<Review>,
    createdAt: Time,
    completedAt: Option<Time>,
    expiresAt: Time,
    errorCode: Option<RunErrorCode>,
    validationErrors: seq<Complaint>)

  datatype BudgetRow = BudgetRow(limit: int, reserved: int, spent: int, updatedAt: Time, version: nat)

  datatype Ledger = Ledger(budget: Option<BudgetRow>, runs: seq<RunRow>)

  /** A configured manager; several with different limits may share one ledger. */
  datatype Limits = Limits(limit: int, perRun: int, ttl: int)
  {
    predicate Valid() { 0 < limit && 0 < perRun && perRun <= limit }
  }

  datatype BudgetState = BudgetState(limit: int, reserved: int, spent: int, remaining: int, updatedAt: Time, version: nat)

  /** What `complete`, `reject` and `fail` pass on to the common settlement. */
  datatype Settlement = Settlement(
    status: RunStatus,
    usage: Option<Usage>,
    actualCost: int,
    responseId: Option<string>,
    review: Option<Review>,
    errorCode: Option<RunErrorCode>,
    validationErrors: seq<Complaint>)

  function Completion(usage: Usage, cost: int, responseId: string, review: Review): Settlement {
    Settlement(Completed, Some(usage), cost, Some(responseId), Some(review), None, [])
  }

  function Rejection(usage: Usage, cost: int, responseId: string, code: RunErrorCode, errors: seq<Complaint>): Settlement {
    Settlement(Rejected, Some(usage), cost, Some(responseId), None, Some(code), errors)
  }

  function Failure(code: RunErrorCode, cost: int): Settlement {
    Settlement(FailedRun, None, cost, None, None, Some(code), [])
  }

  // ---------------------------------------------------------------- table queries

  /** The newest COMPLETED run of a key (`order_by created_at desc`, first stored among equals). */
  function NewestCompleted(runs: seq<RunRow>, key: RequestKey): (r: Option<RunRow>)
    ensures r.None? <==> forall i :: 0 <= i < |runs| ==> !(runs[i].requestKey == key && runs[i].status.Completed?)
    ensures r.Some? ==> r.value in runs && r.value.requestKey == key && r.value.status.Completed?
    ensures r.Some? ==> forall i :: 0 <= i < |runs| && runs[i].requestKey == key && runs[i].status.Completed?
                                    ==> runs[i].createdAt <= r.value.createdAt
  {
    if runs == [] then None
    else
      var earlier := NewestCompleted(runs[..|runs| - 1], key);
      var last := runs[|runs| - 1];
      assert forall i :: 0 <= i < |runs| - 1 ==> runs[..|runs| - 1][i] == runs[i];
      if last.requestKey == key && last.status.Completed? && (earlier.None? || earlier.value.createdAt < last.createdAt)
      then Some(last) else earlier
  }

  function CountKey(runs: seq<RunRow>, key: RequestKey): nat {
    if runs == [] then 0
    else CountKey(runs[..|runs| - 1], key) + if runs[|runs| - 1].requestKey == key then 1 else 0
  }

  function FindRun(runs: seq<RunRow>, runId: RunId): (i: int)
    ensures -1 <= i < |runs|
    ensures 0 <= i ==> runs[i].runId == runId && forall j :: 0 <= j < i ==> runs[j].runId != runId
    ensures i == -1 ==> forall j :: 0 <= j < |runs| ==> runs[j].runId != runId
  {
    if runs == [] then -1
    else
      var i := FindRun(runs[..|runs| - 1], runId);
      assert forall j :: 0 <= j < |runs| - 1 ==> runs[..|runs| - 1][j] == runs[j];
      if 0 <= i then i
      else if runs[|runs| - 1].runId == runId then |runs| - 1 else -1
  }

  // ---------------------------------------------------------------- transactions

  function LockedBudget(budget: Option<BudgetRow>, limits: Limits, now: Time): Reply<BudgetRow> {
    match budget
    case None => Returned(BudgetRow(limits.limit, 0, 0, now, 1))
    case Some(b) =>
      if limits.limit < b.spent + b.reserved then Raised(OpenAIBudgetConfigurationError)
      else if b.limit != limits.limit then Returned(b.(limit := limits.limit, updatedAt := now, version := b.version + 1))
      else Returned(b)
  }

  predicate Stale(row: RunRow, now: Time) { row.status.Reserved? && row.expiresAt < now }

  function ReclaimRow(row: RunRow, now: Time): RunRow {
    if Stale(row, now)
    then row.(status := FailedRun, actualCost := row.reservedCost,
              errorCode := Some(StaleReservationCharged), completedAt := Some(now))
    else row
  }

  function ReclaimRows(runs: seq<RunRow>, now: Time): (rs: seq<RunRow>)
    ensures |rs| == |runs| && forall i :: 0 <= i < |runs| ==> rs[i] == ReclaimRow(runs[i], now)
  {
    if runs == [] then []
    else
      assert forall i :: 0 <= i < |runs| - 1 ==> runs[..|runs| - 1][i] == runs[i];
      ReclaimRows(runs[..|runs| - 1], now) + [ReclaimRow(runs[|runs| - 1], now)]
  }

  function ReclaimTotals(budget: BudgetRow, runs: seq<RunRow>, now: Time): BudgetRow {
    if runs == [] then budget
    else
      var b := ReclaimTotals(budget, runs[..|runs| - 1], now);
      var last := runs[|runs| - 1];
      if Stale(last, now) then b.(reserved := Max(0, b.reserved - last.reservedCost), spent := b.spent + last.reservedCost)
      else b
  }

  predicate AnyStale(runs: seq<RunRow>, now: Time) { exists i :: 0 <= i < |runs| && Stale(runs[i], now) }

  function ReclaimBudget(budget: BudgetRow, runs: seq<RunRow>, now: Time): BudgetRow {
    var b := ReclaimTotals(budget, runs, now);
    if AnyStale(runs, now) then b.(updatedAt := now, version := b.version + 1) else b
  }

  function NewRun(runs: seq<RunRow>, limits: Limits, key: RequestKey, estimate: int, now: Time): RunRow {
    RunRow(RunId(key, CountKey(runs, key) + 1), key, Reserved, estimate, 0, None, None, None, now, None,
           now + limits.ttl, None, [])
  }

  function Reserve(l: Ledger, limits: Limits, key: RequestKey, estimate: int, now: Time): (Ledger, Reply<(RunRow, bool)>) {
    var existing := NewestCompleted(l.runs, key);
    if existing.Some? then (l, Returned((existing.value, true)))
    else if limits.perRun < estimate then (l, Raised(OpenAIPerRunLimitError))
    else
      match LockedBudget(l.budget, limits, now)
      case Raised(e) => (l, Raised(e))
      case Returned(locked) =>
        var b := ReclaimBudget(locked, l.runs, now);
        var runs := ReclaimRows(l.runs, now);
        if b.limit < b.spent + b.reserved + estimate then (l, Raised(OpenAIBudgetExceededError))
        else if estimate < 0 then (l, Raised(ValidationError))
        else
          var row := NewRun(runs, limits, key, estimate, now);
          (Ledger(Some(b.(reserved := b.reserved + estimate, updatedAt := now, version := b.version + 1)), runs + [row]),
           Returned((row, false)))
  }

  function SettleRow(row: RunRow, s: Settlement, now: Time): RunRow {
    row.(status := s.status, actualCost := s.actualCost, responseId := s.responseId, review := s.review,
         completedAt := Some(now), errorCode := s.errorCode, validationErrors := s.validationErrors,
         usage := if s.usage.Some? then s.usage else row.usage)
  }

  function Finalise(l: Ledger, limits: Limits, runId: RunId, s: Settlement, now: Time): (Ledger, Reply<RunRow>) {
    if s.actualCost < 0 then (l, Raised(ValueError))
    else
      var i := FindRun(l.runs, runId);
      if i < 0 then (l, Raised(OpenAIRunNotFoundError))
      else if !l.runs[i].status.Reserved? then (l, Returned(l.runs[i]))
      else
        match LockedBudget(l.budget, limits, now)
        case Raised(e) => (l, Raised(e))
        case Returned(b) =>
          var row := SettleRow(l.runs[i], s, now);
          (Ledger(Some(b.(reserved := Max(0, b.reserved - l.runs[i].reservedCost), spent := b.spent + s.actualCost,
                          updatedAt := now, version := b.version + 1)),
                  l.runs[i := row]),
           Returned(row))
  }

  function StateModel(b: BudgetRow): BudgetState {
    BudgetState(b.limit, b.reserved, b.spent, Max(0, b.limit - b.spent - b.reserved), b.updatedAt, b.version)
  }

  function State(l: Ledger, limits: Limits, now: Time): (Ledger, Reply<BudgetState>) {
    match LockedBudget(l.budget, limits, now)
    case Raised(e) => (l, Raised(e))
    case Returned(locked) =>
      var b := ReclaimBudget(locked, l.runs, now);
      (Ledger(Some(b), ReclaimRows(l.runs, now)), Returned(StateModel(b)))
  }

  // ---------------------------------------------------------------- histories

  datatype Op =
    | OpReserve(limits: Limits, key: RequestKey, estimate: int, now: Time)
    | OpSettle(limits: Limits, runId: RunId, settlement: Settlement, now: Time)
    | OpState(limits: Limits, now: Time)

  predicate ValidOp(op: Op) {
    op.limits.Valid() &&
    (op.OpSettle? ==> !op.settlement.status.Reserved? && (op.settlement.status.Completed? ==> op.settlement.review.Some?))
  }

  function Apply(l: Ledger, op: Op): Ledger {
    match op
    case OpReserve(limits, key, estimate, now) => Reserve(l, limits, key, estimate, now).0
    case OpSettle(limits, runId, s, now) => Finalise(l, limits, runId, s, now).0
    case OpState(limits, now) => State(l, limits, now).0
  }

  function Run(l: Ledger, ops: seq<Op>): Ledger {
    if ops == [] then l else Apply(Run(l, ops[..|ops| - 1]), ops[|ops| - 1])
  }

  const EMPTY := Ledger(None, [])
}
