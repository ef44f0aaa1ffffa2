/** Whole-history properties of the budget ledger. */
module BudgetProofs {
  import opened Common
  import opened Models
  import opened AgentModels
  import opened BudgetLedger

  // ---------------------------------------------------------------- sums over the run table

  function ReservedPart(row: RunRow): int { if row.status.Reserved? then row.reservedCost else 0 }

  function SumReserved(runs: seq<RunRow>): int {
    if runs == [] then 0 else SumReserved(runs[..|runs| - 1]) + ReservedPart(runs[|runs| - 1])
  }

  function SumSpent(runs: seq<RunRow>): int {
    if runs == [] then 0 else SumSpent(runs[..|runs| - 1]) + runs[|runs| - 1].actualCost
  }

  function Committed(runs: seq<RunRow>): int { SumSpent(runs) + SumReserved(runs) }

  function Overrun(row: RunRow): int { if row.status.Reserved? then 0 else row.actualCost - row.reservedCost }

  /** The largest (actual - reserved) any settlement of the table ever had, and at least zero. */
  function MaxOverrun(runs: seq<RunRow>): int {
    if runs == [] then 0 else Max(MaxOverrun(runs[..|runs| - 1]), Overrun(runs[|runs| - 1]))
  }

  function StaleSum(runs: seq<RunRow>, now: Time): int {
    if runs == [] then 0
    else StaleSum(runs[..|runs| - 1], now) + if Stale(runs[|runs| - 1], now) then runs[|runs| - 1].reservedCost else 0
  }

  // ---------------------------------------------------------------- the invariant

  predicate RowOk(row: RunRow) {
    && 0 <= row.reservedCost && 0 <= row.actualCost
    && (row.status.Reserved? ==> row.actualCost == 0)
    && (row.status.Completed? ==> row.review.Some?)
    && row.runId.requestKey == row.requestKey
  }

  predicate RowsOk(runs: seq<RunRow>) { forall i :: 0 <= i < |runs| ==> RowOk(runs[i]) }

  /** The k-th row of a request key carries attempt number k, counting from 1 without gaps. */
  predicate AttemptsOk(runs: seq<RunRow>) {
    forall i :: 0 <= i < |runs| ==> runs[i].runId.attempt == CountKey(runs[..i], runs[i].requestKey) + 1
  }

  /** The cached totals are the sums over the table, and stay within the limit up to one overrun. */
  predicate Totals(b: BudgetRow, runs: seq<RunRow>) {
    b.reserved == SumReserved(runs) && b.spent == SumSpent(runs)
  }

  predicate Inv(l: Ledger) {
    && RowsOk(l.runs) && AttemptsOk(l.runs)
    && match l.budget
       case None => l.runs == []
       case Some(b) => Totals(b, l.runs) && Committed(l.runs) <= b.limit + MaxOverrun(l.runs)
  }

  // ---------------------------------------------------------------- table lemmas

  lemma SumsSnoc(runs: seq<RunRow>, row: RunRow)
    ensures SumReserved(runs + [row]) == SumReserved(runs) + ReservedPart(row)
    ensures SumSpent(runs + [row]) == SumSpent(runs) + row.actualCost
    ensures MaxOverrun(runs + [row]) == Max(MaxOverrun(runs), Overrun(row))
    ensures forall key :: CountKey(runs + [row], key) == CountKey(runs, key) + if row.requestKey == key then 1 else 0
  {
    assert (runs + [row])[..|runs|] == runs;
  }

  lemma {:induction false} SumsUpdate(runs: seq<RunRow>, i: nat, row: RunRow)
    requires i < |runs|
    ensures SumReserved(runs[i := row]) == SumReserved(runs) - ReservedPart(runs[i]) + ReservedPart(row)
    ensures SumSpent(runs[i := row]) == SumSpent(runs) - runs[i].actualCost + row.actualCost
    ensures Overrun(row) <= MaxOverrun(runs[i := row])
    ensures Overrun(runs[i]) == 0 ==> MaxOverrun(runs) <= MaxOverrun(runs[i := row])
    ensures 0 <= MaxOverrun(runs)
  {
    var n := |runs| - 1;
    var next := runs[i := row];
    MaxOverrunNonNegative(runs);
    if i == n {
      assert next[..n] == runs[..n];
      MaxOverrunNonNegative(runs[..n]);
    } else {
      assert next[..n] == runs[..n][i := row];
      SumsUpdate(runs[..n], i, row);
    }
  }

  lemma MaxOverrunNonNegative(runs: seq<RunRow>)
    ensures 0 <= MaxOverrun(runs)
  {}

  lemma {:induction false} KeysUpdate(runs: seq<RunRow>, i: nat, row: RunRow, key: RequestKey)
    requires i < |runs| && row.requestKey == runs[i].requestKey
    ensures CountKey(runs[i := row], key) == CountKey(runs, key)
  {
    var n := |runs| - 1;
    if i == n {
      assert runs[i := row][..n] == runs[..n];
    } else {
      assert runs[i := row][..n] == runs[..n][i := row];
      KeysUpdate(runs[..n], i, row, key);
    }
  }

  lemma {:induction false} ReclaimKeepsKeys(runs: seq<RunRow>, now: Time, key: RequestKey)
    ensures CountKey(ReclaimRows(runs, now), key) == CountKey(runs, key)
  {
    if runs == [] {
    } else {
      var n := |runs| - 1;
      ReclaimKeepsKeys(runs[..n], now, key);
      assert ReclaimRows(runs, now)[..n] == ReclaimRows(runs[..n], now);
    }
  }

  lemma {:induction false} ReclaimSums(runs: seq<RunRow>, now: Time)
    requires RowsOk(runs)
    ensures SumReserved(ReclaimRows(runs, now)) == SumReserved(runs) - StaleSum(runs, now)
    ensures SumSpent(ReclaimRows(runs, now)) == SumSpent(runs) + StaleSum(runs, now)
    ensures MaxOverrun(ReclaimRows(runs, now)) == MaxOverrun(runs)
    ensures 0 <= StaleSum(runs, now) <= SumReserved(runs)
  {
    if runs == [] {
    } else {
      var n := |runs| - 1;
      ReclaimSums(runs[..n], now);
      MaxOverrunNonNegative(runs[..n]);
      var next := ReclaimRows(runs, now);
      assert next[..n] == ReclaimRows(runs[..n], now);
      assert next[n] == ReclaimRow(runs[n], now);
      assert RowOk(runs[n]);
    }
  }

  /** Clamping the running total at zero while reclaiming never changes it. */
  lemma {:induction false} ReclaimClampIsIdle(b: BudgetRow, runs: seq<RunRow>, now: Time)
    requires RowsOk(runs) && SumReserved(runs) <= b.reserved
    ensures ReclaimTotals(b, runs, now)
         == b.(reserved := b.reserved - StaleSum(runs, now), spent := b.spent + StaleSum(runs, now))
  {
    if runs == [] {
    } else {
      var n := |runs| - 1;
      assert RowOk(runs[n]);
      ReclaimSums(runs[..n], now);
      ReclaimClampIsIdle(b, runs[..n], now);
    }
  }

  lemma ReclaimKeepsRows(runs: seq<RunRow>, now: Time)
    requires RowsOk(runs) && AttemptsOk(runs)
    ensures RowsOk(ReclaimRows(runs, now)) && AttemptsOk(ReclaimRows(runs, now))
  {
    var next := ReclaimRows(runs, now);
    forall i | 0 <= i < |next| ensures RowOk(next[i]) {
      assert RowOk(runs[i]);
    }
    forall i | 0 <= i < |next| ensures next[i].runId.attempt == CountKey(next[..i], next[i].requestKey) + 1 {
      assert next[..i] == ReclaimRows(runs[..i], now);
      ReclaimKeepsKeys(runs[..i], now, runs[i].requestKey);
    }
  }

  lemma ReclaimPreserves(b: BudgetRow, runs: seq<RunRow>, now: Time)
    requires RowsOk(runs) && Totals(b, runs)
    ensures Totals(ReclaimBudget(b, runs, now), ReclaimRows(runs, now))
    ensures ReclaimBudget(b, runs, now).limit == b.limit
    ensures Committed(ReclaimRows(runs, now)) == Committed(runs)
    ensures MaxOverrun(ReclaimRows(runs, now)) == MaxOverrun(runs)
  {
    ReclaimSums(runs, now);
    ReclaimClampIsIdle(b, runs, now);
  }

  lemma AppendPreserves(runs: seq<RunRow>, row: RunRow)
    requires RowsOk(runs) && AttemptsOk(runs) && RowOk(row)
    requires row.runId.attempt == CountKey(runs, row.requestKey) + 1
    ensures RowsOk(runs + [row]) && AttemptsOk(runs + [row])
  {
    var next := runs + [row];
    forall i | 0 <= i < |next| ensures next[i].runId.attempt == CountKey(next[..i], next[i].requestKey) + 1 {
      assert next[..i] == runs[..i];
      WholePrefix(runs);
    }
  }

  lemma UpdatePreserves(runs: seq<RunRow>, i: nat, row: RunRow)
    requires i < |runs| && RowsOk(runs) && AttemptsOk(runs) && RowOk(row) && row.runId == runs[i].runId
    ensures RowsOk(runs[i := row]) && AttemptsOk(runs[i := row])
  {
    var next := runs[i := row];
    assert RowOk(runs[i]);
    forall j | 0 <= j < |next| ensures next[j].runId.attempt == CountKey(next[..j], next[j].requestKey) + 1 {
      if i < j {
        assert next[..j] == runs[..j][i := row];
        KeysUpdate(runs[..j], i, row, runs[j].requestKey);
      } else {
        assert next[..j] == runs[..j];
      }
    }
  }

  // ---------------------------------------------------------------- every operation keeps the invariant

  lemma LockedPreserves(l: Ledger, limits: Limits, now: Time)
    requires Inv(l) && limits.Valid() && LockedBudget(l.budget, limits, now).Returned?
    ensures var b := LockedBudget(l.budget, limits, now).value;
            && Totals(b, l.runs) && b.limit == limits.limit && Committed(l.runs) <= b.limit
  {}

  /** Appending an open row and raising the reserved total by its amount. */
  lemma OpenRowKeepsInv(b: BudgetRow, runs: seq<RunRow>, row: RunRow, c: BudgetRow)
    requires RowsOk(runs) && AttemptsOk(runs) && Totals(b, runs) && RowOk(row) && row.status.Reserved?
    requires row.runId.attempt == CountKey(runs, row.requestKey) + 1
    requires b.spent + b.reserved + row.reservedCost <= b.limit
    requires c.limit == b.limit && c.spent == b.spent && c.reserved == b.reserved + row.reservedCost
    ensures Inv(Ledger(Some(c), runs + [row]))
  {
    SumsSnoc(runs, row);
    MaxOverrunNonNegative(runs + [row]);
    AppendPreserves(runs, row);
  }

  lemma ReserveKeepsInv(l: Ledger, limits: Limits, key: RequestKey, estimate: int, now: Time)
    requires Inv(l) && limits.Valid()
    ensures Inv(Reserve(l, limits, key, estimate, now).0)
  {
    var after := Reserve(l, limits, key, estimate, now).0;
    if after != l {
      var locked := LockedBudget(l.budget, limits, now).value;
      LockedPreserves(l, limits, now);
      ReclaimKeepsRows(l.runs, now);
      ReclaimPreserves(locked, l.runs, now);
      var b, runs := ReclaimBudget(locked, l.runs, now), ReclaimRows(l.runs, now);
      OpenRowKeepsInv(b, runs, NewRun(runs, limits, key, estimate, now), after.budget.value);
    }
  }

  lemma FinaliseKeepsInv(l: Ledger, limits: Limits, runId: RunId, s: Settlement, now: Time)
    requires Inv(l) && limits.Valid() && !s.status.Reserved? && (s.status.Completed? ==> s.review.Some?)
    ensures Inv(Finalise(l, limits, runId, s, now).0)
  {
    if Finalise(l, limits, runId, s, now).0 != l {
      var i := FindRun(l.runs, runId);
      assert RowOk(l.runs[i]);
      LockedPreserves(l, limits, now);
      var row := SettleRow(l.runs[i], s, now);
      SumsUpdate(l.runs, i, row);
      UpdatePreserves(l.runs, i, row);
      SettleClampIsIdle(l.runs, i);
    }
  }

  /** The total always covers the reservation being released, so the clamp is idle there too. */
  lemma {:induction false} SettleClampIsIdle(runs: seq<RunRow>, i: nat)
    requires RowsOk(runs) && i < |runs|
    ensures 0 <= ReservedPart(runs[i]) <= SumReserved(runs)
    ensures 0 <= SumReserved(runs)
  {
    assert RowOk(runs[i]);
    var n := |runs| - 1;
    assert RowOk(runs[n]);
    if i < n {
      SettleClampIsIdle(runs[..n], i);
    } else if 0 < n {
      SettleClampIsIdle(runs[..n], 0);
    }
  }

  lemma StateKeepsInv(l: Ledger, limits: Limits, now: Time)
    requires Inv(l) && limits.Valid()
    ensures Inv(State(l, limits, now).0)
  {
    if State(l, limits, now).0 != l {
      LockedPreserves(l, limits, now);
      ReclaimKeepsRows(l.runs, now);
      ReclaimPreserves(LockedBudget(l.budget, limits, now).value, l.runs, now);
      MaxOverrunNonNegative(l.runs);
    }
  }

  predicate ValidOps(ops: seq<Op>) { forall i :: 0 <= i < |ops| ==> ValidOp(ops[i]) }

  lemma StepKeepsInv(l: Ledger, op: Op)
    requires Inv(l) && ValidOp(op)
    ensures Inv(Apply(l, op))
  {
    match op
    case OpReserve(limits, key, estimate, now) => ReserveKeepsInv(l, limits, key, estimate, now);
    case OpSettle(limits, runId, s, now) => FinaliseKeepsInv(l, limits, runId, s, now);
    case OpState(limits, now) => StateKeepsInv(l, limits, now);
  }

  lemma {:induction false} RunKeepsInv(l: Ledger, ops: seq<Op>)
    requires Inv(l) && ValidOps(ops)
    ensures Inv(Run(l, ops))
  {
    if ops == [] {
    } else {
      RunKeepsInv(l, ops[..|ops| - 1]);
      StepKeepsInv(Run(l, ops[..|ops| - 1]), ops[|ops| - 1]);
    }
  }

  /** Budget conservation: after any history of reservations, settlements and state reads, by managers
      of any limits at any clock values, the cached totals equal the sums over the run table. */
  lemma BudgetConservation(ops: seq<Op>)
    requires ValidOps(ops)
    ensures var l := Run(EMPTY, ops);
            match l.budget
            case None => l.runs == []
            case Some(b) => b.reserved == SumReserved(l.runs) && b.spent == SumSpent(l.runs)
  {
    RunKeepsInv(EMPTY, ops);
  }

  /** Budget ceiling: what is spent and reserved exceeds the stored limit by at most the largest single
      settlement overrun, so never when every settlement stayed within its reservation. */
  lemma BudgetCeiling(ops: seq<Op>)
    requires ValidOps(ops) && Run(EMPTY, ops).budget.Some?
    ensures var l := Run(EMPTY, ops); var b := l.budget.value;
            && b.spent + b.reserved <= b.limit + MaxOverrun(l.runs)
            && ((forall i :: 0 <= i < |l.runs| ==> l.runs[i].actualCost <= l.runs[i].reservedCost) ==> b.spent + b.reserved <= b.limit)
  {
    RunKeepsInv(EMPTY, ops);
    var runs := Run(EMPTY, ops).runs;
    if forall i :: 0 <= i < |runs| ==> runs[i].actualCost <= runs[i].reservedCost {
      NoOverrun(runs);
    }
  }

  lemma {:induction false} NoOverrun(runs: seq<RunRow>)
    requires forall i :: 0 <= i < |runs| ==> runs[i].actualCost <= runs[i].reservedCost
    ensures MaxOverrun(runs) == 0
  {
    if runs == [] {
    } else {
      var n := |runs| - 1;
      assert forall i :: 0 <= i < n ==> runs[..n][i] == runs[i];
      NoOverrun(runs[..n]);
      assert runs[n].actualCost <= runs[n].reservedCost;
    }
  }

  /** The operation gets as far as locking the budget row. */
  predicate ReachesLock(l: Ledger, op: Op) {
    match op
    case OpReserve(limits, key, estimate, _) => NewestCompleted(l.runs, key).None? && estimate <= limits.perRun
    case OpSettle(_, runId, s, _) =>
      0 <= s.actualCost && 0 <= FindRun(l.runs, runId) && l.runs[FindRun(l.runs, runId)].status.Reserved?
    case OpState(_, _) => true
  }

  /** The operation raises because the manager's limit is below what is committed. */
  predicate RaisesConfiguration(l: Ledger, op: Op) {
    match op
    case OpReserve(limits, key, estimate, now) => Reserve(l, limits, key, estimate, now).1 == Raised(OpenAIBudgetConfigurationError)
    case OpSettle(limits, runId, s, now) => Finalise(l, limits, runId, s, now).1 == Raised(OpenAIBudgetConfigurationError)
    case OpState(limits, now) => State(l, limits, now).1 == Raised(OpenAIBudgetConfigurationError)
  }

  /** Over-committed ledgers are frozen: while only managers whose limit is below what is committed act,
      nothing changes at all, and an operation raises the configuration error if and only if it reaches
      the budget lock, be it a reservation, a settlement or a read. */
  lemma {:induction false} FrozenWhenOverCommitted(l: Ledger, ops: seq<Op>)
    requires l.budget.Some?
    requires forall i :: 0 <= i < |ops| ==> ops[i].limits.limit < l.budget.value.spent + l.budget.value.reserved
    ensures Run(l, ops) == l
    ensures forall i :: 0 <= i < |ops| ==> (RaisesConfiguration(l, ops[i]) <==> ReachesLock(l, ops[i]))
  {
    if ops == [] {
    } else {
      var n := |ops| - 1;
      FrozenWhenOverCommitted(l, ops[..n]);
      OverCommittedStep(l, ops[n]);
      assert forall i :: 0 <= i < n ==> ops[..n][i] == ops[i];
    }
  }

  lemma OverCommittedStep(l: Ledger, op: Op)
    requires l.budget.Some? && op.limits.limit < l.budget.value.spent + l.budget.value.reserved
    ensures Apply(l, op) == l && (RaisesConfiguration(l, op) <==> ReachesLock(l, op))
  {}

  /** In general: the configuration error is raised exactly by operations that reach the lock with a limit
      below what is committed. */
  lemma ConfigurationErrorExactly(l: Ledger, op: Op)
    ensures RaisesConfiguration(l, op) <==>
            ReachesLock(l, op) && l.budget.Some? && op.limits.limit < l.budget.value.spent + l.budget.value.reserved
  {}

  // ---------------------------------------------------------------- rows settle once; attempts; reuse

  /** How a table may evolve: rows stay in place, settled rows are final, and an open row keeps its
      identity and reservation. */
  predicate Evolves(before: seq<RunRow>, after: seq<RunRow>) {
    && |before| <= |after|
    && forall i :: 0 <= i < |before| ==>
         && after[i].runId == before[i].runId && after[i].requestKey == before[i].requestKey
         && after[i].reservedCost == before[i].reservedCost
         && (!before[i].status.Reserved? ==> after[i] == before[i])
  }

  predicate HasCompleted(runs: seq<RunRow>, key: RequestKey) {
    exists i :: 0 <= i < |runs| && runs[i].requestKey == key && runs[i].status.Completed?
  }

  lemma ReserveEvolves(l: Ledger, limits: Limits, k: RequestKey, estimate: int, now: Time, key: RequestKey)
    ensures Evolves(l.runs, Reserve(l, limits, k, estimate, now).0.runs)
    ensures HasCompleted(l.runs, key) ==> CountKey(Reserve(l, limits, k, estimate, now).0.runs, key) == CountKey(l.runs, key)
  {
    var after := Reserve(l, limits, k, estimate, now).0.runs;
    if after != l.runs {
      var runs := ReclaimRows(l.runs, now);
      var row := NewRun(runs, limits, k, estimate, now);
      assert after == runs + [row];
      SumsSnoc(runs, row);
      ReclaimKeepsKeys(l.runs, now, key);
    }
  }

  lemma SettleEvolves(runs: seq<RunRow>, i: nat, row: RunRow, key: RequestKey)
    requires i < |runs| && runs[i].status.Reserved?
    requires row.runId == runs[i].runId && row.requestKey == runs[i].requestKey && row.reservedCost == runs[i].reservedCost
    ensures Evolves(runs, runs[i := row]) && CountKey(runs[i := row], key) == CountKey(runs, key)
  {
    KeysUpdate(runs, i, row, key);
  }

  lemma FinaliseEvolves(l: Ledger, limits: Limits, runId: RunId, s: Settlement, now: Time, key: RequestKey)
    ensures var after := Finalise(l, limits, runId, s, now).0.runs; Evolves(l.runs, after) && CountKey(after, key) == CountKey(l.runs, key)
  {
    if Finalise(l, limits, runId, s, now).0 != l {
      var i := FindRun(l.runs, runId);
      SettleEvolves(l.runs, i, SettleRow(l.runs[i], s, now), key);
    }
  }

  lemma StepEvolves(l: Ledger, op: Op, key: RequestKey)
    ensures Evolves(l.runs, Apply(l, op).runs)
    ensures HasCompleted(l.runs, key) ==> CountKey(Apply(l, op).runs, key) == CountKey(l.runs, key)
  {
    match op
    case OpReserve(limits, k, estimate, now) => ReserveEvolves(l, limits, k, estimate, now, key);
    case OpSettle(limits, runId, s, now) => FinaliseEvolves(l, limits, runId, s, now, key);
    case OpState(limits, now) => ReclaimKeepsKeys(l.runs, now, key);
  }

  /** Settle exactly once, over whole histories: every row settled at some point is the same row ever
      after (a completion arriving after a reclaim changes nothing), and once any row of a request
      key is COMPLETED no further row is ever created for that key. */
  lemma {:induction false} SettledOnceForAll(l: Ledger, ops: seq<Op>, key: RequestKey)
    ensures Evolves(l.runs, Run(l, ops).runs)
    ensures HasCompleted(l.runs, key) ==> CountKey(Run(l, ops).runs, key) == CountKey(l.runs, key)
    ensures HasCompleted(l.runs, key) ==> HasCompleted(Run(l, ops).runs, key)
  {
    if ops == [] {
    } else {
      var mid := Run(l, ops[..|ops| - 1]);
      SettledOnceForAll(l, ops[..|ops| - 1], key);
      StepEvolves(mid, ops[|ops| - 1], key);
      if HasCompleted(l.runs, key) {
        var i :| 0 <= i < |l.runs| && l.runs[i].requestKey == key && l.runs[i].status.Completed?;
        assert mid.runs[i] == l.runs[i];
        assert Run(l, ops).runs[i] == mid.runs[i];
      }
    }
  }

  lemma {:induction false} CountGrows(runs: seq<RunRow>, i: nat, j: nat, key: RequestKey)
    requires i < j <= |runs| && runs[i].requestKey == key
    ensures CountKey(runs[..i], key) < CountKey(runs[..j], key)
  {
    assert runs[..j][..j - 1] == runs[..j - 1];
    if i < j - 1 {
      CountGrows(runs, i, j - 1, key);
    }
  }

  lemma {:induction false} AttemptExists(runs: seq<RunRow>, key: RequestKey, k: nat)
    requires RowsOk(runs) && AttemptsOk(runs) && 1 <= k <= CountKey(runs, key)
    ensures 0 <= FindRun(runs, RunId(key, k))
  {
    var n := |runs| - 1;
    if runs[n].requestKey == key && k == CountKey(runs, key) {
      assert RowOk(runs[n]);
      assert runs[n].runId == RunId(key, k);
    } else {
      forall i | 0 <= i < n ensures runs[..n][i].runId.attempt == CountKey(runs[..n][..i], runs[..n][i].requestKey) + 1 {
        assert runs[..n][..i] == runs[..i];
      }
      AttemptExists(runs[..n], key, k);
      var i := FindRun(runs[..n], RunId(key, k));
      assert runs[i].runId == RunId(key, k);
    }
  }

  lemma {:induction false} AttemptBounded(runs: seq<RunRow>, i: nat)
    requires i < |runs|
    ensures CountKey(runs[..i], runs[i].requestKey) < CountKey(runs, runs[i].requestKey)
  {
    assert runs[..|runs|] == runs;
    CountGrows(runs, i, |runs|, runs[i].requestKey);
  }

  lemma IdsDistinct(runs: seq<RunRow>)
    requires RowsOk(runs) && AttemptsOk(runs)
    ensures forall i, j :: 0 <= i < j < |runs| ==> runs[i].runId != runs[j].runId
  {
    forall i, j | 0 <= i < j < |runs| && runs[i].requestKey == runs[j].requestKey
      ensures runs[i].runId.attempt < runs[j].runId.attempt
    {
      CountGrows(runs, i, j, runs[j].requestKey);
    }
    forall i, j | 0 <= i < j < |runs| ensures runs[i].runId != runs[j].runId {
      assert RowOk(runs[i]) && RowOk(runs[j]);
    }
  }

  /** The operation reclaims: a budget read that is answered, or a reservation that is granted. */
  predicate Reclaiming(l: Ledger, op: Op) {
    match op
    case OpReserve(limits, key, estimate, now) =>
      var r := Reserve(l, limits, key, estimate, now).1; r.Returned? && !r.value.1
    case OpSettle(_, _, _, _) => false
    case OpState(limits, now) => State(l, limits, now).1.Returned?
  }

  lemma ReclaimedBy(l: Ledger, op: Op, i: nat)
    requires Reclaiming(l, op) && i < |l.runs|
    ensures i < |Apply(l, op).runs| && Apply(l, op).runs[i] == ReclaimRow(l.runs[i], op.now)
  {}

  /** The late answer: once a reservation was stale at a reclaiming operation it is charged in full, and no
      settlement of that run, by any manager and after any further history, changes a row or a total. */
  lemma LateSettlementChangesNothing(l: Ledger, op: Op, i: nat, more: seq<Op>, late: Op)
    requires Inv(l) && ValidOp(op) && ValidOps(more) && i < |l.runs|
    requires Reclaiming(l, op) && Stale(l.runs[i], op.now)
    requires late.OpSettle? && late.runId == l.runs[i].runId
    ensures var m := Run(Apply(l, op), more);
            && Apply(m, late) == m
            && i < |m.runs| && m.runs[i].status.FailedRun? && m.runs[i].actualCost == l.runs[i].reservedCost
  {
    var mid := Apply(l, op);
    ReclaimedBy(l, op, i);
    StepKeepsInv(l, op);
    RunKeepsInv(mid, more);
    SettledOnceForAll(mid, more, l.runs[i].requestKey);
    ClosedRunStays(Run(mid, more), late, i);
  }

  lemma ClosedRunStays(l: Ledger, late: Op, i: nat)
    requires Inv(l) && i < |l.runs| && !l.runs[i].status.Reserved? && late.OpSettle? && late.runId == l.runs[i].runId
    ensures Apply(l, late) == l
  {
    IdsDistinct(l.runs);
    assert FindRun(l.runs, late.runId) == i;
  }

  /** Run ids are distinct, and the attempts of each key are exactly 1..n. */
  lemma AttemptsAreExactly(ops: seq<Op>, key: RequestKey, k: nat)
    requires ValidOps(ops)
    ensures var runs := Run(EMPTY, ops).runs;
            && (forall i, j :: 0 <= i < j < |runs| ==> runs[i].runId != runs[j].runId)
            && (0 <= FindRun(runs, RunId(key, k)) <==> 1 <= k <= CountKey(runs, key))
  {
    RunKeepsInv(EMPTY, ops);
    var runs := Run(EMPTY, ops).runs;
    IdsDistinct(runs);
    if 1 <= k <= CountKey(runs, key) {
      AttemptExists(runs, key, k);
    }
    var i := FindRun(runs, RunId(key, k));
    if 0 <= i {
      assert RowOk(runs[i]);
      AttemptBounded(runs, i);
    }
  }

  // ---------------------------------------------------------------- the totals are only a cache

  /** The ledger without cached totals: a limit and the run table. */
  datatype Table = Table(limit: Option<int>, runs: seq<RunRow>)

  /** What a caller sees of an operation. */
  datatype Seen =
    | SeenReserve(reserve: Reply<(RunRow, bool)>)
    | SeenSettle(settle: Reply<RunRow>)
    | SeenState(refused: bool, limit: int, reserved: int, spent: int, remaining: int)

  function TableOf(l: Ledger): Table {
    Table(if l.budget.Some? then Some(l.budget.value.limit) else None, l.runs)
  }

  function Observe(l: Ledger, op: Op): Seen {
    match op
    case OpReserve(limits, key, estimate, now) => SeenReserve(Reserve(l, limits, key, estimate, now).1)
    case OpSettle(limits, runId, s, now) => SeenSettle(Finalise(l, limits, runId, s, now).1)
    case OpState(limits, now) =>
      match State(l, limits, now).1
      case Raised(_) => SeenState(true, 0, 0, 0, 0)
      case Returned(b) => SeenState(false, b.limit, b.reserved, b.spent, b.remaining)
  }

  /** The same operations with every amount recomputed from the table: no running total, no clamp. */
  function TableStep(t: Table, op: Op): (Table, Seen) {
    var tooLow := t.limit.Some? && op.limits.limit < Committed(t.runs);
    match op
    case OpReserve(limits, key, estimate, now) =>
      var existing := NewestCompleted(t.runs, key);
      if existing.Some? then (t, SeenReserve(Returned((existing.value, true))))
      else if limits.perRun < estimate then (t, SeenReserve(Raised(OpenAIPerRunLimitError)))
      else if tooLow then (t, SeenReserve(Raised(OpenAIBudgetConfigurationError)))
      else if limits.limit < Committed(t.runs) + estimate then (t, SeenReserve(Raised(OpenAIBudgetExceededError)))
      else if estimate < 0 then (t, SeenReserve(Raised(ValidationError)))
      else
        var row := NewRun(t.runs, limits, key, estimate, now);
        (Table(Some(limits.limit), ReclaimRows(t.runs, now) + [row]), SeenReserve(Returned((row, false))))
    case OpSettle(limits, runId, s, now) =>
      if s.actualCost < 0 then (t, SeenSettle(Raised(ValueError)))
      else
        var i := FindRun(t.runs, runId);
        if i < 0 then (t, SeenSettle(Raised(OpenAIRunNotFoundError)))
        else if !t.runs[i].status.Reserved? then (t, SeenSettle(Returned(t.runs[i])))
        else if tooLow then (t, SeenSettle(Raised(OpenAIBudgetConfigurationError)))
        else
          var row := SettleRow(t.runs[i], s, now);
          (Table(Some(limits.limit), t.runs[i := row]), SeenSettle(Returned(row)))
    case OpState(limits, now) =>
      if tooLow then (t, SeenState(true, 0, 0, 0, 0))
      else
        var runs := ReclaimRows(t.runs, now);
        (Table(Some(limits.limit), runs),
         SeenState(false, limits.limit, SumReserved(runs), SumSpent(runs), limits.limit - Committed(runs)))
  }

  function TableRun(t: Table, ops: seq<Op>): Table {
    if ops == [] then t else TableStep(TableRun(t, ops[..|ops| - 1]), ops[|ops| - 1]).0
  }

  lemma ReclaimKeepsCommitted(l: Ledger, limits: Limits, now: Time)
    requires Inv(l) && limits.Valid() && LockedBudget(l.budget, limits, now).Returned?
    ensures var b := ReclaimBudget(LockedBudget(l.budget, limits, now).value, l.runs, now);
            b.limit == limits.limit && b.spent + b.reserved == Committed(l.runs)
  {
    LockedPreserves(l, limits, now);
    ReclaimPreserves(LockedBudget(l.budget, limits, now).value, l.runs, now);
  }

  lemma ReservePastLock(l: Ledger, limits: Limits, key: RequestKey, estimate: int, now: Time)
    requires LockedBudget(l.budget, limits, now).Returned? && NewestCompleted(l.runs, key).None? && estimate <= limits.perRun
    ensures var b := ReclaimBudget(LockedBudget(l.budget, limits, now).value, l.runs, now); var runs := ReclaimRows(l.runs, now);
            var (after, reply) := Reserve(l, limits, key, estimate, now); var row := NewRun(runs, limits, key, estimate, now);
            if b.limit < b.spent + b.reserved + estimate then after == l && reply == Raised(OpenAIBudgetExceededError)
            else if estimate < 0 then after == l && reply == Raised(ValidationError)
            else TableOf(after) == Table(Some(b.limit), runs + [row]) && reply == Returned((row, false))
  {}

  lemma NewRunAfterReclaim(runs: seq<RunRow>, limits: Limits, key: RequestKey, estimate: int, now: Time)
    ensures NewRun(ReclaimRows(runs, now), limits, key, estimate, now) == NewRun(runs, limits, key, estimate, now)
  {
    ReclaimKeepsKeys(runs, now, key);
  }

  /** Past reuse, the per-run cap and the lock, a reservation is decided by the committed amount alone. */
  lemma ReserveDecided(l: Ledger, limits: Limits, key: RequestKey, estimate: int, now: Time)
    requires Inv(l) && limits.Valid() && LockedBudget(l.budget, limits, now).Returned?
    requires NewestCompleted(l.runs, key).None? && estimate <= limits.perRun
    ensures var (after, reply) := Reserve(l, limits, key, estimate, now); var row := NewRun(l.runs, limits, key, estimate, now);
            if limits.limit < Committed(l.runs) + estimate then after == l && reply == Raised(OpenAIBudgetExceededError)
            else if estimate < 0 then after == l && reply == Raised(ValidationError)
            else TableOf(after) == Table(Some(limits.limit), ReclaimRows(l.runs, now) + [row]) && reply == Returned((row, false))
  {
    NewRunAfterReclaim(l.runs, limits, key, estimate, now);
    ReclaimKeepsCommitted(l, limits, now);
    ReservePastLock(l, limits, key, estimate, now);
  }

  lemma ReserveRefines(l: Ledger, op: Op)
    requires Inv(l) && ValidOp(op) && op.OpReserve?
    ensures TableStep(TableOf(l), op) == (TableOf(Apply(l, op)), Observe(l, op))
  {
    var limits := op.limits;
    if NewestCompleted(l.runs, op.key).Some? || limits.perRun < op.estimate {
      ReserveSettledEarly(l, op);
    } else if LockedBudget(l.budget, limits, op.now).Raised? {
      assert Reserve(l, limits, op.key, op.estimate, op.now) == (l, Raised(OpenAIBudgetConfigurationError));
    } else {
      ReserveDecided(l, limits, op.key, op.estimate, op.now);
    }
  }

  lemma ReserveSettledEarly(l: Ledger, op: Op)
    requires op.OpReserve? && (NewestCompleted(l.runs, op.key).Some? || op.limits.perRun < op.estimate)
    ensures TableStep(TableOf(l), op) == (TableOf(Apply(l, op)), Observe(l, op))
  {}

  lemma ReadState(b: BudgetRow, runs: seq<RunRow>)
    requires Totals(b, runs) && Committed(runs) <= b.limit
    ensures var m := StateModel(b);
            m.limit == b.limit && m.reserved == SumReserved(runs) && m.spent == SumSpent(runs) && m.remaining == b.limit - Committed(runs)
  {}

  lemma StateRefines(l: Ledger, op: Op)
    requires Inv(l) && ValidOp(op) && op.OpState?
    ensures TableStep(TableOf(l), op) == (TableOf(Apply(l, op)), Observe(l, op))
  {
    var locked := LockedBudget(l.budget, op.limits, op.now);
    if locked.Returned? {
      LockedPreserves(l, op.limits, op.now);
      ReclaimPreserves(locked.value, l.runs, op.now);
      var b, runs := ReclaimBudget(locked.value, l.runs, op.now), ReclaimRows(l.runs, op.now);
      ReadState(b, runs);
      assert State(l, op.limits, op.now) == (Ledger(Some(b), runs), Returned(StateModel(b)));
    } else {
      assert State(l, op.limits, op.now).1.Raised?;
    }
  }

  lemma SettleRefines(l: Ledger, op: Op)
    requires Inv(l) && ValidOp(op) && op.OpSettle?
    ensures TableStep(TableOf(l), op) == (TableOf(Apply(l, op)), Observe(l, op))
  {}

  lemma StepRefines(l: Ledger, op: Op)
    requires Inv(l) && ValidOp(op)
    ensures TableStep(TableOf(l), op) == (TableOf(Apply(l, op)), Observe(l, op))
  {
    match op
    case OpReserve(_, _, _, _) => ReserveRefines(l, op);
    case OpSettle(_, _, _, _) => SettleRefines(l, op);
    case OpState(_, _) => StateRefines(l, op);
  }

  lemma {:induction false} RunRefines(ops: seq<Op>)
    requires ValidOps(ops)
    ensures TableOf(Run(EMPTY, ops)) == TableRun(TableOf(EMPTY), ops)
  {
    if ops == [] {
    } else {
      var before := ops[..|ops| - 1];
      RunRefines(before);
      RunKeepsInv(EMPTY, before);
      StepRefines(Run(EMPTY, before), ops[|ops| - 1]);
    }
  }

  /** Over any history the ledger and the table without totals give the same replies and hold the same
      rows and limit: running totals and their clamps are never observable. */
  lemma TotalsAreACache(ops: seq<Op>, op: Op)
    requires ValidOps(ops) && ValidOp(op)
    ensures TableOf(Run(EMPTY, ops)) == TableRun(TableOf(EMPTY), ops)
    ensures Observe(Run(EMPTY, ops), op) == TableStep(TableRun(TableOf(EMPTY), ops), op).1
  {
    RunRefines(ops);
    RunKeepsInv(EMPTY, ops);
    StepRefines(Run(EMPTY, ops), op);
  }
}
