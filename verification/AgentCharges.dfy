/** What a review run costs: the row a run waits on stays open for the agent's time to live, and each kind of client
    answer that arrives while it is open is booked in its own way. */
module AgentCharges {
  import opened Common
  import opened Models
  import opened AgentModels
  import opened AgentReview
  import opened Cost
  import opened Store
  import opened Evaluation
  import opened Gateway
  import opened Workflow
  import opened Agent
  import opened AgentSystem
  import opened AgentSafety
  import L = BudgetLedger
  import P = BudgetProofs
  import B = BudgetLifetimes

  // ---------------------------------------------------------------- what an answer books

  /** How the open row of a run is closed by an answer: an exception charges the whole reservation and leaves no
      usage; a response is charged what its usage costs, whether its review is accepted or not. */
  predicate BookedAs(p: Waiting, answer: ClientAnswer, after: L.RunRow, now: Time) {
    && after.runId == p.row.runId && after.reservedCost == p.row.reservedCost
    && after.completedAt == Some(now)
    && match answer
       case ClientRaised(name) =>
         && after.status.FailedRun? && after.actualCost == p.row.reservedCost && after.errorCode == Some(RequestFailed(name))
         && after.review.None? && after.responseId.None? && after.validationErrors == []
       case Responded(id, review, usage) =>
         && CostForUsage(p.config.model, usage) == Returned(after.actualCost)
         && after.usage == Some(usage) && after.responseId == Some(id)
         && if Accepts(p.current.decision, review)
            then after.status.Completed? && after.review == Some(review) && after.errorCode.None? && after.validationErrors == []
            else after.status.Rejected? && after.review.None? && after.errorCode == Some(OutputRejected) && after.validationErrors != []
  }

  /** The row of the run is the open one that its reservation stored. */
  predicate OpenFor(runs: seq<L.RunRow>, p: Waiting) {
    0 <= L.FindRun(runs, p.row.runId) && RowOf(runs, p) == p.row && p.row.status.Reserved?
  }

  /** The settlement that an answer asks for; a run that got as far as reserving has a priced model. */
  predicate AsksFor(p: Waiting, answer: ClientAnswer, s: L.Settlement) {
    SettlementFor(p.config, p.current.decision, p.row, answer) == Returned(s) && !s.status.Reserved?
    && 0 <= s.actualCost && (s.status.Completed? ==> s.review.Some?)
  }

  lemma AnswersArePriced(p: Waiting, answer: ClientAnswer)
    requires EstimateFor(p.config, p.current.decision).Returned? && 0 <= p.row.reservedCost
    ensures var r := SettlementFor(p.config, p.current.decision, p.row, answer); r.Returned? && AsksFor(p, answer, r.value)
  {}

  lemma SettledRowIsBooked(p: Waiting, answer: ClientAnswer, s: L.Settlement, after: L.RunRow, now: Time)
    requires AsksFor(p, answer, s) && B.SettledAs(p.row, after, s, now)
    ensures BookedAs(p, answer, after, now)
  {
    if answer.Responded? {
      ValidateExactly(answer.review, p.current.decision);
    }
  }

  /** The two sums of the run table move by the reservation released and the amount charged. */
  predicate Exchanged(before: seq<L.RunRow>, after: seq<L.RunRow>, reserved: int, charged: int) {
    P.SumReserved(after) == P.SumReserved(before) - reserved && P.SumSpent(after) == P.SumSpent(before) + charged
  }

  /** The row of the run after its settlement, and what the settlement moved. */
  predicate SettledFor(before: seq<L.RunRow>, after: seq<L.RunRow>, p: Waiting, answer: ClientAnswer, now: Time) {
    && 0 <= L.FindRun(after, p.row.runId)
    && BookedAs(p, answer, RowOf(after, p), now)
    && Exchanged(before, after, p.row.reservedCost, RowOf(after, p).actualCost)
  }

  lemma SettlesOpenRow(l: L.Ledger, p: Waiting, answer: ClientAnswer, now: Time)
    requires P.Inv(l) && OpenFor(l.runs, p) && p.config.limits.Valid() && !SettlementRefused(l, p)
    requires EstimateFor(p.config, p.current.decision).Returned?
    ensures SettledFor(l.runs, Settle(p.config, l, p.current.decision, p.row, answer, now).0.runs, p, answer, now)
  {
    var i := L.FindRun(l.runs, p.row.runId);
    assert P.RowOk(l.runs[i]);
    AnswersArePriced(p, answer);
    var s := SettlementFor(p.config, p.current.decision, p.row, answer).value;
    var op := L.OpSettle(p.config.limits, p.row.runId, s, now);
    B.SettledTotals(l, op, i);
    P.FinaliseEvolves(l, p.config.limits, p.row.runId, s, now, p.row.requestKey);
    var after := L.Apply(l, op);
    FindStable(l.runs, after.runs, p.row.runId);
    SettledRowIsBooked(p, answer, s, after.runs[i], now);
  }

  lemma SweepKeepsClosed(l: L.Ledger, limits: L.Limits, now: Time, p: Waiting)
    requires 0 <= L.FindRun(l.runs, p.row.runId) && !RowOf(l.runs, p).status.Reserved?
    ensures var after := L.State(l, limits, now).0;
            0 <= L.FindRun(after.runs, p.row.runId) && RowOf(after.runs, p) == RowOf(l.runs, p)
  {
    StateCompletesNone(l, limits, now);
    FindStable(l.runs, L.State(l, limits, now).0.runs, p.row.runId);
  }

  /** The row of the run once its answer is in, whatever the closing budget read reclaims of other runs. */
  predicate Closed(v: System, p: Waiting, answer: ClientAnswer, now: Time) {
    0 <= L.FindRun(v.ledger.runs, p.row.runId) && BookedAs(p, answer, RowOf(v.ledger.runs, p), now)
  }

  lemma FinishCloses(env: Env, s: System, i: nat, answer: ClientAnswer, clock: Clock)
    requires P.Inv(s.ledger) && i < |s.pending| && OpenFor(s.ledger.runs, s.pending[i]) && s.pending[i].config.limits.Valid()
    requires !SettlementRefused(s.ledger, s.pending[i]) && EstimateFor(s.pending[i].config, s.pending[i].current.decision).Returned?
    ensures Closed(FinishRun(env, s, i, answer, clock), s.pending[i], answer, clock.settle)
  {
    var p := s.pending[i];
    SettlesOpenRow(s.ledger, p, answer, clock.settle);
    FinishEnds(env, s, i, answer, clock);
    SweepKeepsClosed(Settle(p.config, s.ledger, p.current.decision, p.row, answer, clock.settle).0, p.config.limits, clock.read, p);
  }

  // ---------------------------------------------------------------- the row a run waits on

  /** The row is as it was reserved: it lives for the agent's time to live from its creation. */
  predicate AsReserved(p: Waiting) {
    B.FreshRow(p.row, p.row.requestKey, p.row.runId.attempt, p.row.reservedCost, p.row.createdAt,
               p.row.createdAt + p.config.limits.ttl)
  }

  /** A waiting run's row is open as reserved, or was charged in full by a sweep after its expiry. */
  predicate OpenOrCharged(runs: seq<L.RunRow>, p: Waiting) {
    && AsReserved(p) && 0 <= L.FindRun(runs, p.row.runId)
    && (RowOf(runs, p) == p.row || Charged(p.row, RowOf(runs, p)))
  }

  predicate Charged(before: L.RunRow, after: L.RunRow) {
    after.completedAt.Some? && B.ChargedInFull(before, after, after.completedAt.value) && before.expiresAt < after.completedAt.value
  }

  predicate AllOpenOrCharged(s: System) { forall i :: 0 <= i < |s.pending| ==> OpenOrCharged(s.ledger.runs, s.pending[i]) }

  /** One ledger operation that settles other runs only keeps the row open, or charges it after its expiry. */
  lemma LedgerOpKeeps(l: L.Ledger, op: L.Op, p: Waiting)
    requires P.Inv(l) && L.ValidOp(op) && OpenOrCharged(l.runs, p) && (op.OpSettle? ==> op.runId != p.row.runId)
    ensures OpenOrCharged(L.Apply(l, op).runs, p)
    ensures op.now <= p.row.expiresAt && OpenFor(l.runs, p) ==> OpenFor(L.Apply(l, op).runs, p)
  {
    var i := L.FindRun(l.runs, p.row.runId);
    P.StepEvolves(l, op, p.row.requestKey);
    FindStable(l.runs, L.Apply(l, op).runs, p.row.runId);
    if l.runs[i].status.Reserved? {
      B.OpenRowStep(l, op, i);
    }
  }

  /** From `before` to `after` the row stays open or charged, and stays open when all clocks were in time. */
  predicate KeptFor(before: seq<L.RunRow>, after: seq<L.RunRow>, p: Waiting, inTime: bool) {
    OpenOrCharged(before, p) ==> OpenOrCharged(after, p) && (inTime && OpenFor(before, p) ==> OpenFor(after, p))
  }

  lemma StartKeepsRow(config: AgentConfig, t: Tables, l: L.Ledger, request: RunRequest, now: Time, p: Waiting)
    requires P.Inv(l) && config.limits.Valid()
    ensures var after := Start(config, t, l, request, now).0;
            P.Inv(after) && KeptFor(l.runs, after.runs, p, now <= p.row.expiresAt)
  {
    var after := Start(config, t, l, request, now).0;
    if after != l {
      var d := GetState(t, request.decisionId).value.decision;
      var op := L.OpReserve(config.limits, KeyFor(config, d, request.decisionId), EstimateFor(config, d).value, now);
      P.StepKeepsInv(l, op);
      if OpenOrCharged(l.runs, p) {
        LedgerOpKeeps(l, op, p);
      }
    }
  }

  lemma ReadKeepsRow(l: L.Ledger, limits: L.Limits, now: Time, p: Waiting)
    requires P.Inv(l) && limits.Valid()
    ensures KeptFor(l.runs, L.State(l, limits, now).0.runs, p, now <= p.row.expiresAt)
  {
    if OpenOrCharged(l.runs, p) {
      LedgerOpKeeps(l, L.OpState(limits, now), p);
    }
  }

  /** A settlement touches no row but its own, at any clock. */
  lemma SettleKeepsRow(l: L.Ledger, q: Waiting, answer: ClientAnswer, now: Time, p: Waiting)
    requires P.Inv(l) && q.config.limits.Valid() && q.row.runId != p.row.runId
    ensures var after := Settle(q.config, l, q.current.decision, q.row, answer, now).0;
            P.Inv(after) && KeptFor(l.runs, after.runs, p, true)
  {
    var settlement := SettlementFor(q.config, q.current.decision, q.row, answer);
    if settlement.Returned? {
      var op := L.OpSettle(q.config.limits, q.row.runId, settlement.value, now);
      P.StepKeepsInv(l, op);
      if OpenOrCharged(l.runs, p) {
        P.FinaliseEvolves(l, q.config.limits, q.row.runId, settlement.value, now, p.row.requestKey);
        SettleLeavesRow(l, op, p);
      }
    }
  }

  lemma SettleLeavesRow(l: L.Ledger, op: L.Op, p: Waiting)
    requires OpenOrCharged(l.runs, p) && op.OpSettle? && op.runId != p.row.runId && P.Evolves(l.runs, L.Apply(l, op).runs)
    ensures KeptFor(l.runs, L.Apply(l, op).runs, p, true)
  {
    FindStable(l.runs, L.Apply(l, op).runs, p.row.runId);
    assert L.FindRun(l.runs, op.runId) != L.FindRun(l.runs, p.row.runId);
  }

  lemma KeptTransitive(a: seq<L.RunRow>, b: seq<L.RunRow>, c: seq<L.RunRow>, p: Waiting, first: bool, second: bool)
    requires KeptFor(a, b, p, first) && KeptFor(b, c, p, second)
    ensures KeptFor(a, c, p, first && second)
  {}

  /** Every sweep of the step reads its clock no later than `until`. */
  predicate InTime(op: SystemOp, until: Time) {
    match op
    case Govern(_) => true
    case ReadBudget(_, now) => now <= until
    case Begin(_, _, clock) => clock.reserve <= until && clock.read <= until
    case AnswerRun(_, _, clock) => clock.read <= until
  }

  /** A begun run leaves the started ledger, or that ledger after one more budget read. */
  lemma BeginEnds(env: Env, s: System, config: AgentConfig, request: RunRequest, clock: Clock)
    ensures var v := BeginRun(env, s, config, request, clock);
            var (l, started) := Start(config, s.world.tables, s.ledger, request, clock.reserve);
            && (v.ledger == l || v.ledger == L.State(l, config.limits, clock.read).0)
            && v.pending == (if started.Returned? && !started.value.1
                             then s.pending + [Waiting(config, request, GetState(s.world.tables, request.decisionId).value, started.value.0)]
                             else s.pending)
            && (started.Returned? && !started.value.1 ==> v.ledger == l)
  {}

  lemma BeginKeepsRow(env: Env, s: System, config: AgentConfig, request: RunRequest, clock: Clock, p: Waiting)
    requires P.Inv(s.ledger) && config.limits.Valid()
    ensures KeptFor(s.ledger.runs, BeginRun(env, s, config, request, clock).ledger.runs, p,
                    InTime(Begin(config, request, clock), p.row.expiresAt))
  {
    var l := Start(config, s.world.tables, s.ledger, request, clock.reserve).0;
    var v := BeginRun(env, s, config, request, clock);
    StartKeepsRow(config, s.world.tables, s.ledger, request, clock.reserve, p);
    BeginEnds(env, s, config, request, clock);
    if v.ledger != l {
      ReadKeepsRow(l, config.limits, clock.read, p);
    }
  }

  lemma FinishKeepsRow(env: Env, s: System, i: nat, answer: ClientAnswer, clock: Clock, p: Waiting)
    requires P.Inv(s.ledger) && i < |s.pending| && s.pending[i].config.limits.Valid() && s.pending[i].row.runId != p.row.runId
    ensures KeptFor(s.ledger.runs, FinishRun(env, s, i, answer, clock).ledger.runs, p, clock.read <= p.row.expiresAt)
  {
    var q := s.pending[i];
    var l := Settle(q.config, s.ledger, q.current.decision, q.row, answer, clock.settle).0;
    SettleKeepsRow(s.ledger, q, answer, clock.settle, p);
    FinishEnds(env, s, i, answer, clock);
    if FinishRun(env, s, i, answer, clock).ledger != l {
      ReadKeepsRow(l, q.config.limits, clock.read, p);
    }
  }

  lemma StepKeepsRow(env: Env, s: System, op: SystemOp, p: Waiting)
    requires P.Inv(s.ledger) && ValidOp(op) && PendingValid(s.pending)
    requires op.AnswerRun? && op.index < |s.pending| ==> s.pending[op.index].row.runId != p.row.runId
    ensures KeptFor(s.ledger.runs, Apply(env, s, op).ledger.runs, p, InTime(op, p.row.expiresAt))
  {
    match op {
      case Govern(_) =>
      case ReadBudget(limits, now) => ReadKeepsRow(s.ledger, limits, now, p);
      case Begin(config, request, clock) => BeginKeepsRow(env, s, config, request, clock, p);
      case AnswerRun(i, answer, clock) =>
        if i < |s.pending| {
          FinishKeepsRow(env, s, i, answer, clock, p);
        }
    }
  }

  // ---------------------------------------------------------------- the run that begins to wait

  /** The row of a run that begins to wait: a fresh reservation of its own key, at its estimate, from now until the
      agent's time to live is over; no earlier row has its id. */
  predicate BegunRow(before: seq<L.RunRow>, after: seq<L.RunRow>, p: Waiting, now: Time) {
    && AsReserved(p) && p.row.createdAt == now && p.row.expiresAt == now + p.config.limits.ttl
    && EstimateFor(p.config, p.current.decision) == Returned(p.row.reservedCost)
    && p.row.requestKey == KeyFor(p.config, p.current.decision, p.request.decisionId)
    && L.FindRun(before, p.row.runId) == -1 && OpenFor(after, p)
  }

  /** The step made this run wait. */
  ghost predicate Begun(s: System, v: System, config: AgentConfig, request: RunRequest, clock: Clock) {
    && |v.pending| == |s.pending| + 1 && v.pending[..|s.pending|] == s.pending
    && var p := v.pending[|s.pending|];
    p.config == config && p.request == request && BegunRow(s.ledger.runs, v.ledger.runs, p, clock.reserve)
  }

  lemma GrantIsFresh(l: L.Ledger, op: L.Op)
    requires P.Inv(l) && L.ValidOp(op) && B.Grants(l, op)
    ensures var after, row := L.Apply(l, op), L.Reserve(l, op.limits, op.key, op.estimate, op.now).1.value.0;
            && B.FreshRow(row, op.key, row.runId.attempt, op.estimate, op.now, op.now + op.limits.ttl)
            && L.FindRun(l.runs, row.runId) == -1 && L.FindRun(after.runs, row.runId) == |l.runs| && after.runs[|l.runs|] == row
  {
    var after := L.Apply(l, op);
    B.GrantStores(l, op);
    P.StepKeepsInv(l, op);
    P.IdsDistinct(after.runs);
    P.StepEvolves(l, op, op.key);
  }

  lemma BeginReserves(env: Env, s: System, config: AgentConfig, request: RunRequest, clock: Clock)
    requires P.Inv(s.ledger) && config.limits.Valid()
    requires |BeginRun(env, s, config, request, clock).pending| != |s.pending|
    ensures Begun(s, BeginRun(env, s, config, request, clock), config, request, clock)
  {
    BeginEnds(env, s, config, request, clock);
    StartReserves(config, s.world.tables, s.ledger, request, clock.reserve);
  }

  lemma StartReserves(config: AgentConfig, t: Tables, l: L.Ledger, request: RunRequest, now: Time)
    requires P.Inv(l) && config.limits.Valid()
    requires var r := Start(config, t, l, request, now).1; r.Returned? && !r.value.1
    ensures var (after, r) := Start(config, t, l, request, now);
            BegunRow(l.runs, after.runs, Waiting(config, request, GetState(t, request.decisionId).value, r.value.0), now)
  {
    var d := GetState(t, request.decisionId).value.decision;
    GrantIsFresh(l, L.OpReserve(config.limits, KeyFor(config, d, request.decisionId), EstimateFor(config, d).value, now));
  }

  /** Where the waiting runs after a step come from: they waited before and were not answered, or the step began them
      with an open row of an id that was not in the table. */
  ghost predicate Remains(s: System, v: System, op: SystemOp, p: Waiting) {
    || (exists k :: 0 <= k < |s.pending| && s.pending[k] == p && (op.AnswerRun? ==> op.index != k))
    || (AsReserved(p) && L.FindRun(s.ledger.runs, p.row.runId) == -1 && OpenFor(v.ledger.runs, p))
  }

  lemma StepRemains(env: Env, s: System, op: SystemOp, i: nat)
    requires P.Inv(s.ledger) && ValidOp(op) && i < |Apply(env, s, op).pending|
    ensures Remains(s, Apply(env, s, op), op, Apply(env, s, op).pending[i])
  {
    var v := Apply(env, s, op);
    match op {
      case Begin(config, request, clock) =>
        BeginEnds(env, s, config, request, clock);
        if i < |s.pending| {
          assert s.pending[i] == v.pending[i];
        } else {
          BeginReserves(env, s, config, request, clock);
        }
      case AnswerRun(j, answer, clock) =>
        var k := if j < |s.pending| && j <= i then i + 1 else i;
        assert s.pending[k] == v.pending[i];
      case _ => assert s.pending[i] == v.pending[i];
    }
  }

  lemma DistinctRuns(runs: seq<L.RunRow>, pending: seq<Waiting>, j: nat, k: nat)
    requires AllUnanswered(runs, pending) && j < |pending| && k < |pending| && j != k
    ensures pending[j].row.runId != pending[k].row.runId
  {
    if j < k {
    } else {
      assert pending[k].row.runId != pending[j].row.runId;
    }
  }

  lemma StepKeepsWaiting(env: Env, s: System, op: SystemOp, i: nat)
    requires P.Inv(s.ledger) && ValidOp(op) && PendingValid(s.pending) && AllUnanswered(s.ledger.runs, s.pending)
    requires i < |Apply(env, s, op).pending| && AllOpenOrCharged(s)
    ensures OpenOrCharged(Apply(env, s, op).ledger.runs, Apply(env, s, op).pending[i])
  {
    var v := Apply(env, s, op);
    var p := v.pending[i];
    StepRemains(env, s, op, i);
    if k :| 0 <= k < |s.pending| && s.pending[k] == p && (op.AnswerRun? ==> op.index != k) {
      if op.AnswerRun? && op.index < |s.pending| {
        DistinctRuns(s.ledger.runs, s.pending, op.index, k);
      }
      StepKeepsRow(env, s, op, p);
    }
  }

  lemma {:induction false} RunKeepsWaiting(env: Env, ops: seq<SystemOp>)
    requires ValidOps(ops)
    ensures AllOpenOrCharged(Run(env, ops))
  {
    if ops == [] {
    } else {
      var before, op := ops[..|ops| - 1], ops[|ops| - 1];
      RunKeepsWaiting(env, before);
      LedgerKept(env, before);
      LedgerIsLedger(env, before);
      RunKeepsUnanswered(env, before);
      var s := Run(env, before);
      forall i | 0 <= i < |Run(env, ops).pending| ensures OpenOrCharged(Run(env, ops).ledger.runs, Run(env, ops).pending[i]) {
        StepKeepsWaiting(env, s, op, i);
      }
    }
  }

  /** What the answer of run `p` leaves: its row closed as the answer says when it was still open, and otherwise the
      row that a sweep charged. */
  predicate AnswerBooked(s: System, v: System, p: Waiting, answer: ClientAnswer, now: Time) {
    && OpenOrCharged(s.ledger.runs, p)
    && if RowOf(s.ledger.runs, p) == p.row then Closed(v, p, answer, now)
       else Charged(p.row, RowOf(s.ledger.runs, p))
            && 0 <= L.FindRun(v.ledger.runs, p.row.runId) && RowOf(v.ledger.runs, p) == RowOf(s.ledger.runs, p)
  }

  lemma FinishLeavesCharged(env: Env, s: System, i: nat, answer: ClientAnswer, clock: Clock)
    requires i < |s.pending|
    requires 0 <= L.FindRun(s.ledger.runs, s.pending[i].row.runId) && !RowOf(s.ledger.runs, s.pending[i]).status.Reserved?
    ensures var v, p := FinishRun(env, s, i, answer, clock), s.pending[i];
            0 <= L.FindRun(v.ledger.runs, p.row.runId) && RowOf(v.ledger.runs, p) == RowOf(s.ledger.runs, p)
  {
    var p := s.pending[i];
    FinishEnds(env, s, i, answer, clock);
    SettleLeavesClosed(s.ledger, p, answer, clock.settle);
    SweepKeepsClosed(s.ledger, p.config.limits, clock.read, p);
  }

  lemma SettleLeavesClosed(l: L.Ledger, p: Waiting, answer: ClientAnswer, now: Time)
    requires 0 <= L.FindRun(l.runs, p.row.runId) && !RowOf(l.runs, p).status.Reserved?
    ensures Settle(p.config, l, p.current.decision, p.row, answer, now).0 == l
  {}

  lemma FinishBooksExactly(env: Env, s: System, i: nat, answer: ClientAnswer, clock: Clock)
    requires P.Inv(s.ledger) && i < |s.pending| && OpenOrCharged(s.ledger.runs, s.pending[i])
    requires s.pending[i].config.limits.Valid() && !SettlementRefused(s.ledger, s.pending[i])
    requires EstimateFor(s.pending[i].config, s.pending[i].current.decision).Returned?
    ensures AnswerBooked(s, FinishRun(env, s, i, answer, clock), s.pending[i], answer, clock.settle)
  {
    if RowOf(s.ledger.runs, s.pending[i]) == s.pending[i].row {
      FinishCloses(env, s, i, answer, clock);
    } else {
      FinishLeavesCharged(env, s, i, answer, clock);
    }
  }

  /** What each answer books, exactly: in every reachable state a waiting run's row is the one its reservation stored,
      open until the agent's time to live is over, or it was charged in full by a sweep after that. While it is open an
      answer that is not refused closes it: an exception charges the whole reservation, a response the price of its
      usage, and only an accepted review is stored. A charged row stays as it is. */
  lemma AnswerBooksExactly(env: Env, ops: seq<SystemOp>, i: nat, answer: ClientAnswer, clock: Clock)
    requires ValidOps(ops) && i < |Run(env, ops).pending| && !SettlementRefused(Run(env, ops).ledger, Run(env, ops).pending[i])
    ensures var s := Run(env, ops); AnswerBooked(s, FinishRun(env, s, i, answer, clock), s.pending[i], answer, clock.settle)
  {
    RunKeepsWaiting(env, ops);
    RunKeeps(env, ops);
    LedgerKept(env, ops);
    LedgerIsLedger(env, ops);
    var s := Run(env, ops);
    assert WaitingOk(s.world.tables, s.ledger.runs, s.pending[i]);
    FinishBooksExactly(env, s, i, answer, clock);
  }

  // ---------------------------------------------------------------- answers in time

  /** The run's row is known, and open as long as the run waits. */
  ghost predicate Lives(s: System, p: Waiting) {
    0 <= L.FindRun(s.ledger.runs, p.row.runId) && (p in s.pending ==> OpenFor(s.ledger.runs, p))
  }

  lemma FoundStays(before: L.Ledger, after: L.Ledger, id: L.RunId)
    requires LedgerSteps(before, after) && 0 <= L.FindRun(before.runs, id)
    ensures 0 <= L.FindRun(after.runs, id)
  {
    var mid :| LedgerStep(before, mid) && LedgerStep(mid, after);
    FoundStaysOnce(before, mid, id);
    FoundStaysOnce(mid, after, id);
  }

  lemma FoundStaysOnce(before: L.Ledger, after: L.Ledger, id: L.RunId)
    requires LedgerStep(before, after) && 0 <= L.FindRun(before.runs, id)
    ensures 0 <= L.FindRun(after.runs, id)
  {
    if after != before {
      var op :| L.ValidOp(op) && after == L.Apply(before, op);
      P.StepEvolves(before, op, id.requestKey);
      FindStable(before.runs, after.runs, id);
    }
  }

  /** What every reachable state keeps. */
  predicate Sound(s: System) {
    P.Inv(s.ledger) && PendingValid(s.pending) && AllUnanswered(s.ledger.runs, s.pending) && AllOpenOrCharged(s)
  }

  lemma RunIsSound(env: Env, ops: seq<SystemOp>)
    requires ValidOps(ops)
    ensures Sound(Run(env, ops))
  {
    RunKeepsWaiting(env, ops);
    LedgerKept(env, ops);
    LedgerIsLedger(env, ops);
    RunKeepsUnanswered(env, ops);
  }

  lemma StepLives(env: Env, s: System, op: SystemOp, p: Waiting)
    requires Sound(s) && ValidOp(op) && Lives(s, p) && InTime(op, p.row.expiresAt)
    ensures Lives(Apply(env, s, op), p)
  {
    var v := Apply(env, s, op);
    StepLedger(env, s, op);
    FoundStays(s.ledger, v.ledger, p.row.runId);
    if i :| 0 <= i < |v.pending| && v.pending[i] == p {
      StillOpen(env, s, op, p, i);
    }
  }

  lemma StillOpen(env: Env, s: System, op: SystemOp, p: Waiting, i: nat)
    requires Sound(s) && ValidOp(op) && Lives(s, p) && InTime(op, p.row.expiresAt)
    requires i < |Apply(env, s, op).pending| && Apply(env, s, op).pending[i] == p
    ensures OpenFor(Apply(env, s, op).ledger.runs, p)
  {
    StepRemains(env, s, op, i);
    if k :| 0 <= k < |s.pending| && s.pending[k] == p && (op.AnswerRun? ==> op.index != k) {
      if op.AnswerRun? && op.index < |s.pending| {
        DistinctRuns(s.ledger.runs, s.pending, op.index, k);
      }
      StepKeepsRow(env, s, op, p);
    }
  }

  lemma LastLives(env: Env, ops: seq<SystemOp>, p: Waiting)
    requires ops != [] && ValidOps(ops) && InTime(ops[|ops| - 1], p.row.expiresAt) && Lives(Run(env, ops[..|ops| - 1]), p)
    ensures Lives(Run(env, ops), p)
  {
    var before := ops[..|ops| - 1];
    RunIsSound(env, before);
    StepLives(env, Run(env, before), ops[|ops| - 1], p);
  }

  predicate AllInTime(ops: seq<SystemOp>, until: Time) { forall k :: 0 <= k < |ops| ==> InTime(ops[k], until) }

  lemma {:induction false} RunLives(env: Env, ops: seq<SystemOp>, n: nat, p: Waiting)
    requires n <= |ops| && ValidOps(ops) && Lives(Run(env, ops[..n]), p) && AllInTime(ops[n..], p.row.expiresAt)
    ensures Lives(Run(env, ops), p)
    decreases |ops|
  {
    if n == |ops| {
      assert ops[..n] == ops;
    } else {
      var before := ops[..|ops| - 1];
      assert before[..n] == ops[..n] && before[n..] == ops[n..][..|before| - n];
      RunLives(env, before, n, p);
      assert ops[n..][|before| - n] == ops[|before|];
      LastLives(env, ops, p);
    }
  }

  /** The system after `ops` in which this run has begun. */
  function AfterBegin(env: Env, ops: seq<SystemOp>, config: AgentConfig, request: RunRequest, clock: Clock): System {
    BeginRun(env, Run(env, ops), config, request, clock)
  }

  /** The run that the step made wait, if it did. */
  function NewlyWaiting(env: Env, ops: seq<SystemOp>, config: AgentConfig, request: RunRequest, clock: Clock): Option<Waiting> {
    var s, v := Run(env, ops), AfterBegin(env, ops, config, request, clock);
    if |v.pending| == |s.pending| + 1 then Some(v.pending[|s.pending|]) else None
  }

  lemma BeginLives(env: Env, ops: seq<SystemOp>, config: AgentConfig, request: RunRequest, clock: Clock)
    requires ValidOps(ops) && config.limits.Valid() && NewlyWaiting(env, ops, config, request, clock).Some?
    ensures var p := NewlyWaiting(env, ops, config, request, clock).value;
            && p.row.expiresAt == clock.reserve + config.limits.ttl
            && Lives(Run(env, ops + [Begin(config, request, clock)]), p)
  {
    RunSnoc(env, ops, Begin(config, request, clock));
    LedgerKept(env, ops);
    BeginReserves(env, Run(env, ops), config, request, clock);
  }

  lemma OpenInTime(env: Env, ops: seq<SystemOp>, config: AgentConfig, request: RunRequest, clock: Clock, more: seq<SystemOp>)
    requires ValidOps(ops) && ValidOps(more) && config.limits.Valid()
    requires NewlyWaiting(env, ops, config, request, clock).Some? && AllInTime(more, clock.reserve + config.limits.ttl)
    ensures Lives(Run(env, ops + [Begin(config, request, clock)] + more), NewlyWaiting(env, ops, config, request, clock).value)
  {
    var base := ops + [Begin(config, request, clock)];
    BeginLives(env, ops, config, request, clock);
    assert (base + more)[..|base|] == base && (base + more)[|base|..] == more;
    RunLives(env, base + more, |base|, NewlyWaiting(env, ops, config, request, clock).value);
  }

  /** The answer in time: an agent of time to live d begins to wait at clock t. After any further history in which no
      sweep reads a clock later than t + d, an answer that is not refused finds the row open and closes it as it says:
      an accepted review is COMPLETED and stored, never lost. */
  lemma AnswerInTime(env: Env, ops: seq<SystemOp>, config: AgentConfig, request: RunRequest, clock: Clock, more: seq<SystemOp>,
                     i: nat, answer: ClientAnswer, last: Clock)
    requires ValidOps(ops) && ValidOps(more) && config.limits.Valid()
    requires NewlyWaiting(env, ops, config, request, clock).Some? && AllInTime(more, clock.reserve + config.limits.ttl)
    requires var s := Run(env, ops + [Begin(config, request, clock)] + more);
             && i < |s.pending| && !SettlementRefused(s.ledger, s.pending[i])
             && s.pending[i] == NewlyWaiting(env, ops, config, request, clock).value
    ensures var s := Run(env, ops + [Begin(config, request, clock)] + more); var p := s.pending[i];
            OpenFor(s.ledger.runs, p) && Closed(FinishRun(env, s, i, answer, last), p, answer, last.settle)
  {
    var all := ops + [Begin(config, request, clock)] + more;
    OpenInTime(env, ops, config, request, clock, more);
    AnswerBooksExactly(env, all, i, answer, last);
  }

  // ---------------------------------------------------------------- what the caller is told

  /** The settlement of an accepted answer is not refused, and the row it answers with is the one now stored. */
  lemma SettleAnswers(l: L.Ledger, p: Waiting, answer: ClientAnswer, now: Time)
    requires EstimateFor(p.config, p.current.decision).Returned? && 0 <= p.row.reservedCost
    requires 0 <= L.FindRun(l.runs, p.row.runId) && !SettlementRefused(l, p)
    ensures var (after, r) := Settle(p.config, l, p.current.decision, p.row, answer, now);
            && 0 <= L.FindRun(after.runs, p.row.runId)
            && (answer.ClientRaised? ==> r == Raised(OpenAIResponseError))
            && (answer.Responded? ==>
                  r == if Accepts(p.current.decision, answer.review) then Returned(RowOf(after.runs, p)) else Raised(AgentOutputValidationError))
  {
    AnswersArePriced(p, answer);
    var s := SettlementFor(p.config, p.current.decision, p.row, answer).value;
    P.FinaliseEvolves(l, p.config.limits, p.row.runId, s, now, p.row.requestKey);
    FindStable(l.runs, L.Finalise(l, p.config.limits, p.row.runId, s, now).0.runs, p.row.runId);
    if answer.Responded? {
      ValidateExactly(answer.review, p.current.decision);
    }
  }

  /** The state an advanced run reports: what submitting answers, or the one it started from. */
  function Progress(env: Env, w: World, p: Waiting, now: Time): Reply<WorkflowState> {
    if Advances(p.request, p.current.decision) then Submit(env, w, p.request.decisionId, p.request.actorId, now).1
    else Returned(p.current)
  }

  /** What the caller of a run is told once the client has answered. */
  predicate ToldOf(env: Env, s: System, p: Waiting, answer: ClientAnswer, clock: Clock, r: Reply<AgentResult>) {
    var settled := Settle(p.config, s.ledger, p.current.decision, p.row, answer, clock.settle).0;
    match answer
    case ClientRaised(_) => r == Raised(OpenAIResponseError)
    case Responded(_, review, _) =>
      if !Accepts(p.current.decision, review) then r == Raised(AgentOutputValidationError)
      else
        match Progress(env, s.world, p, clock.submit)
        case Raised(e) => r == Raised(e)
        case Returned(state) =>
          && (r.Raised? <==> p.config.limits.limit < P.Committed(settled.runs))
          && (r.Raised? ==> r == Raised(OpenAIBudgetConfigurationError))
          && (r.Returned? ==>
                && !r.value.reused && r.value.workflow == state
                && 0 <= L.FindRun(settled.runs, p.row.runId) && r.value.run == RowOf(settled.runs, p)
                && r.value.budget.limit == p.config.limits.limit
                && r.value.budget.remaining == p.config.limits.limit - P.Committed(settled.runs))
  }

  lemma ReadAnswers(l: L.Ledger, limits: L.Limits, now: Time)
    requires P.Inv(l) && limits.Valid()
    ensures var r := L.State(l, limits, now).1;
            && (r.Raised? <==> limits.limit < P.Committed(l.runs))
            && (r.Raised? ==> r == Raised(OpenAIBudgetConfigurationError))
            && (r.Returned? ==> r.value.limit == limits.limit && r.value.remaining == limits.limit - P.Committed(l.runs))
  {
    B.LockedExactly(l, limits, now);
    if L.LockedBudget(l.budget, limits, now).Returned? {
      P.ReclaimKeepsCommitted(l, limits, now);
    }
  }

  lemma SettleKeepsLedger(l: L.Ledger, p: Waiting, answer: ClientAnswer, now: Time)
    requires P.Inv(l) && p.config.limits.Valid()
    ensures P.Inv(Settle(p.config, l, p.current.decision, p.row, answer, now).0)
  {
    var settlement := SettlementFor(p.config, p.current.decision, p.row, answer);
    if settlement.Returned? {
      P.StepKeepsInv(l, L.OpSettle(p.config.limits, p.row.runId, settlement.value, now));
    }
  }

  lemma AcceptedAdvances(env: Env, w: World, p: Waiting, review: Review, now: Time)
    requires Accepts(p.current.decision, review)
    ensures Advance(env, w, p.request, review.nextStep, p.current, now).1 == Progress(env, w, p, now)
  {}

  /** The report of an accepted run: the workflow's error, the budget's, or both results. */
  lemma AcceptedReport(env: Env, w: World, l: L.Ledger, p: Waiting, row: L.RunRow, review: Review, clock: Clock)
    requires Accepts(p.current.decision, review)
    ensures var r := Conclude(p.config, env, w, l, p.request, row, review.nextStep, p.current, false, clock).2;
            var state := Progress(env, w, p, clock.submit); var budget := L.State(l, p.config.limits, clock.read).1;
            r == if state.Raised? then Raised(state.error)
                 else if budget.Raised? then Raised(budget.error)
                 else Returned(AgentResult(row, budget.value, state.value, false))
  {
    AcceptedAdvances(env, w, p, review, clock.submit);
  }

  lemma FinishTells(env: Env, s: System, p: Waiting, answer: ClientAnswer, clock: Clock)
    requires P.Inv(s.ledger) && p.config.limits.Valid() && 0 <= p.row.reservedCost
    requires EstimateFor(p.config, p.current.decision).Returned?
    requires 0 <= L.FindRun(s.ledger.runs, p.row.runId) && !SettlementRefused(s.ledger, p)
    ensures ToldOf(env, s, p, answer, clock, Finish(p.config, env, s.world, s.ledger, p.request, p.row, p.current, answer, clock).2)
  {
    var (settled, r) := Settle(p.config, s.ledger, p.current.decision, p.row, answer, clock.settle);
    SettleAnswers(s.ledger, p, answer, clock.settle);
    SettleKeepsLedger(s.ledger, p, answer, clock.settle);
    ReadAnswers(settled, p.config.limits, clock.read);
    if r.Returned? {
      AcceptedReport(env, s.world, settled, p, r.value, answer.review, clock);
      assert Finish(p.config, env, s.world, s.ledger, p.request, p.row, p.current, answer, clock).2
          == Conclude(p.config, env, s.world, settled, p.request, r.value, answer.review.nextStep, p.current, false, clock).2;
    }
  }

  /** What the caller is told, exactly, in every reachable state whose settlement is not refused: a failing client and a
      review the decision does not accept raise their own errors; an accepted one answers with the stored run, the
      workflow as it stands and the budget, unless the submission it asked for raised, or its cost has put the
      committed amount over the agent's limit: then the run is booked and the workflow advanced all the same. */
  lemma AnswerTells(env: Env, ops: seq<SystemOp>, i: nat, answer: ClientAnswer, clock: Clock)
    requires ValidOps(ops) && i < |Run(env, ops).pending| && !SettlementRefused(Run(env, ops).ledger, Run(env, ops).pending[i])
    ensures var s := Run(env, ops); var p := s.pending[i];
            ToldOf(env, s, p, answer, clock, Finish(p.config, env, s.world, s.ledger, p.request, p.row, p.current, answer, clock).2)
  {
    RunKeeps(env, ops);
    RunIsSound(env, ops);
    var s := Run(env, ops);
    assert WaitingOk(s.world.tables, s.ledger.runs, s.pending[i]);
    assert OpenOrCharged(s.ledger.runs, s.pending[i]);
    FinishTells(env, s, s.pending[i], answer, clock);
  }

  // ---------------------------------------------------------------- runs that reuse a review

  /** The stored run is one of this decision, this model, this prompt and this very context. */
  predicate OfRequest(config: AgentConfig, request: RunRequest, d: DecisionTrace, row: L.RunRow) {
    && row.requestKey.decisionId == request.decisionId && row.requestKey.model == config.model
    && row.requestKey.promptVersion == "promiseguard-openai-review-v2" && row.requestKey.context == ContextOf(d)
  }

  /** What the caller of a run that reuses a review is told, and what it costs. */
  predicate ReusedReply(env: Env, s: System, config: AgentConfig, request: RunRequest, clock: Clock, l: L.Ledger, r: Reply<AgentResult>)
    requires request.decisionId in s.world.tables.decisions
  {
    var d := s.world.tables.decisions[request.decisionId];
    && (l == s.ledger || l == L.State(s.ledger, config.limits, clock.read).0)
    && (r.Returned? ==>
          && r.value.reused && r.value.run in s.ledger.runs && r.value.run.status.Completed?
          && OfRequest(config, request, d, r.value.run) && r.value.run.review.Some? && Accepts(d, r.value.run.review.value))
  }

  lemma ConcludeReply(config: AgentConfig, env: Env, w: World, l: L.Ledger, request: RunRequest, row: L.RunRow, next: NextStep,
                      current: WorkflowState, reused: bool, clock: Clock)
    ensures var (_, after, r) := Conclude(config, env, w, l, request, row, next, current, reused, clock);
            && (after == l || after == L.State(l, config.limits, clock.read).0)
            && (r.Returned? ==> r.value.run == row && r.value.reused == reused)
  {}

  /** A run that finds its request completed asks and pays for nothing: it reserves no row, and answers with a stored
      COMPLETED run of the same decision, model, prompt and context, whose review the decision accepts. */
  lemma ReuseTells(env: Env, ops: seq<SystemOp>, config: AgentConfig, request: RunRequest, answer: ClientAnswer, clock: Clock)
    requires ValidOps(ops) && config.limits.Valid() && ReusesRun(Run(env, ops), config, request)
    ensures var s := Run(env, ops); var (_, l, r) := AgentRun(config, env, s.world, s.ledger, request, answer, clock);
            ReusedReply(env, s, config, request, clock, l, r)
  {
    RunKeeps(env, ops);
    ReuseAnswers(env, Run(env, ops), config, request, answer, clock);
  }

  lemma ReuseAnswers(env: Env, s: System, config: AgentConfig, request: RunRequest, answer: ClientAnswer, clock: Clock)
    requires Inv(s) && ReusesRun(s, config, request)
    ensures var (_, l, r) := AgentRun(config, env, s.world, s.ledger, request, answer, clock);
            ReusedReply(env, s, config, request, clock, l, r)
  {
    var d := s.world.tables.decisions[request.decisionId];
    var key := KeyFor(config, d, request.decisionId);
    ReusesExactly(s, config, request, clock.reserve);
    ReusedRowIsReviewed(s.world.tables, s.ledger, key);
    var row := L.NewestCompleted(s.ledger.runs, key).value;
    var current := GetState(s.world.tables, request.decisionId).value;
    ConcludeReply(config, env, s.world, s.ledger, request, row, row.review.value.nextStep, current, true, clock);
    assert AgentRun(config, env, s.world, s.ledger, request, answer, clock)
        == Conclude(config, env, s.world, s.ledger, request, row, row.review.value.nextStep, current, true, clock);
  }
}
