/** What holds of the system with agents for any client: stored reviews are valid, the workflow is advanced
    exactly when the local controls say so, and honest usage never breaks the budget. */
module AgentSafety {
  import opened Common
  import opened Models
  import opened AgentModels
  import opened AgentReview
  import opened Cost
  import opened Store
  import opened Evaluation
  import opened Gateway
  import opened Workflow
  import opened Agent
  import opened AgentSystem
  import L = BudgetLedger
  import P = BudgetProofs
  import Authority
  import History

  // ---------------------------------------------------------------- the invariant

  /** A COMPLETED run stores a review that its immutable decision accepts. */
  predicate RowReviewed(t: Tables, row: L.RunRow) {
    row.status.Completed? ==>
      && row.requestKey.decisionId in t.decisions && row.review.Some?
      && Accepts(t.decisions[row.requestKey.decisionId], row.review.value)
  }

  predicate Reviewed(t: Tables, runs: seq<L.RunRow>) {
    forall i :: 0 <= i < |runs| ==> RowReviewed(t, runs[i])
  }

  /** The row a waiting run reserved is still in the table, under the same key and reservation. */
  predicate Held(runs: seq<L.RunRow>, row: L.RunRow) {
    var i := L.FindRun(runs, row.runId);
    0 <= i && runs[i].requestKey == row.requestKey && runs[i].reservedCost == row.reservedCost
  }

  predicate WaitingOk(t: Tables, runs: seq<L.RunRow>, p: Waiting) {
    && p.request.decisionId in t.decisions && p.current.decision == t.decisions[p.request.decisionId]
    && p.row.requestKey.decisionId == p.request.decisionId && Held(runs, p.row)
    && EstimateFor(p.config, p.current.decision).Returned?
    && EstimateFor(p.config, p.current.decision).value == p.row.reservedCost
  }

  predicate AllWaitingOk(t: Tables, runs: seq<L.RunRow>, pending: seq<Waiting>) {
    forall i :: 0 <= i < |pending| ==> WaitingOk(t, runs, pending[i])
  }

  predicate Inv(s: System) {
    && Authority.Inv(s.world.tables) && Reviewed(s.world.tables, s.ledger.runs)
    && AllWaitingOk(s.world.tables, s.ledger.runs, s.pending)
  }

  // ---------------------------------------------------------------- the run table

  /** No row becomes COMPLETED. */
  predicate NoneCompletes(before: seq<L.RunRow>, after: seq<L.RunRow>) {
    forall i :: 0 <= i < |after| && after[i].status.Completed? ==> i < |before| && after[i] == before[i]
  }

  lemma ReserveCompletesNone(l: L.Ledger, limits: L.Limits, key: L.RequestKey, estimate: int, now: Time)
    ensures NoneCompletes(l.runs, L.Reserve(l, limits, key, estimate, now).0.runs)
    ensures P.Evolves(l.runs, L.Reserve(l, limits, key, estimate, now).0.runs)
  {
    P.ReserveEvolves(l, limits, key, estimate, now, key);
  }

  lemma StateCompletesNone(l: L.Ledger, limits: L.Limits, now: Time)
    ensures NoneCompletes(l.runs, L.State(l, limits, now).0.runs)
    ensures P.Evolves(l.runs, L.State(l, limits, now).0.runs)
  {}

  lemma {:induction false} FindStable(before: seq<L.RunRow>, after: seq<L.RunRow>, id: L.RunId)
    requires P.Evolves(before, after) && 0 <= L.FindRun(before, id)
    ensures L.FindRun(after, id) == L.FindRun(before, id)
  {
    var i := L.FindRun(before, id);
    assert after[i].runId == id;
    assert forall j :: 0 <= j < i ==> after[j].runId == before[j].runId;
  }

  lemma WaitingSurvives(t: Tables, u: Tables, before: seq<L.RunRow>, after: seq<L.RunRow>, p: Waiting)
    requires WaitingOk(t, before, p) && P.Evolves(before, after) && Authority.Extends(t, u)
    ensures WaitingOk(u, after, p)
  {
    FindStable(before, after, p.row.runId);
  }

  lemma AllWaitingSurvive(t: Tables, u: Tables, before: seq<L.RunRow>, after: seq<L.RunRow>, pending: seq<Waiting>)
    requires AllWaitingOk(t, before, pending) && P.Evolves(before, after) && Authority.Extends(t, u)
    ensures AllWaitingOk(u, after, pending)
  {
    forall i | 0 <= i < |pending| ensures WaitingOk(u, after, pending[i]) {
      WaitingSurvives(t, u, before, after, pending[i]);
    }
  }

  lemma ReviewsSurvive(t: Tables, u: Tables, before: seq<L.RunRow>, after: seq<L.RunRow>)
    requires Reviewed(t, before) && NoneCompletes(before, after) && Authority.Extends(t, u)
    ensures Reviewed(u, after)
  {
    forall i | 0 <= i < |after| ensures RowReviewed(u, after[i]) {
      if after[i].status.Completed? {
        assert RowReviewed(t, before[i]);
      }
    }
  }

  /** Whatever the client answered, a row becomes COMPLETED only with a review its decision accepts. */
  lemma SettleKeeps(t: Tables, config: AgentConfig, l: L.Ledger, d: DecisionTrace, row: L.RunRow, answer: ClientAnswer, now: Time)
    requires Reviewed(t, l.runs) && Held(l.runs, row)
    requires row.requestKey.decisionId in t.decisions && t.decisions[row.requestKey.decisionId] == d
    ensures var after := Settle(config, l, d, row, answer, now).0; Reviewed(t, after.runs) && P.Evolves(l.runs, after.runs)
  {
    var settlement := SettlementFor(config, d, row, answer);
    if settlement.Returned? {
      var s := settlement.value;
      P.FinaliseEvolves(l, config.limits, row.runId, s, now, row.requestKey);
      var after := L.Finalise(l, config.limits, row.runId, s, now).0;
      if after != l {
        var i := L.FindRun(l.runs, row.runId);
        if s.status.Completed? {
          ValidateExactly(answer.review, d);
        }
        assert RowReviewed(t, L.SettleRow(l.runs[i], s, now));
        assert after.runs == l.runs[i := L.SettleRow(l.runs[i], s, now)];
      }
    }
  }

  // ---------------------------------------------------------------- every step keeps it

  lemma WorldExtends(env: Env, w: World, op: History.Op)
    requires Authority.Inv(w.tables)
    ensures var u := History.Apply(env, w, op).tables; Authority.Inv(u) && Authority.Extends(w.tables, u)
  {
    Authority.StepKeeps(env, w, op);
  }

  lemma ConcludeKeeps(config: AgentConfig, env: Env, s: System, request: RunRequest, row: L.RunRow, next: NextStep,
                      current: WorkflowState, reused: bool, clock: Clock)
    requires Inv(s)
    ensures var (w, l, _) := Conclude(config, env, s.world, s.ledger, request, row, next, current, reused, clock);
            Inv(System(w, l, s.pending))
  {
    var (w, l, _) := Conclude(config, env, s.world, s.ledger, request, row, next, current, reused, clock);
    ConcludeWorld(config, env, s.world, s.ledger, request, row, next, current, reused, clock);
    StateCompletesNone(s.ledger, config.limits, clock.read);
    WorldExtends(env, s.world, History.OpSubmit(request.decisionId, request.actorId, clock.submit));
    SystemSurvives(s, System(w, l, s.pending));
  }

  lemma SystemSurvives(s: System, v: System)
    requires Inv(s) && Authority.Inv(v.world.tables) && Authority.Extends(s.world.tables, v.world.tables)
    requires NoneCompletes(s.ledger.runs, v.ledger.runs) && P.Evolves(s.ledger.runs, v.ledger.runs) && v.pending == s.pending
    ensures Inv(v)
  {
    ReviewsSurvive(s.world.tables, v.world.tables, s.ledger.runs, v.ledger.runs);
    AllWaitingSurvive(s.world.tables, v.world.tables, s.ledger.runs, v.ledger.runs, s.pending);
  }

  lemma StartKeeps(s: System, config: AgentConfig, request: RunRequest, now: Time)
    requires Inv(s)
    ensures Inv(s.(ledger := Start(config, s.world.tables, s.ledger, request, now).0))
  {
    var v := s.(ledger := Start(config, s.world.tables, s.ledger, request, now).0);
    if v != s {
      var d := GetState(s.world.tables, request.decisionId).value.decision;
      ReserveCompletesNone(s.ledger, config.limits, KeyFor(config, d, request.decisionId), EstimateFor(config, d).value, now);
      SystemSurvives(s, v);
    }
  }

  lemma ReservedRowIsHeld(l: L.Ledger, limits: L.Limits, key: L.RequestKey, estimate: int, now: Time)
    requires var r := L.Reserve(l, limits, key, estimate, now).1; r.Returned? && !r.value.1
    requires P.Inv(l) && limits.Valid()
    ensures var (after, r) := L.Reserve(l, limits, key, estimate, now);
            Held(after.runs, r.value.0) && r.value.0.requestKey == key && r.value.0.reservedCost == estimate
  {
    var (after, r) := L.Reserve(l, limits, key, estimate, now);
    P.ReserveKeepsInv(l, limits, key, estimate, now);
    P.IdsDistinct(after.runs);
    assert after.runs[|l.runs|] == r.value.0;
  }

  lemma ReusedRowIsReviewed(t: Tables, l: L.Ledger, key: L.RequestKey)
    requires Reviewed(t, l.runs) && L.NewestCompleted(l.runs, key).Some?
    ensures var row := L.NewestCompleted(l.runs, key).value;
            && row.status.Completed? && row.review.Some? && key.decisionId in t.decisions
            && Accepts(t.decisions[key.decisionId], row.review.value)
  {
    var row := L.NewestCompleted(l.runs, key).value;
    var i :| 0 <= i < |l.runs| && l.runs[i] == row;
    assert RowReviewed(t, l.runs[i]);
  }

  /** What a successful start gives: a stored COMPLETED run, or a new row under the agent's own key. */
  lemma StartGives(s: System, config: AgentConfig, request: RunRequest, now: Time)
    requires Inv(s) && P.Inv(s.ledger) && config.limits.Valid()
    requires Start(config, s.world.tables, s.ledger, request, now).1.Returned?
    ensures var (l, started) := Start(config, s.world.tables, s.ledger, request, now);
            var current := GetState(s.world.tables, request.decisionId);
            && current.Returned?
            && (started.value.1 ==>
                  l == s.ledger && started.value.0.review.Some? && Accepts(current.value.decision, started.value.0.review.value))
            && (!started.value.1 ==>
                  WaitingOk(s.world.tables, l.runs, Waiting(config, request, current.value, started.value.0)))
  {
    var d := GetState(s.world.tables, request.decisionId).value.decision;
    var key, estimate := KeyFor(config, d, request.decisionId), EstimateFor(config, d).value;
    var r := L.Reserve(s.ledger, config.limits, key, estimate, now);
    assert Start(config, s.world.tables, s.ledger, request, now) == r;
    if r.1.value.1 {
      ReusedRowIsReviewed(s.world.tables, s.ledger, key);
    } else {
      ReservedRowIsHeld(s.ledger, config.limits, key, estimate, now);
    }
  }

  lemma BeginKeeps(env: Env, s: System, config: AgentConfig, request: RunRequest, clock: Clock)
    requires Inv(s) && P.Inv(s.ledger) && config.limits.Valid()
    ensures Inv(BeginRun(env, s, config, request, clock))
  {
    var (l, started) := Start(config, s.world.tables, s.ledger, request, clock.reserve);
    StartKeeps(s, config, request, clock.reserve);
    if started.Returned? {
      StartGives(s, config, request, clock.reserve);
      var current := GetState(s.world.tables, request.decisionId).value;
      var row := started.value.0;
      if started.value.1 {
        ConcludeKeeps(config, env, s.(ledger := l), request, row, row.review.value.nextStep, current, true, clock);
      }
    }
  }

  lemma FewerWaiting(s: System, i: nat)
    requires Inv(s) && i < |s.pending|
    ensures Inv(s.(pending := s.pending[..i] + s.pending[i + 1..]))
  {}

  lemma FinishKeeps(env: Env, s: System, i: nat, answer: ClientAnswer, clock: Clock)
    requires Inv(s) && i < |s.pending|
    ensures Inv(FinishRun(env, s, i, answer, clock))
  {
    var p := s.pending[i];
    assert WaitingOk(s.world.tables, s.ledger.runs, p);
    var (l, settled) := Settle(p.config, s.ledger, p.current.decision, p.row, answer, clock.settle);
    HeldKey(s.ledger.runs, p.row);
    SettleKeeps(s.world.tables, p.config, s.ledger, p.current.decision, p.row, answer, clock.settle);
    AllWaitingSurvive(s.world.tables, s.world.tables, s.ledger.runs, l.runs, s.pending);
    var mid := s.(ledger := l);
    assert Inv(mid);
    FewerWaiting(mid, i);
    if settled.Returned? {
      ConcludeKeeps(p.config, env, mid.(pending := s.pending[..i] + s.pending[i + 1..]), p.request, settled.value,
                    answer.review.nextStep, p.current, false, clock);
    }
  }

  lemma HeldKey(runs: seq<L.RunRow>, row: L.RunRow)
    requires Held(runs, row)
    ensures runs[L.FindRun(runs, row.runId)].requestKey == row.requestKey
  {}

  lemma StepKeeps(env: Env, s: System, op: SystemOp)
    requires Inv(s) && P.Inv(s.ledger) && ValidOp(op)
    ensures Inv(Apply(env, s, op))
  {
    match op {
      case Govern(g) =>
        WorldExtends(env, s.world, g);
        SystemSurvives(s, Apply(env, s, op));
      case ReadBudget(limits, now) =>
        StateCompletesNone(s.ledger, limits, now);
        SystemSurvives(s, Apply(env, s, op));
      case Begin(config, request, clock) => BeginKeeps(env, s, config, request, clock);
      case AnswerRun(i, answer, clock) =>
        if i < |s.pending| {
          FinishKeeps(env, s, i, answer, clock);
        }
    }
  }

  lemma LedgerKept(env: Env, ops: seq<SystemOp>)
    requires ValidOps(ops)
    ensures P.Inv(Run(env, ops).ledger)
  {
    LedgerIsLedger(env, ops);
    var ledgerOps :| P.ValidOps(ledgerOps) && Run(env, ops).ledger == L.Run(L.EMPTY, ledgerOps);
    P.RunKeepsInv(L.EMPTY, ledgerOps);
  }

  lemma {:induction false} RunKeeps(env: Env, ops: seq<SystemOp>)
    requires ValidOps(ops)
    ensures Inv(Run(env, ops))
  {
    if ops == [] {
    } else {
      var before := ops[..|ops| - 1];
      RunKeeps(env, before);
      LedgerKept(env, before);
      StepKeeps(env, Run(env, before), ops[|ops| - 1]);
    }
  }

  /** Stored reviews are sound: after any history, whatever clients answered, every COMPLETED run stores a
      review that its immutable decision accepts; so reusing it without validating it again is safe. */
  lemma StoredReviewsAreValid(env: Env, ops: seq<SystemOp>, i: nat)
    requires ValidOps(ops) && i < |Run(env, ops).ledger.runs|
    ensures RowReviewed(Run(env, ops).world.tables, Run(env, ops).ledger.runs[i])
  {
    RunKeeps(env, ops);
  }

  // ---------------------------------------------------------------- exactly when the workflow advances

  /** Only these dispositions let an accepted review ask for submission. */
  predicate MaySubmit(d: DecisionTrace) { d.policy.disposition.AutoExecute? || d.policy.disposition.RequestApproval? }

  /** The request is one that advances, on a decision that may be submitted. */
  predicate Advances(request: RunRequest, d: DecisionTrace) { request.advance && MaySubmit(d) }

  /** The settlement is refused: the row is still open, and the stored totals exceed the agent's limit. */
  predicate SettlementRefused(l: L.Ledger, p: Waiting) {
    && 0 <= L.FindRun(l.runs, p.row.runId) && l.runs[L.FindRun(l.runs, p.row.runId)].status.Reserved?
    && l.budget.Some? && p.config.limits.limit < l.budget.value.spent + l.budget.value.reserved
  }

  /** The client's answer survives the local controls. */
  predicate AnswerAccepted(l: L.Ledger, p: Waiting, answer: ClientAnswer) {
    answer.Responded? && Accepts(p.current.decision, answer.review) && !SettlementRefused(l, p)
  }

  /** The run finds its request key COMPLETED. */
  predicate ReusesRun(s: System, config: AgentConfig, request: RunRequest) {
    && config.MayRun() && request.decisionId in s.world.tables.decisions
    && EstimateFor(config, s.world.tables.decisions[request.decisionId]).Returned?
    && L.NewestCompleted(s.ledger.runs, KeyFor(config, s.world.tables.decisions[request.decisionId], request.decisionId)).Some?
  }

  function Submitted(env: Env, w: World, request: RunRequest, now: Time): World {
    Submit(env, w, request.decisionId, request.actorId, now).0
  }

  lemma SettledExactly(s: System, p: Waiting, answer: ClientAnswer, now: Time)
    requires Inv(s) && WaitingOk(s.world.tables, s.ledger.runs, p)
    ensures Settle(p.config, s.ledger, p.current.decision, p.row, answer, now).1.Returned? <==> AnswerAccepted(s.ledger, p, answer)
  {
    if answer.Responded? {
      ValidateExactly(answer.review, p.current.decision);
    }
  }

  /** Agent non-interference, one client answer: in any reachable state and for any answer or exception, the
      governed world stays as it is, or becomes exactly what submitting the decision makes of it, the latter
      if and only if advancing was requested, the decision's disposition allows submission, the review was
      accepted, and its settlement was not refused. Whether the run is then COMPLETED is another matter, which
      `AcceptedAnswerCompletes` settles. */
  lemma AnswerInterference(env: Env, ops: seq<SystemOp>, i: nat, answer: ClientAnswer, clock: Clock)
    requires ValidOps(ops) && i < |Run(env, ops).pending|
    ensures var s := Run(env, ops); var p := s.pending[i];
            FinishRun(env, s, i, answer, clock).world ==
            if Advances(p.request, p.current.decision) && AnswerAccepted(s.ledger, p, answer)
            then Submitted(env, s.world, p.request, clock.submit) else s.world
  {
    RunKeeps(env, ops);
    var s := Run(env, ops);
    assert WaitingOk(s.world.tables, s.ledger.runs, s.pending[i]);
    SettledExactly(s, s.pending[i], answer, clock.settle);
    FinishWorld(env, s, i, answer, clock);
  }

  lemma FinishWorld(env: Env, s: System, i: nat, answer: ClientAnswer, clock: Clock)
    requires i < |s.pending|
    requires var p := s.pending[i];
             Settle(p.config, s.ledger, p.current.decision, p.row, answer, clock.settle).1.Returned? <==> AnswerAccepted(s.ledger, p, answer)
    ensures var p := s.pending[i];
            FinishRun(env, s, i, answer, clock).world ==
            if Advances(p.request, p.current.decision) && AnswerAccepted(s.ledger, p, answer)
            then Submitted(env, s.world, p.request, clock.submit) else s.world
  {
    var p := s.pending[i];
    var (l, settled) := Settle(p.config, s.ledger, p.current.decision, p.row, answer, clock.settle);
    if settled.Returned? {
      ConcludeWorld(p.config, env, s.world, l, p.request, settled.value, answer.review.nextStep, p.current, false, clock);
    }
  }

  /** The same for a run that reuses a stored review: it never lacks one, and it advances exactly when
      requested on a decision whose disposition allows submission. */
  lemma BeginInterference(env: Env, ops: seq<SystemOp>, config: AgentConfig, request: RunRequest, clock: Clock)
    requires ValidOps(ops) && config.limits.Valid()
    ensures var s := Run(env, ops);
            BeginRun(env, s, config, request, clock).world ==
            if ReusesRun(s, config, request) && Advances(request, s.world.tables.decisions[request.decisionId])
            then Submitted(env, s.world, request, clock.submit) else s.world
  {
    RunKeeps(env, ops);
    LedgerKept(env, ops);
    var s := Run(env, ops);
    ReusesExactly(s, config, request, clock.reserve);
    if ReusesRun(s, config, request) {
      StartGives(s, config, request, clock.reserve);
      ReuseWorld(env, s, config, request, clock);
    }
  }

  lemma ReusesExactly(s: System, config: AgentConfig, request: RunRequest, now: Time)
    ensures var started := Start(config, s.world.tables, s.ledger, request, now).1;
            ReusesRun(s, config, request) <==> started.Returned? && started.value.1
  {}

  lemma ReuseWorld(env: Env, s: System, config: AgentConfig, request: RunRequest, clock: Clock)
    requires ReusesRun(s, config, request)
    requires var row := Start(config, s.world.tables, s.ledger, request, clock.reserve).1.value.0;
             row.review.Some? && Accepts(s.world.tables.decisions[request.decisionId], row.review.value)
    ensures BeginRun(env, s, config, request, clock).world ==
            if Advances(request, s.world.tables.decisions[request.decisionId]) then Submitted(env, s.world, request, clock.submit) else s.world
  {
    var (l, started) := Start(config, s.world.tables, s.ledger, request, clock.reserve);
    var row, current := started.value.0, GetState(s.world.tables, request.decisionId).value;
    ConcludeWorld(config, env, s.world, l, request, row, row.review.value.nextStep, current, true, clock);
  }

  /** Beyond being accepted, what a review says (its text, uncertainty, citations, usage) cannot matter. */
  lemma ReviewContentsDoNotMatter(env: Env, ops: seq<SystemOp>, i: nat, a: ClientAnswer, b: ClientAnswer, clock: Clock)
    requires ValidOps(ops) && i < |Run(env, ops).pending| && a.Responded? && b.Responded?
    requires var d := Run(env, ops).pending[i].current.decision; Accepts(d, a.review) && Accepts(d, b.review)
    ensures FinishRun(env, Run(env, ops), i, a, clock).world == FinishRun(env, Run(env, ops), i, b, clock).world
  {
    AnswerInterference(env, ops, i, a, clock);
    AnswerInterference(env, ops, i, b, clock);
  }

  // ---------------------------------------------------------------- what an accepted answer books

  /** The row of a waiting run is open, or was charged by a reclaim. */
  predicate Unanswered(runs: seq<L.RunRow>, p: Waiting) {
    var i := L.FindRun(runs, p.row.runId);
    0 <= i && (runs[i].status.Reserved? || runs[i].status.FailedRun?)
  }

  /** No waiting run is settled, and no two of them share a row. */
  predicate AllUnanswered(runs: seq<L.RunRow>, pending: seq<Waiting>) {
    && (forall i :: 0 <= i < |pending| ==> Unanswered(runs, pending[i]))
    && (forall i, j :: 0 <= i < j < |pending| ==> pending[i].row.runId != pending[j].row.runId)
  }

  /** Rows change by being reclaimed only, or not at all. */
  predicate OnlyReclaims(before: seq<L.RunRow>, after: seq<L.RunRow>) {
    && |before| <= |after|
    && forall i :: 0 <= i < |before| ==> after[i] == before[i] || (before[i].status.Reserved? && after[i].status.FailedRun?)
  }

  lemma ReserveOnlyReclaims(l: L.Ledger, limits: L.Limits, key: L.RequestKey, estimate: int, now: Time)
    ensures OnlyReclaims(l.runs, L.Reserve(l, limits, key, estimate, now).0.runs)
  {}

  lemma StateOnlyReclaims(l: L.Ledger, limits: L.Limits, now: Time)
    ensures OnlyReclaims(l.runs, L.State(l, limits, now).0.runs)
  {}

  lemma UnansweredStays(before: seq<L.RunRow>, after: seq<L.RunRow>, pending: seq<Waiting>)
    requires AllUnanswered(before, pending) && OnlyReclaims(before, after) && P.Evolves(before, after)
    ensures AllUnanswered(after, pending)
  {
    forall i | 0 <= i < |pending| ensures Unanswered(after, pending[i]) {
      FindStable(before, after, pending[i].row.runId);
    }
  }

  /** Settling one waiting run leaves the rows of the others alone. */
  lemma SettleLeavesOthers(config: AgentConfig, l: L.Ledger, d: DecisionTrace, row: L.RunRow, answer: ClientAnswer, now: Time,
                           p: Waiting)
    requires Unanswered(l.runs, p) && p.row.runId != row.runId
    ensures Unanswered(Settle(config, l, d, row, answer, now).0.runs, p)
  {
    var after := Settle(config, l, d, row, answer, now).0;
    if after != l {
      var s := SettlementFor(config, d, row, answer).value;
      P.FinaliseEvolves(l, config.limits, row.runId, s, now, row.requestKey);
      FindStable(l.runs, after.runs, p.row.runId);
      assert L.FindRun(l.runs, p.row.runId) != L.FindRun(l.runs, row.runId);
    }
  }

  lemma StartKeepsUnanswered(s: System, config: AgentConfig, request: RunRequest, now: Time)
    requires AllUnanswered(s.ledger.runs, s.pending)
    ensures AllUnanswered(Start(config, s.world.tables, s.ledger, request, now).0.runs, s.pending)
  {
    var current := GetState(s.world.tables, request.decisionId);
    if current.Returned? && EstimateFor(config, current.value.decision).Returned? {
      var d := current.value.decision;
      var key, estimate := KeyFor(config, d, request.decisionId), EstimateFor(config, d).value;
      ReserveOnlyReclaims(s.ledger, config.limits, key, estimate, now);
      ReserveCompletesNone(s.ledger, config.limits, key, estimate, now);
      UnansweredStays(s.ledger.runs, L.Reserve(s.ledger, config.limits, key, estimate, now).0.runs, s.pending);
    }
  }

  /** A row just reserved is open, and belongs to no earlier waiting run. */
  lemma ReservedRowIsNew(l: L.Ledger, limits: L.Limits, key: L.RequestKey, estimate: int, now: Time, pending: seq<Waiting>, p: Waiting)
    requires P.Inv(l) && limits.Valid() && AllUnanswered(l.runs, pending)
    requires var (after, r) := L.Reserve(l, limits, key, estimate, now);
             r.Returned? && !r.value.1 && p.row == r.value.0 && AllUnanswered(after.runs, pending)
    ensures AllUnanswered(L.Reserve(l, limits, key, estimate, now).0.runs, pending + [p])
  {
    var after := L.Reserve(l, limits, key, estimate, now).0;
    P.ReserveKeepsInv(l, limits, key, estimate, now);
    P.IdsDistinct(after.runs);
    assert after.runs[|l.runs|] == p.row && p.row.status.Reserved?;
    assert L.FindRun(after.runs, p.row.runId) == |l.runs|;
    forall i | 0 <= i < |pending| ensures pending[i].row.runId != p.row.runId {
      var k := L.FindRun(l.runs, pending[i].row.runId);
      P.ReserveEvolves(l, limits, key, estimate, now, key);
      assert after.runs[k].runId == pending[i].row.runId;
    }
  }

  lemma BeginKeepsUnanswered(env: Env, s: System, config: AgentConfig, request: RunRequest, clock: Clock)
    requires AllUnanswered(s.ledger.runs, s.pending) && P.Inv(s.ledger) && config.limits.Valid()
    ensures var v := BeginRun(env, s, config, request, clock); AllUnanswered(v.ledger.runs, v.pending)
  {
    var (l, started) := Start(config, s.world.tables, s.ledger, request, clock.reserve);
    StartKeepsUnanswered(s, config, request, clock.reserve);
    if started.Returned? {
      var current := GetState(s.world.tables, request.decisionId).value;
      if started.value.1 {
        ReadKeepsUnanswered(l, config.limits, clock.read, s.pending);
      } else {
        var d := current.decision;
        ReservedRowIsNew(s.ledger, config.limits, KeyFor(config, d, request.decisionId), EstimateFor(config, d).value, clock.reserve,
                         s.pending, Waiting(config, request, current, started.value.0));
      }
    }
  }

  function WithoutRun(pending: seq<Waiting>, i: nat): seq<Waiting>
    requires i < |pending|
  {
    pending[..i] + pending[i + 1..]
  }

  lemma OthersUnanswered(s: System, i: nat, answer: ClientAnswer, now: Time)
    requires AllUnanswered(s.ledger.runs, s.pending) && i < |s.pending|
    ensures var p := s.pending[i];
            AllUnanswered(Settle(p.config, s.ledger, p.current.decision, p.row, answer, now).0.runs, WithoutRun(s.pending, i))
  {
    var p, rest := s.pending[i], WithoutRun(s.pending, i);
    var l := Settle(p.config, s.ledger, p.current.decision, p.row, answer, now).0;
    forall j | 0 <= j < |rest| ensures Unanswered(l.runs, rest[j]) {
      var k := if j < i then j else j + 1;
      assert rest[j] == s.pending[k];
      SettleLeavesOthers(p.config, s.ledger, p.current.decision, p.row, answer, now, s.pending[k]);
    }
  }

  /** A finished run leaves the settled ledger, or that ledger after one more budget read. */
  lemma FinishEnds(env: Env, s: System, i: nat, answer: ClientAnswer, clock: Clock)
    requires i < |s.pending|
    ensures var p, v := s.pending[i], FinishRun(env, s, i, answer, clock);
            var l := Settle(p.config, s.ledger, p.current.decision, p.row, answer, clock.settle).0;
            v.pending == WithoutRun(s.pending, i) && (v.ledger == l || v.ledger == L.State(l, p.config.limits, clock.read).0)
  {}

  lemma FinishKeepsUnanswered(env: Env, s: System, i: nat, answer: ClientAnswer, clock: Clock)
    requires AllUnanswered(s.ledger.runs, s.pending) && i < |s.pending|
    ensures var v := FinishRun(env, s, i, answer, clock); AllUnanswered(v.ledger.runs, v.pending)
  {
    var p := s.pending[i];
    var l := Settle(p.config, s.ledger, p.current.decision, p.row, answer, clock.settle).0;
    OthersUnanswered(s, i, answer, clock.settle);
    FinishEnds(env, s, i, answer, clock);
    ReadKeepsUnanswered(l, p.config.limits, clock.read, WithoutRun(s.pending, i));
  }

  lemma ReadKeepsUnanswered(l: L.Ledger, limits: L.Limits, now: Time, pending: seq<Waiting>)
    requires AllUnanswered(l.runs, pending)
    ensures AllUnanswered(L.State(l, limits, now).0.runs, pending)
  {
    StateOnlyReclaims(l, limits, now);
    StateCompletesNone(l, limits, now);
    UnansweredStays(l.runs, L.State(l, limits, now).0.runs, pending);
  }

  lemma {:induction false} RunKeepsUnanswered(env: Env, ops: seq<SystemOp>)
    requires ValidOps(ops)
    ensures AllUnanswered(Run(env, ops).ledger.runs, Run(env, ops).pending)
  {
    if ops == [] {
    } else {
      var before, op := ops[..|ops| - 1], ops[|ops| - 1];
      RunKeepsUnanswered(env, before);
      LedgerKept(env, before);
      StepKeepsUnanswered(env, Run(env, before), op);
    }
  }

  lemma StepKeepsUnanswered(env: Env, s: System, op: SystemOp)
    requires AllUnanswered(s.ledger.runs, s.pending) && P.Inv(s.ledger) && ValidOp(op)
    ensures var v := Apply(env, s, op); AllUnanswered(v.ledger.runs, v.pending)
  {
    match op {
      case Govern(_) =>
      case ReadBudget(limits, now) => ReadKeepsUnanswered(s.ledger, limits, now, s.pending);
      case Begin(config, request, clock) => BeginKeepsUnanswered(env, s, config, request, clock);
      case AnswerRun(i, answer, clock) =>
        if i < |s.pending| {
          FinishKeepsUnanswered(env, s, i, answer, clock);
        }
    }
  }

  /** The row of waiting run `p`. */
  function RowOf(runs: seq<L.RunRow>, p: Waiting): L.RunRow
    requires 0 <= L.FindRun(runs, p.row.runId)
  {
    runs[L.FindRun(runs, p.row.runId)]
  }

  /** The row of `p` afterwards: COMPLETED if it was open, and otherwise untouched. */
  predicate Booked(before: seq<L.RunRow>, after: seq<L.RunRow>, p: Waiting) {
    && 0 <= L.FindRun(before, p.row.runId) && 0 <= L.FindRun(after, p.row.runId)
    && (RowOf(after, p).status.Completed? <==> RowOf(before, p).status.Reserved?)
    && (!RowOf(before, p).status.Reserved? ==> RowOf(after, p) == RowOf(before, p))
  }

  lemma SettleBooks(s: System, p: Waiting, answer: ClientAnswer, now: Time)
    requires Inv(s) && WaitingOk(s.world.tables, s.ledger.runs, p) && Unanswered(s.ledger.runs, p)
    requires AnswerAccepted(s.ledger, p, answer)
    ensures var (l, r) := Settle(p.config, s.ledger, p.current.decision, p.row, answer, now);
            r.Returned? && Booked(s.ledger.runs, l.runs, p)
  {
    SettledExactly(s, p, answer, now);
    ValidateExactly(answer.review, p.current.decision);
    var settlement := SettlementFor(p.config, p.current.decision, p.row, answer).value;
    P.FinaliseEvolves(s.ledger, p.config.limits, p.row.runId, settlement, now, p.row.requestKey);
    FindStable(s.ledger.runs, L.Finalise(s.ledger, p.config.limits, p.row.runId, settlement, now).0.runs, p.row.runId);
  }

  lemma ReadKeepsBooked(before: seq<L.RunRow>, l: L.Ledger, limits: L.Limits, now: Time, p: Waiting)
    requires Booked(before, l.runs, p) && !RowOf(l.runs, p).status.Reserved?
    ensures Booked(before, L.State(l, limits, now).0.runs, p)
  {
    StateOnlyReclaims(l, limits, now);
    StateCompletesNone(l, limits, now);
    FindStable(l.runs, L.State(l, limits, now).0.runs, p.row.runId);
  }

  /** What an accepted answer books, exactly: in every reachable state the run's row is COMPLETED afterwards if and
      only if it was still RESERVED; a row that a reclaim charged in the meantime stays FAILED as it was, although
      the workflow advances all the same. */
  lemma AcceptedAnswerCompletes(env: Env, ops: seq<SystemOp>, i: nat, answer: ClientAnswer, clock: Clock)
    requires ValidOps(ops) && i < |Run(env, ops).pending|
    requires AnswerAccepted(Run(env, ops).ledger, Run(env, ops).pending[i], answer)
    ensures var s := Run(env, ops); Booked(s.ledger.runs, FinishRun(env, s, i, answer, clock).ledger.runs, s.pending[i])
  {
    RunKeeps(env, ops);
    RunKeepsUnanswered(env, ops);
    FinishBooks(env, Run(env, ops), i, answer, clock);
  }

  lemma FinishBooks(env: Env, s: System, i: nat, answer: ClientAnswer, clock: Clock)
    requires Inv(s) && AllUnanswered(s.ledger.runs, s.pending) && i < |s.pending| && AnswerAccepted(s.ledger, s.pending[i], answer)
    ensures Booked(s.ledger.runs, FinishRun(env, s, i, answer, clock).ledger.runs, s.pending[i])
  {
    var p := s.pending[i];
    assert WaitingOk(s.world.tables, s.ledger.runs, p);
    SettleBooks(s, p, answer, clock.settle);
    var l := Settle(p.config, s.ledger, p.current.decision, p.row, answer, clock.settle).0;
    FinishEnds(env, s, i, answer, clock);
    ReadKeepsBooked(s.ledger.runs, l, p.config.limits, clock.read, p);
  }

  /** The late answer: a reservation expires while the client is asked, a budget read reclaims it, and the
      accepted answer that arrives then submits the decision although its run stays FAILED and unreviewed. */
  lemma LateAnswerStillSubmits(env: Env, ops: seq<SystemOp>, i: nat, limits: L.Limits, now: Time, answer: ClientAnswer, clock: Clock)
    requires ValidOps(ops) && i < |Run(env, ops).pending| && limits.Valid()
    requires var s := Run(env, ops); var p := s.pending[i];
             && 0 <= L.FindRun(s.ledger.runs, p.row.runId) && L.Stale(RowOf(s.ledger.runs, p), now)
             && L.State(s.ledger, limits, now).1.Returned?
             && Advances(p.request, p.current.decision) && answer.Responded? && Accepts(p.current.decision, answer.review)
    ensures var p := Run(env, ops).pending[i]; var late := Run(env, ops + [ReadBudget(limits, now)]);
            && i < |late.pending| && late.pending[i] == p
            && var v := FinishRun(env, late, i, answer, clock);
            && v.world == Submitted(env, late.world, p.request, clock.submit)
            && 0 <= L.FindRun(v.ledger.runs, p.row.runId) && RowOf(v.ledger.runs, p).status.FailedRun?
  {
    var s, read := Run(env, ops), ReadBudget(limits, now);
    var p := s.pending[i];
    RunSnoc(env, ops, read);
    var late := Run(env, ops + [read]);
    StateCompletesNone(s.ledger, limits, now);
    FindStable(s.ledger.runs, late.ledger.runs, p.row.runId);
    assert RowOf(late.ledger.runs, p) == L.ReclaimRow(RowOf(s.ledger.runs, p), now);
    AnswerInterference(env, ops + [read], i, answer, clock);
    AcceptedAnswerCompletes(env, ops + [read], i, answer, clock);
  }

  // ---------------------------------------------------------------- honest usage never breaks the budget

  predicate Within(runs: seq<L.RunRow>) {
    forall i :: 0 <= i < |runs| ==> runs[i].actualCost <= runs[i].reservedCost
  }

  /** The usage a client reports is one the run's estimate was made for. */
  predicate Honest(s: System, op: SystemOp) {
    op.AnswerRun? && op.index < |s.pending| && op.answer.Responded? ==>
      var p := s.pending[op.index];
      WithinEstimate(op.answer.usage, p.config.promptBytes(ContextOf(p.current.decision)), p.config.maxOutputTokens)
  }

  predicate HonestRun(env: Env, ops: seq<SystemOp>) {
    ops == [] || (HonestRun(env, ops[..|ops| - 1]) && Honest(Run(env, ops[..|ops| - 1]), ops[|ops| - 1]))
  }

  lemma ReserveWithin(l: L.Ledger, limits: L.Limits, key: L.RequestKey, estimate: nat, now: Time)
    requires Within(l.runs)
    ensures Within(L.Reserve(l, limits, key, estimate, now).0.runs)
  {}

  lemma StateWithin(l: L.Ledger, limits: L.Limits, now: Time)
    requires Within(l.runs)
    ensures Within(L.State(l, limits, now).0.runs)
  {}

  lemma SettleWithin(t: Tables, l: L.Ledger, p: Waiting, answer: ClientAnswer, now: Time)
    requires Within(l.runs) && WaitingOk(t, l.runs, p)
    requires answer.Responded? ==>
               WithinEstimate(answer.usage, p.config.promptBytes(ContextOf(p.current.decision)), p.config.maxOutputTokens)
    ensures Within(Settle(p.config, l, p.current.decision, p.row, answer, now).0.runs)
  {
    if answer.Responded? {
      ReservationCoversCost(p.config.model, answer.usage, p.config.promptBytes(ContextOf(p.current.decision)), p.config.maxOutputTokens);
    }
  }

  lemma StepWithin(env: Env, s: System, op: SystemOp)
    requires Inv(s) && Within(s.ledger.runs) && Honest(s, op)
    ensures Within(Apply(env, s, op).ledger.runs)
  {
    match op {
      case Govern(_) =>
      case ReadBudget(limits, now) => StateWithin(s.ledger, limits, now);
      case Begin(config, request, clock) => BeginWithin(env, s, config, request, clock);
      case AnswerRun(i, answer, clock) =>
        if i < |s.pending| {
          assert WaitingOk(s.world.tables, s.ledger.runs, s.pending[i]);
          FinishWithin(env, s, i, answer, clock);
        }
    }
  }

  lemma BeginWithin(env: Env, s: System, config: AgentConfig, request: RunRequest, clock: Clock)
    requires Within(s.ledger.runs)
    ensures Within(BeginRun(env, s, config, request, clock).ledger.runs)
  {
    var l := Start(config, s.world.tables, s.ledger, request, clock.reserve).0;
    StartWithin(s, config, request, clock.reserve);
    StateWithin(l, config.limits, clock.read);
  }

  lemma FinishWithin(env: Env, s: System, i: nat, answer: ClientAnswer, clock: Clock)
    requires i < |s.pending| && Within(s.ledger.runs) && WaitingOk(s.world.tables, s.ledger.runs, s.pending[i])
    requires Honest(s, AnswerRun(i, answer, clock))
    ensures Within(FinishRun(env, s, i, answer, clock).ledger.runs)
  {
    var p := s.pending[i];
    SettleWithin(s.world.tables, s.ledger, p, answer, clock.settle);
    StateWithin(Settle(p.config, s.ledger, p.current.decision, p.row, answer, clock.settle).0, p.config.limits, clock.read);
  }

  lemma StartWithin(s: System, config: AgentConfig, request: RunRequest, now: Time)
    requires Within(s.ledger.runs)
    ensures Within(Start(config, s.world.tables, s.ledger, request, now).0.runs)
  {
    var current := GetState(s.world.tables, request.decisionId);
    if current.Returned? && EstimateFor(config, current.value.decision).Returned? {
      var d := current.value.decision;
      ReserveWithin(s.ledger, config.limits, KeyFor(config, d, request.decisionId), EstimateFor(config, d).value, now);
    }
  }

  lemma {:induction false} RunWithin(env: Env, ops: seq<SystemOp>)
    requires ValidOps(ops) && HonestRun(env, ops)
    ensures Within(Run(env, ops).ledger.runs)
  {
    if ops == [] {
    } else {
      var before := ops[..|ops| - 1];
      RunWithin(env, before);
      RunKeeps(env, before);
      StepWithin(env, Run(env, before), ops[|ops| - 1]);
    }
  }

  /** The hard ceiling: as long as reported usage stays within the estimates reserved for it, no history of
      agents, limits, clocks, failures and reclaims ever commits or spends more than the stored limit. */
  lemma HardCeiling(env: Env, ops: seq<SystemOp>)
    requires ValidOps(ops) && HonestRun(env, ops) && Run(env, ops).ledger.budget.Some?
    ensures var b := Run(env, ops).ledger.budget.value;
            b.spent + b.reserved <= b.limit && 0 <= b.reserved && b.spent <= b.limit
  {
    LedgerKept(env, ops);
    RunWithin(env, ops);
    var runs := Run(env, ops).ledger.runs;
    P.NoOverrun(runs);
    if runs != [] {
      P.SettleClampIsIdle(runs, 0);
    }
  }
}
