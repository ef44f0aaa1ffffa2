/** The governed system with any number of review agents: every public operation, every client answer and
    every budget transaction, in any order. A run is two steps, before and after the client's answer, so
    that anything may happen while the model is being asked. */
module AgentSystem {
  import opened Common
  import opened Models
  import opened AgentModels
  import opened AgentReview
  import opened Cost
  import opened Store
  import opened Evaluation
  import opened Gateway
  import opened Workflow
  import opened Agent
  import L = BudgetLedger
  import P = BudgetProofs
  import Authority
  import History

  /** A run that waits for its client. */
  datatype Waiting = Waiting(config: AgentConfig, request: RunRequest, current: WorkflowState, row: L.RunRow)

  datatype System = System(world: World, ledger: L.Ledger, pending: seq<Waiting>)

  datatype SystemOp =
    | Govern(op: History.Op)
    | ReadBudget(limits: L.Limits, now: Time)
    | Begin(config: AgentConfig, request: RunRequest, clock: Clock)
    | AnswerRun(index: nat, answer: ClientAnswer, clock: Clock)

  const START := System(History.START, L.EMPTY, [])

  function BeginRun(env: Env, s: System, config: AgentConfig, request: RunRequest, clock: Clock): System {
    var (ledger, started) := Start(config, s.world.tables, s.ledger, request, clock.reserve);
    match started
    case Raised(_) => s.(ledger := ledger)
    case Returned(pair) =>
      var current := GetState(s.world.tables, request.decisionId).value;
      if pair.1 then
        var (w, l, _) := Reuse(config, env, s.world, ledger, request, pair.0, current, clock);
        System(w, l, s.pending)
      else s.(ledger := ledger, pending := s.pending + [Waiting(config, request, current, pair.0)])
  }

  function FinishRun(env: Env, s: System, i: nat, answer: ClientAnswer, clock: Clock): System
    requires i < |s.pending|
  {
    var p := s.pending[i];
    var (w, l, _) := Finish(p.config, env, s.world, s.ledger, p.request, p.row, p.current, answer, clock);
    System(w, l, s.pending[..i] + s.pending[i + 1..])
  }

  function Apply(env: Env, s: System, op: SystemOp): System {
    match op
    case Govern(g) => s.(world := History.Apply(env, s.world, g))
    case ReadBudget(limits, now) => s.(ledger := L.State(s.ledger, limits, now).0)
    case Begin(config, request, clock) => BeginRun(env, s, config, request, clock)
    case AnswerRun(i, answer, clock) => if i < |s.pending| then FinishRun(env, s, i, answer, clock) else s
  }

  function Run(env: Env, ops: seq<SystemOp>): System {
    if ops == [] then START else Apply(env, Run(env, ops[..|ops| - 1]), ops[|ops| - 1])
  }

  lemma RunSnoc(env: Env, ops: seq<SystemOp>, op: SystemOp)
    ensures Run(env, ops + [op]) == Apply(env, Run(env, ops), op)
  {
    assert (ops + [op])[..|ops|] == ops;
  }

  predicate ValidOp(op: SystemOp) {
    (op.Begin? ==> op.config.limits.Valid()) && (op.ReadBudget? ==> op.limits.Valid())
  }

  predicate ValidOps(ops: seq<SystemOp>) { forall i :: 0 <= i < |ops| ==> ValidOp(ops[i]) }

  lemma FinishesLast(env: Env, s: System, p: Waiting, answer: ClientAnswer, clock: Clock)
    ensures var (w, l, _) := Finish(p.config, env, s.world, s.ledger, p.request, p.row, p.current, answer, clock);
            FinishRun(env, s.(pending := s.pending + [p]), |s.pending|, answer, clock) == System(w, l, s.pending)
  {
    var waiting := s.pending + [p];
    assert waiting[..|s.pending|] + waiting[|s.pending| + 1..] == s.pending;
  }

  /** A run that nothing disturbs is its two steps in a row. */
  lemma UndisturbedRun(env: Env, s: System, config: AgentConfig, request: RunRequest, answer: ClientAnswer, clock: Clock)
    ensures var (w, l, _) := AgentRun(config, env, s.world, s.ledger, request, answer, clock);
            var begun := Apply(env, s, Begin(config, request, clock));
            if |begun.pending| == |s.pending| then begun == System(w, l, s.pending)
            else Apply(env, begun, AnswerRun(|s.pending|, answer, clock)) == System(w, l, s.pending)
  {
    var (ledger, started) := Start(config, s.world.tables, s.ledger, request, clock.reserve);
    if started.Returned? && !started.value.1 {
      var p := Waiting(config, request, GetState(s.world.tables, request.decisionId).value, started.value.0);
      FinishesLast(env, s.(ledger := ledger), p, answer, clock);
      assert BeginRun(env, s, config, request, clock) == s.(ledger := ledger, pending := s.pending + [p]);
    } else {
      var (w, l, _) := AgentRun(config, env, s.world, s.ledger, request, answer, clock);
      assert BeginRun(env, s, config, request, clock) == System(w, l, s.pending);
    }
  }

  // ---------------------------------------------------------------- the agent adds no behaviour

  /** The world a step leaves: the same one, or the one a governance operation leaves. */
  ghost predicate Governed(env: Env, w: World, v: World, op: SystemOp) {
    match op
    case Govern(g) => v == History.Apply(env, w, g)
    case ReadBudget(_, _) => v == w
    case Begin(_, request, clock) => v == w || v == Submit(env, w, request.decisionId, request.actorId, clock.submit).0
    case AnswerRun(_, _, clock) => v == w || exists id, actor :: v == Submit(env, w, id, actor, clock.submit).0
  }

  lemma ConcludeWorld(config: AgentConfig, env: Env, w: World, l: L.Ledger, request: RunRequest, row: L.RunRow, next: NextStep,
                      current: WorkflowState, reused: bool, clock: Clock)
    ensures Conclude(config, env, w, l, request, row, next, current, reused, clock).0
         == if request.advance && next.SubmitDecision? then Submit(env, w, request.decisionId, request.actorId, clock.submit).0 else w
  {}

  lemma StepIsGoverned(env: Env, s: System, op: SystemOp)
    ensures Governed(env, s.world, Apply(env, s, op).world, op)
  {
    match op {
      case Begin(config, request, clock) =>
        var (ledger, started) := Start(config, s.world.tables, s.ledger, request, clock.reserve);
        if started.Returned? && started.value.1 && started.value.0.review.Some? {
          var current := GetState(s.world.tables, request.decisionId).value;
          ConcludeWorld(config, env, s.world, ledger, request, started.value.0, started.value.0.review.value.nextStep, current, true, clock);
        }
      case AnswerRun(i, answer, clock) =>
        if i < |s.pending| {
          var p := s.pending[i];
          var (ledger, settled) := Settle(p.config, s.ledger, p.current.decision, p.row, answer, clock.settle);
          if settled.Returned? {
            ConcludeWorld(p.config, env, s.world, ledger, p.request, settled.value, answer.review.nextStep, p.current, false, clock);
          }
        }
      case _ =>
    }
  }

  /** The world after any history with agents in it is the world after some history of governance
      operations without them, so every property of those histories holds of this system too. */
  lemma {:induction false} AgentsAddNoBehaviour(env: Env, ops: seq<SystemOp>)
    ensures exists governance :: Run(env, ops).world == History.Run(env, History.START, governance)
  {
    if ops == [] {
      assert Run(env, ops).world == History.Run(env, History.START, []);
    } else {
      var before, op := ops[..|ops| - 1], ops[|ops| - 1];
      AgentsAddNoBehaviour(env, before);
      var w := Run(env, before).world;
      var governance :| w == History.Run(env, History.START, governance);
      StepIsGoverned(env, Run(env, before), op);
      var v := Run(env, ops).world;
      if v != w {
        var step := GovernanceStep(env, w, v, op);
        History.RunSnoc(env, History.START, governance, step);
        assert v == History.Run(env, History.START, governance + [step]);
      }
    }
  }

  lemma GovernanceStep(env: Env, w: World, v: World, op: SystemOp) returns (step: History.Op)
    requires Governed(env, w, v, op) && v != w
    ensures v == History.Apply(env, w, step)
  {
    match op {
      case Govern(g) => step := g;
      case Begin(_, request, clock) => step := History.OpSubmit(request.decisionId, request.actorId, clock.submit);
      case AnswerRun(_, _, clock) =>
        var id, actor :| v == Submit(env, w, id, actor, clock.submit).0;
        step := History.OpSubmit(id, actor, clock.submit);
    }
  }

  // ---------------------------------------------------------------- the ledger sees ledger operations only

  /** `after` is reached from `before` by one ledger operation at most. */
  ghost predicate LedgerStep(before: L.Ledger, after: L.Ledger) {
    after == before || exists op :: L.ValidOp(op) && after == L.Apply(before, op)
  }

  /** ... or by two: a settlement or reservation, then the closing budget read. */
  ghost predicate LedgerSteps(before: L.Ledger, after: L.Ledger) {
    exists mid :: LedgerStep(before, mid) && LedgerStep(mid, after)
  }

  predicate PendingValid(pending: seq<Waiting>) { forall i :: 0 <= i < |pending| ==> pending[i].config.limits.Valid() }

  lemma StartIsLedgerStep(config: AgentConfig, t: Tables, l: L.Ledger, request: RunRequest, now: Time)
    requires config.limits.Valid()
    ensures LedgerStep(l, Start(config, t, l, request, now).0)
  {
    var after := Start(config, t, l, request, now).0;
    if after != l {
      var d := GetState(t, request.decisionId).value.decision;
      var op := L.OpReserve(config.limits, KeyFor(config, d, request.decisionId), EstimateFor(config, d).value, now);
      assert L.ValidOp(op) && after == L.Apply(l, op);
    }
  }

  lemma SettleIsLedgerStep(config: AgentConfig, l: L.Ledger, d: DecisionTrace, row: L.RunRow, answer: ClientAnswer, now: Time)
    requires config.limits.Valid()
    ensures LedgerStep(l, Settle(config, l, d, row, answer, now).0)
  {
    var settlement := SettlementFor(config, d, row, answer);
    if settlement.Returned? {
      var op := L.OpSettle(config.limits, row.runId, settlement.value, now);
      assert L.ValidOp(op) && Settle(config, l, d, row, answer, now).0 == L.Apply(l, op);
    }
  }

  lemma StateIsLedgerStep(l: L.Ledger, limits: L.Limits, now: Time)
    requires limits.Valid()
    ensures LedgerStep(l, L.State(l, limits, now).0)
  {
    var op := L.OpState(limits, now);
    assert L.ValidOp(op) && L.State(l, limits, now).0 == L.Apply(l, op);
  }

  lemma ConcludeIsLedgerStep(config: AgentConfig, env: Env, w: World, l: L.Ledger, request: RunRequest, row: L.RunRow, next: NextStep,
                             current: WorkflowState, reused: bool, clock: Clock)
    requires config.limits.Valid()
    ensures LedgerStep(l, Conclude(config, env, w, l, request, row, next, current, reused, clock).1)
  {
    StateIsLedgerStep(l, config.limits, clock.read);
  }

  lemma BeginLedger(env: Env, s: System, config: AgentConfig, request: RunRequest, clock: Clock)
    requires config.limits.Valid()
    ensures LedgerSteps(s.ledger, BeginRun(env, s, config, request, clock).ledger)
  {
    var (ledger, started) := Start(config, s.world.tables, s.ledger, request, clock.reserve);
    StartIsLedgerStep(config, s.world.tables, s.ledger, request, clock.reserve);
    if started.Returned? && started.value.1 && started.value.0.review.Some? {
      var current := GetState(s.world.tables, request.decisionId).value;
      ConcludeIsLedgerStep(config, env, s.world, ledger, request, started.value.0, started.value.0.review.value.nextStep, current, true, clock);
    }
    assert LedgerStep(s.ledger, ledger) && LedgerStep(ledger, BeginRun(env, s, config, request, clock).ledger);
  }

  lemma FinishLedger(env: Env, s: System, i: nat, answer: ClientAnswer, clock: Clock)
    requires i < |s.pending| && s.pending[i].config.limits.Valid()
    ensures LedgerSteps(s.ledger, FinishRun(env, s, i, answer, clock).ledger)
  {
    var p := s.pending[i];
    var (ledger, settled) := Settle(p.config, s.ledger, p.current.decision, p.row, answer, clock.settle);
    SettleIsLedgerStep(p.config, s.ledger, p.current.decision, p.row, answer, clock.settle);
    if settled.Returned? {
      ConcludeIsLedgerStep(p.config, env, s.world, ledger, p.request, settled.value, answer.review.nextStep, p.current, false, clock);
    }
    assert LedgerStep(s.ledger, ledger) && LedgerStep(ledger, FinishRun(env, s, i, answer, clock).ledger);
  }

  lemma StepLedger(env: Env, s: System, op: SystemOp)
    requires ValidOp(op) && PendingValid(s.pending)
    ensures LedgerSteps(s.ledger, Apply(env, s, op).ledger) && PendingValid(Apply(env, s, op).pending)
  {
    assert LedgerStep(s.ledger, s.ledger);
    match op {
      case Govern(_) =>
      case ReadBudget(limits, now) => StateIsLedgerStep(s.ledger, limits, now);
      case Begin(config, request, clock) => BeginLedger(env, s, config, request, clock);
      case AnswerRun(i, answer, clock) =>
        if i < |s.pending| {
          FinishLedger(env, s, i, answer, clock);
        }
    }
  }

  lemma ExtendHistory(l: L.Ledger, after: L.Ledger, ops: seq<L.Op>) returns (more: seq<L.Op>)
    requires P.ValidOps(ops) && l == L.Run(L.EMPTY, ops) && LedgerStep(l, after)
    ensures P.ValidOps(more) && after == L.Run(L.EMPTY, more)
  {
    more := ops;
    if after != l {
      var op :| L.ValidOp(op) && after == L.Apply(l, op);
      assert (ops + [op])[..|ops|] == ops;
      more := ops + [op];
    }
  }

  /** The ledger under any history is the ledger under some history of its own operations. */
  lemma {:induction false} LedgerIsLedger(env: Env, ops: seq<SystemOp>)
    requires ValidOps(ops)
    ensures PendingValid(Run(env, ops).pending)
    ensures exists ledgerOps :: P.ValidOps(ledgerOps) && Run(env, ops).ledger == L.Run(L.EMPTY, ledgerOps)
  {
    if ops == [] {
      var none: seq<L.Op> := [];
      assert P.ValidOps(none) && Run(env, ops).ledger == L.Run(L.EMPTY, none);
    } else {
      var before, op := ops[..|ops| - 1], ops[|ops| - 1];
      LedgerIsLedger(env, before);
      var l := Run(env, before).ledger;
      var ledgerOps :| P.ValidOps(ledgerOps) && l == L.Run(L.EMPTY, ledgerOps);
      StepLedger(env, Run(env, before), op);
      var mid :| LedgerStep(l, mid) && LedgerStep(mid, Run(env, ops).ledger);
      var first := ExtendHistory(l, mid, ledgerOps);
      var second := ExtendHistory(mid, Run(env, ops).ledger, first);
      assert P.ValidOps(second) && Run(env, ops).ledger == L.Run(L.EMPTY, second);
    }
  }
}
