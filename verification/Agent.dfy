/** openai_agent.py: one budgeted model call reviews an immutable decision; authority stays with the
    deterministic controls whatever the client answers. */
module Agent {
  import opened Common
  import opened Models
  import opened AgentModels
  import opened AgentReview
  import opened Cost
  import opened Store
  import opened Sandbox
  import opened Evaluation
  import opened Gateway
  import opened Workflow
  import opened BudgetManager
  import L = BudgetLedger

  const PROMPT_VERSION := "promiseguard-openai-review-v2"

  /** A configured agent; `promptBytes` is the UTF-8 length of the instructions and a context. */
  datatype AgentConfig = AgentConfig(
    model: string, maxOutputTokens: nat, limits: L.Limits, enabled: bool, clientSupplied: bool, keyPresent: bool,
    promptBytes: AgentContext -> nat)
  {
    predicate Available() { enabled && (clientSupplied || keyPresent) }

    /** The guard of `run`: a supplied client is used even when the layer is disabled. */
    predicate MayRun() { Available() || clientSupplied }
  }

  datatype RunRequest = RunRequest(decisionId: DecisionId, actorId: string, advance: bool)

  /** Whatever the client does: raise any exception, or return any parsed response. */
  datatype ClientAnswer = ClientRaised(name: string) | Responded(responseId: string, review: Review, usage: Usage)

  /** The clock readings of the transactions of one run. */
  datatype Clock = Clock(reserve: Time, settle: Time, submit: Time, read: Time)

  datatype AgentResult = AgentResult(run: L.RunRow, budget: L.BudgetState, workflow: WorkflowState, reused: bool)

  function GetState(t: Tables, decisionId: DecisionId): Reply<WorkflowState> {
    if decisionId !in t.decisions then Raised(RecordNotFoundError)
    else
      var d := t.decisions[decisionId];
      var id := ApprovalId(d.decisionId, d.recommendation.selectedAction, d.policy.policyVersion);
      Returned(WorkflowState(d, if id in t.approvals then Some(t.approvals[id]) else None,
                             ActionFor(t.actions, decisionId), OutcomeFor(t.outcomes, decisionId)))
  }

  function KeyFor(config: AgentConfig, d: DecisionTrace, decisionId: DecisionId): L.RequestKey {
    L.RequestKey(decisionId, config.model, PROMPT_VERSION, ContextOf(d))
  }

  function EstimateFor(config: AgentConfig, d: DecisionTrace): Reply<nat> {
    EstimatedRunCost(config.model, config.promptBytes(ContextOf(d)), config.maxOutputTokens)
  }

  /** Up to and including the reservation. */
  function Start(config: AgentConfig, t: Tables, l: L.Ledger, request: RunRequest, now: Time)
    : (L.Ledger, Reply<(L.RunRow, bool)>)
  {
    if !config.MayRun() then (l, Raised(OpenAIAgentUnavailableError))
    else match GetState(t, request.decisionId)
      case Raised(e) => (l, Raised(e))
      case Returned(state) =>
        match EstimateFor(config, state.decision)
        case Raised(e) => (l, Raised(e))
        case Returned(estimate) =>
          L.Reserve(l, config.limits, KeyFor(config, state.decision, request.decisionId), estimate, now)
  }

  /** How an answer is booked. */
  function SettlementFor(config: AgentConfig, d: DecisionTrace, row: L.RunRow, answer: ClientAnswer): Reply<L.Settlement> {
    match answer
    case ClientRaised(name) => Returned(L.Failure(RequestFailed(name), row.reservedCost))
    case Responded(id, review, usage) =>
      match CostForUsage(config.model, usage)
      case Raised(e) => Raised(e)
      case Returned(cost) =>
        var errors := Validate(review, d, ContextOf(d));
        Returned(if errors == [] then L.Completion(usage, cost, id, review)
                 else L.Rejection(usage, cost, id, OutputRejected, errors))
  }

  /** The settlement transaction, and the exception that ends the run unless the review was accepted. */
  function Settle(config: AgentConfig, l: L.Ledger, d: DecisionTrace, row: L.RunRow, answer: ClientAnswer, now: Time)
    : (L.Ledger, Reply<L.RunRow>)
  {
    match SettlementFor(config, d, row, answer)
    case Raised(e) => (l, Raised(e))
    case Returned(s) =>
      var (after, settled) := L.Finalise(l, config.limits, row.runId, s, now);
      (after,
       if settled.Raised? || s.status.Completed? then settled
       else Raised(if s.status.Rejected? then AgentOutputValidationError else OpenAIResponseError))
  }

  function Advance(env: Env, w: World, request: RunRequest, next: NextStep, current: WorkflowState, now: Time)
    : (World, Reply<WorkflowState>)
  {
    if request.advance && next.SubmitDecision? then Submit(env, w, request.decisionId, request.actorId, now)
    else (w, Returned(current))
  }

  /** Advance the workflow if asked to, then report the budget. */
  function Conclude(config: AgentConfig, env: Env, w: World, l: L.Ledger, request: RunRequest, row: L.RunRow, next: NextStep,
                    current: WorkflowState, reused: bool, clock: Clock): (World, L.Ledger, Reply<AgentResult>)
  {
    var (world, workflow) := Advance(env, w, request, next, current, clock.submit);
    match workflow
    case Raised(e) => (world, l, Raised(e))
    case Returned(state) =>
      var (ledger, budget) := L.State(l, config.limits, clock.read);
      (world, ledger, match budget
                      case Raised(e) => Raised(e)
                      case Returned(b) => Returned(AgentResult(row, b, state, reused)))
  }

  /** A run whose request key was completed before. */
  function Reuse(config: AgentConfig, env: Env, w: World, l: L.Ledger, request: RunRequest, row: L.RunRow,
                 current: WorkflowState, clock: Clock): (World, L.Ledger, Reply<AgentResult>)
  {
    match row.review
    case None => (w, l, Raised(OpenAIResponseError))
    case Some(review) => Conclude(config, env, w, l, request, row, review.nextStep, current, true, clock)
  }

  /** From the client's answer to the end of a fresh run. */
  function Finish(config: AgentConfig, env: Env, w: World, l: L.Ledger, request: RunRequest, row: L.RunRow,
                  current: WorkflowState, answer: ClientAnswer, clock: Clock): (World, L.Ledger, Reply<AgentResult>)
  {
    var (ledger, settled) := Settle(config, l, current.decision, row, answer, clock.settle);
    match settled
    case Raised(e) => (w, ledger, Raised(e))
    case Returned(run) =>
      Conclude(config, env, w, ledger, request, run, answer.review.nextStep, current, false, clock)
  }

  /** `OpenAIAgentService.run`, undisturbed from start to end. */
  function AgentRun(config: AgentConfig, env: Env, w: World, l: L.Ledger, request: RunRequest, answer: ClientAnswer, clock: Clock)
    : (World, L.Ledger, Reply<AgentResult>)
  {
    var (ledger, started) := Start(config, w.tables, l, request, clock.reserve);
    match started
    case Raised(e) => (w, ledger, Raised(e))
    case Returned(pair) =>
      var current := GetState(w.tables, request.decisionId).value;
      if pair.1 then Reuse(config, env, w, ledger, request, pair.0, current, clock)
      else Finish(config, env, w, ledger, request, pair.0, current, answer, clock)
  }

  lemma DisabledStart(config: AgentConfig, t: Tables, l: L.Ledger, request: RunRequest, now: Time)
    requires !config.enabled
    ensures Start(config, t, l, request, now) ==
            if config.clientSupplied then Start(config.(enabled := true), t, l, request, now)
            else (l, Raised(OpenAIAgentUnavailableError))
  {}

  lemma DisabledFinish(config: AgentConfig, env: Env, w: World, l: L.Ledger, request: RunRequest, row: L.RunRow,
                       current: WorkflowState, answer: ClientAnswer, clock: Clock)
    ensures Finish(config.(enabled := true), env, w, l, request, row, current, answer, clock)
         == Finish(config, env, w, l, request, row, current, answer, clock)
  {
    assert Settle(config.(enabled := true), l, current.decision, row, answer, clock.settle)
        == Settle(config, l, current.decision, row, answer, clock.settle);
  }

  /** Disabling the agent: with a client supplied it changes nothing at all; without one, every run is refused
      and leaves world and budget as they are. */
  lemma DisabledRun(config: AgentConfig, env: Env, w: World, l: L.Ledger, request: RunRequest, answer: ClientAnswer, clock: Clock)
    requires !config.enabled
    ensures AgentRun(config, env, w, l, request, answer, clock) ==
            if config.clientSupplied then AgentRun(config.(enabled := true), env, w, l, request, answer, clock)
            else (w, l, Raised(OpenAIAgentUnavailableError))
  {
    DisabledStart(config, w.tables, l, request, clock.reserve);
    var (ledger, started) := Start(config, w.tables, l, request, clock.reserve);
    if started.Returned? && !started.value.1 {
      DisabledFinish(config, env, w, ledger, request, started.value.0, GetState(w.tables, request.decisionId).value, answer, clock);
    }
  }

  class OpenAIAgentService {
    const workflow: RecoveryWorkflowService
    const budget: OpenAIBudgetManager
    const config: AgentConfig

    constructor (workflow: RecoveryWorkflowService, budget: OpenAIBudgetManager, config: AgentConfig)
      requires workflow.Wired() && budget.limits == config.limits
      ensures this.workflow == workflow && this.budget == budget && this.config == config && Wired()
    {
      this.workflow := workflow;
      this.budget := budget;
      this.config := config;
    }

    ghost predicate Wired() { workflow.Wired() && budget.limits == config.limits }

    /** `_validate`, complaint by complaint. */
    static method Check(review: Review, d: DecisionTrace, context: AgentContext) returns (errors: seq<Complaint>)
      ensures errors == Validate(review, d, context)
    {
      errors := [];
      if review.decisionId != d.decisionId {
        errors := errors + [WrongDecision];
      }
      if review.selectedAction != d.recommendation.selectedAction {
        errors := errors + [WrongAction];
      }
      if review.disposition != d.policy.disposition {
        errors := errors + [WrongDisposition];
      }
      if review.nextStep != ExpectedNext(d.policy.disposition) {
        errors := errors + [WrongNextStep];
      }
      if review.requiresHuman != HumanRequired(d.policy.disposition) {
        errors := errors + [WrongAttention];
      }
      if !Supported(review.evidenceIds, context.allowedEvidence) {
        errors := errors + [UnsupportedEvidence];
      }
      if RequiredCode(d.policy.disposition) !in review.rationaleCodes {
        errors := errors + [MissingRationale];
      }
    }

    method State(decisionId: DecisionId) returns (reply: Reply<WorkflowState>)
      ensures reply == GetState(workflow.database.View(), decisionId)
    {
      var database := workflow.database;
      if decisionId !in database.decisions {
        return Raised(RecordNotFoundError);
      }
      var d := database.decisions[decisionId];
      var id := ApprovalId(d.decisionId, d.recommendation.selectedAction, d.policy.policyVersion);
      var approval := if id in database.approvals then Some(database.approvals[id]) else None;
      return Returned(WorkflowState(d, approval, ActionFor(database.actions, decisionId), OutcomeFor(database.outcomes, decisionId)));
    }

    method AdvanceIfRequested(request: RunRequest, next: NextStep, current: WorkflowState, now: Time)
      returns (reply: Reply<WorkflowState>)
      requires Wired()
      modifies workflow.database, workflow.adapter
      ensures (workflow.View(), reply) == Advance(workflow.env, old(workflow.View()), request, next, current, now)
    {
      if !request.advance {
        return Returned(current);
      }
      if !next.SubmitDecision? {
        return Returned(current);
      }
      reply := workflow.SubmitDecision(request.decisionId, request.actorId, now);
    }

    method Report(request: RunRequest, row: L.RunRow, next: NextStep, current: WorkflowState, reused: bool, clock: Clock)
      returns (reply: Reply<AgentResult>)
      requires Wired()
      modifies workflow.database, workflow.adapter, budget.database
      ensures (workflow.View(), budget.database.View(), reply)
           == Conclude(config, workflow.env, old(workflow.View()), old(budget.database.View()), request, row, next, current, reused, clock)
    {
      var advanced := AdvanceIfRequested(request, next, current, clock.submit);
      if advanced.Raised? {
        return Raised(advanced.error);
      }
      var state := budget.State(clock.read);
      if state.Raised? {
        return Raised(state.error);
      }
      return Returned(AgentResult(row, state.value, advanced.value, reused));
    }

    method Book(row: L.RunRow, d: DecisionTrace, context: AgentContext, answer: ClientAnswer, now: Time)
      returns (reply: Reply<L.RunRow>)
      requires Wired() && context == ContextOf(d)
      modifies budget.database
      ensures (budget.database.View(), reply) == Settle(config, old(budget.database.View()), d, row, answer, now)
    {
      if answer.ClientRaised? {
        var failed := budget.Fail(row.runId, RequestFailed(answer.name), row.reservedCost, now);
        return Raised(if failed.Raised? then failed.error else OpenAIResponseError);
      }
      var cost := CostForUsage(config.model, answer.usage);
      if cost.Raised? {
        return Raised(cost.error);
      }
      var errors := Check(answer.review, d, context);
      if errors != [] {
        var rejected := budget.Reject(row.runId, answer.usage, cost.value, answer.responseId, OutputRejected, errors, now);
        return Raised(if rejected.Raised? then rejected.error else AgentOutputValidationError);
      }
      reply := budget.Complete(row.runId, answer.usage, cost.value, answer.responseId, answer.review, now);
    }

    method Run(request: RunRequest, answer: ClientAnswer, clock: Clock) returns (reply: Reply<AgentResult>)
      requires Wired()
      modifies workflow.database, workflow.adapter, budget.database
      ensures (workflow.View(), budget.database.View(), reply)
           == AgentRun(config, workflow.env, old(workflow.View()), old(budget.database.View()), request, answer, clock)
      ensures !config.enabled ==>
                (workflow.View(), budget.database.View(), reply) ==
                if config.clientSupplied
                then AgentRun(config.(enabled := true), workflow.env, old(workflow.View()), old(budget.database.View()), request, answer, clock)
                else (old(workflow.View()), old(budget.database.View()), Raised(OpenAIAgentUnavailableError))
    {
      if !config.enabled {
        DisabledRun(config, workflow.env, workflow.View(), budget.database.View(), request, answer, clock);
      }
      if !config.MayRun() {
        return Raised(OpenAIAgentUnavailableError);
      }
      var state := State(request.decisionId);
      if state.Raised? {
        return Raised(state.error);
      }
      var current := state.value;
      var context := BuildContext(current.decision);
      var estimate := EstimatedRunCost(config.model, config.promptBytes(context), config.maxOutputTokens);
      if estimate.Raised? {
        return Raised(estimate.error);
      }
      var key := L.RequestKey(request.decisionId, config.model, PROMPT_VERSION, context);
      var reservation := budget.Reserve(key, estimate.value, clock.reserve);
      if reservation.Raised? {
        return Raised(reservation.error);
      }
      var (row, reused) := reservation.value;
      if reused {
        if row.review.None? {
          return Raised(OpenAIResponseError);
        }
        reply := Report(request, row, row.review.value.nextStep, current, true, clock);
        return;
      }
      var booked := Book(row, current.decision, context, answer, clock.settle);
      if booked.Raised? {
        return Raised(booked.error);
      }
      reply := Report(request, booked.value, answer.review.nextStep, current, false, clock);
    }
  }
}
