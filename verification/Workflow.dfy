/** workflow.py: immutable decisions are led through approval, governed execution and verification. */
module Workflow {
  import opened Common
  import opened Models
  import opened Store
  import opened Sandbox
  import opened Autonomy
  import opened Approvals
  import opened Evaluation
  import opened Gateway
  import opened Verification

  const ANALYST_COST_LIMIT := 2000

  datatype WorkflowState = WorkflowState(
    decision: DecisionTrace,
    approval: Option<ApprovalRecord>,
    execution: Option<ActionExecution>,
    outcome: Option<OutcomeVerification>)

  function KeyOf(decision: DecisionTrace): IdempotencyKey {
    IdempotencyKey(decision.decisionId, decision.recommendation.selectedAction, decision.policy.policyVersion)
  }

  function ParametersFor(action: RecoveryAction, order: OrderContext): Reply<Parameters> {
    match action
    case Reroute => Returned(RerouteParameters(order.currentLocation, order.alternativeLocation, order.sku, order.quantity))
    case CarrierUpgrade => Returned(CarrierParameters(order.currentService, order.upgradedService))
    case SplitShipment => Returned(SplitParameters(order.quantity))
    case _ => Raised(WorkflowError)
  }

  function CommandFor(decision: DecisionTrace, order: OrderContext, actorId: string, approvedBy: Option<string>): Reply<ActionCommand> {
    match SelectedOption(decision)
    case None => Raised(StopIteration)
    case Some(selected) =>
      match ParametersFor(decision.recommendation.selectedAction, order)
      case Raised(e) => Raised(e)
      case Returned(parameters) =>
        Returned(ActionCommand(
                   decision.decisionId, order.orderId, decision.recommendation.selectedAction, KeyOf(decision), actorId,
                   approvedBy, selected.interventionCost, parameters))
  }

  /** `_assert_approval_authority`: what an operations analyst may not approve. */
  function AuthorityError(role: UserRole, decision: DecisionTrace, order: OrderContext): Option<Error> {
    if !role.OperationsAnalyst? then None
    else match SelectedOption(decision)
      case None => Some(StopIteration)
      case Some(selected) =>
        if order.restricted || ANALYST_COST_LIMIT < selected.interventionCost then Some(ApprovalError) else None
  }

  function RunCommand(w: World, decision: DecisionTrace, order: OrderContext, actorId: string, approvedBy: Option<string>,
                      approval: Option<ApprovalRecord>, now: Time): (World, Reply<WorkflowState>)
  {
    match CommandFor(decision, order, actorId, approvedBy)
    case Raised(e) => (w, Raised(e))
    case Returned(command) =>
      var (after, execution) := Execute(w, command, order, now);
      (after, match execution
              case Raised(e) => Raised(e)
              case Returned(row) => Returned(WorkflowState(decision, approval, Some(row), None)))
  }

  function Submit(env: Env, w: World, decisionId: DecisionId, actorId: string, now: Time): (World, Reply<WorkflowState>) {
    if decisionId !in w.tables.decisions then (w, Raised(RecordNotFoundError))
    else
      var decision := w.tables.decisions[decisionId];
      match decision.policy.disposition
      case AutoExecute =>
        match Resolve(w.tables.events, decision.eventId) {
          case None => (w, Raised(RecordNotFoundError))
          case Some(event) => RunCommand(w, decision, event.request.order, actorId, None, None, now)
        }
      case RequestApproval =>
        var (tables, approval) := RequestApprovalRecord(w.tables, decision, actorId, now, env.ttl);
        (w.(tables := tables), match approval
                               case Raised(e) => Raised(e)
                               case Returned(a) => Returned(WorkflowState(decision, Some(a), None, None)))
      case _ => (w, Returned(WorkflowState(decision, None, None, None)))
  }

  function ApproveAndExecute(env: Env, w: World, id: ApprovalId, input: ApprovalInput, now: Time): (World, Reply<WorkflowState>) {
    if id !in w.tables.approvals then (w, Raised(RecordNotFoundError))
    else
      var pending := w.tables.approvals[id];
      if pending.decisionId !in w.tables.decisions then (w, Raised(RecordNotFoundError))
      else
        var decision := w.tables.decisions[pending.decisionId];
        if pending.requestedAction != decision.recommendation.selectedAction then (w, Raised(WorkflowError))
        else
          match Resolve(w.tables.events, decision.eventId)
          case None => (w, Raised(RecordNotFoundError))
          case Some(event) =>
            var order := event.request.order;
            match AuthorityError(input.role, decision, order)
            case Some(e) => (w, Raised(e))
            case None =>
              var (tables, decided) := Decide(w.tables, id, input, Approved, now, env.strict);
              var after := w.(tables := tables);
              match decided
              case Raised(e) => (after, Raised(e))
              case Returned(approval) =>
                RunCommand(after, decision, order, approval.requestedBy, approval.decidedBy, Some(approval), now)
  }

  function Reject(env: Env, w: World, id: ApprovalId, input: ApprovalInput, now: Time): (World, Reply<WorkflowState>) {
    var (tables, decided) := Decide(w.tables, id, input, RejectedApproval, now, env.strict);
    var after := w.(tables := tables);
    match decided
    case Raised(e) => (after, Raised(e))
    case Returned(approval) =>
      (after, if approval.decisionId in tables.decisions
              then Returned(WorkflowState(tables.decisions[approval.decisionId], Some(approval), None, None))
              else Raised(RecordNotFoundError))
  }

  function Verify(w: World, decisionId: DecisionId, observation: Option<DeliveryObservation>, now: Time): (World, Reply<WorkflowState>) {
    if decisionId !in w.tables.decisions then (w, Raised(RecordNotFoundError))
    else
      var decision := w.tables.decisions[decisionId];
      match ActionFor(w.tables.actions, decisionId)
      case None => (w, Raised(RecordNotFoundError))
      case Some(execution) =>
        match Resolve(w.tables.events, decision.eventId)
        case None => (w, Raised(RecordNotFoundError))
        case Some(event) =>
          var (after, outcome) := VerifyAction(w, decision, execution, event.request.order, observation, now);
          (after, match outcome
                  case Raised(e) => Raised(e)
                  case Returned(o) => Returned(WorkflowState(decision, None, Some(execution), Some(o))))
  }

  class RecoveryWorkflowService {
    const env: Env
    const database: Database
    const adapter: SimulatedOperationsAdapter
    const approvals: ApprovalService
    const actions: ActionGateway
    const verification: OutcomeVerificationService

    ghost predicate Wired()
    {
      && approvals.database == database && approvals.ttl == env.ttl && approvals.strict == env.strict
      && actions.database == database && actions.adapter == adapter && actions.autonomy.database == database
      && verification.database == database && verification.adapter == adapter && verification.autonomy.database == database
    }

    /** The container wires every service to one database and one adapter. */
    constructor (env: Env, database: Database, adapter: SimulatedOperationsAdapter)
      ensures Wired() && this.env == env && this.database == database && this.adapter == adapter
    {
      var autonomy := new AutonomyController(database, env.strict);
      var approvals := new ApprovalService(database, env.ttl, env.strict);
      var actions := new ActionGateway(database, adapter, autonomy);
      var verification := new OutcomeVerificationService(database, adapter, autonomy);
      this.env := env;
      this.database := database;
      this.adapter := adapter;
      this.approvals := approvals;
      this.actions := actions;
      this.verification := verification;
    }

    ghost function View(): World
      reads database, adapter
    {
      World(database.View(), adapter.View())
    }

    method Execute(decision: DecisionTrace, order: OrderContext, actorId: string, approvedBy: Option<string>,
                   approval: Option<ApprovalRecord>, now: Time)
      returns (reply: Reply<WorkflowState>)
      requires Wired()
      modifies database, adapter
      ensures (View(), reply) == RunCommand(old(View()), decision, order, actorId, approvedBy, approval, now)
    {
      var command := CommandFor(decision, order, actorId, approvedBy);
      if command.Raised? {
        return Raised(command.error);
      }
      var execution := actions.Run(command.value, order, now);
      if execution.Raised? {
        return Raised(execution.error);
      }
      return Returned(WorkflowState(decision, approval, Some(execution.value), None));
    }

    method SubmitDecision(decisionId: DecisionId, actorId: string, now: Time) returns (reply: Reply<WorkflowState>)
      requires Wired()
      modifies database, adapter
      ensures (View(), reply) == Submit(env, old(View()), decisionId, actorId, now)
    {
      if decisionId !in database.decisions {
        return Raised(RecordNotFoundError);
      }
      var decision := database.decisions[decisionId];
      var disposition := decision.policy.disposition;
      if disposition.Block? || disposition.Escalate? || disposition.NoIntervention? {
        return Returned(WorkflowState(decision, None, None, None));
      }
      if disposition.AutoExecute? {
        var event := Resolve(database.events, decision.eventId);
        if event.None? {
          return Raised(RecordNotFoundError);
        }
        reply := Execute(decision, event.value.request.order, actorId, None, None, now);
        return;
      }
      var approval := approvals.Request(decision, actorId, now);
      if approval.Raised? {
        return Raised(approval.error);
      }
      return Returned(WorkflowState(decision, Some(approval.value), None, None));
    }

    method Approve(id: ApprovalId, input: ApprovalInput, now: Time) returns (reply: Reply<WorkflowState>)
      requires Wired()
      modifies database, adapter
      ensures (View(), reply) == ApproveAndExecute(env, old(View()), id, input, now)
    {
      if id !in database.approvals {
        return Raised(RecordNotFoundError);
      }
      var pending := database.approvals[id];
      if pending.decisionId !in database.decisions {
        return Raised(RecordNotFoundError);
      }
      var decision := database.decisions[pending.decisionId];
      if pending.requestedAction != decision.recommendation.selectedAction {
        return Raised(WorkflowError);
      }
      var event := Resolve(database.events, decision.eventId);
      if event.None? {
        return Raised(RecordNotFoundError);
      }
      var refused := AuthorityError(input.role, decision, event.value.request.order);
      if refused.Some? {
        return Raised(refused.value);
      }
      var approval := approvals.DecideAs(id, input, Approved, now);
      if approval.Raised? {
        return Raised(approval.error);
      }
      reply := Execute(decision, event.value.request.order, approval.value.requestedBy, approval.value.decidedBy,
                       Some(approval.value), now);
    }

    method RejectApproval(id: ApprovalId, input: ApprovalInput, now: Time) returns (reply: Reply<WorkflowState>)
      requires Wired()
      modifies database
      ensures (View(), reply) == Reject(env, old(View()), id, input, now)
    {
      var approval := approvals.DecideAs(id, input, RejectedApproval, now);
      if approval.Raised? {
        return Raised(approval.error);
      }
      if approval.value.decisionId !in database.decisions {
        return Raised(RecordNotFoundError);
      }
      return Returned(WorkflowState(database.decisions[approval.value.decisionId], Some(approval.value), None, None));
    }

    method VerifyDecision(decisionId: DecisionId, observation: Option<DeliveryObservation>, now: Time)
      returns (reply: Reply<WorkflowState>)
      requires Wired()
      modifies database, adapter
      ensures (View(), reply) == Verify(old(View()), decisionId, observation, now)
    {
      if decisionId !in database.decisions {
        return Raised(RecordNotFoundError);
      }
      var decision := database.decisions[decisionId];
      var execution := ActionFor(database.actions, decisionId);
      if execution.None? {
        return Raised(RecordNotFoundError);
      }
      var event := Resolve(database.events, decision.eventId);
      if event.None? {
        return Raised(RecordNotFoundError);
      }
      var outcome := verification.Run(decision, execution.value, event.value.request.order, observation, now);
      if outcome.Raised? {
        return Raised(outcome.error);
      }
      return Returned(WorkflowState(decision, None, execution, Some(outcome.value)));
    }
  }
}
