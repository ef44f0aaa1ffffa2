/** evaluation.py and orchestrator.py: store the source event, run the deterministic pipeline, and
    record the decision under an identity derived from everything the policy saw. */
module Evaluation {
  import opened Common
  import opened Models
  import opened Store
  import opened Simulator
  import opened Optimizer
  import opened Policy
  import opened Autonomy

  /** What the running process brings: the risk scorer, strict identity, and the approval lifetime. */
  datatype Env = Env(score: OrderContext -> RiskAssessment, modelVersion: string, strict: bool, ttl: int)

  function StatusForMode(mode: OperatingMode): DecisionStatus {
    match mode
    case Observe => Observed
    case Shadow => ShadowRecorded
    case Recommend => Recommended
    case ApprovalMode => AwaitingApproval
    case Bounded => ReadyForExecution
  }

  function MakeDecisionId(env: Env, request: EvaluationRequest, policy: PolicyEvaluation): DecisionId {
    DecisionId(
      request.event.deduplicationKey, request.event.eventVersion, request.order.orderId, env.modelVersion,
      SIMULATOR_VERSION, OPTIMISER_VERSION, POLICY_VERSION, policy.controlVersion, policy.disposition,
      policy.executionAllowed, policy.reasons, request.mode)
  }

  function ControlsFor(t: Tables, action: RecoveryAction): Reply<Controls> {
    match ContextVersion(t, action)
    case Raised(e) => Raised(e)
    case Returned(version) => Returned(Controls(version, t.killSwitch.active, ExecutionPermitted(t, action)))
  }

  /** The pipeline up to the ledger write. */
  function Trace(env: Env, t: Tables, request: EvaluationRequest): Reply<DecisionTrace> {
    var risk := env.score(request.order);
    match Select(Simulate(request.order, risk))
    case Raised(e) => Raised(e)
    case Returned(recommendation) =>
      match ControlsFor(t, recommendation.selectedAction)
      case Raised(e) => Raised(e)
      case Returned(controls) =>
        match EvaluatePolicy(request.order, risk, recommendation, request.mode, controls)
        case Raised(e) => Raised(e)
        case Returned(policy) =>
          Returned(DecisionTrace(
                     MakeDecisionId(env, request, policy), request.event.eventId, request.order.orderId, request.mode,
                     risk, recommendation, policy, StatusForMode(request.mode), request.order.evaluationTime,
                     request.order.tenantId))
  }

  function Evaluate(env: Env, t: Tables, request: EvaluationRequest): (Tables, Reply<DecisionTrace>) {
    match Ingest(t.events, request)
    case Raised(e) => (t, Raised(e))
    case Returned(events) =>
      var stored := t.(events := events);
      match Trace(env, stored, request)
      case Raised(e) => (stored, Raised(e))
      case Returned(trace) =>
        var (decisions, reply) := RecordDecision(stored.decisions, trace);
        (stored.(decisions := decisions), reply)
  }

  class EvaluationService {
    const database: Database
    const env: Env

    constructor (database: Database, env: Env)
      ensures this.database == database && this.env == env
    {
      this.database := database;
      this.env := env;
    }

    method Run(request: EvaluationRequest) returns (reply: Reply<DecisionTrace>)
      modifies database
      ensures (database.View(), reply) == Evaluate(env, old(database.View()), request)
    {
      var ingested := Ingest(database.events, request);
      if ingested.Raised? {
        return Raised(ingested.error);
      }
      database.events := ingested.value;
      var risk := env.score(request.order);
      var chosen := Select(Simulate(request.order, risk));
      if chosen.Raised? {
        return Raised(chosen.error);
      }
      var controls := ReadControls(chosen.value.selectedAction);
      if controls.Raised? {
        return Raised(controls.error);
      }
      var policy := EvaluatePolicy(request.order, risk, chosen.value, request.mode, controls.value);
      if policy.Raised? {
        return Raised(policy.error);
      }
      var trace := DecisionTrace(
        MakeDecisionId(env, request, policy.value), request.event.eventId, request.order.orderId, request.mode,
        risk, chosen.value, policy.value, StatusForMode(request.mode), request.order.evaluationTime, request.order.tenantId);
      if trace.decisionId in database.decisions {
        if database.decisions[trace.decisionId] != trace {
          return Raised(LedgerConflictError);
        }
        return Returned(database.decisions[trace.decisionId]);
      }
      database.decisions := database.decisions[trace.decisionId := trace];
      return Returned(trace);
    }

    /** The gateway's callbacks, read from the control rows. */
    method ReadControls(action: RecoveryAction) returns (reply: Reply<Controls>)
      ensures reply == ControlsFor(database.View(), action)
    {
      var active := database.killSwitch.active;
      if !Executable(action) {
        var permitted: Reply<bool> := if active then Returned(false)
          else if action in database.profiles then Returned(database.profiles[action].level.BoundedAutonomy?)
          else Raised(AutonomyControlError);
        return Returned(Controls(ControlVersion(database.killSwitch.version, None), active, permitted));
      }
      if action !in database.profiles {
        return Raised(AutonomyControlError);
      }
      var profile := database.profiles[action];
      return Returned(Controls(ControlVersion(database.killSwitch.version, Some((action, profile.version))), active,
                               Returned(!active && profile.level.BoundedAutonomy?)));
    }
  }
}
