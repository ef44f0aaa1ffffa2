/** verification.py: independent post-action verification and the outcome record. */
module Verification {
  import opened Common
  import opened Models
  import opened Money
  import opened Store
  import opened Sandbox
  import opened Autonomy
  import opened Gateway

  function Observed(s: SandboxState, observation: Option<DeliveryObservation>): SandboxState {
    match observation
    case None => s
    case Some(o) => s.(deliveries := s.deliveries[o.orderId := o.onTime])
  }

  /** The sandbox verification reads: the observation recorded, the durable action re-applied. */
  function Inspected(s: SandboxState, order: OrderContext, execution: ActionExecution, observation: Option<DeliveryObservation>): SandboxState {
    Hydrated(Observed(s, observation), order, execution.status, execution.command.action)
  }

  function StatusOf(s: SandboxState, order: OrderContext, execution: ActionExecution): VerificationStatus {
    if execution.status.Compensated? || !PostconditionHolds(s, order, execution.command.action) then VerificationFailed
    else if order.orderId !in s.deliveries then ManualReviewRequired
    else Verified
  }

  function RealisedMargin(order: OrderContext, delivered: Option<bool>, cost: int): int {
    match delivered
    case None => 0
    case Some(onTime) =>
      if onTime then HalfUp(order.grossMargin - cost as real)
      else HalfUp(-order.cancellationCost - order.supportCost - cost as real)
  }

  function OutcomeOf(
    s: SandboxState, decision: DecisionTrace, execution: ActionExecution, order: OrderContext,
    observation: Option<DeliveryObservation>, selected: RecoveryOption, now: Time): OutcomeVerification
  {
    var delivered := Get(s.deliveries, order.orderId);
    OutcomeVerification(
      OutcomeId(decision.decisionId), decision.decisionId, execution.actionId, StatusOf(s, order, execution), now, delivered,
      execution.command.expectedCost, RealisedMargin(order, delivered, execution.command.expectedCost),
      decision.recommendation.incrementalValue,
      order.sources + (if observation.Some? then [observation.value.source] else []),
      PostconditionHolds(s, order, execution.command.action), selected.onTime, execution.status)
  }

  /** Record the outcome, then let the autonomy profile learn from what is on record. */
  function Persist(t: Tables, outcome: OutcomeVerification, action: RecoveryAction): (Tables, Reply<OutcomeVerification>) {
    var (outcomes, recorded) := RecordOutcomeRow(t.outcomes, outcome);
    match recorded
    case Raised(e) => (t, Raised(e))
    case Returned(persisted) =>
      var (tables, learned) := RecordOutcome(t.(outcomes := outcomes), persisted, action);
      (tables, if learned.Raised? then Raised(learned.error) else Returned(persisted))
  }

  function VerifyAction(
    w: World, decision: DecisionTrace, execution: ActionExecution, order: OrderContext,
    observation: Option<DeliveryObservation>, now: Time): (World, Reply<OutcomeVerification>)
  {
    if observation.Some? && observation.value.orderId != order.orderId then (w, Raised(ValueError))
    else
      var sandbox := Inspected(w.sandbox, order, execution, observation);
      match FirstWithAction(decision.recommendation.ranked, execution.command.action)
      case None => (w.(sandbox := sandbox), Raised(StopIteration))
      case Some(selected) =>
        var outcome := OutcomeOf(sandbox, decision, execution, order, observation, selected, now);
        var (tables, reply) := Persist(w.tables, outcome, execution.command.action);
        (World(tables, sandbox), reply)
  }

  class OutcomeVerificationService {
    const database: Database
    const adapter: SimulatedOperationsAdapter
    const autonomy: AutonomyController

    constructor (database: Database, adapter: SimulatedOperationsAdapter, autonomy: AutonomyController)
      requires autonomy.database == database
      ensures this.database == database && this.adapter == adapter && this.autonomy == autonomy
    {
      this.database := database;
      this.adapter := adapter;
      this.autonomy := autonomy;
    }

    method Run(decision: DecisionTrace, execution: ActionExecution, order: OrderContext,
               observation: Option<DeliveryObservation>, now: Time)
      returns (reply: Reply<OutcomeVerification>)
      requires autonomy.database == database
      modifies database, adapter
      ensures (World(database.View(), adapter.View()), reply)
           == VerifyAction(World(old(database.View()), old(adapter.View())), decision, execution, order, observation, now)
    {
      if observation.Some? {
        if observation.value.orderId != order.orderId {
          return Raised(ValueError);
        }
        adapter.RecordDelivery(observation.value.orderId, observation.value.onTime);
      }
      adapter.Hydrate(order, execution);
      var selected := FirstWithAction(decision.recommendation.ranked, execution.command.action);
      if selected.None? {
        return Raised(StopIteration);
      }
      var outcome := Draft(decision, execution, order, observation, selected.value, now);
      reply := Store(outcome, execution.command.action);
    }

    /** What the systems of record show now. */
    method Draft(decision: DecisionTrace, execution: ActionExecution, order: OrderContext,
                 observation: Option<DeliveryObservation>, selected: RecoveryOption, now: Time)
      returns (outcome: OutcomeVerification)
      ensures outcome == OutcomeOf(adapter.View(), decision, execution, order, observation, selected, now)
    {
      var holds := adapter.Postcondition(order, execution.command.action);
      var delivered := if order.orderId in adapter.deliveries then Some(adapter.deliveries[order.orderId]) else None;
      var status := if execution.status.Compensated? || !holds then VerificationFailed
        else if delivered.None? then ManualReviewRequired else Verified;
      var cost := execution.command.expectedCost;
      var margin := 0;
      if delivered == Some(true) {
        margin := HalfUp(order.grossMargin - cost as real);
      } else if delivered == Some(false) {
        margin := HalfUp(-order.cancellationCost - order.supportCost - cost as real);
      }
      var sources := order.sources;
      if observation.Some? {
        sources := sources + [observation.value.source];
      }
      outcome := OutcomeVerification(
        OutcomeId(decision.decisionId), decision.decisionId, execution.actionId, status, now, delivered, cost, margin,
        decision.recommendation.incrementalValue, sources, holds, selected.onTime, execution.status);
    }

    method Store(outcome: OutcomeVerification, action: RecoveryAction) returns (reply: Reply<OutcomeVerification>)
      requires autonomy.database == database
      modifies database
      ensures (database.View(), reply) == Persist(old(database.View()), outcome, action)
    {
      var existing := OutcomeFor(database.outcomes, outcome.decisionId);
      var persisted := outcome;
      if existing.Some? {
        if existing.value != outcome {
          return Raised(PersistenceConflictError);
        }
        persisted := existing.value;
      } else {
        database.outcomes := database.outcomes + [outcome];
      }
      var learned := autonomy.NoteOutcome(persisted, action);
      if learned.Raised? {
        return Raised(learned.error);
      }
      return Returned(persisted);
    }
  }
}
