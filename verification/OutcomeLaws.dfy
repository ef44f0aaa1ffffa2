/** What verification answers: the status, the delivery and the margin of an outcome, exactly, and what is learned from
    it. */
module OutcomeLaws {
  import opened Common
  import opened Models
  import opened Money
  import opened Store
  import opened Sandbox
  import opened Autonomy
  import opened Evaluation
  import opened Gateway
  import opened Verification
  import opened Workflow
  import opened History
  import opened Frames
  import opened SandboxHistory
  import Authority
  import Reconciliation
  import SagaExact

  // ---------------------------------------------------------------- deliveries on record

  /** The delivery that a step puts on record for an order: an observation of that order, given when verifying a decision
      that acted on it. */
  function ObservedBy(w: World, op: Op, orderId: string): Option<bool> {
    if op.OpVerify? && op.observation.Some? && op.observation.value.orderId == orderId
       && ActionFor(w.tables.actions, op.decisionId).Some?
       && OrderOf(w.tables, op.decisionId).Some? && OrderOf(w.tables, op.decisionId).value.orderId == orderId
    then Some(op.observation.value.onTime)
    else None
  }

  /** The last delivery that the history put on record for an order. */
  function LastDelivery(env: Env, ops: seq<Op>, orderId: string): Option<bool> {
    if ops == [] then None
    else
      var before := ops[..|ops| - 1];
      var now := ObservedBy(Run(env, START, before), ops[|ops| - 1], orderId);
      if now.Some? then now else LastDelivery(env, before, orderId)
  }

  lemma InspectedDelivery(s: SandboxState, order: OrderContext, e: ActionExecution, observation: Option<DeliveryObservation>, orderId: string)
    ensures Get(Inspected(s, order, e, observation).deliveries, orderId)
         == if observation.Some? && observation.value.orderId == orderId then Some(observation.value.onTime) else Get(s.deliveries, orderId)
  {}

  lemma VerifyDelivery(w: World, id: DecisionId, observation: Option<DeliveryObservation>, now: Time, orderId: string)
    ensures var seen := ObservedBy(w, OpVerify(id, observation, now), orderId);
            Get(Verify(w, id, observation, now).0.sandbox.deliveries, orderId) == if seen.Some? then seen else Get(w.sandbox.deliveries, orderId)
  {
    var v := Verify(w, id, observation, now).0;
    if id in w.tables.decisions && ActionFor(w.tables.actions, id).Some? && OrderOf(w.tables, id).Some? {
      var order, e := OrderOf(w.tables, id).value, ActionFor(w.tables.actions, id).value;
      if observation.Some? && observation.value.orderId != order.orderId {
        assert v == w;
      } else {
        assert v.sandbox == Inspected(w.sandbox, order, e, observation);
        InspectedDelivery(w.sandbox, order, e, observation, orderId);
      }
    }
  }

  lemma StepDelivery(env: Env, w: World, op: Op, orderId: string)
    ensures var seen := ObservedBy(w, op, orderId);
            Get(Apply(env, w, op).sandbox.deliveries, orderId) == if seen.Some? then seen else Get(w.sandbox.deliveries, orderId)
  {
    match op {
      case OpSubmit(id, actor, now) => SagaExact.SubmitSurroundings(env, w, id, actor, now);
      case OpApprove(id, input, now) => SagaExact.ApproveSurroundings(env, w, id, input, now);
      case OpVerify(id, observation, now) => VerifyDelivery(w, id, observation, now, orderId);
      case _ =>
    }
  }

  /** The sandbox remembers the last observation of every order, and nothing else. */
  lemma {:induction false} DeliveriesAreObserved(env: Env, ops: seq<Op>, orderId: string)
    ensures Get(Run(env, START, ops).sandbox.deliveries, orderId) == LastDelivery(env, ops, orderId)
  {
    if ops == [] {
    } else {
      DeliveriesAreObserved(env, ops[..|ops| - 1], orderId);
      StepDelivery(env, Run(env, START, ops[..|ops| - 1]), ops[|ops| - 1], orderId);
    }
  }

  // ---------------------------------------------------------------- the outcome of an action

  /** Each status, for an action with this durable status, a postcondition found to hold or not, and this delivery. */
  predicate RightStatus(status: VerificationStatus, execution: ActionStatus, holds: bool, delivered: Option<bool>) {
    && (status.VerificationFailed? <==> execution.Compensated? || !holds)
    && (status.ManualReviewRequired? <==> !execution.Compensated? && holds && delivered.None?)
    && (status.Verified? <==> !execution.Compensated? && holds && delivered.Some?)
  }

  /** The margin realised, to the cent: nothing without a delivery; the gross margin less the action's cost when on time;
      both failure costs and the action's cost lost when late. */
  predicate RightMargin(margin: int, order: OrderContext, delivered: Option<bool>, cost: int) {
    && (delivered == None ==> margin == 0)
    && (delivered == Some(true) ==> margin == HalfUp(order.grossMargin - cost as real))
    && (delivered == Some(false) ==> margin == HalfUp(0.0 - order.cancellationCost - order.supportCost - cost as real))
  }

  /** An outcome drafted for row `e` of decision `d`, with this delivery on record. */
  predicate RightOutcome(o: OutcomeVerification, d: DecisionTrace, e: ActionExecution, order: OrderContext, holds: bool,
                         delivered: Option<bool>, observation: Option<DeliveryObservation>, now: Time)
  {
    && RightStatus(o.status, e.status, holds, delivered) && RightMargin(o.realisedMargin, order, delivered, e.command.expectedCost)
    && o.delivered == delivered && o.postconditionHeld == holds && o.actualCost == e.command.expectedCost
    && o.decisionId == d.decisionId && o.actionId == e.actionId && o.executionStatus == e.status && o.verifiedAt == now
    && o.estimatedIncremental == d.recommendation.incrementalValue
    && FirstWithAction(d.recommendation.ranked, e.command.action).Some?
    && o.expectedOnTime == FirstWithAction(d.recommendation.ranked, e.command.action).value.onTime
    && o.evidence == (if observation.Some? then order.sources + [observation.value.source] else order.sources)
  }

  lemma DraftIsRight(s: SandboxState, d: DecisionTrace, e: ActionExecution, order: OrderContext,
                     observation: Option<DeliveryObservation>, selected: RecoveryOption, now: Time)
    requires FirstWithAction(d.recommendation.ranked, e.command.action) == Some(selected)
    ensures RightOutcome(OutcomeOf(s, d, e, order, observation, selected, now), d, e, order,
                         PostconditionHolds(s, order, e.command.action), Get(s.deliveries, order.orderId), observation, now)
  {
    assert order.sources + [] == order.sources;
  }

  /** The delivery known to a verification. */
  function KnownDelivery(w: World, order: OrderContext, observation: Option<DeliveryObservation>): Option<bool> {
    if observation.Some? then Some(observation.value.onTime) else Get(w.sandbox.deliveries, order.orderId)
  }

  /** The decision can be verified: it has a row and an order, and the observation is of that order. */
  predicate Verifiable(w: World, id: DecisionId, observation: Option<DeliveryObservation>) {
    && id in w.tables.decisions && ActionFor(w.tables.actions, id).Some? && OrderOf(w.tables, id).Some?
    && (observation.Some? ==> observation.value.orderId == OrderOf(w.tables, id).value.orderId)
    && SelectedOption(w.tables.decisions[id]).Some?
    && ActionFor(w.tables.actions, id).value.command.action == w.tables.decisions[id].recommendation.selectedAction
    && w.tables.decisions[id].decisionId == id
  }

  /** The outcome that a verification drafts. */
  function DraftFor(w: World, id: DecisionId, observation: Option<DeliveryObservation>, now: Time): OutcomeVerification
    requires Verifiable(w, id, observation)
  {
    var d, e, order := w.tables.decisions[id], ActionFor(w.tables.actions, id).value, OrderOf(w.tables, id).value;
    OutcomeOf(Inspected(w.sandbox, order, e, observation), d, e, order, observation, SelectedOption(d).value, now)
  }

  /** The postcondition as a verification finds it. */
  predicate Found(w: World, id: DecisionId, observation: Option<DeliveryObservation>)
    requires Verifiable(w, id, observation)
  {
    var e, order := ActionFor(w.tables.actions, id).value, OrderOf(w.tables, id).value;
    PostconditionHolds(Inspected(w.sandbox, order, e, observation), order, e.command.action)
  }

  lemma VerifyPersistsDraft(w: World, id: DecisionId, observation: Option<DeliveryObservation>, now: Time)
    requires Verifiable(w, id, observation)
    ensures var (v, r) := Verify(w, id, observation, now);
            var (tables, persisted) := Persist(w.tables, DraftFor(w, id, observation, now), ActionFor(w.tables.actions, id).value.command.action);
            v.tables == tables && (r.Returned? <==> persisted.Returned?)
            && (r.Raised? ==> r.error == persisted.error)
            && (r.Returned? ==> r.value.outcome == Some(persisted.value))
  {}

  lemma DraftForIsRight(w: World, id: DecisionId, observation: Option<DeliveryObservation>, now: Time)
    requires Verifiable(w, id, observation)
    ensures var d, e, order := w.tables.decisions[id], ActionFor(w.tables.actions, id).value, OrderOf(w.tables, id).value;
            RightOutcome(DraftFor(w, id, observation, now), d, e, order, Found(w, id, observation),
                         KnownDelivery(w, order, observation), observation, now)
  {
    var d, e, order := w.tables.decisions[id], ActionFor(w.tables.actions, id).value, OrderOf(w.tables, id).value;
    InspectedDelivery(w.sandbox, order, e, observation, order.orderId);
    DraftIsRight(Inspected(w.sandbox, order, e, observation), d, e, order, observation, SelectedOption(d).value, now);
  }

  // ---------------------------------------------------------------- recording and learning

  /** A first outcome is stored and returned, and teaches its action's profile exactly what it says: nothing when a human
      must look, one success when VERIFIED, one failure when FAILED. */
  predicate FirstOutcome(t: Tables, u: Tables, o: OutcomeVerification, action: RecoveryAction) {
    && u.outcomes == t.outcomes + [o]
    && (o.status.ManualReviewRequired? ==> u.profiles == t.profiles && u.evidence == t.evidence)
    && (!o.status.ManualReviewRequired? ==>
          && action in u.profiles && u.evidence == t.evidence + [EvidenceRow(OutcomeEvidence(o.outcomeId), action, o.status.Verified?, false)]
          && u.profiles == t.profiles[action := u.profiles[action]])
  }

  lemma FirstOutcomeTeaches(t: Tables, o: OutcomeVerification, action: RecoveryAction)
    requires OutcomeFor(t.outcomes, o.decisionId).None? && action in t.profiles && !HasEvidence(t.evidence, OutcomeEvidence(o.outcomeId))
    ensures var (u, r) := Persist(t, o, action); r == Returned(o) && FirstOutcome(t, u, o, action)
  {}

  /** A later outcome of the same decision is only compared with the first. */
  lemma LaterOutcomeIsCompared(t: Tables, o: OutcomeVerification, action: RecoveryAction)
    requires OutcomeFor(t.outcomes, o.decisionId).Some? && action in t.profiles
    requires OutcomeFor(t.outcomes, o.decisionId) == Some(o) && !o.status.ManualReviewRequired? ==>
               HasEvidence(t.evidence, OutcomeEvidence(o.outcomeId))
    ensures Persist(t, o, action) ==
            (t, if OutcomeFor(t.outcomes, o.decisionId) == Some(o) then Returned(o) else Raised(PersistenceConflictError))
  {
    assert t.(outcomes := t.outcomes) == t;
  }

  // ---------------------------------------------------------------- over histories

  lemma ReachableIsVerifiable(env: Env, ops: seq<Op>, i: nat)
    requires ValidOps(ops) && StableOrders(Run(env, START, ops).tables.events) && i < |Run(env, START, ops).tables.actions|
    ensures var w := Run(env, START, ops); var id := w.tables.actions[i].command.decisionId;
            && ActionFor(w.tables.actions, id) == Some(w.tables.actions[i])
            && Verifiable(w, id, None) && OrderOf(w.tables, id).value.orderId == w.tables.actions[i].command.orderId
  {
    RunKeeps(env, ops);
    Authority.RunKeeps(env, START, ops);
    KeptIsVerifiable(Run(env, START, ops), i);
  }

  lemma KeptIsVerifiable(w: World, i: nat)
    requires Kept(w) && Authority.Inv(w.tables) && i < |w.tables.actions|
    ensures var id := w.tables.actions[i].command.decisionId;
            && ActionFor(w.tables.actions, id) == Some(w.tables.actions[i])
            && Verifiable(w, id, None) && OrderOf(w.tables, id).value.orderId == w.tables.actions[i].command.orderId
  {
    var row := w.tables.actions[i];
    RowIsFound(w.tables, i);
    assert RowLive(w, i) && Authority.RowOk(w.tables, row);
    assert Authority.DecisionOk(row.command.decisionId, w.tables.decisions[row.command.decisionId]);
  }

  lemma SoleFound(w: World, i: nat, observation: Option<DeliveryObservation>)
    requires Kept(w) && Authority.Inv(w.tables) && i < |w.tables.actions| && Sole(w.tables.actions, i)
    requires Verifiable(w, w.tables.actions[i].command.decisionId, observation)
    ensures var row := w.tables.actions[i];
            (row.status.Compensated? || !Found(w, row.command.decisionId, observation)) <==> !row.status.Succeeded?
  {
    var row := w.tables.actions[i];
    RowIsFound(w.tables, i);
    assert RowLive(w, i) && Authority.RowOk(w.tables, row);
    OrderIsValid(w.tables, row.command.decisionId);
    var order := OrderOf(w.tables, row.command.decisionId).value;
    HydrateLeaves(w.sandbox, order, row, observation);
    var t := Inspected(w.sandbox, order, row, observation);
    assert order.orderId in t.locations && order.orderId in t.services;
  }

  /** What the first verification of row `i` answers. */
  predicate VerifiedRightly(w: World, i: nat, observation: Option<DeliveryObservation>, now: Time, delivered: Option<bool>)
    requires i < |w.tables.actions|
  {
    var row := w.tables.actions[i];
    var id := row.command.decisionId;
    var (v, r) := Verify(w, id, observation, now);
    && r.Returned? && r.value.outcome.Some?
    && id in w.tables.decisions && OrderOf(w.tables, id).Some?
    && var o := r.value.outcome.value;
    && FirstOutcome(w.tables, v.tables, o, row.command.action)
    && o.delivered == delivered
    && RightMargin(o.realisedMargin, OrderOf(w.tables, id).value, delivered, row.command.expectedCost)
    && (Sole(w.tables.actions, i) ==>
          && (o.status.VerificationFailed? <==> !row.status.Succeeded?)
          && (o.status.ManualReviewRequired? <==> row.status.Succeeded? && delivered.None?)
          && (o.status.Verified? <==> row.status.Succeeded? && delivered.Some?))
  }

  lemma KeptVerifiesRightly(w: World, i: nat, observation: Option<DeliveryObservation>, now: Time)
    requires Kept(w) && Authority.Inv(w.tables) && Reconciliation.Inv(w.tables) && i < |w.tables.actions|
    requires OutcomeFor(w.tables.outcomes, w.tables.actions[i].command.decisionId).None?
    requires observation.Some? ==> observation.value.orderId == w.tables.actions[i].command.orderId
    ensures OrderOf(w.tables, w.tables.actions[i].command.decisionId).Some?
    ensures VerifiedRightly(w, i, observation, now,
                            KnownDelivery(w, OrderOf(w.tables, w.tables.actions[i].command.decisionId).value, observation))
  {
    var row := w.tables.actions[i];
    var id := row.command.decisionId;
    KeptIsVerifiable(w, i);
    VerifyPersistsDraft(w, id, observation, now);
    DraftForIsRight(w, id, observation, now);
    var o := DraftFor(w, id, observation, now);
    assert Authority.RowOk(w.tables, row);
    Reconciliation.NoOutcomeEvidence(w.tables, o);
    FirstOutcomeTeaches(w.tables, o, row.command.action);
    if Sole(w.tables.actions, i) {
      SoleFound(w, i, observation);
    }
  }

  /** Verification answers, exactly: after any history, the first verification of an action, with an observation of its
      order or none, stores and returns an outcome whose delivery is the one observed or last on record, whose margin
      is the one realised, and, for the only action on its order, whose status is FAILED if and only if the action did
      not succeed, MANUAL_REVIEW_REQUIRED if and only if it did and no delivery was ever recorded, and VERIFIED
      otherwise; a human review teaches nothing. */
  lemma VerificationExactly(env: Env, ops: seq<Op>, i: nat, observation: Option<DeliveryObservation>, now: Time)
    requires ValidOps(ops) && StableOrders(Run(env, START, ops).tables.events) && i < |Run(env, START, ops).tables.actions|
    requires var t := Run(env, START, ops).tables; OutcomeFor(t.outcomes, t.actions[i].command.decisionId).None?
    requires observation.Some? ==> observation.value.orderId == Run(env, START, ops).tables.actions[i].command.orderId
    ensures var w := Run(env, START, ops);
            VerifiedRightly(w, i, observation, now,
                            if observation.Some? then Some(observation.value.onTime)
                            else LastDelivery(env, ops, w.tables.actions[i].command.orderId))
  {
    RunKeeps(env, ops);
    Authority.RunKeeps(env, START, ops);
    Reconciliation.RunKeeps(env, ops);
    var w := Run(env, START, ops);
    KeptIsVerifiable(w, i);
    KeptVerifiesRightly(w, i, observation, now);
    DeliveriesAreObserved(env, ops, w.tables.actions[i].command.orderId);
  }

  lemma StoredOutcomeHasEvidence(t: Tables, o: OutcomeVerification)
    requires Reconciliation.Inv(t) && OutcomeFor(t.outcomes, o.decisionId) == Some(o) && !o.status.ManualReviewRequired?
    ensures HasEvidence(t.evidence, OutcomeEvidence(o.outcomeId))
  {
    var k :| 0 <= k < |t.outcomes| && t.outcomes[k] == o;
  }

  /** Verifying again changes no table, and is answered with the stored outcome if and only if it finds exactly the same;
      otherwise it is refused as a conflict. */
  lemma VerifyingAgain(env: Env, ops: seq<Op>, id: DecisionId, observation: Option<DeliveryObservation>, now: Time)
    requires var w := Run(env, START, ops); Verifiable(w, id, observation) && OutcomeFor(w.tables.outcomes, id).Some?
    ensures var w := Run(env, START, ops); var (v, r) := Verify(w, id, observation, now);
            var stored := OutcomeFor(w.tables.outcomes, id);
            && v.tables == w.tables
            && (r.Returned? <==> stored == Some(DraftFor(w, id, observation, now)))
            && (r.Returned? ==> r.value.outcome == stored)
            && (r.Raised? ==> r.error.PersistenceConflictError?)
  {
    Authority.RunKeeps(env, START, ops);
    Reconciliation.RunKeeps(env, ops);
    VerifiedAgain(Run(env, START, ops), id, observation, now);
  }

  lemma VerifiedAgain(w: World, id: DecisionId, observation: Option<DeliveryObservation>, now: Time)
    requires Authority.Inv(w.tables) && Reconciliation.Inv(w.tables)
    requires Verifiable(w, id, observation) && OutcomeFor(w.tables.outcomes, id).Some?
    ensures var (v, r) := Verify(w, id, observation, now); var stored := OutcomeFor(w.tables.outcomes, id);
            && v.tables == w.tables
            && (r.Returned? <==> stored == Some(DraftFor(w, id, observation, now)))
            && (r.Returned? ==> r.value.outcome == stored)
            && (r.Raised? ==> r.error.PersistenceConflictError?)
  {
    var o := DraftFor(w, id, observation, now);
    DraftForIsRight(w, id, observation, now);
    VerifyPersistsDraft(w, id, observation, now);
    var n := RowIndex(w, id);
    assert Authority.RowOk(w.tables, w.tables.actions[n]);
    if OutcomeFor(w.tables.outcomes, id) == Some(o) && !o.status.ManualReviewRequired? {
      StoredOutcomeHasEvidence(w.tables, o);
    }
    LaterOutcomeIsCompared(w.tables, o, ActionFor(w.tables.actions, id).value.command.action);
  }
}
