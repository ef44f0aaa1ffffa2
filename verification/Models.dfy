/** The typed records of models.py that decisions, approvals, actions and outcomes are made of.
    Money is in cents: `real` where an order may carry any decimal, `int` once rounded.
    Digests of a tuple are represented by the tuple itself. */
module Models {
  import opened Common

  type Time = int

  datatype OperatingMode = Observe | Shadow | Recommend | ApprovalMode | Bounded

  datatype RecoveryAction = TakeNoAction | Reroute | CarrierUpgrade | SplitShipment | HumanEscalation

  predicate Executable(action: RecoveryAction) {
    action.Reroute? || action.CarrierUpgrade? || action.SplitShipment?
  }

  datatype PolicyDisposition = AutoExecute | RequestApproval | Escalate | Block | NoIntervention

  datatype DecisionStatus = Observed | ShadowRecorded | Recommended | AwaitingApproval | ReadyForExecution

  datatype UserRole = OperationsAnalyst | OperationsManager | Auditor | ServiceIdentity

  datatype SourceReference = SourceReference(system: string, recordId: string, observedAt: string)

  datatype OperationalEvent = OperationalEvent(
    sourceSystem: string,
    eventId: string,
    eventVersion: nat,
    deduplicationKey: string)

  datatype OrderContext = OrderContext(
    orderId: string,
    tenantId: string,
    evaluationTime: Time,
    grossMargin: real,
    cancellationCost: real,
    supportCost: real,
    inventoryConfidence: real,
    alternativeLocationAvailable: bool,
    rerouteOnTime: real,
    carrierUpgradeOnTime: real,
    splitOnTime: real,
    rerouteCost: real,
    carrierUpgradeCost: real,
    splitCost: real,
    freshnessMinutes: nat,
    sources: seq<SourceReference>,
    sku: string,
    quantity: nat,
    currentLocation: string,
    alternativeLocation: Option<string>,
    currentService: string,
    upgradedService: string,
    splitPossible: bool,
    restricted: bool)
  {
    function FailureCost(): real { cancellationCost + supportCost }

    /** What the record's validators guarantee and the model relies on. */
    predicate Valid() {
      && 0.0 <= grossMargin && 0.0 <= cancellationCost && 0.0 <= supportCost
      && 0.0 <= rerouteCost && 0.0 <= carrierUpgradeCost && 0.0 <= splitCost
      && 0.0 <= rerouteOnTime <= 1.0 && 0.0 <= carrierUpgradeOnTime <= 1.0 && 0.0 <= splitOnTime <= 1.0
      && alternativeLocation != Some(currentLocation)
    }
  }

  datatype EvaluationRequest = EvaluationRequest(event: OperationalEvent, order: OrderContext, mode: OperatingMode)

  datatype RiskAssessment = RiskAssessment(
    failureProbability: real,
    confidence: real,
    modelVersion: string,
    factorCodes: seq<string>,
    warnings: seq<string>,
    evidence: seq<SourceReference>)

  datatype RecoveryOption = RecoveryOption(
    action: RecoveryAction,
    feasible: bool,
    onTime: real,
    expectedMargin: int,
    interventionCost: int,
    expectedFailureCost: int,
    expectedNetValue: int,
    reversible: bool,
    confidence: real,
    constraints: seq<string>,
    evidence: seq<SourceReference>)

  datatype Recommendation = Recommendation(
    selectedAction: RecoveryAction,
    ranked: seq<RecoveryOption>,
    incrementalValue: int,
    rejected: seq<(RecoveryAction, seq<string>)>,
    confidence: real)

  /** `kill-switch:<version>` followed, for an executable action, by `|<action>:<profile version>`. */
  datatype ControlVersion = ControlVersion(killSwitch: nat, profile: Option<(RecoveryAction, nat)>)

  datatype PolicyEvaluation = PolicyEvaluation(
    disposition: PolicyDisposition,
    policyVersion: string,
    controlVersion: ControlVersion,
    executionAllowed: bool,
    reasons: seq<string>)

  datatype DecisionId = DecisionId(
    deduplicationKey: string,
    eventVersion: nat,
    orderId: string,
    modelVersion: string,
    simulatorVersion: string,
    optimiserVersion: string,
    policyVersion: string,
    controlVersion: ControlVersion,
    disposition: PolicyDisposition,
    executionAllowed: bool,
    reasons: seq<string>,
    mode: OperatingMode)

  datatype DecisionTrace = DecisionTrace(
    decisionId: DecisionId,
    eventId: string,
    orderId: string,
    mode: OperatingMode,
    risk: RiskAssessment,
    recommendation: Recommendation,
    policy: PolicyEvaluation,
    status: DecisionStatus,
    createdAt: Time,
    tenantId: string)

  /** `next(option for option in ranked if option.action is action)`; None is StopIteration. */
  function FirstWithAction(options: seq<RecoveryOption>, action: RecoveryAction): (o: Option<RecoveryOption>)
    ensures o.Some? <==> exists i :: 0 <= i < |options| && options[i].action == action
    ensures o.Some? ==> o.value in options && o.value.action == action
  {
    if options == [] then None
    else if options[0].action == action then Some(options[0])
    else FirstWithAction(options[1..], action)
  }

  function SelectedOption(decision: DecisionTrace): Option<RecoveryOption> {
    FirstWithAction(decision.recommendation.ranked, decision.recommendation.selectedAction)
  }

  // ---------------------------------------------------------------- governed execution records

  datatype IdempotencyKey = IdempotencyKey(decisionId: DecisionId, action: RecoveryAction, policyVersion: string)

  datatype Parameters =
    | RerouteParameters(fromLocation: string, toLocation: Option<string>, sku: string, quantity: nat)
    | CarrierParameters(fromService: string, toService: string)
    | SplitParameters(quantity: nat)

  datatype ActionCommand = ActionCommand(
    decisionId: DecisionId,
    orderId: string,
    action: RecoveryAction,
    idempotencyKey: IdempotencyKey,
    requestedBy: string,
    approvedBy: Option<string>,
    expectedCost: int,
    parameters: Parameters)

  datatype ActionStatus = Pending | Executing | Succeeded | VerifiedAction | Compensated | Failed | ManualRecoveryRequired

  datatype Reference =
    | ReservationRef(orderId: string, location: string)
    | LocationRef(orderId: string, location: string)
    | ServiceRef(orderId: string, service: string)
    | SplitRef(orderId: string)
    | VerifiedAfterTimeout(orderId: string)
    | RestoredLocation(orderId: string, location: string)
    | RestoredService(orderId: string, service: string)
    | CancelledSplit(orderId: string)

  datatype StepOutcome = StepSucceeded | StepCompensated

  datatype StepResult = StepResult(sequence: nat, name: string, outcome: StepOutcome, reference: Reference, error: Option<Error>)

  /** `act_` followed by a digest of the idempotency key. */
  datatype ActionId = ActionId(key: IdempotencyKey)

  datatype ActionExecution = ActionExecution(
    actionId: ActionId,
    command: ActionCommand,
    status: ActionStatus,
    steps: seq<StepResult>,
    startedAt: Time,
    completedAt: Option<Time>,
    error: Option<Error>)

  datatype ApprovalId = ApprovalId(decisionId: DecisionId, action: RecoveryAction, policyVersion: string)

  datatype ApprovalStatus = PendingApproval | Approved | RejectedApproval | Expired

  datatype ApprovalRecord = ApprovalRecord(
    approvalId: ApprovalId,
    decisionId: DecisionId,
    requestedAction: RecoveryAction,
    status: ApprovalStatus,
    requestedBy: string,
    requestedAt: Time,
    expiresAt: Time,
    decidedBy: Option<string>,
    decidedByRole: Option<UserRole>,
    reason: Option<string>,
    decidedAt: Option<Time>)

  datatype ApprovalInput = ApprovalInput(actorId: string, role: UserRole, reason: string)

  datatype DeliveryObservation = DeliveryObservation(orderId: string, onTime: bool, source: SourceReference)

  datatype VerificationStatus = Verified | VerificationFailed | ManualReviewRequired

  /** `out_` followed by a digest of the decision id. */
  datatype OutcomeId = OutcomeId(decisionId: DecisionId)

  datatype OutcomeVerification = OutcomeVerification(
    outcomeId: OutcomeId,
    decisionId: DecisionId,
    actionId: ActionId,
    status: VerificationStatus,
    verifiedAt: Time,
    delivered: Option<bool>,
    actualCost: int,
    realisedMargin: int,
    estimatedIncremental: int,
    evidence: seq<SourceReference>,
    postconditionHeld: bool,
    expectedOnTime: real,
    executionStatus: ActionStatus)

  datatype AutonomyLevel = ObserveOnly | RecommendOnly | ApprovalRequired | BoundedAutonomy | Suspended

  datatype KillSwitch = KillSwitch(active: bool, reason: string, updatedBy: string, version: nat)

  datatype Profile = Profile(
    level: AutonomyLevel,
    verifiedSuccesses: nat,
    streak: nat,
    compensations: nat,
    failures: nat,
    reason: string,
    updatedBy: string,
    version: nat)

  datatype EvidenceId = ExecutionEvidence(actionId: ActionId) | OutcomeEvidence(outcomeId: OutcomeId)

  datatype EvidenceRow = EvidenceRow(evidenceId: EvidenceId, action: RecoveryAction, successful: bool, compensated: bool)
}
