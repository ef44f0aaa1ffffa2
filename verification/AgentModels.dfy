/** openai_models.py: the contracts between the local controls and the reviewing model. */
module AgentModels {
  import opened Common
  import opened Models

  datatype TokenUsage = TokenUsage(inputTokens: nat, cachedInputTokens: nat, outputTokens: nat, totalTokens: nat)

  /** Usage that passed its record's validators. */
  type Usage = u: TokenUsage | u.cachedInputTokens <= u.inputTokens && u.inputTokens + u.outputTokens <= u.totalTokens
    witness TokenUsage(0, 0, 0, 0)

  datatype NextStep = SubmitDecision | WaitForHuman | EscalateStep | NoActionStep

  datatype RationaleCode =
    | HighestExpectedValue | ReversibleAction | WithinPolicy | ApprovalRequiredCode | BoundedAutonomyAllowed
    | NoPositiveValue | DataQualityWarning | LowConfidence | HumanEscalationCode | PolicyBlocked | KillSwitchActiveCode

  datatype Review = Review(
    decisionId: DecisionId,
    selectedAction: RecoveryAction,
    disposition: PolicyDisposition,
    nextStep: NextStep,
    rationaleCodes: seq<RationaleCode>,
    evidenceIds: seq<string>,
    requiresHuman: bool,
    uncertainty: real,
    summary: string)

  datatype OptionView = OptionView(
    action: RecoveryAction, feasible: bool, onTime: real, netValue: int, cost: int, reversible: bool,
    confidence: real, constraints: seq<string>, evidenceIds: seq<string>)

  /** The entries of `validation_errors`; their wording is not modelled. */
  datatype Complaint =
    | WrongDecision | WrongAction | WrongDisposition | WrongNextStep | WrongAttention | UnsupportedEvidence | MissingRationale

  /** The values of a run's error code. */
  datatype RunErrorCode = StaleReservationCharged | RequestFailed(exception: string) | OutputRejected

  /** The JSON context sent to the model, whose digest keys the run. */
  datatype AgentContext = AgentContext(
    decisionId: DecisionId,
    orderId: string,
    mode: OperatingMode,
    expectedNext: NextStep,
    humanRequired: bool,
    requiredCode: RationaleCode,
    failureProbability: real,
    riskConfidence: real,
    warnings: seq<string>,
    factorCodes: seq<string>,
    selectedAction: RecoveryAction,
    confidence: real,
    options: seq<OptionView>,
    policy: PolicyEvaluation,
    allowedEvidence: set<string>)
}
