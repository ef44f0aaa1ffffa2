/** policy.py: the deterministic gateway cascade. */
module Policy {
  import opened Common
  import opened Models

  const POLICY_VERSION := "policy-v3"
  const MAX_CONTEXT_AGE := 15
  const MAX_AUTONOMOUS_COST := 1000
  const MIN_AUTONOMOUS_BENEFIT := 500
  const MIN_AUTONOMOUS_CONFIDENCE := 0.85

  /** What the gateway's read-only callbacks answer for the selected action. */
  datatype Controls = Controls(version: ControlVersion, killSwitchActive: bool, permitted: Reply<bool>)

  function Result(d: PolicyDisposition, version: ControlVersion, allowed: bool, reasons: seq<string>): Reply<PolicyEvaluation> {
    Returned(PolicyEvaluation(d, POLICY_VERSION, version, allowed, reasons))
  }

  function ModeName(mode: OperatingMode): string {
    match mode
    case Observe => "OBSERVE"
    case Shadow => "SHADOW"
    case Recommend => "RECOMMENDATION"
    case ApprovalMode => "APPROVAL"
    case Bounded => "BOUNDED_AUTONOMY"
  }

  /** The four conditions under which an intervention may run unattended. */
  predicate WithinAutonomy(r: Recommendation, selected: RecoveryOption) {
    && selected.interventionCost <= MAX_AUTONOMOUS_COST
    && MIN_AUTONOMOUS_BENEFIT <= r.incrementalValue
    && MIN_AUTONOMOUS_CONFIDENCE <= selected.confidence
    && selected.reversible
  }

  function EvaluatePolicy(order: OrderContext, risk: RiskAssessment, r: Recommendation, mode: OperatingMode, controls: Controls)
    : Reply<PolicyEvaluation>
  {
    var version := controls.version;
    if MAX_CONTEXT_AGE < order.freshnessMinutes then Result(Block, version, false, ["STALE_OPERATIONAL_CONTEXT"])
    else if risk.warnings != [] then Result(Block, version, false, risk.warnings)
    else if r.selectedAction.TakeNoAction? then
      Result(NoIntervention, version, false, ["NO_INTERVENTION_HAS_POSITIVE_INCREMENTAL_VALUE"])
    else if order.restricted then Result(RequestApproval, version, false, ["RESTRICTED_PRODUCT_REQUIRES_HUMAN_APPROVAL"])
    else if !mode.Bounded? then
      Result(RequestApproval, version, false, ["MODE_" + ModeName(mode) + "_PREVENTS_AUTONOMOUS_EXECUTION"])
    else if controls.killSwitchActive then Result(Block, version, false, ["GLOBAL_ACTION_KILL_SWITCH_ACTIVE"])
    else
      match controls.permitted
      case Raised(e) => Raised(e)
      case Returned(permitted) =>
        if !permitted then Result(RequestApproval, version, false, ["ACTION_AUTONOMY_NOT_EARNED"])
        else
          match FirstWithAction(r.ranked, r.selectedAction)
          case None => Raised(StopIteration)
          case Some(selected) =>
            if WithinAutonomy(r, selected) then Result(AutoExecute, version, true, ["BOUNDED_AUTONOMY_CONDITIONS_SATISFIED"])
            else Result(RequestApproval, version, false, ["BOUNDED_AUTONOMY_CONDITIONS_NOT_SATISFIED"])
  }

  /** Unattended execution is granted exactly when every gate agrees; execution is marked as allowed in
      no other case; and the gateway itself never escalates. */
  lemma AutoExecuteExactly(order: OrderContext, risk: RiskAssessment, r: Recommendation, mode: OperatingMode, controls: Controls)
    requires FirstWithAction(r.ranked, r.selectedAction).Some? && controls.permitted.Returned?
    ensures EvaluatePolicy(order, risk, r, mode, controls).Returned?
    ensures var p := EvaluatePolicy(order, risk, r, mode, controls).value;
            && !p.disposition.Escalate?
            && (p.executionAllowed <==> p.disposition.AutoExecute?)
            && (p.disposition.AutoExecute? <==>
                  && order.freshnessMinutes <= MAX_CONTEXT_AGE && risk.warnings == [] && !order.restricted && mode.Bounded?
                  && !r.selectedAction.TakeNoAction? && !controls.killSwitchActive && controls.permitted.value
                  && WithinAutonomy(r, FirstWithAction(r.ranked, r.selectedAction).value))
  {}

  /** The context is at most 15 minutes old and carries no data-quality warning. */
  predicate Sound(order: OrderContext, risk: RiskAssessment) { order.freshnessMinutes <= 15 && risk.warnings == [] }

  /** An intervention that may run unattended: it costs at most 10.00, gains at least 5.00, is chosen with a confidence
      of at least 0.85, and can be reversed. */
  predicate Modest(r: Recommendation, selected: RecoveryOption) {
    selected.interventionCost <= 1000 && 500 <= r.incrementalValue && 0.85 <= selected.confidence && selected.reversible
  }

  /** The four reasons for asking a human: a restricted product, a mode below bounded autonomy, autonomy not earned,
      or an intervention that is not modest, the last two only while the kill switch is off. */
  predicate NeedsHuman(order: OrderContext, r: Recommendation, mode: OperatingMode, killSwitch: bool, permitted: bool, selected: RecoveryOption) {
    order.restricted || !mode.Bounded? || (!killSwitch && (!permitted || !Modest(r, selected)))
  }

  /** Every disposition, exactly. */
  predicate RightDisposition(p: PolicyEvaluation, order: OrderContext, risk: RiskAssessment, r: Recommendation, mode: OperatingMode,
                             killSwitch: bool, permitted: bool, selected: RecoveryOption)
  {
    var intervention := !r.selectedAction.TakeNoAction?;
    && (p.disposition.Block? <==>
          !Sound(order, risk) || (intervention && !order.restricted && mode.Bounded? && killSwitch))
    && (p.disposition.NoIntervention? <==> Sound(order, risk) && !intervention)
    && (p.disposition.RequestApproval? <==>
          Sound(order, risk) && intervention && NeedsHuman(order, r, mode, killSwitch, permitted, selected))
    && (p.disposition.AutoExecute? <==>
          Sound(order, risk) && intervention && !order.restricted && mode.Bounded? && !killSwitch && permitted && Modest(r, selected))
    && (p.executionAllowed <==> p.disposition.AutoExecute?)
    && p.policyVersion == "policy-v3" && p.reasons != []
  }

  /** The cascade answers exactly so, for every order, risk, recommendation, mode and state of the controls. */
  lemma DispositionExactly(order: OrderContext, risk: RiskAssessment, r: Recommendation, mode: OperatingMode, controls: Controls)
    requires FirstWithAction(r.ranked, r.selectedAction).Some? && (controls.permitted.Returned? || r.selectedAction.TakeNoAction?)
    ensures EvaluatePolicy(order, risk, r, mode, controls).Returned?
    ensures var p := EvaluatePolicy(order, risk, r, mode, controls).value;
            && p.controlVersion == controls.version
            && RightDisposition(p, order, risk, r, mode, controls.killSwitchActive,
                                controls.permitted.Returned? && controls.permitted.value,
                                FirstWithAction(r.ranked, r.selectedAction).value)
  {}
}
