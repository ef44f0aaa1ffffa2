/** openai_agent.py `_context` and `_validate`: what the reviewing model is shown, and which reviews the
    local controls accept. */
module AgentReview {
  import opened Common
  import opened Models
  import opened AgentModels

  function ExpectedNext(d: PolicyDisposition): NextStep {
    match d
    case AutoExecute => SubmitDecision
    case RequestApproval => SubmitDecision
    case Escalate => EscalateStep
    case Block => NoActionStep
    case NoIntervention => NoActionStep
  }

  predicate HumanRequired(d: PolicyDisposition) {
    d.RequestApproval? || d.Escalate? || d.Block?
  }

  function RequiredCode(d: PolicyDisposition): RationaleCode {
    match d
    case AutoExecute => BoundedAutonomyAllowed
    case RequestApproval => ApprovalRequiredCode
    case Escalate => HumanEscalationCode
    case Block => PolicyBlocked
    case NoIntervention => NoPositiveValue
  }

  function EvidenceIdOf(reference: SourceReference): string {
    reference.system + ":" + reference.recordId + ":" + reference.observedAt
  }

  function EvidenceIds(references: seq<SourceReference>): (ids: seq<string>)
    ensures |ids| == |references|
  {
    if references == [] then []
    else EvidenceIds(references[..|references| - 1]) + [EvidenceIdOf(references[|references| - 1])]
  }

  function ViewOf(o: RecoveryOption): OptionView {
    OptionView(o.action, o.feasible, o.onTime, o.expectedNetValue, o.interventionCost, o.reversible, o.confidence,
               o.constraints, EvidenceIds(o.evidence))
  }

  function ViewsOf(options: seq<RecoveryOption>): seq<OptionView> {
    if options == [] then [] else ViewsOf(options[..|options| - 1]) + [ViewOf(options[|options| - 1])]
  }

  /** An evidence id the decision itself refers to. */
  predicate Cited(d: DecisionTrace, id: string) {
    || (exists r :: r in d.risk.evidence && EvidenceIdOf(r) == id)
    || (exists o, r :: o in d.recommendation.ranked && r in o.evidence && EvidenceIdOf(r) == id)
  }

  function AllEvidence(options: seq<RecoveryOption>): seq<SourceReference> {
    if options == [] then [] else AllEvidence(options[..|options| - 1]) + options[|options| - 1].evidence
  }

  function AllowedEvidence(d: DecisionTrace): set<string> {
    set id | id in EvidenceIds(d.risk.evidence + AllEvidence(d.recommendation.ranked))
  }

  function ContextOf(d: DecisionTrace): AgentContext {
    var disposition := d.policy.disposition;
    AgentContext(
      d.decisionId, d.orderId, d.mode, ExpectedNext(disposition), HumanRequired(disposition), RequiredCode(disposition),
      d.risk.failureProbability, d.risk.confidence, d.risk.warnings, d.risk.factorCodes,
      d.recommendation.selectedAction, d.recommendation.confidence, ViewsOf(d.recommendation.ranked), d.policy,
      AllowedEvidence(d))
  }

  /** The reviews that may stand beside decision `d`: every authority field is copied, the disposition's
      rationale is given, and nothing is cited that the decision does not cite. */
  predicate Accepts(d: DecisionTrace, review: Review) {
    && review.decisionId == d.decisionId
    && review.selectedAction == d.recommendation.selectedAction
    && review.disposition == d.policy.disposition
    && review.nextStep == ExpectedNext(d.policy.disposition)
    && (review.requiresHuman <==> HumanRequired(d.policy.disposition))
    && (forall id :: id in review.evidenceIds ==> Cited(d, id))
    && RequiredCode(d.policy.disposition) in review.rationaleCodes
  }

  lemma {:induction false} EvidenceIdsContents(references: seq<SourceReference>, id: string)
    ensures id in EvidenceIds(references) <==> exists r :: r in references && EvidenceIdOf(r) == id
  {
    if references == [] {
    } else {
      var n := |references| - 1;
      EvidenceIdsContents(references[..n], id);
      assert references == references[..n] + [references[n]];
    }
  }

  lemma {:induction false} AllEvidenceContents(options: seq<RecoveryOption>, r: SourceReference)
    ensures r in AllEvidence(options) <==> exists o :: o in options && r in o.evidence
  {
    if options == [] {
    } else {
      var n := |options| - 1;
      AllEvidenceContents(options[..n], r);
      assert options == options[..n] + [options[n]];
    }
  }

  /** The allow-list is exactly what the decision cites. */
  lemma AllowedIsCited(d: DecisionTrace, id: string)
    ensures id in AllowedEvidence(d) <==> Cited(d, id)
  {
    var all := AllEvidence(d.recommendation.ranked);
    EvidenceIdsContents(d.risk.evidence + all, id);
    if id in AllowedEvidence(d) {
      var r :| r in d.risk.evidence + all && EvidenceIdOf(r) == id;
      AllEvidenceContents(d.recommendation.ranked, r);
    } else {
      forall o, r | o in d.recommendation.ranked && r in o.evidence ensures EvidenceIdOf(r) != id {
        AllEvidenceContents(d.recommendation.ranked, r);
        assert r in d.risk.evidence + all;
      }
    }
  }

  /** `add_evidence` over a list of references. */
  method AddEvidence(allowed: set<string>, references: seq<SourceReference>) returns (ids: seq<string>, grown: set<string>)
    ensures ids == EvidenceIds(references)
    ensures grown == allowed + set id | id in EvidenceIds(references)
  {
    ids, grown := [], allowed;
    for i := 0 to |references|
      invariant ids == EvidenceIds(references[..i])
      invariant grown == allowed + set id | id in EvidenceIds(references[..i])
    {
      PrefixSnoc(references, i);
      assert references[..i + 1][..i] == references[..i];
      ids := ids + [EvidenceIdOf(references[i])];
      grown := grown + {EvidenceIdOf(references[i])};
    }
    WholePrefix(references);
  }

  lemma {:induction false} EvidenceIdsAppend(a: seq<SourceReference>, b: seq<SourceReference>)
    ensures EvidenceIds(a + b) == EvidenceIds(a) + EvidenceIds(b)
  {
    if b == [] {
      assert a + b == a;
    } else {
      var n := |b| - 1;
      assert (a + b)[..|a| + n] == a + b[..n];
      EvidenceIdsAppend(a, b[..n]);
    }
  }

  method BuildContext(d: DecisionTrace) returns (context: AgentContext)
    ensures context == ContextOf(d)
  {
    var ids, allowed := AddEvidence({}, d.risk.evidence);
    var options: seq<OptionView> := [];
    var ranked := d.recommendation.ranked;
    assert d.risk.evidence + AllEvidence(ranked[..0]) == d.risk.evidence;
    for i := 0 to |ranked|
      invariant options == ViewsOf(ranked[..i])
      invariant allowed == set id | id in EvidenceIds(d.risk.evidence + AllEvidence(ranked[..i]))
    {
      PrefixSnoc(ranked, i);
      assert ranked[..i + 1][..i] == ranked[..i];
      var o := ranked[i];
      ghost var before := d.risk.evidence + AllEvidence(ranked[..i]);
      ids, allowed := AddEvidence(allowed, o.evidence);
      EvidenceIdsAppend(before, o.evidence);
      Associative(d.risk.evidence, AllEvidence(ranked[..i]), o.evidence);
      options := options + [OptionView(o.action, o.feasible, o.onTime, o.expectedNetValue, o.interventionCost, o.reversible,
                                       o.confidence, o.constraints, ids)];
    }
    WholePrefix(ranked);
    var disposition := d.policy.disposition;
    context := AgentContext(
      d.decisionId, d.orderId, d.mode, ExpectedNext(disposition), HumanRequired(disposition), RequiredCode(disposition),
      d.risk.failureProbability, d.risk.confidence, d.risk.warnings, d.risk.factorCodes,
      d.recommendation.selectedAction, d.recommendation.confidence, options, d.policy, allowed);
  }

  function Noted(errors: seq<Complaint>, holds: bool, complaint: Complaint): seq<Complaint> {
    if holds then errors else errors + [complaint]
  }

  predicate Supported(ids: seq<string>, allowed: set<string>) { forall id :: id in ids ==> id in allowed }

  function Validate(review: Review, d: DecisionTrace, context: AgentContext): seq<Complaint> {
    var e := Noted([], review.decisionId == d.decisionId, WrongDecision);
    var e := Noted(e, review.selectedAction == d.recommendation.selectedAction, WrongAction);
    var e := Noted(e, review.disposition == d.policy.disposition, WrongDisposition);
    var e := Noted(e, review.nextStep == ExpectedNext(d.policy.disposition), WrongNextStep);
    var e := Noted(e, review.requiresHuman == HumanRequired(d.policy.disposition), WrongAttention);
    var e := Noted(e, Supported(review.evidenceIds, context.allowedEvidence), UnsupportedEvidence);
    Noted(e, RequiredCode(d.policy.disposition) in review.rationaleCodes, MissingRationale)
  }

  /** Validation against the decision's own context raises no complaint exactly for the accepted reviews. */
  lemma ValidateExactly(review: Review, d: DecisionTrace)
    ensures Validate(review, d, ContextOf(d)) == [] <==> Accepts(d, review)
  {
    forall id | id in review.evidenceIds ensures id in AllowedEvidence(d) <==> Cited(d, id) {
      AllowedIsCited(d, id);
    }
  }

  /** What an accepted review tells its reader, disposition by disposition: who must look, what comes next, and the
      reason given. */
  lemma AcceptedReviewSays(d: DecisionTrace, review: Review)
    requires Accepts(d, review)
    ensures review.disposition.AutoExecute? ==>
              !review.requiresHuman && review.nextStep.SubmitDecision? && BoundedAutonomyAllowed in review.rationaleCodes
    ensures review.disposition.RequestApproval? ==>
              review.requiresHuman && review.nextStep.SubmitDecision? && ApprovalRequiredCode in review.rationaleCodes
    ensures review.disposition.Escalate? ==>
              review.requiresHuman && review.nextStep.EscalateStep? && HumanEscalationCode in review.rationaleCodes
    ensures review.disposition.Block? ==>
              review.requiresHuman && review.nextStep.NoActionStep? && PolicyBlocked in review.rationaleCodes
    ensures review.disposition.NoIntervention? ==>
              !review.requiresHuman && review.nextStep.NoActionStep? && NoPositiveValue in review.rationaleCodes
  {}

  /** A review written from the context alone: every authority field is copied from it, the code it asks for is among the
      reasons, and only what it allows is cited. */
  predicate FollowsContext(c: AgentContext, review: Review) {
    && review.decisionId == c.decisionId && review.selectedAction == c.selectedAction
    && review.disposition == c.policy.disposition && review.nextStep == c.expectedNext
    && review.requiresHuman == c.humanRequired && c.requiredCode in review.rationaleCodes
    && forall i :: 0 <= i < |review.evidenceIds| ==> review.evidenceIds[i] in c.allowedEvidence
  }

  /** The context suffices: a review is accepted if and only if it follows what the model was shown. */
  lemma ContextSuffices(d: DecisionTrace, review: Review)
    ensures Accepts(d, review) <==> FollowsContext(ContextOf(d), review)
  {
    forall id ensures id in AllowedEvidence(d) <==> Cited(d, id) {
      AllowedIsCited(d, id);
    }
    assert forall id :: id in review.evidenceIds <==> exists i :: 0 <= i < |review.evidenceIds| && review.evidenceIds[i] == id;
  }
}
