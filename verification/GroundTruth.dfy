/** synthetic.py `_optimal_action` and value_evaluation.py's ground-truth value: counterfactual
    outcomes known to the generator, valued with a single rounding. */
module GroundTruth {
  import opened Common
  import opened Models
  import opened Money
  import opened Simulator
  import opened Optimizer

  datatype Truth = Truth(noAction: real, reroute: real, carrierUpgrade: real, split: real, optimalAction: RecoveryAction)

  datatype Record = Record(request: EvaluationRequest, truth: Truth)

  /** No synthetic ground truth exists for HUMAN_ESCALATION. */
  function Probability(truth: Truth, action: RecoveryAction): Option<real> {
    match action
    case TakeNoAction => Some(truth.noAction)
    case Reroute => Some(truth.reroute)
    case CarrierUpgrade => Some(truth.carrierUpgrade)
    case SplitShipment => Some(truth.split)
    case HumanEscalation => None
  }

  function ActionCost(order: OrderContext, action: RecoveryAction): real {
    match action
    case Reroute => order.rerouteCost
    case CarrierUpgrade => order.carrierUpgradeCost
    case SplitShipment => order.splitCost
    case _ => 0.0
  }

  /** Exact expected value of taking `action` when it succeeds with probability `p`. */
  function ExactValue(order: OrderContext, action: RecoveryAction, p: real): real {
    Expected(order.grossMargin, p) - Expected(order.FailureCost(), 1.0 - p) - ActionCost(order, action)
  }

  function TruthValue(record: Record, action: RecoveryAction): Option<int> {
    match Probability(record.truth, action)
    case None => None
    case Some(p) => Some(HalfUp(ExactValue(record.request.order, action, p)))
  }

  /** The generator's own feasibility test: an available alternative, its id not consulted. */
  predicate TruthFeasible(order: OrderContext, action: RecoveryAction) {
    match action
    case TakeNoAction => true
    case Reroute => order.alternativeLocationAvailable
    case CarrierUpgrade => true
    case SplitShipment => order.splitPossible
    case HumanEscalation => false
  }

  /** Position of the action's name among the names in alphabetical order. */
  function NameRank(action: RecoveryAction): nat {
    match action
    case CarrierUpgrade => 0
    case HumanEscalation => 1
    case Reroute => 2
    case SplitShipment => 3
    case TakeNoAction => 4
  }

  /** `a` maximises (value, name) over the feasible actions: what `_optimal_action` returns. */
  ghost predicate IsOptimal(record: Record, a: RecoveryAction) {
    && !a.HumanEscalation? && TruthFeasible(record.request.order, a)
    && forall b: RecoveryAction :: TruthFeasible(record.request.order, b) ==>
         || TruthValue(record, b).value < TruthValue(record, a).value
         || (TruthValue(record, b).value == TruthValue(record, a).value && NameRank(b) <= NameRank(a))
  }

  /** `_optimal_action`: value every feasible action in a table, then take the greatest. */
  method OptimalAction(record: Record) returns (best: RecoveryAction)
    ensures IsOptimal(record, best)
  {
    var actions := [TakeNoAction, Reroute, CarrierUpgrade, SplitShipment];
    var values: map<RecoveryAction, int> := map[];
    for i := 0 to 4
      invariant forall a :: a in values <==> a in actions[..i] && TruthFeasible(record.request.order, a)
      invariant forall a :: a in values ==> Some(values[a]) == TruthValue(record, a)
    {
      assert actions[..i + 1] == actions[..i] + [actions[i]];
      if TruthFeasible(record.request.order, actions[i]) {
        values := values[actions[i] := TruthValue(record, actions[i]).value];
      }
    }
    assert actions[..4] == actions;
    best := TakeNoAction;
    assert actions[0] == TakeNoAction;
    for i := 0 to 4
      invariant best in values
      invariant forall a :: a in actions[..i] && a in values ==>
        values[a] < values[best] || (values[a] == values[best] && NameRank(a) <= NameRank(best))
    {
      assert actions[..i + 1] == actions[..i] + [actions[i]];
      var a := actions[i];
      if a in values && (values[best] < values[a] || (values[best] == values[a] && NameRank(best) <= NameRank(a))) {
        best := a;
      }
    }
    forall b: RecoveryAction | TruthFeasible(record.request.order, b) ensures b in values {
      assert actions[0] == TakeNoAction && actions[1] == Reroute && actions[2] == CarrierUpgrade && actions[3] == SplitShipment;
    }
  }

  // ---------------------------------------------------------------- regret of the optimiser's choice

  function Abs(x: real): real { if x < 0.0 then -x else x }

  /** The probability the simulator works with. */
  function SimulatedProbability(order: OrderContext, risk: RiskAssessment, action: RecoveryAction): real {
    match action
    case TakeNoAction => Round4(1.0 - risk.failureProbability)
    case Reroute => order.rerouteOnTime
    case CarrierUpgrade => order.carrierUpgradeOnTime
    case SplitShipment => order.splitOnTime
    case HumanEscalation => 0.0
  }

  /** The generator gives interventions the order's own probabilities, and offers a reroute only
      with a named alternative location. */
  ghost predicate Matching(record: Record) {
    var order, truth := record.request.order, record.truth;
    && (order.alternativeLocationAvailable ==> order.alternativeLocation.Some?)
    && (order.alternativeLocationAvailable ==> truth.reroute == order.rerouteOnTime)
    && truth.carrierUpgrade == order.carrierUpgradeOnTime
    && (order.splitPossible ==> truth.split == order.splitOnTime)
  }

  ghost predicate WholeCentCosts(order: OrderContext) {
    WholeCents(order.rerouteCost) && WholeCents(order.carrierUpgradeCost) && WholeCents(order.splitCost)
  }

  /** Estimation error of the no-action probability, in expected cents. */
  ghost function EstimateError(record: Record, risk: RiskAssessment): real {
    Abs(Expected(record.request.order.grossMargin + record.request.order.FailureCost(),
                 SimulatedProbability(record.request.order, risk, TakeNoAction) - record.truth.noAction))
  }

  /** The simulated option of an action that both sides call feasible. */
  function OptionFor(order: OrderContext, risk: RiskAssessment, action: RecoveryAction): RecoveryOption
    requires !action.HumanEscalation?
  {
    Simulate(order, risk)[
      match action
      case TakeNoAction => 0
      case Reroute => 1
      case CarrierUpgrade => 2
      case SplitShipment => 3]
  }

  /** A simulated value lies within 1.5 cents of the exact one, within 1 cent for a whole-cent cost. */
  ghost predicate Close(value: int, exact: real, cost: real) {
    && Abs(value as real - exact) <= 1.5
    && (WholeCents(cost) ==> Abs(value as real - exact) <= 1.0)
  }

  lemma TwiceRounded(margin: real, failure: real, cost: real)
    ensures Close(HalfUp(HalfUp(margin) as real - HalfUp(failure) as real - cost), margin - failure - cost, cost)
  {
    if WholeCents(cost) {
      var whole := HalfUp(margin) - HalfUp(failure) - cost.Floor;
      assert HalfUp(margin) as real - HalfUp(failure) as real - cost == whole as real;
      HalfUpOfWhole(whole);
    }
  }

  lemma BuiltValueIsClose(action: RecoveryAction, order: OrderContext, p: real, confidence: real)
    ensures Close(BuildOption(action, order, p, ActionCost(order, action), true, confidence, []).expectedNetValue,
                  ExactValue(order, action, p), ActionCost(order, action))
  {
    var margin, failure := Expected(order.grossMargin, p), Expected(order.FailureCost(), 1.0 - p);
    var cost := ActionCost(order, action);
    TwiceRounded(margin, failure, cost);
    assert ExactValue(order, action, p) == margin - failure - cost;
  }

  lemma SimulatedValueIsClose(order: OrderContext, risk: RiskAssessment, action: RecoveryAction)
    requires !action.HumanEscalation?
    requires action.Reroute? ==> RerouteFeasible(order)
    requires action.SplitShipment? ==> order.splitPossible
    ensures var option := OptionFor(order, risk, action);
            && option.action == action && option.feasible
            && Close(option.expectedNetValue, ExactValue(order, action, SimulatedProbability(order, risk, action)),
                     ActionCost(order, action))
  {
    var p, cost := SimulatedProbability(order, risk, action), ActionCost(order, action);
    var option := OptionFor(order, risk, action);
    var shared := MinReal(risk.confidence, order.inventoryConfidence);
    match action {
      case TakeNoAction =>
        assert option == BuildOption(TakeNoAction, order, p, cost, true, risk.confidence, []);
        BuiltValueIsClose(action, order, p, risk.confidence);
      case Reroute =>
        assert option == BuildOption(Reroute, order, p, cost, true, shared, []);
        BuiltValueIsClose(action, order, p, shared);
      case CarrierUpgrade =>
        assert option == BuildOption(CarrierUpgrade, order, p, cost, true, risk.confidence, []);
        BuiltValueIsClose(action, order, p, risk.confidence);
      case SplitShipment =>
        assert option == BuildOption(SplitShipment, order, p, cost, true, shared, []);
        BuiltValueIsClose(action, order, p, shared);
    }
  }

  lemma ErrorShift(order: OrderContext, action: RecoveryAction, p: real, q: real)
    ensures ExactValue(order, action, p) - ExactValue(order, action, q)
         == Expected(order.grossMargin + order.FailureCost(), p - q)
  {
    var m, f := order.grossMargin, order.FailureCost();
    assert m * p - m * q == m * (p - q);
    assert f * (1.0 - p) - f * (1.0 - q) == -(f * (p - q));
    assert (m + f) * (p - q) == m * (p - q) + f * (p - q);
  }

  /** Distance, in cents, between a simulated value and the truth, when the simulator's probability
      is off by `error` expected cents. */
  ghost predicate Gap(seen: int, truth: int, error: real, wholeCents: bool) {
    var gap := Abs((seen - truth) as real);
    && gap <= error + 2.0
    && (wholeCents ==> gap <= error + 1.5)
    && (wholeCents && error == 0.0 ==> gap <= 1.0)
  }

  lemma RoundedGap(seen: int, exact: real, truth: real, error: real, cost: real)
    requires Close(seen, exact, cost) && Abs(exact - truth) <= error
    ensures Gap(seen, HalfUp(truth), error, WholeCents(cost))
  {
    var gap := seen - HalfUp(truth);
    assert gap as real == seen as real - HalfUp(truth) as real;
    if WholeCents(cost) && error == 0.0 {
      assert -2.0 < gap as real < 2.0;
      assert -1 <= gap <= 1;
    }
  }

  ghost function ErrorOf(record: Record, risk: RiskAssessment, action: RecoveryAction): real {
    if action.TakeNoAction? then EstimateError(record, risk) else 0.0
  }

  lemma ProbabilityError(record: Record, risk: RiskAssessment, action: RecoveryAction)
    requires Matching(record) && !action.HumanEscalation? && TruthFeasible(record.request.order, action)
    ensures Abs(ExactValue(record.request.order, action, SimulatedProbability(record.request.order, risk, action))
                - ExactValue(record.request.order, action, Probability(record.truth, action).value))
         <= ErrorOf(record, risk, action)
  {
    ErrorShift(record.request.order, action, SimulatedProbability(record.request.order, risk, action),
               Probability(record.truth, action).value);
  }

  lemma ValueGap(record: Record, risk: RiskAssessment, action: RecoveryAction)
    requires Matching(record) && !action.HumanEscalation? && TruthFeasible(record.request.order, action)
    ensures var option := OptionFor(record.request.order, risk, action);
            && option.action == action && option.feasible
            && Gap(option.expectedNetValue, TruthValue(record, action).value, ErrorOf(record, risk, action),
                   WholeCents(ActionCost(record.request.order, action)))
  {
    var order := record.request.order;
    var p, q := SimulatedProbability(order, risk, action), Probability(record.truth, action).value;
    SimulatedValueIsClose(order, risk, action);
    ProbabilityError(record, risk, action);
    RoundedGap(OptionFor(order, risk, action).expectedNetValue, ExactValue(order, action, p),
               ExactValue(order, action, q), ErrorOf(record, risk, action), ActionCost(order, action));
  }

  /** The choice is feasible on both sides, and it looked at least as good as the true optimum. */
  lemma ChoiceLookedBest(record: Record, risk: RiskAssessment, optimal: RecoveryAction)
    requires Matching(record) && IsOptimal(record, optimal)
    ensures Select(Simulate(record.request.order, risk)).Returned?
    ensures var order := record.request.order; var chosen := Select(Simulate(order, risk)).value.selectedAction;
            && !chosen.HumanEscalation? && TruthFeasible(order, chosen)
            && OptionFor(order, risk, optimal).expectedNetValue <= OptionFor(order, risk, chosen).expectedNetValue
  {
    ChoiceOverSimulation(record.request.order, risk);
    ValueGap(record, risk, optimal);
  }

  /** What two gaps allow to be lost when the seen values favour the choice. */
  lemma LossBetweenGaps(seenChosen: int, truthChosen: int, errorChosen: real, wholeChosen: bool,
                        seenBest: int, truthBest: int, errorBest: real, wholeBest: bool)
    requires Gap(seenChosen, truthChosen, errorChosen, wholeChosen) && Gap(seenBest, truthBest, errorBest, wholeBest)
    requires seenBest <= seenChosen && 0.0 <= errorChosen && 0.0 <= errorBest && (errorChosen == 0.0 || errorBest == 0.0)
    ensures var loss := (truthBest - truthChosen) as real;
            && loss <= errorChosen + errorBest + 4.0
            && (wholeChosen && wholeBest ==> loss <= errorChosen + errorBest + 2.5)
            && (wholeChosen && wholeBest && errorChosen + errorBest == 0.0 ==> loss <= 2.0)
  {
    assert (truthBest - truthChosen) as real
        == (truthBest - seenBest) as real + (seenBest - seenChosen) as real + (seenChosen - truthChosen) as real;
  }

  /** Regret bound. Whatever the scorer said, the choice made from twice-rounded values loses at most
      4 cents plus the estimation error against the true optimum; two and a half cents plus the error when
      costs are whole cents; 2 cents when moreover the no-action probability was estimated exactly. Regret
      is never negative, so clamping it at zero changes nothing. */
  lemma RegretBound(record: Record, risk: RiskAssessment, optimal: RecoveryAction)
    requires Matching(record) && IsOptimal(record, optimal)
    ensures Select(Simulate(record.request.order, risk)).Returned?
    ensures var chosen := Select(Simulate(record.request.order, risk)).value.selectedAction;
            && TruthValue(record, chosen).Some? && TruthValue(record, optimal).Some?
            && var regret := TruthValue(record, optimal).value - TruthValue(record, chosen).value;
            && 0 <= regret
            && regret as real <= EstimateError(record, risk) + 4.0
            && (WholeCentCosts(record.request.order) ==> regret as real <= EstimateError(record, risk) + 2.5)
            && (WholeCentCosts(record.request.order) && EstimateError(record, risk) == 0.0 ==> regret <= 2)
  {
    var order := record.request.order;
    ChoiceLookedBest(record, risk, optimal);
    var chosen := Select(Simulate(order, risk)).value.selectedAction;
    if chosen != optimal {
      ValueGap(record, risk, chosen);
      ValueGap(record, risk, optimal);
      LossBetweenGaps(
        OptionFor(order, risk, chosen).expectedNetValue, TruthValue(record, chosen).value, ErrorOf(record, risk, chosen),
        WholeCents(ActionCost(order, chosen)),
        OptionFor(order, risk, optimal).expectedNetValue, TruthValue(record, optimal).value, ErrorOf(record, risk, optimal),
        WholeCents(ActionCost(order, optimal)));
    }
  }

  lemma ExpectedMonotone(amount: real, p: real, q: real)
    requires 0.0 <= amount && p <= q
    ensures Expected(amount, p) <= Expected(amount, q)
    ensures Expected(amount, -p) == -Expected(amount, p)
  {}

  /** The simulator's rounding of the no-action probability adds at most half a unit of the fourth decimal to
      the scorer's own error. */
  lemma RoundingAddsLittle(record: Record, risk: RiskAssessment, error: real)
    requires record.request.order.Valid() && Abs(1.0 - risk.failureProbability - record.truth.noAction) <= error
    ensures EstimateError(record, risk)
         <= Expected(record.request.order.grossMargin + record.request.order.FailureCost(), error + 0.00005)
  {
    var order := record.request.order;
    var amount := order.grossMargin + order.FailureCost();
    var off := SimulatedProbability(order, risk, TakeNoAction) - record.truth.noAction;
    Round4Close(1.0 - risk.failureProbability);
    assert Abs(off) <= error + 0.00005;
    ExpectedMonotone(amount, off, error + 0.00005);
    ExpectedMonotone(amount, -(error + 0.00005), off);
    ExpectedMonotone(amount, error + 0.00005, error + 0.00005);
  }

  /** Regret by the scorer's own error: with whole-cent costs, a scorer off by at most `error` on the no-action
      probability loses at most two and a half cents plus that error, and half a unit of the fourth decimal
      for its rounding, times everything at stake. */
  lemma RegretByScorerError(record: Record, risk: RiskAssessment, optimal: RecoveryAction, error: real)
    requires Matching(record) && IsOptimal(record, optimal) && record.request.order.Valid()
    requires WholeCentCosts(record.request.order) && Abs(1.0 - risk.failureProbability - record.truth.noAction) <= error
    ensures Select(Simulate(record.request.order, risk)).Returned?
    ensures var order := record.request.order; var chosen := Select(Simulate(order, risk)).value.selectedAction;
            && TruthValue(record, chosen).Some? && TruthValue(record, optimal).Some?
            && (TruthValue(record, optimal).value - TruthValue(record, chosen).value) as real
               <= Expected(order.grossMargin + order.FailureCost(), error + 0.00005) + 2.5
  {
    RegretBound(record, risk, optimal);
    RoundingAddsLittle(record, risk, error);
  }

  /** An order on which rounding twice costs the full two cents: doing nothing looks as good as the upgrade. */
  predicate Misleading(record: Record, risk: RiskAssessment) {
    var order := record.request.order;
    && order.grossMargin == 102.0 && order.FailureCost() == 19.0
    && order.carrierUpgradeOnTime == 0.7 && order.carrierUpgradeCost == 53.0
    && order.rerouteCost == 0.0 && order.splitCost == 0.0 && !order.alternativeLocationAvailable && !order.splitPossible
    && risk.failureProbability == 0.75 && record.truth.noAction == 0.25 && record.truth.carrierUpgrade == 0.7
  }

  lemma MisleadingValues(record: Record, risk: RiskAssessment)
    requires Misleading(record, risk)
    ensures SimulatedProbability(record.request.order, risk, TakeNoAction) == 0.25
    ensures TruthValue(record, TakeNoAction) == Some(11) && TruthValue(record, CarrierUpgrade) == Some(13)
    ensures forall o :: o in Simulate(record.request.order, risk) && o.feasible ==> o.expectedNetValue == 12
    ensures Simulate(record.request.order, risk)[0].expectedNetValue == 12
  {
    var order := record.request.order;
    assert Expected(order.grossMargin, 0.25) == 25.5 && Expected(order.FailureCost(), 0.75) == 14.25;
    assert Expected(order.grossMargin, 0.7) == 71.4 && Expected(order.FailureCost(), 0.3) == 5.7;
  }

  /** The two-cent bound is attained: the choice on such an order is to do nothing, the optimum is the carrier
      upgrade, and exactly two cents are lost although every probability is exact and every cost whole. */
  lemma TwoCentsAreAttained(record: Record, risk: RiskAssessment)
    requires Misleading(record, risk)
    ensures Matching(record) && WholeCentCosts(record.request.order) && EstimateError(record, risk) == 0.0
    ensures IsOptimal(record, CarrierUpgrade)
    ensures Select(Simulate(record.request.order, risk)).Returned?
         && Select(Simulate(record.request.order, risk)).value.selectedAction.TakeNoAction?
    ensures TruthValue(record, CarrierUpgrade).value - TruthValue(record, TakeNoAction).value == 2
  {
    MisleadingValues(record, risk);
    ChoiceOverSimulation(record.request.order, risk);
  }

  // ---------------------------------------------------------------- ties

  /** The action's name. */
  function NameOf(action: RecoveryAction): string {
    match action
    case TakeNoAction => "TAKE_NO_ACTION"
    case Reroute => "REROUTE"
    case CarrierUpgrade => "CARRIER_UPGRADE"
    case SplitShipment => "SPLIT_SHIPMENT"
    case HumanEscalation => "HUMAN_ESCALATION"
  }

  /** Ties go to the alphabetically last name: the rank orders actions as their first letters do, which all differ. */
  lemma RankIsAlphabetical(a: RecoveryAction, b: RecoveryAction)
    ensures NameOf(a) != "" && NameOf(b) != ""
    ensures NameRank(a) <= NameRank(b) <==> NameOf(a)[0] <= NameOf(b)[0]
    ensures NameOf(a)[0] == NameOf(b)[0] <==> a == b
  {}
}
