/** simulator.py: the counterfactual options of one order, valued in twice-rounded cents. */
module Simulator {
  import opened Common
  import opened Models
  import opened Money

  const SIMULATOR_VERSION := "counterfactual-rules-v2"
  const INFEASIBLE_VALUE := -99999900

  function BuildOption(
    action: RecoveryAction, order: OrderContext, onTime: real, cost: real, feasible: bool,
    confidence: real, constraints: seq<string>): RecoveryOption
  {
    var margin := HalfUp(Expected(order.grossMargin, onTime));
    var failureCost := HalfUp(Expected(order.FailureCost(), 1.0 - onTime));
    RecoveryOption(
      action, feasible, onTime, margin, HalfUp(cost), failureCost,
      if feasible then HalfUp(margin as real - failureCost as real - cost) else INFEASIBLE_VALUE,
      true, Round4(confidence), constraints, order.sources)
  }

  predicate RerouteFeasible(order: OrderContext) {
    order.alternativeLocationAvailable && order.alternativeLocation.Some?
  }

  function MinReal(a: real, b: real): real { if a < b then a else b }

  function Simulate(order: OrderContext, risk: RiskAssessment): (options: seq<RecoveryOption>)
    ensures |options| == 4
    ensures forall i, j :: 0 <= i < j < 4 ==> options[i].action != options[j].action
    ensures options[0].action.TakeNoAction? && options[0].feasible
    ensures forall o :: o in options ==> !o.action.HumanEscalation?
  {
    var shared := MinReal(risk.confidence, order.inventoryConfidence);
    var reroute := RerouteFeasible(order);
    [
      BuildOption(TakeNoAction, order, Round4(1.0 - risk.failureProbability), 0.0, true, risk.confidence, []),
      BuildOption(Reroute, order, if reroute then order.rerouteOnTime else 0.0, order.rerouteCost, reroute,
                  shared, if reroute then [] else ["NO_VERIFIED_ALTERNATIVE_LOCATION"]),
      BuildOption(CarrierUpgrade, order, order.carrierUpgradeOnTime, order.carrierUpgradeCost, true,
                  risk.confidence, []),
      BuildOption(SplitShipment, order, if order.splitPossible then order.splitOnTime else 0.0, order.splitCost,
                  order.splitPossible, shared, if order.splitPossible then [] else ["SPLIT_SHIPMENT_NOT_FEASIBLE"])
    ]
  }

  /** Which interventions are offered as feasible: a reroute exactly with an available, named alternative, a
      split exactly when possible, the carrier upgrade always; an infeasible option says why and is worth the
      sentinel value. */
  lemma OffersAsFeasible(order: OrderContext, risk: RiskAssessment)
    ensures var options := Simulate(order, risk);
            && options[1].action.Reroute? && (options[1].feasible <==> RerouteFeasible(order))
            && options[2].action.CarrierUpgrade? && options[2].feasible
            && options[3].action.SplitShipment? && (options[3].feasible <==> order.splitPossible)
            && forall o :: o in options && !o.feasible ==> o.expectedNetValue == INFEASIBLE_VALUE && |o.constraints| == 1
  {}

  /** Two reals at most half a unit of the fourth decimal apart. */
  predicate NearFourth(a: real, b: real) { -0.00005 <= a - b <= 0.00005 }

  /** Two amounts at most half a cent apart. */
  predicate NearCent(a: int, b: real) { -0.5 <= a as real - b <= 0.5 }

  /** The terms on which each option is offered: its cost to the nearest cent, the probability of the order's own
      data, and the confidence of the scorer, lowered to that of the inventory where stock is moved. */
  lemma OfferedTerms(order: OrderContext, risk: RiskAssessment)
    ensures var o := Simulate(order, risk);
            && o[0].interventionCost == 0 && NearCent(o[1].interventionCost, order.rerouteCost)
            && NearCent(o[2].interventionCost, order.carrierUpgradeCost) && NearCent(o[3].interventionCost, order.splitCost)
    ensures var o := Simulate(order, risk);
            && NearFourth(o[0].onTime, 1.0 - risk.failureProbability)
            && o[1].onTime == (if o[1].feasible then order.rerouteOnTime else 0.0)
            && o[2].onTime == order.carrierUpgradeOnTime && o[3].onTime == (if o[3].feasible then order.splitOnTime else 0.0)
    ensures var o := Simulate(order, risk);
            var both := if order.inventoryConfidence <= risk.confidence then order.inventoryConfidence else risk.confidence;
            && NearFourth(o[0].confidence, risk.confidence) && NearFourth(o[2].confidence, risk.confidence)
            && NearFourth(o[1].confidence, both) && NearFourth(o[3].confidence, both)
    ensures forall o :: o in Simulate(order, risk) ==>
              && o.reversible && o.evidence == order.sources
              && NearCent(o.expectedMargin, Expected(order.grossMargin, o.onTime))
              && NearCent(o.expectedFailureCost, Expected(order.FailureCost(), 1.0 - o.onTime))
  {
    Round4Close(1.0 - risk.failureProbability);
    Round4Close(risk.confidence);
    Round4Close(MinReal(risk.confidence, order.inventoryConfidence));
  }
}
