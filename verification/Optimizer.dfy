/** optimizer.py: rank the feasible options by value, ties by a fixed action priority. */
module Optimizer {
  import opened Common
  import opened Models
  import opened Simulator

  const OPTIMISER_VERSION := "constrained-score-v2"

  function TieBreakPriority(action: RecoveryAction): nat {
    match action
    case TakeNoAction => 0
    case Reroute => 1
    case CarrierUpgrade => 2
    case SplitShipment => 3
    case HumanEscalation => 4
  }

  /** The sort key of `a` is strictly greater than the sort key of `b`. */
  predicate Outranks(a: RecoveryOption, b: RecoveryOption) {
    || b.expectedNetValue < a.expectedNetValue
    || (a.expectedNetValue == b.expectedNetValue && TieBreakPriority(a.action) < TieBreakPriority(b.action))
  }

  function Feasible(options: seq<RecoveryOption>): seq<RecoveryOption> {
    if options == [] then []
    else (if options[0].feasible then [options[0]] else []) + Feasible(options[1..])
  }

  function Infeasible(options: seq<RecoveryOption>): seq<(RecoveryAction, seq<string>)> {
    if options == [] then []
    else (if options[0].feasible then [] else [(options[0].action, options[0].constraints)]) + Infeasible(options[1..])
  }

  /** `sorted(..., reverse=True)` keeps the original order of equal keys. */
  function InsertRanked(o: RecoveryOption, ranked: seq<RecoveryOption>): seq<RecoveryOption> {
    if ranked == [] || !Outranks(ranked[0], o) then [o] + ranked
    else [ranked[0]] + InsertRanked(o, ranked[1..])
  }

  function Rank(options: seq<RecoveryOption>): seq<RecoveryOption> {
    if options == [] then [] else InsertRanked(options[0], Rank(options[1..]))
  }

  function Select(options: seq<RecoveryOption>): Reply<Recommendation> {
    var ranked := Rank(Feasible(options));
    if ranked == [] then Raised(ValueError)
    else match FirstWithAction(options, TakeNoAction)
      case None => Raised(StopIteration)
      case Some(noAction) =>
        Returned(Recommendation(
                   ranked[0].action, ranked, ranked[0].expectedNetValue - noAction.expectedNetValue,
                   Infeasible(options), ranked[0].confidence))
  }

  /** Best first: no later option outranks an earlier one. */
  ghost predicate Descending(s: seq<RecoveryOption>) {
    s == [] || ((forall o :: o in s[1..] ==> !Outranks(o, s[0])) && Descending(s[1..]))
  }

  ghost predicate OneOfferPerAction(s: seq<RecoveryOption>) {
    forall a, b :: a in s && b in s && a.action == b.action ==> a == b
  }

  // ---------------------------------------------------------------- ranking is a sorted permutation

  lemma {:induction false} InsertRankedContents(o: RecoveryOption, ranked: seq<RecoveryOption>)
    ensures multiset(InsertRanked(o, ranked)) == multiset(ranked) + multiset{o}
  {
    if ranked == [] || !Outranks(ranked[0], o) {
    } else {
      InsertRankedContents(o, ranked[1..]);
      assert ranked == [ranked[0]] + ranked[1..];
    }
  }

  lemma {:induction false} InsertRankedSorts(o: RecoveryOption, ranked: seq<RecoveryOption>)
    requires Descending(ranked)
    ensures Descending(InsertRanked(o, ranked))
  {
    if ranked == [] || !Outranks(ranked[0], o) {
      assert ([o] + ranked)[1..] == ranked;
      assert ranked != [] ==> ranked == [ranked[0]] + ranked[1..];
    } else {
      var rest := InsertRanked(o, ranked[1..]);
      InsertRankedSorts(o, ranked[1..]);
      InsertRankedContents(o, ranked[1..]);
      forall x | x in rest ensures !Outranks(x, ranked[0]) {
        assert x in multiset(rest);
      }
      assert ([ranked[0]] + rest)[1..] == rest;
    }
  }

  lemma {:induction false} RankSorts(options: seq<RecoveryOption>)
    ensures Descending(Rank(options))
    ensures multiset(Rank(options)) == multiset(options)
  {
    if options == [] {
    } else {
      RankSorts(options[1..]);
      InsertRankedSorts(options[0], Rank(options[1..]));
      InsertRankedContents(options[0], Rank(options[1..]));
      assert options == [options[0]] + options[1..];
    }
  }

  lemma {:induction false} FeasibleContents(options: seq<RecoveryOption>, o: RecoveryOption)
    ensures multiset(Feasible(options))[o] == if o.feasible then multiset(options)[o] else 0
  {
    if options == [] {
    } else {
      FeasibleContents(options[1..], o);
      assert options == [options[0]] + options[1..];
    }
  }

  /** The ranking holds exactly the feasible options, each as often as offered, best first. */
  lemma RankingIsSortedPermutation(options: seq<RecoveryOption>)
    ensures Descending(Rank(Feasible(options)))
    ensures forall o :: multiset(Rank(Feasible(options)))[o] == if o.feasible then multiset(options)[o] else 0
  {
    RankSorts(Feasible(options));
    forall o ensures multiset(Rank(Feasible(options)))[o] == if o.feasible then multiset(options)[o] else 0 {
      FeasibleContents(options, o);
    }
  }

  // ---------------------------------------------------------------- input order does not matter

  lemma SameBest(s: seq<RecoveryOption>, t: seq<RecoveryOption>)
    requires s != [] && t != []
    requires Descending(s) && Descending(t) && OneOfferPerAction(s)
    requires s[0] in t && t[0] in s
    ensures s[0] == t[0]
  {
    assert s == [s[0]] + s[1..] && t == [t[0]] + t[1..];
  }

  lemma SameTails(s: seq<RecoveryOption>, t: seq<RecoveryOption>)
    requires s != [] && t != [] && multiset(s) == multiset(t) && s[0] == t[0]
    ensures multiset(s[1..]) == multiset(t[1..])
  {
    assert s == [s[0]] + s[1..] && t == [t[0]] + t[1..];
    assert multiset(s[1..]) == multiset(s) - multiset{s[0]};
    assert multiset(t[1..]) == multiset(t) - multiset{s[0]};
  }

  lemma {:induction false} SortedPermutationIsUnique(s: seq<RecoveryOption>, t: seq<RecoveryOption>)
    requires Descending(s) && Descending(t) && multiset(s) == multiset(t)
    requires OneOfferPerAction(s)
    ensures s == t
  {
    if s == [] || t == [] {
      assert |multiset(s)| == |s| && |multiset(t)| == |t|;
    } else {
      assert s[0] in multiset(t) && t[0] in multiset(s);
      SameBest(s, t);
      assert s == [s[0]] + s[1..] && t == [t[0]] + t[1..];
      SameTails(s, t);
      SortedPermutationIsUnique(s[1..], t[1..]);
    }
  }

  lemma FeasiblePermutation(s: seq<RecoveryOption>, t: seq<RecoveryOption>)
    requires multiset(s) == multiset(t)
    ensures multiset(Feasible(s)) == multiset(Feasible(t))
  {
    forall o ensures multiset(Feasible(s))[o] == multiset(Feasible(t))[o] {
      FeasibleContents(s, o);
      FeasibleContents(t, o);
    }
  }

  lemma RankedAreOffers(s: seq<RecoveryOption>, o: RecoveryOption)
    requires o in Rank(Feasible(s))
    ensures o in s
  {
    RankingIsSortedPermutation(s);
    assert 0 < multiset(Rank(Feasible(s)))[o];
    assert 0 < multiset(s)[o];
  }

  /** Any two orders of the same offers, one per action, are ranked the same way. */
  lemma RankingIgnoresInputOrder(s: seq<RecoveryOption>, t: seq<RecoveryOption>)
    requires OneOfferPerAction(s) && multiset(s) == multiset(t)
    ensures Rank(Feasible(s)) == Rank(Feasible(t))
  {
    RankSorts(Feasible(s));
    RankSorts(Feasible(t));
    FeasiblePermutation(s, t);
    forall o | o in Rank(Feasible(s)) ensures o in s {
      RankedAreOffers(s, o);
    }
    SortedPermutationIsUnique(Rank(Feasible(s)), Rank(Feasible(t)));
  }

  // ---------------------------------------------------------------- composed with the simulator

  /** For every order and every risk the choice succeeds, its option is the first ranked one and
      feasible, it loses to no simulated option, and an intervention beats doing nothing by a cent. */
  lemma ChoiceOverSimulation(order: OrderContext, risk: RiskAssessment)
    ensures Select(Simulate(order, risk)).Returned?
    ensures var r := Select(Simulate(order, risk)).value;
            && r.ranked != []
            && r.ranked[0].action == r.selectedAction
            && FirstWithAction(r.ranked, r.selectedAction) == Some(r.ranked[0])
            && r.ranked[0] in Simulate(order, risk) && r.ranked[0].feasible
            && (forall o :: o in Simulate(order, risk) && o.feasible ==> o.expectedNetValue <= r.ranked[0].expectedNetValue)
            && r.incrementalValue == r.ranked[0].expectedNetValue - Simulate(order, risk)[0].expectedNetValue
            && !r.selectedAction.HumanEscalation?
            && (r.selectedAction.TakeNoAction? <==> r.incrementalValue == 0)
            && (!r.selectedAction.TakeNoAction? ==> 1 <= r.incrementalValue)
  {
    var options := Simulate(order, risk);
    var ranked := Rank(Feasible(options));
    BestIsFirst(options);
    assert ranked == [ranked[0]] + ranked[1..];
    assert !Outranks(options[0], ranked[0]);
    if ranked[0].action.TakeNoAction? {
      assert ranked[0] == options[0];
    }
  }

  /** The first ranked option is a feasible offer that no feasible offer outranks. */
  lemma BestIsFirst(options: seq<RecoveryOption>)
    requires exists o :: o in options && o.feasible
    ensures var ranked := Rank(Feasible(options));
            && ranked != [] && ranked[0] in options && ranked[0].feasible
            && forall o :: o in options && o.feasible ==> !Outranks(o, ranked[0])
  {
    RankingIsSortedPermutation(options);
    var ranked := Rank(Feasible(options));
    var some :| some in options && some.feasible;
    assert some in multiset(options);
    assert some in multiset(ranked);
    assert ranked[0] in multiset(ranked);
    assert ranked[0] in multiset(options);
    assert ranked == [ranked[0]] + ranked[1..];
    forall o | o in options && o.feasible ensures !Outranks(o, ranked[0]) {
      assert o in multiset(options);
      assert o in multiset(ranked);
    }
  }

  lemma {:induction false} RejectedExactly(options: seq<RecoveryOption>, action: RecoveryAction, reasons: seq<string>)
    ensures (action, reasons) in Infeasible(options)
            <==> exists o :: o in options && !o.feasible && o.action == action && o.constraints == reasons
  {
    if options == [] {
    } else {
      RejectedExactly(options[1..], action, reasons);
      assert options == [options[0]] + options[1..];
    }
  }

  /** Equal values are decided for the less invasive action: no action before a reroute before a carrier upgrade
      before a split. The recommendation carries the confidence of its choice, and lists as rejected exactly the
      infeasible options with their reasons. */
  lemma TiesAndRejections(order: OrderContext, risk: RiskAssessment, i: nat)
    requires i < 4 && Simulate(order, risk)[i].feasible
    ensures Select(Simulate(order, risk)).Returned?
    ensures var options, r := Simulate(order, risk), Select(Simulate(order, risk)).value;
            && (options[i].expectedNetValue == r.ranked[0].expectedNetValue && r.selectedAction != options[i].action ==>
                  exists k :: 0 <= k < i && r.selectedAction == options[k].action)
            && r.confidence == r.ranked[0].confidence
            && forall action, reasons :: (action, reasons) in r.rejected
                 <==> exists o :: o in options && !o.feasible && o.action == action && o.constraints == reasons
  {
    var options := Simulate(order, risk);
    ChoiceOverSimulation(order, risk);
    var r := Select(options).value;
    BestIsFirst(options);
    assert !Outranks(options[i], r.ranked[0]);
    OffersAsFeasible(order, risk);
    var k :| 0 <= k < 4 && options[k] == r.ranked[0];
    assert options[i].expectedNetValue == r.ranked[0].expectedNetValue && r.selectedAction != options[i].action ==> k < i;
    forall action, reasons ensures (action, reasons) in r.rejected
        <==> exists o :: o in options && !o.feasible && o.action == action && o.constraints == reasons {
      RejectedExactly(options, action, reasons);
    }
  }
}
