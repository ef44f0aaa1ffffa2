/** value_evaluation.py: the batched backtest of the decision pipeline against ground truth. */
module ValueEvaluation {
  import opened Common
  import opened Models
  import opened Money
  import opened Simulator
  import opened Optimizer
  import opened GroundTruth

  const BATCH_SIZE := 2048

  type Scorer = OrderContext -> RiskAssessment

  /** What one record contributes. */
  datatype Tally = Tally(action: RecoveryAction, correct: bool, incremental: int, regret: int, cost: real, uplift: real)

  datatype Summary = Summary(
    records: nat,
    interventions: nat,
    falseInterventions: nat,
    correctActions: nat,
    interventionRate: real,
    agreement: real,
    falseInterventionRate: real,
    meanUplift: real,
    incrementalValue: int,
    interventionCost: int,
    grossUplift: int,
    meanRegret: int,
    p95Regret: int,
    selectedCounts: map<RecoveryAction, nat>)

  function Chosen(record: Record, score: Scorer): RecoveryAction {
    match Select(Simulate(record.request.order, score(record.request.order)))
    case Returned(r) => r.selectedAction
    case Raised(_) => TakeNoAction
  }

  /** The optimal action recorded with the truth must itself have a truth value. */
  predicate Evaluable(record: Record) { !record.truth.optimalAction.HumanEscalation? }

  lemma ChosenHasTruth(record: Record, score: Scorer)
    ensures Select(Simulate(record.request.order, score(record.request.order))).Returned?
    ensures !Chosen(record, score).HumanEscalation?
  {
    ChoiceOverSimulation(record.request.order, score(record.request.order));
  }

  function TallyOf(record: Record, score: Scorer): Tally
    requires Evaluable(record)
  {
    ChosenHasTruth(record, score);
    var action := Chosen(record, score);
    var selected := TruthValue(record, action).value;
    Tally(
      action,
      action == record.truth.optimalAction,
      selected - TruthValue(record, TakeNoAction).value,
      Max(0, TruthValue(record, record.truth.optimalAction).value - selected),
      ActionCost(record.request.order, action),
      Probability(record.truth, action).value - record.truth.noAction)
  }

  function Tallies(records: seq<Record>, score: Scorer): (ts: seq<Tally>)
    requires forall r :: r in records ==> Evaluable(r)
    ensures |ts| == |records|
  {
    if records == [] then []
    else Tallies(records[..|records| - 1], score) + [TallyOf(records[|records| - 1], score)]
  }

  function Sum(s: seq<int>): int {
    if s == [] then 0 else Sum(s[..|s| - 1]) + s[|s| - 1]
  }

  function SumReal(s: seq<real>): real {
    if s == [] then 0.0 else SumReal(s[..|s| - 1]) + s[|s| - 1]
  }

  function CountOf(ts: seq<Tally>, which: Tally -> bool): nat {
    if ts == [] then 0 else CountOf(ts[..|ts| - 1], which) + if which(ts[|ts| - 1]) then 1 else 0
  }

  function Regrets(ts: seq<Tally>): seq<int> { seq(|ts|, i requires 0 <= i < |ts| => ts[i].regret) }
  function Incrementals(ts: seq<Tally>): seq<int> { seq(|ts|, i requires 0 <= i < |ts| => ts[i].incremental) }
  function Costs(ts: seq<Tally>): seq<real> { seq(|ts|, i requires 0 <= i < |ts| => ts[i].cost) }
  function Uplifts(ts: seq<Tally>): seq<real> { seq(|ts|, i requires 0 <= i < |ts| => ts[i].uplift) }

  const Intervenes := (t: Tally) => !t.action.TakeNoAction?
  const FalselyIntervenes := (t: Tally) => !t.action.TakeNoAction? && t.incremental <= 0
  const Agrees := (t: Tally) => t.correct

  function Selects(a: RecoveryAction): Tally -> bool { (t: Tally) => t.action == a }

  // ---------------------------------------------------------------- nearest-rank percentile

  function InsertInt(x: int, s: seq<int>): seq<int> {
    if s == [] || x <= s[0] then [x] + s else [s[0]] + InsertInt(x, s[1..])
  }

  function SortInts(s: seq<int>): (r: seq<int>)
    ensures |r| == |s|
  {
    if s == [] then []
    else
      InsertIntLength(s[0], SortInts(s[1..]));
      InsertInt(s[0], SortInts(s[1..]))
  }

  lemma InsertIntLength(x: int, s: seq<int>)
    ensures |InsertInt(x, s)| == |s| + 1
  {}

  ghost predicate Ascending(s: seq<int>) { forall i, j :: 0 <= i < j < |s| ==> s[i] <= s[j] }

  function CountWhere(s: seq<int>, keep: int -> bool): nat {
    if s == [] then 0 else (if keep(s[0]) then 1 else 0) + CountWhere(s[1..], keep)
  }

  lemma {:induction false} InsertIntCounts(x: int, s: seq<int>, keep: int -> bool)
    ensures CountWhere(InsertInt(x, s), keep) == CountWhere(s, keep) + if keep(x) then 1 else 0
  {
    if s == [] || x <= s[0] {
      assert ([x] + s)[1..] == s;
    } else {
      InsertIntCounts(x, s[1..], keep);
      assert ([s[0]] + InsertInt(x, s[1..]))[1..] == InsertInt(x, s[1..]);
    }
  }

  lemma {:induction false} InsertIntSorts(x: int, s: seq<int>)
    requires Ascending(s)
    ensures Ascending(InsertInt(x, s))
    ensures forall y :: y in InsertInt(x, s) ==> y == x || y in s
  {
    if s == [] || x <= s[0] {
    } else {
      InsertIntSorts(x, s[1..]);
      var rest := InsertInt(x, s[1..]);
      forall i | 0 <= i < |rest| ensures s[0] <= rest[i] {
        assert rest[i] == x || rest[i] in s[1..];
      }
    }
  }

  lemma {:induction false} SortIntsSorts(s: seq<int>, keep: int -> bool)
    ensures Ascending(SortInts(s))
    ensures CountWhere(SortInts(s), keep) == CountWhere(s, keep)
  {
    if s == [] {
    } else {
      SortIntsSorts(s[1..], keep);
      InsertIntSorts(s[0], SortInts(s[1..]));
      InsertIntCounts(s[0], SortInts(s[1..]), keep);
    }
  }

  function P95Index(n: nat): int { Max(0, Min(n - 1, (19 * n + 19) / 20 - 1)) }

  lemma {:induction false} CountBounds(s: seq<int>, k: nat, keep: int -> bool)
    requires k <= |s|
    ensures (forall i :: 0 <= i < k ==> keep(s[i])) ==> k <= CountWhere(s, keep)
    ensures (forall i :: k <= i < |s| ==> !keep(s[i])) ==> CountWhere(s, keep) <= k
    decreases |s|
  {
    if s == [] {
    } else {
      CountBounds(s[1..], if k == 0 then 0 else k - 1, keep);
      assert forall i :: 0 <= i < |s| - 1 ==> s[1..][i] == s[i + 1];
    }
  }

  /** The reported percentile is the nearest rank: at least 95 per cent of the regrets are at or below
      it, and fewer than 95 per cent lie strictly below. */
  lemma NearestRank(regrets: seq<int>)
    requires regrets != []
    ensures 0 <= P95Index(|regrets|) < |regrets|
    ensures var v := SortInts(regrets)[P95Index(|regrets|)];
            && 19 * |regrets| <= 20 * CountWhere(regrets, x => x <= v)
            && 20 * CountWhere(regrets, x => x < v) < 19 * |regrets|
  {
    P95InRange(|regrets|);
    RankOfIndex(regrets, P95Index(|regrets|));
  }

  lemma P95InRange(n: nat)
    requires 0 < n
    ensures 0 <= P95Index(n) < n && 19 * n <= 20 * (P95Index(n) + 1) && 20 * P95Index(n) < 19 * n
  {}

  lemma SortedCounts(regrets: seq<int>, i: nat, k: nat, keep: int -> bool)
    requires i < |regrets| && k <= |regrets|
    ensures |SortInts(regrets)| == |regrets| && Ascending(SortInts(regrets))
    ensures (forall j :: 0 <= j < k ==> keep(SortInts(regrets)[j])) ==> k <= CountWhere(regrets, keep)
    ensures (forall j :: k <= j < |regrets| ==> !keep(SortInts(regrets)[j])) ==> CountWhere(regrets, keep) <= k
  {
    SortIntsSorts(regrets, keep);
    CountBounds(SortInts(regrets), k, keep);
  }

  /** At least `i + 1` entries are at or below the entry of rank `i`, and at most `i` strictly below it. */
  lemma RankOfIndex(regrets: seq<int>, i: nat)
    requires i < |regrets|
    ensures var v := SortInts(regrets)[i];
            i + 1 <= CountWhere(regrets, x => x <= v) && CountWhere(regrets, x => x < v) <= i
  {
    var v := SortInts(regrets)[i];
    SortedCounts(regrets, i, i + 1, x => x <= v);
    SortedCounts(regrets, i, i, x => x < v);
  }

  // ---------------------------------------------------------------- one-pass specification

  function CountsOf(ts: seq<Tally>): map<RecoveryAction, nat> {
    map a | a in {TakeNoAction, Reroute, CarrierUpgrade, SplitShipment} && 0 < CountOf(ts, Selects(a))
      :: CountOf(ts, Selects(a))
  }

  function Summarise(ts: seq<Tally>): Summary
    requires ts != []
  {
    var n := |ts|;
    var interventions := CountOf(ts, Intervenes);
    var incremental := Sum(Incrementals(ts));
    var cost := HalfUp(SumReal(Costs(ts)));
    Summary(
      n, interventions, CountOf(ts, FalselyIntervenes), CountOf(ts, Agrees),
      interventions as real / n as real,
      CountOf(ts, Agrees) as real / n as real,
      if interventions == 0 then 0.0 else CountOf(ts, FalselyIntervenes) as real / interventions as real,
      SumReal(Uplifts(ts)) / n as real,
      incremental, cost, incremental + cost,
      HalfUp(Sum(Regrets(ts)) as real / n as real),
      SortInts(Regrets(ts))[P95Index(n)],
      CountsOf(ts))
  }

  lemma {:induction false} CountsCover(ts: seq<Tally>)
    requires forall t :: t in ts ==> !t.action.HumanEscalation?
    ensures CountOf(ts, Selects(TakeNoAction)) + CountOf(ts, Selects(Reroute))
          + CountOf(ts, Selects(CarrierUpgrade)) + CountOf(ts, Selects(SplitShipment)) == |ts|
    ensures CountOf(ts, Intervenes) == |ts| - CountOf(ts, Selects(TakeNoAction))
    ensures CountOf(ts, FalselyIntervenes) <= CountOf(ts, Intervenes)
  {
    if ts == [] {
    } else {
      assert ts[|ts| - 1] in ts;
      CountsCover(ts[..|ts| - 1]);
    }
  }

  lemma TalliesInit(records: seq<Record>, score: Scorer, i: nat)
    requires i < |records| - 1 && forall r :: r in records ==> Evaluable(r)
    ensures var before := records[..|records| - 1];
            && (forall r :: r in before ==> Evaluable(r))
            && before[i] == records[i] && Tallies(records, score)[i] == Tallies(before, score)[i]
  {}

  lemma {:induction false} TallyAt(records: seq<Record>, score: Scorer, i: nat)
    requires i < |records| && forall r :: r in records ==> Evaluable(r)
    ensures records[i] in records && Tallies(records, score)[i] == TallyOf(records[i], score)
  {
    if i < |records| - 1 {
      TalliesInit(records, score, i);
      TallyAt(records[..|records| - 1], score, i);
    }
  }

  function CountIn(counts: map<RecoveryAction, nat>, a: RecoveryAction): nat {
    if a in counts then counts[a] else 0
  }

  lemma NoEscalationTallied(records: seq<Record>, score: Scorer)
    requires forall r :: r in records ==> Evaluable(r)
    ensures forall t :: t in Tallies(records, score) ==> !t.action.HumanEscalation?
  {
    var ts := Tallies(records, score);
    forall t | t in ts ensures !t.action.HumanEscalation? {
      var i :| 0 <= i < |ts| && ts[i] == t;
      TallyAt(records, score, i);
      ChosenHasTruth(records[i], score);
    }
  }

  lemma CountInCounts(ts: seq<Tally>, a: RecoveryAction)
    requires !a.HumanEscalation?
    ensures CountIn(CountsOf(ts), a) == CountOf(ts, Selects(a))
  {}

  /** Each record is counted under exactly one action, and the interventions are the rest. */
  lemma EveryRecordCounted(records: seq<Record>, score: Scorer)
    requires records != [] && forall r :: r in records ==> Evaluable(r)
    ensures var s := Summarise(Tallies(records, score));
            && s.records == |records|
            && CountIn(s.selectedCounts, TakeNoAction) + CountIn(s.selectedCounts, Reroute)
             + CountIn(s.selectedCounts, CarrierUpgrade) + CountIn(s.selectedCounts, SplitShipment) == |records|
            && s.interventions == |records| - CountIn(s.selectedCounts, TakeNoAction)
            && s.falseInterventions <= s.interventions
  {
    var ts := Tallies(records, score);
    NoEscalationTallied(records, score);
    CountsCover(ts);
    CountInCounts(ts, TakeNoAction);
    CountInCounts(ts, Reroute);
    CountInCounts(ts, CarrierUpgrade);
    CountInCounts(ts, SplitShipment);
  }

  lemma {:induction false} SumBetween(s: seq<int>, bound: nat)
    requires forall i :: 0 <= i < |s| ==> 0 <= s[i] <= bound
    ensures 0 <= Sum(s) <= bound * |s|
  {
    if s == [] {
    } else {
      SumBetween(s[..|s| - 1], bound);
      assert bound * |s| == bound * (|s| - 1) + bound;
    }
  }

  lemma {:induction false} SortedWithin(s: seq<int>, bound: nat)
    requires forall i :: 0 <= i < |s| ==> 0 <= s[i] <= bound
    ensures forall i :: 0 <= i < |s| ==> 0 <= SortInts(s)[i] <= bound
  {
    if s == [] {
    } else {
      SortedWithin(s[1..], bound);
      SortIntsSorts(s[1..], x => true);
      InsertIntSorts(s[0], SortInts(s[1..]));
      forall i | 0 <= i < |s| ensures 0 <= SortInts(s)[i] <= bound {
        assert SortInts(s)[i] in InsertInt(s[0], SortInts(s[1..]));
      }
    }
  }

  lemma AverageWithin(total: int, n: nat, bound: nat)
    requires 0 < n && 0 <= total <= bound * n
    ensures 0 <= HalfUp(total as real / n as real) <= bound
  {
    var average := total as real / n as real;
    assert average * n as real == total as real;
    assert (bound * n) as real == bound as real * n as real;
    if average > bound as real {
      assert average * n as real > bound as real * n as real;
    }
    assert 0.0 <= average;
    HalfUpMonotone(0.0, average);
    HalfUpMonotone(average, bound as real);
    HalfUpOfWhole(bound);
  }

  lemma RecordRegret(record: Record, score: Scorer, bound: nat)
    requires Evaluable(record) && Matching(record) && IsOptimal(record, record.truth.optimalAction)
    requires WholeCentCosts(record.request.order)
    requires EstimateError(record, score(record.request.order)) + 2.5 < bound as real + 1.0
    ensures 0 <= TallyOf(record, score).regret <= bound
  {
    RegretBound(record, score(record.request.order), record.truth.optimalAction);
  }

  /** On a generated backtest with whole-cent costs, the reported mean and 95th-percentile regret are never
      negative and never exceed `bound` cents, when no record's estimation error reaches `bound` less one and a
      half cents. An exact scorer has bound two. */
  lemma BacktestRegretBound(records: seq<Record>, score: Scorer, bound: nat)
    requires records != []
    requires forall r :: r in records ==> (
        && Evaluable(r) && Matching(r) && IsOptimal(r, r.truth.optimalAction)
        && WholeCentCosts(r.request.order) && EstimateError(r, score(r.request.order)) + 2.5 < bound as real + 1.0)
    ensures var s := Summarise(Tallies(records, score)); 0 <= s.meanRegret <= bound && 0 <= s.p95Regret <= bound
  {
    var ts := Tallies(records, score);
    forall i | 0 <= i < |ts| ensures 0 <= Regrets(ts)[i] <= bound {
      TallyAt(records, score, i);
      RecordRegret(records[i], score, bound);
    }
    SumBetween(Regrets(ts), bound);
    AverageWithin(Sum(Regrets(ts)), |ts|, bound);
    SortedWithin(Regrets(ts), bound);
  }

  function Flatten(batches: seq<seq<Record>>): seq<Record> {
    if batches == [] then [] else Flatten(batches[..|batches| - 1]) + batches[|batches| - 1]
  }

  lemma FlattenAppend(batches: seq<seq<Record>>, batch: seq<Record>)
    ensures Flatten(batches + [batch]) == Flatten(batches) + batch
  {
    assert (batches + [batch])[..|batches|] == batches;
  }

  /** `_batches`: full batches in order, then a shorter remainder. */
  method Batches(records: seq<Record>, size: int) returns (batches: seq<seq<Record>>)
    ensures Flatten(batches) == records
    ensures forall i :: 0 <= i < |batches| ==> 1 <= |batches[i]| <= Max(1, size)
    ensures forall i :: 0 <= i < |batches| - 1 ==> |batches[i]| == Max(1, size)
  {
    batches := [];
    var batch: seq<Record> := [];
    for i := 0 to |records|
      invariant Flatten(batches) + batch == records[..i]
      invariant |batch| < Max(1, size)
      invariant forall j :: 0 <= j < |batches| ==> |batches[j]| == Max(1, size)
    {
      assert records[..i + 1] == records[..i] + [records[i]];
      batch := batch + [records[i]];
      if size <= |batch| {
        FlattenAppend(batches, batch);
        batches := batches + [batch];
        batch := [];
      }
    }
    assert records[..|records|] == records;
    if batch != [] {
      FlattenAppend(batches, batch);
      batches := batches + [batch];
    }
  }

  lemma TalliesAppend(records: seq<Record>, record: Record, score: Scorer)
    requires forall r :: r in records + [record] ==> Evaluable(r)
    ensures record in records + [record] && forall r :: r in records ==> r in records + [record]
    ensures Tallies(records + [record], score) == Tallies(records, score) + [TallyOf(record, score)]
  {
    assert (records + [record])[|records|] == record;
    assert (records + [record])[..|records|] == records;
    forall r | r in records ensures r in records + [record] {}
  }

  lemma {:induction false} InFlatten(batches: seq<seq<Record>>, i: nat, record: Record)
    requires i < |batches| && record in batches[i]
    ensures record in Flatten(batches)
  {
    if i < |batches| - 1 {
      InFlatten(batches[..|batches| - 1], i, record);
    }
  }

  lemma CountAppend(ts: seq<Tally>, t: Tally, which: Tally -> bool)
    ensures CountOf(ts + [t], which) == CountOf(ts, which) + if which(t) then 1 else 0
  {
    assert (ts + [t])[..|ts|] == ts;
  }

  lemma ListsAppend(ts: seq<Tally>, t: Tally)
    ensures Regrets(ts + [t]) == Regrets(ts) + [t.regret]
    ensures Incrementals(ts + [t]) == Incrementals(ts) + [t.incremental]
    ensures Costs(ts + [t]) == Costs(ts) + [t.cost]
    ensures Uplifts(ts + [t]) == Uplifts(ts) + [t.uplift]
  {}

  lemma CountsAppend(ts: seq<Tally>, t: Tally)
    requires !t.action.HumanEscalation?
    ensures CountsOf(ts + [t]) == CountsOf(ts)[t.action := CountOf(ts, Selects(t.action)) + 1]
  {
    var after, next := CountsOf(ts + [t]), CountsOf(ts)[t.action := CountOf(ts, Selects(t.action)) + 1];
    forall a: RecoveryAction ensures (a in after <==> a in next) && (a in after ==> after[a] == next[a]) {
      CountAppend(ts, t, Selects(a));
    }
    assert after == next;
  }

  /** The running lists and counters of the evaluation loop. */
  datatype Progress = Progress(
    counts: map<RecoveryAction, nat>, regrets: seq<int>, incrementals: seq<int>, costs: seq<real>,
    uplifts: seq<real>, recordCount: nat, interventions: nat, falseInterventions: nat, correct: nat)

  /** What they must be after the records behind `ts`. */
  function ProgressOf(ts: seq<Tally>): Progress {
    Progress(CountsOf(ts), Regrets(ts), Incrementals(ts), Costs(ts), Uplifts(ts), |ts|,
             CountOf(ts, Intervenes), CountOf(ts, FalselyIntervenes), CountOf(ts, Agrees))
  }

  /** The record-level computation of the loop body. */
  method Measure(record: Record, score: Scorer) returns (t: Tally)
    requires Evaluable(record)
    ensures t == TallyOf(record, score) && !t.action.HumanEscalation?
  {
    ChosenHasTruth(record, score);
    var selected := Chosen(record, score);
    var selectedValue := TruthValue(record, selected).value;
    var incremental := selectedValue - TruthValue(record, TakeNoAction).value;
    var regret := TruthValue(record, record.truth.optimalAction).value - selectedValue;
    var uplift := Probability(record.truth, selected).value - record.truth.noAction;
    t := Tally(selected, selected == record.truth.optimalAction, incremental, Max(0, regret),
               ActionCost(record.request.order, selected), uplift);
  }

  /** The accumulation part of the loop body. */
  method Observe(p: Progress, t: Tally, ghost ts: seq<Tally>) returns (q: Progress)
    requires p == ProgressOf(ts) && !t.action.HumanEscalation?
    ensures q == ProgressOf(ts + [t])
  {
    ListsAppend(ts, t);
    CountsAppend(ts, t);
    CountAppend(ts, t, Agrees);
    CountAppend(ts, t, Intervenes);
    CountAppend(ts, t, FalselyIntervenes);
    var seen := if t.action in p.counts then p.counts[t.action] else 0;
    var intervenes := !t.action.TakeNoAction?;
    q := Progress(
      p.counts[t.action := seen + 1],
      p.regrets + [t.regret],
      p.incrementals + [t.incremental],
      p.costs + [t.cost],
      p.uplifts + [t.uplift],
      p.recordCount + 1,
      p.interventions + (if intervenes then 1 else 0),
      p.falseInterventions + (if intervenes && t.incremental <= 0 then 1 else 0),
      p.correct + (if t.correct then 1 else 0));
  }

  /** The summary built from the final lists. */
  method Report(p: Progress, ghost ts: seq<Tally>) returns (summary: Summary)
    requires p == ProgressOf(ts) && ts != []
    ensures summary == Summarise(ts)
  {
    var sortedRegrets := SortInts(p.regrets);
    var p95Index := Max(0, Min(|sortedRegrets| - 1, (19 * |sortedRegrets| + 19) / 20 - 1));
    var totalIncremental := Sum(p.incrementals);
    var totalCost := HalfUp(SumReal(p.costs));
    var n := p.recordCount;
    summary := Summary(
      n, p.interventions, p.falseInterventions, p.correct,
      p.interventions as real / n as real,
      p.correct as real / n as real,
      if p.interventions == 0 then 0.0 else p.falseInterventions as real / p.interventions as real,
      SumReal(p.uplifts) / n as real,
      totalIncremental, totalCost, totalIncremental + totalCost,
      HalfUp(Sum(p.regrets) as real / n as real),
      sortedRegrets[p95Index],
      p.counts);
  }

  /** The body of the loop over records. */
  method Absorb(p: Progress, record: Record, score: Scorer, ghost done: seq<Record>) returns (q: Progress)
    requires Evaluable(record) && forall r :: r in done ==> Evaluable(r)
    requires p == ProgressOf(Tallies(done, score))
    ensures forall r :: r in done + [record] ==> Evaluable(r)
    ensures q == ProgressOf(Tallies(done + [record], score))
  {
    var tally := Measure(record, score);
    q := Observe(p, tally, Tallies(done, score));
    TalliesAppend(done, record, score);
  }

  /** The ghost bookkeeping of one pass of the inner loop. */
  lemma OneMore(earlier: seq<seq<Record>>, batch: seq<Record>, j: nat, done: seq<Record>)
    requires j < |batch| && done == Flatten(earlier) + batch[..j]
    ensures done + [batch[j]] == Flatten(earlier) + batch[..j + 1]
  {
    PrefixSnoc(batch, j);
    Associative(Flatten(earlier), batch[..j], [batch[j]]);
  }

  /** The batched loop over all records computes exactly the one-pass summary: no total, count or
      percentile depends on where the batches fall. It raises exactly when there is no record, or
      when some record's optimal action has no ground truth. */
  method Evaluate(records: seq<Record>, score: Scorer) returns (reply: Reply<Summary>)
    ensures reply.Raised? <==> records == [] || exists r :: r in records && !Evaluable(r)
    ensures reply.Raised? ==> reply.error == ValueError
    ensures reply.Returned? ==> reply.value == Summarise(Tallies(records, score))
  {
    var progress := Progress(map[], [], [], [], [], 0, 0, 0, 0);
    ghost var done: seq<Record> := [];
    assert progress == ProgressOf([]);
    var batches := Batches(records, BATCH_SIZE);
    for i := 0 to |batches|
      invariant done == Flatten(batches[..i])
      invariant forall r :: r in done ==> Evaluable(r)
      invariant progress == ProgressOf(Tallies(done, score))
    {
      var batch := batches[i];
      for j := 0 to |batch|
        invariant done == Flatten(batches[..i]) + batch[..j]
        invariant forall r :: r in done ==> Evaluable(r)
        invariant progress == ProgressOf(Tallies(done, score))
      {
        var record := batch[j];
        if !Evaluable(record) {
          InFlatten(batches, i, record);
          return Raised(ValueError);
        }
        progress := Absorb(progress, record, score, done);
        OneMore(batches[..i], batch, j, done);
        done := done + [record];
      }
      WholePrefix(batch);
      PrefixSnoc(batches, i);
      FlattenAppend(batches[..i], batch);
    }
    WholePrefix(batches);
    if progress.recordCount == 0 {
      return Raised(ValueError);
    }
    var summary := Report(progress, Tallies(done, score));
    return Returned(summary);
  }

  // ---------------------------------------------------------------- the report, record by record

  function TrueValue(record: Record, action: RecoveryAction): int {
    match TruthValue(record, action)
    case Some(v) => v
    case None => 0
  }

  /** The true value of the chosen action over doing nothing. */
  function Gain(record: Record, score: Scorer): int {
    TrueValue(record, Chosen(record, score)) - TrueValue(record, TakeNoAction)
  }

  function TotalGain(records: seq<Record>, score: Scorer): int {
    if records == [] then 0 else TotalGain(records[..|records| - 1], score) + Gain(records[|records| - 1], score)
  }

  function TotalSpent(records: seq<Record>, score: Scorer): real {
    if records == [] then 0.0
    else
      var last := records[|records| - 1];
      TotalSpent(records[..|records| - 1], score) + ActionCost(last.request.order, Chosen(last, score))
  }

  function UpliftOn(record: Record, action: RecoveryAction): real {
    match Probability(record.truth, action)
    case Some(p) => p - record.truth.noAction
    case None => 0.0
  }

  /** The on-time probability gained over doing nothing, summed. */
  function TotalUplift(records: seq<Record>, score: Scorer): real {
    if records == [] then 0.0
    else
      var last := records[|records| - 1];
      TotalUplift(records[..|records| - 1], score) + UpliftOn(last, Chosen(last, score))
  }

  /** Records on which the choice is the optimum. */
  function Agreements(records: seq<Record>, score: Scorer): nat {
    if records == [] then 0
    else
      var last := records[|records| - 1];
      Agreements(records[..|records| - 1], score) + if Chosen(last, score) == last.truth.optimalAction then 1 else 0
  }

  /** Records with an intervention that truly gains nothing. */
  function FalseAlarms(records: seq<Record>, score: Scorer): nat {
    if records == [] then 0
    else
      var last := records[|records| - 1];
      FalseAlarms(records[..|records| - 1], score)
      + if !Chosen(last, score).TakeNoAction? && Gain(last, score) <= 0 then 1 else 0
  }

  lemma TallyMeans(record: Record, score: Scorer)
    requires Evaluable(record)
    ensures var t := TallyOf(record, score);
            && t.uplift == UpliftOn(record, Chosen(record, score))
            && t.incremental == Gain(record, score) && t.cost == ActionCost(record.request.order, Chosen(record, score))
            && (Agrees(t) <==> Chosen(record, score) == record.truth.optimalAction)
            && (FalselyIntervenes(t) <==> !Chosen(record, score).TakeNoAction? && Gain(record, score) <= 0)
  {
    ChosenHasTruth(record, score);
  }

  /** What a list of tallies adds up to. */
  datatype Totals = Totals(gain: int, spent: real, uplift: real, agreements: nat, falseAlarms: nat)
  {
    function With(g: int, s: real, u: real, agrees: bool, falsely: bool): Totals {
      Totals(gain + g, spent + s, uplift + u, agreements + (if agrees then 1 else 0), falseAlarms + (if falsely then 1 else 0))
    }
  }

  function TotalsOf(ts: seq<Tally>): Totals {
    Totals(Sum(Incrementals(ts)), SumReal(Costs(ts)), SumReal(Uplifts(ts)), CountOf(ts, Agrees), CountOf(ts, FalselyIntervenes))
  }

  lemma TotalsAppend(ts: seq<Tally>, t: Tally)
    ensures TotalsOf(ts + [t]) ==
            var u := TotalsOf(ts);
            u.With(t.incremental, t.cost, t.uplift, Agrees(t), FalselyIntervenes(t))
  {
    ListsAppend(ts, t);
    CountAppend(ts, t, Agrees);
    CountAppend(ts, t, FalselyIntervenes);
    assert (Incrementals(ts) + [t.incremental])[..|ts|] == Incrementals(ts);
    assert (Costs(ts) + [t.cost])[..|ts|] == Costs(ts);
    assert (Uplifts(ts) + [t.uplift])[..|ts|] == Uplifts(ts);
  }

  lemma TrueTotalsSnoc(records: seq<Record>, score: Scorer)
    requires records != []
    ensures var n := |records| - 1; var last := records[n]; var choice := Chosen(last, score);
            TrueTotals(records, score) ==
            TrueTotals(records[..n], score).With(Gain(last, score), ActionCost(last.request.order, choice), UpliftOn(last, choice),
                                                 choice == last.truth.optimalAction,
                                                 !choice.TakeNoAction? && Gain(last, score) <= 0)
  {}

  lemma {:induction false} TotalsByRecord(records: seq<Record>, score: Scorer)
    requires forall r :: r in records ==> Evaluable(r)
    ensures TotalsOf(Tallies(records, score)) == TrueTotals(records, score)
  {
    if records == [] {
    } else {
      var n := |records| - 1;
      TotalsByRecord(records[..n], score);
      assert records[n] in records;
      TallyMeans(records[n], score);
      TrueTotalsSnoc(records, score);
      TotalsAppend(Tallies(records[..n], score), TallyOf(records[n], score));
    }
  }

  /** `rate` is `part` per `whole`. */
  predicate IsRate(rate: real, part: nat, whole: nat) { rate * whole as real == part as real }

  lemma Quotient(part: nat, whole: nat)
    requires whole != 0
    ensures IsRate(part as real / whole as real, part, whole)
  {}

  /** `mean` is `total` shared out over `n`. */
  predicate IsMean(mean: real, total: real, n: nat) { mean * n as real == total }

  lemma Average(total: real, n: nat)
    requires n != 0
    ensures IsMean(total / n as real, total, n)
  {}

  /** What the report says of a backtest of `n` records with these totals and so many interventions. */
  predicate Reports(s: Summary, n: nat, t: Totals, interventions: nat) {
    && s.incrementalValue == t.gain && NearCent(s.interventionCost, t.spent)
    && s.grossUplift == s.incrementalValue + s.interventionCost
    && IsMean(s.meanUplift, t.uplift, n)
    && s.correctActions == t.agreements && s.falseInterventions == t.falseAlarms && s.interventions == interventions
    && IsRate(s.agreement, t.agreements, n) && IsRate(s.interventionRate, interventions, n)
    && (interventions != 0 ==> IsRate(s.falseInterventionRate, t.falseAlarms, interventions))
    && (interventions == 0 ==> s.falseInterventionRate == 0.0)
  }

  lemma SummaryReports(ts: seq<Tally>)
    requires ts != []
    ensures Reports(Summarise(ts), |ts|, TotalsOf(ts), CountOf(ts, Intervenes))
  {
    var interventions := CountOf(ts, Intervenes);
    Quotient(CountOf(ts, Agrees), |ts|);
    Average(SumReal(Uplifts(ts)), |ts|);
    Quotient(interventions, |ts|);
    if interventions != 0 {
      Quotient(CountOf(ts, FalselyIntervenes), interventions);
    }
  }

  /** Records on which an intervention is chosen. */
  function Interventions(records: seq<Record>, score: Scorer): nat {
    if records == [] then 0
    else
      Interventions(records[..|records| - 1], score) + if Chosen(records[|records| - 1], score).TakeNoAction? then 0 else 1
  }

  lemma {:induction false} InterventionsByRecord(records: seq<Record>, score: Scorer)
    requires forall r :: r in records ==> Evaluable(r)
    ensures CountOf(Tallies(records, score), Intervenes) == Interventions(records, score)
  {
    if records == [] {
    } else {
      var n := |records| - 1;
      assert records[n] in records;
      InterventionsByRecord(records[..n], score);
      CountAppend(Tallies(records[..n], score), TallyOf(records[n], score), Intervenes);
    }
  }

  /** The totals of a backtest, record by record. */
  function TrueTotals(records: seq<Record>, score: Scorer): Totals {
    Totals(TotalGain(records, score), TotalSpent(records, score), TotalUplift(records, score), Agreements(records, score),
           FalseAlarms(records, score))
  }

  /** The report, exactly: the reported gain is the sum of the true gains of the choices, the reported cost is the
      sum of their costs to the nearest cent, the gross uplift is both together, and every rate is its count per
      record, or per intervention. */
  lemma ReportExactly(records: seq<Record>, score: Scorer)
    requires records != [] && forall r :: r in records ==> Evaluable(r)
    ensures Reports(Summarise(Tallies(records, score)), |records|, TrueTotals(records, score), Interventions(records, score))
  {
    TotalsByRecord(records, score);
    InterventionsByRecord(records, score);
    SummaryReports(Tallies(records, score));
  }
}
