/** Replaying evaluations against the immutable ledger: when a re-evaluation is answered from the record,
    when it adds a decision, and exactly when it raises. */
module Replay {
  import opened Common
  import opened Models
  import opened Store
  import opened Simulator
  import opened Optimizer
  import opened Policy
  import opened Evaluation
  import opened Autonomy
  import opened Gateway
  import opened History
  import opened Frames
  import ControlHistory
  import Reconciliation

  /** What a trace shows of its request besides its identity and its policy result. */
  datatype Shown = Shown(eventId: string, risk: RiskAssessment, choice: Reply<Recommendation>, createdAt: Time, tenantId: string)

  function ShownBy(env: Env, request: EvaluationRequest): Shown {
    var risk := env.score(request.order);
    Shown(request.event.eventId, risk, Select(Simulate(request.order, risk)), request.order.evaluationTime, request.order.tenantId)
  }

  /** `d` is what the pipeline makes of `request` under the policy result that `d` carries. */
  predicate TraceOf(env: Env, request: EvaluationRequest, d: DecisionTrace) {
    && d.decisionId == MakeDecisionId(env, request, d.policy) && d.policy.policyVersion == POLICY_VERSION
    && d.orderId == request.order.orderId && d.mode == request.mode && d.status == StatusForMode(request.mode)
    && Shown(d.eventId, d.risk, Returned(d.recommendation), d.createdAt, d.tenantId) == ShownBy(env, request)
  }

  predicate Derived(env: Env, events: seq<EventRow>, d: DecisionTrace) {
    exists i :: 0 <= i < |events| && TraceOf(env, events[i].request, d)
  }

  /** Every row stores its own request's identity, and no identity is stored twice. */
  predicate EventsOk(events: seq<EventRow>) {
    && (forall i :: 0 <= i < |events| ==> SameEvent(events[i], events[i].request.event))
    && (forall i, j :: 0 <= i < j < |events| ==> !SameEvent(events[j], events[i].request.event))
  }

  predicate DecisionsDerived(env: Env, t: Tables) {
    forall id :: id in t.decisions ==> t.decisions[id].decisionId == id && Derived(env, t.events, t.decisions[id])
  }

  predicate Inv(env: Env, t: Tables) { EventsOk(t.events) && DecisionsDerived(env, t) }

  // ---------------------------------------------------------------- the invariant is kept

  lemma TraceIsTraceOf(env: Env, t: Tables, request: EvaluationRequest)
    requires Trace(env, t, request).Returned?
    ensures TraceOf(env, request, Trace(env, t, request).value)
  {}

  lemma IngestKeeps(events: seq<EventRow>, request: EvaluationRequest)
    requires EventsOk(events) && Ingest(events, request).Returned?
    ensures var next := Ingest(events, request).value;
            EventsOk(next) && events <= next && StoredEvent(next, request)
  {
    var next := Ingest(events, request).value;
    var i := FindEvent(events, request.event);
    assert next[if 0 <= i then i else |events|].request == request;
  }

  lemma StillDerived(env: Env, before: seq<EventRow>, after: seq<EventRow>, d: DecisionTrace)
    requires Derived(env, before, d) && before <= after
    ensures Derived(env, after, d)
  {
    var i :| 0 <= i < |before| && TraceOf(env, before[i].request, d);
    assert after[i] == before[i];
  }

  lemma NewlyDerived(env: Env, events: seq<EventRow>, request: EvaluationRequest, d: DecisionTrace)
    requires StoredEvent(events, request) && TraceOf(env, request, d)
    ensures Derived(env, events, d)
  {
    var i :| 0 <= i < |events| && events[i].request == request;
    assert TraceOf(env, events[i].request, d);
  }

  lemma OldDecisionsDerived(env: Env, t: Tables, u: Tables)
    requires DecisionsDerived(env, t) && t.events <= u.events && u.decisions == t.decisions
    ensures DecisionsDerived(env, u)
  {
    forall id | id in t.decisions ensures Derived(env, u.events, t.decisions[id]) {
      StillDerived(env, t.events, u.events, t.decisions[id]);
    }
  }

  lemma NewDecisionDerived(env: Env, t: Tables, u: Tables, request: EvaluationRequest, d: DecisionTrace)
    requires DecisionsDerived(env, t) && TraceOf(env, request, d) && StoredEvent(t.events, request)
    requires u.events == t.events && u.decisions == t.decisions[d.decisionId := d]
    ensures DecisionsDerived(env, u)
  {
    NewlyDerived(env, u.events, request, d);
  }

  lemma EvaluateKeeps(env: Env, t: Tables, request: EvaluationRequest)
    requires Inv(env, t)
    ensures Inv(env, Evaluate(env, t, request).0)
  {
    if Ingest(t.events, request).Returned? {
      IngestKeeps(t.events, request);
      EvaluateFrame(env, t, request);
      var u := Evaluate(env, t, request).0;
      assert u.events == Ingest(t.events, request).value;
      var mid := t.(events := u.events);
      OldDecisionsDerived(env, t, mid);
      if u.decisions != t.decisions {
        TraceIsTraceOf(env, t, request);
        NewDecisionDerived(env, mid, u, request, Trace(env, t, request).value);
      } else {
        OldDecisionsDerived(env, t, u);
      }
    }
  }

  lemma {:induction false} RunKeeps(env: Env, ops: seq<Op>)
    ensures Inv(env, Run(env, START, ops).tables)
  {
    if ops == [] {
    } else {
      var before, op := ops[..|ops| - 1], ops[|ops| - 1];
      RunKeeps(env, before);
      var w := Run(env, START, before);
      if op.OpEvaluate? {
        EvaluateKeeps(env, w.tables, op.request);
      } else {
        ControlHistory.OnlyEvaluateDecides(env, w, op);
      }
    }
  }

  // ---------------------------------------------------------------- when evaluation raises

  /** Two different events that agree on everything of the event and order that a decision id contains. */
  predicate Twins(a: EvaluationRequest, b: EvaluationRequest) {
    && a.event.deduplicationKey == b.event.deduplicationKey && a.event.eventVersion == b.event.eventVersion
    && a.order.orderId == b.order.orderId && a.mode == b.mode
    && (a.event.sourceSystem != b.event.sourceSystem || a.event.eventId != b.event.eventId)
  }

  /** Under the controls of `t`, `request` would be recorded under an id already given to a twin of it
      whose risk, ranking, event id, time or tenant is another. */
  predicate Collides(env: Env, t: Tables, twin: EvaluationRequest, request: EvaluationRequest) {
    && Twins(twin, request) && ShownBy(env, twin) != ShownBy(env, request)
    && Trace(env, t, request).Returned?
    && var id := Trace(env, t, request).value.decisionId;
    id in t.decisions && TraceOf(env, twin, t.decisions[id])
  }

  lemma SamePolicyUnderOneId(env: Env, a: EvaluationRequest, b: EvaluationRequest, d: DecisionTrace, e: DecisionTrace)
    requires TraceOf(env, a, d) && TraceOf(env, b, e) && d.decisionId == e.decisionId
    ensures d.policy == e.policy && d.orderId == e.orderId && d.mode == e.mode
    ensures d == e <==> ShownBy(env, a) == ShownBy(env, b)
  {}

  /** In a state whose profiles exist the pipeline always yields a trace. */
  lemma TraceReturns(env: Env, t: Tables, request: EvaluationRequest)
    requires forall a :: Executable(a) ==> a in t.profiles
    ensures Trace(env, t, request).Returned?
  {
    var risk := env.score(request.order);
    ChoiceOverSimulation(request.order, risk);
    var r := Select(Simulate(request.order, risk)).value;
    ControlsReturn(t, r.selectedAction);
    PolicyReturns(request.order, risk, r, request.mode, ControlsFor(t, r.selectedAction).value);
  }

  lemma ControlsReturn(t: Tables, action: RecoveryAction)
    requires Executable(action) ==> action in t.profiles
    ensures ControlsFor(t, action).Returned?
    ensures Executable(action) ==> ControlsFor(t, action).value.permitted.Returned?
  {}

  lemma PolicyReturns(order: OrderContext, risk: RiskAssessment, r: Recommendation, mode: OperatingMode, controls: Controls)
    requires FirstWithAction(r.ranked, r.selectedAction).Some?
    requires controls.permitted.Returned? || r.selectedAction.TakeNoAction?
    ensures EvaluatePolicy(order, risk, r, mode, controls).Returned?
  {}

  lemma IdentityIsRequest(events: seq<EventRow>, i: nat, request: EvaluationRequest)
    requires EventsOk(events) && i < |events| && Ingest(events, request).Returned?
    requires SameEvent(events[i], request.event)
    ensures events[i].request == request
  {
    var j := FindEvent(events, request.event);
    assert SameEvent(events[i], events[j].request.event) && SameEvent(events[j], events[i].request.event);
  }

  lemma ConflictNeedsTwin(env: Env, t: Tables, request: EvaluationRequest) returns (i: nat)
    requires Inv(env, t) && Ingest(t.events, request).Returned? && Trace(env, t, request).Returned?
    requires var d := Trace(env, t, request).value; d.decisionId in t.decisions && t.decisions[d.decisionId] != d
    ensures i < |t.events| && Collides(env, t, t.events[i].request, request)
  {
    var d := Trace(env, t, request).value;
    TraceIsTraceOf(env, t, request);
    i := Origin(env, t, d.decisionId);
    var e := t.events[i].request;
    SamePolicyUnderOneId(env, e, request, t.decisions[d.decisionId], d);
    if SameEvent(t.events[i], request.event) {
      IdentityIsRequest(t.events, i, request);
    }
    assert SameEvent(t.events[i], e.event);
  }

  lemma Origin(env: Env, t: Tables, id: DecisionId) returns (i: nat)
    requires Inv(env, t) && id in t.decisions
    ensures i < |t.events| && TraceOf(env, t.events[i].request, t.decisions[id]) && t.decisions[id].decisionId == id
  {
    assert Derived(env, t.events, t.decisions[id]);
    var k :| 0 <= k < |t.events| && TraceOf(env, t.events[k].request, t.decisions[id]);
    i := k;
  }

  /** The event identity is already bound to another payload. */
  predicate Rebinds(events: seq<EventRow>, request: EvaluationRequest) {
    exists i :: 0 <= i < |events| && SameEvent(events[i], request.event) && events[i].request != request
  }

  lemma RebindIsRefused(events: seq<EventRow>, request: EvaluationRequest)
    requires EventsOk(events)
    ensures Rebinds(events, request) <==> Ingest(events, request).Raised?
  {
    var j := FindEvent(events, request.event);
    if Rebinds(events, request) {
      var i :| 0 <= i < |events| && SameEvent(events[i], request.event) && events[i].request != request;
      assert SameEvent(events[j], events[i].request.event) && SameEvent(events[i], events[j].request.event);
    }
  }

  /** Evaluation, exactly, after any history and under any interleaving of control changes: a reused event
      identity with another payload is refused and changes nothing; a ledger conflict is raised if and only
      if the request collides with a stored twin; in every other case a decision is returned. No decision is
      ever altered, and at most one is added. */
  lemma EvaluationReplies(env: Env, ops: seq<Op>, request: EvaluationRequest)
    ensures var t := Run(env, START, ops).tables; var (u, r) := Evaluate(env, t, request);
            && (r == Raised(PersistenceConflictError) <==> Rebinds(t.events, request))
            && (r.Raised? && r.error.PersistenceConflictError? ==> u == t)
            && (r == Raised(LedgerConflictError) <==>
                  !Rebinds(t.events, request) && exists i :: 0 <= i < |t.events| && Collides(env, t, t.events[i].request, request))
            && (r.Raised? ==> r.error.PersistenceConflictError? || r.error.LedgerConflictError?)
            && EvaluateEffect(env, t, request, u)
  {
    RunKeeps(env, ops);
    Reconciliation.RunKeeps(env, ops);
    var t := Run(env, START, ops).tables;
    EvaluateFrame(env, t, request);
    RebindIsRefused(t.events, request);
    TraceReturns(env, t, request);
    if !Rebinds(t.events, request) {
      var d := Trace(env, t, request).value;
      EvaluateAnswers(env, t, request);
      if d.decisionId in t.decisions && t.decisions[d.decisionId] != d {
        var i := ConflictNeedsTwin(env, t, request);
      } else {
        forall i | 0 <= i < |t.events| ensures !Collides(env, t, t.events[i].request, request) {
          if Collides(env, t, t.events[i].request, request) {
            TraceIsTraceOf(env, t, request);
            SamePolicyUnderOneId(env, t.events[i].request, request, t.decisions[d.decisionId], d);
          }
        }
      }
    }
  }

  /** What evaluation answers, once the event is accepted and the pipeline yields a trace. */
  lemma EvaluateAnswers(env: Env, t: Tables, request: EvaluationRequest)
    requires Ingest(t.events, request).Returned? && Trace(env, t, request).Returned?
    ensures var d := Trace(env, t, request).value;
            Evaluate(env, t, request).1 ==
            if d.decisionId in t.decisions && t.decisions[d.decisionId] != d then Raised(LedgerConflictError) else Returned(d)
  {
    TraceIgnoresEvents(env, t, Ingest(t.events, request).value, request);
  }

  /** Without a stored twin, re-evaluating never raises a ledger conflict, whatever the controls did. */
  lemma NoTwinNoConflict(env: Env, ops: seq<Op>, request: EvaluationRequest)
    requires forall i :: 0 <= i < |Run(env, START, ops).tables.events| ==> !Twins(Run(env, START, ops).tables.events[i].request, request)
    ensures Evaluate(env, Run(env, START, ops).tables, request).1 != Raised(LedgerConflictError)
  {
    EvaluationReplies(env, ops, request);
  }

  /** Twins whose orders are wholly the same, told apart by their event ids. */
  predicate SameOrderTwins(a: EvaluationRequest, b: EvaluationRequest) {
    && a.event.deduplicationKey == b.event.deduplicationKey && a.event.eventVersion == b.event.eventVersion
    && a.order == b.order && a.mode == b.mode && a.event.eventId != b.event.eventId
  }

  /** Twins under the same controls always conflict: after any history, once one was decided, evaluating the
      other next raises, whichever of the two is new and whichever is a replay. */
  lemma TwinsConflict(env: Env, ops: seq<Op>, a: EvaluationRequest, b: EvaluationRequest)
    requires SameOrderTwins(a, b) && Evaluate(env, Run(env, START, ops).tables, a).1.Returned?
    requires !Rebinds(Evaluate(env, Run(env, START, ops).tables, a).0.events, b)
    ensures Evaluate(env, Evaluate(env, Run(env, START, ops).tables, a).0, b).1 == Raised(LedgerConflictError)
  {
    var t := Run(env, START, ops).tables;
    RunKeeps(env, ops);
    EvaluateKeeps(env, t, a);
    DecidedTwinConflicts(env, t, a, b);
  }

  lemma DecidedTwinConflicts(env: Env, t: Tables, a: EvaluationRequest, b: EvaluationRequest)
    requires SameOrderTwins(a, b) && Inv(env, t) && Inv(env, Evaluate(env, t, a).0) && Evaluate(env, t, a).1.Returned?
    requires !Rebinds(Evaluate(env, t, a).0.events, b)
    ensures Evaluate(env, Evaluate(env, t, a).0, b).1 == Raised(LedgerConflictError)
  {
    var u := Evaluate(env, t, a).0;
    ReturnedIsStored(env, t, a);
    EvaluateFrame(env, t, a);
    SameControlsSameTrace(env, t, u, a, b);
    TraceIsTraceOf(env, t, a);
    TraceIsTraceOf(env, u, b);
    RebindIsRefused(u.events, b);
    EvaluateAnswers(env, u, b);
  }

  /** The state after a request was decided and the kill switch was then set again. */
  function AfterSwitch(env: Env, request: EvaluationRequest, switch: KillSwitchUpdate): Tables {
    SetKillSwitch(Evaluate(env, BOOTSTRAPPED, request).0, switch, env.strict).0
  }

  lemma FirstEvaluation(env: Env, request: EvaluationRequest)
    ensures var (u, r) := Evaluate(env, BOOTSTRAPPED, request);
            && r.Returned? && r == Trace(env, BOOTSTRAPPED, request)
            && u.decisions == map[r.value.decisionId := r.value] && r.value.decisionId.controlVersion.killSwitch == 1
            && u == BOOTSTRAPPED.(events := u.events, decisions := u.decisions)
            && |u.events| == 1 && u.events[0].request == request
  {
    TraceReturns(env, BOOTSTRAPPED, request);
    EvaluateAnswers(env, BOOTSTRAPPED, request);
    TraceIgnoresEvents(env, BOOTSTRAPPED, Ingest([], request).value, request);
    TraceSwitchVersion(env, BOOTSTRAPPED, request);
  }

  lemma TraceSwitchVersion(env: Env, t: Tables, request: EvaluationRequest)
    requires Trace(env, t, request).Returned?
    ensures Trace(env, t, request).value.decisionId.controlVersion.killSwitch == t.killSwitch.version
  {
    ControlHistory.TraceVersion(env, t, request);
    TraceIsTraceOf(env, t, request);
  }

  lemma TwinIsRecorded(env: Env, request: EvaluationRequest, twin: EvaluationRequest, switch: KillSwitchUpdate)
    requires SameOrderTwins(request, twin) && switch.role.OperationsManager? && MayClaim(switch.actorId, switch.role, env.strict)
    ensures var (u, r) := Evaluate(env, AfterSwitch(env, request, switch), twin);
            r.Returned? && StoredEvent(u.events, request)
  {
    FirstEvaluation(env, request);
    var t := AfterSwitch(env, request, switch);
    SetKillSwitchFrame(Evaluate(env, BOOTSTRAPPED, request).0, switch, env.strict);
    assert t.killSwitch.version == 2;
    assert Ingest(t.events, twin) == Returned(t.events + [EventRow(twin.event.sourceSystem, twin.event.eventId, twin.event.eventVersion, twin)]);
    TraceReturns(env, t, twin);
    TraceSwitchVersion(env, t, twin);
    EvaluateAnswers(env, t, twin);
    EvaluateFrame(env, t, twin);
    assert Evaluate(env, t, twin).0.events[0].request == request;
  }

  /** Re-evaluating an identical request can conflict. For every request: decide it, let a manager set the kill
      switch, so that a twin of it is decided under the new control version, and evaluate the request again. */
  lemma ReEvaluationConflicts(env: Env, request: EvaluationRequest, twin: EvaluationRequest, switch: KillSwitchUpdate)
    requires SameOrderTwins(request, twin) && switch.role.OperationsManager? && MayClaim(switch.actorId, switch.role, env.strict)
    ensures var w := Run(env, START, [OpEvaluate(request), OpKillSwitch(switch)]); var u := Evaluate(env, w.tables, twin);
            && Evaluate(env, START.tables, request).1.Returned? && u.1.Returned?
            && Evaluate(env, u.0, request).1 == Raised(LedgerConflictError)
  {
    SwitchedHistory(env, request, switch);
    FirstEvaluation(env, request);
    TwinIsRecorded(env, request, twin, switch);
    ReplayAfterTwin(env, [OpEvaluate(request), OpKillSwitch(switch)], request, twin);
  }

  lemma SwitchedHistory(env: Env, request: EvaluationRequest, switch: KillSwitchUpdate)
    ensures Run(env, START, [OpEvaluate(request), OpKillSwitch(switch)]).tables == AfterSwitch(env, request, switch)
  {
    var first, second := OpEvaluate(request), OpKillSwitch(switch);
    RunSnoc(env, START, [], first);
    RunSnoc(env, START, [first], second);
    assert [] + [first] == [first] && [first] + [second] == [first, second];
  }

  /** In general: once a twin of a stored request was decided, replaying the request under the same controls
      conflicts, however long ago it was decided itself. */
  lemma ReplayAfterTwin(env: Env, ops: seq<Op>, request: EvaluationRequest, twin: EvaluationRequest)
    requires SameOrderTwins(request, twin) && Evaluate(env, Run(env, START, ops).tables, twin).1.Returned?
    requires StoredEvent(Evaluate(env, Run(env, START, ops).tables, twin).0.events, request)
    ensures Evaluate(env, Evaluate(env, Run(env, START, ops).tables, twin).0, request).1 == Raised(LedgerConflictError)
  {
    var t := Run(env, START, ops).tables;
    RunKeeps(env, ops);
    EvaluateKeeps(env, t, twin);
    StoredEventIsAccepted(Evaluate(env, t, twin).0.events, request);
    RebindIsRefused(Evaluate(env, t, twin).0.events, request);
    TwinsConflict(env, ops, twin, request);
  }

  /** The policy reads the order, the mode and the controls only. */
  lemma SameControlsSameTrace(env: Env, t: Tables, u: Tables, a: EvaluationRequest, b: EvaluationRequest)
    requires t.killSwitch == u.killSwitch && t.profiles == u.profiles
    requires a.order == b.order && a.mode == b.mode && Trace(env, t, a).Returned?
    ensures Trace(env, u, b).Returned? && Trace(env, u, b).value.policy == Trace(env, t, a).value.policy
  {
    var r := Select(Simulate(a.order, env.score(a.order)));
    assert ControlsFor(t, r.value.selectedAction) == ControlsFor(u, r.value.selectedAction);
  }

  /** Replaying the same request later: with the controls unchanged, as its control version tells, the
      recorded decision is returned and nothing at all changes. */
  lemma ReplayReturnsTheRecord(env: Env, ops: seq<Op>, more: seq<Op>, request: EvaluationRequest)
    ensures var w := Run(env, START, ops); var later := Run(env, START, ops + [OpEvaluate(request)] + more).tables;
            var first, again := Evaluate(env, w.tables, request).1, Trace(env, later, request);
            first.Returned? && again.Returned? && again.value.policy.controlVersion == first.value.policy.controlVersion ==>
              Evaluate(env, later, request) == (later, first)
  {
    var w := Run(env, START, ops);
    var rest := [OpEvaluate(request)] + more;
    Associative(ops, [OpEvaluate(request)], more);
    var mid := Apply(env, w, OpEvaluate(request));
    assert (ops + [OpEvaluate(request)])[..|ops|] == ops;
    assert Run(env, START, ops + [OpEvaluate(request)]) == mid;
    RunSplits(env, START, ops + [OpEvaluate(request)], more);
    var later := Run(env, START, ops + rest).tables;
    assert later == Run(env, mid, more).tables;
    var first, again := Evaluate(env, w.tables, request).1, Trace(env, later, request);
    if first.Returned? && again.Returned? && again.value.policy.controlVersion == first.value.policy.controlVersion {
      ControlHistory.ControlVersionIsFingerprint(env, ops, rest, request);
      FirstIsStored(env, ops, request);
      DecisionStays(env, mid, more, first.value.decisionId);
      EventsStay(env, mid, more);
      StoredEventStays(mid.tables.events, later.events, request);
      RunKeeps(env, ops + rest);
      RebindIsRefused(later.events, request);
      EvaluateAnswers(env, w.tables, request);
      StoredEventIsAccepted(later.events, request);
      assert again == first;
    }
  }

  lemma FirstIsStored(env: Env, ops: seq<Op>, request: EvaluationRequest)
    requires Evaluate(env, Run(env, START, ops).tables, request).1.Returned?
    ensures var t := Run(env, START, ops).tables; var (u, r) := Evaluate(env, t, request);
            && Trace(env, t, request) == r
            && r.value.decisionId in u.decisions && u.decisions[r.value.decisionId] == r.value
            && StoredEvent(u.events, request)
  {
    RunKeeps(env, ops);
    ReturnedIsStored(env, Run(env, START, ops).tables, request);
  }

  lemma ReturnedIsStored(env: Env, t: Tables, request: EvaluationRequest)
    requires EventsOk(t.events) && Evaluate(env, t, request).1.Returned?
    ensures var (u, r) := Evaluate(env, t, request);
            && Trace(env, t, request) == r
            && r.value.decisionId in u.decisions && u.decisions[r.value.decisionId] == r.value
            && StoredEvent(u.events, request)
  {
    IngestKeeps(t.events, request);
    TraceIgnoresEvents(env, t, Ingest(t.events, request).value, request);
  }

  predicate StoredEvent(events: seq<EventRow>, request: EvaluationRequest) {
    exists i :: 0 <= i < |events| && events[i].request == request
  }

  lemma StepGrows(env: Env, w: World, op: Op)
    ensures var u := Apply(env, w, op).tables;
            && w.tables.events <= u.events
            && forall id :: id in w.tables.decisions ==> id in u.decisions && u.decisions[id] == w.tables.decisions[id]
  {
    if op.OpEvaluate? {
      EvaluateFrame(env, w.tables, op.request);
    } else {
      ControlHistory.OnlyEvaluateDecides(env, w, op);
    }
  }

  /** Stored events stay. */
  lemma {:induction false} EventsStay(env: Env, w: World, ops: seq<Op>)
    ensures w.tables.events <= Run(env, w, ops).tables.events
  {
    if ops == [] {
    } else {
      EventsStay(env, w, ops[..|ops| - 1]);
      StepGrows(env, Run(env, w, ops[..|ops| - 1]), ops[|ops| - 1]);
    }
  }

  /** Recorded decisions stay as they are. */
  lemma {:induction false} DecisionStays(env: Env, w: World, ops: seq<Op>, id: DecisionId)
    requires id in w.tables.decisions
    ensures var u := Run(env, w, ops).tables; id in u.decisions && u.decisions[id] == w.tables.decisions[id]
  {
    if ops == [] {
    } else {
      DecisionStays(env, w, ops[..|ops| - 1], id);
      StepGrows(env, Run(env, w, ops[..|ops| - 1]), ops[|ops| - 1]);
    }
  }

  lemma StoredEventStays(before: seq<EventRow>, after: seq<EventRow>, request: EvaluationRequest)
    requires before <= after && StoredEvent(before, request)
    ensures StoredEvent(after, request)
  {
    var i :| 0 <= i < |before| && before[i].request == request;
    assert after[i] == before[i];
  }

  lemma StoredEventIsAccepted(events: seq<EventRow>, request: EvaluationRequest)
    requires EventsOk(events) && StoredEvent(events, request)
    ensures Ingest(events, request) == Returned(events)
  {
    var i :| 0 <= i < |events| && events[i].request == request;
    var j := FindEvent(events, request.event);
    assert SameEvent(events[i], request.event);
    assert SameEvent(events[j], events[j].request.event) && SameEvent(events[i], events[j].request.event);
  }
}
