/** What the policy's verdicts mean for the ledger and for every write, over whole histories. */
module PolicyHistory {
  import opened Common
  import opened Models
  import opened Store
  import opened Simulator
  import opened Optimizer
  import opened Policy
  import opened Autonomy
  import opened Evaluation
  import opened Gateway
  import opened History
  import opened Frames
  import Authority
  import ControlHistory
  import Reconciliation
  import Replay
  import SandboxHistory

  /** Bounded autonomy is what the profile of `action` holds. */
  predicate Bounds(t: Tables, action: RecoveryAction) { action in t.profiles && t.profiles[action].level.BoundedAutonomy? }

  /** The verdict of the gateway on `request` in state `t`. */
  predicate JudgedIn(t: Tables, request: EvaluationRequest, d: DecisionTrace) {
    && SelectedOption(d).Some?
    && RightDisposition(d.policy, request.order, d.risk, d.recommendation, request.mode, t.killSwitch.active,
                        !t.killSwitch.active && Bounds(t, d.recommendation.selectedAction), SelectedOption(d).value)
  }

  lemma ControlsMean(t: Tables, action: RecoveryAction)
    requires ControlsFor(t, action).Returned?
    ensures var c := ControlsFor(t, action).value;
            && c.killSwitchActive == t.killSwitch.active
            && (Executable(action) ==>
                  c.permitted.Returned? && (c.permitted.value <==> !t.killSwitch.active && Bounds(t, action)))
  {}

  lemma PermissionIdle(p: PolicyEvaluation, order: OrderContext, risk: RiskAssessment, r: Recommendation, mode: OperatingMode,
                       killSwitch: bool, a: bool, b: bool, selected: RecoveryOption)
    requires r.selectedAction.TakeNoAction? && RightDisposition(p, order, risk, r, mode, killSwitch, a, selected)
    ensures RightDisposition(p, order, risk, r, mode, killSwitch, b, selected)
  {}

  /** The state a decision is made in is the state it is judged by. */
  lemma TraceIsJudged(env: Env, t: Tables, request: EvaluationRequest)
    requires Trace(env, t, request).Returned?
    ensures JudgedIn(t, request, Trace(env, t, request).value)
  {
    var d := Trace(env, t, request).value;
    var action := d.recommendation.selectedAction;
    ControlHistory.TraceVersion(env, t, request);
    ChoiceOverSimulation(request.order, env.score(request.order));
    ControlsMean(t, action);
    var c := ControlsFor(t, action).value;
    DispositionExactly(request.order, d.risk, d.recommendation, request.mode, c);
    if action.TakeNoAction? {
      PermissionIdle(d.policy, request.order, d.risk, d.recommendation, request.mode, t.killSwitch.active,
                     c.permitted.Returned? && c.permitted.value, !t.killSwitch.active && Bounds(t, action), SelectedOption(d).value);
    }
  }

  /** Evaluation decides, exactly: in every reachable state the verdict on a request is the right one for the
      switch and the profile as they stand, and the decision's status tells its mode. */
  lemma EvaluationDecides(env: Env, ops: seq<Op>, request: EvaluationRequest)
    ensures var t := Run(env, START, ops).tables;
            && Trace(env, t, request).Returned?
            && var d := Trace(env, t, request).value;
            && JudgedIn(t, request, d)
            && (d.status.Observed? <==> request.mode.Observe?) && (d.status.ShadowRecorded? <==> request.mode.Shadow?)
            && (d.status.Recommended? <==> request.mode.Recommend?) && (d.status.AwaitingApproval? <==> request.mode.ApprovalMode?)
            && (d.status.ReadyForExecution? <==> request.mode.Bounded?)
  {
    var t := Run(env, START, ops).tables;
    Reconciliation.RunKeeps(env, ops);
    Replay.TraceReturns(env, t, request);
    TraceIsJudged(env, t, request);
    StatusTellsMode(env, t, request);
  }

  lemma StatusTellsMode(env: Env, t: Tables, request: EvaluationRequest)
    requires Trace(env, t, request).Returned?
    ensures var d := Trace(env, t, request).value;
            && (d.status.Observed? <==> request.mode.Observe?) && (d.status.ShadowRecorded? <==> request.mode.Shadow?)
            && (d.status.Recommended? <==> request.mode.Recommend?) && (d.status.AwaitingApproval? <==> request.mode.ApprovalMode?)
            && (d.status.ReadyForExecution? <==> request.mode.Bounded?)
  {
    Replay.TraceIsTraceOf(env, t, request);
  }

  // ---------------------------------------------------------------- what every stored decision rests on

  /** The verdict that a decision carries fits the request it was made from, whatever the controls were. */
  predicate Fits(request: EvaluationRequest, d: DecisionTrace) {
    && (!Sound(request.order, d.risk) ==> d.policy.disposition.Block?)
    && (d.policy.disposition.AutoExecute? || d.policy.disposition.RequestApproval? ==> !d.recommendation.selectedAction.TakeNoAction?)
    && (d.policy.disposition.AutoExecute? ==>
          !request.order.restricted && request.mode.Bounded?
          && SelectedOption(d).Some? && Modest(d.recommendation, SelectedOption(d).value))
  }

  predicate Grounded(env: Env, events: seq<EventRow>, d: DecisionTrace) {
    exists i :: 0 <= i < |events| && Replay.TraceOf(env, events[i].request, d) && Fits(events[i].request, d)
  }

  predicate AllGrounded(env: Env, t: Tables) {
    forall id :: id in t.decisions ==> Grounded(env, t.events, t.decisions[id])
  }

  lemma StillGrounded(env: Env, before: seq<EventRow>, after: seq<EventRow>, d: DecisionTrace)
    requires Grounded(env, before, d) && before <= after
    ensures Grounded(env, after, d)
  {
    var i :| 0 <= i < |before| && Replay.TraceOf(env, before[i].request, d) && Fits(before[i].request, d);
    assert after[i] == before[i];
  }

  lemma NewlyGrounded(env: Env, t: Tables, events: seq<EventRow>, request: EvaluationRequest)
    requires Trace(env, t, request).Returned? && Replay.StoredEvent(events, request)
    ensures Grounded(env, events, Trace(env, t, request).value)
  {
    TraceIsJudged(env, t, request);
    Replay.TraceIsTraceOf(env, t, request);
    var i :| 0 <= i < |events| && events[i].request == request;
    assert Fits(events[i].request, Trace(env, t, request).value);
  }

  lemma EvaluateKeepsGrounded(env: Env, t: Tables, request: EvaluationRequest)
    requires AllGrounded(env, t) && Replay.EventsOk(t.events)
    ensures AllGrounded(env, Evaluate(env, t, request).0)
  {
    if Ingest(t.events, request).Returned? {
      Replay.IngestKeeps(t.events, request);
      EvaluateFrame(env, t, request);
      var u := Evaluate(env, t, request).0;
      assert u.events == Ingest(t.events, request).value;
      var mid := t.(events := u.events);
      OldGrounded(env, t, mid);
      if u.decisions != t.decisions {
        NewlyGrounded(env, t, u.events, request);
        NewGrounded(env, mid, u, Trace(env, t, request).value);
      } else {
        OldGrounded(env, t, u);
      }
    }
  }

  lemma OldGrounded(env: Env, t: Tables, u: Tables)
    requires AllGrounded(env, t) && t.events <= u.events && u.decisions == t.decisions
    ensures AllGrounded(env, u)
  {
    forall id | id in u.decisions ensures Grounded(env, u.events, u.decisions[id]) {
      StillGrounded(env, t.events, u.events, t.decisions[id]);
    }
  }

  lemma NewGrounded(env: Env, t: Tables, u: Tables, d: DecisionTrace)
    requires AllGrounded(env, t) && Grounded(env, t.events, d)
    requires u.events == t.events && u.decisions == t.decisions[d.decisionId := d]
    ensures AllGrounded(env, u)
  {}

  lemma {:induction false} RunKeepsGrounded(env: Env, ops: seq<Op>)
    ensures AllGrounded(env, Run(env, START, ops).tables)
  {
    if ops == [] {
    } else {
      var before, op := ops[..|ops| - 1], ops[|ops| - 1];
      var w := Run(env, START, before);
      RunKeepsGrounded(env, before);
      if op.OpEvaluate? {
        Replay.RunKeeps(env, before);
        EvaluateKeepsGrounded(env, w.tables, op.request);
      } else {
        ControlHistory.OnlyEvaluateDecides(env, w, op);
      }
    }
  }

  /** The event row a decision was made from. */
  predicate MadeFrom(env: Env, t: Tables, d: DecisionTrace, i: nat) {
    i < |t.events| && Replay.TraceOf(env, t.events[i].request, d) && Fits(t.events[i].request, d)
  }

  lemma RowIsActionable(t: Tables, k: nat)
    requires Authority.Inv(t) && k < |t.actions|
    ensures t.actions[k].command.decisionId in t.decisions
    ensures var p := t.decisions[t.actions[k].command.decisionId].policy; p.disposition.AutoExecute? || p.disposition.RequestApproval?
  {
    assert Authority.RowOk(t, t.actions[k]);
  }

  /** No write on stale or doubtful data: in every reachable state, each action row belongs to a decision made from a
      stored request whose context was at most 15 minutes old and whose risk carried no warning. */
  lemma NoWriteOnStaleContext(env: Env, ops: seq<Op>, k: nat) returns (i: nat)
    requires k < |Run(env, START, ops).tables.actions|
    ensures var t := Run(env, START, ops).tables; var id := t.actions[k].command.decisionId;
            && id in t.decisions && MadeFrom(env, t, t.decisions[id], i)
            && t.events[i].request.order.freshnessMinutes <= 15 && t.decisions[id].risk.warnings == []
  {
    Authority.RunKeeps(env, START, ops);
    RunKeepsGrounded(env, ops);
    i := RowOrigin(env, Run(env, START, ops).tables, k);
  }

  lemma RowOrigin(env: Env, t: Tables, k: nat) returns (i: nat)
    requires Authority.Inv(t) && AllGrounded(env, t) && k < |t.actions|
    ensures var id := t.actions[k].command.decisionId;
            && id in t.decisions && MadeFrom(env, t, t.decisions[id], i)
            && t.events[i].request.order.freshnessMinutes <= 15 && t.decisions[id].risk.warnings == []
  {
    RowIsActionable(t, k);
    var d := t.decisions[t.actions[k].command.decisionId];
    i := Ground(env, t, d);
    ActionableIsSound(t.events[i].request, d);
  }

  lemma Ground(env: Env, t: Tables, d: DecisionTrace) returns (i: nat)
    requires Grounded(env, t.events, d)
    ensures MadeFrom(env, t, d, i)
  {
    i :| 0 <= i < |t.events| && Replay.TraceOf(env, t.events[i].request, d) && Fits(t.events[i].request, d);
  }

  lemma ActionableIsSound(request: EvaluationRequest, d: DecisionTrace)
    requires Fits(request, d) && (d.policy.disposition.AutoExecute? || d.policy.disposition.RequestApproval?)
    ensures Sound(request.order, d.risk)
  {}

  lemma MadeFromIsOrderOf(env: Env, t: Tables, id: DecisionId, i: nat)
    requires Replay.EventsOk(t.events) && SandboxHistory.StableOrders(t.events)
    requires id in t.decisions && MadeFrom(env, t, t.decisions[id], i)
    ensures SandboxHistory.OrderOf(t, id) == Some(t.events[i].request.order)
  {
    assert SameEvent(t.events[i], t.events[i].request.event);
    assert t.events[i].eventId == t.decisions[id].eventId;
    var row := Resolve(t.events, t.decisions[id].eventId).value;
    var j :| 0 <= j < |t.events| && t.events[j] == row;
  }

  /** The same of the order that a write acts on, when every event id keeps one order: it was fresh, and an unattended
      write was on an unrestricted order, at most 10.00, for a gain of at least 5.00, with confidence 0.85 or more. */
  lemma WritesActOnFreshOrders(env: Env, ops: seq<Op>, k: nat)
    requires k < |Run(env, START, ops).tables.actions| && SandboxHistory.StableOrders(Run(env, START, ops).tables.events)
    ensures var t := Run(env, START, ops).tables; var id := t.actions[k].command.decisionId;
            && id in t.decisions && SandboxHistory.OrderOf(t, id).Some?
            && var d, order := t.decisions[id], SandboxHistory.OrderOf(t, id).value;
            && order.freshnessMinutes <= 15
            && (d.policy.disposition.AutoExecute? ==>
                  !order.restricted && SelectedOption(d).Some? && Modest(d.recommendation, SelectedOption(d).value))
  {
    var i := NoWriteOnStaleContext(env, ops, k);
    Replay.RunKeeps(env, ops);
    var t := Run(env, START, ops).tables;
    MadeFromIsOrderOf(env, t, t.actions[k].command.decisionId, i);
  }
}
