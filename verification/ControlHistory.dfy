/** The control version carried by every decision identifies the controls that were in force. */
module ControlHistory {
  import opened Common
  import opened Models
  import opened Store
  import opened Sandbox
  import opened Autonomy
  import opened Approvals
  import opened Optimizer
  import opened Simulator
  import opened Policy
  import opened Evaluation
  import opened Gateway
  import opened Verification
  import opened Workflow
  import opened History
  import opened Frames
  import Authority
  import Saga
  import Reconciliation

  /** Versions never fall, and while a version stands still so does its whole row. */
  predicate Later(t: Tables, u: Tables) {
    && t.killSwitch.version <= u.killSwitch.version
    && (t.killSwitch.version == u.killSwitch.version ==> t.killSwitch == u.killSwitch)
    && (forall a :: a in t.profiles ==> a in u.profiles)
    && (forall a :: a in t.profiles ==>
          && t.profiles[a].version <= u.profiles[a].version
          && (t.profiles[a].version == u.profiles[a].version ==> t.profiles[a] == u.profiles[a]))
  }

  lemma LaterTransitive(t: Tables, u: Tables, v: Tables)
    requires Later(t, u) && Later(u, v)
    ensures Later(t, v)
  {}

  /** New evidence replaces one profile by a profile of the next version. */
  lemma ProfileBumpLater(t: Tables, u: Tables, action: RecoveryAction, p: Profile)
    requires action in t.profiles && p.version == t.profiles[action].version + 1
    requires u.killSwitch == t.killSwitch && u.profiles == t.profiles[action := p]
    ensures Later(t, u)
  {}

  lemma EvidenceLater(t: Tables, id: EvidenceId, action: RecoveryAction, successful: bool, compensated: bool)
    ensures Later(t, RecordEvidence(t, id, action, successful, compensated).0)
  {
    if action in t.profiles && !HasEvidence(t.evidence, id) {
      var p := Learned(t.profiles[action], id, successful, compensated);
      ProfileBumpLater(t, RecordEvidence(t, id, action, successful, compensated).0, action, p);
    }
  }

  lemma PersistLater(t: Tables, o: OutcomeVerification, action: RecoveryAction)
    ensures Later(t, Persist(t, o, action).0)
  {
    EvidenceLater(t.(outcomes := RecordOutcomeRow(t.outcomes, o).0), OutcomeEvidence(o.outcomeId), action, o.status.Verified?, false);
  }

  lemma CommandLater(w: World, d: DecisionTrace, order: OrderContext, actorId: string, approvedBy: Option<string>,
                     approval: Option<ApprovalRecord>, now: Time)
    ensures Later(w.tables, RunCommand(w, d, order, actorId, approvedBy, approval, now).0.tables)
  {
    var command := CommandFor(d, order, actorId, approvedBy);
    if command.Returned? {
      var after := Execute(w, command.value, order, now).0;
      ExecuteFrame(w, command.value, order, now);
      if after != w {
        var r := Saga.RunSaga(Seeded(w.sandbox, order), order, command.value.action, command.value.idempotencyKey).1;
        var row := FinishedRow(command.value, r, now);
        EvidenceLater(w.tables.(actions := w.tables.actions + [row]), ExecutionEvidence(row.actionId), row.command.action,
                      false, row.status.Compensated?);
      }
    }
  }

  lemma ApproveLater(env: Env, w: World, id: ApprovalId, input: ApprovalInput, now: Time)
    ensures Later(w.tables, ApproveAndExecute(env, w, id, input, now).0.tables)
  {
    ApproveFrame(env, w, id, input, now);
    if ApproveAndExecute(env, w, id, input, now).0 != w {
      var d := w.tables.decisions[w.tables.approvals[id].decisionId];
      var order := Resolve(w.tables.events, d.eventId).value.request.order;
      var (tables, decided) := Decide(w.tables, id, input, Approved, now, env.strict);
      Reconciliation.DecideFrame(w.tables, id, input, Approved, now, env.strict);
      if decided.Returned? {
        CommandLater(w.(tables := tables), d, order, decided.value.requestedBy, decided.value.decidedBy, Some(decided.value), now);
      }
    }
  }

  lemma SubmitLater(env: Env, w: World, id: DecisionId, actorId: string, now: Time)
    ensures Later(w.tables, Submit(env, w, id, actorId, now).0.tables)
  {
    if id in w.tables.decisions {
      var d := w.tables.decisions[id];
      if d.policy.disposition.AutoExecute? {
        var event := Resolve(w.tables.events, d.eventId);
        if event.Some? {
          CommandLater(w, d, event.value.request.order, actorId, None, None, now);
        }
      }
    }
  }

  lemma VerifyLater(w: World, id: DecisionId, observation: Option<DeliveryObservation>, now: Time)
    ensures Later(w.tables, Verify(w, id, observation, now).0.tables)
  {
    if id in w.tables.decisions {
      var d := w.tables.decisions[id];
      var e := ActionFor(w.tables.actions, id);
      var event := Resolve(w.tables.events, d.eventId);
      if e.Some? && event.Some? {
        var order := event.value.request.order;
        var selected := FirstWithAction(d.recommendation.ranked, e.value.command.action);
        if selected.Some? {
          PersistLater(w.tables, OutcomeOf(Inspected(w.sandbox, order, e.value, observation), d, e.value, order, observation,
                                           selected.value, now), e.value.command.action);
        }
      }
    }
  }

  lemma StepLater(env: Env, w: World, op: Op)
    ensures Later(w.tables, Apply(env, w, op).tables)
  {
    match op {
      case OpEvaluate(request) => EvaluateFrame(env, w.tables, request);
      case OpSubmit(id, actor, now) => SubmitLater(env, w, id, actor, now);
      case OpApprove(id, input, now) => ApproveLater(env, w, id, input, now);
      case OpReject(id, input, now) => Reconciliation.DecideFrame(w.tables, id, input, RejectedApproval, now, env.strict);
      case OpVerify(id, observation, now) => VerifyLater(w, id, observation, now);
      case OpKillSwitch(u) => SetKillSwitchFrame(w.tables, u, env.strict);
      case OpProfile(action, u) => SetProfileFrame(w.tables, action, u, env.strict);
      case OpInject(_, _) =>
      case OpClearFailures =>
    }
  }

  lemma {:induction false} RunLater(env: Env, w: World, ops: seq<Op>)
    ensures Later(w.tables, Run(env, w, ops).tables)
  {
    if ops == [] {
    } else {
      var mid := Run(env, w, ops[..|ops| - 1]);
      RunLater(env, w, ops[..|ops| - 1]);
      StepLater(env, mid, ops[|ops| - 1]);
      LaterTransitive(w.tables, mid.tables, Run(env, w, ops).tables);
    }
  }

  /** The controls as the gateway read them for `action`. */
  predicate SameControls(t: Tables, u: Tables, action: RecoveryAction) {
    && t.killSwitch == u.killSwitch
    && (Executable(action) ==> action in t.profiles && action in u.profiles && t.profiles[action] == u.profiles[action])
  }

  /** The control version is a sound fingerprint: at any two points of any history, two evaluations of the
      same request that carry the same control version saw the same kill switch and the same profile of
      the selected action, and reached the same policy result and the same decision id. */
  lemma ControlVersionIsFingerprint(env: Env, ops: seq<Op>, more: seq<Op>, request: EvaluationRequest)
    ensures var t, u := Run(env, START, ops).tables, Run(env, START, ops + more).tables;
            SameFingerprint(env, t, u, request)
  {
    RunSplits(env, START, ops, more);
    RunLater(env, Run(env, START, ops), more);
    FingerprintOfLater(env, Run(env, START, ops).tables, Run(env, START, ops + more).tables, request);
  }

  /** If both evaluations return with equal control versions, the controls and the traces are equal. */
  predicate SameFingerprint(env: Env, t: Tables, u: Tables, request: EvaluationRequest) {
    var first, second := Trace(env, t, request), Trace(env, u, request);
    first.Returned? && second.Returned? && first.value.policy.controlVersion == second.value.policy.controlVersion ==>
      SameControls(t, u, first.value.recommendation.selectedAction) && first.value == second.value
  }

  lemma FingerprintOfLater(env: Env, t: Tables, u: Tables, request: EvaluationRequest)
    requires Later(t, u)
    ensures SameFingerprint(env, t, u, request)
  {
    var first, second := Trace(env, t, request), Trace(env, u, request);
    if first.Returned? && second.Returned? && first.value.policy.controlVersion == second.value.policy.controlVersion {
      var action := first.value.recommendation.selectedAction;
      TraceVersion(env, t, request);
      TraceVersion(env, u, request);
      ChoiceOverSimulation(request.order, env.score(request.order));
      VersionFixesControls(t, u, action);
      if Executable(action) {
        assert ControlsFor(t, action) == ControlsFor(u, action);
      } else {
        IdlePolicyIgnoresPermission(request.order, first.value.risk, first.value.recommendation, request.mode,
                                    ControlsFor(t, action).value, ControlsFor(u, action).value);
      }
      assert first.value.policy == second.value.policy;
    }
  }

  lemma VersionFixesControls(t: Tables, u: Tables, action: RecoveryAction)
    requires Later(t, u)
    requires ContextVersion(t, action).Returned? && ContextVersion(t, action) == ContextVersion(u, action)
    ensures SameControls(t, u, action)
    ensures Executable(action) ==> ControlsFor(t, action) == ControlsFor(u, action)
  {}

  lemma IdlePolicyIgnoresPermission(order: OrderContext, risk: RiskAssessment, r: Recommendation, mode: OperatingMode,
                                    c: Controls, d: Controls)
    requires r.selectedAction.TakeNoAction? && c.version == d.version
    ensures EvaluatePolicy(order, risk, r, mode, c) == EvaluatePolicy(order, risk, r, mode, d)
  {}

  lemma TraceVersion(env: Env, t: Tables, request: EvaluationRequest)
    requires Trace(env, t, request).Returned?
    ensures var trace := Trace(env, t, request).value;
            && ContextVersion(t, trace.recommendation.selectedAction) == Returned(trace.policy.controlVersion)
            && Select(Simulate(request.order, env.score(request.order))) == Returned(trace.recommendation)
            && ControlsFor(t, trace.recommendation.selectedAction).Returned?
            && Returned(trace.policy) == EvaluatePolicy(request.order, trace.risk, trace.recommendation, request.mode,
                                                        ControlsFor(t, trace.recommendation.selectedAction).value)
  {}

  // ---------------------------------------------------------------- unattended execution was earned

  /** The state in which a decision for `action` may be granted unattended execution. */
  predicate AutonomyInForce(t: Tables, action: RecoveryAction) {
    && !t.killSwitch.active && action in t.profiles && t.profiles[action].level.BoundedAutonomy?
    && PROMOTION_THRESHOLD <= t.profiles[action].streak
  }

  lemma AutoNeedsAutonomy(env: Env, t: Tables, request: EvaluationRequest)
    requires Reconciliation.Inv(t) && Trace(env, t, request).Returned?
    requires Trace(env, t, request).value.policy.disposition.AutoExecute?
    ensures AutonomyInForce(t, Trace(env, t, request).value.recommendation.selectedAction)
  {
    var trace := Trace(env, t, request).value;
    var action := trace.recommendation.selectedAction;
    TraceVersion(env, t, request);
    ChoiceOverSimulation(request.order, env.score(request.order));
    var controls := ControlsFor(t, action).value;
    if controls.permitted.Returned? {
      AutoExecuteExactly(request.order, trace.risk, trace.recommendation, request.mode, controls);
    }
  }

  /** The moment at which step `i` of a history recorded decision `id`, with autonomy then in force. */
  ghost predicate RecordedUnderAutonomy(env: Env, ops: seq<Op>, id: DecisionId, action: RecoveryAction, i: nat) {
    && i < |ops| && ops[i].OpEvaluate?
    && id !in Run(env, START, ops[..i]).tables.decisions && id in Run(env, START, ops[..i + 1]).tables.decisions
    && AutonomyInForce(Run(env, START, ops[..i]).tables, action)
  }

  lemma OnlyEvaluateDecides(env: Env, w: World, op: Op)
    requires !op.OpEvaluate?
    ensures var u := Apply(env, w, op).tables;
            && u.decisions == w.tables.decisions && u.events == w.tables.events
            && (!op.OpVerify? ==> u.outcomes == w.tables.outcomes)
  {
    match op {
      case OpSubmit(id, actor, now) => SubmitDecisions(env, w, id, actor, now);
      case OpApprove(id, input, now) => ApproveDecisions(env, w, id, input, now);
      case OpReject(id, input, now) => Reconciliation.DecideFrame(w.tables, id, input, RejectedApproval, now, env.strict);
      case OpVerify(id, observation, now) => VerifyFrame(w, id, observation, now);
      case OpKillSwitch(u) => SetKillSwitchFrame(w.tables, u, env.strict);
      case OpProfile(action, u) => SetProfileFrame(w.tables, action, u, env.strict);
      case OpInject(_, _) =>
      case OpClearFailures =>
    }
  }

  lemma CommandDecisions(w: World, d: DecisionTrace, order: OrderContext, actorId: string, approvedBy: Option<string>,
                         approval: Option<ApprovalRecord>, now: Time)
    ensures var u := RunCommand(w, d, order, actorId, approvedBy, approval, now).0.tables;
            u.decisions == w.tables.decisions && u.events == w.tables.events && u.outcomes == w.tables.outcomes
  {
    var command := CommandFor(d, order, actorId, approvedBy);
    if command.Returned? {
      ExecuteFrame(w, command.value, order, now);
      var r := Saga.RunSaga(Seeded(w.sandbox, order), order, command.value.action, command.value.idempotencyKey).1;
      var row := FinishedRow(command.value, r, now);
      RecordExecutionFrame(w.tables.(actions := w.tables.actions + [row]), row);
    }
  }

  lemma SubmitDecisions(env: Env, w: World, id: DecisionId, actorId: string, now: Time)
    ensures var u := Submit(env, w, id, actorId, now).0.tables;
            u.decisions == w.tables.decisions && u.events == w.tables.events && u.outcomes == w.tables.outcomes
  {
    if id in w.tables.decisions {
      var d := w.tables.decisions[id];
      if d.policy.disposition.AutoExecute? {
        var event := Resolve(w.tables.events, d.eventId);
        if event.Some? {
          CommandDecisions(w, d, event.value.request.order, actorId, None, None, now);
        }
      }
    }
  }

  lemma ApproveDecisions(env: Env, w: World, id: ApprovalId, input: ApprovalInput, now: Time)
    ensures var u := ApproveAndExecute(env, w, id, input, now).0.tables;
            u.decisions == w.tables.decisions && u.events == w.tables.events && u.outcomes == w.tables.outcomes
  {
    ApproveFrame(env, w, id, input, now);
    if ApproveAndExecute(env, w, id, input, now).0 != w {
      var d := w.tables.decisions[w.tables.approvals[id].decisionId];
      var order := Resolve(w.tables.events, d.eventId).value.request.order;
      var (tables, decided) := Decide(w.tables, id, input, Approved, now, env.strict);
      Reconciliation.DecideFrame(w.tables, id, input, Approved, now, env.strict);
      if decided.Returned? {
        CommandDecisions(w.(tables := tables), d, order, decided.value.requestedBy, decided.value.decidedBy, Some(decided.value), now);
      }
    }
  }

  lemma NewAutoDecision(env: Env, w: World, op: Op, id: DecisionId)
    requires Reconciliation.Inv(w.tables)
    requires id !in w.tables.decisions && id in Apply(env, w, op).tables.decisions
    requires Apply(env, w, op).tables.decisions[id].policy.disposition.AutoExecute?
    ensures op.OpEvaluate? && AutonomyInForce(w.tables, Apply(env, w, op).tables.decisions[id].recommendation.selectedAction)
  {
    if op.OpEvaluate? {
      EvaluateFrame(env, w.tables, op.request);
      AutoNeedsAutonomy(env, w.tables, op.request);
    } else {
      OnlyEvaluateDecides(env, w, op);
    }
  }

  /** Every AUTO_EXECUTE decision in the ledger was recorded at a moment when the kill switch was off and
      the action's profile held bounded autonomy on at least twenty consecutive verified successes. */
  lemma {:induction false} AutoExecuteWasEarned(env: Env, ops: seq<Op>, id: DecisionId)
    requires id in Run(env, START, ops).tables.decisions
    requires Run(env, START, ops).tables.decisions[id].policy.disposition.AutoExecute?
    ensures exists i :: RecordedUnderAutonomy(env, ops, id, Run(env, START, ops).tables.decisions[id].recommendation.selectedAction, i)
  {
    var n := |ops| - 1;
    assert |ops| > 0;
    var before := ops[..n];
    if id in Run(env, START, before).tables.decisions {
      OldDecisionStays(env, before, ops[n], id);
      AutoExecuteWasEarned(env, before, id);
      var action := Run(env, START, before).tables.decisions[id].recommendation.selectedAction;
      var i :| RecordedUnderAutonomy(env, before, id, action, i);
      StillRecorded(env, ops, n, id, action, i);
    } else {
      RecordedNow(env, ops, id);
    }
  }

  lemma OldDecisionStays(env: Env, before: seq<Op>, op: Op, id: DecisionId)
    requires id in Run(env, START, before).tables.decisions
    ensures var u := Apply(env, Run(env, START, before), op).tables;
            id in u.decisions && u.decisions[id] == Run(env, START, before).tables.decisions[id]
  {
    Authority.RunKeeps(env, START, before);
    Authority.StepKeeps(env, Run(env, START, before), op);
  }

  lemma RecordedNow(env: Env, ops: seq<Op>, id: DecisionId)
    requires |ops| > 0 && id !in Run(env, START, ops[..|ops| - 1]).tables.decisions && id in Run(env, START, ops).tables.decisions
    requires Run(env, START, ops).tables.decisions[id].policy.disposition.AutoExecute?
    ensures RecordedUnderAutonomy(env, ops, id, Run(env, START, ops).tables.decisions[id].recommendation.selectedAction, |ops| - 1)
  {
    var n := |ops| - 1;
    var w := Run(env, START, ops[..n]);
    Reconciliation.RunKeeps(env, ops[..n]);
    assert ops[..n + 1] == ops && Run(env, START, ops) == Apply(env, w, ops[n]);
    NewAutoDecision(env, w, ops[n], id);
  }

  lemma StillRecorded(env: Env, ops: seq<Op>, n: nat, id: DecisionId, action: RecoveryAction, i: nat)
    requires n <= |ops| && RecordedUnderAutonomy(env, ops[..n], id, action, i)
    ensures RecordedUnderAutonomy(env, ops, id, action, i)
  {
    assert ops[..n][..i] == ops[..i] && ops[..n][..i + 1] == ops[..i + 1];
  }
}
