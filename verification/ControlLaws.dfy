/** Who sets the kill switch and the autonomy levels, what they are afterwards, and for how long. */
module ControlLaws {
  import opened Common
  import opened Models
  import opened Store
  import opened Sandbox
  import opened Autonomy
  import opened Evaluation
  import opened Gateway
  import opened Verification
  import opened Workflow
  import opened History
  import opened Frames
  import Approvals
  import Authority
  import ControlHistory
  import Reconciliation
  import Saga

  /** A manager speaks, under a name that may claim the role. */
  predicate Manages(actorId: string, role: UserRole, strict: bool) {
    role.OperationsManager? && MayClaim(actorId, role, strict)
  }

  /** The registered actors hold one role each, whatever the strictness; any other name may claim any role unless
      identity is strict. */
  lemma RolesOfActors(name: string, role: UserRole, strict: bool)
    ensures MayClaim("operations-manager-ui", role, strict) <==> role.OperationsManager?
    ensures MayClaim("operations-analyst-ui", role, strict) <==> role.OperationsAnalyst?
    ensures MayClaim("auditor-ui", role, strict) <==> role.Auditor?
    ensures MayClaim("promiseguard-service", role, strict) <==> role.ServiceIdentity?
    ensures MayClaim("openai-smoke", role, strict) <==> role.ServiceIdentity?
    ensures MayClaim("eval-runner", role, strict) <==> role.ServiceIdentity?
    ensures name !in {"operations-manager-ui", "operations-analyst-ui", "auditor-ui", "promiseguard-service", "openai-smoke", "eval-runner"} ==>
              (MayClaim(name, role, strict) <==> !strict)
  {
    NamesDiffer();
  }

  lemma NamesDiffer()
    ensures "operations-manager-ui" != "operations-analyst-ui" && "operations-manager-ui" != "auditor-ui"
    ensures "operations-manager-ui" != "promiseguard-service" && "operations-manager-ui" != "openai-smoke"
    ensures "operations-manager-ui" != "eval-runner" && "operations-analyst-ui" != "auditor-ui"
    ensures "operations-analyst-ui" != "promiseguard-service" && "operations-analyst-ui" != "openai-smoke"
    ensures "operations-analyst-ui" != "eval-runner" && "auditor-ui" != "promiseguard-service"
    ensures "auditor-ui" != "openai-smoke" && "auditor-ui" != "eval-runner"
    ensures "promiseguard-service" != "openai-smoke" && "promiseguard-service" != "eval-runner" && "openai-smoke" != "eval-runner"
  {
    assert |"operations-manager-ui"| == 21 && |"operations-analyst-ui"| == 21 && |"auditor-ui"| == 10;
    assert |"promiseguard-service"| == 20 && |"openai-smoke"| == 12 && |"eval-runner"| == 11;
    assert "operations-manager-ui"[11] == 'm' && "operations-analyst-ui"[11] == 'a';
  }

  // ---------------------------------------------------------------- the kill switch

  /** The operation sets the kill switch. */
  predicate Switches(op: Op, strict: bool) { op.OpKillSwitch? && Manages(op.switch.actorId, op.switch.role, strict) }

  /** What the last permitted update of the history said; off at the start. */
  function LastSwitch(ops: seq<Op>, strict: bool): bool {
    if ops == [] then false
    else
      var last := ops[|ops| - 1];
      if Switches(last, strict) then last.switch.active else LastSwitch(ops[..|ops| - 1], strict)
  }

  /** An update is refused exactly for a non-manager or an actor who may not claim the role; otherwise the row it
      answers with is the row it stores, saying what the update said. */
  lemma SwitchUpdate(t: Tables, u: KillSwitchUpdate, strict: bool)
    ensures var (v, r) := SetKillSwitch(t, u, strict);
            && (r.Returned? <==> Manages(u.actorId, u.role, strict))
            && (r.Raised? ==> v == t)
            && (r.Returned? ==>
                  v.killSwitch == r.value && v.killSwitch.active == u.active && v.killSwitch.reason == u.reason
                  && v.killSwitch.updatedBy == u.actorId && v.killSwitch.version == t.killSwitch.version + 1)
  {}

  lemma CommandKeepsSwitch(w: World, d: DecisionTrace, order: OrderContext, actorId: string, approvedBy: Option<string>,
                           approval: Option<ApprovalRecord>, now: Time)
    ensures RunCommand(w, d, order, actorId, approvedBy, approval, now).0.tables.killSwitch == w.tables.killSwitch
  {
    CommandWorld(w, d, order, actorId, approvedBy, approval, now);
    var command := CommandFor(d, order, actorId, approvedBy);
    if command.Returned? {
      ExecuteFrame(w, command.value, order, now);
      var r := Saga.RunSaga(Seeded(w.sandbox, order), order, command.value.action, command.value.idempotencyKey).1;
      var row := FinishedRow(command.value, r, now);
      RecordExecutionFrame(w.tables.(actions := w.tables.actions + [row]), row);
    }
  }

  lemma SubmitKeepsSwitch(env: Env, w: World, id: DecisionId, actorId: string, now: Time)
    ensures Submit(env, w, id, actorId, now).0.tables.killSwitch == w.tables.killSwitch
  {
    if id in w.tables.decisions {
      var d := w.tables.decisions[id];
      if d.policy.disposition.AutoExecute? && Resolve(w.tables.events, d.eventId).Some? {
        CommandKeepsSwitch(w, d, Resolve(w.tables.events, d.eventId).value.request.order, actorId, None, None, now);
      }
    }
  }

  lemma ApproveKeepsSwitch(env: Env, w: World, id: ApprovalId, input: ApprovalInput, now: Time)
    ensures ApproveAndExecute(env, w, id, input, now).0.tables.killSwitch == w.tables.killSwitch
  {
    ApproveFrame(env, w, id, input, now);
    if ApproveAndExecute(env, w, id, input, now).0 != w {
      var d := w.tables.decisions[w.tables.approvals[id].decisionId];
      var order := Resolve(w.tables.events, d.eventId).value.request.order;
      var (tables, decided) := Approvals.Decide(w.tables, id, input, Approved, now, env.strict);
      Reconciliation.DecideFrame(w.tables, id, input, Approved, now, env.strict);
      if decided.Returned? {
        CommandKeepsSwitch(w.(tables := tables), d, order, decided.value.requestedBy, decided.value.decidedBy, Some(decided.value), now);
      }
    }
  }

  /** Nothing but a permitted update touches the switch. */
  lemma StepKeepsSwitch(env: Env, w: World, op: Op)
    ensures var u := Apply(env, w, op).tables;
            if Switches(op, env.strict) then u.killSwitch.active == op.switch.active else u.killSwitch == w.tables.killSwitch
  {
    match op {
      case OpEvaluate(request) => EvaluateFrame(env, w.tables, request);
      case OpSubmit(id, actor, now) => SubmitKeepsSwitch(env, w, id, actor, now);
      case OpApprove(id, input, now) => ApproveKeepsSwitch(env, w, id, input, now);
      case OpReject(id, input, now) => Reconciliation.DecideFrame(w.tables, id, input, RejectedApproval, now, env.strict);
      case OpVerify(id, observation, now) => VerifyFrame(w, id, observation, now);
      case OpKillSwitch(u) => SwitchUpdate(w.tables, u, env.strict);
      case OpProfile(action, u) => SetProfileFrame(w.tables, action, u, env.strict);
      case _ =>
    }
  }

  /** The switch obeys its managers: after any history it stands exactly where the last permitted update put it. */
  lemma {:induction false} SwitchIsLastUpdate(env: Env, ops: seq<Op>)
    ensures Run(env, START, ops).tables.killSwitch.active == LastSwitch(ops, env.strict)
  {
    if ops == [] {
    } else {
      SwitchIsLastUpdate(env, ops[..|ops| - 1]);
      StepKeepsSwitch(env, Run(env, START, ops[..|ops| - 1]), ops[|ops| - 1]);
    }
  }

  predicate NoneSwitches(ops: seq<Op>, strict: bool) { forall i :: 0 <= i < |ops| ==> !Switches(ops[i], strict) }

  lemma {:induction false} UntouchedSwitch(env: Env, w: World, ops: seq<Op>)
    requires NoneSwitches(ops, env.strict)
    ensures Run(env, w, ops).tables.killSwitch == w.tables.killSwitch
  {
    if ops == [] {
    } else {
      UntouchedSwitch(env, w, ops[..|ops| - 1]);
      StepKeepsSwitch(env, Run(env, w, ops[..|ops| - 1]), ops[|ops| - 1]);
    }
  }

  lemma {:induction false} NothingRunsWhileOn(env: Env, w: World, ops: seq<Op>)
    requires Authority.Inv(w.tables) && w.tables.killSwitch.active && NoneSwitches(ops, env.strict)
    ensures Run(env, w, ops).tables.actions == w.tables.actions
  {
    if ops == [] {
    } else {
      var before := ops[..|ops| - 1];
      NothingRunsWhileOn(env, w, before);
      UntouchedSwitch(env, w, before);
      Authority.RunKeeps(env, w, before);
      Authority.StepKeeps(env, Run(env, w, before), ops[|ops| - 1]);
    }
  }

  /** The emergency stop: after a manager turns the switch on, it stays on and no action row is added by any
      continuation in which no manager sets it again. */
  lemma EmergencyStop(env: Env, ops: seq<Op>, u: KillSwitchUpdate, more: seq<Op>)
    requires Manages(u.actorId, u.role, env.strict) && u.active && NoneSwitches(more, env.strict)
    ensures var stopped := Run(env, START, ops + [OpKillSwitch(u)]); var later := Run(env, stopped, more);
            && stopped.tables.killSwitch.active && later.tables.killSwitch == stopped.tables.killSwitch
            && later.tables.actions == Run(env, START, ops).tables.actions
  {
    RunSnoc(env, START, ops, OpKillSwitch(u));
    StepKeepsSwitch(env, Run(env, START, ops), OpKillSwitch(u));
    Authority.RunKeeps(env, START, ops + [OpKillSwitch(u)]);
    var stopped := Run(env, START, ops + [OpKillSwitch(u)]);
    SetKillSwitchFrame(Run(env, START, ops).tables, u, env.strict);
    UntouchedSwitch(env, stopped, more);
    NothingRunsWhileOn(env, stopped, more);
  }

  // ---------------------------------------------------------------- autonomy levels

  /** The update of an autonomy profile is one the controller grants: by a manager, for an executable action, and to
      bounded autonomy only on a streak of at least twenty verified successes. */
  predicate MaySet(t: Tables, action: RecoveryAction, u: ProfileUpdate, strict: bool) {
    && Manages(u.actorId, u.role, strict) && Executable(action) && action in t.profiles
    && (u.level.BoundedAutonomy? ==> 20 <= t.profiles[action].streak)
  }

  lemma ProfileUpdated(t: Tables, action: RecoveryAction, u: ProfileUpdate, strict: bool)
    ensures var (v, r) := SetProfile(t, action, u, strict);
            && (r.Returned? <==> MaySet(t, action, u, strict))
            && (r.Raised? ==> v == t)
            && (r.Returned? ==>
                  v.profiles == t.profiles[action := r.value] && r.value.level == u.level && r.value.reason == u.reason
                  && r.value.updatedBy == u.actorId && r.value.version == t.profiles[action].version + 1)
  {}

  /** What one piece of evidence does to a level: a failure suspends bounded autonomy, and nothing else moves. */
  predicate LevelAfterEvidence(p: Profile, q: Profile) {
    && (q.level != p.level ==> p.level.BoundedAutonomy? && q.level.Suspended? && q.failures == p.failures + 1)
    && (p.level.BoundedAutonomy? && q.failures != p.failures ==> q.level.Suspended?)
  }

  predicate OnlyEvidence(t: Tables, u: Tables) {
    forall a :: a in t.profiles ==> a in u.profiles && LevelAfterEvidence(t.profiles[a], u.profiles[a])
  }

  lemma EvidenceMovesLevel(t: Tables, id: EvidenceId, action: RecoveryAction, successful: bool, compensated: bool)
    ensures OnlyEvidence(t, RecordEvidence(t, id, action, successful, compensated).0)
  {}

  lemma PersistMovesLevel(t: Tables, o: OutcomeVerification, action: RecoveryAction)
    ensures OnlyEvidence(t, Persist(t, o, action).0)
  {
    EvidenceMovesLevel(t.(outcomes := RecordOutcomeRow(t.outcomes, o).0), OutcomeEvidence(o.outcomeId), action, o.status.Verified?, false);
  }

  lemma CommandMovesLevel(w: World, d: DecisionTrace, order: OrderContext, actorId: string, approvedBy: Option<string>,
                          approval: Option<ApprovalRecord>, now: Time)
    ensures OnlyEvidence(w.tables, RunCommand(w, d, order, actorId, approvedBy, approval, now).0.tables)
  {
    CommandWorld(w, d, order, actorId, approvedBy, approval, now);
    var command := CommandFor(d, order, actorId, approvedBy);
    if command.Returned? {
      ExecuteFrame(w, command.value, order, now);
      var r := Saga.RunSaga(Seeded(w.sandbox, order), order, command.value.action, command.value.idempotencyKey).1;
      var row := FinishedRow(command.value, r, now);
      EvidenceMovesLevel(w.tables.(actions := w.tables.actions + [row]), ExecutionEvidence(row.actionId), row.command.action,
                         false, row.status.Compensated?);
    }
  }

  lemma SubmitMovesLevel(env: Env, w: World, id: DecisionId, actorId: string, now: Time)
    ensures OnlyEvidence(w.tables, Submit(env, w, id, actorId, now).0.tables)
  {
    if id in w.tables.decisions {
      var d := w.tables.decisions[id];
      if d.policy.disposition.AutoExecute? && Resolve(w.tables.events, d.eventId).Some? {
        CommandMovesLevel(w, d, Resolve(w.tables.events, d.eventId).value.request.order, actorId, None, None, now);
      }
    }
  }

  lemma ApproveMovesLevel(env: Env, w: World, id: ApprovalId, input: ApprovalInput, now: Time)
    ensures OnlyEvidence(w.tables, ApproveAndExecute(env, w, id, input, now).0.tables)
  {
    ApproveFrame(env, w, id, input, now);
    if ApproveAndExecute(env, w, id, input, now).0 != w {
      var d := w.tables.decisions[w.tables.approvals[id].decisionId];
      var order := Resolve(w.tables.events, d.eventId).value.request.order;
      var (tables, decided) := Approvals.Decide(w.tables, id, input, Approved, now, env.strict);
      Reconciliation.DecideFrame(w.tables, id, input, Approved, now, env.strict);
      if decided.Returned? {
        CommandMovesLevel(w.(tables := tables), d, order, decided.value.requestedBy, decided.value.decidedBy, Some(decided.value), now);
      }
    }
  }

  lemma VerifyMovesLevel(w: World, id: DecisionId, observation: Option<DeliveryObservation>, now: Time)
    ensures OnlyEvidence(w.tables, Verify(w, id, observation, now).0.tables)
  {
    if id in w.tables.decisions {
      var d := w.tables.decisions[id];
      var e := ActionFor(w.tables.actions, id);
      var event := Resolve(w.tables.events, d.eventId);
      if e.Some? && event.Some? {
        var order := event.value.request.order;
        var selected := FirstWithAction(d.recommendation.ranked, e.value.command.action);
        if selected.Some? {
          PersistMovesLevel(w.tables, OutcomeOf(Inspected(w.sandbox, order, e.value, observation), d, e.value, order, observation,
                                                selected.value, now), e.value.command.action);
        }
      }
    }
  }

  /** The operation sets the level of `action`. */
  predicate SetsLevel(t: Tables, op: Op, action: RecoveryAction, strict: bool) {
    op.OpProfile? && op.action == action && MaySet(t, action, op.update, strict)
  }

  /** Levels, exactly: after any history and for any further operation, a granted update gives its action the level
      it names; any other operation leaves every level where it is, except that a failure suspends bounded
      autonomy, always and at once. */
  lemma LevelsMoveExactly(env: Env, ops: seq<Op>, op: Op, a: RecoveryAction)
    requires Executable(a)
    ensures var t, u := Run(env, START, ops).tables, Apply(env, Run(env, START, ops), op).tables;
            && a in t.profiles && a in u.profiles
            && if SetsLevel(t, op, a, env.strict) then u.profiles[a].level == op.update.level
               else LevelAfterEvidence(t.profiles[a], u.profiles[a])
  {
    Reconciliation.RunKeeps(env, ops);
    StepMovesLevels(env, Run(env, START, ops), op, a);
  }

  lemma StepMovesLevels(env: Env, w: World, op: Op, a: RecoveryAction)
    requires a in w.tables.profiles
    ensures var t, u := w.tables, Apply(env, w, op).tables;
            && a in u.profiles
            && if SetsLevel(t, op, a, env.strict) then u.profiles[a].level == op.update.level
               else LevelAfterEvidence(t.profiles[a], u.profiles[a])
  {
    match op {
      case OpEvaluate(request) => EvaluateFrame(env, w.tables, request);
      case OpSubmit(id, actor, now) => SubmitMovesLevel(env, w, id, actor, now);
      case OpApprove(id, input, now) => ApproveMovesLevel(env, w, id, input, now);
      case OpReject(id, input, now) => Reconciliation.DecideFrame(w.tables, id, input, RejectedApproval, now, env.strict);
      case OpVerify(id, observation, now) => VerifyMovesLevel(w, id, observation, now);
      case OpKillSwitch(u) => SetKillSwitchFrame(w.tables, u, env.strict);
      case OpProfile(action, u) => ProfileUpdated(w.tables, action, u, env.strict);
      case _ =>
    }
  }
}
