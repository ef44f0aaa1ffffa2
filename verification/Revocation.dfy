/** What withdrawing autonomy, deciding an approval and restricting an order mean for later writes. */
module Revocation {
  import opened Common
  import opened Models
  import opened Store
  import opened Sandbox
  import opened Autonomy
  import opened Approvals
  import opened Evaluation
  import opened Gateway
  import opened Workflow
  import opened History
  import opened Frames
  import opened Authority
  import opened SandboxHistory
  import ControlHistory
  import Reconciliation
  import Replay

  // ---------------------------------------------------------------- unattended writes at submission

  /** The event of every decision in the ledger is stored. */
  lemma DecidedEventIsStored(env: Env, ops: seq<Op>, id: DecisionId)
    requires id in Run(env, START, ops).tables.decisions
    ensures OrderOf(Run(env, START, ops).tables, id).Some?
  {
    var t := Run(env, START, ops).tables;
    Replay.RunKeeps(env, ops);
    var i := Replay.Origin(env, t, id);
    assert SameEvent(t.events[i], t.events[i].request.event);
    assert t.events[i].eventId == t.decisions[id].eventId;
  }

  lemma RecordedIsExecutable(env: Env, ops: seq<Op>, id: DecisionId, action: RecoveryAction, i: nat)
    requires ControlHistory.RecordedUnderAutonomy(env, ops, id, action, i)
    ensures Executable(action)
  {
    ProfiledIsExecutable(env, ops[..i], action);
  }

  /** An AUTO_EXECUTE decision is about an executable action. */
  lemma AutoActionIsExecutable(env: Env, ops: seq<Op>, id: DecisionId)
    requires id in Run(env, START, ops).tables.decisions
    requires Run(env, START, ops).tables.decisions[id].policy.disposition.AutoExecute?
    ensures Executable(Run(env, START, ops).tables.decisions[id].recommendation.selectedAction)
  {
    ControlHistory.AutoExecuteWasEarned(env, ops, id);
    var action := Run(env, START, ops).tables.decisions[id].recommendation.selectedAction;
    var i :| ControlHistory.RecordedUnderAutonomy(env, ops, id, action, i);
    RecordedIsExecutable(env, ops, id, action, i);
  }

  lemma ProfiledIsExecutable(env: Env, ops: seq<Op>, action: RecoveryAction)
    requires action in Run(env, START, ops).tables.profiles
    ensures Executable(action)
  {
    Reconciliation.RunKeeps(env, ops);
  }

  lemma ProfilesAreComplete(env: Env, ops: seq<Op>, action: RecoveryAction)
    requires Executable(action)
    ensures action in Run(env, START, ops).tables.profiles
  {
    Reconciliation.RunKeeps(env, ops);
  }

  lemma RowKey(t: Tables, i: nat)
    requires Authority.Inv(t) && i < |t.actions|
    ensures t.actions[i].actionId.key.decisionId == t.actions[i].command.decisionId
  {
    assert RowOk(t, t.actions[i]);
    assert DecisionOk(t.actions[i].command.decisionId, t.decisions[t.actions[i].command.decisionId]);
  }

  /** A decision without a row has no action under its idempotency key either. */
  lemma KeyIsFree(t: Tables, id: DecisionId)
    requires Authority.Inv(t) && id in t.decisions && ActionFor(t.actions, id).None?
    ensures FindAction(t.actions, ActionId(KeyOf(t.decisions[id]))) == -1
  {
    assert DecisionOk(id, t.decisions[id]);
    var i := FindAction(t.actions, ActionId(KeyOf(t.decisions[id])));
    if 0 <= i {
      RowKey(t, i);
    }
  }

  /** The row table after a submission: one more row for the decision, or the same rows. */
  predicate AppendsFor(before: seq<ActionExecution>, after: seq<ActionExecution>, id: DecisionId) {
    |after| == |before| + 1 && before <= after && after[|before|].command.decisionId == id
  }

  lemma FreeCommandAppends(w: World, command: ActionCommand, order: OrderContext, now: Time)
    requires ActionFor(w.tables.actions, command.decisionId).None?
    requires FindAction(w.tables.actions, ActionId(command.idempotencyKey)) == -1
    ensures var after := Execute(w, command, order, now).0.tables.actions;
            if w.tables.killSwitch.active then after == w.tables.actions else AppendsFor(w.tables.actions, after, command.decisionId)
  {
    if !w.tables.killSwitch.active {
      var r := Saga.RunSaga(Seeded(w.sandbox, order), order, command.action, command.idempotencyKey).1;
      RecordExecutionFrame(w.tables.(actions := w.tables.actions + [FinishedRow(command, r, now)]), FinishedRow(command, r, now));
    }
  }

  lemma AutoSubmitRuns(env: Env, w: World, id: DecisionId, actorId: string, now: Time)
    requires Authority.Inv(w.tables) && id in w.tables.decisions && w.tables.decisions[id].policy.disposition.AutoExecute?
    requires Executable(w.tables.decisions[id].recommendation.selectedAction)
    requires OrderOf(w.tables, id).Some? && ActionFor(w.tables.actions, id).None?
    ensures var after := Submit(env, w, id, actorId, now).0.tables.actions;
            if w.tables.killSwitch.active then after == w.tables.actions else AppendsFor(w.tables.actions, after, id)
  {
    var d, order := w.tables.decisions[id], OrderOf(w.tables, id).value;
    assert DecisionOk(id, d);
    KeyIsFree(w.tables, id);
    var command := CommandFor(d, order, actorId, None);
    assert command.Returned? && command.value.idempotencyKey == KeyOf(d) && command.value.decisionId == id;
    FreeCommandAppends(w, command.value, order, now);
    CommandWorld(w, d, order, actorId, None, None, now);
    assert Submit(env, w, id, actorId, now).0 == RunCommand(w, d, order, actorId, None, None, now).0;
  }

  /** An unattended write would be within the authority its profile holds now. */
  predicate LevelHolds(t: Tables, action: RecoveryAction) { action in t.profiles && t.profiles[action].level.BoundedAutonomy? }

  /** Unattended writes, exactly: in every reachable state, submitting an AUTO_EXECUTE decision that has no row
      yet appends its row if and only if the kill switch is off, whatever the profile's level has become. So the
      submission respects the present level if and only if the switch is on or the profile still holds bounded
      autonomy. */
  lemma AutoSubmitExactly(env: Env, ops: seq<Op>, id: DecisionId, actorId: string, now: Time)
    requires var t := Run(env, START, ops).tables;
             id in t.decisions && t.decisions[id].policy.disposition.AutoExecute? && ActionFor(t.actions, id).None?
    ensures var w := Run(env, START, ops); var t, after := w.tables, Submit(env, w, id, actorId, now).0.tables.actions;
            && (if t.killSwitch.active then after == t.actions else AppendsFor(t.actions, after, id))
            && ((after != t.actions ==> LevelHolds(t, t.decisions[id].recommendation.selectedAction))
                <==> t.killSwitch.active || LevelHolds(t, t.decisions[id].recommendation.selectedAction))
  {
    Authority.RunKeeps(env, START, ops);
    AutoActionIsExecutable(env, ops, id);
    DecidedEventIsStored(env, ops, id);
    AutoSubmitRuns(env, Run(env, START, ops), id, actorId, now);
  }

  /** Withdrawing autonomy does not stop a decision already granted: after any history that holds an AUTO_EXECUTE
      decision without a row and with the switch off, a manager suspends the action's profile, and the decision,
      submitted then, still writes. */
  lemma RevokedDecisionStillWrites(env: Env, ops: seq<Op>, id: DecisionId, u: ProfileUpdate, actorId: string, now: Time)
    requires var t := Run(env, START, ops).tables;
             id in t.decisions && t.decisions[id].policy.disposition.AutoExecute? && ActionFor(t.actions, id).None?
             && !t.killSwitch.active
    requires u.level.Suspended? && u.role.OperationsManager? && MayClaim(u.actorId, u.role, env.strict)
    ensures var action := Run(env, START, ops).tables.decisions[id].recommendation.selectedAction;
            var w := Run(env, START, ops + [OpProfile(action, u)]);
            && action in w.tables.profiles && w.tables.profiles[action].level.Suspended?
            && AppendsFor(w.tables.actions, Submit(env, w, id, actorId, now).0.tables.actions, id)
  {
    var t := Run(env, START, ops).tables;
    var action := t.decisions[id].recommendation.selectedAction;
    AutoActionIsExecutable(env, ops, id);
    ProfilesAreComplete(env, ops, action);
    RunSnoc(env, START, ops, OpProfile(action, u));
    SetProfileFrame(t, action, u, env.strict);
    AutoSubmitExactly(env, ops + [OpProfile(action, u)], id, actorId, now);
  }

  // ---------------------------------------------------------------- decided approvals without a row

  predicate NoRowFor(actions: seq<ActionExecution>, id: DecisionId) {
    forall i :: 0 <= i < |actions| ==> actions[i].command.decisionId != id
  }

  /** The approval has left PENDING and its decision was never executed. */
  predicate Spent(t: Tables, id: ApprovalId) {
    id in t.approvals && !t.approvals[id].status.PendingApproval? && NoRowFor(t.actions, id.decisionId)
  }

  lemma SpentSubmit(env: Env, w: World, id: ApprovalId, actorId: string, now: Time)
    requires Authority.Inv(w.tables) && Spent(w.tables, id)
    ensures Submit(env, w, id.decisionId, actorId, now).0.tables.actions == w.tables.actions
  {
    assert ApprovalOk(w.tables.decisions, id, w.tables.approvals[id]);
    assert w.tables.decisions[id.decisionId].policy.disposition.RequestApproval?;
  }

  lemma SpentApprove(env: Env, w: World, id: ApprovalId, other: ApprovalId, input: ApprovalInput, now: Time)
    requires Authority.Inv(w.tables) && Spent(w.tables, id) && other.decisionId == id.decisionId
    ensures ApproveAndExecute(env, w, other, input, now).0 == w
  {
    ApproveFrame(env, w, other, input, now);
    if other in w.tables.approvals {
      assert ApprovalOk(w.tables.decisions, id, w.tables.approvals[id]);
      assert ApprovalOk(w.tables.decisions, other, w.tables.approvals[other]);
      assert other == id;
    }
  }

  lemma SpentCannotRun(env: Env, w: World, op: Op, id: ApprovalId)
    requires Authority.Inv(w.tables) && Spent(w.tables, id) && Target(op) == Some(id.decisionId)
    ensures Apply(env, w, op).tables.actions == w.tables.actions
  {
    if op.OpSubmit? {
      SpentSubmit(env, w, id, op.actorId, op.now);
    } else {
      SpentApprove(env, w, id, op.approvalId, op.input, op.now);
    }
  }

  lemma StillNoRow(before: seq<ActionExecution>, after: seq<ActionExecution>, id: DecisionId)
    requires NoRowFor(before, id) && before <= after
    requires |after| == |before| + 1 && after[|before|].command.decisionId != id
    ensures NoRowFor(after, id)
  {
    assert forall i :: 0 <= i < |before| ==> after[i] == before[i];
  }

  lemma StaysSpent(t: Tables, u: Tables, op: Op, id: ApprovalId)
    requires StepEffect(t, u, op) && Spent(t, id) && (Target(op) == Some(id.decisionId) ==> u.actions == t.actions)
    ensures Spent(u, id)
  {
    if u.actions != t.actions {
      StillNoRow(t.actions, u.actions, id.decisionId);
    }
  }

  lemma SpentStep(env: Env, w: World, op: Op, id: ApprovalId)
    requires Authority.Inv(w.tables) && Spent(w.tables, id)
    ensures Spent(Apply(env, w, op).tables, id)
  {
    Authority.StepKeeps(env, w, op);
    if Target(op) == Some(id.decisionId) {
      SpentCannotRun(env, w, op, id);
    }
    StaysSpent(w.tables, Apply(env, w, op).tables, op, id);
  }

  /** An approval that was decided, or expired, without its action having run will never be used: no later
      history executes its decision. */
  lemma {:induction false} SpentApprovalNeverRuns(env: Env, w: World, more: seq<Op>, id: ApprovalId)
    requires Authority.Inv(w.tables) && Spent(w.tables, id)
    ensures Spent(Run(env, w, more).tables, id)
  {
    if more == [] {
    } else {
      var before := more[..|more| - 1];
      SpentApprovalNeverRuns(env, w, before, id);
      Authority.RunKeeps(env, w, before);
      SpentStep(env, Run(env, w, before), more[|more| - 1], id);
    }
  }

  lemma PendingHasNoRow(t: Tables, id: ApprovalId)
    requires Authority.Inv(t) && id in t.approvals && t.approvals[id].status.PendingApproval?
    ensures NoRowFor(t.actions, id.decisionId)
  {
    assert ApprovalOk(t.decisions, id, t.approvals[id]);
    forall i | 0 <= i < |t.actions| ensures t.actions[i].command.decisionId != id.decisionId {
      assert RowOk(t, t.actions[i]);
    }
  }

  /** The approval was granted by this step. */
  predicate Granted(t: Tables, u: Tables, id: ApprovalId) {
    && id in t.approvals && t.approvals[id].status.PendingApproval?
    && id in u.approvals && u.approvals[id].status.Approved?
  }

  lemma GrantUnderSwitch(env: Env, w: World, id: ApprovalId, input: ApprovalInput, now: Time)
    requires w.tables.killSwitch.active
    ensures ApproveAndExecute(env, w, id, input, now).0.tables.actions == w.tables.actions
  {
    ApproveFrame(env, w, id, input, now);
    if ApproveAndExecute(env, w, id, input, now).0 != w {
      var d := w.tables.decisions[w.tables.approvals[id].decisionId];
      var order := Resolve(w.tables.events, d.eventId).value.request.order;
      var (tables, decided) := Approvals.Decide(w.tables, id, input, Approved, now, env.strict);
      Reconciliation.DecideFrame(w.tables, id, input, Approved, now, env.strict);
      if decided.Returned? {
        CommandWorld(w.(tables := tables), d, order, decided.value.requestedBy, decided.value.decidedBy, Some(decided.value), now);
      }
    }
  }

  /** An approval granted while the kill switch is on is used up: it becomes APPROVED, no row appears, and no
      later history, the switch off again or not, ever executes its decision. */
  lemma GrantUnderSwitchIsLost(env: Env, ops: seq<Op>, id: ApprovalId, input: ApprovalInput, now: Time, more: seq<Op>)
    requires var w := Run(env, START, ops); var u := ApproveAndExecute(env, w, id, input, now).0.tables;
             w.tables.killSwitch.active && Granted(w.tables, u, id)
    ensures var w := Run(env, START, ops); var later := Run(env, ApproveAndExecute(env, w, id, input, now).0, more).tables;
            id in later.approvals && later.approvals[id].status.Approved? && NoRowFor(later.actions, id.decisionId)
  {
    Authority.RunKeeps(env, START, ops);
    GrantIsLost(env, Run(env, START, ops), id, input, now, more);
  }

  lemma GrantIsSpent(env: Env, w: World, id: ApprovalId, input: ApprovalInput, now: Time)
    requires Authority.Inv(w.tables) && w.tables.killSwitch.active
    requires Granted(w.tables, ApproveAndExecute(env, w, id, input, now).0.tables, id)
    ensures var u := ApproveAndExecute(env, w, id, input, now).0.tables; Authority.Inv(u) && Spent(u, id)
  {
    Authority.ApproveKeeps(env, w, id, input, now);
    GrantUnderSwitch(env, w, id, input, now);
    PendingHasNoRow(w.tables, id);
  }

  lemma GrantIsLost(env: Env, w: World, id: ApprovalId, input: ApprovalInput, now: Time, more: seq<Op>)
    requires Authority.Inv(w.tables) && w.tables.killSwitch.active
    requires Granted(w.tables, ApproveAndExecute(env, w, id, input, now).0.tables, id)
    ensures var later := Run(env, ApproveAndExecute(env, w, id, input, now).0, more).tables;
            id in later.approvals && later.approvals[id].status.Approved? && NoRowFor(later.actions, id.decisionId)
  {
    var after := ApproveAndExecute(env, w, id, input, now).0;
    GrantIsSpent(env, w, id, input, now);
    SpentApprovalNeverRuns(env, after, more, id);
    Authority.RunKeeps(env, after, more);
  }

  // ---------------------------------------------------------------- restricted orders

  /** Approvals given by analysts are for orders that are not restricted. */
  predicate AnalystOk(t: Tables, id: ApprovalId, a: ApprovalRecord) {
    a.status.Approved? && a.decidedByRole == Some(OperationsAnalyst) ==>
      OrderOf(t, id.decisionId).Some? && !OrderOf(t, id.decisionId).value.restricted
  }

  predicate AnalystsOk(t: Tables) { forall id :: id in t.approvals ==> AnalystOk(t, id, t.approvals[id]) }

  lemma EvaluateKeepsAnalysts(env: Env, t: Tables, request: EvaluationRequest)
    requires AnalystsOk(t) && StableOrders(Evaluate(env, t, request).0.events)
    ensures AnalystsOk(Evaluate(env, t, request).0)
  {
    var u := Evaluate(env, t, request).0;
    EvaluateFrame(env, t, request);
    forall id | id in u.approvals ensures AnalystOk(u, id, u.approvals[id]) {
      if OrderOf(t, id.decisionId).Some? {
        OrderStable(t, u, id.decisionId);
      }
    }
  }

  /** One approval changes, on the same events and decisions. */
  lemma ApprovalKeepsAnalysts(t: Tables, u: Tables, id: ApprovalId)
    requires AnalystsOk(t) && u.events == t.events && u.decisions == t.decisions && id in u.approvals
    requires u.approvals == t.approvals[id := u.approvals[id]] && AnalystOk(t, id, u.approvals[id])
    ensures AnalystsOk(u)
  {}

  lemma SameApprovalsKeep(t: Tables, u: Tables)
    requires AnalystsOk(t) && u.events == t.events && u.decisions == t.decisions && u.approvals == t.approvals
    ensures AnalystsOk(u)
  {}

  lemma DecideKeepsAnalysts(t: Tables, id: ApprovalId, input: ApprovalInput, target: ApprovalStatus, now: Time, strict: bool)
    requires AnalystsOk(t)
    requires target.Approved? && input.role.OperationsAnalyst? ==> OrderOf(t, id.decisionId).Some? && !OrderOf(t, id.decisionId).value.restricted
    ensures AnalystsOk(Approvals.Decide(t, id, input, target, now, strict).0)
  {
    var u := Approvals.Decide(t, id, input, target, now, strict).0;
    if u != t {
      ApprovalKeepsAnalysts(t, u, id);
    }
  }

  lemma CommandApprovals(w: World, d: DecisionTrace, order: OrderContext, actorId: string, approvedBy: Option<string>,
                         approval: Option<ApprovalRecord>, now: Time)
    ensures var u := RunCommand(w, d, order, actorId, approvedBy, approval, now).0.tables;
            u.approvals == w.tables.approvals && u.events == w.tables.events && u.decisions == w.tables.decisions
  {
    var command := CommandFor(d, order, actorId, approvedBy);
    if command.Returned? {
      ExecuteFrame(w, command.value, order, now);
      var r := Saga.RunSaga(Seeded(w.sandbox, order), order, command.value.action, command.value.idempotencyKey).1;
      var row := FinishedRow(command.value, r, now);
      RecordExecutionFrame(w.tables.(actions := w.tables.actions + [row]), row);
    }
    CommandWorld(w, d, order, actorId, approvedBy, approval, now);
  }

  lemma ApproveKeepsAnalysts(env: Env, w: World, id: ApprovalId, input: ApprovalInput, now: Time)
    requires AnalystsOk(w.tables) && Authority.Inv(w.tables)
    ensures AnalystsOk(ApproveAndExecute(env, w, id, input, now).0.tables)
  {
    var after := ApproveAndExecute(env, w, id, input, now).0;
    ApproveFrame(env, w, id, input, now);
    if after != w {
      assert ApprovalOk(w.tables.decisions, id, w.tables.approvals[id]);
      var d := w.tables.decisions[id.decisionId];
      var order := Resolve(w.tables.events, d.eventId).value.request.order;
      assert OrderOf(w.tables, id.decisionId) == Some(order);
      AnalystRefused(input.role, d, order);
      DecideKeepsAnalysts(w.tables, id, input, Approved, now, env.strict);
      var (tables, decided) := Approvals.Decide(w.tables, id, input, Approved, now, env.strict);
      if decided.Returned? {
        CommandApprovals(w.(tables := tables), d, order, decided.value.requestedBy, decided.value.decidedBy, Some(decided.value), now);
        SameApprovalsKeep(tables, after.tables);
      }
    }
  }

  lemma AnalystRefused(role: UserRole, d: DecisionTrace, order: OrderContext)
    ensures AuthorityError(role, d, order).None? && role.OperationsAnalyst? ==> !order.restricted
  {}

  lemma SubmitKeepsAnalysts(env: Env, w: World, id: DecisionId, actorId: string, now: Time)
    requires AnalystsOk(w.tables)
    ensures AnalystsOk(Submit(env, w, id, actorId, now).0.tables)
  {
    if id in w.tables.decisions {
      var d := w.tables.decisions[id];
      match d.policy.disposition {
        case AutoExecute =>
          var event := Resolve(w.tables.events, d.eventId);
          if event.Some? {
            CommandApprovals(w, d, event.value.request.order, actorId, None, None, now);
            SameApprovalsKeep(w.tables, Submit(env, w, id, actorId, now).0.tables);
          }
        case RequestApproval =>
          var u := Approvals.RequestApprovalRecord(w.tables, d, actorId, now, env.ttl).0;
          if u != w.tables {
            ApprovalKeepsAnalysts(w.tables, u, ApprovalId(d.decisionId, d.recommendation.selectedAction, d.policy.policyVersion));
          }
        case _ =>
      }
    }
  }

  lemma OthersKeepAnalysts(env: Env, w: World, op: Op)
    requires AnalystsOk(w.tables) && (op.OpVerify? || op.OpKillSwitch? || op.OpProfile? || op.OpInject? || op.OpClearFailures?)
    ensures AnalystsOk(Apply(env, w, op).tables)
  {
    match op {
      case OpVerify(id, observation, now) => VerifyFrame(w, id, observation, now);
      case OpKillSwitch(u) => SetKillSwitchFrame(w.tables, u, env.strict);
      case OpProfile(action, u) => SetProfileFrame(w.tables, action, u, env.strict);
      case _ =>
    }
    SameApprovalsKeep(w.tables, Apply(env, w, op).tables);
  }

  lemma StepKeepsAnalysts(env: Env, w: World, op: Op)
    requires AnalystsOk(w.tables) && Authority.Inv(w.tables) && StableOrders(Apply(env, w, op).tables.events)
    ensures AnalystsOk(Apply(env, w, op).tables)
  {
    match op {
      case OpEvaluate(request) => EvaluateKeepsAnalysts(env, w.tables, request);
      case OpSubmit(id, actor, now) => SubmitKeepsAnalysts(env, w, id, actor, now);
      case OpApprove(id, input, now) => ApproveKeepsAnalysts(env, w, id, input, now);
      case OpReject(id, input, now) => DecideKeepsAnalysts(w.tables, id, input, RejectedApproval, now, env.strict);
      case _ => OthersKeepAnalysts(env, w, op);
    }
  }

  lemma {:induction false} RunKeepsAnalysts(env: Env, ops: seq<Op>)
    requires StableOrders(Run(env, START, ops).tables.events)
    ensures AnalystsOk(Run(env, START, ops).tables)
  {
    if ops == [] {
    } else {
      var before, op := ops[..|ops| - 1], ops[|ops| - 1];
      var w := Run(env, START, before);
      Replay.StepGrows(env, w, op);
      StablePrefix(w.tables.events, Run(env, START, ops).tables.events);
      RunKeepsAnalysts(env, before);
      Authority.RunKeeps(env, START, before);
      StepKeepsAnalysts(env, w, op);
    }
  }

  /** An analyst never authorises a write on a restricted order: in every reachable state whose event ids keep one
      order each, a row that rests on an analyst's approval is for an order that is not restricted. */
  lemma AnalystNeverOnRestricted(env: Env, ops: seq<Op>, i: nat)
    requires StableOrders(Run(env, START, ops).tables.events) && i < |Run(env, START, ops).tables.actions|
    ensures var t := Run(env, START, ops).tables;
            && t.actions[i].command.decisionId in t.decisions
            && var d := t.decisions[t.actions[i].command.decisionId];
            var id := ApprovalId(d.decisionId, d.recommendation.selectedAction, d.policy.policyVersion);
            && OrderOf(t, d.decisionId).Some?
            && (d.policy.disposition.RequestApproval? && id in t.approvals && t.approvals[id].decidedByRole == Some(OperationsAnalyst) ==>
                  !OrderOf(t, d.decisionId).value.restricted)
  {
    RunKeepsAnalysts(env, ops);
    Authority.RunKeeps(env, START, ops);
    var t := Run(env, START, ops).tables;
    assert RowOk(t, t.actions[i]);
    var id := t.actions[i].command.decisionId;
    assert DecisionOk(id, t.decisions[id]);
    DecidedEventIsStored(env, ops, id);
  }
}
