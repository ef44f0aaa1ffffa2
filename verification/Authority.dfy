/** Who may cause an operational write: the invariant of decisions, approvals and actions. */
module Authority {
  import opened Common
  import opened Models
  import opened Store
  import opened Sandbox
  import opened Saga
  import opened Autonomy
  import opened Approvals
  import opened Optimizer
  import opened Simulator
  import opened Policy
  import opened Evaluation
  import opened Gateway
  import opened Verification
  import opened Workflow
  import opened History
  import opened Frames

  predicate DecisionOk(id: DecisionId, d: DecisionTrace) {
    d.decisionId == id && SelectedOption(d).Some?
  }

  /** An approval that authorises its decision's action. */
  predicate ApprovedProperly(a: ApprovalRecord, d: DecisionTrace) {
    && a.status.Approved? && a.requestedAction == d.recommendation.selectedAction
    && a.decidedAt.Some? && a.decidedAt.value <= a.expiresAt
    && a.decidedBy.Some? && a.decidedBy.value != a.requestedBy
    && a.decidedByRole.Some? && !a.decidedByRole.value.Auditor? && !a.decidedByRole.value.ServiceIdentity?
    && (a.decidedByRole.value.OperationsAnalyst? ==>
          SelectedOption(d).Some? && SelectedOption(d).value.interventionCost <= ANALYST_COST_LIMIT)
  }

  predicate ApprovalOk(decisions: map<DecisionId, DecisionTrace>, id: ApprovalId, a: ApprovalRecord) {
    && a.approvalId == id && a.decisionId == id.decisionId && a.requestedAction == id.action
    && a.decisionId in decisions
    && (var d := decisions[a.decisionId];
        && d.policy.disposition.RequestApproval?
        && id == ApprovalId(d.decisionId, d.recommendation.selectedAction, d.policy.policyVersion)
        && (a.status.Approved? ==> ApprovedProperly(a, d)))
  }

  /** The authority behind one action row. */
  predicate Authorised(t: Tables, row: ActionExecution) {
    && row.command.decisionId in t.decisions
    && (var d := t.decisions[row.command.decisionId];
        var id := ApprovalId(d.decisionId, d.recommendation.selectedAction, d.policy.policyVersion);
        || (d.policy.disposition.AutoExecute? && row.command.approvedBy == None)
        || (d.policy.disposition.RequestApproval? && id in t.approvals && ApprovedProperly(t.approvals[id], d)
            && row.command.approvedBy == t.approvals[id].decidedBy && row.command.requestedBy == t.approvals[id].requestedBy))
  }

  predicate RowOk(t: Tables, row: ActionExecution) {
    && row.command.decisionId in t.decisions
    && (var d := t.decisions[row.command.decisionId];
        && row.command.idempotencyKey == KeyOf(d) && row.actionId == ActionId(KeyOf(d))
        && row.command.action == d.recommendation.selectedAction)
    && Executable(row.command.action)
    && (row.status.Succeeded? || row.status.Compensated? || row.status.Failed?)
    && Authorised(t, row)
  }

  predicate DecisionsOk(t: Tables) { forall id :: id in t.decisions ==> DecisionOk(id, t.decisions[id]) }
  predicate ApprovalsOk(t: Tables) { forall id :: id in t.approvals ==> ApprovalOk(t.decisions, id, t.approvals[id]) }
  predicate RowsOk(t: Tables) { forall i :: 0 <= i < |t.actions| ==> RowOk(t, t.actions[i]) }

  /** At most one action row per decision. */
  predicate OneRowPerDecision(actions: seq<ActionExecution>) {
    forall i, j :: 0 <= i < j < |actions| ==> actions[i].command.decisionId != actions[j].command.decisionId
  }

  predicate Inv(t: Tables) {
    DecisionsOk(t) && ApprovalsOk(t) && RowsOk(t) && OneRowPerDecision(t.actions)
  }

  /** How the tables may evolve: decisions and action rows are append-only, approvals leave PENDING
      at most once and are then final. */
  predicate Extends(t: Tables, u: Tables) {
    && (forall id :: id in t.decisions ==> id in u.decisions && u.decisions[id] == t.decisions[id])
    && (forall id :: id in t.approvals ==> id in u.approvals)
    && (forall id :: id in t.approvals && !t.approvals[id].status.PendingApproval? ==> u.approvals[id] == t.approvals[id])
    && t.actions <= u.actions
  }

  lemma ExtendsTransitive(t: Tables, u: Tables, v: Tables)
    requires Extends(t, u) && Extends(u, v)
    ensures Extends(t, v)
  {}

  lemma RowSurvives(t: Tables, u: Tables, row: ActionExecution)
    requires Extends(t, u) && RowOk(t, row)
    ensures RowOk(u, row)
  {}

  lemma RowsSurvive(t: Tables, u: Tables)
    requires Inv(t) && Extends(t, u) && u.actions == t.actions
    ensures RowsOk(u) && OneRowPerDecision(u.actions)
  {
    forall i | 0 <= i < |u.actions| ensures RowOk(u, u.actions[i]) {
      RowSurvives(t, u, t.actions[i]);
    }
  }

  lemma ApprovalsSurvive(t: Tables, u: Tables)
    requires Inv(t) && Extends(t, u) && u.approvals == t.approvals
    ensures ApprovalsOk(u)
  {
    forall id | id in u.approvals ensures ApprovalOk(u.decisions, id, u.approvals[id]) {
      assert ApprovalOk(t.decisions, id, t.approvals[id]);
    }
  }

  // ---------------------------------------------------------------- each kind of change

  lemma TraceIsOk(env: Env, t: Tables, request: EvaluationRequest)
    requires Trace(env, t, request).Returned?
    ensures DecisionOk(Trace(env, t, request).value.decisionId, Trace(env, t, request).value)
  {
    ChoiceOverSimulation(request.order, env.score(request.order));
  }

  lemma EvaluateKeeps(env: Env, t: Tables, request: EvaluationRequest)
    requires Inv(t)
    ensures var u := Evaluate(env, t, request).0; Inv(u) && Extends(t, u) && u.actions == t.actions
  {
    var u := Evaluate(env, t, request).0;
    EvaluateFrame(env, t, request);
    if u.decisions != t.decisions {
      TraceIsOk(env, t, request);
      NewDecisionKeeps(t, u, Trace(env, t, request).value);
    } else {
      LearningKeeps(t, u);
    }
  }

  lemma NewDecisionKeeps(t: Tables, u: Tables, d: DecisionTrace)
    requires Inv(t) && DecisionOk(d.decisionId, d) && d.decisionId !in t.decisions
    requires u.decisions == t.decisions[d.decisionId := d] && u.approvals == t.approvals && u.actions == t.actions
    ensures Inv(u) && Extends(t, u)
  {
    RowsSurvive(t, u);
    ApprovalsSurvive(t, u);
  }

  lemma ApprovalChangeKeeps(t: Tables, id: ApprovalId, a: ApprovalRecord)
    requires Inv(t) && ApprovalOk(t.decisions, id, a)
    requires id in t.approvals ==> t.approvals[id].status.PendingApproval?
    ensures var u := t.(approvals := t.approvals[id := a]); Inv(u) && Extends(t, u)
  {
    RowsSurvive(t, t.(approvals := t.approvals[id := a]));
  }

  lemma RequestKeeps(t: Tables, d: DecisionTrace, requestedBy: string, now: Time, ttl: int)
    requires Inv(t) && d.decisionId in t.decisions && t.decisions[d.decisionId] == d && d.policy.disposition.RequestApproval?
    ensures var u := RequestApprovalRecord(t, d, requestedBy, now, ttl).0; Inv(u) && Extends(t, u) && u.actions == t.actions
  {
    var id := ApprovalId(d.decisionId, d.recommendation.selectedAction, d.policy.policyVersion);
    if Executable(d.recommendation.selectedAction) && id !in t.approvals {
      var record := RequestApprovalRecord(t, d, requestedBy, now, ttl).1.value;
      ApprovalChangeKeeps(t, id, record);
    }
  }

  /** The cost an analyst may approve up to, on the decision behind an approval. */
  predicate AnalystMay(t: Tables, id: ApprovalId, role: UserRole) {
    role.OperationsAnalyst? && id in t.approvals && t.approvals[id].decisionId in t.decisions ==>
      var selected := SelectedOption(t.decisions[t.approvals[id].decisionId]);
      selected.Some? && selected.value.interventionCost <= ANALYST_COST_LIMIT
  }

  /** A pending record is replaced by one that is in order, and by an authorising one when it was granted. */
  predicate DecideEffect(t: Tables, u: Tables, id: ApprovalId, granted: bool) {
    && id in t.approvals && t.approvals[id].status.PendingApproval? && id in u.approvals
    && u == t.(approvals := t.approvals[id := u.approvals[id]])
    && ApprovalOk(t.decisions, id, u.approvals[id])
    && (granted ==> t.approvals[id].decisionId in t.decisions
                    && ApprovedProperly(u.approvals[id], t.decisions[t.approvals[id].decisionId]))
  }

  lemma DecidedRecordIsOk(t: Tables, id: ApprovalId, input: ApprovalInput, target: ApprovalStatus, now: Time, strict: bool)
    requires Inv(t) && (target.Approved? ==> AnalystMay(t, id, input.role))
    requires Decide(t, id, input, target, now, strict).0 != t
    ensures var (u, r) := Decide(t, id, input, target, now, strict); DecideEffect(t, u, id, r.Returned? && target.Approved?)
  {
    var record := t.approvals[id];
    assert ApprovalOk(t.decisions, id, record);
    if record.expiresAt < now {
      assert ApprovalOk(t.decisions, id, record.(status := Expired));
    } else {
      var decided := record.(status := target, decidedBy := Some(input.actorId), decidedByRole := Some(input.role),
                             reason := Some(input.reason), decidedAt := Some(now));
      assert target.Approved? ==> ApprovedProperly(decided, t.decisions[record.decisionId]);
      assert ApprovalOk(t.decisions, id, decided);
    }
  }

  lemma DecideKeeps(t: Tables, id: ApprovalId, input: ApprovalInput, target: ApprovalStatus, now: Time, strict: bool)
    requires Inv(t) && (target.Approved? ==> AnalystMay(t, id, input.role))
    ensures var u := Decide(t, id, input, target, now, strict).0; Inv(u) && Extends(t, u) && u.actions == t.actions
  {
    var u := Decide(t, id, input, target, now, strict).0;
    if u != t {
      DecidedRecordIsOk(t, id, input, target, now, strict);
      ApprovalChangeKeeps(t, id, u.approvals[id]);
    }
  }

  lemma LearningKeeps(t: Tables, u: Tables)
    requires Inv(t) && u.decisions == t.decisions && u.approvals == t.approvals && u.actions == t.actions
    ensures Inv(u) && Extends(t, u)
  {
    RowsSurvive(t, u);
  }

  lemma AppendKeeps(t: Tables, row: ActionExecution)
    requires Inv(t) && RowOk(t, row) && ActionFor(t.actions, row.command.decisionId).None?
    ensures var u := t.(actions := t.actions + [row]); Inv(u) && Extends(t, u)
  {
    var u := t.(actions := t.actions + [row]);
    assert ApprovalsOk(u) && OneRowPerDecision(u.actions);
    assert Extends(t, u);
    forall i | 0 <= i < |u.actions| ensures RowOk(u, u.actions[i]) {
      if i < |t.actions| {
        assert RowOk(t, t.actions[i]);
        RowSurvives(t, u, t.actions[i]);
      } else {
        RowSurvives(t, u, row);
      }
    }
  }

  lemma SagaStatuses(s: SandboxState, order: OrderContext, action: RecoveryAction, key: IdempotencyKey)
    ensures var r := RunSaga(s, order, action, key).1; r.Finished? ==> r.status.Succeeded? || r.status.Compensated?
  {}

  /** The authority a command for `d` would carry. */
  predicate MayCommand(t: Tables, d: DecisionTrace, actorId: string, approvedBy: Option<string>) {
    var id := ApprovalId(d.decisionId, d.recommendation.selectedAction, d.policy.policyVersion);
    && d.decisionId in t.decisions && t.decisions[d.decisionId] == d
    && (|| (d.policy.disposition.AutoExecute? && approvedBy == None)
        || (d.policy.disposition.RequestApproval? && id in t.approvals && ApprovedProperly(t.approvals[id], d)
            && approvedBy == t.approvals[id].decidedBy && actorId == t.approvals[id].requestedBy))
  }

  lemma CommandFields(d: DecisionTrace, order: OrderContext, actorId: string, approvedBy: Option<string>)
    requires CommandFor(d, order, actorId, approvedBy).Returned?
    ensures var c := CommandFor(d, order, actorId, approvedBy).value;
            && c.decisionId == d.decisionId && c.idempotencyKey == KeyOf(d) && c.requestedBy == actorId && c.approvedBy == approvedBy
            && c.action == d.recommendation.selectedAction && Executable(c.action)
  {}

  lemma RowFields(command: ActionCommand, r: SagaResult, now: Time)
    requires r.Finished? ==> r.status.Succeeded? || r.status.Compensated?
    ensures var row := FinishedRow(command, r, now);
            && row.command == command && row.actionId == ActionId(command.idempotencyKey)
            && (row.status.Succeeded? || row.status.Compensated? || row.status.Failed?)
  {}

  lemma NewRowIsOk(t: Tables, d: DecisionTrace, order: OrderContext, actorId: string, approvedBy: Option<string>,
                   r: SagaResult, now: Time)
    requires Inv(t) && MayCommand(t, d, actorId, approvedBy) && CommandFor(d, order, actorId, approvedBy).Returned?
    requires r.Finished? ==> r.status.Succeeded? || r.status.Compensated?
    ensures RowOk(t, FinishedRow(CommandFor(d, order, actorId, approvedBy).value, r, now))
  {
    CommandFields(d, order, actorId, approvedBy);
    RowFields(CommandFor(d, order, actorId, approvedBy).value, r, now);
    MayCommandAuthorises(t, d, actorId, approvedBy, FinishedRow(CommandFor(d, order, actorId, approvedBy).value, r, now));
  }

  lemma MayCommandAuthorises(t: Tables, d: DecisionTrace, actorId: string, approvedBy: Option<string>, row: ActionExecution)
    requires MayCommand(t, d, actorId, approvedBy)
    requires row.command.decisionId == d.decisionId && row.command.requestedBy == actorId && row.command.approvedBy == approvedBy
    ensures Authorised(t, row)
  {}

  /** What executing a command may do to the tables. */
  predicate ExecutionEffect(t: Tables, u: Tables, decisionId: DecisionId) {
    && Inv(u) && Extends(t, u)
    && (u.actions == t.actions
        || (!t.killSwitch.active && |u.actions| == |t.actions| + 1
            && u.actions[|t.actions|].command.decisionId == decisionId))
  }

  /** A command whose authority stands leads to an authorised row, and to a new one only while the kill
      switch is off. */
  lemma CommandKeeps(w: World, d: DecisionTrace, order: OrderContext, actorId: string, approvedBy: Option<string>,
                     approval: Option<ApprovalRecord>, now: Time)
    requires Inv(w.tables) && MayCommand(w.tables, d, actorId, approvedBy)
    ensures ExecutionEffect(w.tables, RunCommand(w, d, order, actorId, approvedBy, approval, now).0.tables, d.decisionId)
  {
    var command := CommandFor(d, order, actorId, approvedBy);
    if command.Returned? {
      CommandRowIsOk(w, d, order, actorId, approvedBy, now);
      ExecuteKeeps(w, command.value, order, now);
      CommandDecision(d, order, actorId, approvedBy);
    } else {
      LearningKeeps(w.tables, w.tables);
    }
    CommandWorld(w, d, order, actorId, approvedBy, approval, now);
  }

  lemma CommandRowIsOk(w: World, d: DecisionTrace, order: OrderContext, actorId: string, approvedBy: Option<string>, now: Time)
    requires Inv(w.tables) && MayCommand(w.tables, d, actorId, approvedBy)
    requires CommandFor(d, order, actorId, approvedBy).Returned?
    ensures var command := CommandFor(d, order, actorId, approvedBy).value;
            RowOk(w.tables, FinishedRow(command, RunSaga(Seeded(w.sandbox, order), order, command.action, command.idempotencyKey).1, now))
  {
    var command := CommandFor(d, order, actorId, approvedBy).value;
    SagaStatuses(Seeded(w.sandbox, order), order, command.action, command.idempotencyKey);
    NewRowIsOk(w.tables, d, order, actorId, approvedBy,
               RunSaga(Seeded(w.sandbox, order), order, command.action, command.idempotencyKey).1, now);
  }

  lemma ExecuteKeeps(w: World, command: ActionCommand, order: OrderContext, now: Time)
    requires Inv(w.tables)
    requires RowOk(w.tables, FinishedRow(command, RunSaga(Seeded(w.sandbox, order), order, command.action, command.idempotencyKey).1, now))
    ensures ExecutionEffect(w.tables, Execute(w, command, order, now).0.tables, command.decisionId)
  {
    var after := Execute(w, command, order, now).0;
    ExecuteFrame(w, command, order, now);
    if after != w {
      RecordedRowKeeps(w.tables,
                       FinishedRow(command, RunSaga(Seeded(w.sandbox, order), order, command.action, command.idempotencyKey).1, now));
    }
  }

  lemma RecordedRowKeeps(t: Tables, row: ActionExecution)
    requires Inv(t) && RowOk(t, row) && ActionFor(t.actions, row.command.decisionId).None? && !t.killSwitch.active
    ensures ExecutionEffect(t, RecordExecution(t.(actions := t.actions + [row]), row).0, row.command.decisionId)
  {
    var stored := t.(actions := t.actions + [row]);
    var u := RecordExecution(stored, row).0;
    AppendKeeps(t, row);
    RecordExecutionFrame(stored, row);
    LearningKeeps(stored, u);
    ExtendsTransitive(t, stored, u);
  }

  // ---------------------------------------------------------------- every operation

  lemma SubmitKeeps(env: Env, w: World, id: DecisionId, actorId: string, now: Time)
    requires Inv(w.tables)
    ensures ExecutionEffect(w.tables, Submit(env, w, id, actorId, now).0.tables, id)
  {
    if id in w.tables.decisions {
      var d := w.tables.decisions[id];
      assert DecisionOk(id, d);
      match d.policy.disposition {
        case AutoExecute =>
          var event := Resolve(w.tables.events, d.eventId);
          if event.Some? {
            CommandKeeps(w, d, event.value.request.order, actorId, None, None, now);
          }
        case RequestApproval => RequestKeeps(w.tables, d, actorId, now, env.ttl);
        case _ =>
      }
    }
  }

  lemma ApproveKeeps(env: Env, w: World, id: ApprovalId, input: ApprovalInput, now: Time)
    requires Inv(w.tables)
    ensures ExecutionEffect(w.tables, ApproveAndExecute(env, w, id, input, now).0.tables, id.decisionId)
  {
    var after := ApproveAndExecute(env, w, id, input, now).0;
    ApproveFrame(env, w, id, input, now);
    if after != w {
      assert ApprovalOk(w.tables.decisions, id, w.tables.approvals[id]);
      var d := w.tables.decisions[id.decisionId];
      assert DecisionOk(id.decisionId, d);
      var order := Resolve(w.tables.events, d.eventId).value.request.order;
      assert AnalystMay(w.tables, id, input.role);
      DecideKeeps(w.tables, id, input, Approved, now, env.strict);
      var (tables, decided) := Decide(w.tables, id, input, Approved, now, env.strict);
      if decided.Returned? {
        ApprovedCommandMayRun(w.tables, id, input, now, env.strict);
        CommandKeeps(w.(tables := tables), d, order, decided.value.requestedBy, decided.value.decidedBy, Some(decided.value), now);
        ExtendsTransitive(w.tables, tables, after.tables);
      }
    }
  }

  lemma ApprovedCommandMayRun(t: Tables, id: ApprovalId, input: ApprovalInput, now: Time, strict: bool)
    requires Inv(t) && id in t.approvals && AnalystMay(t, id, input.role)
    requires Decide(t, id, input, Approved, now, strict).1.Returned?
    ensures var (u, decided) := Decide(t, id, input, Approved, now, strict);
            && id.decisionId in t.decisions && u.killSwitch == t.killSwitch
            && MayCommand(u, t.decisions[id.decisionId], decided.value.requestedBy, decided.value.decidedBy)
  {
    assert ApprovalOk(t.decisions, id, t.approvals[id]);
    assert DecisionOk(id.decisionId, t.decisions[id.decisionId]);
    var (u, decided) := Decide(t, id, input, Approved, now, strict);
    assert u.approvals[id] == decided.value && decided.value.status.Approved? && u != t;
    DecidedRecordIsOk(t, id, input, Approved, now, strict);
  }

  lemma VerifyKeeps(w: World, id: DecisionId, observation: Option<DeliveryObservation>, now: Time)
    requires Inv(w.tables)
    ensures var u := Verify(w, id, observation, now).0.tables; Inv(u) && Extends(w.tables, u) && u.actions == w.tables.actions
  {
    VerifyFrame(w, id, observation, now);
    LearningKeeps(w.tables, Verify(w, id, observation, now).0.tables);
  }

  /** The decision whose execution a step may start. */
  function Target(op: Op): Option<DecisionId> {
    match op
    case OpSubmit(id, _, _) => Some(id)
    case OpApprove(id, _, _) => Some(id.decisionId)
    case _ => None
  }

  /** What any one operation may do to the tables. */
  predicate StepEffect(t: Tables, u: Tables, op: Op) {
    && Inv(u) && Extends(t, u)
    && (u.actions == t.actions || (Target(op).Some? && ExecutionEffect(t, u, Target(op).value)))
  }

  lemma StepKeeps(env: Env, w: World, op: Op)
    requires Inv(w.tables)
    ensures StepEffect(w.tables, Apply(env, w, op).tables, op)
  {
    match op {
      case OpEvaluate(request) => EvaluateKeeps(env, w.tables, request);
      case OpSubmit(id, actor, now) => SubmitKeeps(env, w, id, actor, now);
      case OpApprove(id, input, now) => ApproveKeeps(env, w, id, input, now);
      case OpReject(id, input, now) => RejectKeeps(env, w, id, input, now);
      case OpVerify(id, observation, now) => VerifyKeeps(w, id, observation, now);
      case _ => ControlsKeep(env, w, op);
    }
  }

  lemma ControlsKeep(env: Env, w: World, op: Op)
    requires Inv(w.tables) && (op.OpKillSwitch? || op.OpProfile? || op.OpInject? || op.OpClearFailures?)
    ensures StepEffect(w.tables, Apply(env, w, op).tables, op)
  {
    match op {
      case OpKillSwitch(u) =>
        SetKillSwitchFrame(w.tables, u, env.strict);
        LearningKeeps(w.tables, SetKillSwitch(w.tables, u, env.strict).0);
      case OpProfile(action, u) =>
        SetProfileFrame(w.tables, action, u, env.strict);
        LearningKeeps(w.tables, SetProfile(w.tables, action, u, env.strict).0);
      case _ => LearningKeeps(w.tables, w.tables);
    }
  }

  lemma RejectKeeps(env: Env, w: World, id: ApprovalId, input: ApprovalInput, now: Time)
    requires Inv(w.tables)
    ensures var u := Reject(env, w, id, input, now).0.tables; Inv(u) && Extends(w.tables, u) && u.actions == w.tables.actions
  {
    DecideKeeps(w.tables, id, input, RejectedApproval, now, env.strict);
  }

  lemma {:induction false} RunKeeps(env: Env, w: World, ops: seq<Op>)
    requires Inv(w.tables)
    ensures Inv(Run(env, w, ops).tables) && Extends(w.tables, Run(env, w, ops).tables)
  {
    if ops == [] {
    } else {
      var mid := Run(env, w, ops[..|ops| - 1]);
      RunKeeps(env, w, ops[..|ops| - 1]);
      StepKeeps(env, mid, ops[|ops| - 1]);
      ExtendsTransitive(w.tables, mid.tables, Run(env, w, ops).tables);
    }
  }

  /** Authority of every write: after any history, each action row belongs to an AUTO_EXECUTE decision, or
      to a REQUEST_APPROVAL decision whose approval for that action was granted no later than its expiry
      by someone other than the requester, in a role that may decide, an analyst only up to the delegated
      cost; and no other decision ever has a row. */
  lemma AuthorityOfEveryWrite(env: Env, ops: seq<Op>, i: nat)
    requires i < |Run(env, START, ops).tables.actions|
    ensures var t := Run(env, START, ops).tables; var row := t.actions[i];
            && Authorised(t, row) && Executable(row.command.action)
            && row.command.action == t.decisions[row.command.decisionId].recommendation.selectedAction
  {
    RunKeeps(env, START, ops);
    assert RowOk(Run(env, START, ops).tables, Run(env, START, ops).tables.actions[i]);
  }

  /** A step creates an action row only while the kill switch is off, and only for the decision it was
      asked to act on. */
  lemma NoWriteUnderKillSwitch(env: Env, ops: seq<Op>, op: Op)
    ensures var t, u := Run(env, START, ops).tables, Run(env, START, ops + [op]).tables;
            u.actions != t.actions ==>
              && !t.killSwitch.active && |u.actions| == |t.actions| + 1
              && Target(op) == Some(u.actions[|t.actions|].command.decisionId)
  {
    assert (ops + [op])[..|ops|] == ops;
    RunKeeps(env, START, ops);
    StepKeeps(env, Run(env, START, ops), op);
  }

  /** One governed action per decision: over any history there is at most one row per decision and per
      idempotency key, and every row, once its executing call is over, stays the same for ever. */
  lemma OneActionPerDecision(env: Env, ops: seq<Op>, more: seq<Op>)
    ensures var t, u := Run(env, START, ops).tables, Run(env, START, ops + more).tables;
            && t.actions <= u.actions
            && forall i, j :: 0 <= i < j < |u.actions| ==>
                 && u.actions[i].command.decisionId != u.actions[j].command.decisionId
                 && u.actions[i].actionId != u.actions[j].actionId
  {
    RunSplits(env, START, ops, more);
    RunKeeps(env, START, ops);
    RunKeeps(env, Run(env, START, ops), more);
    var u := Run(env, START, ops + more).tables;
    forall i, j | 0 <= i < j < |u.actions| ensures u.actions[i].actionId != u.actions[j].actionId {
      assert RowOk(u, u.actions[i]) && RowOk(u, u.actions[j]);
      assert DecisionOk(u.actions[i].command.decisionId, u.decisions[u.actions[i].command.decisionId]);
      assert DecisionOk(u.actions[j].command.decisionId, u.decisions[u.actions[j].command.decisionId]);
    }
  }
}
