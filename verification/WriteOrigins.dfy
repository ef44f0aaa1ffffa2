/** Where every action row comes from: the operation that wrote it, the command it carries, and the two people behind
    an approved one. */
module WriteOrigins {
  import opened Common
  import opened Models
  import opened Store
  import opened Sandbox
  import opened Autonomy
  import opened Evaluation
  import opened Gateway
  import opened Workflow
  import opened History
  import opened Frames
  import opened ApprovalHistory
  import Approvals
  import Authority
  import Reconciliation
  import Revocation
  import Saga
  import SagaExact
  import SandboxHistory
  import Verification

  // ---------------------------------------------------------------- the command

  /** The parameters name what the order holds now and what the action makes of it. */
  predicate ParametersFit(action: RecoveryAction, order: OrderContext, p: Parameters) {
    match action
    case Reroute => p == RerouteParameters(order.currentLocation, order.alternativeLocation, order.sku, order.quantity)
    case CarrierUpgrade => p == CarrierParameters(order.currentService, order.upgradedService)
    case SplitShipment => p == SplitParameters(order.quantity)
    case _ => false
  }

  /** The row carries the command of its decision: the recommended action on the decision's order, under the key of
      decision, action and policy, at the cost the decision was ranked with, in these two names, at this time. */
  predicate RightCommand(row: ActionExecution, d: DecisionTrace, order: OrderContext, requestedBy: string,
                         approvedBy: Option<string>, now: Time) {
    var c := row.command;
    && c.decisionId == d.decisionId && c.orderId == order.orderId && c.action == d.recommendation.selectedAction
    && c.idempotencyKey == IdempotencyKey(d.decisionId, d.recommendation.selectedAction, d.policy.policyVersion)
    && row.actionId == ActionId(c.idempotencyKey)
    && c.requestedBy == requestedBy && c.approvedBy == approvedBy
    && SelectedOption(d).Some? && c.expectedCost == SelectedOption(d).value.interventionCost
    && ParametersFit(c.action, order, c.parameters)
    && row.startedAt == now && row.completedAt == Some(now)
  }

  lemma CommandIsRight(d: DecisionTrace, order: OrderContext, actorId: string, approvedBy: Option<string>, row: ActionExecution, now: Time)
    requires CommandFor(d, order, actorId, approvedBy) == Returned(row.command)
    requires row.actionId == ActionId(row.command.idempotencyKey) && row.startedAt == now && row.completedAt == Some(now)
    ensures RightCommand(row, d, order, actorId, approvedBy, now)
  {}

  /** The row that running a command adds, if it adds one. */
  predicate NewRow(before: seq<ActionExecution>, after: seq<ActionExecution>, d: DecisionTrace, order: OrderContext,
                   requestedBy: string, approvedBy: Option<string>, now: Time) {
    after != before ==>
      |after| == |before| + 1 && before <= after && RightCommand(after[|before|], d, order, requestedBy, approvedBy, now)
  }

  lemma CommandRow(w: World, d: DecisionTrace, order: OrderContext, actorId: string, approvedBy: Option<string>,
                   approval: Option<ApprovalRecord>, now: Time)
    ensures NewRow(w.tables.actions, RunCommand(w, d, order, actorId, approvedBy, approval, now).0.tables.actions,
                   d, order, actorId, approvedBy, now)
  {
    CommandWorld(w, d, order, actorId, approvedBy, approval, now);
    var command := CommandFor(d, order, actorId, approvedBy);
    if command.Returned? {
      var after := Execute(w, command.value, order, now).0;
      ExecuteFrame(w, command.value, order, now);
      if after != w {
        var r := Saga.RunSaga(Seeded(w.sandbox, order), order, command.value.action, command.value.idempotencyKey).1;
        var row := FinishedRow(command.value, r, now);
        RecordExecutionFrame(w.tables.(actions := w.tables.actions + [row]), row);
        CommandIsRight(d, order, actorId, approvedBy, row, now);
      }
    }
  }

  // ---------------------------------------------------------------- approving

  /** An operations analyst stays within the delegated authority: no restricted order, and at most 20.00. */
  predicate Delegated(d: DecisionTrace, order: OrderContext) {
    !order.restricted && SelectedOption(d).Some? && SelectedOption(d).value.interventionCost <= 2000
  }

  /** The approval would be granted. */
  predicate MayApprove(env: Env, t: Tables, id: ApprovalId, input: ApprovalInput, now: Time) {
    var order := SandboxHistory.OrderOf(t, id.decisionId);
    && id in t.approvals && t.approvals[id].status.PendingApproval? && order.Some?
    && MayDecide(t.approvals[id], input, env.strict) && now <= t.approvals[id].expiresAt
    && (input.role.OperationsAnalyst? ==> Delegated(t.decisions[id.decisionId], order.value))
  }

  lemma AuthorityMeans(role: UserRole, d: DecisionTrace, order: OrderContext)
    ensures AuthorityError(role, d, order).None? <==> (role.OperationsAnalyst? ==> Delegated(d, order))
  {}

  /** What an approval would do, in a state where its record is in order. */
  predicate Grantable(t: Tables, id: ApprovalId) {
    && Authority.Inv(t) && OpenOk(t)
    && (id in t.approvals ==> id.decisionId in t.decisions && SandboxHistory.OrderOf(t, id.decisionId).Some? && Executable(id.action))
  }

  /** The world after a granted approval, before its command runs. */
  function GrantedWorld(env: Env, w: World, id: ApprovalId, input: ApprovalInput, now: Time): World {
    w.(tables := Approvals.Decide(w.tables, id, input, Approved, now, env.strict).0)
  }

  lemma ApproveGranted(env: Env, w: World, id: ApprovalId, input: ApprovalInput, now: Time)
    requires Grantable(w.tables, id) && MayApprove(env, w.tables, id, input, now)
    ensures var d, order := w.tables.decisions[id.decisionId], SandboxHistory.OrderOf(w.tables, id.decisionId).value;
            var mid := GrantedWorld(env, w, id, input, now);
            && id in mid.tables.approvals && mid.tables.approvals[id].status.Approved?
            && SignedBy(mid.tables.approvals[id], input, now, env.strict)
            && mid.tables == w.tables.(approvals := mid.tables.approvals)
            && ApproveAndExecute(env, w, id, input, now).0
               == RunCommand(mid, d, order, w.tables.approvals[id].requestedBy, Some(input.actorId), Some(mid.tables.approvals[id]), now).0
  {
    assert Authority.ApprovalOk(w.tables.decisions, id, w.tables.approvals[id]);
    assert Authority.DecisionOk(id.decisionId, w.tables.decisions[id.decisionId]);
    AuthorityMeans(input.role, w.tables.decisions[id.decisionId], SandboxHistory.OrderOf(w.tables, id.decisionId).value);
    DecideExactly(w.tables, id, input, Approved, now, env.strict);
  }

  /** Refused, or refused as expired: the record is not APPROVED and nothing runs. */
  lemma ApproveNotGranted(env: Env, w: World, id: ApprovalId, input: ApprovalInput, now: Time)
    requires Grantable(w.tables, id) && !MayApprove(env, w.tables, id, input, now)
    ensures var v := ApproveAndExecute(env, w, id, input, now).0;
            v.tables.actions == w.tables.actions && !Revocation.Granted(w.tables, v.tables, id)
  {
    ApproveFrame(env, w, id, input, now);
    if ApproveAndExecute(env, w, id, input, now).0 != w {
      assert Authority.ApprovalOk(w.tables.decisions, id, w.tables.approvals[id]);
      assert Authority.DecisionOk(id.decisionId, w.tables.decisions[id.decisionId]);
      AuthorityMeans(input.role, w.tables.decisions[id.decisionId], SandboxHistory.OrderOf(w.tables, id.decisionId).value);
      DecideExactly(w.tables, id, input, Approved, now, env.strict);
    }
  }

  lemma PendingKeyIsFree(t: Tables, id: ApprovalId)
    requires Grantable(t, id) && id in t.approvals && t.approvals[id].status.PendingApproval?
    ensures ActionFor(t.actions, id.decisionId).None?
    ensures FindAction(t.actions, ActionId(KeyOf(t.decisions[id.decisionId]))) == -1
  {
    Revocation.PendingHasNoRow(t, id);
    Revocation.KeyIsFree(t, id.decisionId);
  }

  lemma FreeCommandRuns(w: World, d: DecisionTrace, order: OrderContext, actorId: string, approvedBy: Option<string>,
                        approval: Option<ApprovalRecord>, now: Time)
    requires Executable(d.recommendation.selectedAction) && SelectedOption(d).Some?
    requires ActionFor(w.tables.actions, d.decisionId).None? && FindAction(w.tables.actions, ActionId(KeyOf(d))) == -1
    ensures var after := RunCommand(w, d, order, actorId, approvedBy, approval, now).0.tables.actions;
            after != w.tables.actions <==> !w.tables.killSwitch.active
  {
    var command := CommandFor(d, order, actorId, approvedBy);
    assert command.Returned? && command.value.idempotencyKey == KeyOf(d) && command.value.decisionId == d.decisionId;
    Revocation.FreeCommandAppends(w, command.value, order, now);
    CommandWorld(w, d, order, actorId, approvedBy, approval, now);
  }

  /** What approving comes to: the record is granted exactly when it may be, and then its command is written at once,
      in the two names, unless the kill switch is on. */
  predicate ApprovalOutcome(env: Env, w: World, id: ApprovalId, input: ApprovalInput, now: Time, v: World) {
    && (Revocation.Granted(w.tables, v.tables, id) <==> MayApprove(env, w.tables, id, input, now))
    && (v.tables.actions != w.tables.actions <==> MayApprove(env, w.tables, id, input, now) && !w.tables.killSwitch.active)
    && (MayApprove(env, w.tables, id, input, now) ==>
          && id.decisionId in w.tables.decisions
          && SignedBy(v.tables.approvals[id], input, now, env.strict)
          && NewRow(w.tables.actions, v.tables.actions, w.tables.decisions[id.decisionId],
                    SandboxHistory.OrderOf(w.tables, id.decisionId).value, w.tables.approvals[id].requestedBy, Some(input.actorId), now))
  }

  lemma GrantRuns(env: Env, w: World, id: ApprovalId, input: ApprovalInput, now: Time)
    requires Grantable(w.tables, id) && MayApprove(env, w.tables, id, input, now)
    ensures ApprovalOutcome(env, w, id, input, now, ApproveAndExecute(env, w, id, input, now).0)
  {
    var d, order := w.tables.decisions[id.decisionId], SandboxHistory.OrderOf(w.tables, id.decisionId).value;
    var mid := GrantedWorld(env, w, id, input, now);
    var asker := w.tables.approvals[id].requestedBy;
    ApproveGranted(env, w, id, input, now);
    PendingKeyIsFree(w.tables, id);
    assert Authority.DecisionOk(id.decisionId, d);
    assert Authority.ApprovalOk(w.tables.decisions, id, w.tables.approvals[id]);
    FreeCommandRuns(mid, d, order, asker, Some(input.actorId), Some(mid.tables.approvals[id]), now);
    CommandRow(mid, d, order, asker, Some(input.actorId), Some(mid.tables.approvals[id]), now);
    Revocation.CommandApprovals(mid, d, order, asker, Some(input.actorId), Some(mid.tables.approvals[id]), now);
  }

  lemma ApproveOutcome(env: Env, w: World, id: ApprovalId, input: ApprovalInput, now: Time)
    requires Grantable(w.tables, id)
    ensures ApprovalOutcome(env, w, id, input, now, ApproveAndExecute(env, w, id, input, now).0)
  {
    if MayApprove(env, w.tables, id, input, now) {
      GrantRuns(env, w, id, input, now);
    } else {
      ApproveNotGranted(env, w, id, input, now);
    }
  }

  lemma ReachableIsGrantable(env: Env, ops: seq<Op>, id: ApprovalId)
    ensures Grantable(Run(env, START, ops).tables, id)
    ensures id in Run(env, START, ops).tables.approvals ==>
            Run(env, START, ops).tables.approvals[id].expiresAt == Run(env, START, ops).tables.approvals[id].requestedAt + env.ttl
  {
    Authority.RunKeeps(env, START, ops);
    ApprovalsTellHistory(env, ops);
    var t := Run(env, START, ops).tables;
    if id in t.approvals {
      assert Story(env, ops, id, t.approvals[id]);
      assert Authority.ApprovalOk(t.decisions, id, t.approvals[id]);
      Revocation.DecidedEventIsStored(env, ops, id.decisionId);
    }
  }

  /** Approving, exactly: in every reachable state an approval is granted if and only if it is open and at most one time
      to live old, the actor is a manager, or an analyst on an unrestricted order for at most 20.00, may claim that
      role and is not the requester; and the action row is written then and only then, unless the kill switch is on. */
  lemma ApproveExactly(env: Env, ops: seq<Op>, id: ApprovalId, input: ApprovalInput, now: Time)
    ensures var w := Run(env, START, ops); ApprovalOutcome(env, w, id, input, now, ApproveAndExecute(env, w, id, input, now).0)
    ensures var t := Run(env, START, ops).tables;
            MayApprove(env, t, id, input, now) ==> now <= t.approvals[id].requestedAt + env.ttl
  {
    ReachableIsGrantable(env, ops, id);
    ApproveOutcome(env, Run(env, START, ops), id, input, now);
  }

  // ---------------------------------------------------------------- where rows come from

  /** The operation, run in `t`, is what wrote the row. */
  predicate WrittenBy(env: Env, t: Tables, op: Op, row: ActionExecution) {
    match op
    case OpSubmit(id, actorId, now) =>
      var order := SandboxHistory.OrderOf(t, id);
      && order.Some? && t.decisions[id].policy.disposition.AutoExecute?
      && RightCommand(row, t.decisions[id], order.value, actorId, None, now)
    case OpApprove(id, input, now) =>
      && id.decisionId in t.decisions && MayApprove(env, t, id, input, now)
      && RightCommand(row, t.decisions[id.decisionId], SandboxHistory.OrderOf(t, id.decisionId).value,
                      t.approvals[id].requestedBy, Some(input.actorId), now)
    case _ => false
  }

  /** A step that writes adds one row, and that row is its own. */
  predicate WriteStep(env: Env, t: Tables, op: Op, u: Tables) {
    u.actions != t.actions ==>
      |u.actions| == |t.actions| + 1 && t.actions <= u.actions && WrittenBy(env, t, op, u.actions[|t.actions|])
      && !t.killSwitch.active
  }

  lemma SubmitWrites(env: Env, w: World, id: DecisionId, actorId: string, now: Time)
    requires Authority.Inv(w.tables)
    ensures var u := Submit(env, w, id, actorId, now).0.tables;
            u.actions != w.tables.actions ==>
              |u.actions| == |w.tables.actions| + 1 && w.tables.actions <= u.actions
              && WrittenBy(env, w.tables, OpSubmit(id, actorId, now), u.actions[|w.tables.actions|])
  {
    if id in w.tables.decisions {
      var d := w.tables.decisions[id];
      if d.policy.disposition.AutoExecute? && Resolve(w.tables.events, d.eventId).Some? {
        CommandRow(w, d, Resolve(w.tables.events, d.eventId).value.request.order, actorId, None, None, now);
      }
    }
  }

  lemma StepWrites(env: Env, w: World, op: Op)
    requires Authority.Inv(w.tables) && (op.OpApprove? ==> Grantable(w.tables, op.approvalId))
    ensures WriteStep(env, w.tables, op, Apply(env, w, op).tables)
  {
    Authority.StepKeeps(env, w, op);
    match op {
      case OpSubmit(id, actorId, now) => SubmitWrites(env, w, id, actorId, now);
      case OpApprove(id, input, now) => ApproveOutcome(env, w, id, input, now);
      case _ =>
    }
  }

  lemma LastStepWrites(env: Env, ops: seq<Op>)
    requires ops != []
    ensures WriteStep(env, Run(env, START, ops[..|ops| - 1]).tables, ops[|ops| - 1], Run(env, START, ops).tables)
  {
    var before, op := ops[..|ops| - 1], ops[|ops| - 1];
    Authority.RunKeeps(env, START, before);
    if op.OpApprove? {
      ReachableIsGrantable(env, before, op.approvalId);
    }
    StepWrites(env, Run(env, START, before), op);
  }

  /** The step of the history that wrote row `k`. */
  ghost predicate Wrote(env: Env, ops: seq<Op>, k: nat, j: nat, row: ActionExecution) {
    && j < |ops| && var t := Run(env, START, ops[..j]).tables;
    |t.actions| == k && !t.killSwitch.active && WrittenBy(env, t, ops[j], row)
  }

  /** Every row has an origin: the one step of the history at which it was written, by the submission of an AUTO_EXECUTE
      decision or by a granted approval, with the switch off, carrying the command of its decision. */
  lemma {:induction false} RowOrigin(env: Env, ops: seq<Op>, k: nat) returns (j: nat)
    requires k < |Run(env, START, ops).tables.actions|
    ensures Wrote(env, ops, k, j, Run(env, START, ops).tables.actions[k])
  {
    var n := |ops| - 1;
    LastStepWrites(env, ops);
    if k < |Run(env, START, ops[..n]).tables.actions| {
      j := RowOrigin(env, ops[..n], k);
      assert ops[..n][..j] == ops[..j];
    } else {
      j := n;
    }
  }

  /** Two people and a deadline: over every history, each row of a decision that needed approval was asked for by one
      actor and granted later, within the time to live, by another: a manager, or an analyst on an unrestricted
      order for at most 20.00, whose name may claim that role; and it was written by that very grant. */
  lemma TwoPeople(env: Env, ops: seq<Op>, k: nat) returns (i: nat, j: nat)
    requires k < |Run(env, START, ops).tables.actions| && Run(env, START, ops).tables.actions[k].command.approvedBy.Some?
    ensures var c := Run(env, START, ops).tables.actions[k].command; var at := Run(env, START, ops).tables.actions[k].startedAt;
            && i < j < |ops| && ops[i].OpSubmit? && ops[i].decisionId == c.decisionId && ops[i].actorId == c.requestedBy
            && ops[j].OpApprove? && ops[j].approvalId.decisionId == c.decisionId && ops[j].now == at
            && c.approvedBy == Some(ops[j].input.actorId) && ops[j].input.actorId != c.requestedBy
            && at <= ops[i].now + env.ttl && MayClaim(ops[j].input.actorId, ops[j].input.role, env.strict)
            && (ops[j].input.role.OperationsManager? || (ops[j].input.role.OperationsAnalyst? && c.expectedCost <= 2000))
  {
    var row := Run(env, START, ops).tables.actions[k];
    j := RowOrigin(env, ops, k);
    i := AskedBefore(env, ops, j, row);
  }

  lemma AskedBefore(env: Env, ops: seq<Op>, j: nat, row: ActionExecution) returns (i: nat)
    requires j < |ops| && ops[j].OpApprove? && WrittenBy(env, Run(env, START, ops[..j]).tables, ops[j], row)
    ensures i < j && ops[i].OpSubmit? && ops[i].decisionId == row.command.decisionId && ops[i].actorId == row.command.requestedBy
    ensures row.startedAt <= ops[i].now + env.ttl && row.command.decisionId == ops[j].approvalId.decisionId
  {
    var before, id := ops[..j], ops[j].approvalId;
    ApprovalsTellHistory(env, before);
    Authority.RunKeeps(env, START, before);
    i := OpenedBefore(env, before, Run(env, START, before).tables, ops[j], row);
  }

  lemma OpenedBefore(env: Env, before: seq<Op>, t: Tables, op: Op, row: ActionExecution) returns (i: nat)
    requires Authority.Inv(t) && AllTold(env, before, t) && op.OpApprove? && WrittenBy(env, t, op, row)
    ensures i < |before| && before[i].OpSubmit? && before[i].decisionId == row.command.decisionId
    ensures before[i].actorId == row.command.requestedBy
    ensures row.startedAt <= before[i].now + env.ttl && row.command.decisionId == op.approvalId.decisionId
  {
    var id := op.approvalId;
    var a := t.approvals[id];
    assert Story(env, before, id, a);
    i :| 0 <= i < |before| && OpenedAt(env, before, a, i);
    assert Authority.DecisionOk(id.decisionId, t.decisions[id.decisionId]);
  }

  // ---------------------------------------------------------------- what callers are shown

  /** The state shown for a decision is the one the tables hold. */
  predicate Shows(t: Tables, id: DecisionId, s: WorkflowState) {
    && id in t.decisions && s.decision == t.decisions[id]
    && (s.approval.Some? ==> ApprovalOf(s.decision) in t.approvals && s.approval.value == t.approvals[ApprovalOf(s.decision)])
    && (s.execution.Some? ==> ActionFor(t.actions, id) == s.execution)
    && (s.outcome.Some? ==> OutcomeFor(t.outcomes, id) == s.outcome)
  }

  lemma ExecuteShows(w: World, command: ActionCommand, order: OrderContext, now: Time)
    ensures var (after, r) := Execute(w, command, order, now);
            r.Returned? ==> ActionFor(after.tables.actions, command.decisionId) == Some(r.value)
  {
    if Execute(w, command, order, now).1.Returned? && ActionFor(w.tables.actions, command.decisionId).None? {
      var r := Saga.RunSaga(Seeded(w.sandbox, order), order, command.action, command.idempotencyKey).1;
      var row := FinishedRow(command, r, now);
      RecordExecutionFrame(w.tables.(actions := w.tables.actions + [row]), row);
      RowFound(w.tables.actions, row, command.decisionId);
      FinishedCommand(command, r, now);
    }
  }

  lemma FinishedCommand(command: ActionCommand, r: Saga.SagaResult, now: Time)
    ensures FinishedRow(command, r, now).command == command
  {}

  lemma RowFound(actions: seq<ActionExecution>, row: ActionExecution, id: DecisionId)
    requires ActionFor(actions, id).None? && row.command.decisionId == id
    ensures ActionFor(actions + [row], id) == Some(row)
  {
    assert (actions + [row])[..|actions|] == actions;
  }

  lemma CommandShows(w: World, d: DecisionTrace, order: OrderContext, actorId: string, approvedBy: Option<string>,
                     approval: Option<ApprovalRecord>, now: Time)
    requires d.decisionId in w.tables.decisions && w.tables.decisions[d.decisionId] == d
    requires approval.Some? ==> ApprovalOf(d) in w.tables.approvals && approval.value == w.tables.approvals[ApprovalOf(d)]
    ensures var (v, r) := RunCommand(w, d, order, actorId, approvedBy, approval, now);
            r.Returned? ==> Shows(v.tables, d.decisionId, r.value) && r.value.approval == approval
                            && r.value.execution.Some? && r.value.outcome.None?
  {
    var command := CommandFor(d, order, actorId, approvedBy);
    if command.Returned? {
      ExecuteShows(w, command.value, order, now);
      CommandDecision(d, order, actorId, approvedBy);
      Revocation.CommandApprovals(w, d, order, actorId, approvedBy, approval, now);
      CommandWorld(w, d, order, actorId, approvedBy, approval, now);
    }
  }

  lemma SubmitShows(env: Env, w: World, id: DecisionId, actorId: string, now: Time)
    requires Authority.Inv(w.tables)
    ensures var (v, r) := Submit(env, w, id, actorId, now); r.Returned? ==> Shows(v.tables, id, r.value)
  {
    if id in w.tables.decisions {
      var d := w.tables.decisions[id];
      assert Authority.DecisionOk(id, d);
      if d.policy.disposition.AutoExecute? && Resolve(w.tables.events, d.eventId).Some? {
        CommandShows(w, d, Resolve(w.tables.events, d.eventId).value.request.order, actorId, None, None, now);
      } else if d.policy.disposition.RequestApproval? {
        RequestExactly(w.tables, d, actorId, now, env.ttl);
      }
    }
  }

  lemma ApproveShows(env: Env, w: World, id: ApprovalId, input: ApprovalInput, now: Time)
    requires Grantable(w.tables, id)
    ensures var (v, r) := ApproveAndExecute(env, w, id, input, now);
            r.Returned? ==> Shows(v.tables, id.decisionId, r.value) && r.value.approval.Some? && r.value.execution.Some?
  {
    if ApproveAndExecute(env, w, id, input, now).1.Returned? {
      assert Authority.ApprovalOk(w.tables.decisions, id, w.tables.approvals[id]);
      var d := w.tables.decisions[id.decisionId];
      assert Authority.DecisionOk(id.decisionId, d);
      DecideExactly(w.tables, id, input, Approved, now, env.strict);
      var (tables, decided) := Approvals.Decide(w.tables, id, input, Approved, now, env.strict);
      var order := Resolve(w.tables.events, d.eventId).value.request.order;
      CommandShows(w.(tables := tables), d, order, decided.value.requestedBy, decided.value.decidedBy, Some(decided.value), now);
    }
  }

  lemma RejectShows(env: Env, w: World, id: ApprovalId, input: ApprovalInput, now: Time)
    requires Grantable(w.tables, id)
    ensures var (v, r) := Reject(env, w, id, input, now);
            r.Returned? ==> Shows(v.tables, id.decisionId, r.value) && r.value.approval.Some?
  {
    DecideExactly(w.tables, id, input, RejectedApproval, now, env.strict);
    if id in w.tables.approvals {
      assert Authority.ApprovalOk(w.tables.decisions, id, w.tables.approvals[id]);
      assert Authority.DecisionOk(id.decisionId, w.tables.decisions[id.decisionId]);
    }
  }

  lemma OutcomeFound(outcomes: seq<OutcomeVerification>, o: OutcomeVerification)
    requires OutcomeFor(outcomes, o.decisionId).None?
    ensures OutcomeFor(outcomes + [o], o.decisionId) == Some(o)
  {
    assert (outcomes + [o])[..|outcomes|] == outcomes;
  }

  lemma PersistShows(t: Tables, o: OutcomeVerification, action: RecoveryAction)
    ensures var (u, r) := Verification.Persist(t, o, action); r.Returned? ==> OutcomeFor(u.outcomes, o.decisionId) == Some(r.value)
  {
    if OutcomeFor(t.outcomes, o.decisionId).None? {
      OutcomeFound(t.outcomes, o);
      RecordEvidenceFrame(t.(outcomes := t.outcomes + [o]), OutcomeEvidence(o.outcomeId), action, o.status.Verified?, false);
    }
  }

  lemma VerifyShows(w: World, id: DecisionId, observation: Option<DeliveryObservation>, now: Time)
    requires Authority.Inv(w.tables)
    ensures var (v, r) := Verify(w, id, observation, now);
            r.Returned? ==> Shows(v.tables, id, r.value) && r.value.execution.Some? && r.value.outcome.Some?
  {
    if Verify(w, id, observation, now).1.Returned? {
      var d, e := w.tables.decisions[id], ActionFor(w.tables.actions, id).value;
      assert Authority.DecisionOk(id, d);
      var order := Resolve(w.tables.events, d.eventId).value.request.order;
      var selected := FirstWithAction(d.recommendation.ranked, e.command.action).value;
      VerifyFrame(w, id, observation, now);
      PersistShows(w.tables, Verification.OutcomeOf(Verification.Inspected(w.sandbox, order, e, observation), d, e, order, observation,
                                                    selected, now), e.command.action);
    }
  }

  /** The reply of a workflow operation. */
  function Told(env: Env, w: World, op: Op): Reply<WorkflowState>
    requires op.OpSubmit? || op.OpApprove? || op.OpReject? || op.OpVerify?
  {
    match op
    case OpSubmit(id, actorId, now) => Submit(env, w, id, actorId, now).1
    case OpApprove(id, input, now) => ApproveAndExecute(env, w, id, input, now).1
    case OpReject(id, input, now) => Reject(env, w, id, input, now).1
    case OpVerify(id, observation, now) => Verify(w, id, observation, now).1
  }

  /** The decision a workflow operation is about. */
  function Subject(op: Op): DecisionId
    requires op.OpSubmit? || op.OpApprove? || op.OpReject? || op.OpVerify?
  {
    match op
    case OpSubmit(id, _, _) => id
    case OpApprove(id, _, _) => id.decisionId
    case OpReject(id, _, _) => id.decisionId
    case OpVerify(id, _, _) => id
  }

  /** Callers see what is stored: over every reachable state, the answer of a workflow operation shows its decision, and
      every approval, execution and outcome in it is the one the tables hold afterwards. */
  lemma AnswersShowTables(env: Env, ops: seq<Op>, op: Op)
    requires op.OpSubmit? || op.OpApprove? || op.OpReject? || op.OpVerify?
    ensures var w := Run(env, START, ops); var r := Told(env, w, op);
            r.Returned? ==>
              && Shows(Apply(env, w, op).tables, Subject(op), r.value)
              && (op.OpApprove? ==> r.value.approval.Some? && r.value.execution.Some?) && (op.OpReject? ==> r.value.approval.Some?)
              && (op.OpVerify? ==> r.value.execution.Some? && r.value.outcome.Some?)
  {
    var w := Run(env, START, ops);
    Authority.RunKeeps(env, START, ops);
    match op {
      case OpSubmit(id, actorId, now) => SubmitShows(env, w, id, actorId, now);
      case OpApprove(id, input, now) =>
        ReachableIsGrantable(env, ops, id);
        ApproveShows(env, w, id, input, now);
      case OpReject(id, input, now) =>
        ReachableIsGrantable(env, ops, id);
        RejectShows(env, w, id, input, now);
      case OpVerify(id, observation, now) => VerifyShows(w, id, observation, now);
    }
  }
}
