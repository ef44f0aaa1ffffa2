/** Approvals and commands against the history that made them: who asked, who decided, when, and what was written. */
module ApprovalHistory {
  import opened Common
  import opened Models
  import opened Store
  import opened Sandbox
  import opened Autonomy
  import opened Evaluation
  import opened Gateway
  import opened Workflow
  import opened History
  import opened Frames
  import Approvals
  import Authority
  import Optimizer
  import PolicyHistory
  import Reconciliation
  import Revocation
  import Simulator

  // ---------------------------------------------------------------- the records

  /** Nobody has decided yet. */
  predicate Unsigned(a: ApprovalRecord) {
    a.decidedBy.None? && a.decidedByRole.None? && a.reason.None? && a.decidedAt.None?
  }

  /** An open request of `actorId`, asked at `now`, good for `ttl`. */
  predicate AskedBy(a: ApprovalRecord, id: ApprovalId, actorId: string, now: Time, ttl: int) {
    && a.approvalId == id && a.decisionId == id.decisionId && a.requestedAction == id.action && Executable(id.action)
    && a.status.PendingApproval? && a.requestedBy == actorId && a.requestedAt == now && a.expiresAt == now + ttl && Unsigned(a)
  }

  /** The part of a record that no decision changes. */
  predicate SameRequest(a: ApprovalRecord, b: ApprovalRecord) {
    && b.approvalId == a.approvalId && b.decisionId == a.decisionId && b.requestedAction == a.requestedAction
    && b.requestedBy == a.requestedBy && b.requestedAt == a.requestedAt && b.expiresAt == a.expiresAt
  }

  /** Who may decide on a record: a manager or an analyst under a name of their own, and not the requester. */
  predicate MayDecide(a: ApprovalRecord, input: ApprovalInput, strict: bool) {
    && (input.role.OperationsManager? || input.role.OperationsAnalyst?) && MayClaim(input.actorId, input.role, strict)
    && a.requestedBy != input.actorId
  }

  /** The record carries this decision, made in time. */
  predicate SignedBy(a: ApprovalRecord, input: ApprovalInput, now: Time, strict: bool) {
    && MayDecide(a, input, strict) && now <= a.expiresAt
    && a.decidedBy == Some(input.actorId) && a.decidedByRole == Some(input.role) && a.reason == Some(input.reason)
    && a.decidedAt == Some(now)
  }

  /** The record as one decision of kind `target` leaves it: signed in time, or expired and unsigned. */
  predicate DecidedBy(a: ApprovalRecord, input: ApprovalInput, target: ApprovalStatus, now: Time, strict: bool) {
    if a.expiresAt < now then a.status.Expired? && Unsigned(a) && MayDecide(a, input, strict)
    else a.status == target && SignedBy(a, input, now, strict)
  }

  /** Deciding, exactly: an open record changes if and only if the actor may decide on it; in time it takes the
      decision and is returned, later it expires and the call is refused; nothing else ever changes. */
  lemma DecideExactly(t: Tables, id: ApprovalId, input: ApprovalInput, target: ApprovalStatus, now: Time, strict: bool)
    requires id in t.approvals && t.approvals[id].status.PendingApproval? ==> Unsigned(t.approvals[id])
    requires target.Approved? || target.RejectedApproval?
    ensures var (u, r) := Approvals.Decide(t, id, input, target, now, strict);
            var may := id in t.approvals && t.approvals[id].status.PendingApproval? && MayDecide(t.approvals[id], input, strict);
            && (u != t <==> may)
            && (r.Returned? <==> may && now <= t.approvals[id].expiresAt)
            && (may ==> id in u.approvals && u == t.(approvals := t.approvals[id := u.approvals[id]])
                        && SameRequest(t.approvals[id], u.approvals[id]) && DecidedBy(u.approvals[id], input, target, now, strict)
                        && (r.Returned? ==> r.value == u.approvals[id]))
  {
    if id in t.approvals && t.approvals[id].status.PendingApproval? && MayDecide(t.approvals[id], input, strict) {
      var u := Approvals.Decide(t, id, input, target, now, strict).0;
      assert u.approvals[id].status != t.approvals[id].status;
    }
  }

  // ---------------------------------------------------------------- what each operation does to an approval

  /** The operation decides on the record and leaves it as it is now. */
  predicate Ends(op: Op, a: ApprovalRecord, strict: bool) {
    match op
    case OpApprove(id, input, now) => id == a.approvalId && DecidedBy(a, input, Approved, now, strict)
    case OpReject(id, input, now) => id == a.approvalId && DecidedBy(a, input, RejectedApproval, now, strict)
    case _ => false
  }

  /** The operation opens the record. */
  predicate Opens(op: Op, id: ApprovalId, a: ApprovalRecord, ttl: int) {
    op.OpSubmit? && op.decisionId == id.decisionId && AskedBy(a, id, op.actorId, op.now, ttl)
  }

  /** A record is opened, decided, or left alone. */
  predicate ApprovalStep(env: Env, t: Tables, u: Tables, op: Op, id: ApprovalId) {
    if id !in u.approvals then id !in t.approvals
    else if id !in t.approvals then Opens(op, id, u.approvals[id], env.ttl)
    else
      || u.approvals[id] == t.approvals[id]
      || (t.approvals[id].status.PendingApproval? && SameRequest(t.approvals[id], u.approvals[id])
          && Ends(op, u.approvals[id], env.strict))
  }

  /** Open records are unsigned and stand under their own id. */
  predicate OpenOk(t: Tables) {
    forall id :: id in t.approvals ==>
      t.approvals[id].approvalId == id && (t.approvals[id].status.PendingApproval? ==> Unsigned(t.approvals[id]))
  }

  lemma DecideStep(t: Tables, id: ApprovalId, input: ApprovalInput, target: ApprovalStatus, now: Time, strict: bool, other: ApprovalId)
    requires OpenOk(t) && (target.Approved? || target.RejectedApproval?)
    ensures var u := Approvals.Decide(t, id, input, target, now, strict).0;
            && (other in u.approvals <==> other in t.approvals)
            && (other in t.approvals ==>
                  || u.approvals[other] == t.approvals[other]
                  || (other == id && t.approvals[id].status.PendingApproval? && SameRequest(t.approvals[id], u.approvals[id])
                      && DecidedBy(u.approvals[id], input, target, now, strict)))
  {
    DecideExactly(t, id, input, target, now, strict);
  }

  /** The approval that governs a decision. */
  function ApprovalOf(d: DecisionTrace): ApprovalId {
    ApprovalId(d.decisionId, d.recommendation.selectedAction, d.policy.policyVersion)
  }

  /** Asking, exactly: an executable action gets its one record, opened now by the asker unless it was open before. */
  lemma RequestExactly(t: Tables, d: DecisionTrace, actorId: string, now: Time, ttl: int)
    ensures var (u, r) := Approvals.RequestApprovalRecord(t, d, actorId, now, ttl); var id := ApprovalOf(d);
            && (r.Returned? <==> Executable(d.recommendation.selectedAction))
            && (u != t <==> r.Returned? && id !in t.approvals)
            && (r.Returned? ==> id in u.approvals && r.value == u.approvals[id])
            && (u != t ==> u == t.(approvals := t.approvals[id := u.approvals[id]]) && AskedBy(u.approvals[id], id, actorId, now, ttl))
  {}

  /** What a submission does, by the verdict on the decision. */
  predicate SubmitEffect(env: Env, w: World, op: Op, v: World)
    requires op.OpSubmit?
  {
    if op.decisionId !in w.tables.decisions then v == w
    else
      var d := w.tables.decisions[op.decisionId];
      match d.policy.disposition
      case AutoExecute => v.tables.approvals == w.tables.approvals
      case RequestApproval =>
        v == w.(tables := Approvals.RequestApprovalRecord(w.tables, d, op.actorId, op.now, env.ttl).0)
      case _ => v == w
  }

  lemma SubmitFrame(env: Env, w: World, op: Op)
    requires op.OpSubmit?
    ensures SubmitEffect(env, w, op, Apply(env, w, op))
  {
    if op.decisionId in w.tables.decisions {
      var d := w.tables.decisions[op.decisionId];
      if d.policy.disposition.AutoExecute? && Resolve(w.tables.events, d.eventId).Some? {
        Revocation.CommandApprovals(w, d, Resolve(w.tables.events, d.eventId).value.request.order, op.actorId, None, None, op.now);
      }
    }
  }

  lemma SubmitApprovals(env: Env, w: World, op: Op, id: ApprovalId)
    requires op.OpSubmit? && Authority.Inv(w.tables)
    ensures ApprovalStep(env, w.tables, Apply(env, w, op).tables, op, id)
  {
    if op.decisionId in w.tables.decisions {
      var d := w.tables.decisions[op.decisionId];
      assert Authority.DecisionOk(op.decisionId, d);
      RequestExactly(w.tables, d, op.actorId, op.now, env.ttl);
    }
    SubmitFrame(env, w, op);
  }

  lemma ApproveApprovals(env: Env, w: World, op: Op, id: ApprovalId)
    requires op.OpApprove? && Authority.Inv(w.tables) && OpenOk(w.tables)
    ensures ApprovalStep(env, w.tables, Apply(env, w, op).tables, op, id)
  {
    ApproveFrame(env, w, op.approvalId, op.input, op.now);
    if Apply(env, w, op) != w {
      var d := w.tables.decisions[w.tables.approvals[op.approvalId].decisionId];
      var order := Resolve(w.tables.events, d.eventId).value.request.order;
      var (tables, decided) := Approvals.Decide(w.tables, op.approvalId, op.input, Approved, op.now, env.strict);
      DecideStep(w.tables, op.approvalId, op.input, Approved, op.now, env.strict, id);
      if decided.Returned? {
        Revocation.CommandApprovals(w.(tables := tables), d, order, decided.value.requestedBy, decided.value.decidedBy,
                                    Some(decided.value), op.now);
      }
    }
  }

  lemma OthersKeepApprovals(env: Env, w: World, op: Op)
    requires !op.OpSubmit? && !op.OpApprove? && !op.OpReject?
    ensures Apply(env, w, op).tables.approvals == w.tables.approvals
  {
    match op {
      case OpEvaluate(request) => EvaluateFrame(env, w.tables, request);
      case OpVerify(d, observation, now) => VerifyFrame(w, d, observation, now);
      case OpKillSwitch(u) => SetKillSwitchFrame(w.tables, u, env.strict);
      case OpProfile(action, u) => SetProfileFrame(w.tables, action, u, env.strict);
      case _ =>
    }
  }

  lemma StepApprovals(env: Env, w: World, op: Op, id: ApprovalId)
    requires Authority.Inv(w.tables) && OpenOk(w.tables)
    ensures ApprovalStep(env, w.tables, Apply(env, w, op).tables, op, id)
  {
    match op {
      case OpSubmit(_, _, _) => SubmitApprovals(env, w, op, id);
      case OpApprove(_, _, _) => ApproveApprovals(env, w, op, id);
      case OpReject(other, input, now) => DecideStep(w.tables, other, input, RejectedApproval, now, env.strict, id);
      case _ => OthersKeepApprovals(env, w, op);
    }
  }

  // ---------------------------------------------------------------- the story of every record

  /** The history opened the record at step `i`. */
  predicate OpenedAt(env: Env, ops: seq<Op>, a: ApprovalRecord, i: nat) {
    i < |ops| && ops[i] == OpSubmit(a.decisionId, a.requestedBy, a.requestedAt)
  }

  /** What a record says is what happened: its requester submitted its decision at its request time, it lives from
      then for the time to live, and unless it is still open a later step decided on it as it says. */
  predicate Story(env: Env, ops: seq<Op>, id: ApprovalId, a: ApprovalRecord) {
    && a.approvalId == id && a.decisionId == id.decisionId && a.requestedAction == id.action && Executable(id.action)
    && a.expiresAt == a.requestedAt + env.ttl
    && (a.status.PendingApproval? ==> Unsigned(a))
    && exists i :: 0 <= i < |ops| && OpenedAt(env, ops, a, i)
                   && (a.status.PendingApproval? || exists j :: i < j < |ops| && Ends(ops[j], a, env.strict))
  }

  predicate AllTold(env: Env, ops: seq<Op>, t: Tables) { forall id :: id in t.approvals ==> Story(env, ops, id, t.approvals[id]) }

  lemma StoryGrows(env: Env, ops: seq<Op>, op: Op, id: ApprovalId, a: ApprovalRecord)
    requires Story(env, ops, id, a)
    ensures Story(env, ops + [op], id, a)
  {
    var more := ops + [op];
    var i :| 0 <= i < |ops| && OpenedAt(env, ops, a, i)
             && (a.status.PendingApproval? || exists j :: i < j < |ops| && Ends(ops[j], a, env.strict));
    assert OpenedAt(env, more, a, i);
    if !a.status.PendingApproval? {
      var j :| i < j < |ops| && Ends(ops[j], a, env.strict);
      assert more[j] == ops[j];
    }
  }

  lemma StoryOpens(env: Env, ops: seq<Op>, op: Op, id: ApprovalId, a: ApprovalRecord)
    requires Opens(op, id, a, env.ttl)
    ensures Story(env, ops + [op], id, a)
  {
    assert OpenedAt(env, ops + [op], a, |ops|);
  }

  lemma StoryEnds(env: Env, ops: seq<Op>, op: Op, id: ApprovalId, before: ApprovalRecord, a: ApprovalRecord)
    requires Story(env, ops, id, before) && before.status.PendingApproval? && SameRequest(before, a) && Ends(op, a, env.strict)
    ensures Story(env, ops + [op], id, a)
  {
    var more := ops + [op];
    var i :| 0 <= i < |ops| && OpenedAt(env, ops, before, i);
    assert OpenedAt(env, more, a, i) && more[|ops|] == op;
  }

  lemma StoryStep(env: Env, ops: seq<Op>, op: Op, w: World)
    requires Authority.Inv(w.tables) && AllTold(env, ops, w.tables)
    ensures AllTold(env, ops + [op], Apply(env, w, op).tables)
  {
    var u := Apply(env, w, op).tables;
    forall id | id in u.approvals ensures Story(env, ops + [op], id, u.approvals[id]) {
      StepApprovals(env, w, op, id);
      if id !in w.tables.approvals {
        StoryOpens(env, ops, op, id, u.approvals[id]);
      } else if u.approvals[id] == w.tables.approvals[id] {
        StoryGrows(env, ops, op, id, u.approvals[id]);
      } else {
        StoryEnds(env, ops, op, id, w.tables.approvals[id], u.approvals[id]);
      }
    }
  }

  /** Every approval tells its own history, truly: after any run of the system each record was opened by a submission of
      its decision at its request time, expires exactly one time to live later, is signed by nobody while it is open,
      and otherwise was closed by a later decision of someone else who may decide, in time, or refused as expired. */
  lemma {:induction false} ApprovalsTellHistory(env: Env, ops: seq<Op>)
    ensures AllTold(env, ops, Run(env, START, ops).tables)
  {
    if ops == [] {
    } else {
      var before, op := ops[..|ops| - 1], ops[|ops| - 1];
      ApprovalsTellHistory(env, before);
      Authority.RunKeeps(env, START, before);
      assert before + [op] == ops;
      StoryStep(env, before, op, Run(env, START, before));
    }
  }

  // ---------------------------------------------------------------- asking for approval

  lemma ChosenIsExecutable(request: EvaluationRequest, env: Env)
    ensures var r := Optimizer.Select(Simulator.Simulate(request.order, env.score(request.order)));
            r.Returned? && (r.value.selectedAction.TakeNoAction? || Executable(r.value.selectedAction))
  {
    Optimizer.ChoiceOverSimulation(request.order, env.score(request.order));
  }

  /** A decision that awaits approval is about an executable action. */
  lemma AwaitedIsExecutable(env: Env, ops: seq<Op>, id: DecisionId)
    requires id in Run(env, START, ops).tables.decisions
    requires Run(env, START, ops).tables.decisions[id].policy.disposition.RequestApproval?
    ensures Executable(Run(env, START, ops).tables.decisions[id].recommendation.selectedAction)
  {
    PolicyHistory.RunKeepsGrounded(env, ops);
    var t := Run(env, START, ops).tables;
    var i := PolicyHistory.Ground(env, t, t.decisions[id]);
    ChosenIsExecutable(t.events[i].request, env);
  }

  /** A submission that waits: the approval of the decision exists afterwards and is answered, opened by this actor
      now for one time to live unless it existed; rows and sandbox stay as they are. */
  predicate Waits(env: Env, w: World, op: Op, v: World, r: Reply<WorkflowState>)
    requires op.OpSubmit? && op.decisionId in w.tables.decisions
  {
    var id := ApprovalOf(w.tables.decisions[op.decisionId]);
    && v == w.(tables := w.tables.(approvals := v.tables.approvals)) && id in v.tables.approvals
    && r == Returned(WorkflowState(w.tables.decisions[op.decisionId], Some(v.tables.approvals[id]), None, None))
    && (if id in w.tables.approvals then v == w
        else v.tables.approvals == w.tables.approvals[id := v.tables.approvals[id]]
             && AskedBy(v.tables.approvals[id], id, op.actorId, op.now, env.ttl))
  }

  lemma SubmitWaits(env: Env, w: World, op: Op)
    requires op.OpSubmit? && op.decisionId in w.tables.decisions
    requires var d := w.tables.decisions[op.decisionId];
             d.policy.disposition.RequestApproval? && Executable(d.recommendation.selectedAction)
    ensures Waits(env, w, op, Apply(env, w, op), Submit(env, w, op.decisionId, op.actorId, op.now).1)
  {
    RequestExactly(w.tables, w.tables.decisions[op.decisionId], op.actorId, op.now, env.ttl);
  }

  /** Submitting, exactly, where nothing is executed: an unknown decision is refused; one that is blocked, escalated or
      needs no intervention is answered as it stands; one that awaits approval gets its one approval. */
  lemma SubmitWithoutRunning(env: Env, ops: seq<Op>, id: DecisionId, actorId: string, now: Time)
    ensures var w := Run(env, START, ops); var (v, r) := Submit(env, w, id, actorId, now);
            if id !in w.tables.decisions then v == w && r == Raised(RecordNotFoundError)
            else match w.tables.decisions[id].policy.disposition
              case RequestApproval => Waits(env, w, OpSubmit(id, actorId, now), v, r)
              case AutoExecute => v.tables.approvals == w.tables.approvals
              case _ => v == w && r == Returned(WorkflowState(w.tables.decisions[id], None, None, None))
  {
    var w, op := Run(env, START, ops), OpSubmit(id, actorId, now);
    SubmitFrame(env, w, op);
    if id in w.tables.decisions && w.tables.decisions[id].policy.disposition.RequestApproval? {
      AwaitedIsExecutable(env, ops, id);
      SubmitWaits(env, w, op);
    }
  }
}
