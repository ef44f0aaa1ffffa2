/** When an action succeeds, is compensated or aborts: exactly, by the failures injected, the keys claimed and the
    order's own possibilities; and what that makes of the row that is stored. */
module SagaExact {
  import opened Common
  import opened Models
  import opened Store
  import opened Sandbox
  import opened Saga
  import opened Evaluation
  import opened Gateway
  import opened Workflow
  import opened History
  import opened Frames
  import Approvals
  import Authority
  import Autonomy
  import ControlHistory
  import Reconciliation
  import Revocation
  import SandboxHistory
  import Verification

  // ---------------------------------------------------------------- one provider write

  /** The failure injected at a step, if any. */
  function ModeAt(s: SandboxState, step: Step): Option<FailureMode> {
    if step in s.modes then Some(s.modes[step]) else None
  }

  /** The write's provider key is already bound to another operation. */
  predicate Taken(s: SandboxState, key: IdempotencyKey, step: Step, op: Operation) {
    ProviderKey(key, step) in s.claimed && s.claimed[ProviderKey(key, step)] != op
  }

  /** The write goes through and says so. */
  predicate GoesThrough(s: SandboxState, key: IdempotencyKey, step: Step, op: Operation) {
    ModeAt(s, step).None? && !Taken(s, key, step, op)
  }

  /** The write lands and only its answer is lost or garbled. */
  predicate AnswerLost(s: SandboxState, key: IdempotencyKey, step: Step, op: Operation) {
    (ModeAt(s, step) == Some(After) || ModeAt(s, step) == Some(Malformed)) && !Taken(s, key, step, op)
  }

  /** The write lands and the provider then reports a hard failure. */
  predicate FailsHard(s: SandboxState, key: IdempotencyKey, step: Step, op: Operation) {
    ModeAt(s, step) == Some(HardAfter) && !Taken(s, key, step, op)
  }

  /** The provider refuses before writing. */
  predicate TurnedAway(s: SandboxState, step: Step) {
    ModeAt(s, step) == Some(Before) || ModeAt(s, step) == Some(RateLimited)
  }

  lemma ModeCases(s: SandboxState, step: Step)
    ensures var m := ModeAt(s, step);
            m.None? || m == Some(Before) || m == Some(RateLimited) || m == Some(After) || m == Some(Malformed) || m == Some(HardAfter)
  {
    if step in s.modes {
      var mode := s.modes[step];
      assert mode.Before? || mode.RateLimited? || mode.After? || mode.Malformed? || mode.HardAfter?;
    }
  }

  /** A write meets exactly one fate, and these are its exceptions. */
  lemma WriteExactly(s: SandboxState, key: IdempotencyKey, step: Step, op: Operation)
    ensures var fault := FaultOf(s, ProviderKey(key, step), op);
            && (fault.Clean? <==> GoesThrough(s, key, step, op))
            && (fault.WroteThen? <==> AnswerLost(s, key, step, op) || FailsHard(s, key, step, op))
            && (fault.Refused? <==> TurnedAway(s, step) || Taken(s, key, step, op))
            && (fault.WroteThen? ==> (fault.error.IsAmbiguousWrite() <==> AnswerLost(s, key, step, op)))
            && (fault.Refused? ==> (fault.error.AdapterRateLimited? <==> ModeAt(s, step) == Some(RateLimited)))
            && (fault.Refused? ==> (fault.error.IsAdapterError() <==> TurnedAway(s, step)))
  {
    ModeCases(s, step);
  }

  // ---------------------------------------------------------------- one action

  /** Every write of the action goes through, the last one at least as far as landing. */
  predicate Succeeds(s: SandboxState, order: OrderContext, action: RecoveryAction, key: IdempotencyKey) {
    match action
    case Reroute =>
      && order.alternativeLocation.Some?
      && GoesThrough(s, key, ReserveAlternative, ReserveOp(order.orderId, order.alternativeLocation.value))
      && var op := RerouteOp(order.orderId, order.alternativeLocation.value);
      GoesThrough(s, key, ChangeLocation, op) || AnswerLost(s, key, ChangeLocation, op)
    case CarrierUpgrade =>
      var op := CarrierOp(order.orderId, order.upgradedService);
      GoesThrough(s, key, UpgradeCarrier, op) || AnswerLost(s, key, UpgradeCarrier, op)
    case SplitShipment =>
      var op := SplitOp(order.orderId);
      order.splitPossible && (GoesThrough(s, key, CreateSplit, op) || AnswerLost(s, key, CreateSplit, op))
    case _ => false
  }

  /** There is something to undo: a reroute's reservation whose location change failed other than by a rate limit, or a
      single write that failed hard, or one turned away while its effect was there already. */
  predicate IsCompensated(s: SandboxState, order: OrderContext, action: RecoveryAction, key: IdempotencyKey) {
    match action
    case Reroute =>
      && order.alternativeLocation.Some?
      && GoesThrough(s, key, ReserveAlternative, ReserveOp(order.orderId, order.alternativeLocation.value))
      && ModeAt(s, ChangeLocation) != Some(RateLimited)
      && var op := RerouteOp(order.orderId, order.alternativeLocation.value);
      (ModeAt(s, ChangeLocation) == Some(Before) || Taken(s, key, ChangeLocation, op) || FailsHard(s, key, ChangeLocation, op))
    case CarrierUpgrade =>
      || FailsHard(s, key, UpgradeCarrier, CarrierOp(order.orderId, order.upgradedService))
      || (TurnedAway(s, UpgradeCarrier) && Get(s.services, order.orderId) == Some(order.upgradedService))
    case SplitShipment =>
      if order.splitPossible
      then FailsHard(s, key, CreateSplit, SplitOp(order.orderId)) || (TurnedAway(s, CreateSplit) && order.orderId in s.splits)
      else order.orderId in s.splits
    case _ => false
  }

  /** The three results of a saga, each exactly when. */
  predicate RightResult(s: SandboxState, order: OrderContext, action: RecoveryAction, key: IdempotencyKey, r: SagaResult) {
    && (r.Finished? && r.status.Succeeded? <==> Succeeds(s, order, action, key))
    && (r.Finished? && r.status.Compensated? <==> IsCompensated(s, order, action, key))
    && (r.Aborted? <==> !Succeeds(s, order, action, key) && !IsCompensated(s, order, action, key))
  }

  /** The location change of a reroute runs on the state the reservation left. */
  lemma ReservationLeavesChange(s: SandboxState, order: OrderContext, key: IdempotencyKey)
    requires order.alternativeLocation.Some?
    ensures var location := order.alternativeLocation.value;
            var t := Called(s, ProviderKey(key, ReserveAlternative), ReserveOp(order.orderId, location));
            var op := RerouteOp(order.orderId, location);
            ModeAt(t, ChangeLocation) == ModeAt(s, ChangeLocation)
            && (Taken(t, key, ChangeLocation, op) <==> Taken(s, key, ChangeLocation, op))
  {}

  lemma ChangeExactly(s: SandboxState, order: OrderContext, location: string, key: IdempotencyKey)
    requires order.alternativeLocation == Some(location)
    ensures var r := ChangePhase(s, order, location, key).1; var op := RerouteOp(order.orderId, location);
            && (r.Finished? && r.status.Succeeded? <==> GoesThrough(s, key, ChangeLocation, op) || AnswerLost(s, key, ChangeLocation, op))
            && (r.Finished? && r.status.Compensated? <==>
                  ModeAt(s, ChangeLocation) != Some(RateLimited)
                  && (ModeAt(s, ChangeLocation) == Some(Before) || Taken(s, key, ChangeLocation, op) || FailsHard(s, key, ChangeLocation, op)))
            && (r.Finished? ==> r.status.Succeeded? || r.status.Compensated?)
  {
    WriteExactly(s, key, ChangeLocation, RerouteOp(order.orderId, location));
    ModeCases(s, ChangeLocation);
  }

  lemma RerouteExactly(s: SandboxState, order: OrderContext, key: IdempotencyKey)
    ensures RightResult(s, order, Reroute, key, RerouteSaga(s, order, key).1)
  {
    if order.alternativeLocation.Some? {
      var location := order.alternativeLocation.value;
      var k, op := ProviderKey(key, ReserveAlternative), ReserveOp(order.orderId, location);
      ReservationLeavesChange(s, order, key);
      ChangeExactly(Called(s, k, op), order, location, key);
      WriteExactly(s, key, ReserveAlternative, op);
    }
  }

  lemma CarrierExactly(s: SandboxState, order: OrderContext, key: IdempotencyKey)
    ensures RightResult(s, order, CarrierUpgrade, key, CarrierSaga(s, order, key).1)
  {
    var op := CarrierOp(order.orderId, order.upgradedService);
    WriteExactly(s, key, UpgradeCarrier, op);
    ModeCases(s, UpgradeCarrier);
    RefusedWriteChangesNothing(s, key, UpgradeCarrier, op);
  }

  lemma RefusedWriteChangesNothing(s: SandboxState, key: IdempotencyKey, step: Step, op: Operation)
    ensures FaultOf(s, ProviderKey(key, step), op).Refused? ==> SamePhysical(s, Called(s, ProviderKey(key, step), op))
  {}

  lemma SplitExactly(s: SandboxState, order: OrderContext, key: IdempotencyKey)
    ensures RightResult(s, order, SplitShipment, key, SplitSaga(s, order, key).1)
  {
    var op := SplitOp(order.orderId);
    WriteExactly(s, key, CreateSplit, op);
    ModeCases(s, CreateSplit);
    RefusedWriteChangesNothing(s, key, CreateSplit, op);
  }

  /** Saga results, exactly: from any state, for any failures and claims, an executable action succeeds, is compensated
      or aborts exactly when its writes and the order say so. */
  lemma SagaResultExactly(s: SandboxState, order: OrderContext, action: RecoveryAction, key: IdempotencyKey)
    requires Executable(action)
    ensures RightResult(s, order, action, key, RunSaga(s, order, action, key).1)
  {
    match action
    case Reroute => RerouteExactly(s, order, key);
    case CarrierUpgrade => CarrierExactly(s, order, key);
    case SplitShipment => SplitExactly(s, order, key);
  }

  /** The order allows the action. */
  predicate Possible(order: OrderContext, action: RecoveryAction) {
    match action
    case Reroute => order.alternativeLocation.Some?
    case CarrierUpgrade => true
    case SplitShipment => order.splitPossible
    case _ => false
  }

  /** A provider that fails nowhere lets every possible action with an unclaimed key succeed. */
  lemma CleanProviderSucceeds(s: SandboxState, order: OrderContext, action: RecoveryAction, key: IdempotencyKey)
    requires Executable(action) && s.modes == map[] && SandboxHistory.FreshKey(s, key) && Possible(order, action)
    ensures var (t, r) := RunSaga(s, order, action, key);
            r.Finished? && r.status.Succeeded? && r.cause.None? && PostconditionHolds(t, order, action)
  {
    SagaResultExactly(s, order, action, key);
    match action {
      case Reroute => RerouteHasEffect(s, order, key);
      case _ =>
    }
  }

  // ---------------------------------------------------------------- the failures in force

  /** The failure that the history last injected at a step since failures were last cleared. */
  function Injected(ops: seq<Op>, step: Step): Option<FailureMode> {
    if ops == [] then None
    else
      match ops[|ops| - 1]
      case OpInject(s, mode) => if s == step then Some(mode) else Injected(ops[..|ops| - 1], step)
      case OpClearFailures => None
      case _ => Injected(ops[..|ops| - 1], step)
  }

  lemma SagaKeepsModes(s: SandboxState, order: OrderContext, action: RecoveryAction, key: IdempotencyKey)
    ensures RunSaga(s, order, action, key).0.modes == s.modes
    ensures RunSaga(s, order, action, key).0.deliveries == s.deliveries
  {
    match action {
      case Reroute => RerouteHasEffect(s, order, key);
      case CarrierUpgrade => CarrierKeepsModes(s, order, key);
      case SplitShipment => SplitKeepsModes(s, order, key);
      case _ =>
    }
  }

  lemma CarrierKeepsModes(s: SandboxState, order: OrderContext, key: IdempotencyKey)
    ensures CarrierSaga(s, order, key).0.modes == s.modes && CarrierSaga(s, order, key).0.deliveries == s.deliveries
  {}

  lemma SplitKeepsModes(s: SandboxState, order: OrderContext, key: IdempotencyKey)
    ensures SplitSaga(s, order, key).0.modes == s.modes && SplitSaga(s, order, key).0.deliveries == s.deliveries
  {}

  /** Neither failures nor deliveries are touched. */
  predicate SameSurroundings(w: World, v: World) {
    v.sandbox.modes == w.sandbox.modes && v.sandbox.deliveries == w.sandbox.deliveries
  }

  lemma CommandSurroundings(w: World, d: DecisionTrace, order: OrderContext, actorId: string, approvedBy: Option<string>,
                            approval: Option<ApprovalRecord>, now: Time)
    ensures SameSurroundings(w, RunCommand(w, d, order, actorId, approvedBy, approval, now).0)
  {
    CommandWorld(w, d, order, actorId, approvedBy, approval, now);
    var command := CommandFor(d, order, actorId, approvedBy);
    if command.Returned? {
      ExecuteFrame(w, command.value, order, now);
      SagaKeepsModes(Seeded(w.sandbox, order), order, command.value.action, command.value.idempotencyKey);
    }
  }

  lemma SubmitSurroundings(env: Env, w: World, id: DecisionId, actorId: string, now: Time)
    ensures SameSurroundings(w, Submit(env, w, id, actorId, now).0)
  {
    if id in w.tables.decisions {
      var d := w.tables.decisions[id];
      if d.policy.disposition.AutoExecute? && Resolve(w.tables.events, d.eventId).Some? {
        CommandSurroundings(w, d, Resolve(w.tables.events, d.eventId).value.request.order, actorId, None, None, now);
      }
    }
  }

  lemma ApproveSurroundings(env: Env, w: World, id: ApprovalId, input: ApprovalInput, now: Time)
    ensures SameSurroundings(w, ApproveAndExecute(env, w, id, input, now).0)
  {
    ApproveFrame(env, w, id, input, now);
    if ApproveAndExecute(env, w, id, input, now).0 != w {
      var d := w.tables.decisions[w.tables.approvals[id].decisionId];
      var order := Resolve(w.tables.events, d.eventId).value.request.order;
      var (tables, decided) := Approvals.Decide(w.tables, id, input, Approved, now, env.strict);
      if decided.Returned? {
        CommandSurroundings(w.(tables := tables), d, order, decided.value.requestedBy, decided.value.decidedBy, Some(decided.value), now);
      }
    }
  }

  lemma InspectionKeepsModes(s: SandboxState, order: OrderContext, e: ActionExecution, observation: Option<DeliveryObservation>)
    ensures Verification.Inspected(s, order, e, observation).modes == s.modes
  {}

  lemma VerifyKeepsModes(w: World, id: DecisionId, observation: Option<DeliveryObservation>, now: Time)
    ensures Verify(w, id, observation, now).0.sandbox.modes == w.sandbox.modes
  {
    if Verify(w, id, observation, now).0.sandbox != w.sandbox {
      SandboxHistory.VerifySandbox(w, id, observation, now);
      InspectionKeepsModes(w.sandbox, SandboxHistory.OrderOf(w.tables, id).value, ActionFor(w.tables.actions, id).value, observation);
    }
  }

  lemma StepModes(env: Env, w: World, op: Op, step: Step)
    requires !op.OpInject? && !op.OpClearFailures?
    ensures ModeAt(Apply(env, w, op).sandbox, step) == ModeAt(w.sandbox, step)
  {
    match op {
      case OpSubmit(id, actor, now) => SubmitSurroundings(env, w, id, actor, now);
      case OpApprove(id, input, now) => ApproveSurroundings(env, w, id, input, now);
      case OpVerify(id, observation, now) => VerifyKeepsModes(w, id, observation, now);
      case _ =>
    }
  }

  /** The failures in force are those injected and not cleared. */
  lemma {:induction false} ModesAreInjected(env: Env, ops: seq<Op>, step: Step)
    ensures ModeAt(Run(env, START, ops).sandbox, step) == Injected(ops, step)
  {
    if ops == [] {
    } else {
      var before, op := ops[..|ops| - 1], ops[|ops| - 1];
      ModesAreInjected(env, before, step);
      if !op.OpInject? && !op.OpClearFailures? {
        StepModes(env, Run(env, START, before), op, step);
      }
    }
  }

  // ---------------------------------------------------------------- the row that is stored

  /** A row of an execution in sandbox `s` carries the status its saga earned there. */
  predicate RightRow(s: SandboxState, order: OrderContext, row: ActionExecution) {
    var action, key := row.command.action, row.command.idempotencyKey;
    && (row.status.Succeeded? <==> Succeeds(s, order, action, key))
    && (row.status.Compensated? <==> IsCompensated(s, order, action, key))
    && (row.status.Failed? <==> !Succeeds(s, order, action, key) && !IsCompensated(s, order, action, key))
  }

  lemma FinishedRowIsRight(s: SandboxState, command: ActionCommand, order: OrderContext, now: Time)
    requires Executable(command.action)
    ensures RightRow(s, order, FinishedRow(command, RunSaga(s, order, command.action, command.idempotencyKey).1, now))
  {
    SagaResultExactly(s, order, command.action, command.idempotencyKey);
    Authority.SagaStatuses(s, order, command.action, command.idempotencyKey);
  }

  /** What executing a command stores and answers: nothing new, or one right row, which is also the reply unless it is
      FAILED, when the exception escapes. */
  predicate RightExecution(w: World, command: ActionCommand, order: OrderContext, now: Time) {
    var (after, reply) := Execute(w, command, order, now);
    var before := w.tables.actions;
    after.tables.actions != before ==>
      && |after.tables.actions| == |before| + 1 && before <= after.tables.actions
      && var row := after.tables.actions[|before|];
      && row.command == command && row.startedAt == now && row.completedAt == Some(now)
      && (Executable(command.action) ==> RightRow(Seeded(w.sandbox, order), order, row))
      && (reply.Returned? ==> !row.status.Failed? && reply.value == row)
      && (command.action in w.tables.profiles ==> (reply.Raised? <==> row.status.Failed?))
  }

  lemma ExecutionIsRight(w: World, command: ActionCommand, order: OrderContext, now: Time)
    ensures RightExecution(w, command, order, now)
  {
    var (after, reply) := Execute(w, command, order, now);
    ExecuteFrame(w, command, order, now);
    if after.tables.actions != w.tables.actions {
      var s := Seeded(w.sandbox, order);
      var r := RunSaga(s, order, command.action, command.idempotencyKey).1;
      var row := FinishedRow(command, r, now);
      RecordExecutionFrame(w.tables.(actions := w.tables.actions + [row]), row);
      Authority.SagaStatuses(s, order, command.action, command.idempotencyKey);
      if Executable(command.action) {
        FinishedRowIsRight(s, command, order, now);
      }
      RecordedOrRefused(w.tables.(actions := w.tables.actions + [row]), row);
    }
  }

  lemma RecordedOrRefused(t: Tables, row: ActionExecution)
    ensures Autonomy.RecordExecution(t, row).1.Returned? <==> row.command.action in t.profiles
  {}

  /** The command of a submitted or approved decision. */
  lemma CommandRowIsRight(w: World, d: DecisionTrace, order: OrderContext, actorId: string, approvedBy: Option<string>,
                          approval: Option<ApprovalRecord>, now: Time)
    requires RunCommand(w, d, order, actorId, approvedBy, approval, now).0.tables.actions != w.tables.actions
    ensures var after := RunCommand(w, d, order, actorId, approvedBy, approval, now).0.tables.actions;
            |after| == |w.tables.actions| + 1 && RightRow(Seeded(w.sandbox, order), order, after[|w.tables.actions|])
  {
    CommandWorld(w, d, order, actorId, approvedBy, approval, now);
    Authority.CommandFields(d, order, actorId, approvedBy);
    ExecutionIsRight(w, CommandFor(d, order, actorId, approvedBy).value, order, now);
  }

  /** The row that a step added, if it added one, is right for its decision's own order. */
  predicate RightStep(w: World, v: World) {
    var before, after := w.tables.actions, v.tables.actions;
    after != before ==>
      && |after| == |before| + 1
      && var row := after[|before|]; var order := SandboxHistory.OrderOf(w.tables, row.command.decisionId);
      order.Some? && RightRow(Seeded(w.sandbox, order.value), order.value, row)
      && FindAction(before, ActionId(row.command.idempotencyKey)) == -1
  }

  lemma NewRowDecision(w: World, d: DecisionTrace, order: OrderContext, actorId: string, approvedBy: Option<string>,
                       approval: Option<ApprovalRecord>, now: Time)
    requires d.decisionId in w.tables.decisions && SandboxHistory.OrderOf(w.tables, d.decisionId) == Some(order)
    ensures RightStep(w, RunCommand(w, d, order, actorId, approvedBy, approval, now).0)
  {
    var after := RunCommand(w, d, order, actorId, approvedBy, approval, now).0;
    if after.tables.actions != w.tables.actions {
      CommandRowIsRight(w, d, order, actorId, approvedBy, approval, now);
      CommandWorld(w, d, order, actorId, approvedBy, approval, now);
      Authority.CommandFields(d, order, actorId, approvedBy);
      var command := CommandFor(d, order, actorId, approvedBy).value;
      ExecutionIsRight(w, command, order, now);
      ExecuteFrame(w, command, order, now);
    }
  }

  lemma SubmitIsRight(env: Env, w: World, id: DecisionId, actorId: string, now: Time)
    requires Authority.Inv(w.tables)
    ensures RightStep(w, Submit(env, w, id, actorId, now).0)
  {
    if id in w.tables.decisions {
      var d := w.tables.decisions[id];
      assert Authority.DecisionOk(id, d);
      if d.policy.disposition.AutoExecute? {
        var event := Resolve(w.tables.events, d.eventId);
        if event.Some? {
          NewRowDecision(w, d, event.value.request.order, actorId, None, None, now);
        }
      } else {
        SandboxHistory.WaitingSubmit(env, w, id, actorId, now);
      }
    }
  }

  lemma ApproveIsRight(env: Env, w: World, id: ApprovalId, input: ApprovalInput, now: Time)
    requires Authority.Inv(w.tables)
    ensures RightStep(w, ApproveAndExecute(env, w, id, input, now).0)
  {
    ApproveFrame(env, w, id, input, now);
    if ApproveAndExecute(env, w, id, input, now).0 != w {
      var d := w.tables.decisions[w.tables.approvals[id].decisionId];
      assert Authority.DecisionOk(w.tables.approvals[id].decisionId, d);
      var order := Resolve(w.tables.events, d.eventId).value.request.order;
      var (tables, decided) := Approvals.Decide(w.tables, id, input, Approved, now, env.strict);
      Reconciliation.DecideFrame(w.tables, id, input, Approved, now, env.strict);
      if decided.Returned? {
        NewRowDecision(w.(tables := tables), d, order, decided.value.requestedBy, decided.value.decidedBy, Some(decided.value), now);
        RightElsewhere(w, w.(tables := tables), ApproveAndExecute(env, w, id, input, now).0);
      }
    }
  }

  lemma RightElsewhere(w: World, mid: World, v: World)
    requires RightStep(mid, v) && mid == w.(tables := w.tables.(approvals := mid.tables.approvals))
    ensures RightStep(w, v)
  {}

  lemma StepIsRight(env: Env, w: World, op: Op)
    requires Authority.Inv(w.tables)
    ensures RightStep(w, Apply(env, w, op))
  {
    match op {
      case OpSubmit(id, actor, now) => SubmitIsRight(env, w, id, actor, now);
      case OpApprove(id, input, now) => ApproveIsRight(env, w, id, input, now);
      case _ => Authority.StepKeeps(env, w, op);
    }
  }

  /** The last write of an action lands under this failure. */
  predicate Lands(mode: Option<FailureMode>) { mode.None? || mode == Some(After) || mode == Some(Malformed) }

  /** By the failures injected so far: the action is possible and all its writes land, a reservation cleanly. */
  predicate SucceedsUnder(ops: seq<Op>, order: OrderContext, action: RecoveryAction) {
    match action
    case Reroute =>
      order.alternativeLocation.Some? && Injected(ops, ReserveAlternative).None? && Lands(Injected(ops, ChangeLocation))
    case CarrierUpgrade => Lands(Injected(ops, UpgradeCarrier))
    case SplitShipment => order.splitPossible && Lands(Injected(ops, CreateSplit))
    case _ => false
  }

  /** By the failures injected so far, and by what the order already held, there is something to undo. */
  predicate CompensatedUnder(ops: seq<Op>, s: SandboxState, order: OrderContext, action: RecoveryAction) {
    match action
    case Reroute =>
      && order.alternativeLocation.Some? && Injected(ops, ReserveAlternative).None?
      && (Injected(ops, ChangeLocation) == Some(Before) || Injected(ops, ChangeLocation) == Some(HardAfter))
    case CarrierUpgrade =>
      var m := Injected(ops, UpgradeCarrier);
      m == Some(HardAfter) || ((m == Some(Before) || m == Some(RateLimited)) && Get(s.services, order.orderId) == Some(order.upgradedService))
    case SplitShipment =>
      var m := Injected(ops, CreateSplit);
      if order.splitPossible then m == Some(HardAfter) || ((m == Some(Before) || m == Some(RateLimited)) && order.orderId in s.splits)
      else order.orderId in s.splits
    case _ => false
  }

  lemma SeededSurroundings(s: SandboxState, order: OrderContext)
    ensures var t := Seeded(s, order); t.modes == s.modes && t.claimed == s.claimed && t.splits == s.splits
  {}

  lemma ResultUnder(env: Env, ops: seq<Op>, s: SandboxState, order: OrderContext, action: RecoveryAction, key: IdempotencyKey)
    requires s.modes == Run(env, START, ops).sandbox.modes && SandboxHistory.FreshKey(s, key) && Executable(action)
    ensures Succeeds(s, order, action, key) <==> SucceedsUnder(ops, order, action)
    ensures IsCompensated(s, order, action, key) <==> CompensatedUnder(ops, s, order, action)
  {
    InjectedInForce(env, ops, s);
    NotTaken(s, key);
    FatesUnder(ops, s, order, action, key);
  }

  lemma InjectedInForce(env: Env, ops: seq<Op>, s: SandboxState)
    requires s.modes == Run(env, START, ops).sandbox.modes
    ensures forall step :: ModeAt(s, step) == Injected(ops, step)
  {
    forall step ensures ModeAt(s, step) == Injected(ops, step) {
      ModesAreInjected(env, ops, step);
    }
  }

  lemma NotTaken(s: SandboxState, key: IdempotencyKey)
    requires SandboxHistory.FreshKey(s, key)
    ensures forall step, op :: !Taken(s, key, step, op)
  {}

  lemma FatesUnder(ops: seq<Op>, s: SandboxState, order: OrderContext, action: RecoveryAction, key: IdempotencyKey)
    requires forall step :: ModeAt(s, step) == Injected(ops, step)
    requires (forall step, op :: !Taken(s, key, step, op)) && Executable(action)
    ensures Succeeds(s, order, action, key) <==> SucceedsUnder(ops, order, action)
    ensures IsCompensated(s, order, action, key) <==> CompensatedUnder(ops, s, order, action)
  {}

  /** The stored row, exactly: over any history, a row that a step adds is SUCCEEDED if and only if the action was
      possible and the failures then injected let all its writes land, COMPENSATED if and only if they left something
      to undo, and FAILED in every other case. */
  lemma StoredRowExactly(env: Env, ops: seq<Op>, op: Op)
    ensures var w, v := Run(env, START, ops), Apply(env, Run(env, START, ops), op); var n := |w.tables.actions|;
            v.tables.actions != w.tables.actions ==>
              && |v.tables.actions| == n + 1
              && var row := v.tables.actions[n]; var order := SandboxHistory.OrderOf(w.tables, row.command.decisionId);
              && order.Some?
              && (row.status.Succeeded? <==> SucceedsUnder(ops, order.value, row.command.action))
              && (row.status.Compensated? <==> CompensatedUnder(ops, Seeded(w.sandbox, order.value), order.value, row.command.action))
              && (row.status.Failed? <==> !row.status.Succeeded? && !row.status.Compensated?)
  {
    var w, v := Run(env, START, ops), Apply(env, Run(env, START, ops), op);
    Authority.RunKeeps(env, START, ops);
    SandboxHistory.RunKeepsWrites(env, ops);
    StepIsRight(env, w, op);
    if v.tables.actions != w.tables.actions {
      Authority.StepKeeps(env, w, op);
      NewRowUnder(env, ops, v);
    }
  }

  lemma NewRowUnder(env: Env, ops: seq<Op>, v: World)
    requires var w := Run(env, START, ops);
             SandboxHistory.WritesOk(w) && RightStep(w, v) && v.tables.actions != w.tables.actions && Authority.Inv(v.tables)
    ensures var w := Run(env, START, ops); var n := |w.tables.actions|;
            && |v.tables.actions| == n + 1
            && var row := v.tables.actions[n]; var order := SandboxHistory.OrderOf(w.tables, row.command.decisionId);
            && order.Some?
            && (row.status.Succeeded? <==> SucceedsUnder(ops, order.value, row.command.action))
            && (row.status.Compensated? <==> CompensatedUnder(ops, Seeded(w.sandbox, order.value), order.value, row.command.action))
            && (row.status.Failed? <==> !row.status.Succeeded? && !row.status.Compensated?)
  {
    var w := Run(env, START, ops);
    var row := v.tables.actions[|w.tables.actions|];
    assert Authority.RowOk(v.tables, row);
    var order := SandboxHistory.OrderOf(w.tables, row.command.decisionId).value;
    SeededSurroundings(w.sandbox, order);
    assert SandboxHistory.FreshKey(w.sandbox, row.command.idempotencyKey);
    ResultUnder(env, ops, Seeded(w.sandbox, order), order, row.command.action, row.command.idempotencyKey);
  }

  /** The recorded steps of a finished saga are numbered from one, end with a compensation exactly when the action was
      compensated, and carry the cause exactly then. */
  lemma StepsTellStory(s: SandboxState, order: OrderContext, action: RecoveryAction, key: IdempotencyKey)
    requires Executable(action)
    ensures StoryOf(RunSaga(s, order, action, key).1, if action.Reroute? then 2 else 1)
  {
    match action
    case Reroute => RerouteStory(s, order, key);
    case CarrierUpgrade => CarrierStory(s, order, key);
    case SplitShipment => SplitStory(s, order, key);
  }

  predicate StoryOf(r: SagaResult, n: nat)
    requires 0 < n
  {
    r.Finished? ==>
      && |r.steps| == n
      && (forall i :: 0 <= i < n ==> r.steps[i].sequence == i + 1)
      && (forall i :: 0 <= i < n - 1 ==> r.steps[i].outcome.StepSucceeded?)
      && (r.steps[n - 1].outcome.StepCompensated? <==> r.status.Compensated?)
      && (r.cause.Some? <==> r.status.Compensated?) && r.steps[n - 1].error == r.cause
  }

  lemma RerouteStory(s: SandboxState, order: OrderContext, key: IdempotencyKey)
    ensures StoryOf(RerouteSaga(s, order, key).1, 2)
  {}

  lemma CarrierStory(s: SandboxState, order: OrderContext, key: IdempotencyKey)
    ensures StoryOf(CarrierSaga(s, order, key).1, 1)
  {}

  lemma SplitStory(s: SandboxState, order: OrderContext, key: IdempotencyKey)
    ensures StoryOf(SplitSaga(s, order, key).1, 1)
  {}

  // ---------------------------------------------------------------- the error that is reported

  /** What the provider raises for an injected failure. */
  function ProviderError(mode: FailureMode): Error {
    match mode
    case Before => ActionExecutionError
    case RateLimited => AdapterRateLimited
    case After => AmbiguousProviderTimeout
    case Malformed => MalformedAdapterResponse
    case HardAfter => ActionExecutionError
  }

  /** The error is the one of the failure injected at the step, or tells that the step's key is bound otherwise. */
  predicate Explains(s: SandboxState, key: IdempotencyKey, step: Step, op: Operation, e: Error) {
    if Taken(s, key, step, op) && !TurnedAway(s, step) then e == PersistenceConflictError
    else ModeAt(s, step).Some? && e == ProviderError(ModeAt(s, step).value)
  }

  /** The error a saga ends with: the cause of its compensation, or the exception that escapes. */
  function ErrorOf(r: SagaResult): Option<Error> {
    match r
    case Finished(_, _, cause) => cause
    case Aborted(e) => Some(e)
  }

  lemma FaultExplained(s: SandboxState, key: IdempotencyKey, step: Step, op: Operation)
    ensures var fault := FaultOf(s, ProviderKey(key, step), op); !fault.Clean? ==> Explains(s, key, step, op, fault.error)
  {
    ModeCases(s, step);
  }

  /** The error is explained by the one step that failed, or by an action the order does not allow. */
  predicate Explained(s: SandboxState, order: OrderContext, action: RecoveryAction, key: IdempotencyKey, e: Error) {
    match action
    case Reroute =>
      if order.alternativeLocation.None? then e == ActionExecutionError
      else
        var location := order.alternativeLocation.value;
        if GoesThrough(s, key, ReserveAlternative, ReserveOp(order.orderId, location))
        then Explains(s, key, ChangeLocation, RerouteOp(order.orderId, location), e)
        else Explains(s, key, ReserveAlternative, ReserveOp(order.orderId, location), e)
    case CarrierUpgrade => Explains(s, key, UpgradeCarrier, CarrierOp(order.orderId, order.upgradedService), e)
    case SplitShipment =>
      if order.splitPossible then Explains(s, key, CreateSplit, SplitOp(order.orderId), e) else e == ActionExecutionError
    case _ => false
  }

  lemma RerouteExplained(s: SandboxState, order: OrderContext, key: IdempotencyKey)
    ensures var e := ErrorOf(RerouteSaga(s, order, key).1); e.Some? ==> Explained(s, order, Reroute, key, e.value)
  {
    if order.alternativeLocation.Some? {
      var location := order.alternativeLocation.value;
      var k, op := ProviderKey(key, ReserveAlternative), ReserveOp(order.orderId, location);
      WriteExactly(s, key, ReserveAlternative, op);
      FaultExplained(s, key, ReserveAlternative, op);
      ReservationLeavesChange(s, order, key);
      FaultExplained(Called(s, k, op), key, ChangeLocation, RerouteOp(order.orderId, location));
    }
  }

  /** Errors tell failures: whatever a saga reports is the exception of the failure injected at the step that failed, a
      conflict over that step's key, or the refusal of an action that the order does not allow. */
  lemma ErrorsTellFailures(s: SandboxState, order: OrderContext, action: RecoveryAction, key: IdempotencyKey)
    requires Executable(action)
    ensures var e := ErrorOf(RunSaga(s, order, action, key).1); e.Some? ==> Explained(s, order, action, key, e.value)
  {
    match action
    case Reroute => RerouteExplained(s, order, key);
    case CarrierUpgrade => FaultExplained(s, key, UpgradeCarrier, CarrierOp(order.orderId, order.upgradedService));
    case SplitShipment => FaultExplained(s, key, CreateSplit, SplitOp(order.orderId));
  }
}
