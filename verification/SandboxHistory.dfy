/** The operational systems against the durable record, over whole histories: what an action left in the
    sandbox is what its row says, so verification after a restart is verification on the live systems. */
module SandboxHistory {
  import opened Common
  import opened Models
  import opened Store
  import opened Sandbox
  import opened Saga
  import opened Evaluation
  import opened Gateway
  import opened Verification
  import opened Workflow
  import opened History
  import opened Frames
  import Approvals
  import Authority
  import Autonomy
  import ControlHistory
  import Reconciliation

  // ---------------------------------------------------------------- what one saga leaves

  /** The entries of every other order are the same. */
  ghost predicate SameElsewhere(s: SandboxState, t: SandboxState, orderId: string) {
    && (forall o :: o != orderId ==> Get(s.locations, o) == Get(t.locations, o) && Get(s.services, o) == Get(t.services, o))
    && (forall o :: o != orderId ==> (o in s.splits <==> o in t.splits))
    && (forall r: (string, string) :: r.0 != orderId ==> (r in s.reservations <==> r in t.reservations))
  }

  ghost predicate NoEntries(s: SandboxState, orderId: string) {
    && orderId !in s.locations && orderId !in s.services && orderId !in s.splits
    && forall r :: r in s.reservations ==> r.0 != orderId
  }

  /** The order stands where it stood before any action. */
  predicate Original(s: SandboxState, order: OrderContext) {
    && (order.orderId in s.locations ==> s.locations[order.orderId] == order.currentLocation)
    && (order.orderId in s.services ==> s.services[order.orderId] == order.currentService)
    && order.orderId !in s.splits
  }

  /** What the sandbox holds for the order of a finished action. */
  predicate Leaves(s: SandboxState, order: OrderContext, action: RecoveryAction, status: ActionStatus) {
    if status.Succeeded? then PostconditionHolds(s, order, action)
    else Original(s, order) && (status.Failed? && action.CarrierUpgrade? ==> order.currentService != order.upgradedService)
  }

  function ResultStatus(r: SagaResult): ActionStatus { if r.Finished? then r.status else Failed }

  /** No provider key of this command was ever claimed. */
  predicate FreshKey(s: SandboxState, key: IdempotencyKey) {
    forall k :: k in s.claimed ==> k.idempotency != key
  }

  lemma RerouteLeaves(s: SandboxState, order: OrderContext, key: IdempotencyKey)
    requires Original(s, order)
    ensures var (t, r) := RerouteSaga(s, order, key);
            SameElsewhere(s, t, order.orderId) && Leaves(t, order, Reroute, ResultStatus(r))
  {
    RerouteHasEffect(s, order, key);
  }

  lemma CarrierLeaves(s: SandboxState, order: OrderContext, key: IdempotencyKey)
    requires Original(s, order) && order.orderId in s.services && FreshKey(s, key)
    ensures var (t, r) := CarrierSaga(s, order, key);
            SameElsewhere(s, t, order.orderId) && Leaves(t, order, CarrierUpgrade, ResultStatus(r))
  {}

  lemma SplitLeaves(s: SandboxState, order: OrderContext, key: IdempotencyKey)
    requires Original(s, order)
    ensures var (t, r) := SplitSaga(s, order, key);
            SameElsewhere(s, t, order.orderId) && Leaves(t, order, SplitShipment, ResultStatus(r))
  {}

  lemma SagaLeaves(s: SandboxState, order: OrderContext, action: RecoveryAction, key: IdempotencyKey)
    requires Original(s, order) && FreshKey(s, key)
    ensures var (t, r) := RunSaga(Seeded(s, order), order, action, key);
            SameElsewhere(s, t, order.orderId) && (Executable(action) ==> Leaves(t, order, action, ResultStatus(r)))
  {
    var seeded := Seeded(s, order);
    match action {
      case Reroute => RerouteLeaves(seeded, order, key);
      case CarrierUpgrade => CarrierLeaves(seeded, order, key);
      case SplitShipment => SplitLeaves(seeded, order, key);
      case _ =>
    }
  }

  lemma CarrierSameElsewhere(s: SandboxState, order: OrderContext, key: IdempotencyKey)
    ensures SameElsewhere(s, CarrierSaga(s, order, key).0, order.orderId)
  {}

  lemma SplitSameElsewhere(s: SandboxState, order: OrderContext, key: IdempotencyKey)
    ensures SameElsewhere(s, SplitSaga(s, order, key).0, order.orderId)
  {}

  lemma RerouteSameElsewhere(s: SandboxState, order: OrderContext, key: IdempotencyKey)
    ensures SameElsewhere(s, RerouteSaga(s, order, key).0, order.orderId)
  {
    RerouteHasEffect(s, order, key);
  }

  lemma ElsewhereTransitive(s: SandboxState, t: SandboxState, u: SandboxState, orderId: string)
    requires SameElsewhere(s, t, orderId) && SameElsewhere(t, u, orderId)
    ensures SameElsewhere(s, u, orderId)
  {}

  /** Whatever the order held before, a saga touches no other order. */
  lemma SagaSameElsewhere(s: SandboxState, order: OrderContext, action: RecoveryAction, key: IdempotencyKey)
    ensures SameElsewhere(s, RunSaga(Seeded(s, order), order, action, key).0, order.orderId)
  {
    var seeded := Seeded(s, order);
    assert SameElsewhere(s, seeded, order.orderId);
    match action {
      case Reroute => RerouteSameElsewhere(seeded, order, key);
      case CarrierUpgrade => CarrierSameElsewhere(seeded, order, key);
      case SplitShipment => SplitSameElsewhere(seeded, order, key);
      case _ => assert RunSaga(seeded, order, action, key).0 == seeded;
    }
    ElsewhereTransitive(s, seeded, RunSaga(seeded, order, action, key).0, order.orderId);
  }

  // ---------------------------------------------------------------- every write at most once

  /** All write calls ever made are distinct, and they and all claims belong to recorded actions. */
  predicate WritesOk(w: World) {
    && (forall i, j :: 0 <= i < j < |w.sandbox.attempts| ==> w.sandbox.attempts[i] != w.sandbox.attempts[j])
    && (forall i :: 0 <= i < |w.sandbox.attempts| ==> 0 <= FindAction(w.tables.actions, ActionId(w.sandbox.attempts[i].idempotency)))
    && (forall k :: k in w.sandbox.claimed ==> 0 <= FindAction(w.tables.actions, ActionId(k.idempotency)))
  }

  predicate OwnClaims(s: SandboxState, t: SandboxState, key: IdempotencyKey) {
    forall k :: k in t.claimed ==> k in s.claimed || k.idempotency == key
  }

  lemma CallClaims(s: SandboxState, key: IdempotencyKey, step: Step, op: Operation)
    ensures OwnClaims(s, Called(s, ProviderKey(key, step), op), key)
  {}

  lemma ChangeClaims(s: SandboxState, order: OrderContext, location: string, key: IdempotencyKey)
    requires order.alternativeLocation == Some(location)
    ensures OwnClaims(s, ChangePhase(s, order, location, key).0, key)
  {
    CallClaims(s, key, ChangeLocation, RerouteOp(order.orderId, location));
  }

  lemma ClaimsAreOwn(s: SandboxState, order: OrderContext, action: RecoveryAction, key: IdempotencyKey)
    ensures OwnClaims(s, RunSaga(s, order, action, key).0, key)
  {
    match action {
      case Reroute =>
        if order.alternativeLocation.Some? {
          var op := ReserveOp(order.orderId, order.alternativeLocation.value);
          CallClaims(s, key, ReserveAlternative, op);
          ChangeClaims(Called(s, ProviderKey(key, ReserveAlternative), op), order, op.location, key);
        }
      case CarrierUpgrade => CallClaims(s, key, UpgradeCarrier, CarrierOp(order.orderId, order.upgradedService));
      case SplitShipment => CallClaims(s, key, CreateSplit, SplitOp(order.orderId));
      case _ =>
    }
  }

  lemma AttemptsStayDistinct(s: SandboxState, t: SandboxState, key: IdempotencyKey)
    requires OwnWrites(s, t, key)
    requires forall i, j :: 0 <= i < j < |s.attempts| ==> s.attempts[i] != s.attempts[j]
    requires forall i :: 0 <= i < |s.attempts| ==> s.attempts[i].idempotency != key
    ensures forall i, j :: 0 <= i < j < |t.attempts| ==> t.attempts[i] != t.attempts[j]
    ensures forall i :: 0 <= i < |t.attempts| ==> (i < |s.attempts| && t.attempts[i] == s.attempts[i]) || t.attempts[i].idempotency == key
  {}

  lemma ExecuteKeepsWrites(w: World, command: ActionCommand, order: OrderContext, now: Time)
    requires WritesOk(w)
    ensures WritesOk(Execute(w, command, order, now).0)
  {
    var after := Execute(w, command, order, now).0;
    ExecuteFrame(w, command, order, now);
    if after != w {
      var key, s := command.idempotencyKey, Seeded(w.sandbox, order);
      var r := RunSaga(s, order, command.action, key).1;
      var row := FinishedRow(command, r, now);
      RecordExecutionFrame(w.tables.(actions := w.tables.actions + [row]), row);
      Reconciliation.ActionSnoc(w.tables.actions, row);
      WritesAtMostOnce(s, order, command.action, key);
      AttemptsStayDistinct(s, after.sandbox, key);
      ClaimsAreOwn(s, order, command.action, key);
    }
  }

  // ---------------------------------------------------------------- the invariant

  /** All stored versions of an event id describe the same order. */
  predicate StableOrders(events: seq<EventRow>) {
    forall i, j :: 0 <= i < |events| && 0 <= j < |events| && events[i].eventId == events[j].eventId ==>
      events[i].request.order == events[j].request.order
  }

  function OrderOf(t: Tables, decisionId: DecisionId): Option<OrderContext> {
    if decisionId !in t.decisions then None
    else match Resolve(t.events, t.decisions[decisionId].eventId)
      case None => None
      case Some(event) => Some(event.request.order)
  }

  predicate HasRow(actions: seq<ActionExecution>, orderId: string) {
    exists i :: 0 <= i < |actions| && actions[i].command.orderId == orderId
  }

  /** Row `i` is the only one that acts on its order. */
  predicate Sole(actions: seq<ActionExecution>, i: nat)
    requires i < |actions|
  {
    forall k :: 0 <= k < |actions| && k != i ==> actions[k].command.orderId != actions[i].command.orderId
  }

  predicate RowLive(w: World, i: nat)
    requires i < |w.tables.actions|
  {
    var row := w.tables.actions[i];
    var order := OrderOf(w.tables, row.command.decisionId);
    && order.Some? && row.command.orderId == order.value.orderId
    && (Sole(w.tables.actions, i) ==> Leaves(w.sandbox, order.value, row.command.action, row.status))
  }

  ghost predicate Inv(w: World) {
    && (forall i :: 0 <= i < |w.tables.actions| ==> RowLive(w, i))
    && (forall o :: !HasRow(w.tables.actions, o) ==> NoEntries(w.sandbox, o))
  }

  /** Events and decisions are appended, action rows stay, and the sandbox's entries stay. */
  predicate Grown(w: World, v: World) {
    && w.tables.events <= v.tables.events && v.tables.actions == w.tables.actions
    && (forall id :: id in w.tables.decisions ==> id in v.tables.decisions && v.tables.decisions[id] == w.tables.decisions[id])
    && SamePhysical(w.sandbox, v.sandbox)
  }

  lemma {:induction false} ResolveSnoc(events: seq<EventRow>, row: EventRow, id: string)
    requires StableOrders(events + [row]) && Resolve(events, id).Some?
    ensures var r := Resolve(events + [row], id); r.Some? && r.value.request.order == Resolve(events, id).value.request.order
  {
    var next := events + [row];
    assert next[..|events|] == events;
    assert Resolve(events, id).value in next;
    assert Resolve(next, id).value in next;
  }

  lemma {:induction false} ResolveStable(before: seq<EventRow>, after: seq<EventRow>, id: string)
    requires before <= after && StableOrders(after) && Resolve(before, id).Some?
    ensures var r := Resolve(after, id); r.Some? && r.value.request.order == Resolve(before, id).value.request.order
    decreases |after| - |before|
  {
    if |before| == |after| {
      assert before == after;
    } else {
      var n := |before|;
      assert after[..n + 1] == before + [after[n]];
      assert StableOrders(after[..n + 1]) by {
        assert forall i :: 0 <= i < n + 1 ==> after[..n + 1][i] == after[i];
      }
      ResolveSnoc(before, after[n], id);
      ResolveStable(after[..n + 1], after, id);
    }
  }

  lemma OrderStable(t: Tables, u: Tables, id: DecisionId)
    requires t.events <= u.events && StableOrders(u.events) && OrderOf(t, id).Some?
    requires id in u.decisions && u.decisions[id] == t.decisions[id]
    ensures OrderOf(u, id) == OrderOf(t, id)
  {
    ResolveStable(t.events, u.events, t.decisions[id].eventId);
  }

  lemma GrownKeeps(w: World, v: World)
    requires Inv(w) && Grown(w, v) && StableOrders(v.tables.events)
    ensures Inv(v)
  {
    forall i | 0 <= i < |v.tables.actions| ensures RowLive(v, i) {
      assert RowLive(w, i);
      OrderStable(w.tables, v.tables, w.tables.actions[i].command.decisionId);
    }
    forall o | !HasRow(v.tables.actions, o) ensures NoEntries(v.sandbox, o) {
      assert NoEntries(w.sandbox, o);
    }
  }

  /** The sandbox may change at one order's entries. */
  lemma ElsewhereKeeps(s: SandboxState, t: SandboxState, order: OrderContext, action: RecoveryAction, status: ActionStatus, orderId: string)
    requires SameElsewhere(s, t, orderId) && order.orderId != orderId && Leaves(s, order, action, status)
    ensures Leaves(t, order, action, status)
  {
    assert Get(s.locations, order.orderId) == Get(t.locations, order.orderId);
    assert Get(s.services, order.orderId) == Get(t.services, order.orderId);
  }

  lemma NoEntriesElsewhere(s: SandboxState, t: SandboxState, o: string, orderId: string)
    requires SameElsewhere(s, t, orderId) && o != orderId && NoEntries(s, o)
    ensures NoEntries(t, o)
  {
    assert Get(t.locations, o) == Get(s.locations, o) && Get(t.services, o) == Get(s.services, o);
  }

  // ---------------------------------------------------------------- executing

  lemma HasRowSnoc(actions: seq<ActionExecution>, row: ActionExecution, o: string)
    ensures HasRow(actions + [row], o) <==> HasRow(actions, o) || row.command.orderId == o
  {
    var next := actions + [row];
    assert next[|actions|] == row && forall i :: 0 <= i < |actions| ==> next[i] == actions[i];
  }

  lemma SoleSnoc(actions: seq<ActionExecution>, row: ActionExecution, i: nat)
    requires i <= |actions| && Sole(actions + [row], i)
    ensures if i < |actions| then Sole(actions, i) && row.command.orderId != actions[i].command.orderId
            else !HasRow(actions, row.command.orderId)
  {
    var next := actions + [row];
    assert next[|actions|] == row && forall k :: 0 <= k < |actions| ==> next[k] == actions[k];
  }

  /** A new row for an order, and the sandbox its saga leaves. */
  lemma AppendKeeps(w: World, v: World, row: ActionExecution, order: OrderContext)
    requires Inv(w) && v.tables.actions == w.tables.actions + [row]
    requires v.tables.events == w.tables.events && v.tables.decisions == w.tables.decisions
    requires OrderOf(w.tables, row.command.decisionId) == Some(order) && row.command.orderId == order.orderId
    requires SameElsewhere(w.sandbox, v.sandbox, order.orderId)
    requires NoEntries(w.sandbox, order.orderId) ==> Leaves(v.sandbox, order, row.command.action, row.status)
    ensures Inv(v)
  {
    forall i | 0 <= i < |v.tables.actions| ensures RowLive(v, i) {
      AppendedRow(w, v, row, order, i);
    }
    forall o | !HasRow(v.tables.actions, o) ensures NoEntries(v.sandbox, o) {
      HasRowSnoc(w.tables.actions, row, o);
      NoEntriesElsewhere(w.sandbox, v.sandbox, o, order.orderId);
    }
  }

  lemma AppendedRow(w: World, v: World, row: ActionExecution, order: OrderContext, i: nat)
    requires Inv(w) && v.tables.actions == w.tables.actions + [row] && i < |v.tables.actions|
    requires v.tables.events == w.tables.events && v.tables.decisions == w.tables.decisions
    requires OrderOf(w.tables, row.command.decisionId) == Some(order) && row.command.orderId == order.orderId
    requires SameElsewhere(w.sandbox, v.sandbox, order.orderId)
    requires NoEntries(w.sandbox, order.orderId) ==> Leaves(v.sandbox, order, row.command.action, row.status)
    ensures RowLive(v, i)
  {
    if Sole(v.tables.actions, i) {
      SoleSnoc(w.tables.actions, row, i);
    }
    if i < |w.tables.actions| {
      assert RowLive(w, i);
      var was := w.tables.actions[i];
      if Sole(v.tables.actions, i) {
        ElsewhereKeeps(w.sandbox, v.sandbox, OrderOf(w.tables, was.command.decisionId).value, was.command.action, was.status,
                       order.orderId);
      }
    }
  }

  lemma ExecuteKeeps(w: World, command: ActionCommand, order: OrderContext, now: Time)
    requires Inv(w) && WritesOk(w) && Executable(command.action)
    requires OrderOf(w.tables, command.decisionId) == Some(order) && command.orderId == order.orderId
    ensures Inv(Execute(w, command, order, now).0)
  {
    var after := Execute(w, command, order, now).0;
    ExecuteFrame(w, command, order, now);
    if after != w {
      var key := command.idempotencyKey;
      var r := RunSaga(Seeded(w.sandbox, order), order, command.action, key).1;
      var row := FinishedRow(command, r, now);
      RecordExecutionFrame(w.tables.(actions := w.tables.actions + [row]), row);
      SagaSameElsewhere(w.sandbox, order, command.action, key);
      if NoEntries(w.sandbox, order.orderId) {
        assert FreshKey(w.sandbox, key);
        SagaLeaves(w.sandbox, order, command.action, key);
      }
      AppendKeeps(w, after, row, order);
    }
  }

  lemma CommandKeeps(w: World, d: DecisionTrace, order: OrderContext, actorId: string, approvedBy: Option<string>,
                     approval: Option<ApprovalRecord>, now: Time)
    requires Inv(w) && WritesOk(w) && OrderOf(w.tables, d.decisionId) == Some(order)
    ensures var v := RunCommand(w, d, order, actorId, approvedBy, approval, now).0; Inv(v) && WritesOk(v)
  {
    var command := CommandFor(d, order, actorId, approvedBy);
    if command.Returned? {
      ExecuteKeeps(w, command.value, order, now);
      ExecuteKeepsWrites(w, command.value, order, now);
    }
  }

  lemma CommandKeepsWrites(w: World, d: DecisionTrace, order: OrderContext, actorId: string, approvedBy: Option<string>,
                           approval: Option<ApprovalRecord>, now: Time)
    requires WritesOk(w)
    ensures WritesOk(RunCommand(w, d, order, actorId, approvedBy, approval, now).0)
  {
    var command := CommandFor(d, order, actorId, approvedBy);
    if command.Returned? {
      ExecuteKeepsWrites(w, command.value, order, now);
    }
  }

  // ---------------------------------------------------------------- verifying

  lemma ReappliedSameElsewhere(s: SandboxState, order: OrderContext, status: ActionStatus, action: RecoveryAction)
    requires order.orderId in s.locations && order.orderId in s.services
    ensures SameElsewhere(s, Hydrated(s, order, status, action), order.orderId)
  {}

  lemma SeededSameElsewhere(s: SandboxState, order: OrderContext, observation: Option<DeliveryObservation>)
    ensures var t := Seeded(Verification.Observed(s, observation), order);
            && SameElsewhere(s, t, order.orderId) && t.attempts == s.attempts && t.claimed == s.claimed
            && order.orderId in t.locations && order.orderId in t.services && Seeded(t, order) == t
  {}

  lemma HydrateSeeds(s: SandboxState, order: OrderContext, status: ActionStatus, action: RecoveryAction)
    ensures var t := Hydrated(s, order, status, action); t.attempts == s.attempts && t.claimed == s.claimed
    ensures Seeded(Seeded(s, order), order) == Seeded(s, order) ==>
              Hydrated(s, order, status, action) == Hydrated(Seeded(s, order), order, status, action)
  {}

  lemma HydrateSameElsewhere(s: SandboxState, order: OrderContext, e: ActionExecution, observation: Option<DeliveryObservation>)
    ensures var t := Inspected(s, order, e, observation);
            SameElsewhere(s, t, order.orderId) && t.attempts == s.attempts && t.claimed == s.claimed
  {
    var seeded := Seeded(Verification.Observed(s, observation), order);
    SeededSameElsewhere(s, order, observation);
    HydrateSeeds(Verification.Observed(s, observation), order, e.status, e.command.action);
    ReappliedSameElsewhere(seeded, order, e.status, e.command.action);
    ElsewhereTransitive(s, seeded, Hydrated(seeded, order, e.status, e.command.action), order.orderId);
  }

  lemma HydrateLeaves(s: SandboxState, order: OrderContext, e: ActionExecution, observation: Option<DeliveryObservation>)
    requires Leaves(s, order, e.command.action, e.status) && (e.status.Succeeded? || e.status.Compensated? || e.status.Failed?)
    ensures Leaves(Inspected(s, order, e, observation), order, e.command.action, e.status)
  {}

  /** Re-applying a durable row touches its own order only, and agrees with what the saga left. */
  lemma HydrateAgrees(s: SandboxState, order: OrderContext, e: ActionExecution, observation: Option<DeliveryObservation>)
    requires e.status.Succeeded? || e.status.Compensated? || e.status.Failed?
    ensures var t := Inspected(s, order, e, observation);
            && SameElsewhere(s, t, order.orderId) && t.attempts == s.attempts && t.claimed == s.claimed
            && (Leaves(s, order, e.command.action, e.status) ==> Leaves(t, order, e.command.action, e.status))
  {
    HydrateSameElsewhere(s, order, e, observation);
    if Leaves(s, order, e.command.action, e.status) {
      HydrateLeaves(s, order, e, observation);
    }
  }

  lemma VerifyKeeps(w: World, id: DecisionId, observation: Option<DeliveryObservation>, now: Time)
    requires Inv(w) && WritesOk(w) && Authority.Inv(w.tables)
    ensures var v := Verify(w, id, observation, now).0; Inv(v) && WritesOk(v)
  {
    var v := Verify(w, id, observation, now).0;
    VerifyFrame(w, id, observation, now);
    if v.sandbox != w.sandbox {
      VerifySandbox(w, id, observation, now);
      var n := RowIndex(w, id);
      assert Authority.RowOk(w.tables, w.tables.actions[n]);
      HydratedKeeps(w, v, n, observation);
    } else {
      UnrelatedKeeps(w, v);
    }
  }

  lemma RowIndex(w: World, id: DecisionId) returns (n: nat)
    requires ActionFor(w.tables.actions, id).Some?
    ensures n < |w.tables.actions| && w.tables.actions[n] == ActionFor(w.tables.actions, id).value
    ensures w.tables.actions[n].command.decisionId == id
  {
    n :| 0 <= n < |w.tables.actions| && w.tables.actions[n] == ActionFor(w.tables.actions, id).value;
  }

  /** Re-applying row `n` to the sandbox. */
  lemma HydratedKeeps(w: World, v: World, n: nat, observation: Option<DeliveryObservation>)
    requires Inv(w) && WritesOk(w) && n < |w.tables.actions|
    requires var row := w.tables.actions[n];
             && (row.status.Succeeded? || row.status.Compensated? || row.status.Failed?)
             && OrderOf(w.tables, row.command.decisionId).Some?
             && v.sandbox == Inspected(w.sandbox, OrderOf(w.tables, row.command.decisionId).value, row, observation)
    requires v.tables.actions == w.tables.actions && v.tables.events == w.tables.events && v.tables.decisions == w.tables.decisions
    ensures Inv(v) && WritesOk(v)
  {
    var row := w.tables.actions[n];
    var order := OrderOf(w.tables, row.command.decisionId).value;
    assert RowLive(w, n);
    HydrateAgrees(w.sandbox, order, row, observation);
    VerifiedRows(w, v, order, n);
    forall o | !HasRow(v.tables.actions, o) ensures NoEntries(v.sandbox, o) {
      assert w.tables.actions[n].command.orderId == order.orderId;
      NoEntriesElsewhere(w.sandbox, v.sandbox, o, order.orderId);
    }
  }

  lemma VerifySandbox(w: World, id: DecisionId, observation: Option<DeliveryObservation>, now: Time)
    requires Verify(w, id, observation, now).0.sandbox != w.sandbox
    ensures id in w.tables.decisions && ActionFor(w.tables.actions, id).Some? && OrderOf(w.tables, id).Some?
    ensures Verify(w, id, observation, now).0.sandbox
         == Inspected(w.sandbox, OrderOf(w.tables, id).value, ActionFor(w.tables.actions, id).value, observation)
  {}

  lemma VerifiedRows(w: World, v: World, order: OrderContext, n: nat)
    requires Inv(w) && n < |w.tables.actions| && v.tables.actions == w.tables.actions
    requires v.tables.events == w.tables.events && v.tables.decisions == w.tables.decisions
    requires OrderOf(w.tables, w.tables.actions[n].command.decisionId) == Some(order)
    requires SameElsewhere(w.sandbox, v.sandbox, order.orderId)
    requires var row := w.tables.actions[n];
             Leaves(w.sandbox, order, row.command.action, row.status) ==> Leaves(v.sandbox, order, row.command.action, row.status)
    ensures forall i :: 0 <= i < |v.tables.actions| ==> RowLive(v, i)
  {
    assert RowLive(w, n);
    forall i | 0 <= i < |v.tables.actions| ensures RowLive(v, i) {
      assert RowLive(w, i);
      var row := w.tables.actions[i];
      var own := OrderOf(w.tables, row.command.decisionId).value;
      if i != n && Sole(w.tables.actions, i) {
        assert w.tables.actions[n].command.orderId != row.command.orderId;
        ElsewhereKeeps(w.sandbox, v.sandbox, own, row.command.action, row.status, order.orderId);
      }
    }
  }

  // ---------------------------------------------------------------- outcomes against action rows

  /** An outcome belongs to a recorded action, and VERIFIED on an order with a single action means that the
      action succeeded. */
  predicate OutcomeLive(w: World, o: OutcomeVerification) {
    exists i :: 0 <= i < |w.tables.actions| && OutcomeOfRow(w, o, i)
  }

  predicate OutcomeOfRow(w: World, o: OutcomeVerification, i: nat)
    requires i < |w.tables.actions|
  {
    var row := w.tables.actions[i];
    && o.actionId == row.actionId && o.decisionId == row.command.decisionId && o.executionStatus == row.status
    && (Sole(w.tables.actions, i) && o.status.Verified? ==> row.status.Succeeded?)
  }

  predicate OutcomesLive(w: World) {
    forall k :: 0 <= k < |w.tables.outcomes| ==> OutcomeLive(w, w.tables.outcomes[k])
  }

  lemma {:induction false} SolePrefix(before: seq<ActionExecution>, after: seq<ActionExecution>, i: nat)
    requires before <= after && i < |before| && Sole(after, i)
    ensures Sole(before, i)
  {
    forall k | 0 <= k < |before| && k != i ensures before[k].command.orderId != before[i].command.orderId {
      assert after[k].command.orderId != after[i].command.orderId;
    }
  }

  lemma OutcomesStay(w: World, v: World)
    requires OutcomesLive(w) && v.tables.outcomes == w.tables.outcomes && w.tables.actions <= v.tables.actions
    ensures OutcomesLive(v)
  {
    forall k | 0 <= k < |v.tables.outcomes| ensures OutcomeLive(v, v.tables.outcomes[k]) {
      OutcomeStays(w, v, w.tables.outcomes[k]);
    }
  }

  lemma OutcomeStays(w: World, v: World, o: OutcomeVerification)
    requires OutcomeLive(w, o) && w.tables.actions <= v.tables.actions
    ensures OutcomeLive(v, o)
  {
    var i :| 0 <= i < |w.tables.actions| && OutcomeOfRow(w, o, i);
    if Sole(v.tables.actions, i) {
      SolePrefix(w.tables.actions, v.tables.actions, i);
    }
    assert OutcomeOfRow(v, o, i);
  }

  /** On an order with a single action, a sandbox that agrees with the row shows the postcondition only if
      the row says so. */
  lemma VerifiedOnlyIfSucceeded(s: SandboxState, order: OrderContext, e: ActionExecution, observation: Option<DeliveryObservation>)
    requires order.Valid() && Leaves(s, order, e.command.action, e.status) && Executable(e.command.action)
    requires e.status.Succeeded? || e.status.Compensated? || e.status.Failed?
    ensures StatusOf(Inspected(s, order, e, observation), order, e).Verified? ==> e.status.Succeeded?
  {
    HydrateLeaves(s, order, e, observation);
    assert order.orderId in Inspected(s, order, e, observation).locations;
  }

  /** The outcomes after verification: unchanged, or one more for the verified row. */
  predicate VerifyOutcomes(w: World, id: DecisionId, observation: Option<DeliveryObservation>, now: Time, v: World) {
    || v.tables.outcomes == w.tables.outcomes
    || (&& id in w.tables.decisions && ActionFor(w.tables.actions, id).Some? && OrderOf(w.tables, id).Some?
        && var d, e, order := w.tables.decisions[id], ActionFor(w.tables.actions, id).value, OrderOf(w.tables, id).value;
        var selected := FirstWithAction(d.recommendation.ranked, e.command.action);
        && selected.Some?
        && v.tables.outcomes == w.tables.outcomes
                                + [OutcomeOf(Inspected(w.sandbox, order, e, observation), d, e, order, observation, selected.value, now)])
  }

  lemma PersistOutcomes(t: Tables, o: OutcomeVerification, action: RecoveryAction)
    ensures var u := Persist(t, o, action).0; u.outcomes == t.outcomes || u.outcomes == t.outcomes + [o]
  {
    RecordEvidenceFrame(t.(outcomes := RecordOutcomeRow(t.outcomes, o).0), OutcomeEvidence(o.outcomeId), action, o.status.Verified?, false);
  }

  lemma VerifyHasOutcomes(w: World, id: DecisionId, observation: Option<DeliveryObservation>, now: Time)
    ensures VerifyOutcomes(w, id, observation, now, Verify(w, id, observation, now).0)
  {
    if id in w.tables.decisions && ActionFor(w.tables.actions, id).Some? && OrderOf(w.tables, id).Some? {
      var d, e, order := w.tables.decisions[id], ActionFor(w.tables.actions, id).value, OrderOf(w.tables, id).value;
      var selected := FirstWithAction(d.recommendation.ranked, e.command.action);
      if selected.Some? {
        PersistOutcomes(w.tables, OutcomeOf(Inspected(w.sandbox, order, e, observation), d, e, order, observation, selected.value, now),
                        e.command.action);
      }
    }
  }

  lemma VerifyKeepsOutcomes(w: World, id: DecisionId, observation: Option<DeliveryObservation>, now: Time)
    requires Inv(w) && OutcomesLive(w) && Authority.Inv(w.tables) && EventsValid(w.tables.events)
    ensures OutcomesLive(Verify(w, id, observation, now).0)
  {
    var v := Verify(w, id, observation, now).0;
    VerifyFrame(w, id, observation, now);
    VerifyHasOutcomes(w, id, observation, now);
    if v.tables.outcomes == w.tables.outcomes {
      OutcomesStay(w, v);
    } else {
      var n := RowIndex(w, id);
      var k := |w.tables.outcomes|;
      NewOutcomeOfRow(w, v, id, n, v.tables.outcomes[k], observation);
      forall j | 0 <= j < |v.tables.outcomes| ensures OutcomeLive(v, v.tables.outcomes[j]) {
        if j < k {
          OutcomeStays(w, v, w.tables.outcomes[j]);
        }
      }
    }
  }

  lemma NewOutcomeOfRow(w: World, v: World, id: DecisionId, n: nat, o: OutcomeVerification, observation: Option<DeliveryObservation>)
    requires Inv(w) && Authority.Inv(w.tables) && EventsValid(w.tables.events) && v.tables.actions == w.tables.actions
    requires n < |w.tables.actions| && w.tables.actions[n].command.decisionId == id
    requires id in w.tables.decisions && OrderOf(w.tables, id).Some?
    requires var e, order := w.tables.actions[n], OrderOf(w.tables, id).value;
             && o.actionId == e.actionId && o.decisionId == w.tables.decisions[id].decisionId && o.executionStatus == e.status
             && o.status == StatusOf(Inspected(w.sandbox, order, e, observation), order, e)
    ensures OutcomeOfRow(v, o, n)
  {
    assert RowLive(w, n) && Authority.RowOk(w.tables, w.tables.actions[n]);
    assert Authority.DecisionOk(id, w.tables.decisions[id]);
    OrderIsValid(w.tables, id);
    if Sole(w.tables.actions, n) {
      VerifiedOnlyIfSucceeded(w.sandbox, OrderOf(w.tables, id).value, w.tables.actions[n], observation);
    }
  }

  // ---------------------------------------------------------------- whole histories

  predicate EventsValid(events: seq<EventRow>) {
    forall i :: 0 <= i < |events| ==> events[i].request.order.Valid()
  }

  lemma OrderIsValid(t: Tables, id: DecisionId)
    requires EventsValid(t.events) && OrderOf(t, id).Some?
    ensures OrderOf(t, id).value.Valid()
  {
    var row := Resolve(t.events, t.decisions[id].eventId).value;
    var i :| 0 <= i < |t.events| && t.events[i] == row;
  }

  lemma EvaluateEventsValid(env: Env, t: Tables, request: EvaluationRequest)
    requires EventsValid(t.events) && request.order.Valid()
    ensures EventsValid(Evaluate(env, t, request).0.events)
  {}

  lemma SubmitKeeps(env: Env, w: World, id: DecisionId, actorId: string, now: Time)
    requires Inv(w) && WritesOk(w) && Authority.Inv(w.tables)
    ensures var v := Submit(env, w, id, actorId, now).0; Inv(v)
  {
    if id in w.tables.decisions {
      var d := w.tables.decisions[id];
      assert Authority.DecisionOk(id, d);
      if d.policy.disposition.AutoExecute? {
        var event := Resolve(w.tables.events, d.eventId);
        if event.Some? {
          CommandKeeps(w, d, event.value.request.order, actorId, None, None, now);
        }
      } else {
        WaitingSubmit(env, w, id, actorId, now);
        UnrelatedKeeps(w, Submit(env, w, id, actorId, now).0);
      }
    }
  }

  lemma WaitingSubmit(env: Env, w: World, id: DecisionId, actorId: string, now: Time)
    requires id in w.tables.decisions && !w.tables.decisions[id].policy.disposition.AutoExecute?
    ensures var v := Submit(env, w, id, actorId, now).0; v == w.(tables := w.tables.(approvals := v.tables.approvals))
  {}

  lemma UnrelatedKeeps(w: World, v: World)
    requires Inv(w) && v.tables.events == w.tables.events && v.tables.decisions == w.tables.decisions
    requires v.tables.actions == w.tables.actions && SamePhysical(w.sandbox, v.sandbox)
    ensures Inv(v)
  {
    forall i | 0 <= i < |v.tables.actions| ensures RowLive(v, i) {
      assert RowLive(w, i);
    }
  }

  lemma ApproveKeeps(env: Env, w: World, id: ApprovalId, input: ApprovalInput, now: Time)
    requires Inv(w) && WritesOk(w) && Authority.Inv(w.tables)
    ensures Inv(ApproveAndExecute(env, w, id, input, now).0)
  {
    ApproveFrame(env, w, id, input, now);
    if ApproveAndExecute(env, w, id, input, now).0 != w {
      var d := w.tables.decisions[w.tables.approvals[id].decisionId];
      assert Authority.DecisionOk(w.tables.approvals[id].decisionId, d);
      var order := Resolve(w.tables.events, d.eventId).value.request.order;
      var (tables, decided) := Approvals.Decide(w.tables, id, input, Approved, now, env.strict);
      Reconciliation.DecideFrame(w.tables, id, input, Approved, now, env.strict);
      UnrelatedKeeps(w, w.(tables := tables));
      if decided.Returned? {
        CommandKeeps(w.(tables := tables), d, order, decided.value.requestedBy, decided.value.decidedBy, Some(decided.value), now);
      }
    }
  }

  lemma SubmitKeepsWrites(env: Env, w: World, id: DecisionId, actorId: string, now: Time)
    requires WritesOk(w)
    ensures WritesOk(Submit(env, w, id, actorId, now).0)
  {
    if id in w.tables.decisions && w.tables.decisions[id].policy.disposition.AutoExecute? {
      var d := w.tables.decisions[id];
      var event := Resolve(w.tables.events, d.eventId);
      if event.Some? {
        CommandKeepsWrites(w, d, event.value.request.order, actorId, None, None, now);
      }
    }
  }

  /** Neither the actions nor what was attempted and claimed differ. */
  lemma SameWritesKeep(w: World, v: World)
    requires WritesOk(w) && v.tables.actions == w.tables.actions
    requires v.sandbox.attempts == w.sandbox.attempts && v.sandbox.claimed == w.sandbox.claimed
    ensures WritesOk(v)
  {}

  lemma OthersKeepWrites(env: Env, w: World, op: Op)
    requires WritesOk(w) && (op.OpReject? || op.OpKillSwitch? || op.OpProfile? || op.OpInject? || op.OpClearFailures?)
    ensures WritesOk(Apply(env, w, op))
  {
    match op {
      case OpReject(id, input, now) => Reconciliation.DecideFrame(w.tables, id, input, RejectedApproval, now, env.strict);
      case OpKillSwitch(u) => SetKillSwitchFrame(w.tables, u, env.strict);
      case OpProfile(action, u) => SetProfileFrame(w.tables, action, u, env.strict);
      case _ =>
    }
    SameWritesKeep(w, Apply(env, w, op));
  }

  lemma StepKeepsWrites(env: Env, w: World, op: Op)
    requires WritesOk(w)
    ensures WritesOk(Apply(env, w, op))
  {
    match op {
      case OpEvaluate(request) =>
        EvaluateFrame(env, w.tables, request);
        SameWritesKeep(w, Apply(env, w, op));
      case OpSubmit(id, actor, now) => SubmitKeepsWrites(env, w, id, actor, now);
      case OpApprove(id, input, now) => ApproveKeepsWrites(env, w, id, input, now);
      case OpVerify(id, observation, now) => VerifyKeepsWrites(w, id, observation, now);
      case _ => OthersKeepWrites(env, w, op);
    }
  }

  lemma ApproveKeepsWrites(env: Env, w: World, id: ApprovalId, input: ApprovalInput, now: Time)
    requires WritesOk(w)
    ensures WritesOk(ApproveAndExecute(env, w, id, input, now).0)
  {
    ApproveFrame(env, w, id, input, now);
    if ApproveAndExecute(env, w, id, input, now).0 != w {
      var d := w.tables.decisions[w.tables.approvals[id].decisionId];
      var order := Resolve(w.tables.events, d.eventId).value.request.order;
      var (tables, decided) := Approvals.Decide(w.tables, id, input, Approved, now, env.strict);
      Reconciliation.DecideFrame(w.tables, id, input, Approved, now, env.strict);
      if decided.Returned? {
        CommandKeepsWrites(w.(tables := tables), d, order, decided.value.requestedBy, decided.value.decidedBy, Some(decided.value), now);
      }
    }
  }

  lemma VerifyKeepsWrites(w: World, id: DecisionId, observation: Option<DeliveryObservation>, now: Time)
    requires WritesOk(w)
    ensures WritesOk(Verify(w, id, observation, now).0)
  {
    VerifyFrame(w, id, observation, now);
    if Verify(w, id, observation, now).0.sandbox != w.sandbox {
      VerifySandbox(w, id, observation, now);
      HydrateSameElsewhere(w.sandbox, OrderOf(w.tables, id).value, ActionFor(w.tables.actions, id).value, observation);
    }
  }

  lemma {:induction false} RunKeepsWrites(env: Env, ops: seq<Op>)
    ensures WritesOk(Run(env, START, ops))
  {
    if ops == [] {
    } else {
      RunKeepsWrites(env, ops[..|ops| - 1]);
      StepKeepsWrites(env, Run(env, START, ops[..|ops| - 1]), ops[|ops| - 1]);
    }
  }

  /** Each provider write is attempted at most once, over any history and any replays: all write calls ever
      made carry different keys, and every key belongs to a recorded action. */
  lemma EveryWriteAtMostOnce(env: Env, ops: seq<Op>)
    ensures var w := Run(env, START, ops);
            && (forall i, j :: 0 <= i < j < |w.sandbox.attempts| ==> w.sandbox.attempts[i] != w.sandbox.attempts[j])
            && (forall i :: 0 <= i < |w.sandbox.attempts| ==>
                  0 <= FindAction(w.tables.actions, ActionId(w.sandbox.attempts[i].idempotency)))
  {
    RunKeepsWrites(env, ops);
  }

  /** Everything this module keeps over a history whose events are stable and valid. */
  ghost predicate Kept(w: World) {
    Inv(w) && OutcomesLive(w) && EventsValid(w.tables.events)
  }

  lemma EvaluateKeeps(env: Env, w: World, request: EvaluationRequest)
    requires Kept(w) && request.order.Valid() && StableOrders(Evaluate(env, w.tables, request).0.events)
    ensures Kept(w.(tables := Evaluate(env, w.tables, request).0))
  {
    var v := w.(tables := Evaluate(env, w.tables, request).0);
    EvaluateFrame(env, w.tables, request);
    EvaluateEventsValid(env, w.tables, request);
    GrownKeeps(w, v);
    OutcomesStay(w, v);
  }

  lemma RejectKeeps(env: Env, w: World, id: ApprovalId, input: ApprovalInput, now: Time)
    requires Inv(w)
    ensures Inv(Reject(env, w, id, input, now).0)
  {
    Reconciliation.DecideFrame(w.tables, id, input, RejectedApproval, now, env.strict);
    UnrelatedKeeps(w, Reject(env, w, id, input, now).0);
  }

  lemma ControlsKeep(env: Env, w: World, op: Op)
    requires Inv(w) && (op.OpKillSwitch? || op.OpProfile? || op.OpInject? || op.OpClearFailures?)
    ensures Inv(Apply(env, w, op))
  {
    match op {
      case OpKillSwitch(u) => SetKillSwitchFrame(w.tables, u, env.strict);
      case OpProfile(action, u) => SetProfileFrame(w.tables, action, u, env.strict);
      case _ =>
    }
    UnrelatedKeeps(w, Apply(env, w, op));
  }

  lemma StepKeeps(env: Env, w: World, op: Op)
    requires Kept(w) && WritesOk(w) && Authority.Inv(w.tables) && !op.OpEvaluate?
    ensures Kept(Apply(env, w, op))
  {
    match op {
      case OpSubmit(id, actor, now) => SubmitKeeps(env, w, id, actor, now);
      case OpApprove(id, input, now) => ApproveKeeps(env, w, id, input, now);
      case OpReject(id, input, now) => RejectKeeps(env, w, id, input, now);
      case OpVerify(id, observation, now) =>
        VerifyKeeps(w, id, observation, now);
        VerifyKeepsOutcomes(w, id, observation, now);
      case _ => ControlsKeep(env, w, op);
    }
    ControlHistory.OnlyEvaluateDecides(env, w, op);
    if !op.OpVerify? {
      Authority.StepKeeps(env, w, op);
      OutcomesStay(w, Apply(env, w, op));
    }
  }

  lemma StablePrefix(before: seq<EventRow>, after: seq<EventRow>)
    requires before <= after && StableOrders(after)
    ensures StableOrders(before)
  {
    assert forall i :: 0 <= i < |before| ==> before[i] == after[i];
  }

  lemma {:induction false} RunKeeps(env: Env, ops: seq<Op>)
    requires ValidOps(ops) && StableOrders(Run(env, START, ops).tables.events)
    ensures Kept(Run(env, START, ops))
  {
    if ops == [] {
    } else {
      var before, op := ops[..|ops| - 1], ops[|ops| - 1];
      var w := Run(env, START, before);
      if op.OpEvaluate? {
        EvaluateFrame(env, w.tables, op.request);
      } else {
        ControlHistory.OnlyEvaluateDecides(env, w, op);
      }
      StablePrefix(w.tables.events, Run(env, START, ops).tables.events);
      RunKeeps(env, before);
      if op.OpEvaluate? {
        EvaluateKeeps(env, w, op.request);
      } else {
        RunKeepsWrites(env, before);
        Authority.RunKeeps(env, START, before);
        StepKeeps(env, w, op);
      }
    }
  }

  /** An emptied sandbox, rebuilt from the row, shows what the live one shows. */
  lemma RebuiltAgrees(s: SandboxState, order: OrderContext, e: ActionExecution, o: DeliveryObservation)
    requires Leaves(s, order, e.command.action, e.status) && Executable(e.command.action) && order.Valid()
    requires (e.status.Succeeded? || e.status.Compensated? || e.status.Failed?) && o.orderId == order.orderId
    ensures var live, cold := Inspected(s, order, e, Some(o)), Inspected(EMPTY_SANDBOX, order, e, Some(o));
            && PostconditionHolds(live, order, e.command.action) == PostconditionHolds(cold, order, e.command.action)
            && Get(live.deliveries, order.orderId) == Get(cold.deliveries, order.orderId) == Some(o.onTime)
            && StatusOf(live, order, e) == StatusOf(cold, order, e)
            && (StatusOf(live, order, e).Verified? <==> e.status.Succeeded?)
  {
    HydrateLeaves(s, order, e, Some(o));
    assert order.orderId in Inspected(s, order, e, Some(o)).locations && order.orderId in Inspected(s, order, e, Some(o)).services;
  }

  /** Equal sandboxes as far as the order's postcondition and delivery go draft equal outcomes. */
  lemma DraftsAgree(s: SandboxState, d: DecisionTrace, e: ActionExecution, order: OrderContext, o: DeliveryObservation,
                    selected: RecoveryOption, now: Time)
    requires Leaves(s, order, e.command.action, e.status) && Executable(e.command.action) && order.Valid()
    requires (e.status.Succeeded? || e.status.Compensated? || e.status.Failed?) && o.orderId == order.orderId
    ensures OutcomeOf(Inspected(s, order, e, Some(o)), d, e, order, Some(o), selected, now)
         == OutcomeOf(Inspected(EMPTY_SANDBOX, order, e, Some(o)), d, e, order, Some(o), selected, now)
    ensures OutcomeOf(Inspected(s, order, e, Some(o)), d, e, order, Some(o), selected, now).status.Verified? <==> e.status.Succeeded?
  {
    RebuiltAgrees(s, order, e, o);
  }

  lemma PersistReturnsDraft(t: Tables, o: OutcomeVerification, action: RecoveryAction)
    ensures Persist(t, o, action).1.Returned? ==> Persist(t, o, action).1.value == o
  {}

  /** Two verifications of one row, on sandboxes that draft alike. */
  predicate SameVerification(w: World, v: World, id: DecisionId, o: DeliveryObservation, now: Time, succeeded: bool) {
    var live, cold := Verify(w, id, Some(o), now), Verify(v, id, Some(o), now);
    && live.1 == cold.1 && live.0.tables == cold.0.tables
    && (live.1.Returned? ==> live.1.value.outcome.Some? && (live.1.value.outcome.value.status.Verified? <==> succeeded))
  }

  lemma RestartedVerification(w: World, id: DecisionId, o: DeliveryObservation, now: Time)
    requires id in w.tables.decisions && ActionFor(w.tables.actions, id).Some? && OrderOf(w.tables, id).Some?
    requires var e, order := ActionFor(w.tables.actions, id).value, OrderOf(w.tables, id).value;
             && Leaves(w.sandbox, order, e.command.action, e.status) && Executable(e.command.action) && order.Valid()
             && (e.status.Succeeded? || e.status.Compensated? || e.status.Failed?) && o.orderId == order.orderId
    ensures SameVerification(w, World(w.tables, EMPTY_SANDBOX), id, o, now, ActionFor(w.tables.actions, id).value.status.Succeeded?)
  {
    var d, e, order := w.tables.decisions[id], ActionFor(w.tables.actions, id).value, OrderOf(w.tables, id).value;
    var selected := FirstWithAction(d.recommendation.ranked, e.command.action);
    if selected.Some? {
      DraftsAgree(w.sandbox, d, e, order, o, selected.value, now);
      PersistReturnsDraft(w.tables, OutcomeOf(Inspected(w.sandbox, order, e, Some(o)), d, e, order, Some(o), selected.value, now),
                          e.command.action);
    }
  }

  lemma RowIsFound(t: Tables, i: nat)
    requires Authority.Inv(t) && i < |t.actions|
    ensures ActionFor(t.actions, t.actions[i].command.decisionId) == Some(t.actions[i])
  {
    var found := ActionFor(t.actions, t.actions[i].command.decisionId).value;
    var k :| 0 <= k < |t.actions| && t.actions[k] == found;
  }

  /** Restart refinement: after any history, for a finished action that is the only one on its order and a
      supplied delivery observation, verifying its decision with an emptied sandbox, rebuilt from the durable
      row, gives the same reply and the same tables as verifying it on the live systems; and an outcome so
      returned is VERIFIED if and only if the action SUCCEEDED, on time or not. */
  lemma RestartRefinement(env: Env, ops: seq<Op>, i: nat, o: DeliveryObservation, now: Time)
    requires ValidOps(ops) && StableOrders(Run(env, START, ops).tables.events)
    requires i < |Run(env, START, ops).tables.actions| && Sole(Run(env, START, ops).tables.actions, i)
    requires o.orderId == Run(env, START, ops).tables.actions[i].command.orderId
    ensures var w := Run(env, START, ops); var row := w.tables.actions[i];
            SameVerification(w, World(w.tables, EMPTY_SANDBOX), row.command.decisionId, o, now, row.status.Succeeded?)
  {
    RunKeeps(env, ops);
    Authority.RunKeeps(env, START, ops);
    SoleRowRestarts(Run(env, START, ops), i, o, now);
  }

  lemma SoleRowRestarts(w: World, i: nat, o: DeliveryObservation, now: Time)
    requires Kept(w) && Authority.Inv(w.tables) && i < |w.tables.actions| && Sole(w.tables.actions, i)
    requires o.orderId == w.tables.actions[i].command.orderId
    ensures var row := w.tables.actions[i];
            SameVerification(w, World(w.tables, EMPTY_SANDBOX), row.command.decisionId, o, now, row.status.Succeeded?)
  {
    var row := w.tables.actions[i];
    assert RowLive(w, i) && Authority.RowOk(w.tables, row);
    OrderIsValid(w.tables, row.command.decisionId);
    RowIsFound(w.tables, i);
    RestartedVerification(w, row.command.decisionId, o, now);
  }

  /** Every outcome ever recorded belongs to one recorded action of its own decision, and on an order with a
      single action a VERIFIED outcome means that action SUCCEEDED. */
  lemma VerifiedMeansSucceeded(env: Env, ops: seq<Op>, k: nat)
    requires ValidOps(ops) && StableOrders(Run(env, START, ops).tables.events)
    requires k < |Run(env, START, ops).tables.outcomes|
    ensures OutcomeLive(Run(env, START, ops), Run(env, START, ops).tables.outcomes[k])
  {
    RunKeeps(env, ops);
  }

  /** A decision that was acted on is answered from its row: submitting an AUTO_EXECUTE decision again leaves
      tables and sandbox as they are, and returns the stored row unless the kill switch forbids even that. */
  lemma ReplayReturnsTheRow(env: Env, ops: seq<Op>, id: DecisionId, actorId: string, now: Time)
    requires var t := Run(env, START, ops).tables;
             && id in t.decisions && t.decisions[id].policy.disposition.AutoExecute?
             && ActionFor(t.actions, id).Some? && StableOrders(t.events) && ValidOps(ops)
    ensures var w := Run(env, START, ops); var (v, r) := Submit(env, w, id, actorId, now);
            && v == w
            && r == if w.tables.killSwitch.active then Raised(ActionExecutionError)
                    else Returned(WorkflowState(w.tables.decisions[id], None, ActionFor(w.tables.actions, id), None))
  {
    RunKeeps(env, ops);
    Authority.RunKeeps(env, START, ops);
    var w := Run(env, START, ops);
    var row := ActionFor(w.tables.actions, id).value;
    var i :| 0 <= i < |w.tables.actions| && w.tables.actions[i] == row;
    assert RowLive(w, i) && Authority.RowOk(w.tables, row);
    assert Authority.DecisionOk(id, w.tables.decisions[id]);
    ReplayedSubmit(env, w, id, actorId, now);
  }

  lemma ReplayedSubmit(env: Env, w: World, id: DecisionId, actorId: string, now: Time)
    requires id in w.tables.decisions && OrderOf(w.tables, id).Some? && ActionFor(w.tables.actions, id).Some?
    requires var d := w.tables.decisions[id];
             && d.decisionId == id && d.policy.disposition.AutoExecute? && SelectedOption(d).Some?
             && Executable(d.recommendation.selectedAction)
             && ActionFor(w.tables.actions, id).value.command.idempotencyKey == KeyOf(d)
    ensures Submit(env, w, id, actorId, now) ==
            (w, if w.tables.killSwitch.active then Raised(ActionExecutionError)
                else Returned(WorkflowState(w.tables.decisions[id], None, ActionFor(w.tables.actions, id), None)))
  {
    var d := w.tables.decisions[id];
    assert CommandFor(d, OrderOf(w.tables, id).value, actorId, None).Returned?;
  }
}
