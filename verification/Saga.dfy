/** execution.py `_execute_steps`: the write saga of one action. The specification is a decision table
    over how each provider write behaves; the gateway's own code, with its exceptions, verification
    of ambiguous writes and compensation, is proved equal to it in Gateway.dfy. */
module Saga {
  import opened Common
  import opened Models
  import opened Sandbox

  /** A saga either finishes with a status or lets an exception escape. */
  datatype SagaResult = Finished(status: ActionStatus, steps: seq<StepResult>, cause: Option<Error>) | Aborted(error: Error)

  function Step1(name: string, reference: Reference): StepResult { StepResult(1, name, StepSucceeded, reference, None) }
  function Step2(name: string, reference: Reference): StepResult { StepResult(2, name, StepSucceeded, reference, None) }

  function UndoReroute(s: SandboxState, order: OrderContext): SandboxState
    requires order.alternativeLocation.Some?
  {
    s.(locations := s.locations[order.orderId := order.currentLocation],
       reservations := s.reservations - {(order.orderId, order.alternativeLocation.value)})
  }

  function RerouteSaga(s: SandboxState, order: OrderContext, key: IdempotencyKey): (SandboxState, SagaResult) {
    match order.alternativeLocation
    case None => (s, Aborted(ActionExecutionError))
    case Some(location) =>
      var reserveKey, reserveOp := ProviderKey(key, ReserveAlternative), ReserveOp(order.orderId, location);
      var s1 := Called(s, reserveKey, reserveOp);
      match FaultOf(s, reserveKey, reserveOp)
      case Refused(e) => (s1, Aborted(e))
      case WroteThen(e) => (s1, Aborted(e))
      case Clean => ChangePhase(s1, order, location, key)
  }

  /** The second write of a reroute, with the reservation in place. */
  function ChangePhase(s: SandboxState, order: OrderContext, location: string, key: IdempotencyKey): (SandboxState, SagaResult)
    requires order.alternativeLocation == Some(location)
  {
    var changeKey, changeOp := ProviderKey(key, ChangeLocation), RerouteOp(order.orderId, location);
    var t := Called(s, changeKey, changeOp);
    var reserved := Step1("reserve_alternative", ReservationRef(order.orderId, location));
    match FaultOf(s, changeKey, changeOp)
    case Clean =>
      (t, Finished(Succeeded, [reserved, Step2("change_location", LocationRef(order.orderId, location))], None))
    case Refused(e) =>
      if e.AdapterRateLimited? then (t, Aborted(e)) else Compensation(t, order, reserved, e)
    case WroteThen(e) =>
      if e.IsAmbiguousWrite()
      then (t, Finished(Succeeded, [reserved, Step2("change_location", VerifiedAfterTimeout(order.orderId))], None))
      else Compensation(t, order, reserved, e)
  }

  function Compensation(s: SandboxState, order: OrderContext, reserved: StepResult, e: Error): (SandboxState, SagaResult)
    requires order.alternativeLocation.Some?
  {
    (UndoReroute(s, order),
     Finished(Compensated,
              [reserved, StepResult(2, "compensate_reroute", StepCompensated,
                                    RestoredLocation(order.orderId, order.currentLocation), Some(e))],
              Some(e)))
  }

  /** The single-write sagas: a write that lands is kept when the answer was merely lost, undone when
      the provider failed hard; a refusal aborts unless the postcondition already held. */
  function SingleWriteSaga(
    s: SandboxState, order: OrderContext, action: RecoveryAction, key: ProviderKey, op: Operation,
    name: string, reference: Reference, undoName: string, undone: SandboxState -> SandboxState, undoReference: Reference)
    : (SandboxState, SagaResult)
  {
    var s1 := Called(s, key, op);
    match FaultOf(s, key, op)
    case Clean => (s1, Finished(Succeeded, [Step1(name, reference)], None))
    case WroteThen(e) =>
      if e.IsAmbiguousWrite() then (s1, Finished(Succeeded, [Step1(name, VerifiedAfterTimeout(order.orderId))], None))
      else (undone(s1), Finished(Compensated, [StepResult(1, undoName, StepCompensated, undoReference, Some(e))], Some(e)))
    case Refused(e) =>
      if e.IsAdapterError() && PostconditionHolds(s1, order, action)
      then (undone(s1), Finished(Compensated, [StepResult(1, undoName, StepCompensated, undoReference, Some(e))], Some(e)))
      else (s1, Aborted(e))
  }

  function CarrierSaga(s: SandboxState, order: OrderContext, key: IdempotencyKey): (SandboxState, SagaResult) {
    SingleWriteSaga(
      s, order, CarrierUpgrade, ProviderKey(key, UpgradeCarrier), CarrierOp(order.orderId, order.upgradedService),
      "upgrade_carrier", ServiceRef(order.orderId, order.upgradedService), "compensate_carrier_upgrade",
      (t: SandboxState) => t.(services := t.services[order.orderId := order.currentService]),
      RestoredService(order.orderId, order.currentService))
  }

  function SplitSaga(s: SandboxState, order: OrderContext, key: IdempotencyKey): (SandboxState, SagaResult) {
    if order.splitPossible then
      SingleWriteSaga(
        s, order, SplitShipment, ProviderKey(key, CreateSplit), SplitOp(order.orderId),
        "create_split", SplitRef(order.orderId), "compensate_split",
        (t: SandboxState) => t.(splits := t.splits - {order.orderId}), CancelledSplit(order.orderId))
    else if order.orderId in s.splits then
      (s.(splits := s.splits - {order.orderId}),
       Finished(Compensated,
                [StepResult(1, "compensate_split", StepCompensated, CancelledSplit(order.orderId), Some(ActionExecutionError))],
                Some(ActionExecutionError)))
    else (s, Aborted(ActionExecutionError))
  }

  function RunSaga(s: SandboxState, order: OrderContext, action: RecoveryAction, key: IdempotencyKey): (SandboxState, SagaResult) {
    match action
    case Reroute => RerouteSaga(s, order, key)
    case CarrierUpgrade => CarrierSaga(s, order, key)
    case SplitShipment => SplitSaga(s, order, key)
    case _ => (s, Aborted(ActionExecutionError))
  }

  // ---------------------------------------------------------------- what a saga leaves behind

  /** The order has not been acted on: its entries are absent or its own current values. */
  predicate Untouched(s: SandboxState, order: OrderContext) {
    && (order.orderId in s.locations ==> s.locations[order.orderId] == order.currentLocation)
    && (order.orderId in s.services ==> s.services[order.orderId] == order.currentService)
    && order.orderId !in s.splits
    && forall r :: r in s.reservations ==> r.0 != order.orderId
  }

  /** No entry of any other order differs. */
  ghost predicate OthersAgree(s: SandboxState, t: SandboxState, orderId: string) {
    && (forall o :: o != orderId ==> Get(s.locations, o) == Get(t.locations, o) && Get(s.services, o) == Get(t.services, o))
    && (forall o :: o != orderId ==> (o in s.splits <==> o in t.splits))
    && (forall r: (string, string) :: r.0 != orderId ==> (r in s.reservations <==> r in t.reservations))
    && s.deliveries == t.deliveries && s.modes == t.modes
  }

  /** Locations, services, splits and reservations are the same. */
  predicate SamePhysical(s: SandboxState, t: SandboxState) {
    s.locations == t.locations && s.services == t.services && s.splits == t.splits && s.reservations == t.reservations
  }

  /** Reservations differ at most by the saga's own one, and nothing else does. */
  predicate SameButReservation(s: SandboxState, t: SandboxState, order: OrderContext) {
    && s.locations == t.locations && s.services == t.services && s.splits == t.splits
    && (t.reservations == s.reservations
        || (order.alternativeLocation.Some?
            && t.reservations == s.reservations + {(order.orderId, order.alternativeLocation.value)}))
  }

  ghost predicate SagaContract(s: SandboxState, order: OrderContext, action: RecoveryAction, t: SandboxState, r: SagaResult) {
    && (r.Finished? ==> r.status.Succeeded? || r.status.Compensated?)
    && (r.Finished? && r.status.Succeeded? ==>
          && PostconditionHolds(t, order, action)
          && (action.Reroute? ==> (order.orderId, order.alternativeLocation.value) in t.reservations))
    && (r.Finished? && r.status.Compensated? ==> SamePhysical(s, t))
    && (r.Aborted? ==> if action.Reroute? then SameButReservation(s, t, order) else SamePhysical(s, t))
    && OthersAgree(s, t, order.orderId)
  }

  /** The write calls of one saga: distinct, and all under the saga's own key. */
  predicate OwnWrites(s: SandboxState, t: SandboxState, key: IdempotencyKey) {
    || t.attempts == s.attempts
    || (exists step :: t.attempts == s.attempts + [ProviderKey(key, step)])
    || t.attempts == s.attempts + [ProviderKey(key, ReserveAlternative)] + [ProviderKey(key, ChangeLocation)]
  }

  /** The reroute saga's effect on the records, from any state. */
  ghost predicate RerouteEffect(s: SandboxState, order: OrderContext, key: IdempotencyKey, t: SandboxState, r: SagaResult) {
    && t.services == s.services && t.splits == s.splits && t.deliveries == s.deliveries && t.modes == s.modes
    && OwnWrites(s, t, key)
    && (r.Aborted? ==> SameButReservation(s, t, order))
    && (r.Finished? ==>
          && order.alternativeLocation.Some? && (r.status.Succeeded? || r.status.Compensated?)
          && var pair := (order.orderId, order.alternativeLocation.value);
          && (r.status.Succeeded? ==> t.locations == s.locations[order.orderId := pair.1]
                                      && t.reservations == s.reservations + {pair})
          && (r.status.Compensated? ==> t.locations == s.locations[order.orderId := order.currentLocation]
                                        && t.reservations == s.reservations - {pair}))
  }

  lemma ChangeHasEffect(s: SandboxState, order: OrderContext, location: string, key: IdempotencyKey)
    requires order.alternativeLocation == Some(location)
    ensures var (t, r) := ChangePhase(s, order, location, key);
            && t.services == s.services && t.splits == s.splits && t.deliveries == s.deliveries && t.modes == s.modes
            && t.attempts == s.attempts + [ProviderKey(key, ChangeLocation)]
            && (r.Aborted? ==> t.locations == s.locations && t.reservations == s.reservations)
            && (r.Finished? ==>
                  || (r.status.Succeeded? && t.locations == s.locations[order.orderId := location] && t.reservations == s.reservations)
                  || (r.status.Compensated? && t.locations == s.locations[order.orderId := order.currentLocation]
                      && t.reservations == s.reservations - {(order.orderId, location)}))
  {
    assert s.locations[order.orderId := location][order.orderId := order.currentLocation]
        == s.locations[order.orderId := order.currentLocation];
  }

  lemma ReserveHasEffect(s: SandboxState, order: OrderContext, location: string, key: IdempotencyKey)
    ensures var k, op := ProviderKey(key, ReserveAlternative), ReserveOp(order.orderId, location);
            var t := Called(s, k, op);
            && t.services == s.services && t.splits == s.splits && t.deliveries == s.deliveries && t.modes == s.modes
            && t.locations == s.locations && t.attempts == s.attempts + [k]
            && t.reservations == if FaultOf(s, k, op).Refused? then s.reservations else s.reservations + {(order.orderId, location)}
  {}

  lemma RerouteHasEffect(s: SandboxState, order: OrderContext, key: IdempotencyKey)
    ensures var (t, r) := RerouteSaga(s, order, key); RerouteEffect(s, order, key, t, r)
  {
    if order.alternativeLocation.Some? {
      var location := order.alternativeLocation.value;
      var reserveKey, reserveOp := ProviderKey(key, ReserveAlternative), ReserveOp(order.orderId, location);
      var s1 := Called(s, reserveKey, reserveOp);
      ReserveHasEffect(s, order, location, key);
      if FaultOf(s, reserveKey, reserveOp).Clean? {
        assert RerouteSaga(s, order, key) == ChangePhase(s1, order, location, key);
        ChangeHasEffect(s1, order, location, key);
        assert s.reservations + {(order.orderId, location)} - {(order.orderId, location)}
            == s.reservations - {(order.orderId, location)};
      } else {
        assert RerouteSaga(s, order, key).0 == s1 && RerouteSaga(s, order, key).1.Aborted?;
      }
    }
  }

  lemma RerouteOutcome(s: SandboxState, order: OrderContext, key: IdempotencyKey)
    requires order.Valid() && Untouched(s, order) && order.orderId in s.locations
    ensures var (t, r) := RerouteSaga(s, order, key); SagaContract(s, order, Reroute, t, r)
  {
    RerouteHasEffect(s, order, key);
    if order.alternativeLocation.Some? {
      assert s.reservations - {(order.orderId, order.alternativeLocation.value)} == s.reservations;
    }
    assert s.locations[order.orderId := order.currentLocation] == s.locations;
  }

  lemma CarrierOutcome(s: SandboxState, order: OrderContext, key: IdempotencyKey)
    requires Untouched(s, order) && order.orderId in s.services
    ensures var (t, r) := CarrierSaga(s, order, key); SagaContract(s, order, CarrierUpgrade, t, r)
  {
    var (t, r) := CarrierSaga(s, order, key);
    if r.Finished? && r.status.Compensated? {
      assert t.services == s.services;
    }
  }

  lemma SplitOutcome(s: SandboxState, order: OrderContext, key: IdempotencyKey)
    requires Untouched(s, order)
    ensures var (t, r) := SplitSaga(s, order, key); SagaContract(s, order, SplitShipment, t, r)
  {
    var (t, r) := SplitSaga(s, order, key);
    if r.Finished? && r.status.Compensated? {
      assert t.splits == s.splits;
    }
  }

  /** Saga outcome: whatever failures are injected and whatever keys were claimed before, an action on
      an untouched order either succeeds with its postcondition, or is compensated back to exactly the
      state before, or aborts leaving at most a reroute's own reservation; no other order is touched. */
  lemma SagaOutcome(s: SandboxState, order: OrderContext, action: RecoveryAction, key: IdempotencyKey)
    requires order.Valid() && Executable(action) && Untouched(s, order)
    ensures var (t, r) := RunSaga(Seeded(s, order), order, action, key);
            SagaContract(Seeded(s, order), order, action, t, r)
  {
    var seeded := Seeded(s, order);
    match action
    case Reroute => RerouteOutcome(seeded, order, key);
    case CarrierUpgrade => CarrierOutcome(seeded, order, key);
    case SplitShipment => SplitOutcome(seeded, order, key);
  }

  /** A reroute that aborts leaves its reservation behind exactly when the reservation was written and
      then either its own answer failed or the location change was rate limited. */
  lemma LeftoverReservation(s: SandboxState, order: OrderContext, key: IdempotencyKey)
    requires order.Valid() && Untouched(s, order) && order.alternativeLocation.Some?
    ensures var (t, r) := RerouteSaga(s, order, key);
            var fault := FaultOf(s, ProviderKey(key, ReserveAlternative), ReserveOp(order.orderId, order.alternativeLocation.value));
            (r.Aborted? && (order.orderId, order.alternativeLocation.value) in t.reservations)
            <==> fault.WroteThen? || (fault.Clean? && ChangeLocation in s.modes && s.modes[ChangeLocation].RateLimited?)
  {}

  /** Compensation restores the order's own current values rather than a saved state. From any state
      whatever, it gives back the state before the saga if and only if the order stood at those values
      and did not already hold what the saga undoes. */
  lemma CompensationRestoresExactly(s: SandboxState, order: OrderContext, action: RecoveryAction, key: IdempotencyKey)
    requires var r := RunSaga(s, order, action, key).1; r.Finished? && r.status.Compensated?
    ensures SamePhysical(s, RunSaga(s, order, action, key).0) <==>
            match action
            case Reroute => Get(s.locations, order.orderId) == Some(order.currentLocation)
                            && (order.orderId, order.alternativeLocation.value) !in s.reservations
            case CarrierUpgrade => Get(s.services, order.orderId) == Some(order.currentService)
            case _ => order.orderId !in s.splits
  {
    match action {
      case Reroute => RerouteRestores(s, order, key);
      case CarrierUpgrade => CarrierRestores(s, order, key);
      case _ => SplitRestores(s, order, key);
    }
  }

  lemma RerouteRestores(s: SandboxState, order: OrderContext, key: IdempotencyKey)
    requires var r := RerouteSaga(s, order, key).1; r.Finished? && r.status.Compensated?
    ensures SamePhysical(s, RerouteSaga(s, order, key).0) <==>
            && Get(s.locations, order.orderId) == Some(order.currentLocation)
            && (order.orderId, order.alternativeLocation.value) !in s.reservations
  {
    RerouteHasEffect(s, order, key);
    var pair := (order.orderId, order.alternativeLocation.value);
    assert s.reservations - {pair} == s.reservations <==> pair !in s.reservations;
    assert s.locations[order.orderId := order.currentLocation] == s.locations
      <==> Get(s.locations, order.orderId) == Some(order.currentLocation);
  }

  lemma CarrierRestores(s: SandboxState, order: OrderContext, key: IdempotencyKey)
    requires var r := CarrierSaga(s, order, key).1; r.Finished? && r.status.Compensated?
    ensures SamePhysical(s, CarrierSaga(s, order, key).0) <==> Get(s.services, order.orderId) == Some(order.currentService)
  {
    var t := CarrierSaga(s, order, key).0;
    var restored := s.services[order.orderId := order.currentService];
    assert t.services == restored;
    assert restored == s.services <==> Get(s.services, order.orderId) == Some(order.currentService);
  }

  lemma SplitRestores(s: SandboxState, order: OrderContext, key: IdempotencyKey)
    requires var r := SplitSaga(s, order, key).1; r.Finished? && r.status.Compensated?
    ensures SamePhysical(s, SplitSaga(s, order, key).0) <==> order.orderId !in s.splits
  {
    var t := SplitSaga(s, order, key).0;
    assert t.splits == s.splits - {order.orderId};
    assert s.splits - {order.orderId} == s.splits <==> order.orderId !in s.splits;
  }

  /** One call makes each provider write at most once, under keys of its own. */
  lemma WritesAtMostOnce(s: SandboxState, order: OrderContext, action: RecoveryAction, key: IdempotencyKey)
    ensures OwnWrites(s, RunSaga(s, order, action, key).0, key)
  {
    var t := RunSaga(s, order, action, key).0;
    match action {
      case Reroute => RerouteHasEffect(s, order, key);
      case CarrierUpgrade => assert t.attempts == s.attempts + [ProviderKey(key, UpgradeCarrier)];
      case SplitShipment => assert order.splitPossible ==> t.attempts == s.attempts + [ProviderKey(key, CreateSplit)];
      case _ =>
    }
  }
}
