/** adapters/sandbox.py: the in-memory systems of record with failure injection. */
module Sandbox {
  import opened Common
  import opened Models

  datatype Step = ReserveAlternative | ChangeLocation | UpgradeCarrier | CreateSplit

  datatype FailureMode = Before | After | Malformed | RateLimited | HardAfter

  /** `<idempotency key>:<write step>`. */
  datatype ProviderKey = ProviderKey(idempotency: IdempotencyKey, step: Step)

  datatype Operation =
    | ReserveOp(orderId: string, location: string)
    | RerouteOp(orderId: string, location: string)
    | CarrierOp(orderId: string, service: string)
    | SplitOp(orderId: string)

  /** `attempts` is a history of the write calls made; the other fields are the sandbox's own. */
  datatype SandboxState = SandboxState(
    locations: map<string, string>,
    services: map<string, string>,
    splits: set<string>,
    reservations: set<(string, string)>,
    deliveries: map<string, bool>,
    claimed: map<ProviderKey, Operation>,
    modes: map<Step, FailureMode>,
    attempts: seq<ProviderKey>)

  const EMPTY_SANDBOX := SandboxState(map[], map[], {}, {}, map[], map[], map[], [])

  /** How a provider write behaves: it goes through, it is refused before the write, or the write
      lands and an exception follows. */
  datatype Fault = Clean | Refused(error: Error) | WroteThen(error: Error)

  function FaultOf(s: SandboxState, key: ProviderKey, op: Operation): Fault {
    var mode := if key.step in s.modes then Some(s.modes[key.step]) else None;
    if mode == Some(Before) then Refused(ActionExecutionError)
    else if mode == Some(RateLimited) then Refused(AdapterRateLimited)
    else if key in s.claimed && s.claimed[key] != op then Refused(PersistenceConflictError)
    else if mode == Some(After) then WroteThen(AmbiguousProviderTimeout)
    else if mode == Some(Malformed) then WroteThen(MalformedAdapterResponse)
    else if mode == Some(HardAfter) then WroteThen(ActionExecutionError)
    else Clean
  }

  function Seeded(s: SandboxState, order: OrderContext): SandboxState {
    s.(locations := if order.orderId in s.locations then s.locations else s.locations[order.orderId := order.currentLocation],
       services := if order.orderId in s.services then s.services else s.services[order.orderId := order.currentService])
  }

  /** The state after a write call: the call is in the history and, if it landed, its effect too. */
  function Called(s: SandboxState, key: ProviderKey, op: Operation): SandboxState {
    var attempted := s.(attempts := s.attempts + [key]);
    if FaultOf(s, key, op).Refused? then attempted
    else
      var claimed := attempted.(claimed := s.claimed[key := op]);
      match op
      case ReserveOp(o, location) => claimed.(reservations := s.reservations + {(o, location)})
      case RerouteOp(o, location) => claimed.(locations := s.locations[o := location])
      case CarrierOp(o, service) => claimed.(services := s.services[o := service])
      case SplitOp(o) => claimed.(splits := s.splits + {o})
  }

  function Answer(fault: Fault, reference: Reference): Reply<Reference> {
    if fault.Clean? then Returned(reference) else Raised(fault.error)
  }

  function Get<T>(m: map<string, T>, key: string): Option<T> {
    if key in m then Some(m[key]) else None
  }

  function PostconditionHolds(s: SandboxState, order: OrderContext, action: RecoveryAction): bool {
    match action
    case Reroute => order.alternativeLocation.Some? && Get(s.locations, order.orderId) == order.alternativeLocation
    case CarrierUpgrade => Get(s.services, order.orderId) == Some(order.upgradedService)
    case SplitShipment => order.orderId in s.splits
    case TakeNoAction => true
    case HumanEscalation => false
  }

  /** Rebuild what a finished action left behind, from its durable record alone. */
  function Hydrated(s: SandboxState, order: OrderContext, status: ActionStatus, action: RecoveryAction): SandboxState {
    var seeded := Seeded(s, order);
    if !status.Succeeded? && !status.VerifiedAction? then seeded
    else match action
      case Reroute =>
        if order.alternativeLocation.None? then seeded
        else seeded.(locations := seeded.locations[order.orderId := order.alternativeLocation.value],
                     reservations := seeded.reservations + {(order.orderId, order.alternativeLocation.value)})
      case CarrierUpgrade => seeded.(services := seeded.services[order.orderId := order.upgradedService])
      case SplitShipment => seeded.(splits := seeded.splits + {order.orderId})
      case _ => seeded
  }

  class SimulatedOperationsAdapter {
    var locations: map<string, string>
    var services: map<string, string>
    var splits: set<string>
    var reservations: set<(string, string)>
    var deliveries: map<string, bool>
    var claimed: map<ProviderKey, Operation>
    var modes: map<Step, FailureMode>
    ghost var attempts: seq<ProviderKey>

    constructor ()
      ensures View() == EMPTY_SANDBOX
    {
      locations, services, splits, reservations := map[], map[], {}, {};
      deliveries, claimed, modes, attempts := map[], map[], map[], [];
    }

    ghost function View(): SandboxState
      reads this
    {
      SandboxState(locations, services, splits, reservations, deliveries, claimed, modes, attempts)
    }

    method SeedOrder(order: OrderContext)
      modifies this
      ensures View() == Seeded(old(View()), order)
    {
      if order.orderId !in locations {
        locations := locations[order.orderId := order.currentLocation];
      }
      if order.orderId !in services {
        services := services[order.orderId := order.currentService];
      }
    }

    method InjectFailure(step: Step, mode: FailureMode)
      modifies this
      ensures View() == old(View()).(modes := old(modes)[step := mode])
    {
      modes := modes[step := mode];
    }

    method ClearFailures()
      modifies this
      ensures View() == old(View()).(modes := map[])
    {
      modes := map[];
    }

    /** Raise the failures injected in front of a write. */
    method RaiseBefore(step: Step) returns (reply: Reply<()>)
      ensures reply == if step in modes && modes[step].Before? then Raised(ActionExecutionError)
                       else if step in modes && modes[step].RateLimited? then Raised(AdapterRateLimited)
                       else Returned(())
    {
      if step in modes {
        if modes[step].Before? { return Raised(ActionExecutionError); }
        if modes[step].RateLimited? { return Raised(AdapterRateLimited); }
      }
      return Returned(());
    }

    /** Raise the failures injected behind a write. */
    method RaiseAfter(step: Step) returns (reply: Reply<()>)
      ensures reply == if step in modes && modes[step].After? then Raised(AmbiguousProviderTimeout)
                       else if step in modes && modes[step].Malformed? then Raised(MalformedAdapterResponse)
                       else if step in modes && modes[step].HardAfter? then Raised(ActionExecutionError)
                       else Returned(())
    {
      if step in modes {
        if modes[step].After? { return Raised(AmbiguousProviderTimeout); }
        if modes[step].Malformed? { return Raised(MalformedAdapterResponse); }
        if modes[step].HardAfter? { return Raised(ActionExecutionError); }
      }
      return Returned(());
    }

    method ClaimKey(key: ProviderKey, op: Operation) returns (reply: Reply<()>)
      modifies this`claimed
      ensures reply == if key in old(claimed) && old(claimed)[key] != op then Raised(PersistenceConflictError) else Returned(())
      ensures claimed == if reply.Raised? then old(claimed) else old(claimed)[key := op]
    {
      if key in claimed && claimed[key] != op {
        return Raised(PersistenceConflictError);
      }
      claimed := claimed[key := op];
      return Returned(());
    }

    method Reserve(order: OrderContext, idempotency: IdempotencyKey) returns (reply: Reply<Reference>)
      modifies this
      ensures match order.alternativeLocation
              case None => View() == old(View()) && reply == Raised(ActionExecutionError)
              case Some(location) =>
                var key, op := ProviderKey(idempotency, ReserveAlternative), ReserveOp(order.orderId, location);
                && View() == Called(old(View()), key, op)
                && reply == Answer(FaultOf(old(View()), key, op), ReservationRef(order.orderId, location))
    {
      if order.alternativeLocation.None? {
        return Raised(ActionExecutionError);
      }
      var location := order.alternativeLocation.value;
      var key := ProviderKey(idempotency, ReserveAlternative);
      attempts := attempts + [key];
      var gate := RaiseBefore(ReserveAlternative);
      if gate.Raised? { return Raised(gate.error); }
      gate := ClaimKey(key, ReserveOp(order.orderId, location));
      if gate.Raised? { return Raised(gate.error); }
      reservations := reservations + {(order.orderId, location)};
      gate := RaiseAfter(ReserveAlternative);
      if gate.Raised? { return Raised(gate.error); }
      return Returned(ReservationRef(order.orderId, location));
    }

    method Release(order: OrderContext)
      modifies this
      ensures View() == old(View()).(
                reservations := if order.alternativeLocation.None? then old(reservations)
                                else old(reservations) - {(order.orderId, order.alternativeLocation.value)})
    {
      if order.alternativeLocation.Some? {
        reservations := reservations - {(order.orderId, order.alternativeLocation.value)};
      }
    }

    method Move(order: OrderContext, idempotency: IdempotencyKey) returns (reply: Reply<Reference>)
      modifies this
      ensures match order.alternativeLocation
              case None => View() == old(View()) && reply == Raised(ActionExecutionError)
              case Some(location) =>
                var key, op := ProviderKey(idempotency, ChangeLocation), RerouteOp(order.orderId, location);
                && View() == Called(old(View()), key, op)
                && reply == Answer(FaultOf(old(View()), key, op), LocationRef(order.orderId, location))
    {
      if order.alternativeLocation.None? {
        return Raised(ActionExecutionError);
      }
      var location := order.alternativeLocation.value;
      var key := ProviderKey(idempotency, ChangeLocation);
      attempts := attempts + [key];
      var gate := RaiseBefore(ChangeLocation);
      if gate.Raised? { return Raised(gate.error); }
      gate := ClaimKey(key, RerouteOp(order.orderId, location));
      if gate.Raised? { return Raised(gate.error); }
      locations := locations[order.orderId := location];
      gate := RaiseAfter(ChangeLocation);
      if gate.Raised? { return Raised(gate.error); }
      return Returned(LocationRef(order.orderId, location));
    }

    method RestoreLocation(order: OrderContext) returns (reference: Reference)
      modifies this
      ensures View() == old(View()).(locations := old(locations)[order.orderId := order.currentLocation])
      ensures reference == RestoredLocation(order.orderId, order.currentLocation)
    {
      locations := locations[order.orderId := order.currentLocation];
      reference := RestoredLocation(order.orderId, order.currentLocation);
    }

    method Upgrade(order: OrderContext, idempotency: IdempotencyKey) returns (reply: Reply<Reference>)
      modifies this
      ensures var key, op := ProviderKey(idempotency, UpgradeCarrier), CarrierOp(order.orderId, order.upgradedService);
              && View() == Called(old(View()), key, op)
              && reply == Answer(FaultOf(old(View()), key, op), ServiceRef(order.orderId, order.upgradedService))
    {
      var key := ProviderKey(idempotency, UpgradeCarrier);
      attempts := attempts + [key];
      var gate := RaiseBefore(UpgradeCarrier);
      if gate.Raised? { return Raised(gate.error); }
      gate := ClaimKey(key, CarrierOp(order.orderId, order.upgradedService));
      if gate.Raised? { return Raised(gate.error); }
      services := services[order.orderId := order.upgradedService];
      gate := RaiseAfter(UpgradeCarrier);
      if gate.Raised? { return Raised(gate.error); }
      return Returned(ServiceRef(order.orderId, order.upgradedService));
    }

    method RestoreCarrier(order: OrderContext) returns (reference: Reference)
      modifies this
      ensures View() == old(View()).(services := old(services)[order.orderId := order.currentService])
      ensures reference == RestoredService(order.orderId, order.currentService)
    {
      services := services[order.orderId := order.currentService];
      reference := RestoredService(order.orderId, order.currentService);
    }

    method Split(order: OrderContext, idempotency: IdempotencyKey) returns (reply: Reply<Reference>)
      modifies this
      ensures if !order.splitPossible then View() == old(View()) && reply == Raised(ActionExecutionError)
              else
                var key, op := ProviderKey(idempotency, CreateSplit), SplitOp(order.orderId);
                && View() == Called(old(View()), key, op)
                && reply == Answer(FaultOf(old(View()), key, op), SplitRef(order.orderId))
    {
      if !order.splitPossible {
        return Raised(ActionExecutionError);
      }
      var key := ProviderKey(idempotency, CreateSplit);
      attempts := attempts + [key];
      var gate := RaiseBefore(CreateSplit);
      if gate.Raised? { return Raised(gate.error); }
      gate := ClaimKey(key, SplitOp(order.orderId));
      if gate.Raised? { return Raised(gate.error); }
      splits := splits + {order.orderId};
      gate := RaiseAfter(CreateSplit);
      if gate.Raised? { return Raised(gate.error); }
      return Returned(SplitRef(order.orderId));
    }

    method CancelSplit(order: OrderContext) returns (reference: Reference)
      modifies this
      ensures View() == old(View()).(splits := old(splits) - {order.orderId})
      ensures reference == CancelledSplit(order.orderId)
    {
      splits := splits - {order.orderId};
      reference := CancelledSplit(order.orderId);
    }

    method RecordDelivery(orderId: string, onTime: bool)
      modifies this
      ensures View() == old(View()).(deliveries := old(deliveries)[orderId := onTime])
    {
      deliveries := deliveries[orderId := onTime];
    }

    method Postcondition(order: OrderContext, action: RecoveryAction) returns (holds: bool)
      ensures holds == PostconditionHolds(View(), order, action)
    {
      match action {
        case Reroute =>
          holds := order.alternativeLocation.Some? && order.orderId in locations
            && locations[order.orderId] == order.alternativeLocation.value;
        case CarrierUpgrade =>
          holds := order.orderId in services && services[order.orderId] == order.upgradedService;
        case SplitShipment =>
          holds := order.orderId in splits;
        case TakeNoAction => holds := true;
        case HumanEscalation => holds := false;
      }
    }

    method Hydrate(order: OrderContext, execution: ActionExecution)
      modifies this
      ensures View() == Hydrated(old(View()), order, execution.status, execution.command.action)
    {
      SeedOrder(order);
      if !execution.status.Succeeded? && !execution.status.VerifiedAction? {
        return;
      }
      match execution.command.action {
        case Reroute =>
          if order.alternativeLocation.Some? {
            locations := locations[order.orderId := order.alternativeLocation.value];
            reservations := reservations + {(order.orderId, order.alternativeLocation.value)};
          }
        case CarrierUpgrade => services := services[order.orderId := order.upgradedService];
        case SplitShipment => splits := splits + {order.orderId};
        case TakeNoAction =>
        case HumanEscalation =>
      }
    }
  }
}
