/** execution.py: the governed action gateway. */
module Gateway {
  import opened Common
  import opened Models
  import opened Store
  import opened Sandbox
  import opened Saga
  import opened Autonomy

  /** The durable tables together with the operational systems. */
  datatype World = World(tables: Tables, sandbox: SandboxState)

  /** The action row as it stands when its executing call is over. */
  function FinishedRow(command: ActionCommand, r: SagaResult, now: Time): ActionExecution {
    var id := ActionId(command.idempotencyKey);
    match r
    case Finished(status, steps, cause) => ActionExecution(id, command, status, steps, now, Some(now), cause)
    case Aborted(e) => ActionExecution(id, command, Failed, [], now, Some(now), Some(e))
  }

  /** `ActionGateway.execute`: one new row per decision, replays answered from the table. */
  function Execute(w: World, command: ActionCommand, order: OrderContext, now: Time): (World, Reply<ActionExecution>) {
    if w.tables.killSwitch.active then (w, Raised(ActionExecutionError))
    else
      match ActionFor(w.tables.actions, command.decisionId)
      case Some(existing) =>
        (w, if existing.command.idempotencyKey != command.idempotencyKey then Raised(PersistenceConflictError) else Returned(existing))
      case None =>
        if 0 <= FindAction(w.tables.actions, ActionId(command.idempotencyKey)) then (w, Raised(PersistenceConflictError))
        else
          var (sandbox, r) := RunSaga(Seeded(w.sandbox, order), order, command.action, command.idempotencyKey);
          var row := FinishedRow(command, r, now);
          var stored := w.tables.(actions := w.tables.actions + [row]);
          var (tables, learned) := RecordExecution(stored, row);
          (World(tables, sandbox),
           if learned.Raised? then Raised(learned.error)
           else if r.Aborted? then Raised(r.error)
           else Returned(row))
  }

  class ActionGateway {
    const database: Database
    const adapter: SimulatedOperationsAdapter
    const autonomy: AutonomyController

    constructor (database: Database, adapter: SimulatedOperationsAdapter, autonomy: AutonomyController)
      requires autonomy.database == database
      ensures this.database == database && this.adapter == adapter && this.autonomy == autonomy
    {
      this.database := database;
      this.adapter := adapter;
      this.autonomy := autonomy;
    }

    ghost function View(): World
      reads database, adapter
    {
      World(database.View(), adapter.View())
    }

    method RerouteSteps(order: OrderContext, key: IdempotencyKey) returns (r: SagaResult)
      modifies adapter
      ensures (adapter.View(), r) == RerouteSaga(old(adapter.View()), order, key)
    {
      var steps: seq<StepResult> := [];
      var raised: Option<Error> := None;
      var reply := adapter.Reserve(order, key);
      if reply.Raised? {
        raised := Some(reply.error);
      } else {
        steps := steps + [StepResult(1, "reserve_alternative", StepSucceeded, reply.value, None)];
        reply := adapter.Move(order, key);
        if reply.Raised? && reply.error.IsAmbiguousWrite() {
          var holds := adapter.Postcondition(order, Reroute);
          if holds {
            reply := Returned(VerifiedAfterTimeout(order.orderId));
          }
        }
        if reply.Raised? {
          raised := Some(reply.error);
        } else {
          steps := steps + [StepResult(2, "change_location", StepSucceeded, reply.value, None)];
          assert steps == [steps[0], steps[1]];
        }
      }
      if raised.Some? {
        if raised.value.AdapterRateLimited? {
          return Aborted(raised.value);
        }
        if steps != [] {
          var restored := adapter.RestoreLocation(order);
          adapter.Release(order);
          steps := steps + [StepResult(|steps| + 1, "compensate_reroute", StepCompensated, restored, raised)];
          assert steps == [steps[0], steps[1]];
          return Finished(Compensated, steps, raised);
        }
        return Aborted(raised.value);
      }
      return Finished(Succeeded, steps, None);
    }

    method CarrierSteps(order: OrderContext, key: IdempotencyKey) returns (r: SagaResult)
      modifies adapter
      ensures (adapter.View(), r) == CarrierSaga(old(adapter.View()), order, key)
    {
      var reply := adapter.Upgrade(order, key);
      if reply.Raised? {
        var e := reply.error;
        var holds := adapter.Postcondition(order, CarrierUpgrade);
        if e.IsAmbiguousWrite() {
          if !holds {
            return Aborted(e);
          }
          reply := Returned(VerifiedAfterTimeout(order.orderId));
        } else if e.IsAdapterError() {
          if holds {
            var restored := adapter.RestoreCarrier(order);
            return Finished(Compensated, [StepResult(1, "compensate_carrier_upgrade", StepCompensated, restored, Some(e))], Some(e));
          }
          return Aborted(e);
        } else {
          return Aborted(e);
        }
      }
      return Finished(Succeeded, [StepResult(1, "upgrade_carrier", StepSucceeded, reply.value, None)], None);
    }

    method SplitSteps(order: OrderContext, key: IdempotencyKey) returns (r: SagaResult)
      modifies adapter
      ensures (adapter.View(), r) == SplitSaga(old(adapter.View()), order, key)
    {
      var reply := adapter.Split(order, key);
      if reply.Raised? {
        var e := reply.error;
        var holds := adapter.Postcondition(order, SplitShipment);
        if e.IsAmbiguousWrite() {
          if !holds {
            return Aborted(e);
          }
          reply := Returned(VerifiedAfterTimeout(order.orderId));
        } else if e.IsAdapterError() {
          if holds {
            var cancelled := adapter.CancelSplit(order);
            return Finished(Compensated, [StepResult(1, "compensate_split", StepCompensated, cancelled, Some(e))], Some(e));
          }
          return Aborted(e);
        } else {
          return Aborted(e);
        }
      }
      return Finished(Succeeded, [StepResult(1, "create_split", StepSucceeded, reply.value, None)], None);
    }

    method ExecuteSteps(order: OrderContext, action: RecoveryAction, key: IdempotencyKey) returns (r: SagaResult)
      modifies adapter
      ensures (adapter.View(), r) == RunSaga(old(adapter.View()), order, action, key)
    {
      match action {
        case Reroute => r := RerouteSteps(order, key);
        case CarrierUpgrade => r := CarrierSteps(order, key);
        case SplitShipment => r := SplitSteps(order, key);
        case _ => r := Aborted(ActionExecutionError);
      }
    }

    method Run(command: ActionCommand, order: OrderContext, now: Time) returns (reply: Reply<ActionExecution>)
      requires autonomy.database == database
      modifies database, adapter
      ensures (View(), reply) == Execute(old(View()), command, order, now)
    {
      if database.killSwitch.active {
        return Raised(ActionExecutionError);
      }
      var existing := ActionFor(database.actions, command.decisionId);
      if existing.Some? {
        if existing.value.command.idempotencyKey != command.idempotencyKey {
          return Raised(PersistenceConflictError);
        }
        return Returned(existing.value);
      }
      var id := ActionId(command.idempotencyKey);
      if 0 <= FindAction(database.actions, id) {
        return Raised(PersistenceConflictError);
      }
      var executing := ActionExecution(id, command, Executing, [], now, None, None);
      database.actions := database.actions + [executing];
      var position := |database.actions| - 1;

      adapter.SeedOrder(order);
      var r := ExecuteSteps(order, command.action, command.idempotencyKey);
      var row := match r
        case Finished(status, steps, cause) =>
          executing.(status := status, steps := steps, completedAt := Some(now), error := cause)
        case Aborted(e) =>
          executing.(status := Failed, steps := [], completedAt := Some(now), error := Some(e));
      database.actions := database.actions[position := row];
      assert database.actions == old(database.actions) + [row];
      var learned := autonomy.NoteExecution(row);
      if learned.Raised? {
        return Raised(learned.error);
      }
      if r.Aborted? {
        return Raised(r.error);
      }
      return Returned(row);
    }
  }
}
