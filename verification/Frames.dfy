/** What each operation leaves alone. */
module Frames {
  import opened Common
  import opened Models
  import opened Store
  import opened Sandbox
  import opened Saga
  import opened Autonomy
  import opened Evaluation
  import opened Gateway
  import opened Verification
  import opened Workflow
  import Optimizer
  import Simulator
  import Approvals

  /** Only control profiles, evidence and outcomes may differ. */
  predicate OnlyLearning(t: Tables, u: Tables) {
    && u.killSwitch == t.killSwitch && u.events == t.events && u.decisions == t.decisions
    && u.approvals == t.approvals && u.actions == t.actions
  }

  lemma RecordEvidenceFrame(t: Tables, id: EvidenceId, action: RecoveryAction, successful: bool, compensated: bool)
    ensures OnlyLearning(t, RecordEvidence(t, id, action, successful, compensated).0)
    ensures RecordEvidence(t, id, action, successful, compensated).0.outcomes == t.outcomes
  {}

  lemma RecordExecutionFrame(t: Tables, e: ActionExecution)
    ensures OnlyLearning(t, RecordExecution(t, e).0) && RecordExecution(t, e).0.outcomes == t.outcomes
  {
    RecordEvidenceFrame(t, ExecutionEvidence(e.actionId), e.command.action, false, e.status.Compensated?);
  }

  lemma PersistFrame(t: Tables, o: OutcomeVerification, action: RecoveryAction)
    ensures OnlyLearning(t, Persist(t, o, action).0)
  {
    var outcomes := RecordOutcomeRow(t.outcomes, o).0;
    RecordEvidenceFrame(t.(outcomes := outcomes), OutcomeEvidence(o.outcomeId), action, o.status.Verified?, false);
  }

  lemma VerifyActionFrame(w: World, d: DecisionTrace, e: ActionExecution, order: OrderContext,
                          observation: Option<DeliveryObservation>, now: Time)
    ensures OnlyLearning(w.tables, VerifyAction(w, d, e, order, observation, now).0.tables)
  {
    var sandbox := Inspected(w.sandbox, order, e, observation);
    var selected := FirstWithAction(d.recommendation.ranked, e.command.action);
    if selected.Some? {
      PersistFrame(w.tables, OutcomeOf(sandbox, d, e, order, observation, selected.value, now), e.command.action);
    }
  }

  lemma VerifyFrame(w: World, id: DecisionId, observation: Option<DeliveryObservation>, now: Time)
    ensures OnlyLearning(w.tables, Verify(w, id, observation, now).0.tables)
  {
    if id in w.tables.decisions {
      var d := w.tables.decisions[id];
      var e := ActionFor(w.tables.actions, id);
      var event := Resolve(w.tables.events, d.eventId);
      if e.Some? && event.Some? {
        VerifyActionFrame(w, d, e.value, event.value.request.order, observation, now);
      }
    }
  }

  /** Only the kill switch and the profiles' settings may differ. */
  predicate OnlyControls(t: Tables, u: Tables) {
    u == t.(killSwitch := u.killSwitch, profiles := u.profiles)
  }

  lemma SetKillSwitchFrame(t: Tables, u: KillSwitchUpdate, strict: bool)
    ensures OnlyControls(t, SetKillSwitch(t, u, strict).0) && SetKillSwitch(t, u, strict).0.profiles == t.profiles
  {}

  lemma SetProfileFrame(t: Tables, action: RecoveryAction, u: ProfileUpdate, strict: bool)
    ensures OnlyControls(t, SetProfile(t, action, u, strict).0) && SetProfile(t, action, u, strict).0.killSwitch == t.killSwitch
  {}

  /** Evaluation appends at most one event and one decision, the latter under its own unused id. */
  predicate EvaluateEffect(env: Env, t: Tables, request: EvaluationRequest, u: Tables) {
    && t.events <= u.events && u == t.(events := u.events, decisions := u.decisions)
    && (u.decisions == t.decisions
        || (Trace(env, t, request).Returned?
            && var trace := Trace(env, t, request).value;
            trace.decisionId !in t.decisions && u.decisions == t.decisions[trace.decisionId := trace]))
  }

  lemma TraceIgnoresEvents(env: Env, t: Tables, events: seq<EventRow>, request: EvaluationRequest)
    ensures Trace(env, t.(events := events), request) == Trace(env, t, request)
  {
    var r := Optimizer.Select(Simulator.Simulate(request.order, env.score(request.order)));
    if r.Returned? {
      assert ControlsFor(t.(events := events), r.value.selectedAction) == ControlsFor(t, r.value.selectedAction);
    }
  }

  lemma EvaluateFrame(env: Env, t: Tables, request: EvaluationRequest)
    ensures EvaluateEffect(env, t, request, Evaluate(env, t, request).0)
  {
    var ingested := Ingest(t.events, request);
    if ingested.Returned? {
      TraceIgnoresEvents(env, t, ingested.value, request);
    }
  }

  /** The new row of an execution, when there is one. */
  predicate ExecuteEffect(w: World, command: ActionCommand, order: OrderContext, now: Time, after: World) {
    || after == w
    || (&& !w.tables.killSwitch.active && ActionFor(w.tables.actions, command.decisionId).None?
        && FindAction(w.tables.actions, ActionId(command.idempotencyKey)) == -1
        && var (sandbox, r) := RunSaga(Seeded(w.sandbox, order), order, command.action, command.idempotencyKey);
        && after.sandbox == sandbox
        && var stored := w.tables.(actions := w.tables.actions + [FinishedRow(command, r, now)]);
        && after.tables == RecordExecution(stored, FinishedRow(command, r, now)).0)
  }

  lemma ExecuteFrame(w: World, command: ActionCommand, order: OrderContext, now: Time)
    ensures ExecuteEffect(w, command, order, now, Execute(w, command, order, now).0)
  {}

  /** A command that cannot be built changes nothing; the others are executed. */
  lemma CommandWorld(w: World, d: DecisionTrace, order: OrderContext, actorId: string, approvedBy: Option<string>,
                     approval: Option<ApprovalRecord>, now: Time)
    ensures RunCommand(w, d, order, actorId, approvedBy, approval, now).0 ==
            var command := CommandFor(d, order, actorId, approvedBy);
            if command.Returned? then Execute(w, command.value, order, now).0 else w
  {}

  lemma CommandDecision(d: DecisionTrace, order: OrderContext, actorId: string, approvedBy: Option<string>)
    ensures var command := CommandFor(d, order, actorId, approvedBy); command.Returned? ==> command.value.decisionId == d.decisionId
  {}

  /** Approving is refused without effect, only decides, or decides and runs the command. */
  predicate ApproveEffect(env: Env, w: World, id: ApprovalId, input: ApprovalInput, now: Time, after: World) {
    || after == w
    || (&& id in w.tables.approvals && w.tables.approvals[id].decisionId in w.tables.decisions
        && var d := w.tables.decisions[w.tables.approvals[id].decisionId];
        && Resolve(w.tables.events, d.eventId).Some?
        && var order := Resolve(w.tables.events, d.eventId).value.request.order;
        && AuthorityError(input.role, d, order).None?
        && var (tables, decided) := Approvals.Decide(w.tables, id, input, Approved, now, env.strict);
        && var mid := w.(tables := tables);
        && after == if decided.Raised? then mid
                    else RunCommand(mid, d, order, decided.value.requestedBy, decided.value.decidedBy, Some(decided.value), now).0)
  }

  lemma ApproveFrame(env: Env, w: World, id: ApprovalId, input: ApprovalInput, now: Time)
    ensures ApproveEffect(env, w, id, input, now, ApproveAndExecute(env, w, id, input, now).0)
  {}
}
