/** persistence.py and db_models.py: the durable tables, their look-ups, and the shared database. */
module Store {
  import opened Common
  import opened Models

  /** One row of the event inbox, in the order of its auto-incremented id. */
  datatype EventRow = EventRow(sourceSystem: string, eventId: string, eventVersion: nat, request: EvaluationRequest)

  datatype Tables = Tables(
    killSwitch: KillSwitch,
    profiles: map<RecoveryAction, Profile>,
    evidence: seq<EvidenceRow>,
    events: seq<EventRow>,
    decisions: map<DecisionId, DecisionTrace>,
    approvals: map<ApprovalId, ApprovalRecord>,
    actions: seq<ActionExecution>,
    outcomes: seq<OutcomeVerification>)

  const INITIAL_PROFILE := Profile(ApprovalRequired, 0, 0, 0, 0, "Initial approval-required state", "system-bootstrap", 1)

  /** The tables after the control rows were bootstrapped. */
  const BOOTSTRAPPED := Tables(
    KillSwitch(false, "Initial safe state", "system-bootstrap", 1),
    map[Reroute := INITIAL_PROFILE, CarrierUpgrade := INITIAL_PROFILE, SplitShipment := INITIAL_PROFILE],
    [], [], map[], map[], [], [])

  // ---------------------------------------------------------------- look-ups

  function FindEvent(events: seq<EventRow>, e: OperationalEvent): (i: int)
    ensures -1 <= i < |events|
    ensures 0 <= i ==> SameEvent(events[i], e)
    ensures i == -1 ==> forall j :: 0 <= j < |events| ==> !SameEvent(events[j], e)
  {
    if events == [] then -1
    else
      var i := FindEvent(events[..|events| - 1], e);
      if 0 <= i then i
      else if SameEvent(events[|events| - 1], e) then |events| - 1 else -1
  }

  predicate SameEvent(row: EventRow, e: OperationalEvent) {
    row.sourceSystem == e.sourceSystem && row.eventId == e.eventId && row.eventVersion == e.eventVersion
  }

  /** `EventRepository.ingest`: an event identity is bound to its first payload. */
  function Ingest(events: seq<EventRow>, request: EvaluationRequest): Reply<seq<EventRow>> {
    var i := FindEvent(events, request.event);
    if 0 <= i then
      if events[i].request != request then Raised(PersistenceConflictError) else Returned(events)
    else
      Returned(events + [EventRow(request.event.sourceSystem, request.event.eventId, request.event.eventVersion, request)])
  }

  /** `get_request_payload`: the newest version stored under an event id, first stored among equals. */
  function Resolve(events: seq<EventRow>, eventId: string): (r: Option<EventRow>)
    ensures r.Some? ==> r.value in events && r.value.eventId == eventId
    ensures r.Some? ==> forall j :: 0 <= j < |events| && events[j].eventId == eventId ==> events[j].eventVersion <= r.value.eventVersion
    ensures r.None? ==> forall j :: 0 <= j < |events| ==> events[j].eventId != eventId
  {
    if events == [] then None
    else
      var earlier := Resolve(events[..|events| - 1], eventId);
      assert forall j :: 0 <= j < |events| - 1 ==> events[..|events| - 1][j] == events[j];
      var last := events[|events| - 1];
      if last.eventId == eventId && (earlier.None? || earlier.value.eventVersion < last.eventVersion)
      then Some(last) else earlier
  }

  /** `ActionRepository.get_by_decision`: the latest started, first stored among equals. */
  function ActionFor(actions: seq<ActionExecution>, decisionId: DecisionId): (r: Option<ActionExecution>)
    ensures r.Some? ==> r.value in actions && r.value.command.decisionId == decisionId
    ensures r.None? ==> forall j :: 0 <= j < |actions| ==> actions[j].command.decisionId != decisionId
  {
    if actions == [] then None
    else
      var earlier := ActionFor(actions[..|actions| - 1], decisionId);
      var last := actions[|actions| - 1];
      if last.command.decisionId == decisionId && (earlier.None? || earlier.value.startedAt < last.startedAt)
      then Some(last) else earlier
  }

  function FindAction(actions: seq<ActionExecution>, id: ActionId): (i: int)
    ensures -1 <= i < |actions|
    ensures 0 <= i ==> actions[i].actionId == id
    ensures i == -1 ==> forall j :: 0 <= j < |actions| ==> actions[j].actionId != id
  {
    if actions == [] then -1
    else
      var i := FindAction(actions[..|actions| - 1], id);
      if 0 <= i then i
      else if actions[|actions| - 1].actionId == id then |actions| - 1 else -1
  }

  function OutcomeFor(outcomes: seq<OutcomeVerification>, decisionId: DecisionId): (r: Option<OutcomeVerification>)
    ensures r.Some? ==> r.value in outcomes && r.value.decisionId == decisionId
    ensures r.None? ==> forall j :: 0 <= j < |outcomes| ==> outcomes[j].decisionId != decisionId
  {
    if outcomes == [] then None
    else
      var earlier := OutcomeFor(outcomes[..|outcomes| - 1], decisionId);
      if earlier.Some? then earlier
      else if outcomes[|outcomes| - 1].decisionId == decisionId then Some(outcomes[|outcomes| - 1]) else None
  }

  predicate HasEvidence(evidence: seq<EvidenceRow>, id: EvidenceId) {
    exists i :: 0 <= i < |evidence| && evidence[i].evidenceId == id
  }

  /** `DecisionRepository.record`: a decision id is bound to its first trace. */
  function RecordDecision(decisions: map<DecisionId, DecisionTrace>, trace: DecisionTrace)
    : (map<DecisionId, DecisionTrace>, Reply<DecisionTrace>)
  {
    if trace.decisionId !in decisions then (decisions[trace.decisionId := trace], Returned(trace))
    else if decisions[trace.decisionId] != trace then (decisions, Raised(LedgerConflictError))
    else (decisions, Returned(decisions[trace.decisionId]))
  }

  /** `OutcomeRepository.record`: a decision has one outcome, and repeating it must repeat it exactly. */
  function RecordOutcomeRow(outcomes: seq<OutcomeVerification>, outcome: OutcomeVerification)
    : (seq<OutcomeVerification>, Reply<OutcomeVerification>)
  {
    match OutcomeFor(outcomes, outcome.decisionId)
    case Some(existing) =>
      if existing != outcome then (outcomes, Raised(PersistenceConflictError)) else (outcomes, Returned(existing))
    case None => (outcomes + [outcome], Returned(outcome))
  }

  /** The relational database all services share. */
  class Database {
    var killSwitch: KillSwitch
    var profiles: map<RecoveryAction, Profile>
    var evidence: seq<EvidenceRow>
    var events: seq<EventRow>
    var decisions: map<DecisionId, DecisionTrace>
    var approvals: map<ApprovalId, ApprovalRecord>
    var actions: seq<ActionExecution>
    var outcomes: seq<OutcomeVerification>

    /** An empty schema with the control rows bootstrapped. */
    constructor ()
      ensures View() == BOOTSTRAPPED
    {
      killSwitch := KillSwitch(false, "Initial safe state", "system-bootstrap", 1);
      profiles := map[Reroute := INITIAL_PROFILE, CarrierUpgrade := INITIAL_PROFILE, SplitShipment := INITIAL_PROFILE];
      evidence, events, decisions, approvals, actions, outcomes := [], [], map[], map[], [], [];
    }

    ghost function View(): Tables
      reads this
    {
      Tables(killSwitch, profiles, evidence, events, decisions, approvals, actions, outcomes)
    }
  }

  /** ledger.py: the in-memory ledger keeps each trace next to its fingerprint. */
  class InMemoryDecisionLedger {
    var records: map<DecisionId, DecisionTrace>
    var fingerprints: map<DecisionId, DecisionTrace>

    ghost predicate Valid()
      reads this
    {
      records == fingerprints && forall id :: id in records ==> records[id].decisionId == id
    }

    constructor ()
      ensures Valid() && records == map[]
    {
      records, fingerprints := map[], map[];
    }

    method Record(trace: DecisionTrace) returns (reply: Reply<DecisionTrace>)
      requires Valid()
      modifies this
      ensures Valid()
      ensures (records, reply) == RecordDecision(old(records), trace)
    {
      if trace.decisionId !in records {
        records := records[trace.decisionId := trace];
        fingerprints := fingerprints[trace.decisionId := trace];
        return Returned(trace);
      }
      if fingerprints[trace.decisionId] != trace {
        return Raised(LedgerConflictError);
      }
      return Returned(records[trace.decisionId]);
    }
  }
}
