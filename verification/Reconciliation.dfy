/** The autonomy counters against the evidence log, and against the stores they summarise. */
module Reconciliation {
  import opened Common
  import opened Models
  import opened Store
  import opened Sandbox
  import opened Saga
  import opened Autonomy
  import opened Evaluation
  import opened Gateway
  import opened Verification
  import opened Workflow
  import opened History
  import opened Frames
  import Approvals
  import Authority

  // ---------------------------------------------------------------- counting

  function EvidenceOf(evidence: seq<EvidenceRow>, a: RecoveryAction): seq<EvidenceRow> {
    if evidence == [] then []
    else
      var last := evidence[|evidence| - 1];
      EvidenceOf(evidence[..|evidence| - 1], a) + if last.action == a then [last] else []
  }

  function Successes(log: seq<EvidenceRow>): nat {
    if log == [] then 0 else Successes(log[..|log| - 1]) + if log[|log| - 1].successful then 1 else 0
  }

  function Compensations(log: seq<EvidenceRow>): nat {
    if log == [] then 0 else Compensations(log[..|log| - 1]) + if log[|log| - 1].compensated then 1 else 0
  }

  /** `n` is the length of the longest suffix of the log that holds only successes. */
  predicate LongestSuccessSuffix(log: seq<EvidenceRow>, n: nat) {
    && n <= |log|
    && (forall i :: |log| - n <= i < |log| ==> log[i].successful)
    && (n < |log| ==> !log[|log| - n - 1].successful)
  }

  function OutcomeRows(outcomes: seq<OutcomeVerification>, a: RecoveryAction, status: VerificationStatus): nat {
    if outcomes == [] then 0
    else
      var last := outcomes[|outcomes| - 1];
      OutcomeRows(outcomes[..|outcomes| - 1], a, status) + if last.actionId.key.action == a && last.status == status then 1 else 0
  }

  function ActionRows(actions: seq<ActionExecution>, a: RecoveryAction, status: ActionStatus): nat {
    if actions == [] then 0
    else
      var last := actions[|actions| - 1];
      ActionRows(actions[..|actions| - 1], a, status) + if last.command.action == a && last.status == status then 1 else 0
  }

  // ---------------------------------------------------------------- the invariant

  /** A profile's counters are counts over its deduplicated evidence, and bounded autonomy is earned. */
  predicate Earned(p: Profile, log: seq<EvidenceRow>) {
    && p.verifiedSuccesses == Successes(log) && p.failures == |log| - Successes(log)
    && p.compensations == Compensations(log) && LongestSuccessSuffix(log, p.streak)
    && (p.level.BoundedAutonomy? ==> PROMOTION_THRESHOLD <= p.streak)
  }

  /** The same counters agree with the outcome and action tables. */
  predicate Reconciled(p: Profile, t: Tables, a: RecoveryAction) {
    && p.verifiedSuccesses == OutcomeRows(t.outcomes, a, Verified)
    && p.failures == OutcomeRows(t.outcomes, a, VerificationFailed)
                     + ActionRows(t.actions, a, Failed) + ActionRows(t.actions, a, Compensated)
    && p.compensations == ActionRows(t.actions, a, Compensated)
  }

  predicate Sourced(t: Tables, e: EvidenceRow) {
    match e.evidenceId
    case ExecutionEvidence(id) => 0 <= FindAction(t.actions, id)
    case OutcomeEvidence(id) => OutcomeFor(t.outcomes, id.decisionId).Some?
  }

  predicate EvidenceOk(t: Tables) {
    && (forall i, j :: 0 <= i < j < |t.evidence| ==> t.evidence[i].evidenceId != t.evidence[j].evidenceId)
    && (forall i :: 0 <= i < |t.evidence| ==> Sourced(t, t.evidence[i]))
  }

  predicate OutcomesOk(t: Tables) {
    forall i :: 0 <= i < |t.outcomes| ==>
      && t.outcomes[i].outcomeId == OutcomeId(t.outcomes[i].decisionId)
      && (!t.outcomes[i].status.ManualReviewRequired? ==> HasEvidence(t.evidence, OutcomeEvidence(t.outcomes[i].outcomeId)))
  }

  predicate AllEarned(t: Tables) {
    && (forall a :: a in t.profiles <==> Executable(a))
    && (forall a :: a in t.profiles ==> Earned(t.profiles[a], EvidenceOf(t.evidence, a)))
  }

  predicate AllReconciled(t: Tables) {
    forall a :: a in t.profiles ==> Reconciled(t.profiles[a], t, a)
  }

  predicate Inv(t: Tables) { EvidenceOk(t) && OutcomesOk(t) && AllEarned(t) && AllReconciled(t) }

  // ---------------------------------------------------------------- appending

  lemma EvidenceSnoc(evidence: seq<EvidenceRow>, e: EvidenceRow, a: RecoveryAction)
    ensures EvidenceOf(evidence + [e], a) == EvidenceOf(evidence, a) + if e.action == a then [e] else []
  {
    assert (evidence + [e])[..|evidence|] == evidence;
  }

  lemma LogSnoc(log: seq<EvidenceRow>, e: EvidenceRow)
    ensures Successes(log + [e]) == Successes(log) + if e.successful then 1 else 0
    ensures Compensations(log + [e]) == Compensations(log) + if e.compensated then 1 else 0
  {
    assert (log + [e])[..|log|] == log;
  }

  lemma OutcomeSnoc(outcomes: seq<OutcomeVerification>, o: OutcomeVerification)
    ensures forall a, s :: OutcomeRows(outcomes + [o], a, s)
                        == OutcomeRows(outcomes, a, s) + if o.actionId.key.action == a && o.status == s then 1 else 0
    ensures OutcomeFor(outcomes, o.decisionId).None? ==> OutcomeFor(outcomes + [o], o.decisionId) == Some(o)
    ensures forall d :: OutcomeFor(outcomes, d).Some? ==> OutcomeFor(outcomes + [o], d).Some?
  {
    assert (outcomes + [o])[..|outcomes|] == outcomes;
  }

  lemma ActionSnoc(actions: seq<ActionExecution>, row: ActionExecution)
    ensures 0 <= FindAction(actions + [row], row.actionId)
    ensures forall id :: 0 <= FindAction(actions, id) ==> 0 <= FindAction(actions + [row], id)
  {
    assert (actions + [row])[..|actions|] == actions;
  }

  lemma ActionRowsSnoc(actions: seq<ActionExecution>, row: ActionExecution, a: RecoveryAction, s: ActionStatus)
    ensures ActionRows(actions + [row], a, s) == ActionRows(actions, a, s) + if row.command.action == a && row.status == s then 1 else 0
  {
    assert (actions + [row])[..|actions|] == actions;
  }

  /** One piece of evidence keeps a profile earned. */
  lemma LearnedIsEarned(p: Profile, log: seq<EvidenceRow>, e: EvidenceRow)
    requires Earned(p, log)
    ensures Earned(Learned(p, e.evidenceId, e.successful, e.compensated), log + [e])
  {
    LogSnoc(log, e);
    var q := Learned(p, e.evidenceId, e.successful, e.compensated);
    var next := log + [e];
    forall i | |next| - q.streak <= i < |next| ensures next[i].successful {
      if i < |log| {
        assert next[i] == log[i];
      }
    }
  }

  lemma HasEvidenceGrows(evidence: seq<EvidenceRow>, e: EvidenceRow)
    ensures HasEvidence(evidence + [e], e.evidenceId)
    ensures forall id :: HasEvidence(evidence, id) ==> HasEvidence(evidence + [e], id)
  {
    var next := evidence + [e];
    assert next[|evidence|] == e;
    forall id | HasEvidence(evidence, id) ensures HasEvidence(next, id) {
      var i :| 0 <= i < |evidence| && evidence[i].evidenceId == id;
      assert next[i].evidenceId == id;
    }
  }

  lemma EarnedAfter(t: Tables, e: EvidenceRow, a: RecoveryAction)
    requires a in t.profiles && e.action in t.profiles && Earned(t.profiles[a], EvidenceOf(t.evidence, a))
    ensures Earned(if a == e.action then Learned(t.profiles[a], e.evidenceId, e.successful, e.compensated) else t.profiles[a],
                   EvidenceOf(t.evidence + [e], a))
  {
    EvidenceSnoc(t.evidence, e, a);
    if a == e.action {
      LearnedIsEarned(t.profiles[a], EvidenceOf(t.evidence, a), e);
    } else {
      assert EvidenceOf(t.evidence + [e], a) == EvidenceOf(t.evidence, a);
    }
  }

  /** Recording a fresh, sourced piece of evidence keeps the log and every profile's counters right. */
  lemma FreshEvidence(t: Tables, e: EvidenceRow)
    requires e.action in t.profiles && !HasEvidence(t.evidence, e.evidenceId) && Sourced(t, e)
    requires EvidenceOk(t) && AllEarned(t)
    ensures var u := RecordEvidence(t, e.evidenceId, e.action, e.successful, e.compensated).0;
            && u == t.(evidence := t.evidence + [e],
                       profiles := t.profiles[e.action := Learned(t.profiles[e.action], e.evidenceId, e.successful, e.compensated)])
            && EvidenceOk(u) && AllEarned(u)
  {
    var u := RecordEvidence(t, e.evidenceId, e.action, e.successful, e.compensated).0;
    assert u.evidence == t.evidence + [e];
    forall i | 0 <= i < |u.evidence| ensures Sourced(u, u.evidence[i]) {
      assert i < |t.evidence| ==> Sourced(t, t.evidence[i]);
    }
    forall i, j | 0 <= i < j < |u.evidence| ensures u.evidence[i].evidenceId != u.evidence[j].evidenceId {
    }
    forall a | a in u.profiles ensures Earned(u.profiles[a], EvidenceOf(u.evidence, a)) {
      EarnedAfter(t, e, a);
    }
  }

  // ---------------------------------------------------------------- executing

  lemma AppendActionKeeps(t: Tables, row: ActionExecution)
    requires Inv(t)
    ensures var u := t.(actions := t.actions + [row]); EvidenceOk(u) && OutcomesOk(u) && AllEarned(u)
  {
    var u := t.(actions := t.actions + [row]);
    ActionSnoc(t.actions, row);
    forall i | 0 <= i < |u.evidence| ensures Sourced(u, u.evidence[i]) {
      assert Sourced(t, t.evidence[i]);
    }
  }

  lemma NoExecutionEvidence(t: Tables, id: ActionId)
    requires EvidenceOk(t) && FindAction(t.actions, id) == -1
    ensures !HasEvidence(t.evidence, ExecutionEvidence(id))
  {
    forall i | 0 <= i < |t.evidence| ensures t.evidence[i].evidenceId != ExecutionEvidence(id) {
      assert Sourced(t, t.evidence[i]);
    }
  }

  lemma OutcomesStillOk(t: Tables, u: Tables, e: EvidenceRow)
    requires OutcomesOk(t) && u.outcomes == t.outcomes && u.evidence == t.evidence + [e]
    ensures OutcomesOk(u)
  {
    HasEvidenceGrows(t.evidence, e);
  }

  /** A finished action row and what the profile learns from it, together, keep the tables reconciled. */
  lemma ExecutionKeeps(t: Tables, row: ActionExecution)
    requires Inv(t) && FindAction(t.actions, row.actionId) == -1 && Executable(row.command.action)
    requires row.status.Succeeded? || row.status.Compensated? || row.status.Failed?
    ensures Inv(RecordExecution(t.(actions := t.actions + [row]), row).0)
  {
    var stored := t.(actions := t.actions + [row]);
    ActionSnoc(t.actions, row);
    AppendActionKeeps(t, row);
    if row.status.Succeeded? {
      assert RecordExecution(stored, row).0 == stored;
      forall a | a in stored.profiles ensures Reconciled(stored.profiles[a], stored, a) {
        assert Reconciled(t.profiles[a], t, a);
        ActionRowsSnoc(t.actions, row, a, Failed);
        ActionRowsSnoc(t.actions, row, a, Compensated);
      }
    } else {
      FailedExecutionKeeps(t, row);
    }
  }

  lemma FailedExecutionKeeps(t: Tables, row: ActionExecution)
    requires Inv(t) && FindAction(t.actions, row.actionId) == -1 && Executable(row.command.action)
    requires row.status.Compensated? || row.status.Failed?
    ensures Inv(RecordExecution(t.(actions := t.actions + [row]), row).0)
  {
    var stored := t.(actions := t.actions + [row]);
    var e := EvidenceRow(ExecutionEvidence(row.actionId), row.command.action, false, row.status.Compensated?);
    ActionSnoc(t.actions, row);
    AppendActionKeeps(t, row);
    NoExecutionEvidence(t, row.actionId);
    FreshEvidence(stored, e);
    var u := RecordExecution(stored, row).0;
    assert u == RecordEvidence(stored, e.evidenceId, e.action, e.successful, e.compensated).0;
    OutcomesStillOk(stored, u, e);
    AllReconciledAfterFailure(t, u, row);
  }

  lemma AllReconciledAfterFailure(t: Tables, u: Tables, row: ActionExecution)
    requires AllReconciled(t) && row.command.action in t.profiles && (row.status.Compensated? || row.status.Failed?)
    requires u.actions == t.actions + [row] && u.outcomes == t.outcomes
    requires u.profiles == t.profiles[row.command.action :=
               Learned(t.profiles[row.command.action], ExecutionEvidence(row.actionId), false, row.status.Compensated?)]
    ensures AllReconciled(u)
  {
    forall a | a in u.profiles ensures Reconciled(u.profiles[a], u, a) {
      ReconciledAfterFailure(t, u, row, a);
    }
  }

  lemma ReconciledAfterFailure(t: Tables, u: Tables, row: ActionExecution, a: RecoveryAction)
    requires a in t.profiles && a in u.profiles && Reconciled(t.profiles[a], t, a)
    requires row.status.Compensated? || row.status.Failed?
    requires u.actions == t.actions + [row] && u.outcomes == t.outcomes
    requires u.profiles[a] == if a == row.command.action
                              then Learned(t.profiles[a], ExecutionEvidence(row.actionId), false, row.status.Compensated?)
                              else t.profiles[a]
    ensures Reconciled(u.profiles[a], u, a)
  {
    ActionRowsSnoc(t.actions, row, a, Failed);
    ActionRowsSnoc(t.actions, row, a, Compensated);
  }

  // ---------------------------------------------------------------- verifying

  lemma NoOutcomeEvidence(t: Tables, o: OutcomeVerification)
    requires EvidenceOk(t) && OutcomeFor(t.outcomes, o.decisionId).None? && o.outcomeId == OutcomeId(o.decisionId)
    ensures !HasEvidence(t.evidence, OutcomeEvidence(o.outcomeId))
  {
    forall i | 0 <= i < |t.evidence| ensures t.evidence[i].evidenceId != OutcomeEvidence(o.outcomeId) {
      assert Sourced(t, t.evidence[i]);
    }
  }

  lemma AppendOutcomeKeeps(t: Tables, o: OutcomeVerification)
    requires EvidenceOk(t) && AllEarned(t)
    ensures var u := t.(outcomes := t.outcomes + [o]); EvidenceOk(u) && AllEarned(u)
  {
    var u := t.(outcomes := t.outcomes + [o]);
    OutcomeSnoc(t.outcomes, o);
    forall i | 0 <= i < |u.evidence| ensures Sourced(u, u.evidence[i]) {
      assert Sourced(t, t.evidence[i]);
    }
  }

  /** A new outcome and what the profile learns from it keep the tables reconciled. */
  lemma NewOutcomeKeeps(t: Tables, o: OutcomeVerification, action: RecoveryAction)
    requires Inv(t) && OutcomeFor(t.outcomes, o.decisionId).None? && o.outcomeId == OutcomeId(o.decisionId)
    requires action == o.actionId.key.action && Executable(action)
    ensures Inv(RecordOutcome(t.(outcomes := t.outcomes + [o]), o, action).0)
  {
    var stored := t.(outcomes := t.outcomes + [o]);
    OutcomeSnoc(t.outcomes, o);
    AppendOutcomeKeeps(t, o);
    if o.status.ManualReviewRequired? {
      assert RecordOutcome(stored, o, action).0 == stored;
      forall a | a in stored.profiles ensures Reconciled(stored.profiles[a], stored, a) {
        assert Reconciled(t.profiles[a], t, a);
      }
    } else {
      DecidedOutcomeKeeps(t, o, action);
    }
  }

  lemma DecidedOutcomeKeeps(t: Tables, o: OutcomeVerification, action: RecoveryAction)
    requires Inv(t) && OutcomeFor(t.outcomes, o.decisionId).None? && o.outcomeId == OutcomeId(o.decisionId)
    requires action == o.actionId.key.action && Executable(action) && !o.status.ManualReviewRequired?
    ensures Inv(RecordOutcome(t.(outcomes := t.outcomes + [o]), o, action).0)
  {
    var stored := t.(outcomes := t.outcomes + [o]);
    var e := EvidenceRow(OutcomeEvidence(o.outcomeId), action, o.status.Verified?, false);
    OutcomeSnoc(t.outcomes, o);
    AppendOutcomeKeeps(t, o);
    NoOutcomeEvidence(t, o);
    FreshEvidence(stored, e);
    var u := RecordOutcome(stored, o, action).0;
    assert u == RecordEvidence(stored, e.evidenceId, e.action, e.successful, e.compensated).0;
    OutcomesGrowOk(t, u, o, e);
    AllReconciledAfterOutcome(t, u, o);
  }

  lemma AllReconciledAfterOutcome(t: Tables, u: Tables, o: OutcomeVerification)
    requires AllReconciled(t) && o.actionId.key.action in t.profiles && !o.status.ManualReviewRequired?
    requires u.outcomes == t.outcomes + [o] && u.actions == t.actions
    requires u.profiles == t.profiles[o.actionId.key.action :=
               Learned(t.profiles[o.actionId.key.action], OutcomeEvidence(o.outcomeId), o.status.Verified?, false)]
    ensures AllReconciled(u)
  {
    forall a | a in u.profiles ensures Reconciled(u.profiles[a], u, a) {
      ReconciledAfterOutcome(t, u, o, a);
    }
  }

  lemma ReconciledAfterOutcome(t: Tables, u: Tables, o: OutcomeVerification, a: RecoveryAction)
    requires a in t.profiles && a in u.profiles && Reconciled(t.profiles[a], t, a)
    requires !o.status.ManualReviewRequired? && u.outcomes == t.outcomes + [o] && u.actions == t.actions
    requires u.profiles[a] == if a == o.actionId.key.action
                              then Learned(t.profiles[a], OutcomeEvidence(o.outcomeId), o.status.Verified?, false)
                              else t.profiles[a]
    ensures Reconciled(u.profiles[a], u, a)
  {
    OutcomeSnoc(t.outcomes, o);
  }

  lemma OutcomesGrowOk(t: Tables, u: Tables, o: OutcomeVerification, e: EvidenceRow)
    requires OutcomesOk(t) && u.outcomes == t.outcomes + [o] && u.evidence == t.evidence + [e]
    requires o.outcomeId == OutcomeId(o.decisionId) && e.evidenceId == OutcomeEvidence(o.outcomeId)
    ensures OutcomesOk(u)
  {
    HasEvidenceGrows(t.evidence, e);
  }

  /** Recording an outcome again, identical or conflicting, changes no table at all. */
  lemma ReplayedOutcome(t: Tables, o: OutcomeVerification, action: RecoveryAction)
    requires Inv(t) && OutcomeFor(t.outcomes, o.decisionId).Some?
    ensures Persist(t, o, action).0 == t
  {
    var existing := OutcomeFor(t.outcomes, o.decisionId).value;
    var i :| 0 <= i < |t.outcomes| && t.outcomes[i] == existing;
    assert t.(outcomes := t.outcomes) == t;
  }

  lemma PersistKeeps(t: Tables, o: OutcomeVerification, action: RecoveryAction)
    requires Inv(t) && o.outcomeId == OutcomeId(o.decisionId) && action == o.actionId.key.action && Executable(action)
    ensures Inv(Persist(t, o, action).0)
  {
    if OutcomeFor(t.outcomes, o.decisionId).Some? {
      ReplayedOutcome(t, o, action);
    } else {
      NewOutcomeKeeps(t, o, action);
    }
  }

  // ---------------------------------------------------------------- every operation

  lemma UnrelatedKeeps(t: Tables, u: Tables)
    requires Inv(t) && u.evidence == t.evidence && u.outcomes == t.outcomes && u.actions == t.actions && u.profiles == t.profiles
    ensures Inv(u)
  {
    forall i | 0 <= i < |u.evidence| ensures Sourced(u, u.evidence[i]) {
      assert Sourced(t, t.evidence[i]);
    }
    forall a | a in u.profiles ensures Reconciled(u.profiles[a], u, a) {
      assert Reconciled(t.profiles[a], t, a);
    }
  }

  lemma SetProfileKeeps(t: Tables, action: RecoveryAction, u: ProfileUpdate, strict: bool)
    requires Inv(t)
    ensures Inv(SetProfile(t, action, u, strict).0)
  {
    var v := SetProfile(t, action, u, strict).0;
    SetProfileFrame(t, action, u, strict);
    if v != t {
      SettingKeeps(t, v, action);
    }
  }

  /** A setting touches no counter, and grants bounded autonomy only on the promotion streak. */
  lemma SettingKeeps(t: Tables, v: Tables, action: RecoveryAction)
    requires Inv(t) && action in t.profiles && action in v.profiles
    requires v == t.(profiles := t.profiles[action := v.profiles[action]])
    requires var p, q := t.profiles[action], v.profiles[action];
             && q == p.(level := q.level, reason := q.reason, updatedBy := q.updatedBy, version := q.version)
             && (q.level.BoundedAutonomy? ==> PROMOTION_THRESHOLD <= p.streak)
    ensures Inv(v)
  {
    forall i | 0 <= i < |v.evidence| ensures Sourced(v, v.evidence[i]) {
      assert Sourced(t, t.evidence[i]);
    }
    forall a | a in v.profiles ensures Earned(v.profiles[a], EvidenceOf(v.evidence, a)) && Reconciled(v.profiles[a], v, a) {
      assert Earned(t.profiles[a], EvidenceOf(t.evidence, a)) && Reconciled(t.profiles[a], t, a);
    }
  }

  lemma CommandKeeps(w: World, d: DecisionTrace, order: OrderContext, actorId: string, approvedBy: Option<string>,
                     approval: Option<ApprovalRecord>, now: Time)
    requires Inv(w.tables)
    ensures Inv(RunCommand(w, d, order, actorId, approvedBy, approval, now).0.tables)
  {
    var command := CommandFor(d, order, actorId, approvedBy);
    if command.Returned? {
      var after := Execute(w, command.value, order, now).0;
      ExecuteFrame(w, command.value, order, now);
      if after != w {
        var key := command.value.idempotencyKey;
        var r := RunSaga(Seeded(w.sandbox, order), order, command.value.action, key).1;
        Authority.SagaStatuses(Seeded(w.sandbox, order), order, command.value.action, key);
        ExecutionKeeps(w.tables, FinishedRow(command.value, r, now));
      }
    }
  }

  lemma DecideFrame(t: Tables, id: ApprovalId, input: ApprovalInput, target: ApprovalStatus, now: Time, strict: bool)
    ensures var u := Approvals.Decide(t, id, input, target, now, strict).0; u == t.(approvals := u.approvals)
  {}

  lemma SubmitKeeps(env: Env, w: World, id: DecisionId, actorId: string, now: Time)
    requires Inv(w.tables)
    ensures Inv(Submit(env, w, id, actorId, now).0.tables)
  {
    if id in w.tables.decisions {
      var d := w.tables.decisions[id];
      match d.policy.disposition {
        case AutoExecute =>
          var event := Resolve(w.tables.events, d.eventId);
          if event.Some? {
            CommandKeeps(w, d, event.value.request.order, actorId, None, None, now);
          }
        case RequestApproval =>
          var u := Approvals.RequestApprovalRecord(w.tables, d, actorId, now, env.ttl).0;
          assert u == w.tables.(approvals := u.approvals);
          UnrelatedKeeps(w.tables, u);
        case _ =>
      }
    }
  }

  lemma ApproveKeeps(env: Env, w: World, id: ApprovalId, input: ApprovalInput, now: Time)
    requires Inv(w.tables)
    ensures Inv(ApproveAndExecute(env, w, id, input, now).0.tables)
  {
    ApproveFrame(env, w, id, input, now);
    if ApproveAndExecute(env, w, id, input, now).0 != w {
      var d := w.tables.decisions[w.tables.approvals[id].decisionId];
      var order := Resolve(w.tables.events, d.eventId).value.request.order;
      var (tables, decided) := Approvals.Decide(w.tables, id, input, Approved, now, env.strict);
      DecideFrame(w.tables, id, input, Approved, now, env.strict);
      UnrelatedKeeps(w.tables, tables);
      if decided.Returned? {
        CommandKeeps(w.(tables := tables), d, order, decided.value.requestedBy, decided.value.decidedBy, Some(decided.value), now);
      }
    }
  }

  lemma VerifyActionKeeps(w: World, d: DecisionTrace, e: ActionExecution, order: OrderContext,
                          observation: Option<DeliveryObservation>, now: Time)
    requires Inv(w.tables) && Executable(e.command.action) && e.actionId.key.action == e.command.action
    ensures Inv(VerifyAction(w, d, e, order, observation, now).0.tables)
  {
    var selected := FirstWithAction(d.recommendation.ranked, e.command.action);
    if selected.Some? {
      var sandbox := Inspected(w.sandbox, order, e, observation);
      PersistKeeps(w.tables, OutcomeOf(sandbox, d, e, order, observation, selected.value, now), e.command.action);
    }
  }

  lemma VerifyKeeps(w: World, id: DecisionId, observation: Option<DeliveryObservation>, now: Time)
    requires Inv(w.tables) && Authority.Inv(w.tables)
    ensures Inv(Verify(w, id, observation, now).0.tables)
  {
    if id in w.tables.decisions {
      var d := w.tables.decisions[id];
      var e := ActionFor(w.tables.actions, id);
      var event := Resolve(w.tables.events, d.eventId);
      if e.Some? && event.Some? {
        var i :| 0 <= i < |w.tables.actions| && w.tables.actions[i] == e.value;
        assert Authority.RowOk(w.tables, w.tables.actions[i]);
        VerifyActionKeeps(w, d, e.value, event.value.request.order, observation, now);
      }
    }
  }

  lemma StepKeeps(env: Env, w: World, op: Op)
    requires Inv(w.tables) && Authority.Inv(w.tables)
    ensures Inv(Apply(env, w, op).tables)
  {
    match op {
      case OpEvaluate(request) =>
        EvaluateFrame(env, w.tables, request);
        UnrelatedKeeps(w.tables, Evaluate(env, w.tables, request).0);
      case OpSubmit(id, actor, now) => SubmitKeeps(env, w, id, actor, now);
      case OpApprove(id, input, now) => ApproveKeeps(env, w, id, input, now);
      case OpReject(id, input, now) =>
        DecideFrame(w.tables, id, input, RejectedApproval, now, env.strict);
        UnrelatedKeeps(w.tables, Reject(env, w, id, input, now).0.tables);
      case OpVerify(id, observation, now) => VerifyKeeps(w, id, observation, now);
      case OpKillSwitch(u) =>
        SetKillSwitchFrame(w.tables, u, env.strict);
        UnrelatedKeeps(w.tables, SetKillSwitch(w.tables, u, env.strict).0);
      case OpProfile(action, u) => SetProfileKeeps(w.tables, action, u, env.strict);
      case OpInject(_, _) =>
      case OpClearFailures =>
    }
  }

  lemma StartHolds()
    ensures Inv(BOOTSTRAPPED)
  {}

  lemma {:induction false} RunKeeps(env: Env, ops: seq<Op>)
    ensures Inv(Run(env, START, ops).tables)
  {
    if ops == [] {
      StartHolds();
    } else {
      RunKeeps(env, ops[..|ops| - 1]);
      Authority.RunKeeps(env, START, ops[..|ops| - 1]);
      StepKeeps(env, Run(env, START, ops[..|ops| - 1]), ops[|ops| - 1]);
    }
  }

  /** Cross-store reconciliation: after any history, replays included, the counters of every action equal
      the outcome rows and action rows they stand for. */
  lemma CrossStoreReconciliation(env: Env, ops: seq<Op>, a: RecoveryAction)
    requires Executable(a)
    ensures var t := Run(env, START, ops).tables;
            && a in t.profiles
            && t.profiles[a].verifiedSuccesses == OutcomeRows(t.outcomes, a, Verified)
            && t.profiles[a].failures == OutcomeRows(t.outcomes, a, VerificationFailed)
                                         + ActionRows(t.actions, a, Failed) + ActionRows(t.actions, a, Compensated)
            && t.profiles[a].compensations == ActionRows(t.actions, a, Compensated)
  {
    RunKeeps(env, ops);
  }

  /** The counters refine the evidence log: they are counts over it, the streak is its longest all-success
      suffix, and bounded autonomy always stands on at least twenty trailing successes. */
  lemma CountersRefineEvidence(env: Env, ops: seq<Op>, a: RecoveryAction)
    requires Executable(a)
    ensures var t := Run(env, START, ops).tables; var log := EvidenceOf(t.evidence, a);
            && a in t.profiles && Earned(t.profiles[a], log)
            && (t.profiles[a].level.BoundedAutonomy? ==>
                  20 <= |log| && forall i :: |log| - 20 <= i < |log| ==> log[i].successful)
  {
    RunKeeps(env, ops);
  }
}
