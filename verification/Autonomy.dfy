/** autonomy.py and identity.py: the kill switch, the evidence-earned autonomy profiles, and the
    local role binding that guards changes to them. */
module Autonomy {
  import opened Common
  import opened Models
  import opened Store

  const PROMOTION_THRESHOLD := 20

  const LOCAL_DIRECTORY: map<string, UserRole> := map[
    "operations-manager-ui" := OperationsManager,
    "operations-analyst-ui" := OperationsAnalyst,
    "auditor-ui" := Auditor,
    "promiseguard-service" := ServiceIdentity,
    "openai-smoke" := ServiceIdentity,
    "eval-runner" := ServiceIdentity]

  /** A registered actor cannot claim another role; an unknown one is admitted unless strict. */
  predicate MayClaim(actorId: string, role: UserRole, strict: bool) {
    if actorId in LOCAL_DIRECTORY then LOCAL_DIRECTORY[actorId] == role else !strict
  }

  datatype KillSwitchUpdate = KillSwitchUpdate(active: bool, actorId: string, role: UserRole, reason: string)

  datatype ProfileUpdate = ProfileUpdate(level: AutonomyLevel, actorId: string, role: UserRole, reason: string)

  function ProfileOf(t: Tables, action: RecoveryAction): Reply<Profile> {
    if action in t.profiles then Returned(t.profiles[action]) else Raised(AutonomyControlError)
  }

  function SetKillSwitch(t: Tables, u: KillSwitchUpdate, strict: bool): (Tables, Reply<KillSwitch>) {
    if !u.role.OperationsManager? then (t, Raised(AutonomyControlError))
    else if !MayClaim(u.actorId, u.role, strict) then (t, Raised(IdentityError))
    else
      var row := KillSwitch(u.active, u.reason, u.actorId, t.killSwitch.version + 1);
      (t.(killSwitch := row), Returned(row))
  }

  function SetProfile(t: Tables, action: RecoveryAction, u: ProfileUpdate, strict: bool): (Tables, Reply<Profile>) {
    if !u.role.OperationsManager? then (t, Raised(AutonomyControlError))
    else if !MayClaim(u.actorId, u.role, strict) then (t, Raised(IdentityError))
    else if !Executable(action) || action !in t.profiles then (t, Raised(AutonomyControlError))
    else if u.level.BoundedAutonomy? && t.profiles[action].streak < PROMOTION_THRESHOLD then (t, Raised(AutonomyControlError))
    else
      var p := t.profiles[action];
      var row := p.(level := u.level, reason := u.reason, updatedBy := u.actorId, version := p.version + 1);
      (t.(profiles := t.profiles[action := row]), Returned(row))
  }

  function ContextVersion(t: Tables, action: RecoveryAction): Reply<ControlVersion> {
    if !Executable(action) then Returned(ControlVersion(t.killSwitch.version, None))
    else match ProfileOf(t, action)
      case Raised(e) => Raised(e)
      case Returned(p) => Returned(ControlVersion(t.killSwitch.version, Some((action, p.version))))
  }

  function ExecutionPermitted(t: Tables, action: RecoveryAction): Reply<bool> {
    if t.killSwitch.active then Returned(false)
    else match ProfileOf(t, action)
      case Raised(e) => Raised(e)
      case Returned(p) => Returned(p.level.BoundedAutonomy?)
  }

  /** A profile after one new piece of evidence. */
  function Learned(p: Profile, id: EvidenceId, successful: bool, compensated: bool): Profile {
    var kind := if id.ExecutionEvidence? then "EXECUTION_FAILURE" else "VERIFIED_OUTCOME";
    var counted :=
      p.(verifiedSuccesses := p.verifiedSuccesses + if successful then 1 else 0,
         failures := p.failures + if successful then 0 else 1,
         streak := if successful then p.streak + 1 else 0,
         compensations := p.compensations + if compensated then 1 else 0,
         version := p.version + 1);
    if !successful && p.level.BoundedAutonomy?
    then counted.(level := Suspended, reason := "Automatic safety downgrade after " + kind,
                  updatedBy := "automatic-safety-downgrade")
    else counted
  }

  /** `_record_evidence`: each evidence id counts once. */
  function RecordEvidence(t: Tables, id: EvidenceId, action: RecoveryAction, successful: bool, compensated: bool)
    : (Tables, Reply<Profile>)
  {
    if action !in t.profiles then (t, Raised(AutonomyControlError))
    else if HasEvidence(t.evidence, id) then (t, Returned(t.profiles[action]))
    else
      var row := Learned(t.profiles[action], id, successful, compensated);
      (t.(evidence := t.evidence + [EvidenceRow(id, action, successful, compensated)],
          profiles := t.profiles[action := row]),
       Returned(row))
  }

  function RecordExecution(t: Tables, e: ActionExecution): (Tables, Reply<Profile>) {
    if !e.status.Compensated? && !e.status.Failed? && !e.status.ManualRecoveryRequired? then (t, ProfileOf(t, e.command.action))
    else RecordEvidence(t, ExecutionEvidence(e.actionId), e.command.action, false, e.status.Compensated?)
  }

  function RecordOutcome(t: Tables, o: OutcomeVerification, action: RecoveryAction): (Tables, Reply<Profile>) {
    if o.status.ManualReviewRequired? then (t, ProfileOf(t, action))
    else RecordEvidence(t, OutcomeEvidence(o.outcomeId), action, o.status.Verified?, false)
  }

  class AutonomyController {
    const database: Database
    const strict: bool

    constructor (database: Database, strict: bool)
      ensures this.database == database && this.strict == strict
    {
      this.database := database;
      this.strict := strict;
    }

    method Set(u: KillSwitchUpdate) returns (reply: Reply<KillSwitch>)
      modifies database
      ensures (database.View(), reply) == SetKillSwitch(old(database.View()), u, strict)
    {
      if !u.role.OperationsManager? {
        return Raised(AutonomyControlError);
      }
      if !MayClaim(u.actorId, u.role, strict) {
        return Raised(IdentityError);
      }
      database.killSwitch := database.killSwitch.(active := u.active, reason := u.reason, updatedBy := u.actorId);
      database.killSwitch := database.killSwitch.(version := database.killSwitch.version + 1);
      return Returned(database.killSwitch);
    }

    method Update(action: RecoveryAction, u: ProfileUpdate) returns (reply: Reply<Profile>)
      modifies database
      ensures (database.View(), reply) == SetProfile(old(database.View()), action, u, strict)
    {
      if !u.role.OperationsManager? {
        return Raised(AutonomyControlError);
      }
      if !MayClaim(u.actorId, u.role, strict) {
        return Raised(IdentityError);
      }
      if !Executable(action) || action !in database.profiles {
        return Raised(AutonomyControlError);
      }
      var row := database.profiles[action];
      if u.level.BoundedAutonomy? && row.streak < PROMOTION_THRESHOLD {
        return Raised(AutonomyControlError);
      }
      row := row.(level := u.level, reason := u.reason, updatedBy := u.actorId, version := row.version + 1);
      database.profiles := database.profiles[action := row];
      return Returned(row);
    }

    method Record(id: EvidenceId, action: RecoveryAction, kind: string, successful: bool, compensated: bool)
      returns (reply: Reply<Profile>)
      requires kind == if id.ExecutionEvidence? then "EXECUTION_FAILURE" else "VERIFIED_OUTCOME"
      modifies database
      ensures (database.View(), reply) == RecordEvidence(old(database.View()), id, action, successful, compensated)
    {
      if action !in database.profiles {
        return Raised(AutonomyControlError);
      }
      var row := database.profiles[action];
      if HasEvidence(database.evidence, id) {
        return Returned(row);
      }
      database.evidence := database.evidence + [EvidenceRow(id, action, successful, compensated)];
      var bounded := row.level.BoundedAutonomy?;
      if successful {
        row := row.(verifiedSuccesses := row.verifiedSuccesses + 1, streak := row.streak + 1);
      } else {
        row := row.(failures := row.failures + 1, streak := 0);
      }
      if compensated {
        row := row.(compensations := row.compensations + 1);
      }
      if !successful && bounded {
        row := row.(level := Suspended, reason := "Automatic safety downgrade after " + kind,
                    updatedBy := "automatic-safety-downgrade");
      }
      row := row.(version := row.version + 1);
      database.profiles := database.profiles[action := row];
      return Returned(row);
    }

    method NoteExecution(e: ActionExecution) returns (reply: Reply<Profile>)
      modifies database
      ensures (database.View(), reply) == RecordExecution(old(database.View()), e)
    {
      if !e.status.Compensated? && !e.status.Failed? && !e.status.ManualRecoveryRequired? {
        return if e.command.action in database.profiles then Returned(database.profiles[e.command.action])
               else Raised(AutonomyControlError);
      }
      reply := Record(ExecutionEvidence(e.actionId), e.command.action, "EXECUTION_FAILURE", false, e.status.Compensated?);
    }

    method NoteOutcome(o: OutcomeVerification, action: RecoveryAction) returns (reply: Reply<Profile>)
      modifies database
      ensures (database.View(), reply) == RecordOutcome(old(database.View()), o, action)
    {
      if o.status.ManualReviewRequired? {
        return if action in database.profiles then Returned(database.profiles[action]) else Raised(AutonomyControlError);
      }
      reply := Record(OutcomeEvidence(o.outcomeId), action, "VERIFIED_OUTCOME", o.status.Verified?, false);
    }
  }
}
