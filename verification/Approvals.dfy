/** approval.py: durable approvals with expiry, role checks and separation of duties. */
module Approvals {
  import opened Common
  import opened Models
  import opened Store
  import opened Autonomy

  function RequestApprovalRecord(t: Tables, d: DecisionTrace, requestedBy: string, now: Time, ttl: int)
    : (Tables, Reply<ApprovalRecord>)
  {
    var action := d.recommendation.selectedAction;
    if !Executable(action) then (t, Raised(ApprovalError))
    else
      var id := ApprovalId(d.decisionId, action, d.policy.policyVersion);
      if id in t.approvals then (t, Returned(t.approvals[id]))
      else
        var record := ApprovalRecord(id, d.decisionId, action, PendingApproval, requestedBy, now, now + ttl, None, None, None, None);
        (t.(approvals := t.approvals[id := record]), Returned(record))
  }

  /** The single transition out of PENDING: to the target, or to EXPIRED with an exception after the
      expiry was stored. */
  function Decide(t: Tables, id: ApprovalId, input: ApprovalInput, target: ApprovalStatus, now: Time, strict: bool)
    : (Tables, Reply<ApprovalRecord>)
  {
    if input.role.Auditor? || input.role.ServiceIdentity? then (t, Raised(ApprovalError))
    else if !MayClaim(input.actorId, input.role, strict) then (t, Raised(IdentityError))
    else if id !in t.approvals then (t, Raised(RecordNotFoundError))
    else
      var record := t.approvals[id];
      if !record.status.PendingApproval? then (t, Raised(ApprovalError))
      else if record.requestedBy == input.actorId then (t, Raised(IdentityError))
      else if record.expiresAt < now then
        (t.(approvals := t.approvals[id := record.(status := Expired)]), Raised(ApprovalError))
      else
        var decided := record.(status := target, decidedBy := Some(input.actorId), decidedByRole := Some(input.role),
                               reason := Some(input.reason), decidedAt := Some(now));
        (t.(approvals := t.approvals[id := decided]), Returned(decided))
  }

  class ApprovalService {
    const database: Database
    const ttl: int
    const strict: bool

    constructor (database: Database, ttl: int, strict: bool)
      ensures this.database == database && this.ttl == ttl && this.strict == strict
    {
      this.database := database;
      this.ttl := ttl;
      this.strict := strict;
    }

    method Request(d: DecisionTrace, requestedBy: string, now: Time) returns (reply: Reply<ApprovalRecord>)
      modifies database
      ensures (database.View(), reply) == RequestApprovalRecord(old(database.View()), d, requestedBy, now, ttl)
    {
      var action := d.recommendation.selectedAction;
      if action.TakeNoAction? || action.HumanEscalation? {
        return Raised(ApprovalError);
      }
      var id := ApprovalId(d.decisionId, action, d.policy.policyVersion);
      var record := ApprovalRecord(id, d.decisionId, action, PendingApproval, requestedBy, now, now + ttl, None, None, None, None);
      if id in database.approvals {
        return Returned(database.approvals[id]);
      }
      database.approvals := database.approvals[id := record];
      return Returned(record);
    }

    /** `update_if_pending`: write the record only over a PENDING row. */
    method UpdateIfPending(id: ApprovalId, record: ApprovalRecord) returns (reply: Reply<()>)
      requires id in database.approvals
      modifies database`approvals
      ensures if old(database.approvals)[id].status.PendingApproval?
              then reply == Returned(()) && database.approvals == old(database.approvals)[id := record]
              else reply == Raised(PersistenceConflictError) && database.approvals == old(database.approvals)
    {
      if !database.approvals[id].status.PendingApproval? {
        return Raised(PersistenceConflictError);
      }
      database.approvals := database.approvals[id := record];
      return Returned(());
    }

    method DecideAs(id: ApprovalId, input: ApprovalInput, target: ApprovalStatus, now: Time) returns (reply: Reply<ApprovalRecord>)
      modifies database
      ensures (database.View(), reply) == Decide(old(database.View()), id, input, target, now, strict)
    {
      if input.role.Auditor? || input.role.ServiceIdentity? {
        return Raised(ApprovalError);
      }
      if !MayClaim(input.actorId, input.role, strict) {
        return Raised(IdentityError);
      }
      if id !in database.approvals {
        return Raised(RecordNotFoundError);
      }
      var record := database.approvals[id];
      if !record.status.PendingApproval? {
        return Raised(ApprovalError);
      }
      if record.requestedBy == input.actorId {
        return Raised(IdentityError);
      }
      if record.expiresAt < now {
        var written := UpdateIfPending(id, record.(status := Expired));
        return Raised(ApprovalError);
      }
      var decided := record.(status := target, decidedBy := Some(input.actorId), decidedByRole := Some(input.role),
                             reason := Some(input.reason), decidedAt := Some(now));
      var written := UpdateIfPending(id, decided);
      if written.Raised? {
        return Raised(ApprovalError);
      }
      return Returned(decided);
    }
  }
}
