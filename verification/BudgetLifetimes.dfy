/** The life of a reservation: what the grant stores, exactly how long the row stays open, and which of its two ends
    it meets. */
module BudgetLifetimes {
  import opened Common
  import opened Models
  import opened AgentModels
  import opened BudgetLedger
  import opened BudgetProofs

  // ---------------------------------------------------------------- the grant

  /** The operation reserves: a new row is stored, and nothing is reused. */
  predicate Grants(l: Ledger, op: Op) {
    op.OpReserve? && var r := Reserve(l, op.limits, op.key, op.estimate, op.now).1; r.Returned? && !r.value.1
  }

  /** An open reservation: nothing is known of it yet except what was asked for, when, and how long it lives. */
  predicate FreshRow(row: RunRow, key: RequestKey, attempt: nat, estimate: int, at: Time, until: Time) {
    && row.runId == RunId(key, attempt) && row.requestKey == key
    && row.status.Reserved? && row.reservedCost == estimate && row.actualCost == 0
    && row.createdAt == at && row.expiresAt == until && row.completedAt.None?
    && row.usage.None? && row.responseId.None? && row.review.None? && row.errorCode.None? && row.validationErrors == []
  }

  /** A grant appends one row, open from now until the manager's time to live is over. */
  predicate GrantedNow(before: Ledger, after: Ledger, op: Op)
    requires op.OpReserve?
  {
    && |after.runs| == |before.runs| + 1
    && FreshRow(after.runs[|before.runs|], op.key, CountKey(before.runs, op.key) + 1, op.estimate, op.now, op.now + op.limits.ttl)
    && SumReserved(after.runs) == SumReserved(ReclaimRows(before.runs, op.now)) + op.estimate
    && SumSpent(after.runs) == SumSpent(ReclaimRows(before.runs, op.now))
  }

  lemma GrantStores(l: Ledger, op: Op)
    requires Grants(l, op)
    ensures GrantedNow(l, Apply(l, op), op)
  {
    var runs := ReclaimRows(l.runs, op.now);
    ReclaimKeepsKeys(l.runs, op.now, op.key);
    SumsSnoc(runs, NewRun(runs, op.limits, op.key, op.estimate, op.now));
  }

  // ---------------------------------------------------------------- when an open row is touched

  /** The operation gets past its lock: it is refused when its limit is below what is committed already. */
  predicate PassesLock(l: Ledger, limits: Limits) { Committed(l.runs) <= limits.limit }

  /** The operation looks for stale rows: a budget read that passes the lock, or a reservation that is granted. */
  predicate Sweeps(l: Ledger, op: Op) {
    match op
    case OpReserve(limits, key, estimate, _) =>
      && NewestCompleted(l.runs, key).None? && 0 <= estimate <= limits.perRun
      && Committed(l.runs) + estimate <= limits.limit
    case OpSettle(_, _, _, _) => false
    case OpState(limits, _) => PassesLock(l, limits)
  }

  /** The operation settles this run. */
  predicate Settles(l: Ledger, op: Op, id: RunId) {
    op.OpSettle? && op.runId == id && 0 <= op.settlement.actualCost && PassesLock(l, op.limits)
  }

  /** The operation ends the open row: it settles it, or sweeps after its expiry. */
  predicate Ends(l: Ledger, op: Op, row: RunRow) {
    Settles(l, op, row.runId) || (Sweeps(l, op) && row.expiresAt < op.now)
  }

  /** No operation of the history ends the row. */
  predicate Spared(l: Ledger, ops: seq<Op>, row: RunRow) {
    ops == [] || (Spared(l, ops[..|ops| - 1], row) && !Ends(Run(l, ops[..|ops| - 1]), ops[|ops| - 1], row))
  }

  lemma SweepsExactly(l: Ledger, op: Op)
    requires Inv(l) && ValidOp(op)
    ensures Sweeps(l, op) <==> Reclaiming(l, op)
    ensures op.OpReserve? ==> (Sweeps(l, op) <==> Grants(l, op))
  {
    match op {
      case OpReserve(limits, key, estimate, now) =>
        LockedExactly(l, limits, now);
        if LockedBudget(l.budget, limits, now).Returned? && NewestCompleted(l.runs, key).None? && estimate <= limits.perRun {
          ReserveDecided(l, limits, key, estimate, now);
        }
      case OpSettle(_, _, _, _) =>
      case OpState(limits, now) => LockedExactly(l, limits, now);
    }
  }

  lemma LockedExactly(l: Ledger, limits: Limits, now: Time)
    requires Inv(l) && limits.Valid()
    ensures LockedBudget(l.budget, limits, now).Returned? <==> PassesLock(l, limits)
  {}

  // ---------------------------------------------------------------- the three things that happen to an open row

  /** Charged in full by a sweep at `now`. */
  predicate ChargedInFull(before: RunRow, after: RunRow, now: Time) {
    && after.status.FailedRun? && after.actualCost == before.reservedCost
    && after.errorCode == Some(StaleReservationCharged) && after.completedAt == Some(now)
    && after.runId == before.runId && after.requestKey == before.requestKey && after.reservedCost == before.reservedCost
    && after.createdAt == before.createdAt && after.expiresAt == before.expiresAt
    && after.usage == before.usage && after.responseId == before.responseId && after.review == before.review
    && after.validationErrors == before.validationErrors
  }

  /** Settled at `now` as the caller said; usage is kept when none is reported. */
  predicate SettledAs(before: RunRow, after: RunRow, s: Settlement, now: Time) {
    && after.status == s.status && after.actualCost == s.actualCost && after.completedAt == Some(now)
    && after.responseId == s.responseId && after.review == s.review
    && after.errorCode == s.errorCode && after.validationErrors == s.validationErrors
    && after.usage == (if s.usage.Some? then s.usage else before.usage)
    && after.runId == before.runId && after.requestKey == before.requestKey && after.reservedCost == before.reservedCost
    && after.createdAt == before.createdAt && after.expiresAt == before.expiresAt
  }

  /** What one operation does to open row `i`. */
  predicate RowStep(l: Ledger, after: Ledger, op: Op, i: nat)
    requires i < |l.runs|
  {
    && i < |after.runs|
    && var row, next := l.runs[i], after.runs[i];
    && (Settles(l, op, row.runId) ==> SettledAs(row, next, op.settlement, op.now))
    && (Sweeps(l, op) && row.expiresAt < op.now ==> ChargedInFull(row, next, op.now))
    && (!Ends(l, op, row) ==> next == row)
  }

  lemma SettleStep(l: Ledger, op: Op, i: nat)
    requires Inv(l) && ValidOp(op) && op.OpSettle? && i < |l.runs| && l.runs[i].status.Reserved?
    ensures RowStep(l, Apply(l, op), op, i)
  {
    IdsDistinct(l.runs);
    LockedExactly(l, op.limits, op.now);
    var j := FindRun(l.runs, op.runId);
    if op.runId == l.runs[i].runId {
      assert j == i;
    } else {
      assert j != i;
    }
  }

  lemma SweepStep(l: Ledger, op: Op, i: nat)
    requires Inv(l) && ValidOp(op) && !op.OpSettle? && i < |l.runs| && l.runs[i].status.Reserved?
    ensures RowStep(l, Apply(l, op), op, i)
  {
    SweepsExactly(l, op);
    if Sweeps(l, op) {
      ReclaimedBy(l, op, i);
    } else {
      NoSweepNoChange(l, op);
    }
  }

  lemma NoSweepNoChange(l: Ledger, op: Op)
    requires !op.OpSettle? && !Reclaiming(l, op)
    ensures Apply(l, op) == l
  {}

  lemma OpenRowStep(l: Ledger, op: Op, i: nat)
    requires Inv(l) && ValidOp(op) && i < |l.runs| && l.runs[i].status.Reserved?
    ensures RowStep(l, Apply(l, op), op, i)
  {
    if op.OpSettle? {
      SettleStep(l, op, i);
    } else {
      SweepStep(l, op, i);
    }
  }

  // ---------------------------------------------------------------- how long a reservation lives

  /** How long a row stays open, exactly: after any history it is RESERVED, and then still the very row it was, if
      and only if no operation settled it past the lock and no operation swept the table after its expiry. */
  lemma {:induction false} OpenExactly(l: Ledger, ops: seq<Op>, i: nat)
    requires Inv(l) && ValidOps(ops) && i < |l.runs| && l.runs[i].status.Reserved?
    ensures Inv(Run(l, ops)) && i < |Run(l, ops).runs|
    ensures Run(l, ops).runs[i].status.Reserved? <==> Spared(l, ops, l.runs[i])
    ensures Spared(l, ops, l.runs[i]) ==> Run(l, ops).runs[i] == l.runs[i]
  {
    if ops == [] {
    } else {
      var n := |ops| - 1;
      OpenExactly(l, ops[..n], i);
      var mid, op := Run(l, ops[..n]), ops[n];
      StepKeepsInv(mid, op);
      StepEvolves(mid, op, l.runs[i].requestKey);
      if mid.runs[i].status.Reserved? {
        OpenRowStep(mid, op, i);
      }
    }
  }

  lemma {:induction false} SparedInTime(l: Ledger, ops: seq<Op>, row: RunRow)
    requires forall k :: 0 <= k < |ops| ==> ops[k].now <= row.expiresAt && (ops[k].OpSettle? ==> ops[k].runId != row.runId)
    ensures Spared(l, ops, row)
  {
    if ops != [] {
      SparedInTime(l, ops[..|ops| - 1], row);
    }
  }

  /** The row that `grant` stores when it is applied to `l`. */
  function Stored(l: Ledger, grant: Op): RunRow
    requires Grants(l, grant)
  {
    GrantStores(l, grant);
    Apply(l, grant).runs[|l.runs|]
  }

  /** No operation of the history reads a clock after the grant's life or settles its run. */
  predicate Undisturbed(l: Ledger, grant: Op, more: seq<Op>)
    requires grant.OpReserve?
  {
    && ValidOps(more) && (forall k :: 0 <= k < |more| ==> more[k].now <= grant.now + grant.limits.ttl)
    && forall k :: 0 <= k < |more| && more[k].OpSettle? ==> more[k].runId != RunId(grant.key, CountKey(l.runs, grant.key) + 1)
  }

  /** A reservation granted at t by a manager of time to live d stays the open row it is under every history whose
      clocks are at most t + d and that does not settle it, whatever managers of whatever limits take part. */
  lemma ReservationLives(l: Ledger, grant: Op, more: seq<Op>)
    requires Inv(l) && ValidOp(grant) && Grants(l, grant) && Undisturbed(l, grant, more)
    ensures var m := Run(Apply(l, grant), more); var i := |l.runs|;
            && Inv(m) && i < |m.runs| && m.runs[i] == Stored(l, grant)
            && FreshRow(m.runs[i], grant.key, CountKey(l.runs, grant.key) + 1, grant.estimate, grant.now,
                        grant.now + grant.limits.ttl)
  {
    var after, row := Apply(l, grant), Stored(l, grant);
    GrantStores(l, grant);
    StepKeepsInv(l, grant);
    SparedInTime(after, more, row);
    OpenExactly(after, more, |l.runs|);
  }

  lemma SettledTotals(l: Ledger, op: Op, i: nat)
    requires Inv(l) && ValidOp(op) && i < |l.runs| && l.runs[i].status.Reserved? && Settles(l, op, l.runs[i].runId)
    ensures var v := Apply(l, op);
            && |v.runs| == |l.runs| && SettledAs(l.runs[i], v.runs[i], op.settlement, op.now)
            && SumReserved(v.runs) == SumReserved(l.runs) - l.runs[i].reservedCost
            && SumSpent(v.runs) == SumSpent(l.runs) + op.settlement.actualCost
  {
    SettleStep(l, op, i);
    IdsDistinct(l.runs);
    LockedExactly(l, op.limits, op.now);
    assert FindRun(l.runs, op.runId) == i && RowOk(l.runs[i]);
    SumsUpdate(l.runs, i, SettleRow(l.runs[i], op.settlement, op.now));
  }

  /** Row `i` holds the completed review, and the sums exchange the reservation for its cost. */
  predicate CompletedWith(before: seq<RunRow>, after: seq<RunRow>, i: nat, reserved: int, s: Settlement, now: Time) {
    && |after| == |before| && i < |after|
    && after[i].status.Completed? && after[i].review == s.review && after[i].usage == s.usage
    && after[i].actualCost == s.actualCost && after[i].responseId == s.responseId
    && after[i].reservedCost == reserved && after[i].completedAt == Some(now)
    && SumReserved(after) == SumReserved(before) - reserved && SumSpent(after) == SumSpent(before) + s.actualCost
  }

  lemma CompletesRow(l: Ledger, op: Op, i: nat)
    requires Inv(l) && ValidOp(op) && i < |l.runs| && l.runs[i].status.Reserved? && Settles(l, op, l.runs[i].runId)
    requires op.settlement.status.Completed? && op.settlement.usage.Some?
    ensures CompletedWith(l.runs, Apply(l, op).runs, i, l.runs[i].reservedCost, op.settlement, op.now)
  {
    SettledTotals(l, op, i);
  }

  /** The completion that arrives in time is booked, not lost: the row becomes COMPLETED with the review, usage and
      cost reported, and the totals exchange the reservation for that cost. */
  lemma CompletionInTime(l: Ledger, grant: Op, more: seq<Op>, limits: Limits, usage: Usage, cost: int, responseId: string,
                         review: Review, now: Time)
    requires Inv(l) && ValidOp(grant) && Grants(l, grant) && limits.Valid() && 0 <= cost
    requires Undisturbed(l, grant, more) && PassesLock(Run(Apply(l, grant), more), limits)
    ensures var m, done := Run(Apply(l, grant), more), Completion(usage, cost, responseId, review);
            var v := Apply(m, OpSettle(limits, RunId(grant.key, CountKey(l.runs, grant.key) + 1), done, now));
            CompletedWith(m.runs, v.runs, |l.runs|, grant.estimate, done, now)
  {
    ReservationLives(l, grant, more);
    var m := Run(Apply(l, grant), more);
    CompletesRow(m, OpSettle(limits, m.runs[|l.runs|].runId, Completion(usage, cost, responseId, review), now), |l.runs|);
  }

  /** The first sweep after t + d charges the reservation in full: after a history that spared it, a budget read or a
      further grant at a later clock leaves it FAILED at its full amount, for ever and whatever is settled later. */
  lemma ChargedAfterExpiry(l: Ledger, grant: Op, more: seq<Op>, sweep: Op, later: seq<Op>)
    requires Inv(l) && ValidOp(grant) && ValidOps(more) && ValidOp(sweep) && ValidOps(later) && Grants(l, grant)
    requires Spared(Apply(l, grant), more, Stored(l, grant))
    requires Sweeps(Run(Apply(l, grant), more), sweep) && grant.now + grant.limits.ttl < sweep.now
    ensures var m := Run(Apply(Run(Apply(l, grant), more), sweep), later); var i := |l.runs|;
            && i < |m.runs| && ChargedInFull(Stored(l, grant), m.runs[i], sweep.now)
            && m.runs[i].actualCost == grant.estimate
  {
    var after, i := Apply(l, grant), |l.runs|;
    GrantStores(l, grant);
    StepKeepsInv(l, grant);
    OpenExactly(after, more, i);
    var mid := Run(after, more);
    OpenRowStep(mid, sweep, i);
    SettledOnceForAll(Apply(mid, sweep), later, grant.key);
  }

  // ---------------------------------------------------------------- the version of the budget

  /** Nothing, or a new version of the budget row dated `now`. */
  predicate Versioned(before: Ledger, after: Ledger, now: Time) {
    || after == before
    || (after.budget.Some? && after.budget.value.updatedAt == now
        && (before.budget.Some? ==> before.budget.value.version < after.budget.value.version))
  }

  lemma StepIsVersioned(l: Ledger, op: Op)
    ensures Versioned(l, Apply(l, op), op.now)
  {
    if op.OpState? {
      StateIsVersioned(l, op.limits, op.now);
    } else {
      ReclaimKeepsVersion(LockedBudget(l.budget, op.limits, op.now), l.runs, op.now);
    }
  }

  lemma StateIsVersioned(l: Ledger, limits: Limits, now: Time)
    ensures Versioned(l, State(l, limits, now).0, now)
  {
    if l.budget.Some? && !AnyStale(l.runs, now) {
      NothingToReclaim(l.budget.value, l.runs, now);
      NothingToReclaim(l.budget.value.(limit := limits.limit, updatedAt := now, version := l.budget.value.version + 1), l.runs, now);
    } else {
      ReclaimKeepsVersion(LockedBudget(l.budget, limits, now), l.runs, now);
    }
  }

  lemma ReclaimKeepsVersion(locked: Reply<BudgetRow>, runs: seq<RunRow>, now: Time)
    ensures locked.Returned? ==> ReclaimTotals(locked.value, runs, now).version == locked.value.version
    ensures locked.Returned? ==> ReclaimTotals(locked.value, runs, now).updatedAt == locked.value.updatedAt
  {}

  lemma {:induction false} NothingToReclaim(b: BudgetRow, runs: seq<RunRow>, now: Time)
    requires !AnyStale(runs, now)
    ensures ReclaimTotals(b, runs, now) == b && ReclaimRows(runs, now) == runs
  {
    if runs == [] {
    } else {
      var n := |runs| - 1;
      assert !Stale(runs[n], now);
      forall i | 0 <= i < n ensures !Stale(runs[..n][i], now) {
        assert !Stale(runs[i], now);
      }
      NothingToReclaim(b, runs[..n], now);
    }
  }

  function VersionOf(l: Ledger): nat { if l.budget.Some? then l.budget.value.version else 0 }

  /** The version is a fingerprint of the ledger: along any history it never falls, and as long as it is the same
      nothing has changed, neither totals nor rows. */
  lemma {:induction false} VersionIsFingerprint(l: Ledger, ops: seq<Op>)
    requires Inv(l) && ValidOps(ops)
    ensures VersionOf(l) <= VersionOf(Run(l, ops))
    ensures l.budget.Some? && VersionOf(Run(l, ops)) == VersionOf(l) ==> Run(l, ops) == l
    ensures l.budget.Some? ==> Run(l, ops).budget.Some?
  {
    if ops == [] {
    } else {
      VersionIsFingerprint(l, ops[..|ops| - 1]);
      StepIsVersioned(Run(l, ops[..|ops| - 1]), ops[|ops| - 1]);
    }
  }
}
