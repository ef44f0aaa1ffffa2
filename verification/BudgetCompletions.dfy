/** How many runs of one request key can be COMPLETED: at most one exactly as long as no reservation of the
    key is made beside a live one. */
module BudgetCompletions {
  import opened Common
  import opened Models
  import opened AgentModels
  import opened BudgetLedger
  import opened BudgetProofs

  function DonePart(row: RunRow, key: RequestKey): nat { if row.requestKey == key && row.status.Completed? then 1 else 0 }

  function OpenPart(row: RunRow, key: RequestKey): nat { if row.requestKey == key && row.status.Reserved? then 1 else 0 }

  /** COMPLETED rows of a key. */
  function Done(runs: seq<RunRow>, key: RequestKey): nat {
    if runs == [] then 0 else Done(runs[..|runs| - 1], key) + DonePart(runs[|runs| - 1], key)
  }

  /** RESERVED rows of a key. */
  function Open(runs: seq<RunRow>, key: RequestKey): nat {
    if runs == [] then 0 else Open(runs[..|runs| - 1], key) + OpenPart(runs[|runs| - 1], key)
  }

  /** A reservation of the key is still running at `now`. */
  predicate LiveOpen(runs: seq<RunRow>, key: RequestKey, now: Time) {
    exists i :: 0 <= i < |runs| && runs[i].requestKey == key && runs[i].status.Reserved? && !Stale(runs[i], now)
  }

  // ---------------------------------------------------------------- counting

  lemma CountsSnoc(runs: seq<RunRow>, row: RunRow, key: RequestKey)
    ensures Done(runs + [row], key) == Done(runs, key) + DonePart(row, key)
    ensures Open(runs + [row], key) == Open(runs, key) + OpenPart(row, key)
  {
    assert (runs + [row])[..|runs|] == runs;
  }

  lemma {:induction false} CountsUpdate(runs: seq<RunRow>, i: nat, row: RunRow, key: RequestKey)
    requires i < |runs|
    ensures Done(runs[i := row], key) == Done(runs, key) - DonePart(runs[i], key) + DonePart(row, key)
    ensures Open(runs[i := row], key) == Open(runs, key) - OpenPart(runs[i], key) + OpenPart(row, key)
  {
    var n := |runs| - 1;
    if i == n {
      assert runs[i := row][..n] == runs[..n];
    } else {
      assert runs[i := row][..n] == runs[..n][i := row];
      CountsUpdate(runs[..n], i, row, key);
    }
  }

  /** Reclaiming closes exactly the stale rows: no completion is lost, and a row of the key stays open if
      and only if one was live. */
  lemma {:induction false} ReclaimCounts(runs: seq<RunRow>, now: Time, key: RequestKey)
    ensures Done(ReclaimRows(runs, now), key) == Done(runs, key)
    ensures Open(ReclaimRows(runs, now), key) <= Open(runs, key)
    ensures 0 < Open(ReclaimRows(runs, now), key) <==> LiveOpen(runs, key, now)
  {
    if runs == [] {
    } else {
      var n := |runs| - 1;
      ReclaimCounts(runs[..n], now, key);
      assert ReclaimRows(runs, now)[..n] == ReclaimRows(runs[..n], now);
      LiveOpenLast(runs, key, now);
    }
  }

  lemma LiveOpenLast(runs: seq<RunRow>, key: RequestKey, now: Time)
    requires runs != []
    ensures var n := |runs| - 1;
            LiveOpen(runs, key, now) <==>
            LiveOpen(runs[..n], key, now) || (runs[n].requestKey == key && runs[n].status.Reserved? && !Stale(runs[n], now))
  {
    var n := |runs| - 1;
    if LiveOpen(runs[..n], key, now) {
      var i :| 0 <= i < n && runs[..n][i].requestKey == key && runs[..n][i].status.Reserved? && !Stale(runs[..n][i], now);
      assert runs[i] == runs[..n][i];
    }
    if LiveOpen(runs, key, now) {
      var i :| 0 <= i < |runs| && runs[i].requestKey == key && runs[i].status.Reserved? && !Stale(runs[i], now);
      if i < n {
        assert runs[..n][i] == runs[i];
      }
    }
  }

  lemma {:induction false} DoneExactly(runs: seq<RunRow>, key: RequestKey)
    ensures 0 < Done(runs, key) <==> NewestCompleted(runs, key).Some?
  {
    if runs == [] {
    } else {
      DoneExactly(runs[..|runs| - 1], key);
    }
  }

  lemma {:induction false} OpenRow(runs: seq<RunRow>, key: RequestKey) returns (i: nat)
    requires 0 < Open(runs, key)
    ensures i < |runs| && runs[i].requestKey == key && runs[i].status.Reserved?
  {
    var n := |runs| - 1;
    if 0 < OpenPart(runs[n], key) {
      i := n;
    } else {
      i := OpenRow(runs[..n], key);
    }
  }

  // ---------------------------------------------------------------- one step

  /** A reservation that grants a new row has no COMPLETED row of its key beside it, and leaves a second open
      row of the key if and only if one was live. */
  lemma GrantedReservation(l: Ledger, limits: Limits, key: RequestKey, estimate: int, now: Time)
    requires var r := Reserve(l, limits, key, estimate, now).1; r.Returned? && !r.value.1
    ensures var after := Reserve(l, limits, key, estimate, now).0.runs;
            && Done(after, key) == 0
            && (2 <= Open(after, key) <==> LiveOpen(l.runs, key, now))
            && (!LiveOpen(l.runs, key, now) ==> Open(after, key) == 1)
  {
    var runs := ReclaimRows(l.runs, now);
    ReclaimCounts(l.runs, now, key);
    DoneExactly(l.runs, key);
    CountsSnoc(runs, NewRun(runs, limits, key, estimate, now), key);
  }

  lemma ReserveCounts(l: Ledger, limits: Limits, k: RequestKey, estimate: int, now: Time, key: RequestKey)
    requires k != key
    ensures var after := Reserve(l, limits, k, estimate, now).0.runs;
            Done(after, key) == Done(l.runs, key) && Open(after, key) <= Open(l.runs, key)
  {
    if Reserve(l, limits, k, estimate, now).0 != l {
      var runs := ReclaimRows(l.runs, now);
      ReclaimCounts(l.runs, now, key);
      CountsSnoc(runs, NewRun(runs, limits, k, estimate, now), key);
    }
  }

  lemma SettleCounts(l: Ledger, limits: Limits, runId: RunId, s: Settlement, now: Time, key: RequestKey)
    ensures var after := Finalise(l, limits, runId, s, now).0.runs;
            Done(after, key) + Open(after, key) <= Done(l.runs, key) + Open(l.runs, key)
  {
    if Finalise(l, limits, runId, s, now).0 != l {
      var i := FindRun(l.runs, runId);
      CountsUpdate(l.runs, i, SettleRow(l.runs[i], s, now), key);
    }
  }

  predicate ReservesKey(op: Op, key: RequestKey) { op.OpReserve? && op.key == key }

  /** Without a reservation of the key, its open and completed rows together never grow. */
  lemma OthersAddNothing(l: Ledger, op: Op, key: RequestKey)
    requires !ReservesKey(op, key)
    ensures var after := Apply(l, op).runs; Done(after, key) + Open(after, key) <= Done(l.runs, key) + Open(l.runs, key)
  {
    match op
    case OpReserve(limits, k, estimate, now) => ReserveCounts(l, limits, k, estimate, now, key);
    case OpSettle(limits, runId, s, now) => SettleCounts(l, limits, runId, s, now, key);
    case OpState(limits, now) => ReclaimCounts(l.runs, now, key);
  }

  // ---------------------------------------------------------------- whole histories

  /** Every reservation of the key is made while no reservation of it is live. */
  predicate OneAtATime(l: Ledger, ops: seq<Op>, key: RequestKey) {
    ops == [] ||
    (var before, op := ops[..|ops| - 1], ops[|ops| - 1];
     && OneAtATime(l, before, key)
     && (ReservesKey(op, key) ==> !LiveOpen(Run(l, before).runs, key, op.now)))
  }

  lemma {:induction false} OneAtATimeKeeps(l: Ledger, ops: seq<Op>, key: RequestKey)
    requires OneAtATime(l, ops, key) && Done(l.runs, key) + Open(l.runs, key) <= 1
    ensures var after := Run(l, ops).runs; Done(after, key) + Open(after, key) <= 1
  {
    if ops == [] {
    } else {
      var before, op := ops[..|ops| - 1], ops[|ops| - 1];
      OneAtATimeKeeps(l, before, key);
      var mid := Run(l, before);
      if ReservesKey(op, key) {
        if Apply(mid, op) != mid {
          GrantedReservation(mid, op.limits, key, op.estimate, op.now);
        }
      } else {
        OthersAddNothing(mid, op, key);
      }
    }
  }

  /** Uniqueness: if every reservation of a key is made while no reservation of it is live, then after any
      history, whatever else happened, at most one row of the key is COMPLETED. */
  lemma AtMostOneCompletion(ops: seq<Op>, key: RequestKey)
    requires OneAtATime(EMPTY, ops, key)
    ensures Done(Run(EMPTY, ops).runs, key) <= 1
  {
    OneAtATimeKeeps(EMPTY, ops, key);
  }

  predicate NoneReserves(ops: seq<Op>, key: RequestKey) { forall i :: 0 <= i < |ops| ==> !ReservesKey(ops[i], key) }

  lemma {:induction false} NoGrowth(l: Ledger, ops: seq<Op>, key: RequestKey)
    requires NoneReserves(ops, key)
    ensures var after := Run(l, ops).runs; Done(after, key) + Open(after, key) <= Done(l.runs, key) + Open(l.runs, key)
  {
    if ops == [] {
    } else {
      NoGrowth(l, ops[..|ops| - 1], key);
      OthersAddNothing(Run(l, ops[..|ops| - 1]), ops[|ops| - 1], key);
    }
  }

  /** A manager whose limit covers what is committed. */
  function Covering(l: Ledger): Limits { Limits(Max(1, Committed(l.runs)), 1, 0) }

  /** Any open row can be completed at the amount reserved for it. */
  lemma OneMoreCompletes(l: Ledger, key: RequestKey, usage: Usage, review: Review) returns (op: Op)
    requires Inv(l) && 0 < Open(l.runs, key)
    ensures ValidOp(op) && !ReservesKey(op, key) && Inv(Apply(l, op))
    ensures Done(Apply(l, op).runs, key) == Done(l.runs, key) + 1 && Open(Apply(l, op).runs, key) == Open(l.runs, key) - 1
  {
    var i := OpenRow(l.runs, key);
    var row := l.runs[i];
    assert RowOk(row);
    IdsDistinct(l.runs);
    assert FindRun(l.runs, row.runId) == i;
    var s := Completion(usage, row.reservedCost, "response", review);
    op := OpSettle(Covering(l), row.runId, s, row.createdAt);
    StepKeepsInv(l, op);
    assert Apply(l, op).runs == l.runs[i := SettleRow(row, s, row.createdAt)];
    CountsUpdate(l.runs, i, SettleRow(row, s, row.createdAt), key);
  }

  /** The ledger reached by `more` holds two COMPLETED rows of the key, none of them reserved by `more`. */
  ghost predicate BothComplete(l: Ledger, key: RequestKey, more: seq<Op>) {
    ValidOps(more) && NoneReserves(more, key) && 2 <= Done(Run(l, more).runs, key)
  }

  /** The exact condition: from any state a ledger can be in, some continuation without a new reservation of
      the key leaves two of its rows COMPLETED if and only if two of its rows are open or COMPLETED now. */
  lemma TwoCompletionsExactly(l: Ledger, key: RequestKey, usage: Usage, review: Review)
    requires Inv(l)
    ensures (exists more :: BothComplete(l, key, more)) <==> 2 <= Done(l.runs, key) + Open(l.runs, key)
  {
    if more :| BothComplete(l, key, more) {
      NoGrowth(l, more, key);
    }
    if 2 <= Done(l.runs, key) + Open(l.runs, key) {
      var none: seq<Op> := [];
      Completes(l, key, usage, review, l, none);
    }
  }

  lemma Completes(l: Ledger, key: RequestKey, usage: Usage, review: Review, m: Ledger, done: seq<Op>)
    requires Inv(m) && m == Run(l, done) && ValidOps(done) && NoneReserves(done, key)
    requires 2 <= Done(m.runs, key) + Open(m.runs, key)
    ensures exists more :: BothComplete(l, key, more)
    decreases Open(m.runs, key)
  {
    if 2 <= Done(m.runs, key) {
      assert BothComplete(l, key, done);
    } else {
      var op := OneMoreCompletes(m, key, usage, review);
      assert (done + [op])[..|done|] == done;
      Completes(l, key, usage, review, Apply(m, op), done + [op]);
    }
  }

  /** Hence reuse alone does not make completions unique: after any history, a granted reservation lets two
      rows of its key complete if and only if it was made beside a live one. */
  lemma SecondReservationExactly(ops: seq<Op>, limits: Limits, key: RequestKey, estimate: int, now: Time, usage: Usage, review: Review)
    requires ValidOps(ops) && limits.Valid()
    requires var r := Reserve(Run(EMPTY, ops), limits, key, estimate, now).1; r.Returned? && !r.value.1
    ensures var l := Run(EMPTY, ops); var after := Reserve(l, limits, key, estimate, now).0;
            (exists more :: BothComplete(after, key, more)) <==> LiveOpen(l.runs, key, now)
  {
    var l := Run(EMPTY, ops);
    RunKeepsInv(EMPTY, ops);
    ReserveKeepsInv(l, limits, key, estimate, now);
    GrantedReservation(l, limits, key, estimate, now);
    TwoCompletionsExactly(Reserve(l, limits, key, estimate, now).0, key, usage, review);
  }

  lemma GrantedOn(l: Ledger, limits: Limits, key: RequestKey, estimate: nat, now: Time)
    requires Inv(l) && limits.Valid() && estimate <= limits.perRun && 0 <= limits.ttl
    requires NewestCompleted(l.runs, key).None? && Committed(l.runs) + estimate <= limits.limit
    ensures var (after, r) := Reserve(l, limits, key, estimate, now);
            && r.Returned? && !r.value.1 && LiveOpen(after.runs, key, now) && Inv(after)
            && after.runs == ReclaimRows(l.runs, now) + [r.value.0] && r.value.0.reservedCost == estimate
  {
    ReserveDecided(l, limits, key, estimate, now);
    ReserveKeepsInv(l, limits, key, estimate, now);
    var after := Reserve(l, limits, key, estimate, now).0;
    assert after.runs[|l.runs|].requestKey == key;
  }

  lemma LoneRow(runs: seq<RunRow>, key: RequestKey, now: Time)
    requires |runs| == 1 && RowsOk(runs) && LiveOpen(runs, key, now)
    ensures Committed(runs) == runs[0].reservedCost && NewestCompleted(runs, key).None?
  {
    assert RowOk(runs[0]) && runs[0].status.Reserved?;
    assert runs[..0] == [];
    assert SumReserved(runs) == runs[0].reservedCost && SumSpent(runs) == 0;
  }

  /** A witness at every price: two calls of one agent for one decision, both before the first is answered. */
  lemma TwoRunsOfOneKeyComplete(limits: Limits, key: RequestKey, estimate: nat, now: Time, usage: Usage, review: Review)
    requires limits.Valid() && 0 <= limits.ttl && 0 < estimate <= limits.perRun && 2 * estimate <= limits.limit
    ensures var twice := Reserve(Reserve(EMPTY, limits, key, estimate, now).0, limits, key, estimate, now).0;
            |twice.runs| == 2 && exists more :: BothComplete(twice, key, more)
  {
    GrantedOn(EMPTY, limits, key, estimate, now);
    var one := Reserve(EMPTY, limits, key, estimate, now).0;
    LoneRow(one.runs, key, now);
    GrantedOn(one, limits, key, estimate, now);
    GrantedReservation(one, limits, key, estimate, now);
    TwoCompletionsExactly(Reserve(one, limits, key, estimate, now).0, key, usage, review);
  }
}
