/** openai_budget.py in its own form: a manager object over a shared database whose rows it updates
    in place inside a session, restoring them when an exception leaves the session. */
module BudgetManager {
  import opened Common
  import opened Models
  import opened AgentModels
  import opened BudgetLedger

  class BudgetDatabase {
    var budget: Option<BudgetRow>
    var runs: seq<RunRow>

    constructor ()
      ensures View() == EMPTY
    {
      budget := None;
      runs := [];
    }

    ghost function View(): Ledger reads this { Ledger(budget, runs) }
  }

  /** One more row of the reclaim loop. */
  lemma PrefixReclaim(start: BudgetRow, before: seq<RunRow>, i: nat, now: Time)
    requires i < |before|
    ensures AnyStale(before[..i + 1], now) <==> AnyStale(before[..i], now) || Stale(before[i], now)
    ensures var b := ReclaimTotals(start, before[..i], now);
            ReclaimTotals(start, before[..i + 1], now) ==
            if Stale(before[i], now)
            then b.(reserved := Max(0, b.reserved - before[i].reservedCost), spent := b.spent + before[i].reservedCost) else b
  {
    PrefixSnoc(before, i);
    assert before[..i + 1][..i] == before[..i] && before[..i + 1][i] == before[i];
    assert forall j :: 0 <= j < i ==> before[..i + 1][j] == before[..i][j];
  }

  class OpenAIBudgetManager {
    const database: BudgetDatabase
    const limits: Limits

    constructor (database: BudgetDatabase, limits: Limits)
      requires limits.Valid()
      ensures this.database == database && this.limits == limits
    {
      this.database := database;
      this.limits := limits;
    }

    /** The guarded construction: non-positive limits and a per-run cap above the limit are refused. */
    static method Create(database: BudgetDatabase, limits: Limits) returns (reply: Reply<OpenAIBudgetManager>)
      ensures reply.Returned? <==> limits.Valid()
      ensures reply.Returned? ==> fresh(reply.value) && reply.value.database == database && reply.value.limits == limits
      ensures reply.Raised? ==> reply.error == ValueError
    {
      if limits.limit <= 0 || limits.perRun <= 0 {
        return Raised(ValueError);
      }
      if limits.limit < limits.perRun {
        return Raised(ValueError);
      }
      var manager := new OpenAIBudgetManager(database, limits);
      return Returned(manager);
    }

    method LockedBudget(now: Time) returns (reply: Reply<()>)
      modifies database`budget
      ensures match BudgetLedger.LockedBudget(old(database.budget), limits, now)
              case Raised(e) => reply == Raised(e) && database.budget == old(database.budget)
              case Returned(b) => reply == Returned(()) && database.budget == Some(b)
    {
      if database.budget.None? {
        database.budget := Some(BudgetRow(limits.limit, 0, 0, now, 1));
        return Returned(());
      }
      var row := database.budget.value;
      var committed := row.spent + row.reserved;
      if limits.limit < committed {
        return Raised(OpenAIBudgetConfigurationError);
      }
      if row.limit != limits.limit {
        database.budget := Some(row.(limit := limits.limit, updatedAt := now, version := row.version + 1));
      }
      return Returned(());
    }

    /** The body of the reclaim loop: one expired reservation becomes a full charge. */
    method ChargeInFull(i: nat, now: Time)
      requires database.budget.Some? && i < |database.runs| && Stale(database.runs[i], now)
      modifies database
      ensures database.runs == old(database.runs)[i := ReclaimRow(old(database.runs)[i], now)]
      ensures var b, reserved := old(database.budget).value, old(database.runs)[i].reservedCost;
              database.budget == Some(b.(reserved := Max(0, b.reserved - reserved), spent := b.spent + reserved))
    {
      var row := database.runs[i];
      var reserved := row.reservedCost;
      var budget := database.budget.value;
      database.budget := Some(budget.(reserved := Max(0, budget.reserved - reserved), spent := budget.spent + reserved));
      database.runs := database.runs[i := row.(
        status := FailedRun, actualCost := reserved,
        errorCode := Some(StaleReservationCharged), completedAt := Some(now))];
    }

    /** Charge every expired reservation in full, one row at a time. */
    method ReclaimEach(now: Time) returns (any: bool)
      requires database.budget.Some?
      modifies database
      ensures database.budget == Some(ReclaimTotals(old(database.budget).value, old(database.runs), now))
      ensures database.runs == ReclaimRows(old(database.runs), now)
      ensures any <==> AnyStale(old(database.runs), now)
    {
      ghost var before := database.runs;
      ghost var start := database.budget.value;
      any := false;
      for i := 0 to |database.runs|
        invariant |database.runs| == |before|
        invariant database.budget == Some(ReclaimTotals(start, before[..i], now))
        invariant forall j :: 0 <= j < |before| ==> database.runs[j] == if j < i then ReclaimRow(before[j], now) else before[j]
        invariant any <==> AnyStale(before[..i], now)
      {
        PrefixReclaim(start, before, i, now);
        if Stale(database.runs[i], now) {
          ChargeInFull(i, now);
          any := true;
        }
      }
      WholePrefix(before);
      assert database.runs == ReclaimRows(before, now);
    }

    /** Reclaim, and note it on the budget row when any row was charged. */
    method ReclaimStale(now: Time)
      requires database.budget.Some?
      modifies database
      ensures database.budget == Some(ReclaimBudget(old(database.budget).value, old(database.runs), now))
      ensures database.runs == ReclaimRows(old(database.runs), now)
    {
      var any := ReclaimEach(now);
      if any {
        var budget := database.budget.value;
        database.budget := Some(budget.(updatedAt := now, version := budget.version + 1));
      }
    }

    method Reserve(key: RequestKey, estimate: int, now: Time) returns (reply: Reply<(RunRow, bool)>)
      modifies database
      ensures (database.View(), reply) == BudgetLedger.Reserve(old(database.View()), limits, key, estimate, now)
    {
      var savedBudget, savedRuns := database.budget, database.runs;
      var existing := NewestCompleted(database.runs, key);
      if existing.Some? {
        return Returned((existing.value, true));
      }
      if limits.perRun < estimate {
        return Raised(OpenAIPerRunLimitError);
      }
      var locked := LockedBudget(now);
      if locked.Raised? {
        database.budget, database.runs := savedBudget, savedRuns;
        return Raised(locked.error);
      }
      ReclaimStale(now);
      var budget := database.budget.value;
      var committed := budget.spent + budget.reserved;
      if budget.limit < committed + estimate {
        database.budget, database.runs := savedBudget, savedRuns;
        return Raised(OpenAIBudgetExceededError);
      }
      var attempt := CountKey(database.runs, key) + 1;
      var row := RunRow(RunId(key, attempt), key, Reserved, estimate, 0, None, None, None, now, None,
                        now + limits.ttl, None, []);
      database.runs := database.runs + [row];
      database.budget := Some(budget.(reserved := budget.reserved + estimate, updatedAt := now, version := budget.version + 1));
      if estimate < 0 {
        // the record's validators refuse a negative reservation, inside the session
        database.budget, database.runs := savedBudget, savedRuns;
        return Raised(ValidationError);
      }
      return Returned((row, false));
    }

    method Finalise(runId: RunId, s: Settlement, now: Time) returns (reply: Reply<RunRow>)
      modifies database
      ensures (database.View(), reply) == BudgetLedger.Finalise(old(database.View()), limits, runId, s, now)
    {
      if s.actualCost < 0 {
        return Raised(ValueError);
      }
      var i := FindRun(database.runs, runId);
      if i < 0 {
        return Raised(OpenAIRunNotFoundError);
      }
      var row := database.runs[i];
      if !row.status.Reserved? {
        return Returned(row);
      }
      var locked := LockedBudget(now);
      if locked.Raised? {
        return Raised(locked.error);
      }
      var budget := database.budget.value;
      budget := budget.(reserved := Max(0, budget.reserved - row.reservedCost));
      budget := budget.(spent := budget.spent + s.actualCost);
      database.budget := Some(budget.(updatedAt := now, version := budget.version + 1));
      row := row.(status := s.status, actualCost := s.actualCost, responseId := s.responseId, review := s.review,
                  completedAt := Some(now), errorCode := s.errorCode, validationErrors := s.validationErrors);
      if s.usage.Some? {
        row := row.(usage := s.usage);
      }
      database.runs := database.runs[i := row];
      return Returned(row);
    }

    method Complete(runId: RunId, usage: Usage, cost: int, responseId: string, review: Review, now: Time)
      returns (reply: Reply<RunRow>)
      modifies database
      ensures (database.View(), reply)
           == BudgetLedger.Finalise(old(database.View()), limits, runId, Completion(usage, cost, responseId, review), now)
    {
      reply := Finalise(runId, Settlement(Completed, Some(usage), cost, Some(responseId), Some(review), None, []), now);
    }

    method Reject(runId: RunId, usage: Usage, cost: int, responseId: string, code: RunErrorCode, errors: seq<Complaint>, now: Time)
      returns (reply: Reply<RunRow>)
      modifies database
      ensures (database.View(), reply)
           == BudgetLedger.Finalise(old(database.View()), limits, runId, Rejection(usage, cost, responseId, code, errors), now)
    {
      reply := Finalise(runId, Settlement(Rejected, Some(usage), cost, Some(responseId), None, Some(code), errors), now);
    }

    method Fail(runId: RunId, code: RunErrorCode, cost: int, now: Time) returns (reply: Reply<RunRow>)
      modifies database
      ensures (database.View(), reply) == BudgetLedger.Finalise(old(database.View()), limits, runId, Failure(code, cost), now)
    {
      reply := Finalise(runId, Settlement(FailedRun, None, cost, None, None, Some(code), []), now);
    }

    method State(now: Time) returns (reply: Reply<BudgetState>)
      modifies database
      ensures (database.View(), reply) == BudgetLedger.State(old(database.View()), limits, now)
    {
      var locked := LockedBudget(now);
      if locked.Raised? {
        return Raised(locked.error);
      }
      ReclaimStale(now);
      var b := database.budget.value;
      return Returned(BudgetState(b.limit, b.reserved, b.spent, Max(0, b.limit - b.spent - b.reserved), b.updatedAt, b.version));
    }
  }
}
