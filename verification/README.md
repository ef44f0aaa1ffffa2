# PromiseGuard: verified model

PromiseGuard watches orders whose delivery promise is at risk, chooses a recovery action, and lets it run only under
approval or earned autonomy. This project models its three cores in Dafny and proves whole-history properties of them.

* **Decision economics.** The simulator's twice-rounded option values, the ranking, the generator's once-rounded ground
  truth and the batched backtest (`Money`, `Simulator`, `Optimizer`, `GroundTruth`, `ValueEvaluation`).
* **Governed execution.** Policy cascade, immutable ledger, approvals, write sagas with injected failures and
  compensation, kill switch, evidence-earned autonomy and verification (`Policy`, `Evaluation`, `Approvals`, `Sandbox`,
  `Saga`, `SagaExact`, `Gateway`, `Autonomy`, `Verification`, `Workflow`). `History` runs any sequence of the public
  operations from a bootstrapped database; `Authority`, `WriteOrigins`, `ApprovalHistory`, `PolicyHistory`,
  `ControlLaws`, `ControlHistory`, `OutcomeLaws`, `Reconciliation`, `Replay`, `Revocation` and `SandboxHistory` prove
  properties of every state such a history reaches.
* **Budget and agent.** The reserve, settle and reclaim ledger with its cached totals, its price table, and the agent
  that asks a model to review a decision (`Cost`, `BudgetLedger`, `BudgetProofs`, `BudgetLifetimes`, `BudgetCompletions`,
  `BudgetManager`, `AgentReview`, `Agent`, `AgentSystem`, `AgentSafety`, `AgentCharges`). The client's answer is an arbitrary value or exception, and anything may
  happen while it is awaited.

Every service is a class whose methods update fields in place and are proved equal to a function from the old state to
the new state and the reply, an exception being a reply. Those functions are what the histories are made of. The write
saga is specified apart from its code: `Saga` is a decision table over how a provider write behaves, and the gateway's
exception handling is proved to follow it. `Frames` collects what each operation leaves alone.

Representation: money is `real` cents where an order may carry any decimal and whole cents once rounded; the budget is
in whole micro-dollars; a digest is the tuple it digests; a table is a sequence in insertion order or a map by primary
key; times are integers.

## Where the code differs from what it promises

The lemmas named give the inputs on which each difference shows and the exact condition under which it does not.

* Autonomy is called automatically revocable (`docs/adr/0003-evidence-bounded-autonomy.md`). An AUTO_EXECUTE decision
  recorded earlier is checked against the kill switch only when it is submitted, so it writes after its profile was
  suspended (`Revocation.RevokedDecisionStillWrites`). A submission stays within the present level if and only if the
  switch is on or the profile still holds bounded autonomy (`Revocation.AutoSubmitExactly`); the level itself was
  earned at recording time (`ControlHistory.AutoExecuteWasEarned`).
* Replay protection does not cover every replay: evaluating an identical request again can raise a ledger conflict. It
  does when, in between, the controls changed and a twin was decided under them, that is another event with the same
  deduplication key and version for the same order (`Replay.ReEvaluationConflicts`, `Replay.ReplayAfterTwin`).
  `Replay.EvaluationReplies` gives the exact condition.
* Reuse does not make completions unique: a reservation granted beside a live one of its key lets both complete
  (`BudgetCompletions.TwoRunsOfOneKeyComplete`), and exactly then (`BudgetCompletions.SecondReservationExactly`).
  Reserved one at a time, a key has at most one COMPLETED run (`BudgetCompletions.AtMostOneCompletion`).
* An accepted answer that arrives after its reservation was reclaimed still submits the decision, while its run stays
  FAILED (`AgentSafety.LateAnswerStillSubmits`); the run is COMPLETED exactly when its row was still RESERVED
  (`AgentSafety.AcceptedAnswerCompletes`).
* An accepted review whose cost puts the committed amount over the agent's limit is stored and its decision submitted,
  but the call ends in the budget's configuration error (`AgentCharges.AnswerTells` says exactly when).
* An approval granted while the kill switch is on is used up without a write, now or later
  (`Revocation.GrantUnderSwitchIsLost`).
* A FAILED reroute may leave its inventory reservation behind; `Saga.LeftoverReservation` says exactly when.
* Compensation writes the order's own current values rather than the values found before the saga;
  `Saga.CompensationRestoresExactly` says exactly when the two agree.
* Disabling the agent has no effect when a client was supplied, and refuses every run otherwise (`Agent.DisabledRun`).
* VERIFIED means that the postcondition holds and a delivery was observed; the delivery need not have been on time
  (`SandboxHistory.RestartRefinement` holds for late deliveries alike).

## Model

| member | source | states |
|---|---|---|
| `Money.HalfUp` | src/promiseguard/simulator.py:17-18 | rounding to cents is to the nearest, and a tie goes away from zero on either side |
| `Money.Round4Close` | src/promiseguard/simulator.py:27 | four-decimal rounding of a probability moves it by at most half a unit of the last place |
| `Simulator.Simulate` | src/promiseguard/simulator.py:26-91 | four options, one per action, no-action first and always feasible, never an escalation |
| `Simulator.OffersAsFeasible` | src/promiseguard/simulator.py:42-91 | a reroute is feasible exactly with an available, named alternative, a split exactly when possible, the upgrade always; an infeasible option names its reason and is worth the sentinel |
| `Simulator.OfferedTerms` | src/promiseguard/simulator.py:26-126 | each option is offered at its order cost to the nearest cent, with the probability of the order's own data, and with the scorer's confidence, lowered to the inventory's where stock is moved |
| `GroundTruth.SimulatedValueIsClose` | src/promiseguard/simulator.py:93-126 | every feasible option's value is within one and a half cents of its exact expectation, one cent when its cost is whole |
| `Optimizer.RankingIsSortedPermutation` | src/promiseguard/optimizer.py:28-52 | the ranking holds exactly the feasible offers, as often as offered, and none is outranked by a later one |
| `Optimizer.RankingIgnoresInputOrder` | src/promiseguard/optimizer.py:28-52 | two orders of the same offers, one per action, are ranked alike |
| `Optimizer.ChoiceOverSimulation` | src/promiseguard/optimizer.py:28-60 | over any simulation the choice succeeds, is a best feasible option, and an intervention gains at least one cent over doing nothing |
| `Optimizer.TiesAndRejections` | src/promiseguard/optimizer.py:28-60 | among equal values no action comes before a reroute, a reroute before a carrier upgrade, that before a split; the rejected list is exactly the infeasible options with their reasons |
| `GroundTruth.OptimalAction` | src/promiseguard/synthetic.py:250-277 | the value table and its maximum give the action that is greatest by value and then by name among the feasible ones |
| `GroundTruth.RankIsAlphabetical` | src/promiseguard/synthetic.py:277 | the tie rule prefers the alphabetically last name: ranks order actions as the first letters of their names do |
| `GroundTruth.ValueGap` | src/promiseguard/value_evaluation.py:168-181 | the twice-rounded value of an option both sides call feasible is close to its once-rounded truth |
| `GroundTruth.RegretBound` | src/promiseguard/value_evaluation.py:100-116 | regret is never negative, at most 4 cents plus the estimation error, 2.5 plus the error on whole-cent costs, and 2 when the no-action probability is exact |
| `GroundTruth.RegretByScorerError` | src/promiseguard/simulator.py:26-47 | a scorer off by at most some error loses at most 2.5 cents plus that error, and half a unit of the fourth decimal for rounding it, times all that is at stake |
| `GroundTruth.TwoCentsAreAttained` | src/promiseguard/simulator.py:94-126 | the two-cent bound is sharp: orders exist on which exactly two cents are lost with exact probabilities |
| `ValueEvaluation.Batches` | src/promiseguard/value_evaluation.py:153-166 | for every size the batches concatenate to the input, all but the last are full, none is empty |
| `ValueEvaluation.Evaluate` | src/promiseguard/value_evaluation.py:74-151 | the batched loop computes the one-pass summary, and raises exactly for no records or an optimum without ground truth |
| `ValueEvaluation.NearestRank` | src/promiseguard/value_evaluation.py:127-131 | the percentile index is in range, at least 95 per cent of regrets are at or below the value, fewer than 95 per cent strictly below |
| `ValueEvaluation.EveryRecordCounted` | src/promiseguard/value_evaluation.py:92-122 | action counts sum to the record count, interventions are the rest, false ones are among them |
| `ValueEvaluation.BacktestRegretBound` | src/promiseguard/value_evaluation.py:127-149 | on a whole-cent backtest whose estimation errors stay below a bound less one and a half cents, the reported mean and 95th-percentile regret are between 0 and that bound |
| `ValueEvaluation.ReportExactly` | src/promiseguard/value_evaluation.py:132-151 | every figure of the report is the count, sum, rate or mean over the records that its name says |
| `Cost.PriceMonotone` | src/promiseguard/openai_cost.py:66-74 | more input or output never costs less, and cached input never costs more than fresh input |
| `Cost.ReservationCoversCost` | src/promiseguard/openai_cost.py:44-74 | for every priced model a usage within the estimate costs at most the estimate, and the charge exceeds the exact price by less than a micro-dollar |
| `Cost.PublishedPrices` | src/promiseguard/openai_cost.py:26-42 | a million fresh, cached or output tokens of each model cost the published dollar amounts |
| `Cost.SnapshotsArePriced` | src/promiseguard/openai_cost.py:33-42 | a dated snapshot of a model costs what the model costs |
| `Cost.EstimateCoversBytes` | src/promiseguard/openai_cost.py:44-64 | the estimate is the least number of tokens that covers the bytes at three to each, and never less than one |
| `BudgetLedger.NewestCompleted` | src/promiseguard/openai_budget.py:82-91 | a completed run of the key is found exactly when there is one, and none is newer |
| `BudgetLedger.FindRun` | src/promiseguard/openai_budget.py:238-241 | finds the row of a run id exactly when there is one |
| `BudgetManager.OpenAIBudgetManager.Create` | src/promiseguard/openai_budget.py:47-62 | construction is refused exactly for a non-positive limit or a per-run cap above the limit |
| `BudgetManager.OpenAIBudgetManager.LockedBudget` | src/promiseguard/openai_budget.py:267-295 | the budget row is created, reconfigured, or refused untouched when the new limit is below what is committed |
| `BudgetManager.OpenAIBudgetManager.ReclaimStale` | src/promiseguard/openai_budget.py:297-319 | the row loop moves every stale reservation, and no other, from reserved to spent in full |
| `BudgetManager.OpenAIBudgetManager.Reserve` | src/promiseguard/openai_budget.py:64-143 | refines the reserve transaction: reuse, per-run cap, ceiling, new attempt, and a refusal that also undoes the reclaim |
| `BudgetManager.OpenAIBudgetManager.Finalise` | src/promiseguard/openai_budget.py:222-265 | refines the settlement transaction, where a row that is no longer open is returned as it is |
| `BudgetManager.OpenAIBudgetManager.Complete` | src/promiseguard/openai_budget.py:145-165 | a completion is the settlement that stores usage, cost, response and review |
| `BudgetManager.OpenAIBudgetManager.Reject` | src/promiseguard/openai_budget.py:167-188 | a rejection is the settlement that stores usage, cost and complaints but no review |
| `BudgetManager.OpenAIBudgetManager.Fail` | src/promiseguard/openai_budget.py:190-208 | a failure is the settlement that charges the given cost without usage |
| `BudgetManager.OpenAIBudgetManager.State` | src/promiseguard/openai_budget.py:215-220 | a budget read locks, reclaims and reports |
| `BudgetProofs.StepKeepsInv` | src/promiseguard/openai_budget.py:64-319 | every operation keeps totals equal to table sums, the ceiling up to one overrun, and gapless attempts |
| `BudgetProofs.BudgetConservation` | src/promiseguard/openai_budget.py:64-143 | after any history, by managers of any limits at any clock values, reserved and spent are the sums over the run table |
| `BudgetProofs.BudgetCeiling` | src/promiseguard/openai_budget.py:97-103 | committed money exceeds the limit by at most the largest single overrun, so not at all when nothing overran |
| `BudgetProofs.FrozenWhenOverCommitted` | src/promiseguard/openai_budget.py:285-295 | while only managers with a limit below the committed amount act, nothing changes, and a reservation, settlement or read raises if and only if it reaches the budget lock |
| `BudgetProofs.ConfigurationErrorExactly` | src/promiseguard/openai_budget.py:285-289 | in any state the configuration error means reaching the lock with a limit below the committed amount, and nothing else |
| `BudgetProofs.ReclaimClampIsIdle` | src/promiseguard/openai_budget.py:306-312 | clamping the reserved total at zero while reclaiming never changes it |
| `BudgetProofs.SettleClampIsIdle` | src/promiseguard/openai_budget.py:244-249 | the reserved total always covers the reservation being settled |
| `BudgetProofs.SettledOnceForAll` | src/promiseguard/openai_budget.py:238-243 | settled rows never change again, and no row is created for a key once one of its rows is COMPLETED |
| `BudgetCompletions.AtMostOneCompletion` | src/promiseguard/openai_budget.py:82-143 | if every reservation of a key is made while none of it is live, at most one run of the key is ever COMPLETED |
| `BudgetCompletions.TwoCompletionsExactly` | src/promiseguard/openai_budget.py:238-265 | from any ledger state, some continuation without a new reservation of the key completes two of its rows if and only if two are open or COMPLETED now |
| `BudgetCompletions.SecondReservationExactly` | src/promiseguard/openai_budget.py:82-143 | after any history, a granted reservation lets two rows of its key complete if and only if it was made beside a live one |
| `BudgetCompletions.TwoRunsOfOneKeyComplete` | src/promiseguard/openai_budget.py:82-143 | for every positive estimate that fits twice, two calls before the first answer may both become COMPLETED |
| `BudgetProofs.LateSettlementChangesNothing` | src/promiseguard/openai_budget.py:242-319 | once a reservation was stale at a reclaiming operation it is charged in full, and no later settlement of it, by any manager after any history, changes a row or a total |
| `BudgetLifetimes.ReservationLives` | src/promiseguard/openai_budget.py:104-143 | a reservation granted at t by a manager of time to live d stays the open row it is under every history whose clocks are at most t + d and that does not settle it |
| `BudgetLifetimes.CompletionInTime` | src/promiseguard/openai_budget.py:145-165 | a completion in that window, by a manager whose limit covers what is committed, stores review, usage and cost, and exchanges the reservation for the cost in the totals |
| `BudgetLifetimes.ChargedAfterExpiry` | src/promiseguard/openai_budget.py:297-319 | the first operation after t + d that reclaims and is not refused charges it in full, for ever |
| `BudgetLifetimes.OpenExactly` | src/promiseguard/openai_budget.py:222-319 | over any history a row stays open, and unaltered, if and only if nothing settled it past the lock and nothing swept the table after its expiry |
| `BudgetLifetimes.SweepsExactly` | src/promiseguard/openai_budget.py:92-103 | which operations reclaim: a read whose limit covers what is committed, or a new reservation within the per-run cap and the ceiling |
| `BudgetLifetimes.VersionIsFingerprint` | src/promiseguard/openai_budget.py:290-318 | the budget version never falls, and while it is the same neither totals nor rows have changed |
| `BudgetProofs.AttemptsAreExactly` | src/promiseguard/openai_budget.py:104-115 | run ids are distinct, and the attempts of a key are exactly 1 to n |
| `BudgetProofs.TotalsAreACache` | src/promiseguard/openai_budget.py:64-319 | a ledger with neither running totals nor clamps holds the same rows and gives the same replies over every history |
| `AgentReview.AllowedIsCited` | src/promiseguard/openai_agent.py:274-303 | the evidence allow-list is exactly what the decision cites in its risk and its options |
| `AgentReview.BuildContext` | src/promiseguard/openai_agent.py:272-356 | the accumulating loops build the context, which depends on the decision alone |
| `AgentReview.ValidateExactly` | src/promiseguard/openai_agent.py:358-400 | no complaint is raised exactly for reviews that copy every authority field, give the required code, and cite only what the decision cites |
| `AgentReview.ContextSuffices` | src/promiseguard/openai_agent.py:272-400 | a review is accepted if and only if it follows the context the model was shown |
| `AgentReview.AcceptedReviewSays` | src/promiseguard/openai_agent.py:305-323 | by disposition, who must look, what comes next and which reason an accepted review gives |
| `Agent.OpenAIAgentService.Check` | src/promiseguard/openai_agent.py:358-400 | complaints accumulate in the source's order |
| `Agent.OpenAIAgentService.AdvanceIfRequested` | src/promiseguard/openai_agent.py:256-270 | the workflow is submitted only when requested and only for a review that says so |
| `Agent.OpenAIAgentService.Run` | src/promiseguard/openai_agent.py:176-254 | refines the run for any client answer: guard, estimate, reserve, reuse, settle, advance, report, with each exception where it is raised |
| `Agent.DisabledRun` | src/promiseguard/openai_agent.py:172-180 | disabling the agent changes nothing when a client was supplied, and otherwise refuses every run without effect |
| `AgentSystem.UndisturbedRun` | src/promiseguard/openai_agent.py:176-254 | a run is its two steps, before and after the client's answer |
| `AgentSystem.AgentsAddNoBehaviour` | src/promiseguard/openai_agent.py:256-270 | the governed world after any history with agents is the world after some history without them |
| `AgentSystem.LedgerIsLedger` | src/promiseguard/openai_agent.py:190-254 | the budget under any history with agents is the budget under some history of its own operations |
| `AgentSafety.StoredReviewsAreValid` | src/promiseguard/openai_budget.py:82-91 | whatever clients answered, every COMPLETED run stores a review that its immutable decision accepts, so the reuse path need not validate again |
| `AgentSafety.AnswerInterference` | src/promiseguard/openai_agent.py:208-254 | an answer leaves the world as it was, or exactly as submission would, the latter if and only if it was requested, allowed by the disposition, accepted, and its settlement not refused |
| `AgentSafety.AcceptedAnswerCompletes` | src/promiseguard/openai_agent.py:241-254 | in every reachable state an accepted answer makes its run COMPLETED if and only if the row was still RESERVED, and leaves a reclaimed row as it was |
| `AgentCharges.AnswerBooksExactly` | src/promiseguard/openai_agent.py:206-248 | in every reachable state a waiting run's row is as reserved, or was charged in full after its expiry; while it is open an exception charges the whole reservation, a response the price of its usage, and only an accepted review is stored |
| `AgentCharges.AnswerInTime` | src/promiseguard/openai_agent.py:190-248 | an answer that arrives while no sweep has read a clock past the reservation's life finds the row open and closes it as it says, so an accepted review is never lost |
| `AgentCharges.AnswerTells` | src/promiseguard/openai_agent.py:206-254 | what the caller is told for each answer, exactly; an accepted run whose cost put the committed amount over the limit is booked and advanced although the call raises |
| `AgentCharges.ReuseTells` | src/promiseguard/openai_agent.py:196-205 | a reused run reserves nothing and answers with a COMPLETED run of the same decision, model, prompt and context, whose review the decision accepts |
| `AgentSafety.LateAnswerStillSubmits` | src/promiseguard/openai_agent.py:241-254 | from any reachable state, an answer accepted after a reclaim submits the decision although its run stays FAILED |
| `AgentSafety.BeginInterference` | src/promiseguard/openai_agent.py:190-206 | a reused review advances the workflow exactly when requested on a decision that may be submitted, and is never missing |
| `AgentSafety.ReviewContentsDoNotMatter` | src/promiseguard/openai_agent.py:228-254 | two accepted answers have the same effect on the governed world |
| `AgentSafety.HardCeiling` | src/promiseguard/openai_agent.py:185-196 | with usage within the estimates, no history of agents, limits, clocks and failures commits or spends more than the stored limit |
| `Sandbox.SimulatedOperationsAdapter.Reserve` | src/promiseguard/adapters/sandbox.py:146-164 | the reservation write, its injected failures before and after, and its key claim |
| `Sandbox.SimulatedOperationsAdapter.Move` | src/promiseguard/adapters/sandbox.py:182-200 | the location write with its failures and claim |
| `Sandbox.SimulatedOperationsAdapter.Upgrade` | src/promiseguard/adapters/sandbox.py:242-260 | the carrier write with its failures and claim |
| `Sandbox.SimulatedOperationsAdapter.Split` | src/promiseguard/adapters/sandbox.py:213-226 | the split write with its failures and claim |
| `Sandbox.SimulatedOperationsAdapter.ClaimKey` | src/promiseguard/adapters/sandbox.py:93-99 | a key is bound to its first operation |
| `Sandbox.SimulatedOperationsAdapter.Postcondition` | src/promiseguard/adapters/sandbox.py:468-478 | the read-only test answers the specification for every action |
| `Sandbox.SimulatedOperationsAdapter.Hydrate` | src/promiseguard/adapters/sandbox.py:480-495 | a durable row is re-applied exactly when its action succeeded |
| `Saga.SagaOutcome` | src/promiseguard/execution.py:130-273 | for any failures and claimed keys, an action on an untouched order succeeds with its postcondition, or restores exactly the state before, or aborts leaving at most a reroute's own reservation; no other order changes |
| `Saga.LeftoverReservation` | src/promiseguard/execution.py:148-174 | an aborted reroute leaves its reservation if and only if the reservation answered with an error after its write, or the location change was rate limited |
| `Saga.CompensationRestoresExactly` | src/promiseguard/execution.py:161-174 | from any state, compensation gives that state back if and only if the order stood at its own values and did not already hold what is undone |
| `Saga.WritesAtMostOnce` | src/promiseguard/execution.py:130-273 | one execution calls each provider write at most once, under its own keys |
| `SagaExact.SagaResultExactly` | src/promiseguard/execution.py:130-273 | from any state an action succeeds, is compensated or aborts, each exactly by the failures injected, the keys claimed and what the order allows |
| `SagaExact.CleanProviderSucceeds` | src/promiseguard/execution.py:130-273 | on a provider that fails nowhere every possible action succeeds with its postcondition |
| `SagaExact.StepsTellStory` | src/promiseguard/execution.py:130-273 | recorded steps are numbered from one, end in a compensation exactly when the action was compensated, and carry the cause exactly then |
| `SagaExact.ErrorsTellFailures` | src/promiseguard/adapters/sandbox.py:93-115 | the error of a saga is the exception of the failure injected at the step that failed, a conflict over its key, or the refusal of an impossible action |
| `SagaExact.ModesAreInjected` | src/promiseguard/adapters/sandbox.py:85-91 | the failures in force are those injected and not cleared |
| `SagaExact.ExecutionIsRight` | src/promiseguard/execution.py:70-104 | the stored row carries the command, the time and the status its saga earned; for a profiled action the call raises exactly when that is FAILED |
| `SagaExact.StoredRowExactly` | src/promiseguard/execution.py:70-104 | over any history a new row is SUCCEEDED, COMPENSATED or FAILED exactly by the failures injected so far |
| `Gateway.ActionGateway.RerouteSteps` | src/promiseguard/execution.py:130-181 | the two-write code with its except branches, ambiguous-write check and compensation follows the decision table |
| `Gateway.ActionGateway.CarrierSteps` | src/promiseguard/execution.py:183-227 | the carrier code follows the decision table |
| `Gateway.ActionGateway.SplitSteps` | src/promiseguard/execution.py:229-273 | the split code follows the decision table |
| `Gateway.ActionGateway.Run` | src/promiseguard/execution.py:51-104 | refines execution: kill switch, replay from the row, one new row brought to its final status, learning, and the exception let through |
| `Autonomy.AutonomyController.Set` | src/promiseguard/autonomy.py:52-69 | only a manager changes the switch, and each change raises its version |
| `Autonomy.AutonomyController.Update` | src/promiseguard/autonomy.py:85-116 | a level is set by a manager only, and bounded autonomy only on the promotion streak |
| `Autonomy.AutonomyController.Record` | src/promiseguard/autonomy.py:158-205 | each evidence id counts once, and a failure under bounded autonomy suspends the profile |
| `ControlLaws.SwitchUpdate` | src/promiseguard/autonomy.py:52-69 | an update is refused exactly for a non-manager or an actor that may not claim the role, and otherwise stores and returns what it says |
| `ControlLaws.SwitchIsLastUpdate` | src/promiseguard/autonomy.py:52-69 | over any history the switch stands where the last permitted update put it |
| `ControlLaws.EmergencyStop` | src/promiseguard/execution.py:59-60 | after a manager turns it on, no continuation without another permitted update adds an action row |
| `ControlLaws.RolesOfActors` | src/promiseguard/identity.py:34-58 | each registered actor may claim its one role only, any other name any role unless identity is strict |
| `ControlLaws.ProfileUpdated` | src/promiseguard/autonomy.py:85-116 | a level is set exactly by a manager, for an executable action, and to bounded autonomy only on twenty verified successes |
| `ControlLaws.LevelsMoveExactly` | src/promiseguard/autonomy.py:85-205 | over any history a level moves only by a granted update, or by a failure, which suspends bounded autonomy at once |
| `Policy.AutoExecuteExactly` | src/promiseguard/policy.py:39-136 | unattended execution is granted if and only if every gate agrees, and is marked as allowed in no other case |
| `Policy.DispositionExactly` | src/promiseguard/policy.py:39-136 | each disposition exactly: BLOCK for context older than 15 minutes, a warning, or the switch in bounded mode; no intervention; approval; unattended only up to 10.00, for a gain of 5.00, at confidence 0.85 |
| `PolicyHistory.EvaluationDecides` | src/promiseguard/orchestrator.py:41-86 | in every reachable state the verdict on a request is the right one for the switch and the profile as they stand |
| `PolicyHistory.NoWriteOnStaleContext` | src/promiseguard/policy.py:51-65 | no action row belongs to a decision made from context older than 15 minutes or from a risk with warnings |
| `PolicyHistory.WritesActOnFreshOrders` | src/promiseguard/policy.py:51-136 | the order a write acts on was fresh, and an unattended write was unrestricted and within the numeric gates |
| `Evaluation.EvaluationService.Run` | src/promiseguard/evaluation.py:19-26 | the event is stored before and independently of the decision pipeline and its ledger write |
| `Evaluation.EvaluationService.ReadControls` | src/promiseguard/autonomy.py:118-128 | the gateway's callbacks read the switch and the selected action's profile |
| `Store.FindEvent` | src/promiseguard/persistence.py:64-70 | an event identity is found exactly when stored |
| `Store.Resolve` | src/promiseguard/persistence.py:95-101 | a stored row of the event id, of its newest version, exactly when there is one |
| `Store.InMemoryDecisionLedger.Record` | src/promiseguard/ledger.py:38-48 | records and fingerprints stay in step, and a decision id keeps its first trace |
| `Approvals.ApprovalService.Request` | src/promiseguard/approval.py:43-77 | one approval per decision and action, with its expiry |
| `Approvals.ApprovalService.UpdateIfPending` | src/promiseguard/persistence.py:206-228 | only a PENDING row is ever overwritten |
| `Approvals.ApprovalService.DecideAs` | src/promiseguard/approval.py:115-166 | role, claimed identity, state, separation of duties and expiry, in that order, before the single transition |
| `ApprovalHistory.RequestExactly` | src/promiseguard/approval.py:43-77 | an executable action gets one record, opened now for one time to live unless it was open before |
| `ApprovalHistory.DecideExactly` | src/promiseguard/approval.py:115-166 | a record changes exactly when it is open and the actor may decide; in time it is signed, later it expires and the call is refused |
| `ApprovalHistory.ApprovalsTellHistory` | src/promiseguard/approval.py:43-166 | over any history each record was opened by the submission it names, expires exactly one time to live later, and was closed, if at all, by the later decision it names |
| `ApprovalHistory.SubmitWithoutRunning` | src/promiseguard/workflow.py:52-83 | in every reachable state, what a submission answers and changes for every verdict that executes nothing |
| `Verification.OutcomeVerificationService.Run` | src/promiseguard/verification.py:50-119 | observation, rebuild, draft, record and learning, with each refusal where it occurs |
| `OutcomeLaws.DeliveriesAreObserved` | src/promiseguard/verification.py:44-60 | the delivery on record is the last one observed in the history |
| `OutcomeLaws.DraftForIsRight` | src/promiseguard/verification.py:66-119 | FAILED exactly for a compensated action or a missing postcondition, manual review exactly without a delivery, VERIFIED otherwise; the realised margin in each case |
| `OutcomeLaws.VerificationExactly` | src/promiseguard/verification.py:50-119 | in every reachable state a first verification stores exactly that outcome, and a manual review teaches nothing |
| `OutcomeLaws.VerifyingAgain` | src/promiseguard/persistence.py:331-362 | a second verification changes no table and answers with the stored outcome if and only if it finds the same |
| `Workflow.RecoveryWorkflowService.SubmitDecision` | src/promiseguard/workflow.py:52-83 | refines submission for every disposition |
| `Workflow.RecoveryWorkflowService.Approve` | src/promiseguard/workflow.py:85-115 | refines approval followed by execution, the approver's authority being checked first |
| `Workflow.RecoveryWorkflowService.RejectApproval` | src/promiseguard/workflow.py:117-128 | refines rejection |
| `Workflow.RecoveryWorkflowService.VerifyDecision` | src/promiseguard/workflow.py:130-153 | refines verification of a decision's action |
| `WriteOrigins.ApproveExactly` | src/promiseguard/workflow.py:85-115 | in every reachable state an approval is granted if and only if it is open, in time, and the actor is another person who may claim the role, an analyst only on an unrestricted order up to 20.00; the row is written then and only then, unless the switch is on |
| `WriteOrigins.RowOrigin` | src/promiseguard/workflow.py:199-245 | every row was written by one step of the history and carries the command of its decision: action, order, key, cost, parameters, names and time |
| `WriteOrigins.TwoPeople` | src/promiseguard/identity.py:61-63 | every approved row was asked for by one actor and granted later, within the time to live, by another in a role that may |
| `WriteOrigins.AnswersShowTables` | src/promiseguard/workflow.py:52-153 | every approval, execution and outcome in an answer is the one the tables hold afterwards |
| `Authority.StepKeeps` | src/promiseguard/workflow.py:52-153 | any operation keeps every row authorised, decisions and rows append-only and approvals final once decided |
| `Authority.AuthorityOfEveryWrite` | src/promiseguard/workflow.py:181-197 | in every reachable state each action row has an AUTO_EXECUTE decision, or an approval given in time by another person in a role that may decide, an analyst only up to 20.00 |
| `Authority.NoWriteUnderKillSwitch` | src/promiseguard/execution.py:59-60 | a row appears only while the switch is off, one at a time, for the decision acted on |
| `Authority.OneActionPerDecision` | src/promiseguard/persistence.py:258-312 | over any continuation at most one row per decision and per key, and finished rows never change |
| `Reconciliation.CrossStoreReconciliation` | src/promiseguard/autonomy.py:130-205 | the counters of every action equal the outcome rows and action rows they stand for, despite replays |
| `Reconciliation.CountersRefineEvidence` | src/promiseguard/autonomy.py:158-205 | counters are counts over the evidence, the streak is its longest all-success suffix, bounded autonomy stands on twenty trailing successes |
| `Reconciliation.ReplayedOutcome` | src/promiseguard/persistence.py:331-362 | recording an outcome again changes no table |
| `ControlHistory.ControlVersionIsFingerprint` | src/promiseguard/autonomy.py:118-123 | two evaluations of a request with the same control version saw the same switch and profile and produced the same trace |
| `ControlHistory.AutoExecuteWasEarned` | src/promiseguard/policy.py:96-129 | every AUTO_EXECUTE decision was recorded while the switch was off and the profile held bounded autonomy on twenty successes |
| `Revocation.AutoSubmitExactly` | src/promiseguard/workflow.py:67-76 | in every reachable state, submitting an AUTO_EXECUTE decision without a row writes if and only if the switch is off; so it respects the present level if and only if the switch is on or the level still holds |
| `Revocation.RevokedDecisionStillWrites` | src/promiseguard/execution.py:59-80 | after any history that holds such a decision, a manager suspends its profile and the submission still writes |
| `Revocation.SpentApprovalNeverRuns` | src/promiseguard/approval.py:115-166 | an approval that left PENDING without its action having run is never used by any later history |
| `Revocation.GrantUnderSwitchIsLost` | src/promiseguard/workflow.py:85-115 | an approval granted while the kill switch is on becomes APPROVED without a row, and no later history executes its decision |
| `Revocation.AnalystNeverOnRestricted` | src/promiseguard/workflow.py:181-197 | in every reachable state no row rests on an analyst's approval for a restricted order |
| `Replay.EvaluationReplies` | src/promiseguard/orchestrator.py:41-86 | when evaluation returns, when it refuses a rebound event, when it conflicts, each exactly; nothing recorded is ever altered and at most one decision is added |
| `Replay.NoTwinNoConflict` | src/promiseguard/orchestrator.py:69-86 | without a stored event sharing key, version, order and mode, no re-evaluation conflicts, whatever the controls did |
| `Replay.TwinsConflict` | src/promiseguard/ledger.py:38-48 | after any history, evaluating the twin of a request that was just decided raises a ledger conflict |
| `Replay.ReplayAfterTwin` | src/promiseguard/orchestrator.py:69-86 | once a twin of a stored request was decided, replaying the request under the same controls conflicts, however long ago it was decided itself |
| `Replay.ReEvaluationConflicts` | src/promiseguard/orchestrator.py:41-86 | for every request: decided, kill switch set, twin decided, and the identical request then conflicts |
| `Replay.ReplayReturnsTheRecord` | src/promiseguard/persistence.py:105-127 | a later replay under an unchanged control version returns the recorded decision and changes nothing |
| `SandboxHistory.EveryWriteAtMostOnce` | src/promiseguard/adapters/sandbox.py:93-99 | over any history all provider write calls carry different keys, each of a recorded action |
| `SandboxHistory.RestartRefinement` | src/promiseguard/verification.py:50-119 | verifying with an emptied sandbox, rebuilt from the row, gives the same reply and the same tables as verifying on the live one, and an outcome so returned is VERIFIED if and only if the action SUCCEEDED |
| `SandboxHistory.VerifiedMeansSucceeded` | src/promiseguard/verification.py:71-119 | every outcome belongs to its decision's action row, and VERIFIED on an order with one action means that it SUCCEEDED |
| `SandboxHistory.ReplayReturnsTheRow` | src/promiseguard/execution.py:61-68 | submitting an executed decision again leaves tables and sandbox as they are and returns the stored row |

## Left out

- SandboxHistory.RestartRefinement: assumes the action is the only one on its order and that all stored versions of an event id carry the same order, because verification reads the newest version and a second action on the order may overwrite what the first left.
- OutcomeLaws.VerificationExactly: assumes one order per event id, and ties the status to the action's success only where the action is the only one on its order; delivery, margin and learning are pinned always.
- PolicyHistory.WritesActOnFreshOrders: assumes one order per event id; `PolicyHistory.NoWriteOnStaleContext` does not.
- SandboxHistory.VerifiedMeansSucceeded: assumes one order per event id, for the same reason.
- SandboxHistory.ReplayReturnsTheRow: assumes one order per event id, so that the command can be rebuilt.
- Saga.SagaOutcome: is about an order no earlier action has touched; from any other state `Saga.CompensationRestoresExactly` applies.
- Revocation.AnalystNeverOnRestricted: assumes one order per event id, because the restriction is read from the newest version.
- Agent.OpenAIAgentService.Run: the client is a parameter, so prompts, HTTP and the SDK adapter are not modelled; the prompt's length is a function of the context.
- AgentSystem.AgentsAddNoBehaviour: settlement, submission and the closing budget read of one run happen in one step; anything may happen between reservation and settlement.
- ValueEvaluation.Evaluate: a batch scorer is taken to score each order as the single scorer does; rates and means are exact rationals, and 0.95 of a count is exact.
- ValueEvaluation.NearestRank: the rank is taken of the exact 0.95, not of its binary approximation.
- GroundTruth.RegretBound: probabilities are rationals, so the conversion of a float through its shortest decimal is the identity.
- AgentReview.ValidateExactly: complaints are named, not worded, and the list of unsupported ids inside one complaint is dropped.
- Money.Round4Close: four-decimal rounding is of the exact value, not of its binary approximation.
- Isolation: every store or manager method is one atomic transaction; interleavings inside a transaction, such as a settlement reading its row before locking the budget, are not modelled.
- A process crash in the middle of an execution, which leaves a row EXECUTING; the code has no step that recovers it.
- Timestamps of control rows, creation timestamps and the separate clock readings inside one operation, merged into one `now`; the order of rows with equal sort keys is insertion order.
- Digest collisions and separators inside the joined identity strings: identities are tuples.
- Fields that no modelled rule reads: event times, schema versions, correlation ids, request metadata, call logs, manual-recovery texts.
- Risk scoring and model training: the scorer is an arbitrary function of the order.
- Random data generation, event anomalies and file formats of the synthetic generator.
- Wire validation of request records: the validators the proofs rely on are `OrderContext.Valid` and the `Usage` type.
- Operator feedback, tenant listings, pending-approval listings, the identity directory beyond role binding and separation of duties.
- The web API, console, command-line tools, migrations, metrics and logging.
