# Verified model of the durable action-execution core

A Dafny model of the decision-intelligence core: the budget ledger, the durable
executor with its approvals, retries and reconciliation, the plan orchestrator,
dependency graphs and replanning, and three separable cores (the authority
algebra, the prompt-evidence selector and the agent-metadata validator).
`dafny verify dfyconfig.toml` checks everything.

## How the system is modelled

**Concurrency and crashes.** The only atomic database operations are the
version-guarded UPDATE and the unique INSERT. `Ledger` and `Protocol` are state
machines whose steps are single repository calls. Any number of workers take
steps in any order, and a crash between two steps loses all a worker knew. The
`Protocol` machine embeds the ledger machine, so a retry, a denied budget and a
lost back-out can meet in one run. A run is a list of steps. Theorems are about
every run.

**Loops and updates in place.** Where the code works by changing things step by
step, the model is a class: `BudgetStore` (the compare-and-swap loop),
`RowStore` (the upsert loop and the retry authorization), `Reconcile` and
`CrashRecovery` (reconciliation and the executor's writes), `Replan` (the
writes of `apply_replan`), `Orchestrator` (the dispatch loop), `CycleDetection`
(both depth-first searches), `Evidence` (the selector) and `Metadata` (the
shared budget cell). Each method is proved against what it is for, or against a
function of the old state about which the properties are proved. `BudgetStore`
runs with arbitrary other callers between its repository calls and is proved to
be a run of the `Ledger` machine.

**Values.** Hashes are ideal: equal exactly for equal payloads. Times are
integers, money is real, ids are numbers in the order of the original's strings;
where the length of a text matters, an id has a name. One plan hash,
`PlanHash.ComputePlanHash`, serves every module. Adapters are an effect map, a
verdict and a counter. The tool registry is fixed over a run.

| module | what it models |
|---|---|
| `Domain` | statuses, both transition tables, happy-path ranks |
| `Ledger`, `BudgetStore` | the budget accounts and the event ledger |
| `Permission`, `Approval`, `Recovery` | permission verdicts, approvals, recovery policy |
| `Eligibility` | which actions may be dispatched |
| `Protocol`, `ProtocolSafety`, `ProtocolSteps`, `ProtocolTheorems` | the execution protocol, its invariant, the proof that every step keeps it, what follows |
| `ProtocolStructure`, `ProtocolGuard` | the plan hash and the mutation guard over runs and replans |
| `ProtocolOrder`, `ProtocolHops` | dependency order and status changes over sequential histories |
| `ProtocolOverlap` | status changes of workers that overlap |
| `ProtocolDispatch`, `ProtocolReturns` | the protocol's dispatch against the dispatch model of `Orchestrator`, in terms of what the dispatch hears: cut off anywhere, and run to its end |
| `ProtocolRecovery`, `ProtocolTermination` | what a retry rests on and what an undisturbed writer stores; every worker returns |
| `RowStore`, `Lease` | one action row and its competing writers; the orchestration lease |
| `Reconcile`, `CrashRecovery` | reconciliation and the executor's crash points |
| `Graph`, `CycleDetection`, `Replan` | dependency graphs, cycle detection, replanning |
| `PlanHash` | the plan hash, persistence and the mutation guard |
| `PlanStatuses`, `Orchestrator` | plan status, reports, the dispatch loop |
| `Authority`, `Evidence`, `Metadata` | the three separable cores |

## What the code does that its documentation does not say

- A caller can be told "denied" while the ledger records its key as applied
  (`Ledger.RacingDenial` reaches such a state). This happens exactly when another
  caller of the same key was granted it (`Ledger.DenialContradictsLedgerIff`).
- For inputs that JSON carries unchanged, the mutation guard refuses a plan nobody
  has touched exactly when some expected result is longer than 4000 characters.
  The hash is computed from the full text and the row keeps a truncated one
  (`PlanHash.GuardOnUntouchedPlan`, `PlanHash.LongExpectationTripsGuard`).
- An executor that dies between storing its result and leaving EXECUTING, or
  between storing its verification and leaving VERIFYING, leaves an action that
  reconciliation never completes: the next status is two hops away
  (`CrashRecovery.RecoveredIff`).
- A run stops with PLAN_COMPLETED exactly when every action, superseded or not, is
  COMPLETED or CANCELLED and the step limit has not ended it first. Stop reason and
  stored status therefore disagree on completion in three ways, and the exact
  condition is part of `Orchestrator.Run.RunPlanUntilBlocked`. A run that finishes
  a replanned plan stops with ACTION_FAILED although the plan is COMPLETED, because
  superseded actions count towards the stop reason but not towards the status
  (`PlanStatuses.ReplannedPlanMisreported`). A run whose actions are all closed stops
  with PLAN_COMPLETED although one of them is CANCELLED and the plan FAILED or
  PARTIALLY_COMPLETED, or although every one is superseded
  (`PlanStatuses.CancelledPlanMisreported`). And a run whose limit is just the
  number of its dispatches completes the plan and stops with
  ORCHESTRATION_LIMIT_REACHED (`Orchestrator.LimitedRunMisreported`); the limit ends a
  run exactly when it is below the iterations the run would take without one, and the
  last of those dispatches nothing (`Orchestrator.LimitReachedIff`).
- A READY action left at PLANNED or APPROVED, or at PERMISSION_CHECKED with its
  execution key taken, is handed back unchanged by every dispatch
  (`Orchestrator.DispatchProgressesIff`).
- Over sequential histories, which the lease is for, two stored status changes are
  outside the transition table: a denied budget writes FAILED over
  WAITING_FOR_APPROVAL, and a failed verification writes FAILED over VERIFYING,
  because VERIFICATION_FAILED exists in memory only. There is no third
  (`Orchestrator.HopsLegalIff`, `ProtocolHops.SequentialHistoriesHop`).
- Where runs overlap, the guard of the upsert is all there is: apart from authorized
  retries an open status changes to anything it does not outrank, and to nothing
  else (`ProtocolOverlap.OverlappingStores`, `ProtocolOverlap.UndisturbedUpsertStores`).
  So the loser of a race for one approval writes CANCELLED over the winner's
  VERIFYING, with the effect made (`ProtocolOverlap.LoserCancels`).
- A replan raises exactly when its replacement's inputs are too long to store, or a
  dependency list of the plan, the replacement's included, is too long to read back.
  In the second case the supersede mark has been written and stays, nobody is rewired,
  the proposal stays as it was, and the plan cannot be loaded any more
  (`Replan.RaisesIff`, `Replan.CutReplacementRaises`).
- The orchestration lease is released by owner name, and runs share the default
  name. A run that outlived its lease releases its successor's, so the lease
  excludes exactly when names are distinct (`Lease.ExclusionIff`).
- `failure_policy` is part of the plan hash and of nothing else.

## Model

| member | source | states |
|---|---|---|
| Domain.CompletedRunWasGatedAndVerified | app/decision_intelligence/action_state_machine.py:20-78 | a legal run to COMPLETED went through a gate, execution and verification, back to back |
| Domain.OutranksMeans | app/decision_intelligence/durable_action_executor.py:118-172 | which stored status an upsert leaves alone, spelled out: one that has ended, or one further along the happy path unless the write ends the action |
| Ledger.BudgetConserved | app/decision_intelligence/budget.py:134-208 | over every interleaving and crash, the counter is the applied events plus in-flight plus leaked charges; it never passes the limit, and with amounts >= 0 neither do the applied events |
| Ledger.OutcomeIsRecorded | app/decision_intelligence/budget.py:134-206 | in every reachable state a grant has its own applied event for the full amount, a replay repeats the recorded verdict, a denial left a record |
| Ledger.VerdictsDeserved | app/decision_intelligence/budget.py:158-206 | over every run a denied caller once read its account with `consumed + amount` above the limit, and a granted one with it within the limit |
| Ledger.UndisturbedDecides | app/decision_intelligence/budget.py:112-206 | a caller nobody disturbs is granted, and the counter raised by exactly its amount, if `consumed + amount` is within the limit, and denied with nothing charged if not; an earlier verdict is replayed, and no account without a default limit is unlimited |
| Ledger.DenialContradictsLedgerIff | app/decision_intelligence/budget.py:161-170 | over every run a refused caller finds its key applied exactly when another caller of that key was granted it; a caller that shares its key with nobody is never contradicted |
| Ledger.AppliedIffGranted | app/decision_intelligence/budget.py:174-206 | in every reachable state a key is applied exactly when some caller was granted it |
| Ledger.RacingDenial | app/decision_intelligence/budget.py:158-183 | a reachable state in which a caller was denied although its key is applied |
| Ledger.CallerTerminates | app/decision_intelligence/budget.py:158-208 | every own step brings a live caller closer to returning or raising, whatever the others did |
| Ledger.LostCharge | app/decision_intelligence/budget.py:158-208 | a charge that comes too late changes nothing and is tried again on the account as it now is, five times in all |
| Ledger.StepKeepsInv | app/decision_intelligence/budget.py:134-208 | every step of anybody keeps uniqueness of keys, limits, what each caller knows, and conservation |
| Ledger.StepGrows | app/database/repositories.py:781-815 | limits never move, a version identifies a row, the ledger only grows and its keys stay unique |
| BudgetStore.Store.ReserveAndConsume | app/decision_intelligence/budget.py:112-208 | the imperative code, with other callers between any two of its repository calls, is a run of the ledger machine that ends with the outcome it returns; the outcome rests on a read that warrants it, and a call nobody disturbs decides as it should |
| BudgetStore.Store.Spend | app/decision_intelligence/budget.py:158-208 | the bounded loop ends in an outcome or, after five lost races, in the concurrency error |
| BudgetStore.Store.UpdateIfVersionMatches | app/database/repositories.py:781-800 | the conditional UPDATE changes the row exactly when the version matches |
| BudgetStore.Store.Claim | app/database/repositories.py:802-815 | the unique INSERT succeeds exactly when the key is new |
| BudgetStore.Store.Ensure | app/decision_intelligence/budget.py:82-95 | get-or-create never changes an existing account |
| Permission.ProposedLevelsAreIgnored | app/decision_intelligence/permission_engine.py:195-338 | proposed levels never change outcome, level, risk or the approval demand |
| Permission.OutcomeCharacterised | app/decision_intelligence/permission_engine.py:195-338 | each outcome by exactly what brings it about; the verdict is at or above the floors of type and tool |
| Permission.OutcomeByType | app/decision_intelligence/permission_engine.py:147-338 | the outcome by action type: external and financial actions never without an approval, installing, privileged and unknown ones always blocked, internal work always allowed, reading and creating by the tool's level |
| Permission.ReasonsWithTool | app/decision_intelligence/permission_engine.py:240-338 | each reason of a verdict that rests on a tool: the outcome's own, what the proposal understated, a high risk |
| Permission.ReasonsByCause | app/decision_intelligence/permission_engine.py:195-338 | a refusal names exactly what is missing: the tool's name, the tool, its being enabled, its support for the type |
| Approval.ValidIffConsumable | app/decision_intelligence/approval_engine.py:430-473 | the in-memory validity check agrees with the WHERE clause of the durable consumption |
| Approval.CreateIff | app/decision_intelligence/approval_engine.py:262-321 | a request is created exactly for an authoritative permission-checked action whose verdict demands one, names that action and payload, and always expires |
| Approval.DecideIff | app/decision_intelligence/approval_engine.py:324-352 | who may decide a pending request: anybody named reject or cancel it, anybody but the requester approve it; each decision ends in its own status |
| Approval.ConsumeByCause | app/decision_intelligence/approval_engine.py:430-596 | consumption fails for the first reason there is, in the order of the checks, and otherwise only marks the request consumed |
| Approval.ExpireIff | app/decision_intelligence/approval_engine.py:355-377 | a request lapses exactly while it is pending and from its expiry on |
| Approval.SingleUse | app/decision_intelligence/approval_engine.py:324-596 | over every history an approval serves at most one use, is consumed exactly when used, stays bound to its payload, and was given by another than the requester |
| Approval.FinalizeIff | app/decision_intelligence/approval_engine.py:551-565 | exactly which actions, by status, a rejection ends as REJECTED and a cancellation or expiry as CANCELLED, and only by their own request |
| Recovery.DecisionByCause | app/decision_intelligence/recovery_policy.py:73-183 | each decision but RETRY by exactly its cause: category, side effect, retries left, approval |
| Recovery.RetriesOverHistory | app/decision_intelligence/recovery_policy.py:73-183 | over every history of failures an approval-gated action is never retried; any other once for each leading transitory failure, up to the retries it has left |
| Eligibility.ReadyIff | app/decision_intelligence/action_eligibility.py:43-82 | READY exactly for actions neither started nor ended whose dependencies are all COMPLETED |
| Eligibility.ScanReadyIff | app/decision_intelligence/action_eligibility.py:68-82 | the scan that stops at the first obstacle finds none exactly when all dependencies are COMPLETED |
| Eligibility.FirstObstacleDecides | app/decision_intelligence/action_eligibility.py:68-80 | the first dependency that is not COMPLETED decides, by its status, whatever comes after it |
| ProtocolSteps.StepKeepsInv | app/decision_intelligence/durable_action_executor.py:250-506 | every step of every worker keeps the safety invariant and touches nobody else's position |
| ProtocolSteps.RunsKeepInv | app/decision_intelligence/action_plan_orchestrator.py:463-584 | so does every run |
| ProtocolSteps.GatePassedIff | app/decision_intelligence/durable_action_executor.py:298-332 | what passing the executor's gate takes, exactly: where the authoritative verdict asks for an approval, one that could be consumed for this action and payload now; where it neither asks nor blocks, a permission-checked action; everything else fails durably |
| ProtocolSteps.ConsumesApproval | app/database/repositories.py:393-430 | the winner of the single-use UPDATE holds an unexpired approval of this action and payload that no call has used |
| ProtocolSteps.UpsertPutStep | app/decision_intelligence/durable_action_executor.py:170-196 | the guarded write of an upsert keeps the invariant under any interference |
| ProtocolSteps.ClaimsAttempt | app/decision_intelligence/durable_action_executor.py:366-400 | the winner of the idempotency claim holds an attempt no call has used |
| ProtocolTheorems.AtMostOncePerKey | app/decision_intelligence/durable_action_executor.py:366-428 | in every reachable state no two adapter calls share an idempotency key |
| ProtocolTheorems.ExecutionsBounded | app/decision_intelligence/durable_action_executor.py:366-428 | an action's adapter runs at most max_retries + 1 times, and at most once if the action needs approval |
| ProtocolTheorems.GateKeysDistinct | app/decision_intelligence/action_plan_orchestrator.py:411-435 | no two adapter calls share a passage of the budget gate |
| ProtocolTheorems.CallsWithinAttemptsBudget | app/decision_intelligence/action_plan_orchestrator.py:386-435 | with the attempts account open beforehand, adapter calls over all runs never exceed its limit |
| ProtocolTheorems.CallsWithinCostBudget | app/decision_intelligence/action_plan_orchestrator.py:425-435 | likewise the estimated costs of all adapter calls together |
| ProtocolTheorems.InjectionBounds | app/decision_intelligence/action_plan_orchestrator.py:386-435 | requests that map injectively to applied events cannot sum to more than the events |
| ProtocolTheorems.ApprovedBeforeEffect | app/decision_intelligence/approval_engine.py:324-548 | every external or financial call used its own consumed, unexpired approval of this action and payload by another than the requester; blocked and ADMIN actions never reach an adapter |
| ProtocolTheorems.StepProgresses | app/decision_intelligence/durable_action_executor.py:118-200 | each step leaves a row alone or takes it one version further, never back except by an authorized retry, never over a terminal status, retry count within bound |
| ProtocolTheorems.TerminalForEver | app/decision_intelligence/durable_action_executor.py:118-200 | over every run COMPLETED, REJECTED, CANCELLED and BLOCKED stay, and versions never fall |
| ProtocolTheorems.GatedFailureIsFinal | app/decision_intelligence/recovery_policy.py:73-183 | over every run a failed action that needs approval stays FAILED: it is never retried |
| ProtocolTheorems.RetriedIsUngated | app/decision_intelligence/retry_controller.py:107-142 | whenever a retry resets a row, the action needs no approval |
| ProtocolRecovery.ResetIsExcused | app/decision_intelligence/retry_controller.py:107-142 | over every run a retry resets a row only after its worker classified a failure of that action as transient and without a side effect, with a retry left and no approval needed |
| ProtocolRecovery.RetriesAreExcused | app/decision_intelligence/recovery_policy.py:73-183 | so is every worker on its way to a retry, in every interleaving |
| ProtocolRecovery.DecisionIsStored | app/decision_intelligence/approval_engine.py:324-352 | a decision is stored under its request in the status it decides, and nothing else changes |
| ProtocolRecovery.ExpiryIsStored | app/decision_intelligence/action_plan_orchestrator.py:537-546 | an expiry a dispatch comes upon is stored under its request |
| ProtocolRecovery.RequestIsStored | app/decision_intelligence/approval_engine.py:262-308 | a created request is stored as pending under its own id, bound to action and payload, and the action in hand is linked to it |
| ProtocolRecovery.FailureIsHandled | app/decision_intelligence/action_plan_orchestrator.py:918-949 | after its last write a dispatch goes on to the recovery policy exactly with a failure |
| ProtocolRecovery.InterruptionIff | app/decision_intelligence/action_plan_orchestrator.py:863-897 | an interruption is taken up exactly where a loadable row says EXECUTING, and nothing is written for it |
| ProtocolRecovery.UndisturbedRetry | app/decision_intelligence/retry_controller.py:107-142 | a retry nobody disturbs resets its row exactly from FAILED, EXECUTING or APPROVED with a retry left |
| ProtocolRecovery.UndisturbedReconciliation | app/decision_intelligence/reconciliation.py:307-326 | a reconciliation nobody disturbs takes each status under way to the next and changes nothing else |
| ProtocolRecovery.UndisturbedPatch | app/decision_intelligence/replan.py:369-389 | a replan's mark names the replacement, its rewiring puts the replacement where the failed action stood, and nothing else changes |
| ProtocolRecovery.UndisturbedRefreezing | app/decision_intelligence/replan.py:391-400 | a re-freezing nobody disturbs leaves the guard silent and writes the plan only where the hash had changed |
| ProtocolRecovery.EntersIff | app/decision_intelligence/durable_action_executor.py:286-295 | the executor goes to work exactly on an action COMPLETED neither in memory nor in the database |
| ProtocolTermination.WorkersReturn | app/decision_intelligence/durable_action_executor.py:142-506 | in every interleaving, what a worker has begun ends after at most 280 of its own moves, lost races included |
| ProtocolTermination.OwnStepFalls | app/decision_intelligence/durable_action_executor.py:142-506 | every own step of a worker that moves it brings it nearer its return |
| ProtocolTermination.LostWrite | app/decision_intelligence/durable_action_executor.py:142-200 | a write that comes too late is tried again from a fresh read until the fifth, and stores nothing |
| ProtocolTheorems.OnlyWritersWrite | app/decision_intelligence/action_plan_orchestrator.py:463-584 | which steps write action rows, and that only the adapter step calls adapters |
| ProtocolStructure.RunsKeepStructure | app/decision_intelligence/action_plan_persistence.py:31-79 | although every upsert rewrites payload and dependencies from memory, no run without a replan changes the plan hash, in any interleaving |
| ProtocolStructure.StepFaithful | app/decision_intelligence/durable_action_executor.py:170-196 | what each worker remembers of an action's dependencies is what its row says |
| ProtocolGuard.GuardFiresOnlyMidReplan | app/decision_intelligence/action_plan_orchestrator.py:790-793 | over every sequential history of a plan frozen as persisted, with lists that fit, the guard is silent unless a replan has been left without its re-freezing |
| ProtocolGuard.RunsKeepGuard | app/decision_intelligence/action_plan_orchestrator.py:790-793 | however workers interleave, without a replan the guard says after a run what it said before |
| ProtocolGuard.GuardOverALife | app/decision_intelligence/action_plan_persistence.py:137-172 | persist a plan and let it live: silent outside unfinished replans if expected results fit, and firing after every run until re-frozen if one does not |
| ProtocolGuard.OneHash | app/decision_intelligence/action_plan_persistence.py:60-79 | the hash of the protocol's rows is `compute_plan_hash` of the plan they hold |
| ProtocolHops.SequentialHistoriesHop | app/decision_intelligence/action_state_machine.py:20-78 | over every sequential history each stored status change is a legal hop, an authorized retry, FAILED over WAITING_FOR_APPROVAL or FAILED over VERIFYING |
| ProtocolHops.FailedVerificationIsStored | app/decision_intelligence/durable_action_executor.py:475-492 | a failed verification stores FAILED where VERIFYING stood |
| ProtocolOverlap.OverlappingStores | app/decision_intelligence/durable_action_executor.py:157-196 | in every interleaving a changed status is an authorized retry's, or one the stored status does not outrank and that is neither PLANNED, VALIDATED nor VERIFICATION_FAILED |
| ProtocolOverlap.UndisturbedUpsertStores | app/decision_intelligence/durable_action_executor.py:157-196 | an upsert that nobody disturbs stores its target exactly where the stored status does not outrank it, hop or not |
| ProtocolOverlap.LoserCancels | app/decision_intelligence/durable_action_executor.py:320-323 | the loser of a race for one approval stores CANCELLED where the winner's VERIFYING stood, which is no hop |
| ProtocolReturns.DispatchRefines | app/decision_intelligence/action_plan_orchestrator.py:463-584 | in every sequential history, what a dispatch stores of its action's status, cut off anywhere by a crash or a raise, is a beginning of `Orchestrator.Hops` for an environment that answers just as the dispatch has heard |
| ProtocolReturns.DispatchReturns | app/decision_intelligence/action_plan_orchestrator.py:463-584 | a dispatch that neither crashes nor raises has stored, when it returns, all of `Orchestrator.Hops` for the execution keys claimed when it began and the environment it met: its adapter's two verdicts, the approval it found, the budget's and the gates' answers |
| ProtocolReturns.CalledIsJudged | app/decision_intelligence/durable_action_executor.py:444-504 | an action whose adapter a dispatch has called is COMPLETED when the dispatch returns exactly if the call succeeded and the verification passed, and FAILED otherwise |
| ProtocolReturns.VerdictsAreTheSteps | app/decision_intelligence/durable_action_executor.py:428-475 | what a dispatch has heard of its adapter is what its own call and verification steps said |
| ProtocolReturns.CallEnds | app/decision_intelligence/durable_action_executor.py:444-472 | the call's verdict decides which status is stored next |
| ProtocolReturns.VerifyEnds | app/decision_intelligence/durable_action_executor.py:475-492 | and so does the verification's |
| ProtocolReturns.ClaimEnds | app/decision_intelligence/durable_action_executor.py:366-400 | a dispatch goes on to its adapter exactly under a key that nobody held when it began, and is otherwise over where it stands |
| ProtocolOrder.DependencyOrder | app/decision_intelligence/action_plan_orchestrator.py:852-951 | over every sequential history, an action that left VALIDATED or was ever called has everything upstream COMPLETED, and calls extend the dependency order |
| ProtocolOrder.StepOrdered | app/decision_intelligence/action_plan_orchestrator.py:852-951 | each dispatch, retry, reconciliation, approval or replan step keeps that order |
| ProtocolOrder.PathsKept | app/decision_intelligence/replan.py:376-389 | rewiring never changes what lies upstream of a cleared action |
| RowStore.Store.UpsertActionRecord | app/decision_intelligence/durable_action_executor.py:142-200 | writes its target, or leaves alone a row that is terminal or further on, or gives up after at least five writes of others; every version that appears follows the one before |
| RowStore.Store.AuthorizeRetry | app/decision_intelligence/retry_controller.py:107-142 | each error by exactly its cause; an authorized retry resets exactly the version that was observed and stays within max_retries |
| RowStore.VersionIdentifies | app/database/repositories.py:572-590 | over every history an unchanged version means an unchanged row |
| RowStore.TerminalKept | app/decision_intelligence/durable_action_executor.py:126-168 | a terminal status other than FAILED is for ever, whoever writes |
| RowStore.FallsBackOnlyByRetry | app/decision_intelligence/retry_controller.py:46-58 | only an authorized retry moves a row back, within its bound |
| Lease.ExclusionIff | app/database/repositories.py:474-518 | over every history the lease keeps runs with unexpired leases apart exactly when every run claims under a name of its own |
| Lease.SharedNameIntrudes | app/database/repositories.py:510-518 | a concrete history in which a stale run releases its successor's lease and a third moves in |
| Reconcile.Store.ReconcileAction | app/decision_intelligence/reconciliation.py:158-289 | each classification for its cause in rows and world; a retry is promised exactly when nothing was attempted, under way or approved, or the last attempt has no result and its adapter looks and sees no effect; leaves `Outcome`, claims a recovery exactly when it completed the action, and executes nothing |
| Reconcile.CausesExclude | app/decision_intelligence/reconciliation.py:158-289 | no state has two causes, so each classification is given exactly for its own |
| Reconcile.Store.AdvanceThrough | app/decision_intelligence/reconciliation.py:307-326 | at or past the target it stays, one legal hop it takes, anything else it refuses |
| Reconcile.Store.ReconcileMissingResult | app/decision_intelligence/reconciliation.py:307-436 | what looking makes of a missing result: absent is safe to retry, mismatching or unreadable is for a human, matching is caught up |
| Reconcile.Store.ReconcileMissingVerification | app/decision_intelligence/reconciliation.py:437-494 | asks for a human exactly when the action is not COMPLETED afterwards |
| Reconcile.CompletesIff | app/decision_intelligence/reconciliation.py:158-513 | for all databases, exactly the states one reconciliation brings to COMPLETED |
| Reconcile.CompletedIsFixed | app/decision_intelligence/reconciliation.py:187-191 | after completing, reconciling again changes nothing |
| Reconcile.FirstCallDecides | app/decision_intelligence/reconciliation.py:307-326 | what the first call does not complete the next does not either |
| Reconcile.RepeatingDoesNotHelp | app/decision_intelligence/reconciliation.py:158-513 | with the world as it is, any number of calls completes exactly what one completes |
| Reconcile.HistoryKept | app/decision_intelligence/reconciliation.py:399-413 | recorded results and verifications are never rewritten and the row never moves back |
| CrashRecovery.Executor.ExecuteClaimed | app/decision_intelligence/durable_action_executor.py:366-506 | cut off after any step, the executor leaves the state that step sequence says |
| CrashRecovery.Remains | app/decision_intelligence/durable_action_executor.py:402-504 | status, result, verification, effect and execution count after every crash point |
| CrashRecovery.RecoverableCrashPoints | app/decision_intelligence/reconciliation.py:239-289 | exactly the crash points one reconciliation brings to COMPLETED |
| CrashRecovery.RecoveredIff | app/decision_intelligence/reconciliation.py:158-513 | crash anywhere, reconcile any number of times: COMPLETED exactly from those points |
| CrashRecovery.CrashPointsAreHops | app/decision_intelligence/durable_action_executor.py:415-504 | the statuses along the crash points are the hops of the dispatch model, one for each write of the row |
| Graph.SortedCanonical | app/decision_intelligence/action_plan_persistence.py:71 | sorted dependency lists are equal exactly for equal collections |
| CycleDetection.DetectDependencyCycle | app/decision_intelligence/plan_validation.py:64-97 | no cycle reported exactly for acyclic graphs without self-edges; a reported one is a closed dependency path |
| CycleDetection.Search.Visit | app/decision_intelligence/plan_validation.py:75-91 | terminates; finishes everything reachable and restores its state, or returns a closed path |
| CycleDetection.AssertNoCycles | app/orchestration/planner.py:44-61 | the planner accepts exactly the acyclic graphs, self-edges included |
| CycleDetection.SameVerdict | app/orchestration/planner.py:23-41 | on plans without self-dependencies both searches give one verdict |
| CycleDetection.TopologicalAcyclic | app/decision_intelligence/plan_validation.py:88-90 | a graph whose nodes can be finished in order has no closed path |
| CycleDetection.ValidateDependencies | app/decision_intelligence/plan_validation.py:121-139 | accepts exactly plans with unique ids, no self-dependency, known dependencies and no cycle |
| CycleDetection.FindDuplicate | app/decision_intelligence/plan_validation.py:38-45 | finds one exactly when ids are not unique |
| CycleDetection.FindUnknown | app/decision_intelligence/plan_validation.py:48-57 | finds one exactly when some dependency is no action of the plan |
| Replan.ProposeReplan | app/decision_intelligence/replan.py:156-211 | each error by its cause; the proposal carries the replacement's payload and its dependencies, inherited where it has none; REJECTED exactly when the projected graph has a cycle |
| Replan.ProjectPostReplanActions | app/decision_intelligence/replan.py:137-153 | the replacement last, ids and payloads kept, and edges renamed exactly at the failed action |
| Replan.DefaultReplanAccepted | app/decision_intelligence/replan.py:180-206 | a fresh replacement that inherits the failed action's dependencies keeps an acyclic plan acyclic |
| Replan.Store.ApplyReplan | app/decision_intelligence/replan.py:286-440 | cut off after any write the outcome is unchanged; uncut the database is the outcome and the report is true, both raises included; an applied replan leaves a plan that had stopped EXECUTING and every other status, and a rejected one touches neither rows nor plan |
| Replan.PlanStatusAfter | app/decision_intelligence/replan.py:402-424 | FAILED, READY, WAITING_FOR_APPROVAL and PARTIALLY_COMPLETED plans are put back to EXECUTING by an applied replan, and by nothing else here |
| Replan.ReplannedPlanRuns | app/decision_intelligence/replan.py:391-424 | so a run of a replanned plan is orchestratable and its guard lets it start |
| Replan.AppliedRows | app/decision_intelligence/replan.py:360-389 | the replacement is inserted VALIDATED with its dependencies and bounded payload, every other row is settled, and ids stay unique |
| Replan.InsertKeepsOrder | app/database/repositories.py:596-606 | the replacement is put where the plan's rows are listed, by sequence and id |
| Replan.Store.ApplyWithCrashes | app/decision_intelligence/replan.py:268-277 | restarting after any number of crashes converges to what one uncut call leaves, whether that call applies the proposal or raises |
| Replan.RaisesIff | app/decision_intelligence/replan.py:360-389 | exactly when an application raises, which error, and what it leaves: nothing written, or a superseded failed action in a plan that can no longer be loaded |
| Replan.CutReplacementRaises | app/decision_intelligence/replan.py:360-377 | a replacement dependency list too long for its column is such a case |
| Replan.Store.Rewire | app/decision_intelligence/replan.py:376-389 | every row ends settled and no write changes the outcome |
| Replan.OutcomeStable | app/decision_intelligence/replan.py:268-277 | applying a proposal that is applied, or that raised, changes nothing |
| Replan.RevisionGrowsByOne | app/decision_intelligence/replan.py:391-400 | a fresh proposal on a frozen plan that nothing keeps from being applied raises the revision by one and freezes the new hash |
| Replan.GuardSilentAfterReplan | app/decision_intelligence/replan.py:391-400 | a finished replan leaves the plan frozen, so the guard is silent on it |
| Replan.AppliedGraphIsProjected | app/decision_intelligence/replan.py:376-389 | edge for edge, the applied graph is the projected one |
| Replan.AppliedIsAcyclic | app/decision_intelligence/replan.py:205-210 | what was proposed without a cycle is applied without one |
| Replan.SettledMeans | app/decision_intelligence/replan.py:369-389 | the failed action stays, superseded; its dependents name the replacement instead; statuses and payloads are untouched |
| PlanHash.SameHashIff | app/decision_intelligence/action_plan_persistence.py:31-88 | plans hash alike exactly when id, policy, members and their hashed fields agree |
| PlanHash.PersistNewPlan | app/decision_intelligence/action_plan_persistence.py:137-154 | persists every action or fails closed on an oversized payload |
| PlanHash.GuardOnUntouchedPlan | app/decision_intelligence/action_plan_orchestrator.py:790-793 | on an untouched plan loading succeeds exactly when dependency lists fit, and then the guard is silent exactly when expected results do |
| PlanHash.LongExpectationTripsGuard | app/decision_intelligence/execution_persistence.py:50-56 | a concrete untouched plan the guard refuses |
| PlanHash.BoundedText | app/decision_intelligence/execution_persistence.py:50-56 | at most 4000 characters, and unchanged exactly when it fits |
| PlanHash.TruncationShows | app/decision_intelligence/execution_persistence.py:50-56 | what is cut keeps its beginning and ends in the truncation marker, 4000 characters in all |
| PlanHash.FitsIff | app/decision_intelligence/execution_persistence.py:59-68 | a dependency list fits its column exactly when its JSON text has at most 4000 characters |
| PlanHash.PolicyRoundTrip | app/decision_intelligence/action_plan_persistence.py:25-28 | normalized policies are read back as themselves |
| PlanHash.PolicyIsForgiving | app/decision_intelligence/action_plan_persistence.py:25-28 | neither case nor surrounding space matters to how a policy is read, and none is the safer one |
| PlanHash.RecordsLoad | app/decision_intelligence/execution_persistence.py:136-202 | what is loaded back is what was persisted with bounded texts, or an error where a dependency list was cut |
| PlanHash.RepersistIsIdentity | app/decision_intelligence/execution_persistence.py:136-202 | writing back what was loaded writes the same record |
| PlanStatuses.RecomputeMeans | app/decision_intelligence/action_plan_orchestrator.py:592-625 | COMPLETED exactly when all current actions are and there is one; every other status by exactly its reason |
| PlanStatuses.BuildQaReport | app/decision_intelligence/plan_qa.py:98-133 | fully completed exactly when the recomputed status is COMPLETED; an entry COMPLETED exactly for current COMPLETED rows |
| PlanStatuses.ReportOverall | app/decision_intelligence/executive_report.py:48-69 | overall COMPLETED exactly when the recomputed status is; FAILED and COMPLETED_WITH_REVIEW each by exactly its cause |
| PlanStatuses.StopCompletedIff | app/decision_intelligence/action_plan_orchestrator.py:628-640 | the stop reason PLAN_COMPLETED means every action, superseded or not, is COMPLETED or CANCELLED |
| PlanStatuses.StopReasonByCause | app/decision_intelligence/action_plan_orchestrator.py:628-640 | each blocking stop reason by exactly its cause in row statuses and dependencies |
| PlanStatuses.ClassifyByRows | app/decision_intelligence/plan_qa.py:78-95 | what the QA report says of an action, by its status and by what holds it up |
| PlanStatuses.StopReasonAgreesIff | app/decision_intelligence/action_plan_orchestrator.py:592-640 | when nothing is READY: exactly when the reason for that and the status agree on completion, and each way they disagree by exactly its cause |
| PlanStatuses.ReplannedStopsAsFailed | app/decision_intelligence/action_plan_orchestrator.py:904-916 | a plan whose failures were all replaced is COMPLETED and stops with ACTION_FAILED |
| PlanStatuses.ReplannedPlanMisreported | app/decision_intelligence/action_plan_orchestrator.py:904-916 | a concrete such plan |
| PlanStatuses.CancelledPlanMisreported | app/decision_intelligence/action_plan_orchestrator.py:628-640 | a concrete plan that FAILED by a cancelled action and stops with PLAN_COMPLETED |
| Orchestrator.Run.RunPlanUntilBlocked | app/decision_intelligence/action_plan_orchestrator.py:698-999 | whatever the environment does, the run is `Ran` and takes at most 1 + sum of 2 (retries left + 1) iterations, so a large enough bound never stops it; it stops for its reason (`StopsFor`), with PLAN_COMPLETED exactly when everything is closed and the limit did not end it, and stop reason and stored status agree on completion exactly under the stated condition; a plan that has ended is reported with its own reason; the stored status is the recomputed one; the guard refuses exactly a changed hash, and a run keeps the hash |
| Orchestrator.RanStops | app/decision_intelligence/action_plan_orchestrator.py:813-964 | every stop reason of a run by its cause: the limit, a review, a dependency outside the plan, what the rows say, and where they say ACTION_FAILED and an action failed for good in the run, what the policy makes of such a failure |
| Orchestrator.DeferredByCause | app/decision_intelligence/action_plan_orchestrator.py:232-330 | the reason a failure leaves, by its category, side effect, retries left and approval |
| Orchestrator.RecoveredIff | app/decision_intelligence/action_plan_orchestrator.py:307-321 | a failure is retried exactly when it is transient, left no side effect, needed no approval and a retry is left |
| Orchestrator.ReviewIff | app/decision_intelligence/action_plan_orchestrator.py:531-573 | a human is asked exactly about a waiting action without a request, or within budget whose approval does not hold |
| Orchestrator.CaughtUpAsksIff | app/decision_intelligence/action_plan_orchestrator.py:813-850 | the catch-up pass asks exactly when one of the waiting actions it comes to does |
| Orchestrator.Run.Loop | app/decision_intelligence/action_plan_orchestrator.py:852-953 | the loop with its early exit and its limit computes `Looped` |
| Orchestrator.Run.Iterate | app/decision_intelligence/action_plan_orchestrator.py:899-951 | one iteration computes `Iterated` |
| Orchestrator.IterationStops | app/decision_intelligence/action_plan_orchestrator.py:899-916 | and stops, where nothing is READY, for exactly what the rows say |
| Orchestrator.LoopedMeans | app/decision_intelligence/action_plan_orchestrator.py:852-953 | the loop ends by itself within one more iteration than the rows' total weight, keeps the plan's structure, and says PLAN_COMPLETED exactly when everything is closed and the limit did not end it |
| Orchestrator.LimitDecides | app/decision_intelligence/action_plan_orchestrator.py:853-953 | raising the limit of a loop that ends by itself changes nothing of its run |
| Orchestrator.LimitReachedIff | app/decision_intelligence/action_plan_orchestrator.py:853-953 | the limit ends a loop exactly when it is below the iterations the loop takes without one |
| Orchestrator.RanMeans | app/decision_intelligence/action_plan_orchestrator.py:813-964 | the same for a whole run, catch-up pass and deferred stop reason included |
| Orchestrator.LimitedRunMisreported | app/decision_intelligence/action_plan_orchestrator.py:952-953 | a concrete plan that is COMPLETED by a run that stops with ORCHESTRATION_LIMIT_REACHED, and by a limit one higher with PLAN_COMPLETED |
| Orchestrator.Run.Dispatch | app/decision_intelligence/action_plan_orchestrator.py:918-949 | one dispatch, failure handling included, changes one row as `Dispatched` says, claims its key and defers its reason |
| Orchestrator.AfterKeeps | app/decision_intelligence/action_plan_orchestrator.py:918-949 | a dispatch keeps rows tidy and the plan's structure, and a dispatch of a READY row lowers the measure |
| Orchestrator.Run.HandleFailure | app/decision_intelligence/action_plan_orchestrator.py:244-330 | a retry resets the row and costs one retry; anything else leaves the row failed and a reason to stop |
| Orchestrator.Run.CatchUp | app/decision_intelligence/action_plan_orchestrator.py:813-850 | the single pass over waiting actions computes `CaughtUp` |
| Orchestrator.CaughtUpKeeps | app/decision_intelligence/action_plan_orchestrator.py:813-850 | the pass keeps rows tidy, and a review it asks for leaves an action waiting |
| Orchestrator.Run.FirstReady | app/decision_intelligence/action_plan_orchestrator.py:911-918 | the first READY action in dispatch order, or none exactly when there is none |
| Orchestrator.DispatchProgressesIff | app/decision_intelligence/action_plan_orchestrator.py:463-584 | exactly when dispatching a READY action does anything |
| Orchestrator.HopsLegalIff | app/decision_intelligence/action_plan_orchestrator.py:438-584 | a dispatch takes legal hops only, except exactly when a denied budget fails an approved action or a verification fails |
| Orchestrator.ExecutesIff | app/decision_intelligence/action_plan_orchestrator.py:463-584 | an execution key is claimed exactly past the budget and the gates, with a valid approval where the level demands one, under a key nobody holds |
| Orchestrator.FailedVerificationHop | app/decision_intelligence/durable_action_executor.py:486-492 | the second exception at a concrete input |
| Orchestrator.AdvanceTidy | app/decision_intelligence/action_plan_orchestrator.py:463-584 | an advance of a tidy row keeps it tidy, keeps its keys its own and lowers its weight |
| Authority.Antisymmetric | app/authority_contracts/algebra.py:104-123 | mutual leq is equality |
| Authority.BelowMeans | app/authority_contracts/algebra.py:104-123 | below means one version and objective, a tier no higher, no action more, an expiry no later |
| Authority.ScopeByType | app/authority_contracts/contracts.py:80-101 | a valid scope names nothing financial, installing, privileged or unknown, and everything else only under a ceiling that reaches its tier |
| Authority.Transitive | app/authority_contracts/algebra.py:104-123 | leq is transitive, whatever the operands |
| Authority.MeetClosed | app/authority_contracts/algebra.py:126-151 | the meet of valid authorities exists and is valid: tier-consistent and never P5 |
| Authority.MeetIsGlb | app/authority_contracts/algebra.py:126-151 | the meet is the greatest lower bound |
| Authority.MeetBelowBoth | app/authority_contracts/algebra.py:126-151 | the meet is below both sides |
| Authority.InvalidNeverContributes | app/authority_contracts/algebra.py:13-21 | a scope that would not pass the constructor never makes leq true and never contributes to a meet; exactly when an error is raised |
| Authority.FoldIsGlb | app/authority_contracts/algebra.py:126-151 | folding meet over a chain gives the greatest lower bound of its members |
| Authority.FoldOrderIndependent | app/authority_contracts/algebra.py:126-151 | the fold depends on the set of members only |
| Authority.FoldBelowEach | app/authority_contracts/algebra.py:126-151 | the fold is below every member |
| Authority.ChainNarrows | app/authority_contracts/algebra.py:104-151 | a child-below-parent chain puts the leaf below the root and meets in the leaf |
| Evidence.SelectPromptEvidence | app/agents/research.py:681-747 | within all caps, nothing twice, first pass without domain repeats, both passes maximal, best-ranked item included |
| Evidence.Selector.TryAdd | app/agents/research.py:716-734 | an item is added exactly when no cap, and in the first pass no repeated domain, stands against it |
| Evidence.RankedInRank | app/agents/research.py:700-708 | the stable ranking is a sorted permutation |
| Evidence.NotAfterMeans | app/agents/research.py:700-708 | the ranking key field by field: gaps first, then page extracts, then relevance, then the later retrieval |
| Evidence.RankedIsStable | app/agents/research.py:700-708 | evidence of one rank stays in the order it came in |
| Evidence.FirstPass | app/agents/research.py:736-740 | chooses only fresh domains, accounts for every item, and puts off only what would break a cap or repeat a domain |
| Evidence.SecondPass | app/agents/research.py:742-745 | keeps the first choice and leaves out only what breaks a cap |
| Metadata.FreezeMetadata | app/agent_identity/contracts.py:209-212 | accepts exactly trees of at most 1025 nodes, at most eight levels high and with admissible keys and leaves, and returns the tree itself |
| Metadata.Freeze | app/agent_identity/contracts.py:113-143 | with the shared budget threaded through, accepts exactly what fits what is left and takes exactly the tree's nodes from it |
| Metadata.TokensJoin | app/agent_identity/contracts.py:80-81 | key tokens do not cross separators |
| Metadata.CamelSplits | app/agent_identity/contracts.py:72-81 | a camel-case boundary separates tokens like a separator |
| Metadata.CamelCaseCaught | app/agent_identity/contracts.py:95-110 | "canSpend" is refused like "can_spend" |
| Metadata.KeyOkIff | app/agent_identity/contracts.py:40-110 | exactly the accepted keys: short, not blank, without controls, and with no reserved word, pair or shadowed field among their words |
| Metadata.WithinIff | app/agent_identity/contracts.py:113-143 | a value may stand at a depth exactly if nothing in it is deeper than eight levels |
| Metadata.ReservedTermCaught | app/agent_identity/contracts.py:95-110 | a reserved term set off by separators is caught inside any longer key |

## Left out

- SQL sessions, identity maps, rollback and migrations: every modelled write is one committed row operation.
- The orchestration lease inside the protocol machine: workers there overlap freely, so its safety results do not rest on the lease, which is modelled on its own in `Lease`.
- The figures reported beside a budget verdict (limit, consumed, remaining) and the audit, failure and recovery-decision records: nothing decided depends on them.
- `apply_replan` with a replan budget, or racing another writer: the replan model is for one writer at a time, restarted at will, with a fresh replacement id.
- An in-memory upsert of a stale action may write back an older retry count; no lemma states that the count only grows, and the execution bound does not need it.
- Evaluation of readiness warnings and of the blockers that are single field tests (empty texts, missing tool, later-sequenced dependency).
- ProtocolReturns.DispatchReturns: relates the statuses a dispatch stores; the attempt, result and verification rows beside them are not part of it. A look at a request for another action, which raises, counts as hearing nothing.
- Orchestrator.Run.RunPlanUntilBlocked: stated for uncontended, crash-free runs that start without PLANNED, APPROVED or in-flight rows and without taken execution keys, because otherwise the loop can spin to its bound; the reconciliation inside the loop is modelled in `Reconcile` and has nothing to do in such runs.
- ProtocolOrder.DependencyOrder: stated for histories with one worker on actions at a time; a replan that races a stale upsert can undo its rewiring.
- Reconcile.FirstCallDecides: stated for databases in which a verification is never recorded without its result, as the executor writes them.
- CrashRecovery.RecoveredIff: the adapter's verification is the same function of the world for the executor and for reconciliation.
- Metadata.ReservedTermCaught: lower-casing outside ASCII is modelled only for the two characters whose lower case contains an ASCII letter.
- PlanHash.GuardOnUntouchedPlan: inputs are taken to be what JSON carries unchanged (nested integer keys sort differently once they are text), names of ids to contain no character that JSON escapes, and ids within a plan to be unique, as validation requires.
- ProtocolOverlap.LoserCancels: the state it starts from is described, not reached by a listed run.
- ProtocolGuard.GuardFiresOnlyMidReplan: stated where the dependency lists of the final state fit their column; the next upsert cuts one that does not, and then loading the plan raises before the guard is reached.
- Plan-level reconciliation classification: it counts superseded actions and decides nothing here.
- Model providers, prompts, web research, evidence scoring, HTTP routes, the command line and settings.
- The filesystem behind the sandbox adapter, SHA-256 and JSON text: an effect map, ideal hashes and structured payloads instead.
