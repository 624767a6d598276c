# Durable skill execution and exactly-once learning

A Dafny model of the core of the agent experience engine: the runtime that executes multi-step skills
durably, the ledger that turns feedback into learning exactly once, the clustering that precedes pattern
generalisation, and the registry, validator and background worker around them. Arithmetic is over exact
reals, time is a number, generated ids are fresh.

**Durable execution.** `ExecutionLedger`, `RecoveryPlanner` and `RuntimeProtocol` describe one execution
as a state machine: atomic store operations interleaved with the program counters of any number of
workers, each of which may crash or stall anywhere while any other claims the expired lease.
`ProtocolInvariant` to `ProtocolPreservation` prove one invariant of all its histories;
`ProtocolTheorems`, `ProtocolOutcomes`, `AmbiguousAttempts`, `RecoveryVerdicts`, `FailedRuns`,
`CrashTransparency`, `TruthfulRuns`, `SavedResults`, `DryRuns` and `Fencing` draw the conclusions: what is
attempted again and what never, what a recovery does about each kind of row, whom a lease keeps out, which value
each name holds, and that crashes do not change a result.
`MemoryStore` and `SkillRuntime` are the store and the runtime in their imperative form. A runtime records
the protocol run in ghost fields, and every store or tool access of its methods is one action of that run.
A run from a fresh execution is a history of the protocol, and a recovery continues the history that left
the ledger behind, so what is proved of histories holds of the methods. `ExecutionPolicy` and `Governance`
cover the gate and approvals, and `SkillExecution` which versions of the registry reach the runtime.

**Learning.** `Attribution` splits a reward, `LearningEvents` stores the events, `EventApplier` moves
posteriors (`BetaLedger`, `ExperienceStore`) and keeps books that balance through conflicts, failures and
failed rollbacks, and `LearningService` drives a feedback from delivery through all repeats. Any store call
may fail and other writers may get in between; `Interference` logs that, and contracts speak of the log of
one call: how many store calls failed in it, and how many writes were refused.
`PatternLearning` and `PatternService` do the same for patterns, `Reinforcement` adds evidence, and
`OptimisticWriters` shows that concurrent writers of an experience lose nothing, and `PatternWriters` when
those of a pattern do.

**Around them.** `TemplateMeaning` says what arguments and conditions stand for, `Clustering` proves the
breadth-first search, `SkillValidator` and `DefiniteAssignment` relate static checks to run-time bindings,
`SkillRegistry` keeps the lifecycle sound, and `EvolutionWorker` loses no wake-up.

Where a property that one would expect is not true of the code, the exact condition is proved instead,
beside a concrete case:

- A recovery re-reads its epoch from the store. Epochs stay exclusive if and only if that is still the one
  its claim returned (`ReadBackIsExclusiveIff`, `SharedEpochCallsTwice`). All theorems about histories
  assume that it is.
- NOT_APPLIED only speaks of the past: a stalled worker can still make its call afterwards, as it can with
  a NATIVE tool (`LateCallSucceedsTwice`). `AtMostOneSuccess` says that these are the only two cases.
- A skill declared MEDIUM runs LIVE without the approval it asks for, when medium risk is allowed
  (`ApprovalIsSkippedIff`).
- A resumed PENDING attempt that fails ends the skill even with `on_error: continue`, and without the declared
  retries. An execution ends FAILED where the uninterrupted run succeeds exactly if the step it failed at may be
  passed over and the rest gets through, and then the failed attempt was a resumed one
  (`FailedUnlikeReferenceIff`, `ResumedFailureEndsSkill`).
- An update whose event could not be marked, and whose rollback failed as well, is counted twice by the
  retry (`ApplyAndConserve`, `RetryAfterLostRollback`). That takes two failed store calls in one call of the
  applier, or one and a refused write; nothing else breaks the books.
- A first delivery that is cut short after its first event is never completed: a repeated one only applies
  what exists. And an experience that was noted twice for an episode gets one event, for its first share. So
  the reward handed out is that of the credits that became events (`Redeliver`, `HandedOutIff`,
  `CutShortLosesHalf`, `RepeatedUseLosesHalf`).
- Patterns carry no version: a direct reward that is applied while the learning applier is at work can erase
  its update, or be erased. All rewards are kept exactly if nobody stores between another's read and its store
  (`NoRewardIsLostIff`, `DirectRewardErasesEvent`).
- A dry run that is repeated under its idempotency key runs nothing, but counts as another shadow outcome
  (`RepeatedDryRunCounts`), so one success can satisfy the gate to activation.
- Archiving does not bump the version, so a concurrent update can undo it. It survives exactly if no writer
  still holds the record as it was before (`RetirementSurvivesIff`).
- A validated template can meet an unbound root after a skipped or failed step (`CheckedRootIsBoundIff`,
  `SkippedProducerUnbindsRoot`).
- Guards that compare an input are refused by the reference check, and existence tests always are
  (`InputComparisonsAreRefusedIff`).
- A version that fails too often suspends its skill's active version, which may be another
  (`MaybeSuspendFromLiveStats`).
- A crash between failing a stale job and marking its family dirty loses the wake-up exactly if the run
  that left the job stopped between clearing the dirty flag and its scan, and no mark came since
  (`FailStaleJob`, `SplitRecoveryLosesWakeUp`). The worker is modelled with that pair as one step.

Some behaviour is kept as the code has it although a comment or name suggests otherwise: `exists path` is
true of a nil value; a scan that fails counts as the scan of its family, which ends neither dirty nor
PROCESSING (`ProcessGroup`); sequence numbers start again when a recovery finds cursor 0, so attempt numbers are
what orders rows; a condition and a template render numbers differently, so the same value can read as two
texts; and a registry without a validator clears the approval flag of what it compiles.

Checking everything: `dafny verify dfyconfig.toml --resource-limit 2000000`.

## Model

| member | source | states |
|---|---|---|
| `ProtocolPreservation.ExecKeeps` | internal/skillruntime/runtime.go:253-580 | the protocol invariant survives every history: any interleaving of workers, crashes, claims, renewals, tool and provider answers |
| `ProtocolTheorems.Reached` | internal/skillruntime/runtime.go:766-883 | the invariant holds in every state reachable from a fresh execution |
| `ProtocolTheorems.CursorMatchesLedger` | internal/skillruntime/runtime.go:323-566 | in every reachable state each step below the cursor is settled by its last row, no step above the cursor has a row, and attempts of a step are numbered upwards in creation order |
| `ProtocolTheorems.OneCallPerRow` | internal/skillruntime/runtime.go:434-464 | a row is marked RUNNING at most once over all workers, each tool call belongs to a row that was, no row gets two calls, and a call carries its row's tool, input and operation key |
| `ProtocolTheorems.NoBlindRetry` | internal/skillruntime/runtime.go:468-494 | of two called attempts of a step without idempotency, at least one is known to have failed |
| `AmbiguousAttempts.AmbiguityIsAskedFirst` | internal/skillruntime/runtime.go:819-861 | claimed with an ambiguous cursor row whose provider can be asked, in every continuation: a further attempt only after NOT_APPLIED, done only after APPLIED with that output, both answered after the claim; until then no RUNNING mark, no cursor move, and no end but NEEDS_RECONCILIATION |
| `AmbiguousAttempts.PlanAsks` | internal/skillruntime/recovery.go:113-135 | recovery asks the provider about such a row |
| `ProtocolTheorems.ReconciledAttempts` | internal/skillruntime/runtime.go:434-861 | over whole histories, the runs without a crash included: a called attempt is followed by another only after it is known to have failed or after NOT_APPLIED, and a step is done only on the tool's success or on APPLIED with that output |
| `ProtocolTheorems.AtMostOneSuccess` | internal/skillruntime/runtime.go:468-494 | two attempts of a step can both succeed only with a NATIVE tool, or after the provider answered NOT_APPLIED |
| `ProtocolTheorems.AttemptsShareKeyIff` | internal/skillruntime/runtime.go:365-365 | two attempts that were made carry the same operation key if and only if they are of the same step |
| `ProtocolTheorems.KeysNameSteps` | internal/skillruntime/runtime.go:750-752 | and keys of different executions differ, as long as their ids hold no colon |
| `ProtocolTheorems.StepsWithinMax` | internal/skillruntime/runtime.go:310-323 | with max_steps set only that many steps are ever attempted, and a skill succeeds when exactly those are settled |
| `LateCalls.LateCallSucceedsTwice` | internal/skillruntime/runtime.go:455-468 | both exceptions are real: with own epochs throughout, the call of a stalled worker arrives after the next attempt was allowed and both succeed, under one operation key |
| `ProtocolTheorems.RebuiltBindingsAreLive` | internal/skillruntime/runtime.go:997-1014 | what rebuildBindings reads off the ledger is the binding map the lease holder has at that point |
| `ProtocolTheorems.TerminalLedger` | internal/skillruntime/runtime.go:1042-1065 | what each status says of the ledger: SUCCEEDED has all steps settled and the outputs of the rebuilt bindings, FAILED a failed cursor row or refused inputs, NEEDS_RECONCILIATION an UNKNOWN_OUTCOME cursor row |
| `ProtocolTheorems.EpochsAreExclusive` | internal/skillruntime/memory_store.go:462-481 | no two workers ever write under the same epoch, when each recovery reads back the epoch of its own claim |
| `ProtocolTheorems.ReadBackIsExclusiveIff` | internal/skillruntime/runtime.go:766-780 | reading the execution back keeps epochs exclusive if and only if the store still holds the epoch the claim returned |
| `ProtocolCounterexamples.SharedEpochCallsTwice` | internal/skillruntime/runtime.go:766-780 | otherwise two recoveries that claim in turn and then both read back call the tool twice under one operation key |
| `ProtocolOutcomes.PlanGivesUp` | internal/skillruntime/recovery.go:113-135 | on an ambiguous cursor row of a step without idempotency the plan is always NEEDS_RECONCILIATION |
| `ProtocolOutcomes.AmbiguityIsNeverRetried` | internal/skillruntime/recovery.go:113-135 | claimed with an ambiguous cursor row and capability NONE, an execution gets no further row, no further RUNNING mark and no cursor move in any continuation, and can only end as NEEDS_RECONCILIATION |
| `ProtocolOutcomes.ClosedIsAbsorbing` | internal/skillruntime/memory_store.go:484-502 | once closed, status, cursor, outputs and rows never change again under any history |
| `ProtocolOutcomes.ReturningWorkerLeavesItClosed` | internal/skillruntime/runtime.go:766-883 | a worker that returns without a stale lease or a store error leaves the execution closed for good |
| `ProtocolOutcomes.WriterKeepsOthersOut` | internal/skillruntime/runtime.go:708-726 | a worker whose write of the record was the last one keeps every other owner's claim out until its full lease time has passed since |
| `CrashTransparency.CrashesAreTransparent` | internal/skillruntime/runtime.go:253-580 | every history of crashes, claims and recoveries that ends SUCCEEDED has the outputs of the uninterrupted reference run |
| `CrashTransparency.LedgerIsReferencePrefix` | internal/skillruntime/runtime.go:253-580 | in every reachable state the ledger below the cursor is a prefix of the reference run |
| `SavedResults.ReferenceRunIff` | internal/skillruntime/runtime.go:253-580 | the reference run succeeds with these outputs if and only if the preconditions hold on the inputs and the steps put out results, each by its tool's answer on what the inputs and the results before it give it, that leave the declared outputs with these values |
| `SavedResults.RebuiltHoldsResults` | internal/skillruntime/runtime.go:997-1014 | the rebuilt bindings hold under each name the output of the last done step that saved it, and otherwise the input |
| `SavedResults.LiveBindingsHoldResults` | internal/skillruntime/runtime.go:333-373 | in every reachable state so do the bindings that the lease holder works with |
| `SavedResults.AttemptsUseResults` | internal/skillruntime/runtime.go:346-373 | in every reachable state the input of an attempt that was started is its step's arguments resolved over exactly those bindings, where its guard holds |
| `SavedResults.OutputsAreResults` | internal/skillruntime/runtime.go:1122-1136 | a SUCCEEDED execution puts out exactly its declared outputs that are bound after its last step, with those values |
| `FailedRuns.PassedFailuresAreFinal` | internal/skillruntime/runtime.go:403-545 | in every reachable state a failed step is passed over only if it may be, and only after its last declared attempt failed or on arguments that do not resolve |
| `FailedRuns.FailuresAreFatal` | internal/skillruntime/runtime.go:403-545 | an execution with accepted inputs ends FAILED only at a step that may not be passed over, after its last declared attempt failed or on such arguments, or after a resumed attempt failed |
| `FailedRuns.ReconciliationIsNeeded` | internal/skillruntime/runtime.go:468-494 | an execution ends as NEEDS_RECONCILIATION only for an ambiguous attempt of a tool without idempotency; of a NATIVE one after its last declared attempt was heard to be ambiguous; or of one that can be asked after it was heard to be ambiguous or the provider could not say |
| `FailedRuns.FailedUnlikeReferenceIff` | internal/skillruntime/runtime.go:886-987 | an execution ends FAILED although the reference run succeeds if and only if its inputs were accepted, the step at the cursor may be passed over and the reference run gets through the rest; then a resumed attempt failed |
| `ResumedFailure.ResumedFailureEndsSkill` | internal/skillruntime/runtime.go:886-987 | such a history: a worker crashes before its call, the recovery resumes the attempt, and the failure of a step with on_error continue ends the skill |
| `RecoveryVerdicts.SettledStepsArePassed` | internal/skillruntime/recovery.go:72-108 | claimed with a cursor row that is done, skipped, or failed for good with on_error continue: no continuation makes another attempt or ends before the cursor has passed the step |
| `RecoveryVerdicts.RepeatedStepsAreRepeated` | internal/skillruntime/recovery.go:88-124 | claimed with one that failed with attempts left, or is ambiguous with a NATIVE tool: no continuation ends or moves the cursor before there is an attempt with the next number |
| `RecoveryVerdicts.PendingStepsAreResumed` | internal/skillruntime/recovery.go:77-86 | claimed with a PENDING one: no continuation ends, moves the cursor or adds an attempt before that very attempt was marked RUNNING |
| `RecoveryVerdicts.FailedStepsFail` | internal/skillruntime/recovery.go:88-111 | claimed with one that failed for good otherwise: every continuation stays at the step without another attempt, RUNNING or FAILED |
| `RecoveryVerdicts.ClosedMeansActed` | internal/skillruntime/runtime.go:766-883 | so when a claimed execution is closed, what was due for the step at the cursor was done |
| `DryRuns.DryRunsAreMarked` | internal/skillruntime/runtime.go:546-550 | over every history a row is SHADOWED only in a dry run of a side-effecting tool, and there SUCCEEDED only with an output its provider confirmed |
| `TruthfulRuns.TruthfulRunsAreTransparent` | internal/skillruntime/runtime.go:253-580 | so does every such history in which each answer is the tool's own or ambiguous, and each confirmed operation is reported with its answer |
| `TruthfulRuns.TruthfulIsFaithful` | internal/skillruntime/runtime.go:455-468 | in such a history every recorded answer and report belongs to the row it is recorded for |
| `TruthfulRuns.RecoveryContinues` | internal/skillexec/recovery.go:22-56 | what a claimant does alone, from the store a genuine run left, is a genuine continuation of that run |
| `Fencing.ClaimReturnsLargerEpoch` | internal/skillruntime/memory_store.go:462-481 | over any sequence of store operations a successful claim ends with a strictly larger epoch than any before |
| `Fencing.AcceptedWritesAreOrdered` | internal/skillruntime/memory_store.go:149-214 | the epochs of accepted fenced writes form a non-decreasing log bounded by the current epoch |
| `Fencing.StaleWritesAreRejected` | internal/skillruntime/memory_store.go:149-214 | after a claim no write under an epoch from before it is accepted |
| `Fencing.RowEpochsAreBounded` | internal/skillruntime/memory_store.go:149-214 | the epoch of every row is at most that of the execution |
| `Fencing.ClosedForGood` | internal/skillruntime/memory_store.go:484-502 | once the status left PENDING and RUNNING no fenced write or claim is accepted, and content stays |
| `Fencing.AcceptedIff` | internal/skillruntime/memory_store.go:149-214 | exactly when a fenced write is accepted |
| `Fencing.ClaimAcceptedIff` | internal/skillruntime/memory_store.go:462-481 | exactly when a claim is accepted, and all that it changes |
| `Fencing.RenewalAcceptedIff` | internal/skillruntime/memory_store.go:217-240 | exactly when a renewal is accepted, and what it leaves as owner and end |
| `Fencing.LeaseKeepsOthersOut` | internal/skillruntime/memory_store.go:462-481 | over any sequence of store operations: when a claim or renewal wrote the lease last, a claim is accepted later only at or after the end it set, or for the owner it left |
| `RecoveryPlanner.LatestAttemptForStep` | internal/skillruntime/recovery.go:144-156 | the loop over attempt and sequence numbers finds the row the planner decides on |
| `MemoryStore.MemoryExecutionStore.CreateExecution` | internal/skillruntime/memory_store.go:48-77 | stores the execution and its idempotency key, or rejects a taken one |
| `MemoryStore.MemoryExecutionStore.UpdateExecution` | internal/skillruntime/memory_store.go:81-95 | overwrites an execution, the whole record, unless it is RUNNING, when it refuses |
| `MemoryStore.MemoryExecutionStore.CreateStepFenced` | internal/skillruntime/memory_store.go:149-169 | is the fenced row creation of the ledger specification on one execution and leaves the others alone |
| `MemoryStore.MemoryExecutionStore.UpdateStepFenced` | internal/skillruntime/memory_store.go:189-214 | is the fenced row update of the ledger specification |
| `MemoryStore.MemoryExecutionStore.RenewLease` | internal/skillruntime/memory_store.go:217-240 | under the current epoch, by the owner of the lease, by nobody in particular or when nobody owns it, sets the new end and a named owner; otherwise refused |
| `MemoryStore.MemoryExecutionStore.ClaimExecutionLease` | internal/skillruntime/memory_store.go:462-481 | accepted if and only if the execution is RUNNING and its lease is missing, over, or the claimant's own; then exactly owner, end and epoch change |
| `MemoryStore.MemoryExecutionStore.UpdateExecutionFenced` | internal/skillruntime/memory_store.go:484-502 | is the fenced execution write of the ledger specification |
| `MemoryStore.MemoryExecutionStore.ListStaleRunning` | internal/skillruntime/memory_store.go:438-459 | lists only executions whose lease is over, and all of them when the limit allows |
| `MemoryStore.MemoryExecutionStore.GetApprovalByExecution` | internal/skillruntime/memory_store.go:300-318 | finds an approval of this execution if there is one |
| `SoloRuns.AloneRun` | internal/skillruntime/runtime.go:253-580 | a worker that stays alone keeps its lease through any run |
| `SoloRuns.AloneReturns` | internal/skillruntime/runtime.go:253-580 | and returns with the execution closed, or for lack of a spec |
| `SoloRuns.SoloRun` | internal/skillruntime/runtime.go:253-580 | the only worker of a fresh execution keeps its lease until it has finished, whatever the spec |
| `SkillRuntime.Runtime.PersistExecutionFenced` | internal/skillruntime/runtime.go:651-672 | a fenced execution write is one protocol action: accepted as the store holds it then, or the lease is lost |
| `SkillRuntime.Runtime.CreateStepFenced` | internal/skillruntime/runtime.go:697-706 | a fenced row creation is one protocol action |
| `SkillRuntime.Runtime.UpdateStepFenced` | internal/skillruntime/runtime.go:674-695 | a fenced row update is one protocol action |
| `SkillRuntime.Runtime.InvokeTool` | internal/skillruntime/runtime.go:582-600 | makes exactly one call; in SHADOW mode a side-effecting tool is only previewed and nothing takes effect |
| `SkillRuntime.Runtime.Attempts` | internal/skillruntime/runtime.go:434-545 | the attempt loop ends with a definite answer or NEEDS_RECONCILIATION, within the attempts left |
| `SkillRuntime.Runtime.ExecuteStep` | internal/skillruntime/runtime.go:333-566 | one iteration of the step loop advances exactly as the reference step does, or ends the run |
| `SkillRuntime.Runtime.RebuildBindings` | internal/skillruntime/runtime.go:997-1014 | over the inputs, each name holds what the last done step that saved it put out; and the two loops compute the recursive overlay |
| `SkillRuntime.Runtime.RunSteps` | internal/skillruntime/runtime.go:253-580 | returns without an error only with the execution closed, within the call budget; from cursor 0 with deterministic tools it succeeds exactly when the reference run does, with its outputs (what that run is, `SavedResults.ReferenceRunIff` says step by step); in SHADOW mode no call that takes effect is of a side-effecting tool |
| `SkillRuntime.Runtime.ResumePendingStep` | internal/skillruntime/runtime.go:886-987 | continues a PENDING attempt with at most one call before the rest of the run, and ends closed |
| `SkillRuntime.Runtime.ReconcileStep` | internal/skillruntime/runtime.go:836-861 | acts on APPLIED, NOT_APPLIED and undecided answers and ends closed |
| `SkillRuntime.Runtime.Recover` | internal/skillruntime/runtime.go:766-883 | without an error leaves the execution closed, within one call more than the budget of the remaining steps; what it does about the step at the cursor is fixed by `RecoveryVerdicts` |
| `SkillRuntime.Runtime.RunFresh` | internal/skillruntime/runtime.go:253-580 | a run that nobody disturbs ends without an error, closed, within the budget, and without side effects in SHADOW mode; with deterministic tools it succeeds exactly when the steps, each by its tool's answer to what the inputs and earlier results give it, all get through, and puts out what they leave |
| `SkillRuntime.Runtime.Run` | internal/skillruntime/runtime.go:34-128 | a first call creates one execution with what its caller asked for and runs, parks or denies it as the gate says, a parked one with a PENDING approval for its skill; a repeated idempotency key returns that execution and changes nothing |
| `SkillRuntime.Runtime.Resume` | internal/skillruntime/runtime.go:131-188 | resumes exactly an execution that waits with an APPROVED approval for its skill: it runs, unless the runtime is off or the gate, asked again, denies it; any other call changes nothing |
| `SkillRuntime.Runtime.ApprovedRunResumes` | internal/skillruntime/runtime.go:131-218 | a parked run whose approval is approved resumes, and nothing else is asked of it |
| `SkillRuntime.Runtime.Approve` | internal/skillruntime/runtime.go:192-218 | decides a PENDING approval once, under separation of duties if demanded |
| `SkillRuntime.Runtime.Reject` | internal/skillruntime/runtime.go:221-251 | rejects a PENDING approval once and cancels its execution |
| `SkillRuntime.RecoveryWorker.RecoverOne` | internal/skillexec/recovery.go:22-56 | touches nothing but an execution that can be claimed; one that a genuine run left, with a spec that has steps, it closes, after doing what was due for the step at the cursor: passing it over, repeating it under the next number, resuming it, or failing; and if the tools answer by operation, one that ends SUCCEEDED has the outputs of the uninterrupted run |
| `SkillRuntime.RecoveryWorker.RecoverOnce` | internal/skillexec/recovery.go:22-56 | visits each stale execution at most once and touches no other; it closes each of them that a genuine run left and whose spec has steps, and counts those it closed |
| `Governance.RejectedNeverRuns` | internal/skillruntime/runtime.go:221-251 | in every governed state an execution whose approval was rejected is CANCELLED and has no step row |
| `Governance.UnapprovedRunsAreModest` | internal/skillruntime/policy.go:45-100 | in every governed state, a LIVE execution that attempted a step without an APPROVED approval ran with a spec that, if it validates, uses only available tools of risk MEDIUM or lower |
| `Governance.NothingCriticalRuns` | internal/skillruntime/policy.go:45-100 | in every governed state, an execution that attempted a step ran with a spec declared neither CRITICAL nor unrecognised, on an enabled runtime with all its tools available; LIVE without approval only if it is not HIGH and asks for none unless MEDIUM, and MEDIUM only if that is allowed |
| `SkillExecution.ExecutionService.UnapprovedIsModest` | internal/skill/execute.go:64-172 | over the service, registry and runtime together: a LIVE execution that attempted a step without an APPROVED approval uses only available tools of risk MEDIUM or lower |
| `SkillExecution.ExecutionService.NoCriticalToolRuns` | internal/skill/execute.go:64-172 | an execution that attempted a step, in either mode and whatever was approved, uses only available tools of risk HIGH or lower, and LIVE a HIGH one only after its approval was APPROVED |
| `SkillExecution.ExecutionService.Execute` | internal/skill/execute.go:64-142 | refuses exactly a version that is missing, of another skill, not PASSED or in no stage for the mode; runs its spec otherwise, and counts the outcome of a dry run |
| `SkillExecution.ExecutionService.Resume` | internal/skill/execute.go:144-172 | resumes exactly an execution that is ready and whose own version is ACTIVE and PASSED, with the spec of that version; any other call changes nothing |
| `SkillExecution.ExecutionService.RepeatedDryRunCounts` | internal/skill/execute.go:107-126 | repeating a dry run under its idempotency key runs nothing and counts a shadow outcome each time |
| `Governance.NewRunKeeps` | internal/skillruntime/runtime.go:34-128 | a new run keeps approvals and executions consistent |
| `Governance.ResumedRunKeeps` | internal/skillruntime/runtime.go:131-188 | so does a resumed one |
| `Governance.WaitKeeps` | internal/skillruntime/runtime.go:95-128 | so does parking a run for approval |
| `Governance.DenialKeeps` | internal/skillruntime/runtime.go:95-128 | so does denying it |
| `Governance.LateDenialKeeps` | internal/skillruntime/runtime.go:156-188 | so does a denial at resume |
| `Governance.DecisionKeeps` | internal/skillruntime/runtime.go:192-251 | so do approving and rejecting |
| `ExecutionPolicy.DecideByLoops` | internal/skillruntime/policy.go:45-100 | DENY if and only if the runtime is off, a tool is missing, the risk is CRITICAL or unknown, or a LIVE run is MEDIUM and that is not allowed; otherwise REQUIRE_APPROVAL if and only if a LIVE run has no approval yet and is HIGH or asks for one and is not MEDIUM; otherwise ALLOW |
| `ExecutionPolicy.DecisionIff` | internal/skillruntime/policy.go:45-100 | the decision table meets the same three conditions |
| `ExecutionPolicy.UnapprovedToolsAreModest` | internal/skillruntime/policy.go:45-100 | what the policy allows LIVE without an approval uses only available tools of risk MEDIUM or lower, when the declared risk covers them |
| `ExecutionPolicy.ApprovalIsSkippedIff` | internal/skillruntime/policy.go:85-89 | a LIVE run that asks for approval starts without one if and only if it is declared MEDIUM and medium risk is allowed |
| `ExecutionPolicy.ApprovalOnlyLifts` | internal/skillruntime/policy.go:45-100 | an approval turns REQUIRE_APPROVAL into ALLOW and changes no other decision |
| `ExecutionPolicy.UniqueTools` | internal/skillruntime/runtime.go:1109-1120 | the tools of a spec, each once |
| `Templates.WalkPath` | internal/skillruntime/template.go:81-104 | the walk with a moving cursor finds what the recursive lookup finds |
| `TemplateMeaning.InputsMean` | internal/skillruntime/template.go:14-27 | arguments resolve to an input if and only if it holds each of them, standing for its value |
| `TemplateMeaning.ResolvesIffMeans` | internal/skillruntime/template.go:29-78 | an argument resolves to a value if and only if it stands for it: a lone reference for the value itself, other text for the filled text, a structure for the structure of its parts |
| `TemplateMeaning.PiecesFill` | internal/skillruntime/template.go:59-78 | mixed text resolves to the concatenation of its literals and its rendered references, or not at all |
| `TemplateMeaning.ConditionsSeeTemplates` | internal/skillruntime/condition.go:17-120 | for a path without blank parts a condition sees the value that a template would insert, and an equation compares the text it would insert wherever the two renderings agree |
| `DefiniteAssignment.TemplateErrorsMissFields` | internal/skillruntime/template.go:14-104 | in every reachable state of a validated skill with all inputs supplied and earlier steps done, a TEMPLATE_ERROR comes from a missing field below a bound root |
| `DefiniteAssignment.CheckedRootIsBoundIff` | internal/skillvalidator/validator.go:328-354 | the root of a checked reference is bound if and only if it is an input or the step that saves it was neither skipped nor failed |
| `DefiniteAssignment.RootsAreBound` | internal/skillvalidator/validator.go:255-303 | so all roots are bound when every earlier step was done |
| `DefiniteAssignment.BoundIff` | internal/skillruntime/runtime.go:997-1014 | a name is bound before a step if and only if it is an input or an earlier step saved it |
| `DefiniteAssignment.ArgsUnresolvedIff` | internal/skillruntime/template.go:14-78 | arguments fail to resolve if and only if some reference in them does |
| `DefiniteAssignment.SkippedProducerUnbindsRoot` | internal/skillvalidator/validator.go:255-303 | a skill validates, and still fails on an unbound root after a skipped step |
| `SkillValidator.Validate` | internal/skillvalidator/validator.go:74-105 | a report is OK if and only if the normalised spec meets the declarative conditions; its risk is the declared one, and approval is asked from HIGH on |
| `SkillValidator.CheckSchema` | internal/skillvalidator/validator.go:107-160 | adds exactly the errors of step counts, timeout, duplicate ids and save_as names, each naming the first step it collides with |
| `SkillValidator.CheckToolsAndSecurity` | internal/skillvalidator/validator.go:162-253 | adds an error if and only if a tool is forbidden, unknown, denied or short of arguments, the risk is understated, or CRITICAL is not allowed; the computed risk covers all tools |
| `SkillValidator.CheckTools` | internal/skillvalidator/validator.go:162-223 | finds the highest risk of the registered tools, and those tools |
| `SkillValidator.CheckControlFlowAndRefs` | internal/skillvalidator/validator.go:255-303 | adds an error if and only if some reference is not available where it stands |
| `SkillValidator.ValidatedRiskCovers` | internal/skillvalidator/validator.go:217-237 | a validated spec declares at least the registered risk of every tool it uses, and its step ids are distinct |
| `SkillValidator.InputComparisonsAreRefusedIff` | internal/skillvalidator/validator.go:264-274 | a guard that compares a declared input is refused, bare always and under `inputs` unless something else is named so |
| `SkillValidator.RootsAvailable` | internal/skillvalidator/validator.go:255-291 | a root is available exactly if it is an input or an earlier result |
| `SkillRegistry.NormalizeIsIdempotent` | internal/skill/parse.go:35-98 | normalising twice is normalising once |
| `SkillRegistry.AtMostOneActive` | internal/skill/memory.go:310-337 | in a sound registry a skill has at most one ACTIVE version |
| `SkillRegistry.ServedSpecsAreCovered` | internal/skill/lifecycle.go:65-83 | every shadowed or serving version declares a risk that covers its tools and asks for approval from HIGH on |
| `SkillRegistry.NewVersionKeeps` | internal/skill/memory.go:114-145 | a new candidate or validated version keeps the registry sound |
| `SkillRegistry.ShadowKeeps` | internal/skill/memory.go:289-307 | so does shadowing a PASSED version, also one that is ACTIVE |
| `SkillRegistry.ActivationKeeps` | internal/skill/memory.go:310-337 | so does activating a SHADOW version with enough outcomes |
| `SkillRegistry.SuspensionKeeps` | internal/skill/memory.go:340-358 | so does suspending a skill with its active version |
| `SkillRegistry.CountingKeeps` | internal/skill/memory.go:361-376 | so does counting outcomes |
| `SkillRegistry.SpecOkIgnoresApproval` | internal/skill/lifecycle.go:73-76 | raising the approval flag does not invalidate a spec |
| `SkillRegistry.MemorySkillRepository.SaveCompiled` | internal/skill/memory.go:249-286 | saves skill and version together unless the name is taken or blank |
| `SkillRegistry.MemorySkillRepository.CreateVersion` | internal/skill/memory.go:114-145 | one version per skill and number |
| `SkillRegistry.MemorySkillRepository.TransitionToShadow` | internal/skill/memory.go:289-307 | skill and version become SHADOW together, or nothing changes |
| `SkillRegistry.MemorySkillRepository.ActivateVersion` | internal/skill/memory.go:310-337 | the version takes over and the previous one is DEPRECATED, or nothing changes |
| `SkillRegistry.MemorySkillRepository.SuspendActive` | internal/skill/memory.go:340-358 | skill and version become SUSPENDED together |
| `SkillRegistry.MemorySkillRepository.IncrementShadowOutcome` | internal/skill/memory.go:361-376 | counts one outcome of one version |
| `SkillRegistry.MemorySkillRepository.ListActiveVersions` | internal/skill/memory.go:231-246 | though it never looks at a version's stage, all it lists are ACTIVE, PASSED and sufficiently shadowed, one per ACTIVE skill |
| `SkillRegistry.MemorySkillRepository.NextNumber` | internal/skill/evolve.go:37-50 | the next number is above all in use |
| `SkillRegistry.RegistryService.Check` | internal/skill/lifecycle.go:131-140 | a version passes if and only if its spec meets the checks, or there is no validator; nothing of its spec changes but the approval flag of one that passes, which a validator raises from HIGH on and its absence drops |
| `SkillRegistry.RegistryService.CompileAndCreate` | internal/skill/lifecycle.go:93-156 | creates a skill with version 1 of the normalised spec, up to that flag, VALIDATED exactly if it passes; fails only on blank or taken names and unusable documents |
| `SkillRegistry.RegistryService.ProposeRevision` | internal/skill/evolve.go:14-59 | adds the next version as PENDING candidate and changes no other |
| `SkillRegistry.RegistryService.MoveToShadow` | internal/skill/lifecycle.go:159-172 | shadows a version if and only if it PASSED |
| `SkillRegistry.RegistryService.Activate` | internal/skill/lifecycle.go:176-207 | activates if and only if the version is in SHADOW and meets both gates |
| `SkillRegistry.RegistryService.Suspend` | internal/skill/lifecycle.go:210-224 | suspends a skill and its active version |
| `SkillRegistry.RegistryService.RecordShadowOutcome` | internal/skill/lifecycle.go:227-232 | counts one shadow outcome and keeps the registry sound |
| `SkillRegistry.RegistryService.MaybeSuspendFromLiveStats` | internal/skill/lifecycle.go:236-257 | suspends if and only if the window is full and the rate exceeded; what is suspended is the skill's active version, so the failing one only if it is that one |
| `SkillRegistry.RegistryService.PromoteWinner` | internal/skill/ab_promote.go:68-88 | a promoted winner had PASSED and is ACTIVE |
| `BetaLedger.OrderIsIrrelevant` | internal/experience/utility.go:14-44 | totals do not depend on the order of the rewards |
| `BetaLedger.UtilityIsProper` | internal/experience/utility.go:30-42 | utility is in (0, 1) once alpha and beta are at least their prior |
| `ExperienceStore.BetaUpdateMoves` | internal/experience/utility.go:14-44 | an update moves exactly one of alpha and beta by the absolute reward times confidence, counts one success or failure, and resets utility |
| `ExperienceStore.StandsAfter` | internal/experience/utility.go:14-44 | a record that stands at its initial value plus totals stands at those plus the reward after an update |
| `ExperienceStore.ApplyAllAdds` | internal/experience/utility.go:14-44 | any sequence of updates leaves the initial value plus the totals |
| `ExperienceStore.ApplyAllCommutes` | internal/experience/utility.go:14-44 | and any other order of the same updates the same posterior |
| `ExperienceStore.MemoryRepository.Create` | internal/experience/memory.go:30-43 | at most one experience per tenant, episode and dedup key |
| `ExperienceStore.MemoryRepository.Update` | internal/experience/memory.go:45-60 | a compare-and-swap on the version |
| `ExperienceStore.BumpRaises` | internal/experience/reinforce.go:58-72 | reinforcing never lowers the confidence nor lifts it above 1 |
| `ExperienceStore.AppendUniqueStrings` | internal/experience/reinforce.go:110-136 | appends the new strings in order, each once |
| `Reinforcement.Merge` | internal/experience/reinforce.go:74-108 | the merged record keeps its source and support and gains each new supporting episode once; posterior and utility stay |
| `Reinforcement.ExperienceService.Reinforce` | internal/experience/reinforce.go:19-56 | with fewer conflicts than attempts it succeeds unless a store call fails, with the merge of what the record was in that round; the learning books stay balanced, and the confidence is at least the incoming one |
| `OptimisticWriters.NoUpdateIsLost` | internal/experience/reinforce.go:19-56 | under any interleaving of read-then-update writers, rollbacks included, the version counts the accepted writes, every accepted use survives, and so does every accepted reward that was not taken back |
| `OptimisticWriters.ConfidenceIsMonotone` | internal/experience/reinforce.go:19-56 | confidence never decreases over any history |
| `OptimisticWriters.ArchivingCanBeLost` | internal/experience/memory.go:207-218 | an archived record becomes ACTIVE again by an update read before |
| `OptimisticWriters.RetirementSurvivesIff` | internal/experience/memory.go:207-218 | a retirement survives every continuation without another one if and only if at that point no writer holds the record in its current version with another status and can still store it |
| `LearningEvents.MarkingAdds` | internal/learning/event_memory.go:69-81 | marking one event APPLIED adds exactly its contribution to its experience |
| `LearningEvents.QuietTotals` | internal/learning/event_memory.go:32-44 | creating a PENDING event or marking one FAILED changes no totals |
| `LearningEvents.MemoryEventRepository.Create` | internal/learning/event_memory.go:32-44 | at most one event per tenant, feedback and experience |
| `LearningEvents.MemoryEventRepository.GetByFeedbackExperience` | internal/learning/event_memory.go:46-54 | finds the event of a key exactly if there is one |
| `LearningEvents.MemoryEventRepository.ListByFeedback` | internal/learning/event_memory.go:56-67 | lists exactly the events of a feedback, each once |
| `LearningEvents.MemoryEventRepository.MarkApplied` | internal/learning/event_memory.go:69-81 | changes one status |
| `LearningEvents.MemoryEventRepository.MarkFailed` | internal/learning/event_memory.go:83-93 | changes one status, whatever it was |
| `EventApplier.MemoryEventApplier.ApplyAndConserve` | internal/learning/memory_applier.go:32-89 | a posterior that is its initial value plus its APPLIED events is so after a call too, if and only if it is not the case that marking failed and then the rollback's read failed or its write failed or was refused |
| `EventApplier.MemoryEventApplier.RetryAfterLostRollback` | internal/learning/memory_applier.go:65-80 | after such a call a successful retry has counted the event twice |
| `EventApplier.NewBooks` | internal/learning/memory_applier.go:23-30 | an empty ledger balances |
| `EventApplier.MemoryEventApplier.ApplyPendingEvent` | internal/learning/memory_applier.go:32-89 | with fewer conflicts than rounds it succeeds unless a store call fails, with the update of what the record was in that round; marks exactly this event on success, nothing otherwise; leaks exactly this event, exactly if marking failed and undoing it failed as well; no use is lost |
| `EventApplier.MemoryEventApplier.TryApply` | internal/learning/memory_applier.go:40-86 | one round: read, update, mark, or undo |
| `EventApplier.MemoryEventApplier.RollBack` | internal/learning/memory_applier.go:65-80 | after a failed mark the old posterior is back if and only if the read and the write of the rollback succeed; otherwise exactly that event leaks; what others wrote stays |
| `LearningService.Service.RecordUsages` | internal/learning/service.go:185-238 | notes exactly the selections that entered the context, counts each use once, losing none whatever others write, and never touches a posterior; it succeeds when nothing disturbs it and the records exist |
| `LearningService.Service.RecordPatternUsages` | internal/learning/service.go:240-263 | notes exactly the named patterns |
| `LearningService.Service.StartsSound` | internal/learning/service.go:65-96 | a service over empty ledgers is sound |
| `LearningService.Service.SourcesGrow` | internal/learning/service.go:510-556 | every member event of a pattern derives from an APPLIED experience event, with the reward that event gave its experience |
| `LearningService.Service.SourcesStay` | internal/learning/service.go:425-466 | and its source stays APPLIED |
| `LearningService.Service.ApplyFeedbackReward` | internal/learning/service.go:268-377 | a call that succeeds, and any call without failed store calls and too many conflicts, leaves all events of the feedback APPLIED; a first one has one for each experience the strategy credits, handing out reward times confidence unless one is credited twice; on success every APPLIED event has its member pattern events, the used patterns share a credit of 1, and all pattern events are APPLIED; a pattern changes, or gets an event, only if it was used in the episode, is learnable and supported by a credited experience, or had an event of this feedback; a repeated call creates no experience event and, once all are applied, moves no posterior of an experience; one failed store call leaks nothing |
| `LearningService.Service.FrameOfMembers` | internal/learning/service.go:510-556 | member events are only about patterns that the feedback teaches: stored, learnable, and supported by an experience it credits |
| `LearningService.Service.FrameOfUses` | internal/learning/service.go:589-687 | usage events are only about patterns used in the episode, and applying events changes only the patterns they are about |
| `LearningService.Service.EvidenceIsReward` | internal/learning/service.go:751-797 | a delivery without repeated credits moves alphas, or for a punishment betas, by exactly the absolute reward times the confidence in all |
| `LearningService.Service.EvidenceIsEffective` | internal/experience/utility.go:14-50 | each event moves its experience by exactly the effective reward it records, on the side of its sign |
| `LearningService.Service.Redeliver` | internal/learning/service.go:268-377 | a failed delivery followed by one without failed store calls: all events that exist are APPLIED with all pattern events; if the first created none, the second delivers in full; otherwise what the first did not create is never handed out, with the exact amount |
| `LearningService.Service.HandedOutIff` | internal/learning/service.go:352-364 | events hand out the shares of the first credits they were made for, which is the whole reward if and only if there was none or those shares are everything |
| `LearningService.FirstsCredit` | internal/learning/service.go:775-789 | each credited experience keeps exactly one of its credits |
| `LearningService.Service.CutShortLosesHalf` | internal/learning/service.go:286-364 | a run: two used experiences with equal scores, a delivery that stops after the first event and another one; half of the reward is never handed out |
| `LearningService.Service.RepeatedUseLosesHalf` | internal/learning/service.go:775-789 | a run: one experience noted twice gets one event for half of the reward |
| `LearningService.Service.ReplayFeedback` | internal/learning/service.go:286-311 | the repeated call: applies what is not applied, adds missing member and usage events, applies all pattern events |
| `LearningService.Service.DeliverFirst` | internal/learning/service.go:313-376 | the first call: the strategy's credits become APPLIED events |
| `LearningService.Service.ApplyWithRetries` | internal/learning/service.go:425-466 | repeats the applier after conflicts: without a failed store call it gives up only after as many conflicts as there are rounds in all |
| `LearningService.Service.DeliverCredits` | internal/learning/service.go:352-364 | one APPLIED event for each credited experience, for its first credit, in order, or an error |
| `LearningService.Service.CreateAndApplyEvent` | internal/learning/service.go:751-796 | creates an event or finds the one there is, and applies it if it is not yet |
| `LearningService.Service.ApplyExistingEvent` | internal/learning/service.go:425-466 | applies an event with retries on conflict, or marks it FAILED; on success every learnable pattern it supports outside the skipped ones has its member event |
| `LearningService.Service.RetryExistingEvents` | internal/learning/service.go:379-404 | applies what is not applied, with member events, up to the first failure |
| `LearningService.Service.DeliveryConservesReward` | internal/learning/service.go:759-772 | the effective rewards of a delivery without repeated credits sum to reward times confidence |
| `LearningService.Service.Credits` | internal/learning/service.go:339-351 | the strategy's credits: conserving, over used experiences, distinct when the usages are |
| `LearningService.Service.EnqueueMissingMembers` | internal/learning/service.go:489-497 | on success every APPLIED event has a member event for each learnable pattern it supports outside the skipped ones |
| `LearningService.Service.LearnUsedPatterns` | internal/learning/service.go:498-506 | on success the used patterns share credits of exactly 1, each without a usage event got one with its share, and all pattern events of the feedback are APPLIED |
| `LearningService.Service.MembersStaySeparate` | internal/learning/service.go:510-556 | member events never credit a pattern that the episode used |
| `LearningService.Service.UsesStaySeparate` | internal/learning/service.go:589-637 | usage events credit only those |
| `PatternLearning.SeedBeta` | internal/experience/pattern_utility.go:57-69 | a positive prior with the given utility |
| `PatternLearning.NewPatternBooks` | internal/learning/pattern_event_applier.go:21-27 | an empty pattern ledger balances |
| `PatternLearning.PatternUpdateMoves` | internal/experience/pattern_utility.go:17-43 | a pattern update moves alpha or beta by the absolute reward times confidence |
| `PatternLearning.PatternStandsAfter` | internal/experience/pattern_utility.go:17-43 | a pattern stands at its seed plus its totals after an update |
| `PatternLearning.PromotionIsEarned` | internal/experience/pattern_utility.go:46-54 | only candidates are promoted, exactly from utility 0.75 and two successes on |
| `PatternLearning.PatternEventsAreUnique` | internal/learning/pattern_event_memory.go:41-62 | one event per pattern and source event, or per pattern, feedback and source |
| `PatternLearning.MemoryPatternEventRepository.Create` | internal/learning/pattern_event_memory.go:41-62 | accepts an event exactly if its key is free in its key space |
| `PatternLearning.MemoryPatternEventRepository.ListByFeedback` | internal/learning/pattern_event_memory.go:84-101 | lists exactly the pattern events of a feedback |
| `PatternService.MemoryPatternRepository.FindByExperience` | internal/experience/pattern_memory.go:100-121 | the patterns that have the experience as evidence |
| `PatternWriters.NoRewardIsLostIff` | internal/experience/pattern_service.go:186-210 | under any interleaving of the applier and direct rewards a pattern has all stored rewards if and only if nobody ever stored between another's read and its store |
| `PatternWriters.DirectRewardErasesEvent` | internal/experience/pattern_service.go:186-210 | a history in which a direct reward erases the update of an APPLIED event |
| `PatternService.PatternLearner.ApplyPendingPatternEvent` | internal/learning/pattern_event_applier.go:29-75 | succeeds if and only if no store call fails; marks exactly this event or none; leaks exactly if marking failed and undoing it failed as well |
| `PatternService.PatternLearner.RollBack` | internal/learning/pattern_event_applier.go:60-73 | the pattern is as before if and only if the rollback's read and write succeed; otherwise exactly that event leaks |
| `PatternService.PatternLearner.EnqueueMemberEvents` | internal/learning/service.go:510-556 | on success one event for each stored learnable pattern that the experience supports outside the skipped ones; and never one about any other pattern |
| `PatternService.PatternLearner.MemberMovesAlike` | internal/learning/service.go:451-457 | a member event moves its pattern by exactly what its source moves the experience |
| `PatternService.PatternLearner.EnqueuePatternUsageEvents` | internal/learning/service.go:589-637 | usage credits over the used patterns sum to 1 in proportion to their use, and each becomes an event |
| `PatternService.PatternLearner.RetryPatternEvents` | internal/learning/service.go:650-669 | changes only the status of this feedback's events; success leaves all APPLIED |
| `Attribution.AttributeByScores` | internal/attribution/score.go:19-70 | non-negative weights summing to 1, in usage order, proportional to the scores, equal if there are none |
| `Attribution.SortById` | internal/attribution/score.go:121-130 | the exchange sort in place: a rearrangement, sorted by id |
| `Attribution.NormalizeInfluence` | internal/attribution/score.go:101-131 | conserving credits, sorted by id, proportional to the positive weights |
| `Attribution.CreditByLinks` | internal/attribution/targeted.go:65-137 | credits exactly the used experiences linked to the target, in proportion to their influence |
| `Attribution.CreditExactExperience` | internal/attribution/targeted.go:52-63 | all to the named experience if it was used, else nothing |
| `Attribution.Attribute` | internal/attribution/targeted.go:32-50 | per target: all usages in order and by score, the named experience if used, or exactly the used experiences with evidence, in proportion to it; always conserving |
| `Attribution.LinkCreditsExistIff` | internal/attribution/targeted.go:65-137 | feedback on an action, a field or a tool credits somebody if and only if a used experience is linked to it |
| `Attribution.ValidateCredits` | internal/attribution/score.go:76-91 | accepts exactly no credits or non-negative ones summing to 1 within the tolerance |
| `Attribution.RewardIsConserved` | internal/experience/utility.go:47-49 | conserving credits hand out exactly reward times confidence |
| `Clustering.ClusterBySimilarity` | internal/experience/auto_generalize.go:138-189 | the clusters are exactly the connected components with at least three members |
| `Clustering.Adjacency` | internal/experience/auto_generalize.go:143-161 | the lists hold exactly the edges, both ways, though each pair is compared once |
| `Clustering.Component` | internal/experience/auto_generalize.go:168-184 | the breadth-first walk ends, and marks and returns exactly the component of its start |
| `Clustering.Graph.PartIsComponent` | internal/experience/auto_generalize.go:163-188 | a closed part reached from one of its nodes is what paths connect |
| `Clustering.GroupByFamily` | internal/experience/auto_generalize.go:120-135 | one group per family, in the order of their first members, each the family's members in input order |
| `Clustering.FamiliesPartition` | internal/experience/auto_generalize.go:120-135 | every occurrence is in the group of its own family and no other |
| `Clustering.Scan` | internal/experience/auto_generalize.go:87-112 | all clusters of a scan: family by family, each of one family and large enough |
| `EvolutionWorker.Processor.Tick` | internal/evolutionjob/processor.go:168-191 | no round loses a wake-up, whatever crashes or marks disturb it; an undisturbed one with room leaves every marked family scanned or PROCESSING |
| `EvolutionWorker.Processor.ProcessGroup` | internal/evolutionjob/processor.go:90-128 | at whatever step it stops, every marked family is dirty, PROCESSING or scanned since its last mark |
| `EvolutionWorker.Processor.Sweep` | internal/evolutionjob/processor.go:131-144 | undisturbed and with room it leaves dirty only families in PROCESSING |
| `EvolutionWorker.Processor.RecoverStaleJobs` | internal/evolutionjob/processor.go:147-165 | on success every stale job is FAILED with its family dirty, and no other job changed; undisturbed, what stays PROCESSING is not stale |
| `EvolutionWorker.Processor.MarkDirty` | internal/evolutionjob/memory.go:37-53 | a mark is never lost |
| `EvolutionWorker.Processor.FailStaleJob` | internal/evolutionjob/processor.go:153-162 | the first write of the recovery alone keeps all wake-ups if and only if the family is dirty, or the run that left the job had not cleared its mark, had begun its scan, or cleared a mark that an earlier scan had seen |
| `EvolutionWorker.Processor.SplitRecoveryLosesWakeUp` | internal/evolutionjob/processor.go:90-162 | a run that stops after clearing the dirty flag, then a recovery that stops after its first write: the wake-up is lost |
| `EvolutionWorker.MemoryJobRepository.ListDirty` | internal/evolutionjob/memory.go:55-74 | the oldest dirty families, oldest first, up to the limit |
| `EvolutionWorker.SortByAge` | internal/evolutionjob/memory.go:62-69 | the exchange sort in place |
| `EvolutionWorker.MemoryJobRepository.UpsertPending` | internal/evolutionjob/memory.go:83-111 | a job in PROCESSING stays, any other becomes PENDING |
| `EvolutionWorker.MemoryJobRepository.ListStaleProcessing` | internal/evolutionjob/memory.go:153-163 | exactly the PROCESSING jobs older than the cutoff |

## Left out

- SkillRuntime.Runtime.Run: for a spec with two steps of one id its recorded run is not among the histories of the protocol theorems; two callers that create under one idempotency key at the same time and both see PENDING are not covered.
- SkillRuntime.Runtime.Resume: it is one atomic operation, so two interleaved calls, which can reset a finished execution through the unfenced UpdateExecution, are not covered.
- SkillRuntime.Runtime.Recover: the spec is handed over as a value, so decoding the stored snapshot and its YAML is not modelled.
- SkillRuntime.RecoveryWorker.RecoverOnce: claims and recovers with no other worker in between, and is given the specs; interleavings are covered by the protocol theorems.
- CrashTransparency.CrashesAreTransparent: for distinct step ids and tools that answer by tool, input and operation key.
- LearningService.Service.ApplyFeedbackReward: calls do not interleave; the returned update reports and their snapshots are not modelled, nor is feedback on skill executions, which has a ledger of its own.
- LearningService.Service.LearnUsedPatterns: without the legacy immediate propagation, without optional repositories being absent, and without marking families dirty for evolution.
- EventApplier.MemoryEventApplier.ApplyPendingEvent: requires that the status in the given event is the stored one, which the applier trusts; the writers that get in between are reinforcement and usage counting, since the applier's mutex keeps other appliers out.
- PatternService.MemoryPatternRepository.FindByExperience: the order of the result is left open.
- PatternLearning.MemoryPatternEventRepository.ListByFeedback: the order of the result is left open.
- Attribution.CreditByLinks: whether a field path matches is an uninterpreted predicate.
- Clustering.ClusterBySimilarity: cosine and lexical similarity are uninterpreted functions.
- Clustering.Scan: the generalisation of each cluster is left out.
- EvolutionWorker.Processor.Tick: one worker, and recovery's two writes are one step.
- SkillValidator.Validate: names are single path segments without blanks, references have no blanks around dots, lower-casing is ASCII; field types, names and descriptions of a spec are not modelled.
- DefiniteAssignment.TemplateErrorsMissFields: argument strings are sequences of literals and references, not matched by the regular expression.
- SkillRegistry.RegistryService.CompileAndCreate: the document is a parsed spec or none; embeddings, hashes, confidence and the posterior of a version are not modelled.
- SkillRegistry.RegistryService.RecordLiveOutcome: stands for the skill version learning ledger, a smaller copy of the experience ledger.
- SkillRegistry.MemorySkillRepository.UpdateVersion: only for changes that keep skill and number; an arbitrary overwrite is not covered, nor is revalidating an existing version, which only the evaluation harness does.
- Wall-clock leases and the heartbeat: expiry and renewal are nondeterministic steps of the protocol.
- Context deadlines, cancellation and backoff sleeps, and with them the codes TIMEOUT and CANCELLED.
- Conditions that do not parse, with the codes PRECONDITION_ERROR and WHEN_ERROR.
- Error texts, durations and timestamps other than those that order or expire something.
- Composite string keys are tuples, so keys that collide by their separator are not modelled; identifiers are taken as trimmed.
- Negative cursors, which the code clamps to 0.
- Row ids are numbered per execution instead of random.
- SkillExecution.ExecutionService.Execute: the automatic revision after a failed LIVE run is left out.
- PatternWriters.NoRewardIsLostIff: the applier's rollback is not among the writers.
- Custom policies are a function of the request, without errors.
- Reinforcement.Merge: attempt counters, outcome and attempt ids of the evidence are left out.
- Direct pattern rewards, which are one event each with a key of their own.
- Rounding, exponential decay, cosine arithmetic and sampling.
- HTTP handlers, SDKs, configuration, authentication, the Postgres repositories, tool providers, the replay and evaluation harnesses, retrieval ranking and context building.
