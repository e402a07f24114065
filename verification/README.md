# Headgate in Dafny

Headgate is a job queue. This project models the parts of its Go sources on which its
correctness rests, and proves what they promise over every input, every interleaving and every run:

- **Workflows** (`Graph`, `WorkflowGraph`, `WorkflowTick`, `WorkflowWorld`, `WorkflowStore`, `CoordinatorTick`,
  `Receipts`, `Coordinator`): validation of dependency graphs, the tick that turns job states into durable
  evidence and mutations, and the revision protocol that accepts grafts and failed-subgraph retries while it
  may be cut off at any store call.
- **The store** (`StoreModel`, `StoreEnqueue`, `Admission`, `AdmissionPass`, `AdmissionCall`, `StoreOps`,
  `StoreRuns`, `MemStore`): the reference store as an object whose methods are atomic, the step relation
  they refine, and what holds over all runs of such steps: uniqueness, fencing, the token bound, exclusive duties.
- **What a user of the store may count on** (`StateMachine`, `EnqueueLaws`, `AdmissionLaws`, `TokenSupply`,
  `LeaseTimes`): the transition table, which batches are accepted, which jobs are claimed and in which order,
  when a rate class can pay, and when waiting, leased and retained jobs move.
- **Steps** (`Steps`, `StepCursors`): step replay and cursors on top of the fenced checkpoint, for any number
  of attempts on one job.
- **Runner** (`Runner`): the account the runner gives of a job against what the store did to it.
- **Time** (`Calendar`, `Cron`, `CronZone`, `Scheduler`): cron search on the Gregorian calendar and in a
  zone, intervals, due ticks, and the leaderless sweep.
- **Breaker and batches** (`Breaker`, `Batch`): two shared objects that use generations against stale
  permits and stale timers.

`Common` and `Sorting` hold what the others share.

## How the model is built

Objects that the source updates in place are classes, and their methods are proved against functions or
relations on values; lemmas about whole runs use those. A locked region or a store call is one atomic step.
Where other parties may act between two calls, the model lets them: the coordinator's store plays an
arbitrary script of outside actions and lost or unacknowledged calls, a schedule row may be advanced by
other sweepers, and step replay, the breaker, racing sweepers and batch goroutines are step relations with any
interleaving. Where a promise depends on calls getting through, the contract says so: `Heard` means that no call
was lost, `Alone` that nobody else acted either.

Assumptions, stated in the contracts that need them:

- The clock is nondecreasing where a bound over time is claimed (`TokensOverRuns`, `DutyIsExclusive`,
  `OpenMeansNoCalls`, `RestedClassServes`, `WindowLasts`).
- A class's limit and window are positive and it is configured once (`TokensOverRuns`, `RestedClassServes`).
- Fences belong to a stored record. Claims about a claim's lifetime require the record to stay stored.
  `DeletionRestartsFences` shows why.
- Counters start at zero: `ClaimsCoverTheCounters` speaks of records whose counters are covered by their claims,
  as a job enqueued with zero counters is.
- Distinct tasks of a workflow have distinct jobs. Validation does not compare job ids;
  `SharedJobBreaksOrder` shows what goes wrong without it.
- Pending task, child and condition jobs are moved by the coordinator alone; signals and absolute timers
  may finish at any time.
- A zone's offset stays below a day and changes at most once in any two days (`Regular`).
  `ProbesCanMiss` shows a zone where the offset probes fail.
- Steps inside one handler are called one after the other.

## Results that needed a condition

- Accepting a batch keeps the uniqueness index sound exactly when the batch does not repeat a lifecycle
  key within itself: the uniqueness pass compares with the index, not with the rest of the batch
  (`SharedKeySlipsThrough` is such a batch).
- A sweep fires every due tick exactly when the backfill width covers them and the search for due ticks
  was not cut short after 10,000 successors.
- A duty stays with its holder until its term is over exactly as long as the holder neither releases it nor
  claims it anew for less time: a claim by the holder replaces the term, it does not extend it.
- A rate class that is left alone is full as soon as its limit has brought in what is missing, however often it
  is looked at meanwhile, exactly when its window divides its limit: each look that credits a whole token drops the
  fraction under way (`LooksAreFreeExactly`, with `EarlyLookCostsAToken` for every other limit and window). Twice
  the time is enough for all of them (`RestedClassServes`). A correction at acknowledgement drops the fraction
  even when it credits nothing (`CorrectionsDropFractions`).

## Model

| member | source | states |
|---|---|---|
| Graph.CountVisits | go/headgateworkflow/evaluation.go:474-511 | The queue-and-degree loop visits every name if and only if the dependency relation has no cycle, self-dependency included, and it terminates |
| Graph.StuckHasCycle | go/headgateworkflow/evaluation.go:490-511 | Names that all keep waiting for one another contain a cycle |
| Graph.MinimalMember | go/headgateworkflow/evaluation.go:157-185 | In an acyclic graph every non-empty set of nodes has a member none of whose predecessors is in the set |
| WorkflowGraph.ValidateCoordinator | go/headgateworkflow/evaluation.go:437-512 | Accepts exactly the well-formed acyclic graphs, and complains of a cycle exactly when everything else is in order and there is one |
| WorkflowGraph.ValidateGraftNodes | go/headgateworkflow/workflow.go:234-284 | The local part of a graft is accepted exactly when no task repeats or names itself as a dependency, the edges fit and the graft's own tasks form no cycle |
| WorkflowGraph.ValidateBundle | go/headgateworkflow/workflow.go:77-129 | A bundle is accepted exactly when its ids are distinct and non-empty, every child belongs to it and no workflow contains itself through its children |
| WorkflowTick.GrowEvidence | go/headgateworkflow/evaluation.go:85-134 | The completed set after a tick is the least set that contains the one before and is closed under what the job states prove; exactly the nodes it records get the finalization time that was read, and every other time stays |
| WorkflowTick.GrowthKeepsDownClosed | go/headgateworkflow/evaluation.go:85-134 | Growing the evidence keeps it downward closed however early signals, timers and conditions finish |
| WorkflowTick.NewEvidenceFinished | go/headgateworkflow/evaluation.go:85-134 | Every name added to the evidence belongs to a node whose job was seen completed |
| WorkflowTick.WorkflowFailedSet | go/headgateworkflow/evaluation.go:388-410 | The failed set is exactly the nodes reachable along dependency edges from a missing or failed node |
| WorkflowTick.FailedMissesCompleted | go/headgateworkflow/evaluation.go:388-410 | Nothing completed is ever counted as failed, as long as the evidence is downward closed |
| WorkflowTick.DependenciesAreEvidence | go/headgateworkflow/evaluation.go:293-313 | Judging dependencies by the effective state of their jobs agrees with judging them by the durable evidence |
| WorkflowTick.CompletionAnchor | go/headgateworkflow/evaluation.go:315-333 | A delayed timer is anchored at the latest completion time of its dependencies, and has no anchor exactly when it has no dependency or one has no recorded time |
| WorkflowTick.DueTime | go/headgateworkflow/evaluation.go:193-200 | A delayed timer is due its delay after the latest completion among its dependencies (times before the epoch count as the epoch), and has no due time exactly when a completion is unrecorded or the sum leaves the range of times |
| WorkflowTick.CollectMutations | go/headgateworkflow/evaluation.go:157-205 | A pass collects exactly the promotions and deletions the decision calls for, or stops at the first node that needs a time or has no answer: a ready timer, scheduled for its delay after the latest completion of its dependencies, or a fault |
| WorkflowTick.Verdict | go/headgateworkflow/evaluation.go:248-266 | Succeeded exactly when nothing failed and nothing is open, failed exactly when something failed and nothing is open |
| WorkflowTick.NeverStuck | go/headgateworkflow/evaluation.go:157-266 | If a tick on an acyclic graph asks for nothing while work is open, some ready node waits for the outside world |
| WorkflowTick.PlanTick | go/headgateworkflow/evaluation.go:157-266 | The whole decision: exact mutations, exact timer and its time, a fault only where some node has no answer, exact verdicts, and with task and child nodes only a waiting tick without mutation means that some job is scheduled, available, running or retryable |
| WorkflowWorld.InitialIsInv | go/headgateworkflow/coordinator.go:15-60 | A freshly submitted valid workflow meets the invariant, so everything below holds in every state reached from it |
| WorkflowWorld.EnvKeepsInv | go/headgateworkflow/coordinator.go:15-127 | Whatever workers, signals and submitters do, execution order, protocol history and budget stay intact |
| WorkflowWorld.ReleaseKeepsInv | go/headgateworkflow/evaluation.go:163-247 | Releasing a node whose dependencies are durable evidence keeps execution order |
| WorkflowWorld.AcceptGraftKeepsInv | go/headgateworkflow/coordinator.go:517-568 | Accepting a graft that was submitted for this workflow against the current revision, and whose grown graph is valid, keeps every invariant: acyclic graph, unique names, order, history, revision and generation counts |
| WorkflowWorld.AcceptRetryKeepsInv | go/headgateworkflow/coordinator.go:406-480 | Accepting a retry submitted for this workflow against the current revision keeps every invariant, stays within the generation budget of automatic retries, and notes which listed jobs are still stopped |
| WorkflowWorld.AutoRetryKeepsInv | go/headgateworkflow/coordinator.go:232-260 | Enqueueing the automatic retry receipt keeps every invariant, the budget included |
| WorkflowWorld.WorkFollowsDependencies | go/headgateworkflow/evaluation.go:378-386 | In every reachable state a task or child job that has left pending has all its dependencies in the durable cursor |
| WorkflowWorld.OneAcceptancePerRevision | go/headgateworkflow/coordinator.go:364-568 | Everything accepted had been submitted under its receipt id with that very payload for this workflow; no receipt is accepted twice, and of all grafts and retries whose payload expects one revision at most one is ever accepted |
| WorkflowWorld.CursorCountsAcceptances | go/headgateworkflow/coordinator.go:461-466 | In every reachable state the revision is one more than the accepted receipts, the generation one more than the accepted retries, and the grown graph is valid |
| WorkflowWorld.RetryWaitsForItsJobs | go/headgateworkflow/coordinator.go:364-404 | In every reachable state, once the receipt of an accepted retry has left pending, no job that was listed for it and found archived or cancelled at acceptance is still waiting to be reopened |
| WorkflowWorld.GenerationsStayInBudget | go/headgateworkflow/coordinator.go:91-97 | With automatic retries only, the generation never exceeds the configured maximum |
| WorkflowWorld.SharedJobBreaksOrder | go/headgateworkflow/evaluation.go:437-512 | A valid graph in which two tasks share a job id: one completion counts for both and the evidence is no longer downward closed |
| WorkflowStore.Store.ReleaseJob | go/headgateworkflow/evaluation.go:200-247 | A release that is acknowledged moved the pending job to the asked state with the asked due time and is recorded; when nobody else acts it fails exactly if the job is not pending; whatever its fate, every invariant holds |
| WorkflowStore.Store.SetCursor | go/headgateworkflow/coordinator.go:165-176 | A cursor write is the only place where a receipt is accepted; the log gains nothing, or exactly the receipt id, payload and job list of this write, and it gains them if the write is acknowledged |
| CoordinatorTick.ReadStates | go/headgateworkflow/evaluation.go:29-84 | The snapshot shows each job as it was at some moment after the tick began, not all at the same moment |
| CoordinatorTick.ObservedWorkIsOrdered | go/headgateworkflow/evaluation.go:85-134 | Even in such a snapshot, finished work has its dependencies in the evidence the tick started from |
| CoordinatorTick.Observe | go/headgateworkflow/evaluation.go:29-156 | New evidence is durable before anything is acted on, it is the least closed extension of the old one with the times that were read, and this fails only if a call is lost |
| CoordinatorTick.Act | go/headgateworkflow/evaluation.go:157-266 | Verdicts mean what they say under interference, a waiting tick without mutation has outside work, a tick that acted stored the ready timer with its due time or carried out everything wanted; when nobody else acts it fails only at a node that has no answer |
| CoordinatorTick.Tick | go/headgateworkflow/evaluation.go:29-266 | One tick, cut off anywhere, keeps all invariants; it decides on what it read and on nothing else, and a verdict speaks about every node of the effective graph; undisturbed, it fails only at a node that has no answer |
| Receipts.FailedNodesToRetry | go/headgateworkflow/coordinator.go:288-307 | Lists exactly the jobs found archived or cancelled, each read at some moment after the call began, misses no job that still waits to be reopened, and, unless a call is lost, fails only on a node that is missing or cannot be retried |
| Receipts.ReopenFailedNodes | go/headgateworkflow/coordinator.go:355-362 | Every listed job was available right after its own call, and none of them waits to be reopened any more; undisturbed, it fails only if one of them cannot be reopened |
| Receipts.FinishRetry | go/headgateworkflow/coordinator.go:364-404 | Resuming an accepted retry after a crash accepts nothing, keeps every invariant and brings the receipt on: it is on its way, or is let go after every stopped job of the retry, or was completed and is forgotten |
| Receipts.RejectGraft | go/headgateworkflow/coordinator.go:262-286 | A rejected receipt is gone afterwards, and undisturbed so are exactly the pending jobs it brought; nothing the protocol relies on has changed |
| Receipts.GrantRetry | go/headgateworkflow/coordinator.go:461-480 | Logs exactly this receipt with the payload that was read and the jobs to reopen, which is certain if no call is lost; moves to the next generation, and on success has reopened all of them before the receipt is available |
| Receipts.GrantGraft | go/headgateworkflow/coordinator.go:553-568 | Logs exactly this receipt with the payload that was read, which is certain if no call is lost; appends that payload's nodes to the graph, and on success the receipt is available |
| Receipts.ReconcileRetry | go/headgateworkflow/coordinator.go:364-480 | A retry accepted earlier is brought on first; then the next one is answered as `AcceptNextRetry` says, or there is none; undisturbed, it fails only if a receipt has left its path, a node of an accepted retry cannot be retried, or a graft competes |
| Receipts.AcceptNextRetry | go/headgateworkflow/coordinator.go:406-480 | A retry of this workflow against its current revision, for a failed workflow that allows retries, is accepted unless a node was found that cannot be retried or a competing graft could not be withdrawn, if no call is lost; nothing else is ever accepted; what is logged is the payload that was read with exactly the jobs found stopped; without an error an unaccepted receipt is gone and the cursor the same |
| Receipts.ReconcileGraft | go/headgateworkflow/coordinator.go:482-568 | A graft accepted earlier is brought on first; then the next one is answered as `AcceptNextGraft` says, or there is none |
| Receipts.AcceptNextGraft | go/headgateworkflow/coordinator.go:517-568 | The payload that was read is accepted if and only if it is a graft with nodes that names this workflow and the current revision, the workflow has not failed and the grown graph is valid; an accepted receipt is available and its nodes are in the cursor, any other is gone together with the jobs it brought |
| Coordinator.EnqueueAutomaticRetry | go/headgateworkflow/coordinator.go:232-260 | The automatic retry has been submitted under the next receipt id, nothing is accepted, and repeating it is harmless; undisturbed, it fails only if another payload waits under that id |
| Coordinator.RecordFailure | go/headgateworkflow/coordinator.go:90-115 | A failed verdict is durable before the attempt gives up, and another generation is asked for exactly when the policy has one left |
| Coordinator.Attempt | go/headgateworkflow/coordinator.go:15-127 | One attempt starts the workflow and submits an automatic retry that was asked for, deals with a retry first, then with a graft, and evaluates the graph only if there is neither; its outcome is the one the retry, the graft or the verdict calls for, success only with every node durably completed; it accepts at most one receipt, keeps all invariants, and undisturbed it breaks off only at a named obstacle |
| Coordinator.Run | go/headgateworkflow/coordinator.go:15-127 | Over any number of attempts, crashes and outside actions each attempt did what its story says |
| Coordinator.ChronicleGrows | go/headgateworkflow/coordinator.go:15-127 | Over every such run the invariant holds, evidence and accepted grafts never shrink, and no more receipts are accepted than attempts were made |
| StoreModel.KeysAgree | go/store_contract.go:88-105 | Two jobs share an effective key if and only if scope, kind (where it counts) and key bytes all agree |
| StoreModel.OneHolderPerKey | go/headgatetest/memstore.go:433-440 | At most one live job holds a lifecycle key |
| StoreModel.BackoffGrows | go/headgatetest/memstore_lifecycle.go:178-188 | The default backoff starts at the base, doubles, never falls and never exceeds the ceiling |
| StoreModel.AckKeepsValid | go/headgatetest/memstore_ack.go:23-128 | Every acknowledgement, refused or not, keeps index and records in agreement |
| StoreEnqueue.ValidatedBatch | go/trace_context.go:224-338 | An accepted batch has distinct ids and each envelope meets the boundary rules |
| StoreEnqueue.ReplaceKeepsHolder | go/headgatetest/memstore.go:198-243 | A replacing duplicate never changes the holder's identity, key, fence, lease or checkpoint, and only waiting holders change at all |
| StoreEnqueue.InsertedAt | go/headgatetest/memstore.go:244-287 | Every new envelope of an accepted batch is stored with its defaults applied |
| StoreEnqueue.EnqueueKeepsValid | go/headgatetest/memstore.go:157-287 | A refused batch changes nothing unless it is a replacing duplicate; an accepted one keeps index and records in agreement exactly when its new jobs have distinct lifecycle keys |
| StoreEnqueue.SharedKeySlipsThrough | go/headgatetest/memstore.go:198-287 | A concrete batch of two jobs under one lifecycle key that an empty store accepts, after which its index is wrong |
| EnqueueLaws.AcceptedExactly | go/headgatetest/memstore.go:157-245 | A batch is accepted if and only if it meets the boundary rules and each envelope repeats stored work under its id, or has a new id, a fingerprint that is not quarantined and a key nobody holds |
| EnqueueLaws.RefusedAddsNothing | go/headgatetest/memstore.go:165-245 | A refused batch stores no job and no key |
| EnqueueLaws.LiveKeyKeepsOthersOut | go/headgatetest/memstore.go:188-197 | While a live job holds a lifecycle key, a batch with a new job under that key stores nothing |
| EnqueueLaws.WindowOpens | go/headgatetest/memstore.go:274-284 | The last job of an accepted batch under a window key opens its window for the time it asks for |
| EnqueueLaws.WindowLasts | go/headgatetest/memstore.go:188-193 | Over every run a window stays open until its time is over, even if the job that opened it is gone, and until then no batch stores a new job under its key |
| EnqueueLaws.NewJobIs | go/headgatetest/memstore.go:246-273 | A new job is pending exactly if it asks for it, otherwise available exactly if it is due, and due after its debounce, at its own time or now; only empty fields are filled in |
| EnqueueLaws.ReplacementIs | go/headgatetest/memstore.go:198-243 | Which fields of a waiting holder a replacing duplicate changes, for every combination of replacement flags and debounce, and when it counts as replaced |
| Sorting.SortSet | go/headgatetest/memstore.go:331-346 | The result is sorted and holds each element exactly once |
| Admission.ExamineKeeps | go/headgatetest/memstore.go:402-423 | The gate refuses exactly banned jobs and jobs that cost more than their topped-up bucket has left in this call, and a refusal is final within the call; what topping up amounts to is `EarnedIsCredited` |
| Admission.TakeKeeps | go/headgatetest/memstore.go:367-391 | Taking an admissible job keeps claims distinct, records exact and every bucket able to pay |
| AdmissionPass.CandidatesAre | go/headgatetest/memstore.go:315-330 | The candidates are exactly the eligible jobs of the queue that this call has not claimed yet |
| AdmissionPass.Serve | go/headgatetest/memstore.go:352-391 | A partition's turn claims its first admissible job, or empties its list |
| AdmissionPass.Round | go/headgatetest/memstore.go:347-396 | After a full round every partition has one claim more or nothing left, a round that claims nothing leaves every list empty, and capacity is never exceeded |
| AdmissionPass.Pass | go/headgatetest/memstore.go:311-397 | After a queue's turn it is served: claims in partition order, no partition two claims behind another has work left, nothing claimable is left below capacity; the first claim goes to the partition whose turn it is or the next that has one |
| AdmissionCall.Admit | go/headgatetest/memstore.go:304-400 | At most capacity distinct eligible jobs are claimed, every requested unpaused queue is served, records change exactly by the claims, buckets pay exactly what was charged, and queues that got a claim start elsewhere next time; `AdmissionLaws` and `TokenSupply` say what this means for a job |
| AdmissionLaws.ClaimsAreRightful | go/headgatetest/memstore.go:311-391 | Only jobs that are available and due, in a requested queue that is not paused, not kept for another worker and not quarantined are claimed; a claimed job runs under the next fence and the lease asked for, every other record stays |
| AdmissionLaws.NothingIsLeftBehind | go/headgatetest/memstore.go:347-423 | Below its capacity an admission leaves such a job unclaimed only if its class cannot pay for it |
| AdmissionLaws.UrgentJobsFirst | go/headgatetest/memstore.go:331-346 | Within a partition no such job that can be paid for is passed over for one with lower priority, or equal priority and later due time, or a larger id after that |
| TokenSupply.EarnedIsCredited | go/headgatetest/memstore.go:414-419 | Topping up credits every whole token that has come in since the last time, up to the burst |
| TokenSupply.EarnedTokensAdmit | go/headgatetest/memstore.go:402-423 | A job that could run, and that the tokens its class had and has earned can pay for beside what the call charged, is claimed unless the capacity is used up |
| TokenSupply.CorrectionIsExact | go/headgatetest/memstore_ack.go:31-48 | A correction gives back the charge, takes the actual cost and credits the whole tokens earned; where the burst does not cap, nothing is lost or gained |
| StoreOps.StepEvolves | go/headgatetest/memstore.go:425-445 | Whatever operation runs, each record either keeps its claim and envelope, ends its claim for good, or as an available job gets the next fence; attempts and crashes are counted apart and only when a claim ends; only a fenced checkpoint write changes resumable progress |
| StoreOps.RenewKeepsCurrent | go/headgatetest/memstore_lifecycle.go:14-31 | Renewing leases neither revives nor ends any claim |
| StoreOps.SweepEvolves | go/headgatetest/memstore_lifecycle.go:46-130 | A sweep touches only the records it takes, each of them once |
| StateMachine.StoreFollowsTheTable | conformance/state_machine.yaml:6-45 | Every operation, to every stored job, is a row of the transition table (operator rows aside) with the counters and the fence the invariants ask for and the delay that was promised, or leaves state, counters, fence and, unless renewed, the lease as they are |
| StateMachine.NothingMovesByItself | conformance/state_machine.yaml:49-50 | Over every run a pending or terminal job keeps its state as long as it is stored |
| StateMachine.QuarantinedAtTheLimit | go/headgatetest/memstore_lifecycle.go:59-82 | Over every run a job is quarantined exactly when it has crashed as often as the limit says |
| StateMachine.PromotionIsPunctual | go/headgatetest/memstore_lifecycle.go:92-108 | From the retry, snooze or reclaim that put a job off, no admission claims it before a promotion does, which takes it no earlier than promised and leaves it out later only for want of room |
| StateMachine.PoisonStaysOut | go/headgatetest/memstore_lifecycle.go:70-78 | From the crash that reaches the limit on, no batch stores a new job with that fingerprint and no admission claims one |
| LeaseTimes.ReclaimedAfterTheLease | go/headgatetest/memstore_lifecycle.go:14-57 | Over every run a claim is reclaimed no earlier than the lease it was granted, or last renewed to, is over, and is left out later only for want of room |
| LeaseTimes.EvictedAfterRetention | go/headgatetest/memstore_lifecycle.go:111-130 | Over every run a finished job is evicted no earlier than its retention after it finished, a quarantined one or one without retention never, and is left out later only for want of room |
| StoreRuns.UniquenessOverRuns | go/headgatetest/memstore.go:157-287 | Over every run index and records agree in all states if and only if no accepted batch repeats a lifecycle key |
| StoreRuns.RetiredForever | go/headgatetest/memstore.go:425-445 | Once a claim has been acknowledged, reclaimed or succeeded, it is never current again while its record is stored, whatever lease ids are reused |
| StoreRuns.LateWritesAreRefused | go/headgatetest/memstore_lifecycle.go:14-44 | No later acknowledgement, renewal, checkpoint, output or progress write of a finished claim has any effect |
| StoreRuns.AckRetires | go/headgatetest/memstore_ack.go:23-128 | An accepted acknowledgement ends the claim, a refused one leaves it current |
| StoreRuns.ReclaimRetires | go/headgatetest/memstore_lifecycle.go:46-89 | A reclaimed claim is over |
| StoreRuns.ClaimsHaveRisingFences | go/headgatetest/memstore.go:367-378 | Two claims of one stored record carry strictly increasing fences |
| StoreRuns.ClaimsCoverTheCounters | go/headgatetest/memstore_lifecycle.go:46-89 | For a job enqueued with zero counters, attempts plus crashes plus a running claim never exceed the number of claims granted: nothing is counted without a claim of its own |
| StoreRuns.LostClaimsReturnOnlyByAdmission | go/headgatetest/memstore.go:367-378 | Even across deletion, a claim that is not current becomes so only by an admission under its own lease id and fence |
| StoreRuns.DeletionRestartsFences | go/headgatetest/memstore.go:244-287 | A claim that was granted, and whose own acknowledgement deleted the record, becomes current again after re-enqueueing and an admission that reuses its lease id, exactly if it was the first claim of its record |
| StoreRuns.TokensOverRuns | go/headgatetest/memstore_ack.go:31-48 | In every reachable state tokens are within the burst, and window times (net charge plus tokens) is within window times burst plus limit times elapsed time, reconciliation included |
| StoreRuns.ChargesAreWithinTheLimit | go/headgatetest/memstore.go:393-423 | Right after an admission that charges a class, the net charge since its configuration is within the burst plus the elapsed share of the limit |
| TokenSupply.RestedClassIsFull | go/headgatetest/memstore.go:414-419 | Over every run, a class that nothing charged, corrected or configured is full again once its limit has brought in what was missing, at twice the price where the window does not divide the limit |
| TokenSupply.RestedClassServes | go/headgatetest/memstore.go:402-423 | The next admission after such a rest claims every job of the class that could run and fits into the burst beside what the call charged, unless the capacity is used up |
| TokenSupply.LooksAreFreeExactly | go/headgatetest/memstore.go:414-419 | Being looked at in between never delays a class if and only if its window divides its limit |
| TokenSupply.EarlyLookCostsAToken | go/headgatetest/memstore.go:414-419 | For every other limit and window there is a moment at which one look leaves the class a token short when it should be full |
| TokenSupply.CorrectionsDropFractions | go/headgatetest/memstore_ack.go:31-48 | A correction before the next whole token moves the clock of the class without crediting anything |
| StoreRuns.DutyPassesAtTheEndOfTheTerm | go/headgatetest/memstore_lifecycle.go:133-159 | Over any run since a grant without release or takeover, somebody else's claim is granted exactly when the holder's latest term is over |
| StoreRuns.DutyIsExclusive | go/headgatetest/memstore_lifecycle.go:133-159 | From a grant until it expires no other holder is given the duty, whatever else runs, unless the holder released it or claimed it anew for less time |
| StoreRuns.ShorterClaimEndsTheTerm | go/headgatetest/memstore_lifecycle.go:133-149 | The exception is real: the holder's own shorter claim lets another in before the first one would have expired |
| MemStore.ValidateBatch | go/trace_context.go:224-338 | The loop over the batch finds the first violation the boundary rules define |
| MemStore.MemStore.constructor | go/headgatetest/memstore.go:79-100 | A new store is empty, has the production defaults and meets the invariant |
| MemStore.MemStore.Enqueue | go/headgatetest/memstore.go:157-287 | Is the enqueue step of the model, with its error, and keeps records well formed |
| MemStore.MemStore.Admit | go/headgatetest/memstore.go:304-400 | Is an admission step of the model and returns its claims; a lease that is not positive is refused |
| MemStore.MemStore.Ack | go/headgatetest/memstore_ack.go:23-128 | Is the acknowledgement step of the model: the transition table, the token correction and the key release |
| MemStore.MemStore.AckSuccessWithResult | go/headgatetest/memstore_ack.go:130-190 | A result with a bad schema version or more than 32 MiB is invalid, a lost lease is rejected, both without effect; otherwise it is the completion step with that result |
| MemStore.MemStore.Renew | go/headgatetest/memstore_lifecycle.go:14-31 | Extends exactly the leases still held and names exactly the others, in order |
| MemStore.MemStore.Checkpoint | go/headgatetest/memstore_lifecycle.go:34-43 | Stores the checkpoint if and only if the lease is current |
| MemStore.MemStore.WriteOutput | go/headgatetest/memstore_ack.go:207-237 | The same boundary and lease checks; otherwise stores value and version under the fence of the lease |
| MemStore.MemStore.WriteProgress | go/headgatetest/memstore_ack.go:253-274 | Refuses a zero or oversized total, a current beyond it and a bad message, then a lost lease, all without effect; otherwise stores the update under the fence of the lease |
| MemStore.MemStore.ReclaimExpired | go/headgatetest/memstore_lifecycle.go:46-89 | Takes expired claims in id order up to the limit, and only leaves one out if the limit is reached and it comes later in the order |
| MemStore.MemStore.PromoteDue | go/headgatetest/memstore_lifecycle.go:92-108 | The same for due scheduled and retryable jobs |
| MemStore.MemStore.EvictRetained | go/headgatetest/memstore_lifecycle.go:111-130 | The same for terminal jobs past their retention; quarantined jobs are never evicted |
| MemStore.MemStore.ClaimDuty | go/headgatetest/memstore_lifecycle.go:133-149 | Is the duty step of the model; once granted, no other holder can be granted the duty at any time before the term ends |
| MemStore.MemStore.ReleaseDuty | go/headgatetest/memstore_lifecycle.go:152-159 | Is the release step of the model: it takes the duty away from nobody else, and a holder that could have kept it leaves it free for all |
| MemStore.MemStore.SetQueuePaused | go/headgatetest/memstore.go:141-145 | Is the pause step of the model and changes exactly the named queue |
| MemStore.MemStore.SetRateLimit | go/headgatetest/memstore.go:148-152 | Is the configuration step of the model: a full bucket whose clock starts now |
| Steps.StepState.Enter | go/steps.go:264-291 | Decides skip, run, stale, repeated or lost as the replay function defines |
| Steps.StepState.Complete | go/steps.go:293-313 | Appends the step and returns the checkpoint to persist |
| Steps.EnterKeeps | go/steps.go:264-291 | A step that may run is not in the list being replayed, and everything listed before it has been settled in this attempt |
| Steps.NextKeeps | go/steps.go:264-380 | Every action of any attempt, stale ones included, keeps the invariant and at most extends the durable list of completed steps |
| Steps.FreshJobOk | go/steps.go:205-220 | A job that was never checkpointed meets the invariant, so every run from it does |
| Steps.ProgressIsMonotone | go/headgatetest/memstore_lifecycle.go:34-89 | Over any interleaving of holders, stale holders, crashes and reclaims, the stored list only grows by extension |
| Steps.ListedStepsNeverRerun | go/steps.go:264-351 | Every listed step's function has returned without error, and no attempt ever starts it again |
| Steps.StartedIsNew | go/steps.go:332-351 | When a step's function starts, the step is not listed and the record already names it as in progress |
| Steps.CrashBlamesTheRunningStep | go/headgatetest/memstore_lifecycle.go:56-68 | A claim reclaimed while a step's function is running counts one crash against exactly that step and leaves resumable progress alone |
| StepCursors.ReplayFollowsTheList | go/steps.go:264-291 | A new attempt skips the listed steps in their order, reports any other step in their place as stale, and runs a step only when the list is used up |
| StepCursors.ReturnedStepIsListed | go/steps.go:293-351 | A step whose function has returned is listed once the holder's write is answered, after everything listed before |
| StepCursors.ResumesFromTheDurableCursor | go/steps.go:283-288 | The first cursor step of an attempt goes on from the cursor the record held for this step when it was claimed, and from none if the record's cursor was another step's |
| StepCursors.LaterCursorStepsStartOver | go/steps.go:283-307 | Once an attempt has entered one cursor step, every other one starts from nothing |
| StepCursors.NotedCursorIsDurable | go/steps.go:441-455 | A cursor noted by the holder is what the record holds, for the step it was noted in, once the write is answered |
| StepCursors.OnlyTheHolderMovesTheCursor | go/headgatetest/memstore_lifecycle.go:34-43 | In any interleaving only a checkpoint write of the current holder changes the stored cursor |
| Runner.AckStanding | go/headgatetest/memstore_ack.go:62-127 | The state an acknowledged job ends in, for every outcome and envelope, and which outcomes are refused |
| Runner.ProcessClaim | go/runner_execution.go:111-231 | What is published is where the job now stands (deleted when nothing is retained), it is published exactly when the claim was still current and the ending is announced, and an attempts-exhausted death fires exactly when the store archived the job on that retry; only a retry consumes an attempt, and an ending that is no failure leaves the job stored with both counters as they were, waiting for the delay promised or available at once |
| Runner.ClaimsMirrorTheirRecords | go/headgatetest/memstore.go:198-243 | From admission on, as long as a claim is current its envelope equals the record's, so predictions from the claim are sound |
| Calendar.DayNumberOfDateOf | go/cronspec.go:311-343 | Stepping day by day through the Gregorian calendar agrees with the closed formula for day numbers |
| Calendar.DateOfDayNumber | go/cronspec.go:311-343 | And back: every valid date is found at its day number |
| Calendar.WeekdayIsCivil | go/cronspec.go:227-237 | The weekday of a day number is the civil one: it goes round day by day, known dates have theirs, and every valid date has the one Sakamoto's congruence gives |
| Cron.MatchesReads | go/cronspec.go:227-343 | An instant matches if and only if its date and time, read off the calendar, pass every field, where two restricted day fields are a choice and otherwise both must pass |
| Cron.MatchIsMoment | go/cronspec.go:311-343 | Every matching instant is a whole second of a valid date that passes the fields |
| Cron.RestrictedDaysUnite | go/cronspec.go:233-236 | With both day fields restricted, exactly the instants match that match with either of them made a star |
| Cron.StarFieldIsFree | go/cronspec.go:233-236 | A star day field decides nothing |
| Cron.MatchingDayWithin | go/cronspec.go:311-343 | If any date can ever match, one matches within the search window after any day, the gap around a non-leap century included |
| Cron.SatisfiableMeansMatches | go/cronspec.go:227-237 | The masks can be satisfied exactly when some instant matches, and then matches recur without end |
| Cron.FirstTimeOfDay | go/cronspec.go:318-341 | The least matching second of a day from a given second on, or none |
| Cron.NextWall | go/cronspec.go:311-343 | The least matching second strictly after the given time, which is the value of the next-match function, and failure exactly when no calendar date can ever match |
| CronZone.ResolveLocal | go/cronspec.go:283-305 | The least instant that shows a wall clock, or none if none does, in any regular zone; the probed meaning in every zone |
| CronZone.ProbesCanMiss | go/cronspec.go:283-305 | A zone with two offset changes inside two days in which the probes do not find the first showing of a wall clock |
| CronZone.FirstOccurrencesAscend | go/cronspec.go:246-267 | Instants that show their wall clock for the first time are ordered like their wall clocks |
| CronZone.NextAfterIn | go/cronspec.go:246-267 | In any zone the result is the first showing, under a probed offset, of the first matching wall clock that has one after the given time, and none only if no date can match or 100,000 candidates were tried in vain; in a regular zone it is the least instant that shows a matching wall clock for the first time |
| CronZone.NextAfter | go/cronspec.go:246-267 | The same with or without a zone; without one, none exactly when no date can match |
| CronZone.SearchIsExact | go/cronspec.go:246-267 | In a regular zone, if the search gave up although a tick follows, it had tried all its candidates and the tick shows a later wall clock than any of them |
| Scheduler.DivIsFloor | go/schedulespec.go:77-84 | The adjusted truncating division is the floor, negative times included |
| Scheduler.EveryTicksAtMultiples | go/schedulespec.go:18-43 | The next tick of an interval is the least multiple of its period after the given time |
| Scheduler.EveryFollows | go/schedulespec.go:18-43 | From any stored start on, an interval enumerates exactly the start and the multiples of its period |
| Scheduler.CrontabFollows | go/schedulespec.go:44-49 | In a zone, a cron expression whose next tick is always found enumerates exactly its ticks |
| Scheduler.CronScheduleFollows | go/schedulespec.go:44-49 | Without a zone every expression with a date at all enumerates exactly its matching instants, so the results on sweeps apply to it without further assumption |
| Scheduler.DueTicks | go/schedulespec.go:54-75 | The most recent due ticks up to the maximum, oldest first, whatever the bound on the search (10,000 in the program) |
| Scheduler.AllDueEnumerates | go/schedulespec.go:54-75 | The due ticks are ascending ticks from the stored one on, and all of them exactly when the search was not cut short |
| Scheduler.MakePlan | go/scheduler.go:62-98 | Which ticks a sweep fires and where it moves the stored time, or why it does neither |
| Scheduler.SweepFires | go/scheduler.go:62-98 | The stored time moves to the first tick after now, and every due tick is fired if and only if the policy covers them and the search was not cut short |
| Scheduler.SkippingDropsTicks | go/scheduler.go:93-98 | Without backfill the stored tick is dropped whenever its successor is due as well |
| Scheduler.MoveKeepsBoard | go/scheduler.go:55-159 | Whatever sweepers race or crash, only the one that read the current stored time moves it, forward and to a tick |
| Scheduler.NoTickIsLost | go/scheduler.go:55-159 | Over any interleaving in which advancing passes cover their due ticks, every tick before the stored time was enqueued, deduplicated or quarantined, and the stored time strictly increases exactly with applied advances |
| Scheduler.AloneFiresEveryTickOnce | go/scheduler.go:55-159 | A single sweeper's fired ticks are exactly the ticks from start to the stored time, in order, without gap or repeat |
| Scheduler.EnumerationsAgree | go/schedulespec.go:50-75 | There is only one enumeration of the ticks in a range |
| Scheduler.FireSchedule | go/scheduler.go:55-159 | A pass stops at the first tick that cannot be enqueued or recorded and counts the accepted ones before it; it moves the stored time if and only if every tick was settled (or the broken schedule was recorded), the advance was not lost and the time found is still the one it read, and then to its target; a pass that succeeds leaves a stored time beyond the one it read; a lost answer to the advance is an error |
| Scheduler.TargetIsAhead | go/scheduler.go:68-91 | The target of a pass lies after now: the next tick, or an hour on for a broken schedule |
| Breaker.AfterKeeps | go/circuit_breaker.go:141-244 | Every call keeps successes plus in-flight within the probe limit, so no unsigned arithmetic wraps, and the generation changes exactly with the state |
| Breaker.StalePermitsAreHarmless | go/circuit_breaker.go:182-244 | A permit of another generation changes nothing, whatever it reports |
| Breaker.OpenMeansNoCalls | go/circuit_breaker.go:141-170 | From opening until the recovery timeout has passed nothing moves the breaker and no permit is issued, over any sequence of calls |
| Breaker.OpensAtTheThreshold | go/circuit_breaker.go:193-204 | Over every run, a report of unavailability opens a closed breaker exactly if it is the threshold-th in a row, at the time of the report; any success starts the count anew |
| Breaker.ClosesAfterItsProbes | go/circuit_breaker.go:205-225 | Over every run, a half-open breaker closes exactly at the success that completes its probes, and a failed probe opens it again |
| Breaker.AdvertisedWaitIsEnough | go/circuit_breaker.go:172-180 | Waiting as advertised always leaves the open state, and at most a millisecond is wasted |
| Breaker.CircuitBreaker.Acquire | go/circuit_breaker.go:141-160 | Half-open in-flight equals the outstanding permits of the current generation, a permit is issued exactly when the breaker admits, and a half-open breaker without outstanding probes always has one to give |
| Breaker.CircuitBreaker.Record | go/circuit_breaker.go:182-226 | A report updates mode and accounting together |
| Breaker.Permit.Finish | go/circuit_breaker.go:182-226 | Only the first report of a permit counts |
| Breaker.Permit.Exclude | go/circuit_breaker.go:230-244 | Giving a permit back frees its slot once and records no result |
| Batch.OneBatchEach | go/registry.go:149-214 | In every reachable state a job handed over is in exactly one batch, no longer waiting and not withdrawn, and no batch exceeds the maximum size |
| Batch.NextKeeps | go/registry.go:149-257 | Every step of any goroutine keeps the books: each submitted job waits, is withdrawn or is in exactly one batch, and its channel is filled exactly when its batch has answered it |
| Batch.AnsweredAtMostOnce | go/registry.go:216-257 | Over every interleaving no channel is sent on twice, by whatever goroutine, so a channel with one slot never blocks a sender |
| Batch.DoneMeansAnswered | go/registry.go:216-257 | Once a batch is done each of its jobs has been sent exactly one result over the whole run, the one meant for it |
| Batch.WantedKeepsOrder | go/registry.go:216-235 | The batch function is given the jobs that are still wanted in the order of the batch |
| Batch.ResultsArriveInOrder | go/registry.go:236-257 | Over every run, once a batch is done its i-th wanted job has the i-th result, or all of them the same error if the function panicked or returned another number of results |
| Batch.GoroutinesNeverBlock | go/registry.go:216-257 | A batch goroutine that is not done can always take its next step |
| Batch.StaleTimersDoNothing | go/registry.go:202-214 | Only the timer armed for the current list hands anything over, and it hands over all of it |
| Batch.BatchHandler.Submit | go/registry.go:149-180 | Is the submit step: the job waits with a timer armed for the current generation, or completes a batch that is handed over at once |
| Batch.BatchHandler.CancelPending | go/registry.go:182-200 | Is the cancel step: a waiting job leaves the list and the others keep their order; a job already handed over is left alone |
| Batch.BatchHandler.Flush | go/registry.go:202-214 | Is the timer step: the timer armed for the current list hands all of it over, any other timer does nothing |
| Batch.BatchHandler.Run | go/registry.go:216-257 | Each send and each look at a job is one step of the relation; whatever the other goroutines do in between, the goroutine ends with every job of its batch answered as meant, and its own variables are touched by nobody else |

## Left out

- HTTP control API, CLI, UI, metrics bridges, SQL and Redis drivers: they route to calls modelled here or are not state machines of their own.
- Cron text parsing and zone names: masks and an offset function are inputs; nothing is claimed about stepped or Sunday-wrapping weekday ranges.
- Condition expressions: their evaluation is an arbitrary partial boolean.
- `StepOnce` and transactional completion: they rest on a transactional store that is only an interface.
- Overflow of times, counters, revisions and generations: integers are unbounded, except the breaker's unsigned counters.
- Slices and maps shared between records and claims: records are values, so aliasing of a checkpoint's maps is not captured.
- Error histories, logs, tags and headers: carried along without influence on the modelled state.
- The builder's own check of draft nodes (`validateGraph`): the same loop over the same data as the coordinator's check, which is modelled.
- Size and character limits of envelopes: an arbitrary predicate passed to validation.
- Sub-millisecond job leases: job lease lengths are whole milliseconds; duty leases are in nanoseconds.
- Workflow event lists and operator-visible output: written beside the cursor, not part of the protocol.
- Operator cancel and promote of single pending nodes, and sweeps of pending jobs into quarantine.
- Exactly-once firing of a tick after its job has been deleted: deduplication lasts as long as the earlier job is stored.
- Grouping of claims into admission units, pausing handlers, telemetry and stuck-job watching.
- Receipts.RetryFailedChildren: passing a retry on to child workflows is one opaque call that may fail, because it only touches other workflows.
- Scheduler.Row.Elapse: other sweepers are any forward movement of the row; the racing behaviour itself is `Next` on `Board`.
- Batch.BatchHandler.Elapse: what other goroutines do between two steps of one is any sequence of steps, of which the contract keeps only what `NextKeeps`, `FilledStays` and `OthersLeaveRun` prove of each.
- Scheduler.CrontabFollows: for a zoned expression the next tick is assumed to be found, because the search gives up after a fixed number of wall clocks that fall into gaps.
- The copies that output and progress writes return to the caller: they equal what the step stores.
- WorkflowGraph.ValidateBundle: the order of checks among several violations is not fixed by the contract, only acceptance and that a reported cycle is real.
