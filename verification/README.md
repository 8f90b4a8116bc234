# Verified model of the sharded inference control plane

This project models how sharded LLM inference is planned, admitted, run, cleaned up
and released over workers that may fail at any moment, and proves what each part
promises over all inputs, all runs and all interleavings.  `dafny verify
dfyconfig.toml` checks everything.

The argument runs from planning to release.

1. **Planning** (`Membership`, `Placement`, `Snapshots`, `Execution`, `PlanScoring`,
   `WorkerKeys`, `PlanPaths`, `PlanOptions`, `PlanSearch`, `CompletePlans`,
   `PlanConstruction`, `PlanTheorems`).  The search keeps one best partial plan for
   each stage count, boundary and worker set.  It is proved to return the unique
   minimum over all feasible plans (not just those it visited), to find none only when
   there is none, to be independent of the order of its inputs, and to have
   accumulated exactly the score that full scoring gives.
2. **Admission** (`Scheduler`, `Conservation`, `SchedulerRuns`, `SchedulerSafety`,
   `SchedulerTheorems`, `StaleStatuses`, `NumberedCalls`, `PlannerAdmission`,
   `MeshInputs`).  The ledger is a class; a transition system runs it against the true
   state of the workers, with statuses that are delayed, lost or out of order.  In every
   run the ledger is the exact sum over unfinished and quarantined stages, a leaked
   sequence is never forgotten, and limits hold.  Memory is not overcommitted as long as
   no charging admission reads a status that lags an earlier reading by two numbers or
   more, and one number is proved to be the exact lag that is safe.
3. **The worker** (`Worker`, `WorkerService`, `WorkerRuns`, `WorkerHistory`,
   `WorkerBudget`).  A request repeated after a lost reply changes nothing, every
   cache is exactly its accepted mutations applied once in order, a failure freezes
   its sequence, and retained bytes stay within the budget exactly when each interrupted
   stage call fits.
4. **Sequence lifecycle** (`SequenceSets`).  Open, rollback and cleanup against
   workers that may apply a request and lose the reply.
5. **Generation** (`Pipeline`, `StageCalls`, `PlannedSession`, `OpenedPipelines`).  From
   freshly opened sequences the staged pipeline yields exactly the tokens and caches of
   a greedy decode of the whole model.
6. **Evidence, membership and processes** (`Series`, `Distributions`, `ProfileStore`,
   `ProfileStoreObject`, `ProfileTheorems`, `Leases`, `Registry`, `Supervisor`,
   `ScheduledSequences`, `PlanBuilders`).

`WideArithmetic`, `Text`, `Totals` and `MapSums` hold what the others share.

State that the program updates in place is a class whose methods are proved against a
function of the old state; loops are loops.  The results over whole runs are lemmas
about those functions.  Calls into the network return what an arbitrary delivery
(answered, lost before or lost after the worker applied it) leads to, and are recorded
in a ghost log, so that contracts also say what was sent and why a call failed.

Five statements that one might expect are false of the code.  For each there is an
exact condition over all inputs or runs, and where it is a matter of runs a failing one:

- a snapshot of the evidence store is acceptable for planning exactly when no fresh
  transfer was slower than one byte per second (`ProfileTheorems.SnapshotAcceptedIffFast`
  and, over runs, `RunSnapshotAcceptedIffFast`);
- the registry keeps available memory within physical memory exactly as long as each
  renewal that keeps an old status finds one that fits (`Leases.RenewalMemory`; fails in
  `Leases.ShrunkRenewalBreaksMemory`);
- closing an admitted sequence can succeed before its admission is released, exactly
  while another call still holds it (`ScheduledSequences.CloseThatFindsItOver`; happens in
  `CloseCanReturnBeforeRelease`);
- workers can be overcommitted when statuses lag: a lag of one observation number is
  safe in all runs and no larger one is (`StaleStatuses.LagOfOneIsExact`; for every two
  numbers further apart `StaleStatusOvercommits` gives a run);
- a stage call that grows the cache and then throws can exceed the retained-byte
  budget: for a request that passed the guard, exactly when the other sequences, the
  estimated cache and the old replay record do not fit together
  (`WorkerBudget.ThrowsFitExactly`; fails in `GrowingThrowExceedsBudget`).

## Model

| member | source | states |
|---|---|---|
| WideArithmetic.MultiplyDivideCeil | internal/placement/scoring.go:744-760 | the exact ceiling of left*right/denominator, and an overflow error precisely when it does not fit 64 bits |
| WideArithmetic.CeilingUnique | internal/placement/scoring.go:744-760 | at most one number is the ceiling, so that contract fixes the result |
| WideArithmetic.Div64 | internal/placement/scoring.go:748-752 | the 128 by 64 bit division is exact wherever its divisor exceeds the high word; every caller is proved to meet that, so it never traps |
| WideArithmetic.BytesPerSecond | internal/placement/profile.go:600-613 | the exact floor of payload*10^6/elapsed, capped at 2^64-1 |
| WideArithmetic.ZeroThroughput | internal/placement/profile.go:600-613 | a rate is zero exactly when the transfer moved less than one byte per second |
| Execution.ValidateExecutionPlan | internal/generation/execution_plan.go:130-253 | the scan accepts exactly the valid plans: identities present, stages contiguous from 0 to the layer count, distinct names, targets and shards, digests as derived |
| Execution.EveryLayerOwnedOnce | internal/generation/execution_plan.go:130-253 | in a valid plan every layer belongs to exactly one stage |
| Execution.BuildExecutionPlan | internal/generation/execution_plan.go:64-80 | succeeds exactly when the finalized plan is valid, and returns that plan |
| Execution.CompleteStagesMakeValidPlan | internal/generation/execution_plan.go:64-80 | finalizing any complete list of stages gives a valid plan, so the derived shard IDs never collide |
| Execution.ShardIDsSeparateRanges | internal/generation/execution_plan.go:323-342 | equal shard IDs mean equal layer ranges and equal digests |
| Execution.FinalizedRevision | internal/generation/execution_plan.go:255-294 | a finalized plan carries its own revision although finalizing also writes shard IDs |
| Placement.EvaluateCandidate | internal/placement/eligibility.go:175-277 | the required bytes count a load only when nothing is reused, and an eligible worker has a free request slot, the memory and the retained-byte room |
| Placement.EligibleIffSuitable | internal/placement/eligibility.go:175-277 | a worker is eligible exactly when it meets every requirement, stated positively in unbounded arithmetic, and reuse is credited exactly when the stage is resident |
| Placement.CompatibleRetainedShard | internal/placement/eligibility.go:294-311 | finds a listed shard that holds the range, and none only when none is listed |
| Placement.MergeStageScore | internal/placement/scoring.go:612-673 | every score field of the result is the exact sum with the charge of the stage |
| PlanScoring.SelectTargets | internal/placement/scoring.go:117-196 | the first loop gathers the evidence of every stage or the first error, and reports eligibility exactly when all are eligible |
| PlanScoring.ScoreSelected | internal/placement/scoring.go:117-196 | the second loop folds the stage costs in plan order or stops at the first error |
| PlanScoring.ScorePlan | internal/placement/scoring.go:117-196 | full scoring is the function that the search results below are compared with |
| WorkerKeys.KeyEncodesSet | internal/placement/planner.go:442-449 | two worker lists have the same key exactly when they are the same set |
| PlanPaths.PathsTransitive | internal/placement/scoring.go:201-282 | the comparison by score, then by plan identity, is transitive |
| PlanPaths.PathsExtend | internal/placement/planner.go:371-407 | extending two equally long partial plans by the same stage keeps their order: the step that makes keeping only the best of a bucket sound |
| PlanPaths.TieIsEqual | internal/placement/scoring.go:236-282 | plans over the same options that compare equal are the same plan |
| PlanOptions.OptionsDetermined | internal/placement/planner.go:276-301 | a range and a worker have at most one option once duplicates are refused |
| PlanOptions.FoldExact | internal/placement/scoring.go:612-673 | an accumulated score is the exact unbounded sum, so no addition wrapped |
| PlanOptions.FoldFailsWhenTooLarge | internal/placement/scoring.go:612-673 | accumulation fails exactly when that sum does not fit 64 bits |
| CompletePlans.FeasiblePlanIsValid | internal/placement/planner.go:409-431 | every feasible path makes a plan that the builder accepts |
| CompletePlans.FullScoreAgrees | internal/placement/planner.go:409-431 | full scoring of a feasible path succeeds exactly when the incremental score does and gives exactly that evaluation |
| CompletePlans.EvaluationsCompareAsPaths | internal/placement/scoring.go:201-282 | comparing full evaluations is comparing the paths |
| CompletePlans.PartialsCompareAsPaths | internal/placement/planner.go:451-459 | comparing partial plans of one level is comparing the paths |
| PlanSearch.ExtendPartialPlan | internal/placement/planner.go:371-407 | appends one stage with its exact score, and fails only when some path of that length does not fit |
| PlanSearch.Retain | internal/placement/planner.go:156-197 | whatever path a bucket beat before it beats afterwards, and it beats the new candidate too |
| PlanSearch.ExpandRange | internal/placement/planner.go:156-197 | tries every option of the range that extends the state, within the operation limit |
| PlanSearch.ExpandLevel | internal/placement/planner.go:156-197 | tries every extension of every state of a level, or stops at the exact limit or at an overflow |
| PlanSearch.Exchange | internal/placement/planner.go:156-197 | whatever extends a path, extends the state that beats that path: dominated partial plans are never needed |
| PlanSearch.LevelComplete | internal/placement/planner.go:156-197 | after a level every path of that length is beaten by a kept state with the same boundary and worker set |
| PlanConstruction.SortRangesSorts | internal/placement/planner.go:270-275 | sorting orders the ranges and permutes them |
| PlanConstruction.ValidateRanges | internal/placement/planner.go:276-301 | comparing neighbours accepts exactly the lists without bad bounds or duplicate ranges |
| PlanConstruction.PreparePlanRange | internal/placement/planner.go:305-369 | the options of a range are exactly its eligible workers with their costs, and it fails only when some eligible worker cannot be scored |
| PlanConstruction.EvaluateCompletePlan | internal/placement/planner.go:409-431 | never fails on a path the search reaches: the builder accepts it and the rescoring cross-check agrees |
| PlanConstruction.SelectComplete | internal/placement/planner.go:202-218 | the kept plan is no worse than every complete state of the level and than what was kept before, and some plan is kept exactly when there was one or the level has a complete state |
| PlanConstruction.Search | internal/placement/planner.go:156-222 | stays within the operation limit and returns the optimum, or an error whose cause is real |
| PlanConstruction.ConstructPlan | internal/placement/planner.go:98-222 | without an error the selection is the unique minimum over all feasible plans, and absent exactly when there is none; errors have real causes, the cross-check error never occurs, and the operation count never exceeds its limit |
| PlanTheorems.SelectedIsPreferred | internal/placement/scoring.go:201-212 | brute force agrees: any feasible plan, scored in full, is the selected evaluation or compares after it |
| PlanTheorems.SelectedIsFeasible | internal/placement/planner.go:98-222 | the selection is the full score of a feasible plan |
| PlanTheorems.SelectionIgnoresOrder | internal/placement/planner.go:98-222 | permuting inventory workers or input ranges does not change the selection |
| PlannerAdmission.MatchingEvidencePasses | internal/mesh/scheduler.go:345-436 | evidence taken from the same inventory never fails an evidence check, and with nothing reserved the stage is admitted exactly when its status is numbered and its shard has room |
| PlannerAdmission.ConstructedPlanAdmitted | internal/mesh/scheduler.go:345-436 | a constructed plan always passes the evidence checks, and with nothing reserved is admitted exactly when the status of every stage admits it |
| PlannerAdmission.StatusAdmitsConstructed | internal/placement/eligibility.go:175-311 | eligibility already implies that status condition for numbered statuses, positive limits and compatible shards |
| MeshInputs.RegistryInventoryIsUsable | internal/registry/registry.go:231-303 | every inventory a registry run lists has usable worker IDs, nonnegative counters and positive limits |
| Scheduler.ObservationAfter | internal/mesh/scheduler.go:723-728 | the next number, or the one that no status reaches; never 0, which any status would pass |
| Scheduler.SequenceScheduler.ReconcileReservations | internal/mesh/scheduler.go:455-509 | visiting both maps in any order leaves exactly the entries that the snapshot does not settle |
| Scheduler.SequenceScheduler.Reserve | internal/mesh/scheduler.go:337-453 | the two passes reconcile, check every stage before charging any, and charge all or none |
| Scheduler.SequenceScheduler.FinishReservation | internal/mesh/scheduler.go:607-690 | releases each stage, leaving a poison and a pending charge exactly where cleanup is unconfirmed or a load may remain |
| Conservation.ChargeConserves | internal/mesh/scheduler.go:437-453 | charging a stage keeps every counter the exact sum over the records |
| Conservation.FinishConserves | internal/mesh/scheduler.go:607-690 | so does finishing a stage: its saturating subtractions never clamp |
| Conservation.ReconcileConserves | internal/mesh/scheduler.go:455-509 | so does reconciling |
| Conservation.ReservedMemory | internal/mesh/scheduler.go:692-707 | the reserved memory is the exact sum over active and pending records, and unavailable only when that sum does not fit a word |
| SchedulerSafety.StepKeeps | internal/mesh/scheduler.go:337-690 | every step of the transition system keeps the whole-run invariant |
| SchedulerTheorems.RunInvariant | internal/mesh/scheduler.go:337-690 | the invariant holds after every run |
| SchedulerTheorems.LedgerConserved | internal/mesh/scheduler.go:337-453 | in every reachable state each counter and byte total equals the exact sum over the admitted stages |
| SchedulerTheorems.QuarantineSound | internal/mesh/scheduler.go:455-488 | in every run, the sequences really open on a present instance's shard never exceed active plus poisoned entries, however late or out of order statuses arrive |
| SchedulerTheorems.LimitsHold | internal/mesh/scheduler.go:396-431 | with fixed limits, in every run, really open sequences, charged requests and reserved retained bytes stay within the shard and worker limits |
| SchedulerTheorems.ReservedNeverOverflows | internal/mesh/scheduler.go:692-714 | in every run the reserved memory of every worker can be added up without overflow |
| SchedulerTheorems.OnlyAdmissionCharges | internal/mesh/scheduler.go:337-690 | in every run only a successful admission raises the charged opens, requests, available bytes or retained bytes; finishing a reservation, and reconciling in a refused admission, never do |
| SchedulerTheorems.AdmissionMemory | internal/mesh/scheduler.go:396-431 | what an admission reads as free, reported minus reserved, is at most capacity minus all that is or may still be allocated |
| SchedulerTheorems.AdmissionReadsTrueFree | internal/mesh/scheduler.go:489-508 | that holds at the latest admission of every run whose charging readings, and this one, lag earlier readings by at most one number |
| SchedulerTheorems.NeverOvercommitted | internal/mesh/scheduler.go:641-682 | in every run whose charging admissions read statuses of a worker that lag by at most one number, the bytes really held on it never exceed its capacity |
| StaleStatuses.StaleStatusOvercommits | internal/mesh/scheduler.go:489-508 | for every two observation numbers at least two apart, a run of admissions of valid plans reads the later and then the earlier one and makes a worker of ten bytes hold thirteen |
| StaleStatuses.LagOfOneIsExact | internal/mesh/scheduler.go:489-508 | memory is safe in all runs whose charging readings lag by at most a given number exactly when that number is at most one |
| StaleStatuses.PlansAreValid | internal/generation/execution_plan.go:64-80 | the plans admitted in those runs are finalized plans that validation accepts |
| StaleStatuses.ListingIsValid | internal/registry/registry.go:231-275 | the worker listed in those runs is one that the registry accepts |
| NumberedCalls.SchedulerNumbersAgree | internal/workerproc/supervisor.go:104-112 | for every run of the supervisor there is a run of the scheduler's model in which the instance hands out the same numbers to the same calls, in the order of execution |
| WorkerService.PersistentShardService.OpenSequence | worker/mlx/Sources/MLXWorker/PersistentShardWorker.swift:638-661 | opens a new sequence, repeats idempotently for the same owner, and otherwise changes nothing |
| WorkerService.PersistentShardService.CloseSequence | worker/mlx/Sources/MLXWorker/PersistentShardWorker.swift:663-675 | removes the sequence unless it is absent or another owner's |
| WorkerService.PersistentShardService.ForwardRequest | worker/mlx/Sources/MLXWorker/PersistentShardWorker.swift:677-847 | guards, stage call, position advance, sampling and replay record, in the order they are written |
| WorkerService.RetainedWorkerBytes | worker/mlx/Sources/MLXWorker/PersistentShardWorker.swift:1053-1057 | folding in any order saturates to the exact sum capped at the largest integer |
| WorkerService.RetainedShardBytes | worker/mlx/Sources/MLXWorker/PersistentShardWorker.swift:1059-1063 | the same for one shard |
| WorkerRuns.RepeatIsReplayed | worker/mlx/Sources/MLXWorker/PersistentShardWorker.swift:692-702 | a repeat of the latest mutation changes nothing and answers with the recorded outcome |
| WorkerRuns.AnsweredIsLatest | worker/mlx/Sources/MLXWorker/PersistentShardWorker.swift:839-845 | an answered prefill or decode is the recorded latest mutation |
| WorkerRuns.LatestUntilMutated | worker/mlx/Sources/MLXWorker/PersistentShardWorker.swift:677-847 | it stays so until its sequence is closed, the worker shuts down, or another stage call runs on it |
| WorkerRuns.OnlyItsOwnSequence | worker/mlx/Sources/MLXWorker/PersistentShardWorker.swift:638-847 | a sequence changes only by its own close, a shutdown, or a stage call that names it |
| WorkerRuns.InsertedRepeatIsInvisible | worker/mlx/Sources/MLXWorker/PersistentShardWorker.swift:231-308 | in any trace, inserting a repeat of the latest mutation changes neither the final state nor any other response |
| WorkerHistory.AcceptedAdvances | worker/mlx/Sources/MLXWorker/PersistentShardWorker.swift:735-796 | an accepted mutation named the next position, the cache stood there before, and next position and cache advance together by the input |
| WorkerHistory.AcceptedMutationsAreConsecutive | worker/mlx/Sources/MLXWorker/PersistentShardWorker.swift:865-903 | in every trace accepted mutations are one prefill at 0 followed by consecutive one-position decodes |
| WorkerHistory.MutationsApplyExactlyOnce | worker/mlx/Sources/MLXWorker/PersistentShardWorker.swift:677-847 | in every trace the cache of an open sequence is an empty cache with each accepted mutation applied once, in order |
| WorkerHistory.FailureFreezes | worker/mlx/Sources/MLXWorker/PersistentShardWorker.swift:692-702 | after a recorded failure nothing changes the sequence until it is closed |
| WorkerBudget.GuardLeavesRoom | worker/mlx/Sources/MLXWorker/PersistentShardWorker.swift:905-939 | a request that runs left room for the estimates of its new cache and output |
| WorkerBudget.RetainedWithinBudget | worker/mlx/Sources/MLXWorker/PersistentShardWorker.swift:1053-1083 | a trace stays within the budget at every moment exactly when each interrupted stage call fits, and then no saturating sum saturates |
| WorkerBudget.CoveredWithinBudget | worker/mlx/Sources/MLXWorker/PersistentShardWorker.swift:905-939 | interruptions fit when the cache did not grow, or grew by no more than the estimates less the retained replay |
| WorkerBudget.ThrowsFitExactly | worker/mlx/Sources/MLXWorker/PersistentShardWorker.swift:905-939 | for a request that passed the guard, every stage that would throw within the estimated cache keeps the budget exactly when the other sequences, that estimate and the old replay record fit together |
| WorkerBudget.GrowingThrowExceedsBudget | worker/mlx/Sources/MLXWorker/PersistentShardWorker.swift:905-939 | a concrete trace with sound estimates retains 11 bytes on a budget of 10, because its last interruption is not covered |
| SequenceSets.OpenEffect | worker/mlx/Sources/MLXWorker/PersistentShardWorker.swift:638-661 | an open adds at most its own spot for its owner, and a rejected one adds nothing |
| SequenceSets.CloseEffect | worker/mlx/Sources/MLXWorker/PersistentShardWorker.swift:663-675 | a close that reached the worker leaves its spot free of this owner, whatever it answered |
| SequenceSets.OthersUntouched | worker/mlx/Sources/MLXWorker/PersistentShardWorker.swift:638-675 | no command closes or changes a sequence of another owner |
| SequenceSets.ForgottenIsDone | internal/workerproc/sequence.go:152-167 | the worker's words for a forgotten shard or sequence are recognized as a finished close |
| SequenceSets.ReverseInPlace | internal/workerproc/sequence.go:145-147 | swapping from both ends reverses the list |
| SequenceSets.ClosingKeeps | internal/workerproc/sequence.go:125-150 | closing drops only chosen entries and adds none |
| SequenceSets.SequenceSet.CloseUsing | internal/workerproc/sequence.go:125-150 | sends exactly one close for each chosen entry, from the last to the first; exactly the entries whose close is not known to be done stay, in order; success is reported exactly when no chosen entry stays; everything still held for the owner stays tracked |
| SequenceSets.SequenceSet.CloseSequence | internal/workerproc/sequence.go:97-102 | closes exactly the entries of one ID; on success no target holds that ID for the owner |
| SequenceSets.SequenceSet.Cleanup | internal/workerproc/sequence.go:114-123 | attempts every entry; succeeds exactly when none stays, and then no target holds any sequence for the owner |
| SequenceSets.ValidateArguments | internal/workerproc/sequence.go:41-64 | accepts exactly complete targets and distinct non-empty IDs |
| SequenceSets.OpenSequences | internal/workerproc/sequence.go:36-94 | sends the opens ID by ID and target by target, stops at the first without acknowledgement and rolls back; a nil set means that nothing is held for the owner, and a returned set tracks everything that may be |
| SequenceSets.WithSequences | internal/generation/planned_session.go:315-338 | cleanup is reported as confirmed exactly when the last cleanup left nothing, and then no target holds a sequence for the owner |
| Pipeline.GreedyToken | internal/generation/logits.go:12-39 | the scan returns the index of the first maximum of the last row, or nothing when the logits are malformed or the index does not fit |
| Pipeline.GreedyIsFirstMaximum | internal/generation/logits.go:21-34 | that index has the largest value and is the first with it |
| Pipeline.FoldSplits | internal/generation/execution_runtime.go:277-324 | running a range of layers is running its two halves in turn: cutting the model into stages changes nothing |
| Pipeline.StopsAtFirstEOSOrLimit | internal/generation/planned_session.go:450-458 | the decode stops at the first end-of-sequence token, or else exactly at the token limit |
| StageCalls.OpenedIsReady | worker/mlx/Sources/MLXWorker/PersistentShardWorker.swift:657-660 | a newly opened stage stands at position 0 with an empty cache |
| OpenedPipelines.OpenedPipelineIsReady | internal/generation/planned_session.go:315-338 | a successful open over the stages of a plan, with nothing else going on, leaves the pipeline ready for its prefill with the empty caches of all stages |
| StageCalls.PositionIsExpected | worker/mlx/Sources/MLXWorker/PersistentShardWorker.swift:865-886 | a request at the stage's own position is never refused for its position, phase, shard or sequence |
| StageCalls.SuccessfulCall | worker/mlx/Sources/MLXWorker/PersistentShardWorker.swift:735-847 | a successful call runs exactly the stage's layers on its caches, and leaves the stage ready for the next position |
| PlannedSession.ValidPlanTiles | internal/generation/execution_plan.go:130-253 | the bound stages of a valid plan tile the model on distinct shards, and only the last may sample |
| PlannedSession.BindExecutionTargets | internal/generation/execution_runtime.go:202-241 | succeeds exactly when the targets are complete, distinct and name the plan's targets, and binds each stage to its own target |
| PlannedSession.Cluster.Infer | internal/generation/generation.go:546-595 | an answer is what the worker returned, delivered, with the requested operation, position and form; everything else is a failure |
| PlannedSession.ExecuteBoundStageChain | internal/generation/execution_runtime.go:277-324 | one call per stage in order, each at the position its worker expects, up to the first failure; on success caches and answer are those of one pass through the whole model |
| PlannedSession.SampledToken | internal/generation/logits.go:41-55 | the carried token or the greedy one, and none exactly when neither is usable |
| PlannedSession.TokenTaken | internal/generation/planned_session.go:382-458 | taking a token is one round of the greedy decode of the whole model |
| PlannedSession.Generate | internal/generation/planned_session.go:340-503 | a successful run yields exactly the tokens, stop reason and caches of the greedy decode of the whole model, with one traversal per token at consecutive expected positions; a failed run stopped at a call without an answer or at an unusable answer |
| Series.FromNewest | internal/placement/profile.go:494-535 | expiry and the sample cap commute |
| Series.NewestInsert | internal/placement/profile.go:494-499 | a sample the cap dropped can never come back |
| Series.InsertAgrees | internal/placement/profile.go:200-208 | storing a sample keeps the stored series in agreement with the full log |
| Series.PruneAgrees | internal/placement/profile.go:349-367 | so does pruning |
| Distributions.NearestRankIsLeast | internal/placement/profile.go:592-598 | the least value that at least p percent of the samples do not exceed |
| Distributions.SummaryValid | internal/placement/scoring.go:488-505 | a summary is accepted exactly when it is not too long, not wrongly empty and without zeros |
| ProfileStoreObject.CurrentObservations | internal/placement/profile.go:501-535 | one pass keeps what has not expired and picks what is not after the snapshot time |
| ProfileStoreObject.RollingStore.PruneExpired | internal/placement/profile.go:349-367 | drops expired samples of every key, and empty keys |
| ProfileStoreObject.RollingStore.ObserveBatch | internal/placement/profile.go:216-268 | a batch is accepted whole or refused whole, with the source's checks in the source's order |
| ProfileStoreObject.RollingStore.CollectCurrent | internal/placement/profile.go:290-311 | one pass over the keys prunes them all and lists exactly those with fresh samples |
| ProfileStoreObject.RollingStore.Snapshot | internal/placement/profile.go:273-316 | refused exactly when the clock went back; otherwise lists exactly the keys with fresh samples, each once, with their summaries |
| ProfileTheorems.ObserveKeepsOK | internal/placement/profile.go:181-268 | caps, order and validity hold after every observation, accepted or refused |
| ProfileTheorems.StoreShowsNewestOfLog | internal/placement/profile.go:181-367 | in every run, from any cutoff at or after all earlier prunes, the stored samples are the newest K of everything accepted |
| ProfileTheorems.SnapshotMatchesLog | internal/placement/profile.go:273-316 | a snapshot at a time no earlier than any call before it is allowed, and is the one the full log would give |
| ProfileTheorems.SnapshotAcceptedIffFast | internal/placement/scoring.go:405-505 | a store snapshot passes the planner's validation exactly when no fresh transfer was slower than one byte per second |
| ProfileTheorems.RunSnapshotAcceptedIffFast | internal/placement/scoring.go:405-505 | over every run, in terms of the newest transfers of the full log |
| ScheduledSequences.Reservation.Finish | internal/mesh/scheduler.go:596-605 | releases once, with the first outcome |
| ScheduledSequences.ScheduledSequence.Generate | internal/mesh/scheduler.go:809-823 | runs at most once, and has released with its cleanup outcome when it returns |
| ScheduledSequences.ScheduledSequence.Close | internal/mesh/scheduler.go:828-848 | refused while running; otherwise the admission has been released exactly once |
| ScheduledSequences.ReleasedAtMostOnce | internal/mesh/scheduler.go:789-859 | in every interleaving of calls the release happens at most once, and has happened exactly when the sequence is over and no call still holds it |
| ScheduledSequences.ReleasedWhenTakerReturns | internal/mesh/scheduler.go:809-859 | the call that took the reservation releases it, once, before it returns |
| ScheduledSequences.CloseThatFindsItOver | internal/mesh/scheduler.go:828-848 | a Close that finds the sequence over succeeds at once; the admission is released by then exactly when no other call holds it |
| ScheduledSequences.CloseCanReturnBeforeRelease | internal/mesh/scheduler.go:828-848 | of two racing Close calls the second can succeed before the release |
| Leases.RunKeepsUnique | internal/registry/registry.go:63-229 | in every run with any clock, no two IDs share an instance or an endpoint |
| Leases.LeaseOwnership | internal/registry/registry.go:63-196 | in one call an ID changes instance only by a registration after expiry, and disappears only by expiry or by removal with its own instance |
| Leases.InstanceChangeEnclosesEnd | internal/registry/registry.go:63-229 | in every run, between two moments at which an ID has different instances some call found the first lease expired or removed it in its own name |
| Leases.RevisionIdentifiesInventory | internal/registry/registry.go:198-229 | the revision never decreases, and equal revisions mean equal registrations, also modulo 2^64 when fewer than 2^63 calls lie between |
| Leases.RenewalMemory | internal/registry/registry.go:63-170 | from an empty registry every listed worker always keeps available memory within physical memory exactly as long as each renewal that keeps an old status finds one that fits |
| Leases.ShrunkRenewalBreaksMemory | internal/registry/registry.go:85-108 | a worker that renews with less memory and its old status is listed with more available than it has |
| Registry.WorkerRegistry.ExpireLocked | internal/registry/registry.go:218-229 | removes exactly the expired leases and moves the revision once if there were any |
| Registry.WorkerRegistry.Conflict | internal/registry/registry.go:74-84 | the scan in any order refuses exactly when another ID has the instance or the endpoint |
| Registry.WorkerRegistry.Register | internal/registry/registry.go:63-124 | creates, renews or replaces a lease exactly as the value model whose runs are proved above |
| Registry.WorkerRegistry.Heartbeat | internal/registry/registry.go:126-170 | likewise for heartbeats |
| Registry.WorkerRegistry.Remove | internal/registry/registry.go:172-196 | likewise for removal |
| Registry.WorkerRegistry.Snapshot | internal/registry/registry.go:198-216 | lists each live lease exactly once |
| Supervisor.PersistentSupervisor.Restart | internal/workerproc/supervisor.go:176-209 | replaces exactly the failed process, counts each replacement, and refuses after shutdown |
| Supervisor.PersistentSupervisor.Call | internal/workerproc/supervisor.go:48-112 | hands out the next number exactly when the caller gets an answer, restarts exactly after a breaking failure, and repeats only health and state calls |
| Supervisor.CallIsARun | internal/workerproc/supervisor.go:48-112 | a call of the object is a run of the interleaving model with the same numbers, process and restarts |
| Supervisor.NumbersFollowExecution | internal/workerproc/supervisor.go:48-112 | in every interleaving of callers, cancellations and restarts, numbers strictly increase in the order in which the answered requests were executed |
| Supervisor.StateReflectsEarlierCalls | internal/workerproc/supervisor.go:104-112 | a numbered state reflects every earlier numbered call of the same process |
| PlanBuilders.SharesAreEven | internal/generation/execution_plan.go:100-124 | balanced shares add up to the total and differ by at most one, larger first |
| PlanBuilders.SizesMakeValidPlan | internal/generation/execution_plan.go:86-126 | positive sizes that add up to the model make a valid plan exactly when model, targets and terminal mode are usable |
| PlanBuilders.BuildBalancedExecutionPlan | internal/generation/execution_plan.go:86-126 | succeeds exactly for distinct non-empty targets, no more than layers, on a complete model, and gives each target its balanced share |
| PlanBuilders.FillSizes | internal/scaleproof/plan.go:32-42 | in machine integers, the in-place fill and the two edge subtractions give the reserved sizes when the virtual layer count fits, and leave the first stage without a layer when it wraps |
| PlanBuilders.ReservesCancel | internal/scaleproof/plan.go:32-42 | the reserves cancel exactly in the total |
| PlanBuilders.OwnershipAwarePlan | internal/scaleproof/plan.go:12-68 | in machine integers, succeeds exactly when the virtual layer count does not wrap, every size after the reserve is positive, and model and targets are usable; then every stage has exactly its size |

## Left out

Not modelled:

- HTTP handlers and clients, JSON framing, processes, pipes, signals and everything under `cmd/`: input and output only.
- MLX kernels, checkpoint loading, quantization and tokenizers: layers, embedding and head are uninterpreted functions.
- SHA-256 and the JSON encoding of revisions: a digest is the plain text of the fields it covers; no result needs digests to be injective.
- Random owner IDs: an owner is any ID that no worker holds when the sequences are opened.
- Clocks, deadlines and durations: times are integers; duration overflow, millisecond rounding and per-call timeouts are not modelled, an expired deadline is one of the outcomes of a call, and a generation cancelled between two calls is not distinguished from one whose next call gets no answer.
- Floating-point logits: ordered integers without NaN, and the device takes the lowest index on ties; the two error branches for NaN and negative tokens are an outcome of the stage call.
- Trimming, URL canonicalization and defaulted text fields: inputs are already normalized.
- Runtime, system and device strings of capabilities: copied, never decided on.
- The order inside a level, of a snapshot's profiles and of a candidate list: loops take any order, and results do not depend on it.
- The name of the reused shard and the wording of rejections in a candidate: reporting only.
- Search statistics other than the operation count, and the per-range evidence returned beside the selection: reporting only.
- Timing, observers, reference verification and detokenizing in the generation loop: measurement or libraries; without a reference the loop does the same.
- Remaining counters as machine integers: restart and forward counts are unbounded.

Assumptions of the scheduler's runs, each the guard of a step in `SchedulerRuns.Enabled` or a requires of the theorem: an instance that left the inventory never returns; admissions use snapshots in nondecreasing order; loads and sequences use at most their estimates and only this scheduler allocates; an unacknowledged request has been applied or not by the time the call returns; a numbered status shows what the worker held at that call, with the numbering that `NumberedCalls.SchedulerNumbersAgree` derives from the supervisor; observation numbers stay below 2^64-1.

Contracts that carry an assumption or say less than one might hope:

- SchedulerTheorems.QuarantineSound: needs the instance never to have been missing from a snapshot, because absence clears quarantine.
- SchedulerTheorems.AdmissionReadsTrueFree: needs readings that lag earlier ones by at most one number; LagOfOneIsExact shows that no more can be allowed.
- SchedulerTheorems.NeverOvercommitted: needs the same of the readings that charge the worker.
- StaleStatuses.LagOfOneIsExact: exact in the largest lag of a run; a run that lags further can still be safe when no allocation falls between the two numbers.
- SchedulerTheorems.LimitsHold: needs an instance's limits to stay the same in all snapshots.
- Leases.RevisionIdentifiesInventory: two published revisions 2^63 or more calls apart can coincide, since they wrap at 2^64.
- WorkerBudget.RetainedWithinBudget: needs estimates that bound the cache and output of a call that returns at the right position.
- WorkerHistory.MutationsApplyExactlyOnce: needs a throwing stage call to leave the cache alone, since a partial effect is not an accepted mutation.
- OpenedPipelines.OpenedPipelineIsReady: needs that no restart or other client changes the fleet between the opens.
- PlannedSession.Generate: starts from sequences just opened on stages that run their slice of one model and keep the number of positions; concurrent restarts appear as calls without an answer.
- PlanConstruction.ConstructPlan: an overflow error is shown to have a cause, not to occur whenever some feasible plan overflows, since the search may never reach that plan.
- PlanConstruction.SelectComplete: visits states in any order instead of sorted.
- Supervisor.PersistentSupervisor.Call: what the process answers is a parameter; interleavings are in the transition system it is tied to.
- ProfileStoreObject.RollingStore.Snapshot: profiles are listed in any order instead of sorted.
- WideArithmetic.BytesPerSecond: needs a nonzero elapsed time, which the store's checks ensure.
