# Verified models of the orchestrator's concurrent core

This project states and proves what the parts of the orchestrator that are hardest to get right by
reading do: admission of work over several repositories, the revalidation planner, release batches,
the runtime cache, recovery of orphaned runs, resuming a run, and three exact specifications (config
edits, the bounded cache, the scope classifier).

Code that changes fields is a class here, with one method for every piece of code between two awaits.
Each such method is proved equal to a step of a transition system on values, and the properties are
lemmas over all sequences of steps. Loops stay loops with invariants. Pure code is functions.

| file | component |
|---|---|
| `FairScheduler.dfy` | admission protocol: capacity, per-repository caps, stop and drain, bounded bypass |
| `RepoPaths.dfy`, `PackageGraph.dfy`, `RevalidationPlan.dfy` | planner: ownership by directory, cycle detection, closure, ordering |
| `ReleaseBatch.dfy`, `ReleaseCoordinator.dfy` | release items, the store, and the coordinator that can be cut between any two writes |
| `RuntimeFactory.dfy` | runtime caches, stale marking, reaper, single-flight builds |
| `RunRecords.dfy`, `OrphanSweep.dfy`, `ResumeRun.dfy` | compare-and-set, lease and rollback protocols over runs, jobs and leases |
| `ConfigEdit.dfy`, `LruCache.dfy`, `TaskScope.dfy` | additive config edits, the least-recently-used map, the scope classifier |
| `Prelude.dfy`, `Sequences.dfy` | `Option`, `Min`, `Max`; lists as sets and the stable sort |

`dafny verify dfyconfig.toml` checks everything.

## Main results

- **Scheduler.** In every interleaving of calls, settlements and stops: `claimedSlots` is exactly the
  commits of unfinished calls plus their held claims; reservations plus held claims fit the pool, and
  so do the commits of unfinished calls. The tempting bound `inFlight + claimedSlots <= G` is false,
  with a witness and the bound that does hold. Sequence numbers stay distinct and below the cap, so no
  reservation is overwritten or removed by another's settlement. A reservation is added exactly for a
  repository with queued work whose active runs and reservations are below its limit and the pool. In
  the sequential loop over n repositories an always eligible one sees at most n - 1 admissions of others.
- **Planner.** The counting loop answers cyclic exactly when the graph has a cycle. A narrow plan is
  the seed and its transitive dependents, once each, dependencies first, the lexicographically least
  such list, whatever the order of the input. Each of the eleven refusals has its exact condition.
- **Release batches.** Whatever the coordinator, the workers and a crash between any two writes do,
  a run has one live job, merged items form a prefix, no later item and no run of one starts on the
  starting commit, the run of an admitted item starts on the item's base, and the mutual recursion of reconciling and certifying ends, all at any clock. One release run per
  item rests on the clock: the first release run of an issue stays the only one exactly when it starts
  later than the stored runs of the issue. With git, GitHub and maintenance answering, an uncut call
  finishes an admission that earlier calls left undone, on the fetched head when git answers with one,
  and certifies a merged pull request.
- **Runtime cache.** Stale entries are listed and have a reap coming; a reap removes only entries
  nobody builds, free of a lease or ten minutes stale, with the exact fate of each visited entry;
  operational builds are single-flight and each waiting call gets the outcome of its own build; a
  cached answer is the runtime last built for its key, and the lease hooks mark exactly by the lease. For
  execution runtimes single flight is false; it holds exactly for runs in which no placeholder is
  stored during a build of its key.
- **Orphans and resume.** A tick leaves no run failed that was not, holds no lease afterwards and
  gives a run a job only if it had none; an orphan waits for a human exactly as its latest phase ended;
  over any number of ticks a run has at most one active job from sweeping. A resume gives exactly the
  reason that is the case, succeeds exactly when none is, and otherwise gives back run, steps and leases; the two exceptions (an empty current phase, a new phase row) have exact conditions.
- **Specifications.** Accepted config edits are a strict partial order decided by a greedy scan; the
  cache holds the most recently used keys with their last values; every changed path is in exactly
  one bucket, independent of the order and repetition of the candidates but for ties in the locale.

## Assumptions

- Scheduler: the worker id factory does not throw, and for the result about settlements its ids are
  injective in repository and number; dispatching returns a promise; repository ids have one total
  order. The point between two loop iterations is an extra interleaving point.
- Planner: `localeCompare` on safe names is a strict total order, given as a parameter. The safe-name
  patterns are written out as predicates on characters.
- Release batches: nobody else starts runs for the batch's issues, sets the start commit of a run or
  enqueues a second live job. Calls
  do not overlap and nobody else writes the batch while one is under way, because the code writes back
  the batch it read before an await; runs and jobs may change at every await, and remediation items
  may be appended between calls. Answers of git, GitHub and
  maintenance are arbitrary. For one release run per item the coordinator's clock is later than the
  start of old runs of those issues.
- Runtime cache: no `close()`; fingerprints are non-empty; the execution key is the pair of
  repository and fingerprint. Lease answers, clocks and iteration orders are arbitrary.
- Orphans and resume: the run, job and lease tables work and nobody writes during a tick or a call;
  between ticks anything may happen except making or reviving a sweep job. Lease conflicts, lease
  errors, publish and enqueue failures, clocks and process checks are arbitrary. Stored revert counts
  are already normalised. A compare-and-set cannot miss in a resume, so that error is absent.
- Cache lookup: the repository of a stored run never changes.
- Scope classifier: the artifact patterns and the caller's protection test are arbitrary functions,
  the code-unit order any strict total order and `localeCompare` any order that may have ties.

Where documentation and code differ the code is followed: the restore methods of the sweeper are
described as restoring the earlier status, and they also clear the current phase and failure reason;
`execute` of the resume use case proceeds without a lease when another worker holds it.

## Model

| member | source | states |
|---|---|---|
| `FairScheduler.CapacityTheorem` | packages/application/src/fair-repository-scheduler.ts:58-211 | in every interleaving, with any listings and any worker ids, the counter is commits of unfinished calls plus held claims, and reservations plus held claims, and commits of unfinished calls, are at most globalConcurrency |
| `FairScheduler.DoubleCountTheorem` | packages/application/src/fair-repository-scheduler.ts:58-76 | reservations plus claimedSlots exceed the pool by at most the commits of unfinished calls, and not at all when there are none |
| `FairScheduler.CommittedClaimCountsTwice` | packages/application/src/fair-repository-scheduler.ts:58-76 | a concrete run in which they do exceed it |
| `FairScheduler.RunKeepsCapacity` | packages/application/src/fair-repository-scheduler.ts:84-257 | the capacity invariant holds after any sequence of events |
| `FairScheduler.RunKeepsCaps` | packages/application/src/fair-repository-scheduler.ts:150-186 | reservations stay under the worker id of their repository and number, with numbers below the cap, after any events whose listings respect a bound |
| `FairScheduler.RunKeepsPairs` | packages/application/src/fair-repository-scheduler.ts:150-211 | with injective worker ids reservations and unsettled dispatches stay in one-to-one correspondence |
| `FairScheduler.PerRepositoryTheorem` | packages/application/src/fair-repository-scheduler.ts:150-186 | though limits may change between listings, a repository has at most min(largest limit listed, globalConcurrency) reservations, numbered distinctly and below that |
| `FairScheduler.LowestFreeBelowCount` | packages/application/src/fair-repository-scheduler.ts:334-342 | pigeonhole: the lowest free number is at most the number of reservations |
| `FairScheduler.OwnSettlementOnly` | packages/application/src/fair-repository-scheduler.ts:150-211 | any event other than a reservation's own settlement leaves it in place and unchanged but for its abort flag |
| `FairScheduler.AdmissionTheorem` | packages/application/src/fair-repository-scheduler.ts:136-186 | in every interleaving an event adds a reservation exactly when it is the answer to an unstopped call about a repository with queued work whose active runs and own reservations are both below its limit and the pool; any other event keeps all reservations but the one whose dispatch settles |
| `FairScheduler.AddedReservation` | packages/application/src/fair-repository-scheduler.ts:164-200 | an addition is one unaborted reservation under the worker id of the repository and its least free number, with a new dispatch, the cursor on that repository and one more commit for the call |
| `FairScheduler.SkipsOrEnds` | packages/application/src/fair-repository-scheduler.ts:136-166 | an answer that adds nothing gives its claim back: a stopped call ends with its commits given back, any other turns to the next repository |
| `FairScheduler.ClaimsExactly` | packages/application/src/fair-repository-scheduler.ts:114-134 | a call goes on to inspect exactly when a repository is left, it is not aborted and reservations plus claims leave room; otherwise it ends and gives back its commits |
| `FairScheduler.StartsExactly` | packages/application/src/fair-repository-scheduler.ts:84-113 | a new call is over at once exactly when it is aborted, stopped or lists nothing; otherwise it visits a permutation of the listed repositories in id order from the cursor's start |
| `FairScheduler.StoppedRun` | packages/application/src/fair-repository-scheduler.ts:136-141 | after a stop no event adds or changes a reservation |
| `FairScheduler.StopTheorem` | packages/application/src/fair-repository-scheduler.ts:250-257 | after stopAdmission, whatever happened before, every reservation still in flight, now or later, is aborted and was there before |
| `FairScheduler.DrainedIsFinal` | packages/application/src/fair-repository-scheduler.ts:259-284 | a drained answer in a stopped scheduler holds in that state and on every continuation |
| `FairScheduler.DrainAnswers` | packages/application/src/fair-repository-scheduler.ts:259-284 | drained exactly when nothing is in flight, timed out exactly when something is and the time is over, and then with exactly what is in flight |
| `FairScheduler.SortIsCanonical` | packages/application/src/fair-repository-scheduler.ts:108-113 | distinct ids sort to one list, whatever order they are listed in and whatever limits are listed with them |
| `FairScheduler.StartAfter` | packages/application/src/fair-repository-scheduler.ts:307-317 | after admitting index k the next call starts at k + 1, cyclically |
| `FairScheduler.StartExactly` | packages/application/src/fair-repository-scheduler.ts:307-317 | the start is the one index that is 0 without a cursor, the cyclic successor of a listed cursor, and for a cursor that is gone the first greater id or else 0 |
| `FairScheduler.LoopStep` | packages/application/src/fair-repository-scheduler.ts:114-200 | each admission of another repository shortens the cyclic distance to a waiting eligible one, and nothing lengthens it |
| `FairScheduler.BypassBudget` | packages/application/src/fair-repository-scheduler.ts:213-248 | admissions before its own are at most the cyclic distance, with limits free to change between calls |
| `FairScheduler.BoundedBypass` | packages/application/src/fair-repository-scheduler.ts:213-248 | an always eligible repository among n fixed ids is passed over at most n - 1 times, with limits free to change between calls |
| `FairScheduler.FairRepositoryScheduler.CountReservedForRepo` | packages/application/src/fair-repository-scheduler.ts:319-325 | the loop counts exactly the repository's reservations |
| `FairScheduler.FairRepositoryScheduler.GetNextSeq` | packages/application/src/fair-repository-scheduler.ts:334-342 | the loop returns the least unused number and ends |
| `FairScheduler.FairRepositoryScheduler.FindStartIndex` | packages/application/src/fair-repository-scheduler.ts:307-317 | the two searches end at 0 without a cursor, at the cursor's cyclic successor, or, when the cursor is gone, at the first greater id and at 0 when there is none |
| `FairScheduler.FairRepositoryScheduler.Start` | packages/application/src/fair-repository-scheduler.ts:84-111 | the code before the loop is the start event, which `StartsExactly` spells out |
| `FairScheduler.FairRepositoryScheduler.Claim` | packages/application/src/fair-repository-scheduler.ts:114-134 | the top of an iteration is the claim event, which `ClaimsExactly` spells out |
| `FairScheduler.FairRepositoryScheduler.Inspected` | packages/application/src/fair-repository-scheduler.ts:136-211 | the code after the await stops, skips or commits, as the inspection event does; `AdmissionTheorem`, `AddedReservation` and `SkipsOrEnds` say when and with what |
| `FairScheduler.FairRepositoryScheduler.Stop` | packages/application/src/fair-repository-scheduler.ts:250-257 | the loop aborts every reservation once |
| `RepoPaths.NormalizeRepoRelativePath` | packages/application/src/revalidation-plan.ts:57-87 | the stripping and stack loops compute the segment resolution, and refuse exactly empty, absolute and escaping paths |
| `RepoPaths.NormalizeIsPlain` | packages/application/src/revalidation-plan.ts:57-87 | a normal path consists of plain segments and they are the resolved ones |
| `RepoPaths.NormalizeExactly` | packages/application/src/revalidation-plan.ts:57-87 | backslashes count as slashes, and a path is refused exactly when it is blank, absolute, on a drive, climbs out or ends at the root |
| `RepoPaths.TrimExactly` | packages/application/src/revalidation-plan.ts:58-61 | trimming removes the outer white space and nothing else |
| `RepoPaths.ResolveLaws` | packages/application/src/revalidation-plan.ts:70-82 | one segment: plain is pushed, two dots take one away or fail at the root, a dot and an empty one do nothing |
| `RepoPaths.ResolveConcat` | packages/application/src/revalidation-plan.ts:70-82 | resolution goes through a path piece by piece, so the laws of one segment fix it |
| `RepoPaths.PlainPathIsNormal` | packages/application/src/revalidation-plan.ts:57-87 | a path of plain segments is its own normal form |
| `RepoPaths.DotSlashIsNeutral` | packages/application/src/revalidation-plan.ts:57-87 | stripping a leading `./` does not change what a path resolves to |
| `RepoPaths.WithinIsSegmentPrefix` | packages/application/src/revalidation-plan.ts:376-412 | the string test is exactly "the directory's segments begin the path's segments" |
| `RepoPaths.LongerIsDeeper` | packages/application/src/revalidation-plan.ts:376-412 | of two directories holding a path the longer string is strictly deeper |
| `RepoPaths.LongestIsOwner` | packages/application/src/revalidation-plan.ts:376-412 | with distinct directories the longest match is the deepest |
| `RepoPaths.OwnerIsUnique` | packages/application/src/revalidation-plan.ts:376-412 | a path has one owner |
| `RepoPaths.FindOwner` | packages/application/src/revalidation-plan.ts:376-412 | sort and scan find the deepest directory that is a segment prefix, or there is none |
| `PackageGraph.DirectDependents` | packages/application/src/revalidation-plan.ts:328-342 | the reverse edges are exactly the dependents |
| `PackageGraph.HasCycle` | packages/application/src/revalidation-plan.ts:344-374 | the counting loop answers true exactly when the graph has a cycle |
| `PackageGraph.StuckHasCycle` | packages/application/src/revalidation-plan.ts:344-374 | packages that all wait for each other contain a cycle |
| `PackageGraph.OrderedHasNoCycle` | packages/application/src/revalidation-plan.ts:344-374 | a full list with dependencies first excludes cycles |
| `PackageGraph.DependentClosure` | packages/application/src/revalidation-plan.ts:419-436 | the search finds exactly the packages with a dependency path to the seed |
| `PackageGraph.TopoSort` | packages/application/src/revalidation-plan.ts:438-478 | the sorted-queue loop takes the least ready package each time |
| `PackageGraph.TopoIsTopological` | packages/application/src/revalidation-plan.ts:438-478 | without cycles the result lists every package once, dependencies first |
| `PackageGraph.TopoIsLexLeast` | packages/application/src/revalidation-plan.ts:438-478 | it is the name-least of all topological lists |
| `PackageGraph.OnlySeedIsReady` | packages/application/src/revalidation-plan.ts:438-460 | in the closure only the seed has no dependency, so it comes first |
| `RevalidationPlan.ValidateDescriptors` | packages/application/src/revalidation-plan.ts:300-326 | the loop reports the first fault in list order, or builds the two maps |
| `RevalidationPlan.NoFaultIsWellFormed` | packages/application/src/revalidation-plan.ts:300-326 | it reports none exactly when all descriptors are sound and names and normal directories are pairwise distinct |
| `RevalidationPlan.MatchPackages` | packages/application/src/revalidation-plan.ts:376-412 | it collects exactly the owners of the changed paths, and gives up exactly when one has none |
| `RevalidationPlan.PlanScope` | packages/application/src/revalidation-plan.ts:252-478 | the scope is what the specification on sets and graphs says, every refusal included |
| `RevalidationPlan.NarrowPlanTheorem` | packages/application/src/revalidation-plan.ts:419-478 | a narrow plan is duplicate-free, is the seed and its transitive dependents, seed first, dependencies first, name-least |
| `RevalidationPlan.NarrowOwnerTheorem` | packages/application/src/revalidation-plan.ts:376-412 | the changed package is the deepest owner of every changed path |
| `RevalidationPlan.CyclicExactly` | packages/application/src/revalidation-plan.ts:328-374 | cyclic_dependency is answered exactly when the earlier checks pass and the graph has a cycle |
| `RevalidationPlan.ReasonExactly` | packages/application/src/revalidation-plan.ts:270-417 | each of the eleven reasons is answered exactly in its own situation: pr_ready to empty_changed_files by the request, invalid_descriptor and ambiguous_ownership by the first faulty descriptor, then an unlisted dependency, a cycle, a path nobody owns, no common owner, and `@ai-sdlc/shared` or `@ai-sdlc/domain` as the owner |
| `RevalidationPlan.NarrowExactly` | packages/application/src/revalidation-plan.ts:270-478 | the plan is narrow for a package exactly when all of these checks pass and that package, not one of the two upstream ones, owns every changed path |
| `RevalidationPlan.FaultIff` | packages/application/src/revalidation-plan.ts:304-326 | the first faulty descriptor is broken, or repeats a name or normal directory of an earlier one; there is none exactly when all are sound and distinct |
| `RevalidationPlan.NarrowPlanIgnoresOrder` | packages/application/src/revalidation-plan.ts:300-478 | permuting descriptors, dependency lists or changed paths does not change a narrow plan |
| `ReleaseBatch.SaveKeepsSequence` | packages/domain/src/release-batch.ts:387-719 | an accepted transition keeps merged items a prefix with at most one other non-pending item exactly when it does not block an item behind an unmerged one |
| `ReleaseBatch.SaveKeepsBases` | packages/domain/src/release-batch.ts:387-475 | an accepted transition keeps later items off the starting commit exactly when it does not admit one on it |
| `ReleaseBatch.EventKeepsInv` | packages/application/src/release-batch-coordinator.ts:285-1478 | every write, of the coordinator or of others and at any clock, keeps the store invariant, which includes that a pending item has no run or base and that no later item's run starts on sourceStartSha |
| `ReleaseBatch.EventKeepsBased` | packages/application/src/release-batch-coordinator.ts:1404-1429 | that every item that is not pending has a run which starts on the item's base is kept by a write exactly when it is neither an admission on another commit than the run's nor a block of an item without a run |
| `ReleaseBatch.SaveChanges` | packages/domain/src/release-batch.ts:387-719 | what each transition does to its item and to status, reason and position of the batch, and that it leaves every other item alone |
| `ReleaseBatch.EventKeepsNewest` | packages/application/src/release-batch-coordinator.ts:1346-1400 | a write keeps one release run for an issue of the batch if a run inserted for that issue is later than the stored ones |
| `ReleaseBatch.AppendKeepsCore` | packages/domain/src/release-batch.ts:870-931 | remediation items appended after a failed test keep sequence, bases, attachment, distinct issues and runs, and one live job |
| `ReleaseBatch.ReleaseSafety` | packages/application/src/release-batch-coordinator.ts:285-1231 | after any legal writes at any clock: items point at release runs of their issues, one live job per run, merged prefix, no later item and no run of one on sourceStartSha |
| `ReleaseBatch.OneRunTheorem` | packages/application/src/release-batch-coordinator.ts:1334-1449 | an item whose own insertions are timely never gets a second run on the release branch, and the search finds the run it points at |
| `ReleaseBatch.SecondRunExactly` | packages/application/src/release-batch-coordinator.ts:1334-1400 | after the first release run of an issue is inserted, no legal continuation at any clock gives it a second exactly when that run is later than all stored runs of the issue |
| `ReleaseBatch.UntimelyMakesTwo` | packages/application/src/release-batch-coordinator.ts:1334-1400 | after an untimely insertion, ending that run and inserting again is a legal continuation with two release runs |
| `ReleaseBatch.NewestIsFound` | packages/application/src/release-batch-coordinator.ts:1334-1344 | a newest release run is the one the search returns |
| `ReleaseBatch.FoundAgainIffLater` | packages/infrastructure/src/sqlite/run-repository.ts:308-321 | a stored run is found again exactly when it started later than all earlier runs of its issue |
| `ReleaseBatch.ClockTieMakesTwo` | packages/application/src/release-batch-coordinator.ts:1334-1344 | a concrete new batch and run of writes, with an old run at the same time, after which its item has two release runs |
| `ReleaseCoordinator.MergeLowersCount` | packages/application/src/release-batch-coordinator.ts:1233-1294 | a merge lowers the number of unmerged items by one |
| `ReleaseCoordinator.NoMatchIsLater` | packages/application/src/release-batch-coordinator.ts:1346-1449 | when the search finds no run, a clock later than the old runs is later than every run of the issue |
| `ReleaseCoordinator.AdmissionIsAllowed` | packages/application/src/release-batch-coordinator.ts:1410-1429 | the domain accepts the admission of the first unmerged item with a release run of its issue |
| `ReleaseCoordinator.AdmissionBaseExactly` | packages/application/src/release-batch-coordinator.ts:825-860 | the base of an admission is the fetched head when git answers with one, otherwise the stored base, otherwise the prior item's merged commit or for the first item the start; a later item has none after a failed fetch and may not use the start |
| `ReleaseCoordinator.ClearsExactly` | packages/application/src/release-batch-coordinator.ts:654-768 | a blocked batch clears exactly when maintenance is healthy again, or the fetched head or prior merged commit is known and not the start |
| `ReleaseCoordinator.RunStateTable` | packages/application/src/release-batch-coordinator.ts:982-1206 | what the item shows for each run status, reason by reason |
| `ReleaseCoordinator.PrTable` | packages/application/src/release-batch-coordinator.ts:1510-1737 | what the item shows for each answer about its pull request, reason by reason, and the commit a merge is certified with |
| `ReleaseCoordinator.PrLifts` | packages/application/src/release-batch-coordinator.ts:1510-1737 | a pull request without problems lifts a block for failed checks, missing auto-merge or a wrong base and no other |
| `ReleaseCoordinator.Coordinator.EnsureJobEnqueued` | packages/application/src/release-batch-coordinator.ts:1451-1478 | it enqueues only when no live job exists, and afterwards one does unless the process was cut |
| `ReleaseCoordinator.Coordinator.ClaimRun` | packages/application/src/release-batch-coordinator.ts:1346-1400 | it reuses the stored run and inserts only when there is none |
| `ReleaseCoordinator.Coordinator.AdmitSuccessor` | packages/application/src/release-batch-coordinator.ts:1346-1449 | cut anywhere it leaves a legal store; completed, the item is active with its earlier run if it had one and a live job, and item and run have the same base: the given one, else the stored one, else the prior merged commit or the start; with four writes left, a timely clock, a usable base and no other active run of the issue it completes |
| `ReleaseCoordinator.Coordinator.ReconcilePending` | packages/application/src/release-batch-coordinator.ts:640-894 | legal writes only and nothing merged; the item stays pending or is admitted, run and all, on the fetched head when git answers with one and otherwise on the stored or prior merged commit; timely and uncut it finishes the admission when a blocker has cleared, maintenance is healthy where asked, that base is usable, and a run of the issue is stored or none exists; an ill environment or an unusable base blocks the batch with its reason |
| `ReleaseCoordinator.Coordinator.TryUnblockBatch` | packages/application/src/release-batch-coordinator.ts:654-768 | a blocked batch builds again exactly when its environment or base-commit blocker has cleared |
| `ReleaseCoordinator.Coordinator.ReconcileUnassigned` | packages/application/src/release-batch-coordinator.ts:896-968 | legal writes only; a stored run is adopted and the item active with it on the stored base, without one the admission is repeated and finished with item and run on the base of the call, and an unusable base blocks the batch |
| `ReleaseCoordinator.Coordinator.ReconcileRunState` | packages/application/src/release-batch-coordinator.ts:982-1206 | legal writes only; a stopped run blocks the item for its reason, any other lifts such a block, a waiting run with a pull request makes the item wait for the merge, and a queued or running one has a job |
| `ReleaseCoordinator.Coordinator.ReconcileOpen` | packages/application/src/release-batch-coordinator.ts:970-1231 | the same for the current item alone; an item whose run failed or was cancelled is not merged by the call |
| `ReleaseCoordinator.Coordinator.HealMergedRuns` | packages/application/src/release-batch-coordinator.ts:342-354 | unless it is cut, every run of a merged item has passed afterwards, and nothing else about the runs differs |
| `ReleaseCoordinator.Coordinator.CheckPrMerge` | packages/application/src/release-batch-coordinator.ts:1510-1737 | legal writes only, and it ends; each problem of the pull request blocks the item for its reason, a problem that is gone lifts its block, a merge is certified with the fetched or reported commit, an open one is waited for |
| `ReleaseCoordinator.Coordinator.CertifyItemMerged` | packages/application/src/release-batch-coordinator.ts:1233-1294 | an accepted certification that survives its write leaves the item merged with that commit, through the recursion into reconcile, which ends because the unmerged count falls |
| `ReleaseCoordinator.Coordinator.Reconcile` | packages/application/src/release-batch-coordinator.ts:285-1231 | any call at any clock with any answers, cut anywhere, is a sequence of legal writes that keeps merged items and their commits and that runs of admitted items start on their bases; a pending item stays so or is admitted on the base of the call; uncut it finishes the admission of a pending item and certifies a merged pull request when nothing stands against it |
| `ReleaseCoordinator.Coordinator.ReconcileUntilCut` | packages/application/src/release-batch-coordinator.ts:285-1231 | after a call cut at any write the store invariant holds, at a timely clock with one release run per item, runs of admitted items still start on their bases, and a pending item is pending or admitted on the base of the call; and from whatever earlier calls left, an uncut call finishes the admission or certifies the merge of the current item |
| `ReleaseCoordinator.Coordinator.AppendRemediation` | packages/domain/src/release-batch.ts:870-931 | items appended between two calls leave a store the next call may start from |
| `RuntimeFactory.StaleTheorem` | apps/api/src/repository-runtime-factory.ts:129-161 | in every reachable state a stale entry is in its stale set and a non-empty stale set has a reap scheduled |
| `RuntimeFactory.RunKeeps` | apps/api/src/repository-runtime-factory.ts:129-487 | the stale, reap and build invariants hold after any sequence of events |
| `RuntimeFactory.ReapTheorem` | apps/api/src/repository-runtime-factory.ts:163-209 | an operational entry goes exactly when it is listed, not building, and free or 600000 ms stale; the others are unchanged, and what stays listed is exactly what was listed and stays |
| `RuntimeFactory.ReapExecutionTheorem` | apps/api/src/repository-runtime-factory.ts:212-264 | a listed execution entry stays listed while it is built, goes when free, is unmarked under a lease while its fingerprint is active at the visit, and otherwise goes after 600000 ms and stays listed until then |
| `RuntimeFactory.ReapLeavesTheRest` | apps/api/src/repository-runtime-factory.ts:212-264 | unlisted execution entries are unchanged, and a repository loses its active fingerprint exactly when that entry goes because it is free |
| `RuntimeFactory.ReapComesBack` | apps/api/src/repository-runtime-factory.ts:163-272 | another reap is scheduled exactly when a key is left in a list or a lease check threw |
| `RuntimeFactory.ReapEvictsOnly` | apps/api/src/repository-runtime-factory.ts:212-264 | an execution entry is evicted only when it is listed, nobody builds it, and it is free of a lease or ten minutes stale |
| `RuntimeFactory.SingleBuild` | apps/api/src/repository-runtime-factory.ts:297-335 | a repository has at most one operational build in progress |
| `RuntimeFactory.OverlapJoins` | apps/api/src/repository-runtime-factory.ts:297-306 | a call during a build starts nothing and waits for that build |
| `RuntimeFactory.ExecutionOverlapJoins` | apps/api/src/repository-runtime-factory.ts:371-386 | a getRuntime call whose key is cached or being built is answered from the entry or waits for that build, and starts nothing |
| `RuntimeFactory.WaiterGetsItsBuild` | apps/api/src/repository-runtime-factory.ts:297-431 | through any events a waiting call, operational or execution, keeps its build and receives exactly that outcome |
| `RuntimeFactory.CachedIsLastBuilt` | apps/api/src/repository-runtime-factory.ts:326-335 | in every reachable state an entry that nobody builds, operational or execution, holds the runtime of the last build of its key that ended well while it owned the entry |
| `RuntimeFactory.ServedIsLastBuilt` | apps/api/src/repository-runtime-factory.ts:297-306 | so a call served from a cache receives the runtime last built for its repository or key |
| `RuntimeFactory.AbsentStartsBuild` | apps/api/src/repository-runtime-factory.ts:308-324 | a repository that is not cached gets one new build, the caller waits for it, and other entries stay |
| `RuntimeFactory.ServingUnmarks` | apps/api/src/repository-runtime-factory.ts:300-306 | a cached repository is served its own runtime, is unmarked and off the list, and other entries stay |
| `RuntimeFactory.SwitchMarksPrevious` | apps/api/src/repository-runtime-factory.ts:378-401 | a getRuntime call on a key nobody builds makes its fingerprint active, and the entry of the previous one is stale from now on, listed and has a reap coming; all others stay |
| `RuntimeFactory.ContinuesExactly` | apps/api/src/repository-runtime-factory.ts:401-417 | after a failed operational build the call fails and nothing is built; otherwise one build of the key starts and the call waits for it |
| `RuntimeFactory.FailureDeactivates` | apps/api/src/repository-runtime-factory.ts:424-430 | a failed execution build takes the entry of its key, and its fingerprint is active no more |
| `RuntimeFactory.ReleaseMarks` | apps/api/src/repository-runtime-factory.ts:433-476 | in every reachable state, after a release the built operational entry and the built entry of the active fingerprint are stale and listed exactly when their leases are free, stale since now unless they were already, and nothing else changes |
| `RuntimeFactory.AcquisitionUnmarks` | apps/api/src/repository-runtime-factory.ts:478-487 | after an acquisition neither of the two is stale or listed, and nothing else changes |
| `RuntimeFactory.FailureRemovesOwnEntry` | apps/api/src/repository-runtime-factory.ts:326-335 | a failed operational build removes the entry it created and no other |
| `RuntimeFactory.OwnershipTheorem` | apps/api/src/repository-runtime-factory.ts:401-431 | over every run, each execution build owns the entry of its key throughout exactly when no placeholder is stored while the key is being built |
| `RuntimeFactory.OwnedFailure` | apps/api/src/repository-runtime-factory.ts:424-430 | while builds own their entries a key has one build and a failed build removes its own entry and no other |
| `RuntimeFactory.UnguardedStartDisowns` | apps/api/src/repository-runtime-factory.ts:417-430 | whenever a placeholder is stored during a build of the key, a failure of the earlier build removes the newcomer's entry |
| `RuntimeFactory.ExecutionFailureRemovesOther` | apps/api/src/repository-runtime-factory.ts:401-431 | a concrete run of two getRuntime calls in which that happens |
| `RuntimeFactory.RepositoryRuntimeFactory.ReapStaleRuntimes` | apps/api/src/repository-runtime-factory.ts:163-272 | the two deleting loops do the reap step and keep the invariant |
| `RuntimeFactory.RepositoryRuntimeFactory.VisitOperational` | apps/api/src/repository-runtime-factory.ts:171-209 | one visit of the operational loop |
| `RuntimeFactory.RepositoryRuntimeFactory.VisitExecution` | apps/api/src/repository-runtime-factory.ts:213-263 | one visit of the execution loop, which unmarks the active fingerprint under a lease |
| `RuntimeFactory.RepositoryRuntimeFactory.GetOperationalRuntime` | apps/api/src/repository-runtime-factory.ts:297-324 | up to its await: join, serve or start the one build, keeping the invariant |
| `RuntimeFactory.RepositoryRuntimeFactory.GetExecutionRuntime` | apps/api/src/repository-runtime-factory.ts:371-401 | up to its await: join the build, serve the cached runtime, or ask for the operational one; the fingerprint switch marks the previous entry stale |
| `RuntimeFactory.RepositoryRuntimeFactory.ContinueExecution` | apps/api/src/repository-runtime-factory.ts:401-417 | from the await on: store the placeholder and start the build, or fail with the operational build, keeping the invariant |
| `RuntimeFactory.RepositoryRuntimeFactory.BuildSettled` | apps/api/src/repository-runtime-factory.ts:326-335 | the code after the await is the settle event, keeping the invariant; `CachedIsLastBuilt`, `FailureRemovesOwnEntry` and `FailureDeactivates` say what it leaves |
| `RuntimeFactory.RepositoryRuntimeFactory.OnLeaseReleased` | apps/api/src/repository-runtime-factory.ts:433-476 | the hook is the release event, keeping the invariant; `ReleaseMarks` says what it leaves |
| `RuntimeFactory.RepositoryRuntimeFactory.OnLeaseAcquired` | apps/api/src/repository-runtime-factory.ts:478-487 | the hook is the acquire event, keeping the invariant; `AcquisitionUnmarks` says what it leaves |
| `OrphanSweep.Latest` | packages/application/src/sweep-orphaned-runs.ts:50-60 | the chosen phase is a started one that no started phase is later than |
| `OrphanSweep.InferredExactly` | packages/application/src/sweep-orphaned-runs.ts:50-66 | the inferred status is blocked or needs_human_review exactly when the latest started phase, by start, then by completion, then by place, is completed with that status, and failed in every other case |
| `OrphanSweep.ScanDoes` | packages/application/src/sweep-orphaned-runs.ts:33-129 | a scan moves exactly the orphans among the listed runs to their inferred record, with one entry each |
| `OrphanSweep.RecoverDoes` | packages/application/src/orphaned-runs-sweeper.ts:112-179 | under the lease: a job exactly when the run is failed and nothing throws, left to a human exactly when blocked or under review, otherwise put back |
| `OrphanSweep.SweepDoes` | packages/application/src/orphaned-runs-sweeper.ts:41-207 | after all entries each run is reset or left blocked or under review, jobs are new and only for unqueued runs, no lease remains, and each verdict fits |
| `OrphanSweep.TickTheorem` | packages/application/src/orphaned-runs-sweeper.ts:41-255 | a tick leaves no run failed that was not failed, changes only orphans, and holds no lease |
| `OrphanSweep.OutcomeTheorem` | packages/application/src/sweep-orphaned-runs.ts:33-111 | a tick leaves every run but an orphan alone; an orphan is running with its outcome cleared, or waits for a human exactly as its latest phase ended, with its own reason if it has one |
| `OrphanSweep.HumanOrphanWaits` | packages/application/src/orphaned-runs-sweeper.ts:112-128 | an orphan whose latest phase asks for a human never gets a job, waits so whenever the sweeper gets its lease, and is put back when a job is queued or the acquire fails |
| `OrphanSweep.HeldRepositoryIsLeftAlone` | packages/application/src/orphaned-runs-sweeper.ts:57-66 | while another worker holds the repository its runs keep their statuses and jobs, and the lease stays |
| `OrphanSweep.RefusalExactly` | packages/application/src/orphaned-runs-sweeper.ts:57-110 | an entry is put back for a lease conflict, a queued job or a failing acquire, each exactly in its situation and in that order |
| `OrphanSweep.TickAddsFirstJobs` | packages/application/src/orphaned-runs-sweeper.ts:50-78 | a tick gives a run a job only if it is an orphan whose latest phase asks for no human and that had no active job, then exactly one, and the run is running |
| `OrphanSweep.UnobstructedOrphanIsQueued` | packages/application/src/orphaned-runs-sweeper.ts:129-171 | an orphan whose latest phase asks for no human gets its job in the next tick when its lease is free or expired, it has no active job and nothing fails |
| `OrphanSweep.OneSweepJobTheorem` | packages/application/src/orphaned-runs-sweeper.ts:41-207 | over any ticks and any outside events a run has at most one active job from sweeping |
| `OrphanSweep.CountersConserve` | packages/application/src/orphaned-runs-sweeper.ts:42-48 | every entry is in exactly one counter, except those announced to a human |
| `OrphanSweep.OrphanSweeper.ScanActive` | packages/application/src/sweep-orphaned-runs.ts:113-129 | the loop is the scan |
| `OrphanSweep.OrphanSweeper.ReconcileRun` | packages/application/src/sweep-orphaned-runs.ts:33-111 | one run: the inferred record by compare-and-set, entry only on a hit; `InferredExactly` and `OutcomeTheorem` say which record |
| `OrphanSweep.OrphanSweeper.SweepEntry` | packages/application/src/orphaned-runs-sweeper.ts:57-204 | one entry: refuse and restore, or acquire, recover and release |
| `OrphanSweep.OrphanSweeper.Execute` | packages/application/src/orphaned-runs-sweeper.ts:41-207 | the loop is the sweep, and the counters count its verdicts |
| `OrphanSweep.OrphanSweeper.TickOnce` | packages/application/src/orphaned-runs-sweeper.ts:41-207 | a whole tick on the store, with no newly failed run and no lease left |
| `ResumeRun.NothingDiscardedUnasked` | packages/application/src/resume-run.ts:305-341 | the job of a successful resume discards the work of a run under human review only if a reset was requested or the inspection found nothing to discard |
| `ResumeRun.UpsertRestores` | packages/infrastructure/src/sqlite/step-repository.ts:61-93 | writing a saved step back undoes its reset although the table merges heads and counts |
| `ResumeRun.RollbackRestoresIff` | packages/application/src/resume-run.ts:180-249 | a rollback gives the run row back exactly when its current phase was not the empty string |
| `ResumeRun.PhaseRestoredIff` | packages/application/src/resume-run.ts:366-371 | after a failed enqueue the phase table is as before exactly when the insert changed nothing or went into the saved row |
| `ResumeRun.NewPhaseRowStays` | packages/application/src/resume-run.ts:369-371 | a phase without a row keeps its new row although the resume failed |
| `ResumeRun.FailureRestores` | packages/application/src/resume-run.ts:236-262 | a failed call leaves jobs, steps and leases as without it, and the run row but for an empty current phase |
| `ResumeRun.SuccessResumes` | packages/application/src/resume-run.ts:328-387 | a successful call leaves the run running with its outcome cleared, the requested pin or else the old one and its phase lists unchanged, and exactly one new job, queued with priority 10 and with the requested disposition or else reset_to_baseline |
| `ResumeRun.SuccessResetsSteps` | packages/application/src/resume-run.ts:220-235 | it leaves successful steps alone, makes the others of the phase pending without times and with all else kept, and touches no other step |
| `ResumeRun.SuccessInsertsPhase` | packages/application/src/resume-run.ts:227-234 | the phase to resume has a pending row with the requested attempt or 1, new or over the old one; without a phase no row changes |
| `ResumeRun.LeaseIsGivenBack` | packages/application/src/resume-run.ts:311-402 | after any call past the checks the repository's lease row is gone if the call could take it and otherwise as it was, and no other row differs |
| `ResumeRun.ReasonExactly` | packages/application/src/resume-run.ts:278-373 | the reason a call gives is the one that is the case, from an unknown run to a failing enqueue and each with everything before it in order, and it succeeds exactly when none is |
| `ResumeRun.UpsertKeepsHistory` | packages/infrastructure/src/sqlite/step-repository.ts:61-93 | a step write replaces the row but for a recorded head and, against an empty map, recorded counts |
| `ResumeRun.ResumeRunUseCase.ResetSteps` | packages/application/src/resume-run.ts:221-226 | the loop resets the phase, or stops at the first failing write with a part reset |
| `ResumeRun.ResumeRunUseCase.RestoreSteps` | packages/application/src/resume-run.ts:255-257 | from any partial reset the write-back loop gives the saved steps |
| `ResumeRun.ResumeRunUseCase.ResetPhase` | packages/application/src/resume-run.ts:220-235 | steps, then the phase row; on a failing write the phase row is untouched and steps are reset in part |
| `ResumeRun.ResumeRunUseCase.Transition` | packages/application/src/resume-run.ts:148-276 | all of it, or steps and phases as before and the run rolled back |
| `ResumeRun.ResumeRunUseCase.TransitionAndEnqueue` | packages/application/src/resume-run.ts:328-374 | transition and one new job, or the rolled-back store of whichever write failed |
| `ResumeRun.ResumeRunUseCase.Execute` | packages/application/src/resume-run.ts:278-403 | the whole store after success and after each failure; a refusal gives exactly the reason that is the case, and there is success exactly when none is |
| `ConfigEdit.DeepEqualIsEquality` | packages/application/src/scratch-file-remediation.ts:134-148 | the recursive comparison is equality of JSON values |
| `ConfigEdit.GreedyDecides` | packages/application/src/scratch-file-remediation.ts:158-165 | the greedy scan consumes the old list exactly when a strictly increasing embedding exists |
| `ConfigEdit.IsPureInsertion` | packages/application/src/scratch-file-remediation.ts:158-165 | true exactly when the new list is longer and embeds the old one |
| `ConfigEdit.CollectFirst` | packages/application/src/scratch-file-remediation.ts:103-110 | the set-filling loop gives the list of first occurrences |
| `ConfigEdit.KeepsFirstOrderExactly` | packages/application/src/scratch-file-remediation.ts:118-128 | for an embedded list the order test accepts exactly when old commands first occur in the old order |
| `ConfigEdit.KeepsFirstOrderCompose` | packages/application/src/scratch-file-remediation.ts:118-128 | keeping that order composes |
| `ConfigEdit.EmbedsCompose` | packages/application/src/scratch-file-remediation.ts:158-165 | embeddings compose |
| `ConfigEdit.IsAdditiveChange` | packages/application/src/scratch-file-remediation.ts:181-245 | the method with its flag accepts exactly the relation, and nothing unparsable |
| `ConfigEdit.AcceptsExactly` | packages/application/src/scratch-file-remediation.ts:181-245 | an edit is accepted exactly when both documents have a validation object and agree outside the three lists, each list is kept or grows with the old one embedded, tiers also with the first occurrences in the old order, and at least one grows |
| `ConfigEdit.FlattenConcat` | packages/application/src/scratch-file-remediation.ts:99-101 | the commands of all tiers are those of the tiers one after the other |
| `ConfigEdit.AcceptsIsIrreflexive` | packages/application/src/scratch-file-remediation.ts:181-245 | no document is an edit of itself |
| `ConfigEdit.AcceptsIsTransitive` | packages/application/src/scratch-file-remediation.ts:181-245 | two accepted edits are one accepted edit |
| `ConfigEdit.AcceptsIsAsymmetric` | packages/application/src/scratch-file-remediation.ts:181-245 | no accepted edit can be undone by an accepted edit |
| `ConfigEdit.ChainIsOneEdit` | packages/application/src/scratch-file-remediation.ts:181-245 | any chain of accepted edits is one accepted edit |
| `LruCache.HistoryTheorem` | apps/api/src/compose.ts:249-311 | after any operations: at most maxSize keys, iteration from least to most recent use, each value the last one set |
| `LruCache.RetentionTheorem` | apps/api/src/compose.ts:249-311 | a key just set or hit stays while fewer than maxSize other keys are made more recent after it, even if others are deleted |
| `LruCache.EvictionTheorem` | apps/api/src/compose.ts:249-311 | left alone without deletions, a key just used is held exactly until maxSize other keys have been made more recent |
| `LruCache.UseIsRecent` | apps/api/src/compose.ts:249-311 | a set and a get that hits make their key the most recent one |
| `LruCache.StepContents` | apps/api/src/compose.ts:249-311 | what each operation leaves: gets and tests nothing new, a delete all but its key, a clear nothing, a set its value and all others but, for a new key in a full map, the least recent |
| `LruCache.LruMap.Get` | apps/api/src/compose.ts:249-311 | delete and re-insert makes the key most recent and changes no value |
| `LruCache.LruMap.Set` | apps/api/src/compose.ts:249-311 | the oldest key goes when the map is full and the key is new |
| `LruCache.LruMap.Delete` | apps/api/src/compose.ts:249-311 | removes the key and says whether it was there |
| `LruCache.EventRouter.Lookup` | apps/api/src/compose.ts:1525-1541 | the cached lookup answers the stored repository or the fallback, keeps every cached answer true, and afterwards caches exactly a known run |
| `TaskScope.NormalizeTaskPath` | packages/domain/src/step.ts:42-60 | the stack loop computes the settled segments |
| `TaskScope.TaskPathIsPlain` | packages/domain/src/step.ts:42-60 | a normal path consists of plain segments and they are the settled ones |
| `TaskScope.SettleLaws` | packages/domain/src/step.ts:42-60 | one segment: plain is pushed, two dots take one away and stay at the root, a dot and an empty one do nothing |
| `TaskScope.SettleConcat` | packages/domain/src/step.ts:42-60 | settling goes through a path piece by piece, so the laws of one segment fix it |
| `TaskScope.TaskPathIsNormalize` | packages/domain/src/step.ts:42-60 | where the planner's normaliser accepts a path this one gives the same normal form |
| `TaskScope.DownstreamRequired` | packages/application/src/task-file-boundaries.ts:136-181 | the map holds exactly the files later entries require, each with the least number |
| `TaskScope.CollectCandidates` | packages/application/src/task-file-boundaries.ts:183-195 | one entry per normal path, tracked when any candidate is |
| `TaskScope.AnyCovers` | packages/application/src/task-file-boundaries.ts:53-56 | the string test finds exactly segment prefixes |
| `TaskScope.ClassifyTaskChanges` | packages/application/src/task-file-boundaries.ts:197-283 | the six lists are the sorted buckets of the candidates; premature files carry least numbers and are in locale order, then by number, then as first named |
| `TaskScope.ExactlyOneBucket` | packages/application/src/task-file-boundaries.ts:204-271 | every candidate is in exactly one list, or in none and then exempt and not immutably protected; nothing else is in any |
| `TaskScope.ListsExactly` | packages/application/src/task-file-boundaries.ts:197-283 | each list holds exactly the candidates that its own condition on artifacts, exemptions, non-goals, required, guarded, later, reference and extendable files, areas and tracking describes |
| `TaskScope.GuardedExactly` | packages/application/src/task-file-boundaries.ts:64-77 | guarded are files called .gitignore, anything in .github, the orchestrator config and artifacts, by segments |
| `TaskScope.LaterExactly` | packages/application/src/task-file-boundaries.ts:79-181 | which tasks count, their numbers with both fallbacks, and when one requires a path |
| `TaskScope.PrematureOrder` | packages/application/src/task-file-boundaries.ts:273-282 | premature files stand in locale order, then by task number, then as first named |
| `TaskScope.OneClassification` | packages/application/src/task-file-boundaries.ts:273-282 | the result is determined by the options |
| `TaskScope.SameCandidatesSameChanges` | packages/application/src/task-file-boundaries.ts:183-195 | permuted or repeated candidates mention the same paths, tracked alike |
| `TaskScope.UnchangedByRepetitionAndOrder` | packages/application/src/task-file-boundaries.ts:183-283 | such candidates give the same five lists and the same premature files, and the same order of those unless two of them tie |
| `TaskScope.TieShowsOrder` | packages/application/src/task-file-boundaries.ts:277-279 | if two premature files tie in locale and number, naming one or the other first gives different results |
| `TaskScope.PermittedExactly` | packages/application/src/task-file-boundaries.ts:370-380 | what a scope permits for a single path, as one condition |
| `TaskScope.IsPathPermittedByScope` | packages/application/src/task-file-boundaries.ts:370-380 | answers that condition, and false for a path whose normal form is not normal |

## Left out

- Planner steps after the ordering: command classification and rewriting, tiers and Bats availability (regular expressions over command strings).
- The manual-test, approval and promotion stages of a release batch: once every item is merged the model saves an arbitrary batch status.
- The detail in the text of a block reason: a reason is its kind.
- The action list a reconcile returns, events, notifications, telemetry and logging.
- `RepositoryRuntimeFactory.close`.
- Health and enablement guards of the runtime factory, which throw before touching any state.
- The timers of `run` and `drain`, heartbeats and lease expiry as real time; clocks are arbitrary numbers.
- How many dispatches one scheduleOnce call admits at least: only upper bounds hold.
- A failing compare-and-set, lease check or lease release inside the orphan tick and the rollback of a resume: the store is taken to work.
- Worktree inspection of a resume beyond its answer, and the parts of a run record no transition writes.
- Resolution of a manifest entry's other lists, the legacy boundary functions and quoted git paths of the scope module.
- The artifact patterns of the scope module, which are a parameter.
- Parsing of the config text: documents are JSON values, and an unparsable one is `None`.
- Aliasing of cache entries between the runtime factory and its pending builds: an entry is tied to its build by the build's number.
