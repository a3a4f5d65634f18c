# Sentra agent: merge, dispatch, sandbox and lease protocols

A Dafny model of the Sentra agent's stateful core, with proofs about every input, every run and
every interleaving. `dafny verify dfyconfig.toml` checks all of it.

| file | models |
|---|---|
| MergeModel, MergeCrash, MergeLoss | `StreamMerge` as a machine of disk effects, with a crash possible between any two and inside an append |
| StreamMerge, MergeRetry | the same code updating a disk object, and what a second call makes of what a failed one left |
| TreeMerge, TreeMergeMeaning | `planTreeMerge`, `StreamMergeTree`, and when the tree means what the plain merge means |
| WorkerPool, DoubleEnqueue, WorkerCount | job submission, execution and release in atomic steps of any number of submitters and workers; counters; resizing |
| Seccomp | the allowlist compiler and an interpreter for classic BPF |
| MergeLock | the lease backend, and the manager that caches and retries |
| EnvironmentPool | runtime environments: acquire, release, invalidate, asynchronous eviction |
| DedupStore | the persistent TTL map with eviction and lossy snapshots |
| Polling | adaptive polling over reals, with any jitter |
| ConcatMerge | object keys, the concat merge and byte ranges |
| Sorting, Decimal, Options | what is needed of `sort.Slice` and of the `%d` verb; optional values |

**Form.** Code that updates an object or a package-level map is a class here, method by method. A
protocol is also a state machine whose runs are arbitrary event sequences, and each method's contract
says that the call is a run of it (`Model() == Next(old(Model()), e)`, or `Run(..., trace)` with the
steps of other threads in the gaps where the code holds no lock). What is proved of all runs therefore
holds of the methods. Beside that the contract says in plain conditions on the state before when the call
succeeds, why it fails, and what it changes. An event that is not enabled changes nothing, so theorems range over all event
sequences without a side condition. Clocks, random draws, context cancellation and failing system
calls are parameters.

**What the code does not do.** Where a promise is false of the code, the exact condition under which it holds is
proved, or a concrete run that breaks it:

* A merge resumes by comparing a checkpoint's chunk *index* with a *position* among the chunks that are
  not skipped (`internal/dataset/merge.go:492`, `:523`). The job handler numbers skipped chunks too
  (`internal/dispatcher/handlers_unix.go:560-583`), so a resumed partial merge can jump over chunks:
  `NothingLostIff`, `CleanRunsConcatenateIff`, `SafeIffDense`.
* A crash while a failed checkpoint lags repeats chunks as a group, out of order:
  `StaleCrashRepeatsAGroup`, `GroupIsOutOfOrder`. A checkpoint that could not be removed makes the next
  merge skip chunks: `LeftoverCheckpointIff`.
* Merging again after the rename, or after a finished merge, replaces the output by an empty file:
  `MergingAgainErases`. `StreamMerge` and both its callers in `internal/dataset/recovery.go` (:118 with
  the same chunks, :165 with some of them) get there. The job handler looks at the chunk files first
  (`internal/dispatcher/handlers_unix.go:553-569`): it refuses a full job whose chunks are gone, and for
  a partial one leaves out those that are.
* A call that failed in its loop leaves bytes that a further call appends to: the output is then as from
  one call if and only if no part of a chunk and no chunk without a checkpoint was left: `RetryExactIff`.
* The tree merge hands the final merge intermediates already joined to the output directory, and that
  directory as mount. For a relative output directory two strategies then do not find them, and delete
  them: `TreeKeepsMeaningIff`, `UnreadableTreeLosesData`. Called again after some passes, the tree
  merge replaces the intermediates of those passes by empty ones: `RetryErasesFinishedPasses`,
  `RetryHarmlessIff`. That is a call with the same chunks; the job handler, which looks at the chunk
  files first, refuses a full job by then, and gives a partial one other passes.
* The seccomp compiler truncates jump offsets to eight bits: `ImplementsAllowlistIff`.
* A lock ID names only dataset and nanosecond, so fencing needs distinct instants:
  `SupersededIsFenced`, `SameInstantIsNotFenced`.
* Environments are exclusive per object, not per directory, and an eviction can unlink a successor:
  `TwoHoldersOneKey`, `AcquireHeldKey`, `EvictionUnlinksSuccessor`; exactly when that happens:
  `EvictionHarmlessIff`, `SuccessorNeedsCreate`.
* Overlapping submissions of one job can enqueue it twice: `OverlapEnqueuesTwice`, and nothing else can
  short of an eviction: `TwiceWithinTTLNeedsOverlap`. Overlap of different jobs is harmless:
  `EnqueuedOncePerTTL`. A `merge_dataset` job
  without an execution ID is accepted at `worker_pool.go:520` and always fails at `:343`:
  `AcceptedCanSucceedIff`. A resize signal nobody waits for is lost: `ShrinkAndRegrow`, `AllDeliveredIff`.
* A restart remembers a job added a moment ago only if the file held it already: `RestartRemembersIff`.
* Legal polling settings allow intervals to shrink without bound (`FloorIff`, `IntervalCollapses`), idle
  agents that never slow down to the ceiling (`IdleCeilingIff`), and products beyond 64 bits
  (`ProductsFitIff`).
* The concat merge without a backend is not crash-safe: `LocalCrashLosesIff`. (Its only caller passes a
  backend.)

## Model

| member | source | states |
|---|---|---|
| MergeCrash.MergedOutput | internal/dataset/merge.go:490-624 | over any torn appends, crashes, failed saves and restarts before the rename (no crash after which a chunk is merged again that was not the last in the partial file), the output is chunk by chunk, in index order, the bytes crashes left behind and then the whole chunk: nothing lost, nothing reordered |
| MergeCrash.AtomicRun | internal/dataset/merge.go:490-624 | with appends all or nothing, every run to the rename without such a crash leaves c0^r0 c1^r1 ... in index order, each r one more than the number of crashes that found that chunk appended last, unsaved and still there |
| MergeCrash.ExactIffNoTears | internal/dataset/merge.go:500-611 | the output is the plain concatenation exactly when no crash left a byte of a chunk that was then merged again |
| MergeCrash.CrashFreeOutput | internal/dataset/merge.go:513-624 | a run without crashes leaves exactly the concatenation of the present chunks in index order, whatever the indexes and the failed saves |
| MergeCrash.CleanRunsConcatenateIff | internal/dataset/merge.go:490-526 | resuming from checkpoints gives the concatenation in every run whose crashes leave no bytes of a chunk merged again, if and only if checkpoint indexes separate the contributing chunks as positions do |
| MergeCrash.SafeIffDense | internal/dataset/merge.go:492-526 | for nonempty chunks with ascending indexes that condition is: only the last chunk's index may exceed its position |
| MergeCrash.DenseIndexesAreSafe | internal/dataset/merge.go:492-526 | indexes 0..n-1 meet the condition, empty and missing chunks included |
| MergeCrash.StaleCrashRepeatsAGroup | internal/dataset/merge.go:600-604 | if the first m saves fail and the process dies, the output is the first m chunks followed by all chunks; that is a crash the two formulas above leave out exactly when two of the m have something in them |
| MergeCrash.GroupIsOutOfOrder | internal/dataset/merge.go:600-604 | and if two of those m chunks each have a byte of their own, no repetition counts make that c0^r0 c1^r1 ... |
| MergeCrash.CallsCompose | internal/dataset/merge.go:474-511 | a failed call and a further call are one run with a crash in it, so the theorems on runs speak of series of calls |
| MergeLoss.NothingLostIff | internal/dataset/merge.go:490-624 | in every run whatsoever, failed saves and crashes while they lag included, every chunk reaches the output whole, in order and apart, if and only if no checkpoint index reaches past a later contributing chunk |
| MergeLoss.MergingAgainErases | internal/dataset/merge.go:544-624 | once the output was renamed into place, any further run that ends, of the same merge or of one of some of its chunks, replaces it by an empty file |
| Sorting.UniqueSort | internal/dataset/merge.go:452-454 | with distinct keys there is one ascending rearrangement, so nothing depends on the sort used |
| StreamMerge.FilterActive | internal/dataset/merge.go:431-450 | the loop keeps exactly the chunks not marked skipped, in order |
| StreamMerge.Merger.MergeChunk | internal/dataset/merge.go:528-611 | one iteration, as the machine's steps and exactly: when it stops and with which error (cancelled, cannot be examined, opened, copied or synced, directory), when it skips, and otherwise the chunk is appended and, unless that fails, the checkpoint names its index |
| StreamMerge.Merger.CopyChunk | internal/dataset/merge.go:574-611 | the part from the copy on; a failed copy leaves its first bytes and a failed sync all of them, both without a checkpoint; otherwise the checkpoint is the chunk's index unless it cannot be saved |
| StreamMerge.Merger.MergeAll | internal/dataset/merge.go:522-611 | the loop is a run of the machine; it stops at the first position from the resume position on that has trouble, having appended the blocks before it and what that one left, with the checkpoint of the last saved chunk or the old one; it counts merged and skipped chunks, positions before the resume position counting as merged |
| StreamMerge.Merger.CleanupChunks | internal/dataset/merge.go:386-419 | removes the chunk paths as given, resolved or not, nothing else, and counts the files that existed |
| StreamMerge.Merger.FinishMerge | internal/dataset/merge.go:613-628 | cleanup, sync, rename and clear as steps of the machine; fails exactly when the sync or the rename does; a checkpoint that cannot be removed stays |
| StreamMerge.Merger.StreamMerge | internal/dataset/merge.go:421-628 | a refused configuration leaves the disk alone; otherwise it succeeds if and only if nothing before, in or after the loop stops it, leaving disk, checkpoint and counts in closed form; a failure has its cause and leaves exactly what was done before it, files and checkpoint; either is a run of the machine |
| StreamMerge.LeftoverCheckpointIff | internal/dataset/merge.go:490-526 | a checkpoint left behind makes the next merge skip the positions it covers: the output is the concatenation if and only if no chunk there has bytes |
| StreamMerge.OutputPathIs | internal/dataset/merge.go:309-322 | the output is the device's file, or is named after slug or dataset in the device's mount or the working directory |
| MergeRetry.SecondCall | internal/dataset/merge.go:474-526 | after a call on a fresh disk that stopped in its loop, a successful one leaves all the first appended, whole and torn, followed by everything from the position its last saved checkpoint names |
| MergeRetry.RetryExactIff | internal/dataset/merge.go:474-611 | with indexes 0..n-1 that is the output of one undisturbed call if and only if no bytes of the chunk it stopped at and no appended chunk without a later saved checkpoint were left |
| MergeRetry.MergeAgain | internal/dataset/merge.go:421-628 | two calls: the first cancelled or unable to examine or open a chunk, no failed saves, the second undisturbed: every chunk is in the output once, in order |
| TreeMerge.StageShape | internal/dataset/merge.go:292-306 | the chunk at position q is in pass q / 64; passes have 1 to 64 chunks and only the last may be short |
| TreeMerge.PlanTreeMerge | internal/dataset/merge.go:280-307 | the planning loop cuts the sorted active chunks into exactly those passes |
| TreeMerge.StageJobIs | internal/dataset/merge.go:738-761 | a pass run by StreamMerge merges its chunks in the planned order into its stage file |
| TreeMerge.FinalJobIs | internal/dataset/merge.go:778-808 | the final merge takes the intermediates in pass order |
| TreeMerge.MergeStages | internal/dataset/merge.go:731-776 | all passes done, or the first that does not get through, with its cause, on the disk of the passes before it |
| TreeMerge.MergeTree | internal/dataset/merge.go:721-861 | succeeds if and only if every pass, the final merge and the last rename get through, and leaves their disk; a failure is that of the first that does not, with what it left |
| TreeMerge.StreamMergeTree | internal/dataset/merge.go:698-861 | more than 200 active chunks or 50 GB: the tree; otherwise the plain merge; each succeeds exactly when nothing stops it and leaves its disk, and otherwise stops in the first merge that something stops, with its cause and what that merge left |
| TreeMergeMeaning.OutputsDiffer | internal/dataset/merge.go:324-326 | no intermediate or its partial file shares a path with another, whatever the dataset ID |
| TreeMergeMeaning.StagesHold | internal/dataset/merge.go:731-776 | after k passes each intermediate holds what its pass found, and elsewhere only those passes' chunks are gone |
| TreeMergeMeaning.TreeKeepsMeaningIff | internal/dataset/merge.go:698-823 | the tree leaves StreamMerge's bytes if and only if no pass deletes a file a later pass reads, and the intermediates are found where they were written (or there is one pass, or nothing to merge) |
| TreeMergeMeaning.TreeKeepsMeaning | internal/dataset/merge.go:698-823 | distinct absolute chunk paths and an absolute output directory: the same bytes, with chunks missing or empty or not |
| TreeMergeMeaning.UnreadableTreeLosesData | internal/dataset/merge.go:784-815 | affinity with a relative output directory, or shared_mount with one other than the current directory: after two or more passes the output is empty and chunks and intermediates are gone |
| TreeMergeMeaning.OwnDirectorySuffices | internal/dataset/merge.go:309-330 | the theorems' assumption holds for an absolute output directory without files or checkpoints, chunks at absolute paths elsewhere and an output name the tree does not make up |
| TreeMergeMeaning.ClearGroundIsSeparate | internal/dataset/merge.go:738-808 | the theorems' assumption on names and leftovers implies the one StreamMergeTree's contract needs |
| TreeMergeMeaning.GroundStaysClear | internal/dataset/merge.go:731-776 | between passes the assumption still holds, so a further call meets nothing that stops it |
| TreeMergeMeaning.RetryErasesFinishedPasses | internal/dataset/merge.go:731-776 | called again after k passes, with chunks read where they are deleted, the tree replaces each of the k finished intermediates by an empty one |
| TreeMergeMeaning.RetryKeepsOutputIff | internal/dataset/merge.go:731-823 | for all chunk paths: the further call leaves the output of one undisturbed call if and only if every pass finds again what it found, or intermediates are not read back anyway |
| TreeMergeMeaning.RetryHarmlessIff | internal/dataset/merge.go:731-823 | with chunks read where they are deleted that is: if and only if the k passes had found nothing, or intermediates are not read back anyway |
| WorkerPool.EveryInterleaving | internal/dispatcher/worker_pool.go:556-642 | over every interleaving the reservation maps hold exactly the job and nonempty step IDs of the requests between reservation and release, each owned by one of them, and processed plus failed counts the finished and the dropped |
| WorkerPool.RunSound | internal/dispatcher/worker_pool.go:203-642 | reservations, queue and counters stay consistent over every run from a consistent state |
| WorkerPool.NoForeignRelease | internal/dispatcher/worker_pool.go:209-220 | no step of one request removes what another holds |
| WorkerPool.EnqueuedOncePerTTL | internal/dispatcher/worker_pool.go:548-643 | if no two submissions of one job overlap, a job ID is enqueued twice only more than the TTL apart, unless between the two an unexpired dedup entry of it was evicted for capacity; submissions of different jobs may overlap |
| WorkerPool.EnqueuedOncePerTTLBelowCapacity | internal/dispatcher/worker_pool.go:548-643 | without exception if no cleanup meets more than 1000 unexpired entries |
| DoubleEnqueue.TwiceWithinTTLNeedsOverlap | internal/dispatcher/worker_pool.go:548-643 | over every interleaving, overlaps included: two enqueues of a job within the TTL, with no unexpired entry of it evicted between them, mean that the second request was admitted at a moment when the first had not been noted |
| WorkerPool.SerialRunSound | internal/dispatcher/worker_pool.go:548-643 | what every such run keeps about enqueue log and dedup entries |
| WorkerPool.OverlapEnqueuesTwice | internal/dispatcher/worker_pool.go:548-643 | two overlapping submissions of one job can both be enqueued |
| WorkerPool.DroppedCanBeResubmitted | internal/dispatcher/worker_pool.go:633-651 | in every run with no two submissions of one job under way at once, a job dropped on a full queue leaves no trace and is admitted and reserved again at once |
| WorkerPool.DropUndoesReservations | internal/dispatcher/worker_pool.go:633-651 | the drop changes nothing but this request's reservations, its phase and the failure count |
| WorkerPool.AcceptedCanSucceedIff | internal/dispatcher/worker_pool.go:310-345 | an accepted submission can succeed in some execution if and only if it is not a merge_dataset job without any execution ID |
| WorkerPool.ProcessedIff | internal/dispatcher/worker_pool.go:225-420 | a job is processed if and only if its lease is confirmed or there is nobody to ask, it has an execution ID or is a scan, and its handler succeeds |
| WorkerPool.Undisturbed | internal/dispatcher/worker_pool.go:493-669 | with nobody in between, the exact condition of acceptance, and the queue, reservations, dedup entries and counters after |
| WorkerPool.Dispatcher.SubmitJobWithMeta | internal/dispatcher/worker_pool.go:493-669 | with anything by others in the gaps between its lock sections, the call is the run given step by step: refused by its own fields or an unexpired dedup entry, by a reserved job ID, by a reserved step ID or by a full queue, each at the moment it looks, and otherwise enqueued and noted; undisturbed, all that in conditions on the state before, and what it leaves |
| WorkerPool.Dispatcher.Admit | internal/dispatcher/worker_pool.go:502-554 | validation and the dedup check: admitted exactly when well formed and not seen |
| WorkerPool.Dispatcher.ReserveJobID | internal/dispatcher/worker_pool.go:556-567 | takes the job ID if free, otherwise rejects |
| WorkerPool.Dispatcher.ReserveStepID | internal/dispatcher/worker_pool.go:569-587 | takes the step ID if free or empty; otherwise the job ID is to be rolled back |
| WorkerPool.Dispatcher.TrySend | internal/dispatcher/worker_pool.go:619-642 | enqueues if there is room, otherwise turns to the drop path |
| WorkerPool.Dispatcher.Reserve | internal/dispatcher/worker_pool.go:556-587 | both reservations with anything by others between and after: the request ends with both keys, or rejected with neither |
| WorkerPool.Dispatcher.SendOrDrop | internal/dispatcher/worker_pool.go:619-667 | enqueued and noted, or dropped with both reservations released and the failure counted, with anything by others in the gaps |
| WorkerPool.Dispatcher.DropQuietly | internal/dispatcher/worker_pool.go:633-651 | the drop in its three sections, with anything by others between them, is a run of the machine that ends dropped |
| WorkerCount.Pool.Init | internal/dispatcher/worker_pool.go:129-155 | live workers equal the configured maximum: the number asked for, 4 if none is, and at most twice the CPUs |
| WorkerCount.EverySignalCounts | internal/dispatcher/worker_pool.go:693-699 | whatever the workers do between the sends, each resize signal stops one worker or is dropped |
| WorkerCount.AllDeliveredIff | internal/dispatcher/worker_pool.go:693-699 | no signal is dropped if and only if some worker waits at each send |
| WorkerCount.Pool.SetMaxWorkers | internal/dispatcher/worker_pool.go:675-703 | with any worker moves between the sends and starts, live workers stay the maximum plus the resize signals dropped so far, so never below the maximum; the counts are those of that schedule |
| WorkerCount.ShrinkAndRegrow | internal/dispatcher/worker_pool.go:675-703 | shrinking and growing back leaves as many workers too many as signals were dropped, all of them if nobody waited |
| Seccomp.BuildSeccompFilter | internal/sandbox/seccomp_linux.go:710-744 | the loop emits the program analysed below, with uint8 jump offsets |
| Seccomp.CompiledMeaning | internal/sandbox/seccomp_linux.go:717-743 | every program of any length ends in a RET without leaving the program: KILL on a foreign architecture, else ALLOW exactly for numbers among the last min(n, 255) entries, EPERM for the others |
| Seccomp.ScanFrom | internal/sandbox/seccomp_linux.go:730-741 | from the i-th check on, the scan decides by the entries from i that the wrap leaves effective |
| Seccomp.ImplementsAllowlistIff | internal/sandbox/seccomp_linux.go:730-737 | the filter is set membership if and only if every number occurs among the last 255 entries; a number outside the list is never allowed |
| Seccomp.WrapDeniesFirstOf256 | internal/sandbox/seccomp_linux.go:734 | 256 distinct entries: the first is denied |
| Seccomp.InstalledIff | internal/sandbox/seccomp_linux.go:776-786 | with the length cut to sixteen bits the kernel accepts exactly lists of at most 4090 entries, and installs those whole |
| MergeLock.MutualExclusion | internal/dataset/lock.go:243-317 | at every moment of every run an unexpired, unreleased grant is the entry the backend stores, with its expiry, and no other such grant is for that dataset |
| MergeLock.RunSound | internal/dataset/lock.go:243-317 | what every order of acquire, heartbeat, release, cleanup and time keeps between grants and table |
| MergeLock.SupersededIsFenced | internal/dataset/lock.go:261-302 | after a later grant of the dataset at another instant, heartbeat and release with the old ID find nothing and change nothing; IDs coincide exactly for equal instants |
| MergeLock.SameInstantIsNotFenced | internal/dataset/lock.go:261 | released and granted again within one clock reading, the first holder can free the second's lock |
| MergeLock.LapsedLeaseIsTaken | internal/dataset/lock.go:252-272 | in every run: if the dataset was not granted and none of its IDs sent a heartbeat within one lease, the next acquire is granted, cleanup or not |
| MergeLock.LockIDInjective | internal/dataset/lock.go:261 | a lock ID determines dataset and instant |
| MergeLock.InMemoryMergeLockBackend.AcquireLock | internal/dataset/lock.go:243-273 | grants if and only if no entry is stored whose expiry lies ahead, and then stores the new one in its place |
| MergeLock.InMemoryMergeLockBackend.ReleaseLock | internal/dataset/lock.go:275-288 | removes the entry with the ID if there is one, and says so |
| MergeLock.InMemoryMergeLockBackend.UpdateHeartbeat | internal/dataset/lock.go:290-302 | extends the entry with the ID, also an expired one still stored |
| MergeLock.InMemoryMergeLockBackend.CleanupExpired | internal/dataset/lock.go:304-317 | removes exactly the expired entries |
| MergeLock.MergeLockManager.AcquireMergeLock | internal/dataset/lock.go:64-128 | with anything by others before the first attempt and between attempts, it succeeds if and only if the cached ID is still stored or one of up to three attempts, as far as the context allows, finds no unexpired entry; success means that at this instant the backend maps the dataset to the returned ID with a full lease ahead |
| MergeLock.MergeLockManager.ReleaseMergeLock | internal/dataset/lock.go:130-160 | forgets the cached lock and releases it at the backend |
| EnvironmentPool.AtMostOneHolder | cmd/agent/runtime/v2/manager.go:411-569 | in every run an object is in at most one caller's hands, and what acquire can return or eviction can mark is in nobody's |
| EnvironmentPool.RunSound | cmd/agent/runtime/v2/manager.go:257-670 | the invariant behind it, over every run |
| EnvironmentPool.CleaningIsFinal | cmd/agent/runtime/v2/manager.go:279-316 | once Cleaning, an object is never acquired, held or brought back by release |
| EnvironmentPool.UnlinkedIsFinal | cmd/agent/runtime/v2/manager.go:547-670 | an object out of the table gets no new holder, also after the late release that sets an invalidated one Ready |
| EnvironmentPool.TwoHoldersOneKey | cmd/agent/runtime/v2/manager.go:480-535 | in every consistent pool, making an object for a key whose Active environment is held leaves two holders of two objects on one directory |
| EnvironmentPool.AcquireHeldKey | cmd/agent/runtime/v2/manager.go:395-545 | an undisturbed acquire of such a key does just that, if and only if the pool has room |
| EnvironmentPool.EvictionUnlinksSuccessor | cmd/agent/runtime/v2/manager.go:293-317 | the end of an eviction removes a successor put under the key meanwhile, while it is held |
| EnvironmentPool.EvictionHarmlessIff | cmd/agent/runtime/v2/manager.go:293-310 | in every state, the end of an eviction leaves all other objects their entries if and only if the key is free or still the evicted object's, which the code does not check |
| EnvironmentPool.SuccessorNeedsCreate | cmd/agent/runtime/v2/manager.go:279-316 | in every run from the marking on, it is another's only after an acquire that made a new object under the key |
| EnvironmentPool.Pool.AcquireEnvironment | cmd/agent/runtime/v2/manager.go:395-545 | whatever others do while it waits, the call is a run of the machine and its result is in this caller's hands and nobody else's; a usable Ready or Warm environment is taken, whatever the room; a new one is made only if the last look found none, an unusable one, one that is Active, Invalid or Cleaning, or the wait for a Pending one timed out, and then only within the limits |
| EnvironmentPool.Pool.AddNew | cmd/agent/runtime/v2/manager.go:513-544 | the limits on entries and on bytes, each with its eviction pass and second look, exactly, with others in the gaps, and the new object; undisturbed it fails exactly for want of room |
| EnvironmentPool.Pool.ReleaseEnvironment | cmd/agent/runtime/v2/manager.go:547-569 | Cleaning stays; otherwise Warm or Ready, as the machine's release step |
| EnvironmentPool.Pool.MarkAsInvalid | cmd/agent/runtime/v2/manager.go:653-656 | first section of the invalidation |
| EnvironmentPool.Pool.SweepSameID | cmd/agent/runtime/v2/manager.go:658-670 | second section: drops exactly the keys of objects with the same ID |
| EnvironmentPool.Pool.RunEviction | cmd/agent/runtime/v2/manager.go:257-291 | marks exactly the idle Warm and Ready objects past the timeout |
| EnvironmentPool.Pool.RemoveEvicted | cmd/agent/runtime/v2/manager.go:294-316 | removes the key if the evicted object is still Cleaning |
| DedupStore.AgreesWithHistory | internal/dispatcher/job_dedup.go:92-305 | from any state that agrees with some history, over any run, crashes and reloads included, each answer, now and later, is that of the history: last added no more than the TTL ago, not removed or evicted since, and over a crash what the file remembers |
| DedupStore.StartAgreesWithHistory | internal/dispatcher/job_dedup.go:92-305 | in particular for every process started on any file, its loaded entries counting as added one TTL before their expiry |
| DedupStore.CleanupKeepsAnswers | internal/dispatcher/job_dedup.go:248-305 | cleanup changes no present or later answer but for evicted jobs; nobody is evicted up to 1000 unexpired entries, beyond that exactly 1000 remain |
| DedupStore.EvictionSound | internal/dispatcher/job_dedup.go:275-302 | the evicted are the first after sorting: every survivor expires no earlier |
| DedupStore.SaveThenReload | internal/dispatcher/job_dedup.go:92-116 | saved and reloaded at one instant, exactly the entries expiring after it stay, with their expiry |
| DedupStore.NeverInventsAJob | internal/dispatcher/job_dedup.go:92-205 | over snapshots copied at one time and offered, dropped, written or lost at any other, and over crashes, a job is reported only if added with an expiry not yet passed |
| DedupStore.OffersCanCross | internal/dispatcher/job_dedup.go:159-188 | two snapshots offered in the other order leave the older one in the file |
| DedupStore.RestartRemembersIff | internal/dispatcher/job_dedup.go:92-170 | a job added just before a crash is reported after it if and only if the file already held it with an expiry beyond the downtime |
| DedupStore.JobDeduplicationStore.Contains | internal/dispatcher/job_dedup.go:140-155 | seen exactly when an entry has not passed its expiry |
| DedupStore.JobDeduplicationStore.Insert | internal/dispatcher/job_dedup.go:159-170 | the lock section of adding: the entry, and a copy when the count is a multiple of ten |
| DedupStore.JobDeduplicationStore.Send | internal/dispatcher/job_dedup.go:172-177 | the later send: kept if the channel is free, dropped otherwise |
| DedupStore.JobDeduplicationStore.SnapshotWorkerTurn | internal/dispatcher/job_dedup.go:180-205 | takes a snapshot, or writes the one taken |
| DedupStore.JobDeduplicationStore.CleanUp | internal/dispatcher/job_dedup.go:248-305 | expired entries go, then the oldest beyond 1000; the file is rewritten only on a change |
| Polling.PollingClient.PollLoopAdaptive | internal/realtime/supabase_realtime.go:271-327 | the loop's claims and its final state, poll by poll, are those of the schedule the theorems below are about |
| Polling.OneOfThreeClaims | internal/realtime/supabase_realtime.go:303-309 | of any three consecutive polls one claims jobs, whatever the jitter, the jobs and the settings |
| Polling.ClaimsIff | internal/realtime/supabase_realtime.go:296-309 | a poll claims if and only if the number of polls at the ceiling without a break up to it is a multiple of three |
| Polling.ScheduleIs | internal/realtime/supabase_realtime.go:271-401 | in terms of what the polls met: after jobs, or within the grace period of the last poll with jobs or work under way, the interval is the post-claim interval; otherwise the one before times the multiplier, capped, times the factor drawn |
| Polling.ClaimGap | internal/realtime/supabase_realtime.go:296-401 | from one claiming poll the next is at most three polls and, with the post-claim interval within the ceiling, 3 * maxIdle * (1 + jitter) away |
| Polling.BackoffBounds | internal/realtime/supabase_realtime.go:388-401 | one backoff step lies between its low and its high estimate |
| Polling.IntervalBounds | internal/realtime/supabase_realtime.go:388-401 | in every run each interval is positive, at most the jittered ceiling, and the post-claim interval or a backoff of the one before; over reals, which `ProductsFitIff` ties to 64 bits |
| Polling.ProductsFitIff | internal/realtime/supabase_realtime.go:171-401 | no poll of any run computes a product beyond the 64 bits of a duration if and only if the longest of minPoll, postClaim and maxIdle * (1 + jitter), multiplied, is below 2^63 ns |
| Polling.IntervalAtLeastFloor | internal/realtime/supabase_realtime.go:191-401 | with multiplier * (1 - jitter) at least 1, no interval is below min(minPoll, postClaim, maxIdle * (1 - jitter)) |
| Polling.FloorIff | internal/realtime/supabase_realtime.go:143-401 | for settings the loader accepts, the intervals of all runs have a positive lower bound if and only if that product is at least 1 |
| Polling.IntervalCollapses | internal/realtime/supabase_realtime.go:171-401 | below 1 some idle run goes under any bound, and does so after any number of polls |
| Polling.IdleReachesCeiling | internal/realtime/supabase_realtime.go:388-401 | above 1 an idle agent is at maxIdle * (1 - jitter) after a stated number of polls and stays there until work comes |
| Polling.IdleMayNeverReachCeiling | internal/realtime/supabase_realtime.go:388-401 | at or below 1, with minPoll below it, there are idle runs of any length that do not get there |
| Polling.IdleCeilingIff | internal/realtime/supabase_realtime.go:143-401 | some number of idle polls suffices for that in every run if and only if the product is above 1, or is 1 with neither minPoll nor postClaim below the low ceiling |
| ConcatMerge.KeysNeverCollide | internal/storage/config.go:451-465 | chunk, result and merged keys are equal only for the same type, base and (unless merged) index, over all bases and indexes |
| ConcatMerge.ConcatMerger.ReadResults | internal/dispatcher/handlers_unix.go:711-719 | opens all results in payload order, or fails before anything is written |
| ConcatMerge.ConcatMerger.ExecuteConcatMerge | internal/dispatcher/handlers_unix.go:704-741 | the call is a run of the machine; it succeeds exactly when all results are there and the write is whole, and then the merged object holds them in payload order, exactly the results and inputs whose deletion did not fail are gone, and every other object is as it was |
| ConcatMerge.DataConserved | internal/dispatcher/handlers_unix.go:704-741 | over any crashes, torn writes, failed deletes and repetitions, at every moment all results are intact or the merged object is complete in payload order |
| ConcatMerge.MissingResultStops | internal/dispatcher/handlers_unix.go:711-717 | with a result missing no run changes any object |
| ConcatMerge.OtherObjectsStay | internal/dispatcher/handlers_unix.go:704-741 | no run touches an object that is not the merge's own |
| ConcatMerge.LocalMerger.LocalConcatMerge | internal/dispatcher/handlers_unix.go:743-780 | truncates, then copies and removes chunk by chunk, up to a crash at any byte of a copy or before its remove |
| ConcatMerge.LocalCrashLosesIff | internal/dispatcher/handlers_unix.go:751-777 | crash and repetition give the whole output if and only if every chunk removed before the crash was empty; otherwise just those are missing |
| ConcatMerge.TilesRejoinIff | internal/dispatcher/handlers_unix.go:1337-1365 | ranges that follow one another from 0 can all be extracted if and only if the last starts inside the source, and then rejoin to it if and only if the last reaches its end |
| ConcatMerge.SourceConserved | internal/dispatcher/handlers_unix.go:704-741 | ranges through an identity plugin, listed in order: from every state of every run of the concat merge the source can be had |

## Left out

- StreamMerge.Merger.StreamMerge: gzip output, chunk and dataset checksums, the computation of the disk space needed (its verdict is an input), metrics (including the division by the duration) and the removal of metadata files and empty directories.
- StreamMerge.Merger.StreamMerge: of the checkpoint only `last_chunk_index` is modelled. `bytes_written` only moves a seek that O_APPEND overrides, and `chunks_merged` is never read back. The checkpoint is written by rename, so that one is there or not.
- StreamMerge.Merger.StreamMerge: a chunk that is its own merge's partial file would be copied into itself without end; contracts and theorems ask that no chunk is read or deleted there.
- MergeCrash.MergedOutput: speaks of crashes before the rename; `MergingAgainErases` says what comes of one after it. Crashes that repeat more than the last chunk are in `NothingLostIff` and `StaleCrashRepeatsAGroup`.
- TreeMerge.StreamMergeTree: its exact disk is stated for trees whose checkpoints can all be removed.
- TreeMergeMeaning.RetryKeepsOutputIff: speaks of a further call after whole passes; after a failure inside a pass the pass's own partial file and checkpoint are left as well, and `MergeCrash` says what becomes of that pass.
- Paths are clean absolute or relative component lists: `..`, symbolic links and identifiers containing a slash are not modelled.
- Sorting: `sort.Slice` leaves the order of equal indexes open; the model's sort keeps the given one (with distinct indexes there is no choice, `Sorting.UniqueSort`).
- WorkerPool.Dispatcher.SubmitJobWithMeta: lease checks and handler outcomes are inputs; panics, shutdown, backend reports and log lines are left out.
- WorkerPool.EnqueuedOncePerTTL: one process lifetime. That no two submissions of one job overlap is the caller's: cmd/main.go:452-503 submits one at a time.
- Seccomp: the syscall tables and architecture numbers are arbitrary inputs; the call into the kernel is reduced to its check of the program.
- MergeLock.MergeLockManager.AcquireMergeLock: `Stop` (it waits for heartbeat loops before cancelling them) and tickers; heartbeats are steps at any moment. Nothing in the repository calls this method, and `ReleaseAllMergeLocks` (worker_pool.go:791-812) releases by job ID where locks are kept by dataset ID.
- EnvironmentPool.AtMostOneHolder: exclusivity of directories, installation itself, and the callers' retry pattern.
- EnvironmentPool.Pool.AddNew: whether the pool is over its byte budget is an input; the accounting of directory sizes behind it is left out, and so is the order in which concurrent acquires pass the limit on entries.
- EnvironmentPool.Pool.AcquireEnvironment: the number of looks at the table is that of a given list; the code goes on as long as the entry is reported ready and is Pending again.
- DedupStore.NeverInventsAJob: a file torn by two writers of one temporary name. Cleanup ignores SENTRA_DEDUP_MAX_JOBS and uses 1000, as the code does; nothing in the repository calls `Remove`.
- Polling.IntervalBounds: durations are reals, so truncation to nanoseconds is not modelled. The loader accepts any multiplier above 1, infinity included (supabase_realtime.go:171-175); one so large that the product at line 396 leaves 64 bits can give a negative interval, on which the ticker panics. `ProductsFitIff` says for which finite multipliers it cannot.
- Polling.ClaimGap: the time a poll itself takes is not counted.
- ConcatMerge.SourceConserved: object-storage mode only; the shared-mount branch of the byte range, plugins other than the identity, and lists of files are left out.
- Recovery (`internal/dataset/recovery.go`), the non-concat object-store merge, HTTP, Redis and database clients, plugin download and signing, metadata extractors, sandbox set-up, configuration and the CLI: input and output, or easy members.
