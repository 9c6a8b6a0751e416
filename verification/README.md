# AMIO: verified models of the I/O engine

AMIO stages data between a host program and storage back ends. A host thread writes
snapshots that a worker pool delivers in order, and reads records that per-variable
prefetch queues stage ahead of time. This project models the components that make this
work and proves what they promise, over every interleaving, every run and every input.

| file | models |
|---|---|
| `Common.dfy`, `Sequences.dfy`, `Counting.dfy` | status codes and limits; duplicate-free lists; counting and summing |
| `Staging.dfy` | the staging pool: best fit, lazy commit, growth, waiting, reference counts; pool functions and the class `StagingPool` |
| `Handles.dfy` | the generation-stamped handle table as a refinement of a map; class `HandleTable` |
| `Workers.dfy` | the worker pool as a transition system of its critical sections; class `WorkerPool` |
| `WritePath.dfy` | one host thread, the worker pool and the read path composed: `write`, the task callback, `flush` |
| `Refusals.dfy` | writes that the worker pool refuses, and when `flush` can finish |
| `Reclaim.dfy` | the way back of staging buffers on the write path, and their room for the bytes |
| `Waits.dfy` | `amio_wait` and the completion flag of a write |
| `Selections.dfy` | bounding boxes and the comparison of two selections |
| `Prefetch.dfy` | the prefetch queue with any number of readers and fetches, as a transition system |
| `PrefetchLooks.dfy` | what a call does with what it finds staged: a match, another window, nothing |
| `PrefetchSync.dfy` | the same queue without a worker pool, and the sequential scan |
| `SyncRefinement.dfy` | the synchronous queue refines the concurrent one, and never waits |
| `PrefetchObject.dfy` | class `PrefetchQueue`, proved against the synchronous model |
| `Views.dfy` | handles, view records and buffers across open, read, release and close; class `Coordinator` |
| `Indexing.dfy` | mixed-radix digits, the odometer, row-major strides |
| `Grib2Grid.dfy` | bounding-box checks, gather, packing, sizes |
| `Text.dfy`, `FieldIdentity.dfy` | printing and parsing of field names; product templates |
| `RecordIndex.dfy` | the index of a GRIB2 file |

## How the models are built

Concurrent components are state machines. An action is one critical section, or one step of
a callback outside any lock; a run is an arbitrary sequence of actions, so it covers every
interleaving. An action that is not enabled does nothing, which costs no generality.
Objects that the program updates in place are classes too, whose methods are proved equal to
functions on the abstract state; the invariants and the theorems over runs are about those
functions. Time is a nondeterministic "the deadline has passed"; what other threads do while
a lock is free is a parameter.

Members whose source lines hold a loop are methods with loops. Buffers are slot numbers of
the pool, storage blocks are numbered in order of allocation, and memory maps blocks to
bytes, so "never reissued or reallocated" is a statement about numbers.

## Where the code does not keep a promise

Each of these is stated as the exact condition under which the promise holds, with a
concrete run or input where it fails.

* Without a worker pool `write` marks a write complete and drops its bytes; `flush` then
  reports success. The guarantee of `flush` holds if and only if there are workers or there
  was no write (`WritePath.FlushOkMeansDelivered`, `WritePath.WithoutWorkersDataIsDropped`).
* A submission that the worker pool refuses is still reported as AMIO_OK and still counted.
  Once the workers are done with a dataset, its pending counter is zero if and only if no
  write on it was submitted while the queue was full or the pool shut down
  (`Refusals.FlushFinishesIff`); after one such submission `flush` only ever times out
  (`Refusals.RefusalIsFinal`). Runs that get there: `Refusals.FullQueueLosesAWrite`,
  `Refusals.RefusalLeavesOnePending`.
* `amio_wait` is documented to report a failed operation
  (`include/amio/amio.h`, lines 325-337). A failing callback never sets the completion flag,
  so a write that threw, or was refused, only ever times out
  (`Waits.FailureIsNeverReported`; a run: `Waits.ThrownWriteTimesOut`). AMIO_OK means that
  the write was executed without throwing if and only if there are workers
  (`Waits.WaitOkMeansDelivered`).
* The header of the prefetch queue (`src/prefetch/prefetch_queue.hpp`) promises that a
  returned buffer always matches the requested box. The expiry check of `get_buffer` does not
  compare selections, so for callers that use two selections, without a warm-up before their
  first call, the promise holds if and only if these address the same region, whatever the
  depth and the number of records (`Prefetch.MatchesIffSame`; the failing run is
  `Prefetch.TwoRegionsMeet`). A mismatch needs a fetch that lands after the call's last look
  (`PrefetchLooks.OkOnExpiryNeedsLanding`); a look that finds another window replaces it
  (`PrefetchLooks.StaleWindowIsReplaced`). The promise always holds when all calls, and a
  warm-up, use one region (`Prefetch.OneRegionAlwaysMatches`), on every path but expiry
  (`Prefetch.SelectionIsExact`), and without a worker pool
  (`SyncRefinement.SyncNeverWaits`).
* Once a pool is joined, the writes on a key from before the shutdown flag have run if and
  only if it has a thread or there were none; the constructor allows zero threads
  (`Workers.JoinedMeansDoneIff`; a run: `Workers.ZeroThreadsNeverRun`).
* A name is lossless if and only if its product template is supported; a field of any other
  template gets the name of a template 4.0 field (`FieldIdentity.UnsupportedNameCollides`).
* The gather of `read` trusts every record to have the grid of the first one of its field. It
  leaves a record if and only if the furthest selected position lies past it
  (`Grib2Grid.Gather`); all accepted boxes stay inside exactly when the record has the grid's
  points (`Grib2Grid.InRangeIff`), and the indexing scan does accept files where it has not
  (`RecordIndex.ShortRecordEscapesIff`, `RecordIndex.MixedFileEscapes`).
* `write` checks the extents of a strided array but not its strides, and stages product of
  the extents elements. Packing them stays inside what was staged if and only if no stride of
  a dimension of extent above 1 is negative and the last element lies among them
  (`Grib2Grid.StagedInboundsIff`); a 2 x 2 array with padded rows is accepted and packed from
  behind the staged bytes (`Grib2Grid.PaddedRowsEscape`).

## Model

| member | source | states |
|---|---|---|
| Staging.BestFitPolicy | src/staging/staging_pool.cpp:226-257 | First match in the capacity-sorted free list is a minimum-capacity fit that allocates nothing; failing that an uncommitted slot is used; failing that the largest free buffer grows |
| Staging.TryAcquireCorrect | src/staging/staging_pool.cpp:87-121 | One pass of acquire refuses exactly when the slot count is at the ceiling and every slot is referenced, changing nothing; otherwise it keeps the invariant and hands out a fresh slot with enough capacity |
| Staging.StorageOfIssue | src/staging/staging_pool.cpp:259-285 | The slot handed out keeps its storage when that is large enough; otherwise it gets a block that did not exist before, of max(required, nominal) bytes; either way one reference and the next issue number |
| Staging.ReleaseCorrect | src/staging/staging_pool.cpp:146-170 | A release drops one reference, leaves storage and all other slots alone, resets the used bytes with the last reference, and keeps the free list exact, duplicate-free and sorted |
| Staging.HolderStepsKeepValid | src/staging/staging_pool.cpp:172-178 | Adding a reference adds exactly one, recording used bytes records them, neither touches another slot or the free list, and both keep the invariant |
| Staging.AddRefThenRelease | src/staging/staging_pool.cpp:146-178 | A release undoes an add_ref exactly, whatever the pool's state |
| Staging.AcquireFrame | src/staging/staging_pool.cpp:87-121 | What an acquisition leaves alone: every buffer held by someone else keeps its reference and its storage block |
| Staging.ReleaseFrame | src/staging/staging_pool.cpp:146-170 | After its only holder releases a buffer it is unreferenced, and every other held buffer is as before |
| Staging.HeldBlocksDiffer | src/staging/staging_pool.cpp:259-272 | Two held buffers never share storage |
| Staging.HeldStorageIsStable | src/staging/staging_pool.cpp:259-285 | Over any run in which a buffer stays referenced, its storage, capacity and issue number never change |
| Staging.BackpressureOnlyAtSaturation | src/staging/staging_pool.cpp:87-144 | However the waits go, acquire returns null only with the slots at the ceiling and all referenced; otherwise the result fits the request |
| Staging.StagingPool.constructor | src/staging/staging_pool.cpp:43-78 | The initial pool is valid, uncommitted, entirely free, with the ceiling of its growth mode |
| Staging.StagingPool.FindBestFit | src/staging/staging_pool.cpp:226-257 | The two search loops compute the best-fit position |
| Staging.StagingPool.EnsureStorage | src/staging/staging_pool.cpp:259-272 | Commit or grow to max(required, nominal), in place |
| Staging.StagingPool.RemoveFromFreeList | src/staging/staging_pool.cpp:274-285 | Takes exactly the chosen slot off the free list with one reference and a new issue number |
| Staging.StagingPool.Acquire | src/staging/staging_pool.cpp:87-144 | The retry loop, with arbitrary activity of other threads during each wait, does what the specification of a waiting acquire says |
| Staging.StagingPool.ReleaseBuffer | src/staging/staging_pool.cpp:146-170 | The in-place release, with the sorted re-insertion |
| Staging.StagingPool.AddReference | src/staging/staging_pool.cpp:172-178 | The in-place add_ref |
| Handles.PackRoundTrip | src/c_boundary/handle_table.hpp:154-164 | Unpacking undoes packing, and only slot 0 with generation 0 packs to the null token |
| Handles.PackIsBits | src/c_boundary/handle_table.hpp:154-164 | The shift-and-or, shift and mask expressions, read bit by bit, are the arithmetic packing and unpacking used throughout |
| Handles.PackBitsRoundTrip | src/c_boundary/handle_table.hpp:154-164 | The shift-and-or expressions on 64-bit words are inverse to each other |
| Handles.LookupRefinesMap | src/c_boundary/handle_table.cpp:55-96 | lookup succeeds exactly for live tokens of the right kind, returns the inserted payload, and tells the null token from other rejections |
| Handles.InsertRefinesMap | src/c_boundary/handle_table.cpp:14-53 | insert adds one new nonzero token to the map, or returns 0 with no change exactly when no slot is free and 2^32 - 1 slots exist |
| Handles.ReleaseRefinesMap | src/c_boundary/handle_table.cpp:98-131 | release removes exactly the given live token of the right kind, and otherwise changes nothing |
| Handles.GenerationCountsReleases | src/c_boundary/handle_table.cpp:118-128 | Over any run a slot's generation counts its releases modulo 2^32 - 1 |
| Handles.RetiredTokenRevives | src/c_boundary/handle_table.cpp:118-128 | A retired token is accepted again if and only if the slot is in use and its releases, counting the retiring one, are a multiple of 2^32 - 1 |
| Handles.StaleReleaseIsHarmless | src/c_boundary/amio_core.cpp:237-240 | Within that bound, finalize's second release of a closed dataset's token is rejected and touches nothing |
| Handles.HandleTable.InsertHandle | src/c_boundary/handle_table.cpp:14-53 | The in-place insert |
| Handles.HandleTable.LookupHandle | src/c_boundary/handle_table.cpp:55-96 | The lookup, against the map of live tokens |
| Handles.HandleTable.ReleaseHandle | src/c_boundary/handle_table.cpp:98-131 | The in-place release |
| Workers.StaleReadOnlyRotates | src/workers/worker_pool.cpp:355-366 | A worker that reads an outdated exec_seq can only rotate the task to the tail |
| Workers.RunInv | src/workers/worker_pool.cpp:324-460 | The invariant on queue, order numbers, running tasks, counters and shutdown holds in every run |
| Workers.PerKeyOrdering | src/workers/worker_pool.cpp:404-447 | With any number of threads the callbacks of a key run in order 0, 1, 2, …, never overlap and never run twice; queued and running numbers are exactly [exec_seq, next_seq) with at most one running |
| Workers.DrainedMeansDone | src/workers/worker_pool.cpp:236-243 | When drain's predicate holds every write has run and writes_completed is the sum of the next_seq numbers |
| Workers.JoinedMeansDoneIff | src/workers/worker_pool.cpp:81-102 | In every run, when all threads have exited, every write on a key enqueued before the flag was set has run if and only if there is a thread or there was no such write |
| Workers.ZeroThreadsNeverRun | src/workers/worker_pool.cpp:47-75 | A pool of no threads leaves a submitted write undone |
| Workers.SomeTaskIsReady | src/workers/worker_pool.cpp:359-366 | In every reachable state with queued writes and none running, some queued task is ready |
| Workers.RotationsAreBounded | src/workers/worker_pool.cpp:355-402 | Whatever all threads do, a queue with a ready task at position r is passed at most r times before a write starts |
| Workers.Progress | src/workers/worker_pool.cpp:351-405 | A lone idle worker starts the first ready task after at most queue length - 1 rotations |
| Workers.AdmissionIsARun | src/workers/worker_pool.cpp:113-149 | A write is taken, under the next number of its key, if and only if the flag was not seen and the queue is below capacity; with watermarks if and only if neither the flag was seen nor shutdown is set after the wait. Either way the submission is a run of the pool that ends with the new task if it was taken |
| Workers.WorkerPool.SubmitWrite | src/workers/worker_pool.cpp:113-149 | The flag check, the watermark wait with other threads going on, the capacity check - a full queue or the flag leaves the pool alone and returns 0, otherwise the task is queued - and the returned 0 that stands both for a refusal and for the first number |
| Workers.WorkerPool.TryExecuteOne | src/workers/worker_pool.cpp:351-405 | One locked pass: start the ready task, or rotate it and try a prefetch |
| Workers.WorkerPool.FinishCallback | src/workers/worker_pool.cpp:445-447 | The callback's return advances exec_seq |
| WritePath.RunInv | src/c_boundary/amio_core.cpp:673-833 | The composed invariant (buffer ownership, task links, contents, counters, failures) holds in every interleaving |
| WritePath.SnapshotIsolation | src/c_boundary/amio_core.cpp:708-809 | The driver is handed exactly the host's bytes at call time, at most once; until the callback's release the buffer is that write's alone and keeps those bytes |
| WritePath.FlushOkMeansDelivered | src/c_boundary/amio_core.cpp:576-606 | When flush returns AMIO_OK all writes on the dataset were executed without throwing, if and only if there are workers or no writes; the pending counter is modular and may be decremented first |
| WritePath.FlushVerdict | src/c_boundary/amio_core.cpp:576-606 | A flush that does not time out reports failure exactly when a write on the dataset threw, and then none of its writes was refused |
| WritePath.WithoutWorkersDataIsDropped | src/c_boundary/amio_core.cpp:815-832 | A run without workers in which flush succeeds and the driver never saw the write |
| Reclaim.BuffersComeBack | src/c_boundary/amio_core.cpp:801-823 | In every run a slot is referenced if and only if the read path holds it or exactly one write that has not given it up; so when all callbacks are past their release only the read path's buffers remain acquired |
| Reclaim.BytesFit | src/c_boundary/amio_core.cpp:714-736 | In every run the buffer that a write holds has room for the bytes that the write copies into it |
| Refusals.SubmissionIsAdmission | src/workers/worker_pool.cpp:113-149 | The host's submission is the pool's without watermarks: refused, with the pool unchanged, if and only if the flag is set or 1024 tasks are queued, and otherwise queued under the key's next number |
| Refusals.QueueIsBounded | src/workers/worker_pool.cpp:130-134 | In every run, however slow the driver, at most 1024 tasks are queued |
| Refusals.FlushFinishesIff | src/c_boundary/amio_core.cpp:783-814 | Between host calls the pending counter is the number of unsettled writes; once each write on the dataset has settled or was refused it is zero if and only if none was submitted to a full queue or a pool that is shut down |
| Refusals.RefusalIsFinal | src/c_boundary/amio_core.cpp:783-814 | After one such submission flush on that dataset can only time out, whatever happens later |
| Refusals.FullQueueLosesAWrite | src/workers/worker_pool.cpp:130-134 | A run in which the write after the 1024th queued one is refused, with that consequence |
| Refusals.RefusalLeavesOnePending | src/workers/worker_pool.cpp:113-134 | A run of one write that ends refused with a pending counter of 1 and a flush that cannot see zero |
| Waits.WaitOkMeansDelivered | src/c_boundary/amio_core.cpp:1188-1213 | In every run wait returns AMIO_OK or a timeout; AMIO_OK means executed without throwing if and only if there are workers, and then a timeout means not executed by then or threw |
| Waits.FailureIsNeverReported | src/c_boundary/amio_core.cpp:791-799 | A write that was refused or threw is only ever answered with a timeout |
| Waits.ThrownWriteTimesOut | src/c_boundary/amio_core.cpp:791-799 | A run of one write whose driver call throws, and every wait for it times out |
| Selections.BoxSame | src/prefetch/prefetch_queue.cpp:44-62 | The comparison holds exactly when both selections address the same region, whatever the unused entries hold |
| Selections.SameIff | src/prefetch/prefetch_queue.cpp:44-62 | The regions are the same when both are the full record, or the ranks and the leading min(rank, 7) entries of offsets, extents and strides agree |
| Prefetch.RunInv | src/prefetch/prefetch_queue.cpp:79-433 | Tracking, buffer ownership, contents and answers are sound in every interleaving |
| Prefetch.BuffersAreConserved | src/prefetch/prefetch_queue.cpp:218-301 | Each acquired buffer has exactly one holder among fetches, staged map, callers and others; before cancellation pending, staged and failed are disjoint and fetches match pending one to one |
| Prefetch.LandConserves | src/prefetch/prefetch_queue.cpp:218-235 | A landing fetch never overwrites a staged buffer |
| Prefetch.CancellationReturnsStaged | src/prefetch/prefetch_queue.cpp:237-254 | After the destructor's cancellation with no fetch running only callers' and others' buffers remain acquired, whatever other users do with the pool between the single releases |
| Prefetch.SelectionIsExact | src/prefetch/prefetch_queue.cpp:121-172 | Every AMIO_OK carries a buffer of the requested timestep, and on the compared paths one read with the requested selection |
| PrefetchLooks.MatchIsServed | src/prefetch/prefetch_queue.cpp:121-160 | In every run a look that finds the requested window staged hands exactly that buffer to the caller with AMIO_OK, still referenced and no longer tracked |
| PrefetchLooks.StaleWindowIsReplaced | src/prefetch/prefetch_queue.cpp:131-171 | In every run of an uncancelled queue a look, at the start of a call or during its wait, that finds another window staged releases it; after the caller's next section the buffer is unreferenced and the timestep pending with a new fetch of the latched selection |
| PrefetchLooks.SchedulingTracks | src/prefetch/prefetch_queue.cpp:139-171 | Whatever happens between those two sections, after the second one the timestep is tracked or the queue cancelled |
| PrefetchLooks.OkOnExpiryNeedsLanding | src/prefetch/prefetch_queue.cpp:187-204 | In every run a call that expires is answered AMIO_OK only if a fetch of its timestep landed after its last look; otherwise with a failure and no buffer, a timeout if none is on record |
| PrefetchLooks.NothingThereWaits | src/prefetch/prefetch_queue.cpp:150-188 | A look that finds nothing waits and changes nothing, and a wakeup leads to another look |
| PrefetchLooks.CancelledCallFails | src/prefetch/prefetch_queue.cpp:182-185 | On a cancelled queue a waiting call that finds nothing fails at its next look |
| PrefetchLooks.CancelledFetchNeverBegins | src/prefetch/prefetch_queue.cpp:303-311 | In every run after a cancellation no fetch is created, and one that had not begun never holds a buffer |
| Prefetch.OneRegionAlwaysMatches | src/prefetch/prefetch_queue.cpp:79-206 | If all calls of a run select one region, and a warm-up does too, every AMIO_OK matches its request on every path, expiry included |
| Prefetch.MatchesIffSame | src/prefetch/prefetch_queue.cpp:187-196 | For callers that use two selections, any depth, any number of records and the replenishing fetches included, every AMIO_OK matches if and only if the two address the same region |
| Prefetch.TwoRegionsMeet | src/prefetch/prefetch_queue.cpp:187-196 | For any two selections, depth and number of records a run of one caller in which a request with the second is answered with a buffer read with the first |
| Prefetch.FailureBlocksFetching | src/prefetch/prefetch_queue.cpp:271-281 | As long as a failure stays on record, over any run, no fetch of its timestep exists and the driver is not asked for it |
| Prefetch.FailedFetchHoldsNothing | src/prefetch/prefetch_queue.cpp:411-432 | A failed fetch has returned its buffer when it records the failure |
| Prefetch.FailureIsDelivered | src/prefetch/prefetch_queue.cpp:108-114 | A call for a failed timestep, wherever inside get_buffer it stands, can only return that failure with a null buffer, unless a cancellation ends or another reader of the same timestep takes the failure first |
| Prefetch.FailureIsNotLost | src/prefetch/prefetch_queue.cpp:174-202 | With any number of readers of the timestep, the failure stays on record until one of them is told or a cancellation ends |
| Prefetch.DeliveredFailureIsRefetched | src/prefetch/prefetch_queue.cpp:108-114 | In every run, telling a reader the failure leaves the timestep untracked, and the next call for it, by any reader with any selection, fetches it afresh with that selection |
| PrefetchSync.SyncScheduleOutcome | src/prefetch/prefetch_queue.cpp:303-433 | A fetch on the calling thread ends in exactly one of three ways, each with its complete new state |
| PrefetchSync.SequentialScan | src/prefetch/prefetch_queue.cpp:97-216 | Reading first, …, t makes the driver read first, …, min(t + depth, T - 1) once each in increasing order, and exactly (t, min(t + depth, T - 1)] stays tracked |
| PrefetchSync.ScanServesFromStage | src/prefetch/prefetch_queue.cpp:121-130 | In such a scan every request after the first is answered by moving the already staged buffer to the caller |
| PrefetchSync.CancelOutcome | src/prefetch/prefetch_queue.cpp:237-254 | A cancellation on one thread, as a run of single releases, returns each staged buffer in key order and clears the queue |
| SyncRefinement.SyncGetIsARun | src/prefetch/prefetch_queue.cpp:79-206 | Whatever a synchronous call does is a run of the concurrent queue with the same answer |
| SyncRefinement.SyncScheduleSettles | src/prefetch/prefetch_queue.cpp:271-301 | A synchronous fetch leaves its timestep staged with the latched selection or failed, never pending |
| SyncRefinement.SyncNeverWaits | src/prefetch/prefetch_queue.cpp:79-206 | An uncancelled synchronous call never depends on wakeups or the deadline, returns a buffer exactly with AMIO_OK, and then one of the right timestep and selection |
| PrefetchObject.PrefetchQueue.SyncFetch | src/prefetch/prefetch_queue.cpp:303-433 | The fetch, its cancellation check and its three outcomes on the object's fields |
| PrefetchObject.PrefetchQueue.ScheduleFetch | src/prefetch/prefetch_queue.cpp:271-301 | Skips cancelled queues and tracked timesteps, else fetches with the latched selection |
| PrefetchObject.PrefetchQueue.MarkComplete | src/prefetch/prefetch_queue.cpp:218-228 | Stages the buffer and records its selection, or the absence of one |
| PrefetchObject.PrefetchQueue.MarkFailed | src/prefetch/prefetch_queue.cpp:230-235 | Records the failure |
| PrefetchObject.PrefetchQueue.GetBuffer | src/prefetch/prefetch_queue.cpp:79-206 | Status, buffer and complete new state are those of the model |
| PrefetchObject.PrefetchQueue.WaitFor | src/prefetch/prefetch_queue.cpp:150-205 | The wait loop with spurious wakeups, stale replacement and expiry |
| PrefetchObject.PrefetchQueue.ScheduleInitial | src/prefetch/prefetch_queue.cpp:64-77 | Warm-up fetches [0, min(depth, T)) in order |
| PrefetchObject.PrefetchQueue.ScheduleNext | src/prefetch/prefetch_queue.cpp:208-216 | Fetches t + depth if it exists and is untracked |
| PrefetchObject.PrefetchQueue.CancelPending | src/prefetch/prefetch_queue.cpp:237-254 | Returns every staged buffer and clears all maps |
| Views.ViewsAreCounted | src/c_boundary/amio_core.cpp:1151-1186 | In every run outstanding_views is the number of live view handles of the dataset, distinct live views have distinct handles, buffers and storage, and the dataset of a live view is open |
| Views.ViewStorageIsStable | src/c_boundary/amio_core.cpp:1151-1186 | As long as a view lives, its record and the storage behind it do not change |
| Views.CloseEffect | src/c_boundary/amio_core.cpp:486-567 | close is refused with no change at all exactly when the dataset has a live view; otherwise its handle goes and every view's storage stays |
| Views.CloseReturnsStaged | src/c_boundary/amio_core.cpp:499-517 | An accepted close leaves every buffer that the dataset's queues had staged unreferenced and without owner, and every other slot as it was |
| Views.ReleaseViewKeeps | src/c_boundary/amio_core.cpp:1224-1253 | Releasing a view keeps handles, counters and buffers consistent |
| Views.SecondReleaseIsRejected | src/c_boundary/amio_core.cpp:1224-1253 | A release frees the view's buffer, and a second release at any time within the generation bound is rejected with no effect |
| Views.ReadKeeps | src/c_boundary/amio_core.cpp:1141-1186 | A read changes nothing unless it succeeds, and then adds one consistent view |
| Views.ReadVerdict | src/c_boundary/amio_core.cpp:1133-1186 | The answer of a read for every input: the handle's error, else that of the checks or the queue, else a backend failure when no buffer came, else AMIO_OK |
| Views.ReadEffect | src/c_boundary/amio_core.cpp:1141-1186 | A successful read adds one new view handle, one record with the buffer, and one to the dataset's counter; the buffer is the queue's no longer |
| Views.Coordinator.ReadView | src/c_boundary/amio_core.cpp:1133-1186 | The view part of read on the real tables: errors of the checks and of the queue are passed through, a null buffer is a backend failure |
| Views.Coordinator.ReleaseViewHandle | src/c_boundary/amio_core.cpp:1224-1253 | release_view on the real tables |
| Views.TeardownStatus | src/c_boundary/amio_core.cpp:531-555 | A recorded failure is reported first; without one the status is AMIO_OK exactly when flush and close of the driver return |
| Views.Coordinator.CloseDataset | src/c_boundary/amio_core.cpp:486-567 | close_dataset on the real tables: refusal, return of the staged buffers, status, retirement of the handle |
| Indexing.DigitsOfLin | src/drivers/grib2/grib2_driver.cpp:1412-1428 | Every multi-index of a box has a position below the element count, and its digits give the multi-index back |
| Indexing.LinOfDigits | src/drivers/grib2/grib2_driver.cpp:1412-1428 | Every position below the element count is that of its digits |
| Indexing.TickIsSuccessor | src/drivers/grib2/grib2_driver.cpp:1421-1427 | One odometer increment is one step in row-major order and wraps from the last multi-index to the first |
| Indexing.LinIsDot | src/drivers/grib2/grib2_driver.cpp:1404-1409 | The row-major position is the sum of index times derived stride |
| Indexing.Advance | src/drivers/grib2/grib2_driver.cpp:1421-1427 | The in-place increment loop, last dimension first |
| Indexing.ComputeRowStrides | src/drivers/grib2/grib2_driver.cpp:1404-1409 | The stride loop, last dimension first |
| Indexing.Offset | src/drivers/grib2/grib2_driver.cpp:1415-1418 | The accumulation loop is the weighted sum |
| Grib2Grid.FitsIffInside | src/c_boundary/amio_core.cpp:866-880 | The last-index test accepts a box exactly when something is selected in every dimension and every selected index is in range |
| Grib2Grid.ValidateBox | src/c_boundary/amio_core.cpp:857-883 | validate_bbox accepts a null box, and otherwise exactly boxes of the right rank all of whose selected indices are in range |
| Grib2Grid.CheckBox | src/drivers/grib2/grib2_driver.cpp:1385-1401 | The driver's check accepts exactly the boxes of the grid's rank all of whose selected indices exist, and counts their points |
| Grib2Grid.Gather | src/drivers/grib2/grib2_driver.cpp:1403-1428 | For any rank, out[lin(i, box)] = full[lin(p, grid)] for every multi-index i of the box and the p with p[d] = offset[d] + i[d] * stride[d]; nothing beyond the box is written; the loop leaves the record if and only if the last selected position lies past it |
| Grib2Grid.InRangeIff | src/drivers/grib2/grib2_driver.cpp:1412-1419 | Every accepted box stays in bounds if and only if the record has at least the grid's number of points |
| Grib2Grid.ReadRecord | src/drivers/grib2/grib2_driver.cpp:1337-1431 | A read delivers the full record or, in that sense, the selected sub-region, and reports its bytes; a rejected read leaves the buffer alone |
| Grib2Grid.ReadVerdict | src/drivers/grib2/grib2_driver.cpp:1340-1401 | A read is rejected exactly for no points, a box of the wrong rank or with an index that does not exist, or more bytes than the capacity; it leaves the record exactly when the last selected point of rows lies past it |
| Grib2Grid.BoxOfRows | src/drivers/grib2/grib2_driver.cpp:1411-1428 | For a grid of nj rows of ni points, out[j * columns + i] = full[(offset0 + j * stride0) * ni + offset1 + i * stride1] |
| Grib2Grid.BoxOfPoints | src/drivers/grib2/grib2_driver.cpp:1411-1428 | For a single row, out[i] = full[offset + i * stride] |
| Grib2Grid.EnoughPointsNeverEscapes | src/drivers/grib2/grib2_driver.cpp:1355-1431 | A record with the points of its field's grid is never left, whatever the box and capacity |
| Grib2Grid.ComputeAcquireSize | src/prefetch/prefetch_queue.cpp:323-362 | The loops compute the size that a fetch asks the pool for |
| Grib2Grid.SizeAsked | src/prefetch/prefetch_queue.cpp:323-362 | For every element size: element size times the window's extents when these are positive, else times the shape's, else the nominal capacity; for a box that validate_bbox accepts always the first |
| Grib2Grid.SizeChain | src/prefetch/prefetch_queue.cpp:323-362 | For records of the indexed geometry, a box that validate_bbox accepts never trips the driver's checks, never leaves the record, fits the acquired buffer, and uses element size times the product of the view's extents |
| Grib2Grid.TotalElements | src/drivers/grib2/grib2_driver.cpp:1611-1623 | The element count, 0 for an unusable shape |
| Grib2Grid.IsContiguous | src/drivers/grib2/grib2_driver.cpp:1519-1550 | Holds exactly when the strides in use, zeros resolved, are the row-major ones |
| Grib2Grid.PackRowMajor | src/drivers/grib2/grib2_driver.cpp:1557-1605 | For any rank and any strides the packing loops deliver the closed-form gather, or read outside the source when one of its elements lies there |
| Grib2Grid.InboundsIff | src/drivers/grib2/grib2_driver.cpp:1579-1592 | All elements lie inside the source if and only if no stride that matters is negative and the source reaches as far as the last element |
| Grib2Grid.StagedInboundsIff | src/c_boundary/amio_core.cpp:636-736 | For the bytes that write stages: packing stays inside if and only if no stride that matters is negative and the last element lies among the staged ones |
| Grib2Grid.PaddedRowsEscape | src/c_boundary/amio_core.cpp:636-646 | An accepted shape of extents 2 x 2 and strides 4, 1 whose packing reads behind its 16 staged bytes |
| Grib2Grid.PackedAt | src/drivers/grib2/grib2_driver.cpp:1579-1592 | Element e of that gather is the slice of the source at the sum of digit times stride |
| Grib2Grid.PackDelivers | src/drivers/grib2/grib2_driver.cpp:1557-1605 | What packing delivers has one element per multi-index i, at its row-major position, copied from the sum of index times stride in use |
| Grib2Grid.ResolvedAt | src/drivers/grib2/grib2_driver.cpp:1566-1575 | The stride in use is the given one, or for 0 the product of the extents behind the dimension |
| Grib2Grid.EncodePayload | src/drivers/grib2/grib2_driver.cpp:1099-1109 | Fast and slow path hand the encoder the same bytes, and leave the source in the same cases |
| Grib2Grid.IdentityIff | src/drivers/grib2/grib2_driver.cpp:1519-1550 | The gather is the identity if and only if the strides are row-major in every dimension of extent above 1 |
| Text.TokenizeRender | src/drivers/grib2/grib2_driver.cpp:251-255 | A tokenizer takes a name of tagged decimal integers apart again, negative ones included |
| FieldIdentity.NameText | src/drivers/grib2/grib2_driver.cpp:265-317 | The text of every name: d, _c, _n, _s, _l with their integers, and behind them the template's own tags |
| FieldIdentity.ParseOfName | src/drivers/grib2/grib2_driver.cpp:265-317 | A parser recovers the template number and every descriptor that a name prints |
| FieldIdentity.NameIsInjective | src/drivers/grib2/grib2_driver.cpp:265-317 | Names of supported templates are equal exactly when template and printed descriptors are |
| FieldIdentity.SameNameIff | src/drivers/grib2/grib2_driver.cpp:265-317 | For fields of any templates names are equal exactly when the printed descriptors are, and the template numbers, where unsupported ones count as 0 |
| FieldIdentity.UnsupportedNameCollides | src/drivers/grib2/grib2_driver.cpp:310-314 | A name is lossless if and only if the template is supported; otherwise it is a template 4.0 name |
| FieldIdentity.DecodedNameIsDirectName | src/drivers/grib2/grib2_driver.cpp:329-391 | Decoding a built template through the surface table and the extractor gives the settings it prints, hence the name printed from the settings |
| FieldIdentity.EncoderAcceptsIff | src/drivers/grib2/grib2_driver.cpp:1186-1217 | The encoder builds exactly the supported templates, each long enough for its surface indices |
| RecordIndex.GeometryIsConsistent | src/drivers/grib2/grib2_driver.cpp:558-573 | The indexed Ni and Nj multiply to the number of points, and so does the described shape |
| RecordIndex.EncodedGridComesBack | src/drivers/grib2/grib2_driver.cpp:681-736 | A grid that either encoder template wrote is indexed with its own Ni and Nj when the record has that many points, and as a single row when it has not |
| RecordIndex.IncrementSpans | src/drivers/grib2/grib2_driver.cpp:704-707 | The increment written for n points is the largest whole step that stays within the span, whatever its sign |
| RecordIndex.BuildRecordIndex | src/drivers/grib2/grib2_driver.cpp:488-588 | The scan fails exactly when something is unreadable; otherwise the index maps each identity to its records in file order and the grid of the first |
| RecordIndex.PickIsExact | src/drivers/grib2/grib2_driver.cpp:575-582 | The record list of an identity holds exactly the locations of its fields |
| RecordIndex.ListedIff | src/drivers/grib2/grib2_driver.cpp:519-582 | A location is listed under a name if and only if it is that of some field, numbered from 1 within its message, whose own header prints as the name |
| RecordIndex.GeometryIsFirst | src/drivers/grib2/grib2_driver.cpp:575-580 | An entry's grid is that of the first field of its name in the file |
| RecordIndex.RecordsInFileOrder | src/drivers/grib2/grib2_driver.cpp:581-582 | records[t] is strictly increasing in file position, so no record occurs twice |
| RecordIndex.ScanIsInFileOrder | src/drivers/grib2/grib2_driver.cpp:488-588 | Messages found one after the other give fields in file order |
| RecordIndex.SameEntryIff | src/drivers/grib2/grib2_driver.cpp:552-575 | Two fields of any templates share an entry exactly when they agree in every printed descriptor and in the template, where unsupported ones count as 0 |
| RecordIndex.ShortRecordEscapesIff | src/drivers/grib2/grib2_driver.cpp:1353-1428 | For a two-dimensional field the coordinator accepts the whole-grid box, and reading it leaves a record if and only if that has fewer points than the grid |
| RecordIndex.MixedFileEscapes | src/drivers/grib2/grib2_driver.cpp:575-582 | A file of a 2 x 2 and a 3-point record under one identity is indexed with the first grid, and a whole-grid read of timestep 1 leaves that record |

## Left out

- netCDF, Zarr and TensorStore drivers, g2c, MPI, configuration, logging, thread pinning and attribute queries: libraries or plumbing; a driver's read or write is "delivers these bytes or throws", and the header decoder and message scan are inputs.
- Real time: a deadline is a step that may happen at any wait, and no claim depends on a wakeup arriving.
- Staging.StagingPool.Acquire: the growth retry is one more look in the same pass instead of a jump to the loop head, and the one-time growth warning is left out.
- The length of the backpressure wait and its wakeups: a submission waits for any activity of other threads, so no bound on the queue depth is claimed.
- Workers.DrainedMeansDone: does not cover a drain that returns by its own timeout.
- Workers.RotationsAreBounded: does not bound passes that read an outdated exec_seq; such a pass only rotates once more.
- Workers: the return-code overload of submit_write, the order of prefetch tasks by distance, the outcome registry and the rejection of prefetch tasks after shutdown; a prefetch task is a count here and its fetch is modelled in `Prefetch`.
- WritePath: input validation of `write`, the I/O handle, fallback buffers without a staging pool, strided host arrays (bytes are copied contiguously), merging of keys by a hash collision, and several host threads on one dataset; the pool runs without watermarks, as the coordinator configures it (`src/c_boundary/amio_core.cpp:107-112`).
- WritePath.Refuses: reads the shutdown flag in the same step as the queue length, where the code reads it before it takes the lock; with one host thread nothing can set it in between. `Workers.Admission` keeps the two apart.
- Waits.WaitOkMeansDelivered: the validity of the I/O handle and the length of the deadline.
- WritePath.FlushOkMeansDelivered: covers runs of fewer than 2^64 writes, the range of the pending counter.
- Prefetch: the null-pool and null-driver branches of `sync_fetch`; the over-capacity check after a read is one of the ways a driver read may fail.
- Prefetch: deletion of the queue while a fetch still runs, and fetches that the worker pool drops after its shutdown.
- PrefetchSync.SequentialScan: only the queue's part of `read`; the view handle is modelled in `Views`.
- PrefetchObject: staging through pool values rather than a shared pool object, so aliasing with other users of the pool is not in this class; `Prefetch` has those users.
- Views.Coordinator.ReadView: does not model the view's shape and element type (for the extents see `Grib2Grid.SizeChain`) nor the replenishing fetch after it (see `PrefetchSync.SequentialScan`).
- Views.Coordinator.CloseDataset: does not model the wait for pending writes, which only time bounds.
- Views: shapes and element types of views, opening of the driver, finalize with views still live, and closing two datasets at once.
- Views.ViewsAreCounted: covers runs of fewer than 2^32 calls, within which the slot index space cannot run out.
- Views.SecondReleaseIsRejected: covers fewer than 2^32 - 2 later calls, the wrap-around of a generation.
- Lazy creation of per-variable read state in `resolve_variable`: a lookup table with one entry per name.
- Grib2Grid: 64-bit overflow of box arithmetic and extent products; integers are unbounded.
- Grib2Grid.PackRowMajor: offsets are mathematical integers, so a negative one counts as outside the source; in the code it wraps to a huge one.
- FieldIdentity: conformance of template positions to the WMO tables, which these files cannot decide, and narrowing of values to the library's integer type.
