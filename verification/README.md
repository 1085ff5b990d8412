# A verified model of the asynchronous file accessors

The library offers one interface, get, prepare a buffer, put, wait, cancel, release, over two implementations. The mmap
accessor runs requests on a pool of five threads that take tasks from a growable queue; the AIO accessor hands them to
POSIX asynchronous I/O and keeps a growable list of them. This project models both and proves what their callers rely on,
for every order in which the threads can take their steps.

## How it is built

**Two state machines.** `Lifecycle` (with `PoolProtocol` for the thread pool inside it) describes the mmap accessor:
requests, waiting threads with their timers, workers, the queue, files, and the kernel's tables of mappings and
descriptors. `AioProtocol` describes the AIO accessor: requests, the heap, the list. There is one step per section that the
C code runs under a lock, or alone between two such sections. `Enabled` is a step's condition, `Step` its effect, and
`Next` puts the two together. What a system call answers, which thread a condition signal wakes (at least one of those
blocked), and when spurious wake-ups, timers and AIO callbacks come are parameters of the steps, so nothing is fixed about
them. A run is any sequence of enabled steps from the state after initialisation.

**Theorems about runs.** `PoolInvariants`, `PoolCounters` and `Shutdown` prove the pool's inductive invariant, the drain and
the termination of a shutdown. `RequestInvariants` ties every request to its place between queue and worker; `Resources`,
`Runs`, `Release`, `Statuses`, `Requests`, `Outcomes` and `Waiters` build on it. `AioBuffers` does the same for AIO.

**The imperative form.** `TaskQueues`, `ThreadPools`, `MmapAccessors` and `AioAccessors` hold classes whose fields are those
of the C structures, updated in place. Each of their methods is one section of the C code and is proved to be one step of
the machine: `Next(old(View()), e) == Some(View())`. Fields that the C code does not have, such as the history of a status
or who took a task, are there because the specification speaks of them. `Schedules.Perform` and `AioOperations.Perform` take
any enabled step this way and record it in a ghost run, so every theorem about runs applies to the objects.

**Whole operations.** `Operations` and `AioOperations` contain waitRequest, waitAll, cancelRequest, cancelAll, put and
releaseAll with their loops. A schedule parameter says what the other threads do wherever the caller holds no lock: any
sequence of steps, except those that belong to the calling thread itself. The contracts hold for every schedule. Where an
operation would block for ever under a finite schedule it returns with `done == false`, and its contract says on what it is
blocked. Each contract also gives the operation's `moves`: its own acts in order, and between them the segments of the
schedule in which the others run. `Traces.TracedFrom` says that the steps added to the run are these moves exactly.

## Assumptions on callers and schedules

Five of them are predicates on runs, used only where they are needed. For each the exact condition is proved, and
there is a run in which it fails and the guarantee fails with it, in `Races` or, for the last, in `AioBuffers`.

- `Statuses.Timely`: SUBMITTED at line 451 of `src/mmap_file_accessor/mmap_file_accessor.c`, which is written after the
  append and without a lock, is written before the worker's verdict; a write before the task is picked up always is.
  `Statuses.HistoriesIffTimely` says that status histories are in order if and only if this holds.
- `Release.Orderly` and `Release.InTime`: no put appends behind a sentinel, or at least not behind the fifth.
  `Release.ShapeIffOrderly` says that the first is exact for the shape of the queue, `Release.DrainIffInTime` that the second
  is exact for the drain. The caller of releaseAll secures both by `Release.Quiet`: when it begins, no put stands between the
  unlocked isRunning gate (lines 209-210) and the append. `Release.ReleaseInOrderIffQuiet` says that this is exact too.
- `Waiters.Sole`: no two threads wait for one request at a time. What is needed is that no two are blocked on it;
  `Waiters.NoWaiterForgottenIff` says that this is exact.
- `Waiters.AfterPut`: a waiting thread looks at its request after the put has returned. `Waiters.LeaversDoneIffAfterPut` says
  that this is exact for a whole run, `Waiters.WaitsEndDecided` that it is exact for each single wait. A caller secures it
  by beginning the wait after the put; `Waiters.WaitBeforePut` says that nothing less will do.
- `AioBuffers.Careful`: no import over a tried allocation of an AIO request and no allocation over a block.
  `AioBuffers.InOrderIffCareful` says that this is exact.

The others are built into the steps.

- A request is prepared at most once and put at most once; a read is put with an imported buffer, and an allocation can
  succeed for a write only, because reads are opened read-only.
- releaseAll is called once. waitAll and cancelAll are not called once sentinels are in the queue, since a sentinel's
  argument is NULL.
- The queue's allocations succeed (lines 214-231 go on to write after a failed realloc), and fewer than 2^29 - 1024 - 5
  ordinary tasks are ever submitted.
- The unlocked counter updates at lines 638-639 are atomic, and the untimed wait at lines 499-502 is treated as holding the
  request's lock, as its timed twin does.
- pthread_cond_signal() unblocks at least one blocked thread, and pthread_cond_wait() may return without a signal (System
  Interfaces volume of IEEE Std 1003.1-2017).
- An AIO request is not touched, and has no callback, after its release.

Points where the code decides against what one might expect, and the model follows it: releaseAll does nothing when no task
was ever submitted; a descriptor 0 is never closed; a request found cancelled at the first check keeps its descriptor open; a
rejected put leaves a dangling buffer pointer; an AIO put whose operation could not be started still becomes SUBMITTED.

## Model

| member | source | states |
|---|---|---|
| `Growth.GrowthBound` | src/mmap_file_accessor/mmap_file_accessor.c:214-234 | the 32-bit byte size passed to realloc leaves room for the next slot if and only if fewer than 2^29 - 1024 slots are in use; there the product first wraps, to zero |
| `Growth.EverySlotIsCovered` | src/mmap_file_accessor/mmap_file_accessor.c:214-234 | for any number of submissions up to the bound, every slot written lies in the block it is written to, and the next block is empty; serves both lists |
| `Growth.NextCovered` | src/mmap_file_accessor/mmap_file_accessor.c:231-234 | a block grown at page boundaries always has the next slot |
| `TaskQueues.TaskQueue.Submit` | src/mmap_file_accessor/mmap_file_accessor.c:212-239 | append to a FIFO: the tasks to do grow at the end, the whole history survives a reallocation, the four counters stay consistent |
| `TaskQueues.TaskQueue.Take` | src/mmap_file_accessor/mmap_file_accessor.c:168-170 | the task taken is the oldest one to do; the history is untouched |
| `TaskQueues.TaskQueue.constructor` | src/mmap_file_accessor/mmap_file_accessor.c:679-686 | the initial queue is empty |
| `ThreadPools.ThreadPool.constructor` | src/mmap_file_accessor/mmap_file_accessor.c:691-712 | five threads, none registered, empty queue, running |
| `ThreadPools.ThreadPool.Submit` | src/mmap_file_accessor/mmap_file_accessor.c:212-239 | the locked section of submission is one step of the pool's machine, on the array-based queue |
| `ThreadPools.ThreadPool.Start` | src/mmap_file_accessor/mmap_file_accessor.c:150-157 | registration of a worker is one step |
| `ThreadPools.ThreadPool.Check` | src/mmap_file_accessor/mmap_file_accessor.c:162-173 | a worker under the lock sleeps on an empty queue and else takes its front: one step |
| `ThreadPools.ThreadPool.Begin` | src/mmap_file_accessor/mmap_file_accessor.c:176-187 | a worker leaves exactly on a sentinel seen with isRunning off, else counts itself busy |
| `ThreadPools.ThreadPool.CountIdle` | src/mmap_file_accessor/mmap_file_accessor.c:191-196 | the return from a task function is one step: run once more, busy down, idle up |
| `ThreadPools.ThreadPool.Close` | src/mmap_file_accessor/mmap_file_accessor.c:625 | closing the gate is one step |
| `ThreadPools.ThreadPool.Join` | src/mmap_file_accessor/mmap_file_accessor.c:637-639 | joining the next exited worker is one step |
| `ThreadPools.ThreadPool.Perform` | src/mmap_file_accessor/mmap_file_accessor.c:142-201 | the class takes every enabled step of the pool's machine exactly as the machine says |
| `PoolInvariants.StepKeepsHolders` | src/mmap_file_accessor/mmap_file_accessor.c:159-201 | every step keeps: the entries before head are the taken ones, each taken and unfinished entry is in the hands of exactly the worker that took it, an ordinary task is run at most once, a sentinel never |
| `PoolInvariants.StepKeepsIndex` | src/mmap_file_accessor/mmap_file_accessor.c:209-241 | every step keeps: one entry per submitted request, sentinels numbered in order, none while isRunning |
| `PoolInvariants.StepKeepsShutdown` | src/mmap_file_accessor/mmap_file_accessor.c:625-640 | every step keeps: joins come after the fifth sentinel and in thread order, and nothing behind the fifth sentinel is taken |
| `PoolInvariants.EveryWorkerHoldsASentinel` | src/mmap_file_accessor/mmap_file_accessor.c:176-180 | once five sentinels are taken, each of the five workers holds one |
| `PoolCounters.StepKeepsCountInv` | src/mmap_file_accessor/mmap_file_accessor.c:150-157 | every step keeps busy, idle and alive equal to what they count, and each decrement finds its counter positive |
| `PoolCounters.StepKeepsIndices` | src/mmap_file_accessor/mmap_file_accessor.c:150-151 | worker indices stay distinct and below the number of started workers |
| `PoolCounters.StepKeepsWakeInv` | src/mmap_file_accessor/mmap_file_accessor.c:162-173 | every step keeps: if a worker sleeps, the tasks to do are at most the woken workers |
| `PoolCounters.NoLostWakeup` | src/mmap_file_accessor/mmap_file_accessor.c:162-173 | a non-empty queue with a sleeping worker has a woken one, whose next step takes a task |
| `Shutdown.StepKeepsPoolInv` | src/mmap_file_accessor/mmap_file_accessor.c:142-248 | the whole pool invariant is inductive |
| `Shutdown.Drained` | src/mmap_file_accessor/mmap_file_accessor.c:625-640 | after five joins: each worker consumed one sentinel and no two the same; a task has been run, once, if and only if it was queued before the fifth sentinel; the counters are zero |
| `Shutdown.DrainedCompletely` | src/mmap_file_accessor/mmap_file_accessor.c:625-640 | head == tail and todoCnt == 0 if and only if nothing was queued behind the fifth sentinel, if and only if every accepted task was run |
| `Shutdown.MeasureFalls` | src/mmap_file_accessor/mmap_file_accessor.c:159-200 | sentinels to send, queued tasks and worker phases add up to a measure that every shutdown step lowers |
| `Shutdown.ShutdownNeverStuck` | src/mmap_file_accessor/mmap_file_accessor.c:159-200 | with all sentinels sent and no worker to join, some worker can move |
| `RequestInvariants.StepKeepsCore` | src/mmap_file_accessor/mmap_file_accessor.c:46-139 | every step keeps the invariant that ties each request's buffer, descriptor, mapping attempt and status to its place between queue and worker |
| `RequestInvariants.WorkingPlace` | src/mmap_file_accessor/mmap_file_accessor.c:189 | a worker inside a task function works on an accepted request, the one of the entry it took |
| `RequestInvariants.PlaceAfterStep` | src/mmap_file_accessor/mmap_file_accessor.c:159-201 | the place of each request after each step |
| `Runs.InvThroughoutRun` | src/mmap_file_accessor/mmap_file_accessor.c:142-248 | the invariant holds in every state of every run |
| `Runs.WorkersNotForgotten` | src/mmap_file_accessor/mmap_file_accessor.c:162-173 | in every reachable state with a sleeping worker, the tasks to do are at most the woken workers, and if there are any some worker is woken |
| `Runs.CountersExact` | src/mmap_file_accessor/mmap_file_accessor.c:150-157 | in every reachable state busy + idle == alive, each equal to the workers it stands for, at most five; indices distinct and below five |
| `Runs.SentinelsFindThePoolClosed` | src/mmap_file_accessor/mmap_file_accessor.c:176-180 | in every reachable state a worker holding a sentinel can only leave its loop; it never calls the null function |
| `Runs.MappingsConserved` | src/mmap_file_accessor/mmap_file_accessor.c:371-379 | over any run a request's buffer is mapped at most once, and munmap is called on it as often as it was mapped, except while the request still owns it; every call on a pointer that is not null counts |
| `Runs.ReleasesAreOwned` | src/mmap_file_accessor/mmap_file_accessor.c:127-134 | every munmap of a pointer that is not null, and every close, hits an address or descriptor the kernel still has for that very owner, and takes it away |
| `Runs.CallsAreDrops` | src/mmap_file_accessor/mmap_file_accessor.c:104-106 | munmap is called exactly when an owner gives up what it owns |
| `Runs.ClosedAtMostOnce` | src/mmap_file_accessor/mmap_file_accessor.c:86-90 | over any run a request's descriptor is closed at most once, and exactly once iff its field is -1 |
| `Runs.IoIsOnLiveResources` | src/mmap_file_accessor/mmap_file_accessor.c:59-64 | in every reachable state a worker that maps does so through the request's open descriptor, one that copies reads its own live mapping into the caller's memory, one that syncs does so on a live mapping of the request, if one could be made |
| `Resources.StepKeepsMaps` | src/mmap_file_accessor/mmap_file_accessor.c:440-446 | the live mappings are exactly those that requests and workers own |
| `Resources.StepKeepsFds` | src/mmap_file_accessor/mmap_file_accessor.c:130-134 | the open descriptors are exactly those the requests name |
| `Resources.MapsFollowOwners` | src/mmap_file_accessor/mmap_file_accessor.c:80-84 | mmap is at a free address for an owner that had none; munmap takes what its owner owns |
| `Release.QueueShapeThroughoutRun` | src/mmap_file_accessor/mmap_file_accessor.c:209-210 | in every run in which no task is appended while a sentinel is in the queue, the queue is a run of ordinary tasks followed by the sentinels sent so far |
| `Release.ShapeIffOrderly` | src/mmap_file_accessor/mmap_file_accessor.c:209-212 | that condition is exact: the queue has this shape throughout a run if and only if no task is appended behind a sentinel |
| `Release.DrainIffInTime` | src/mmap_file_accessor/mmap_file_accessor.c:625-640 | in every run, once five workers are joined: the queue is empty, if and only if every accepted request's task function ran to its end, if and only if no put appended behind the fifth sentinel |
| `Release.ReleaseInOrderIffQuiet` | src/mmap_file_accessor/mmap_file_accessor.c:625-631 | the caller's check is exact: however a run goes on with releaseAll, the sentinels stay last (and the fifth one stays last), if and only if no put stands between the gate and the append when it begins |
| `Release.GatedCanBeOvertaken` | src/mmap_file_accessor/mmap_file_accessor.c:209-212 | every put that stands at the gate when releaseAll begins can end up behind the fifth sentinel |
| `Release.QuietRunsAreInOrder` | src/mmap_file_accessor/mmap_file_accessor.c:209-210 | a caller who begins releaseAll only when no put stands at the gate meets both conditions |
| `Release.InTimeRunsDrain` | src/mmap_file_accessor/mmap_file_accessor.c:625-640 | in every run without a put behind the fifth sentinel, once five workers are joined each accepted request's task function ran to its end exactly once, and none still owns a mapping |
| `Release.ReleasedRequests` | src/mmap_file_accessor/mmap_file_accessor.c:86-90 | after the joins, an accepted request is finished iff queued before the fifth sentinel; its descriptor is open iff its worker skipped it, or open had returned 0 |
| `Release.ReleasedMappings` | src/mmap_file_accessor/mmap_file_accessor.c:102-107 | after a complete drain the only mappings left are buffers of write requests never appended |
| `Release.WorkIsBounded` | src/mmap_file_accessor/mmap_file_accessor.c:159-200 | from any state, any run without new appends and spurious wake-ups has at most Measure steps of workers and of releaseAll, whatever else happens in between; so a shutdown terminates |
| `Release.UnfinishedMeansWork` | src/mmap_file_accessor/mmap_file_accessor.c:159-189 | while the pool is open and some accepted request is not finished, a worker can take a step, of which WorkIsBounded allows finitely many |
| `Release.ShutdownProgress` | src/mmap_file_accessor/mmap_file_accessor.c:159-200 | while a worker is not joined, some shutdown step is enabled |
| `Release.StuckMeansReleased` | src/mmap_file_accessor/mmap_file_accessor.c:635-640 | the only state with no shutdown step left is the fully joined one, with all counters zero |
| `Statuses.FinalLostOnlyToLateMark` | src/mmap_file_accessor/mmap_file_accessor.c:451 | a final status is overwritten by a step if and only if the step is put's own late write of SUBMITTED; so of a verdict, a cancel and a timer the first decides |
| `Statuses.FinalForever` | src/mmap_file_accessor/mmap_file_accessor.c:67-74 | once put has returned, whether it accepted or rejected, a final status never changes again |
| `Statuses.StepKeepsHistories` | src/mmap_file_accessor/mmap_file_accessor.c:451 | a step keeps all histories admissible if and only if it is not a write of SUBMITTED after the worker's verdict |
| `Statuses.HistoriesIffTimely` | src/mmap_file_accessor/mmap_file_accessor.c:439-452 | throughout a run every history is INIT (IOFAIL if no buffer could be prepared), SUBMITTED, and at most one of IOSUCCESS, IOFAIL, CANCEL, if and only if no put of the run writes SUBMITTED after the verdict; a rejected put goes to CANCEL |
| `Statuses.SubmittedIsUnpublished` | src/mmap_file_accessor/mmap_file_accessor.c:66-76 | in a timely run a request that is SUBMITTED has its worker's verdict still to come |
| `Statuses.ReleasedMeansDecided` | src/mmap_file_accessor/mmap_file_accessor.c:635-640 | in every timely run without a put behind the fifth sentinel each accepted request has exactly one final status after the joins, preceded by SUBMITTED if its put has returned |
| `Statuses.CancelledIsNeverRun` | src/mmap_file_accessor/mmap_file_accessor.c:52-55 | a request cancelled before its worker's first check is never mapped for reading, copied or synced, to the end of any run |
| `Outcomes.SuccessMeansDone` | src/mmap_file_accessor/mmap_file_accessor.c:64-70 | no run reports IOSUCCESS unless the copy or sync happened; a read's buffer has nbytes bytes, the k-th being the byte offset + k of its file at the copy, or zero past the end |
| `Outcomes.VerdictIsTrue` | src/mmap_file_accessor/mmap_file_accessor.c:59-122 | in every run, once the verdict is given: IOSUCCESS if and only if the work was done, IOFAIL if and only if it never was, and then a read has exactly three failed mappings and a write a failed msync |
| `Outcomes.CancelIffCancelled` | src/mmap_file_accessor/mmap_file_accessor.c:529-537 | in every run a status is CANCEL if and only if the put was turned away, or cancel, cancelAll or a timeout met the request while it was SUBMITTED |
| `Outcomes.FailureMeansThreeAttempts` | src/mmap_file_accessor/mmap_file_accessor.c:59-62 | a read is IOFAIL only after exactly three failed mappings |
| `Outcomes.ReadsEndToEnd` | src/mmap_file_accessor/mmap_file_accessor.c:59-78 | after a shutdown in a timely run without a put behind the fifth sentinel each accepted read is IOSUCCESS with its buffer filled byte for byte, IOFAIL after three attempts and never copied, or CANCEL by a cancellation in the run |
| `Outcomes.WritesEndToEnd` | src/mmap_file_accessor/mmap_file_accessor.c:108-129 | likewise each accepted write is IOSUCCESS after a successful msync, IOFAIL after a failed one, or CANCEL by a cancellation in the run |
| `Requests.RequestIsAsAsked` | src/mmap_file_accessor/mmap_file_accessor.c:303-336 | the request getRequest hands out has the caller's direction, file, size and offset and the descriptor open returned, to the end of every run |
| `Requests.FilesChange` | src/mmap_file_accessor/mmap_file_accessor.c:321-334 | a file opened for writing is truncated and set to its new length; apart from stores no step changes any file |
| `Requests.FilesKnownThroughoutRun` | src/mmap_file_accessor/mmap_file_accessor.c:321-323 | in every reachable state each request is for a file there is |
| `Requests.ImportedIsKept` | src/mmap_file_accessor/mmap_file_accessor.c:406-417 | an imported buffer is left as the caller gave it until the worker's own copy |
| `Requests.CancelledGetsNothing` | src/mmap_file_accessor/mmap_file_accessor.c:52-55 | a read cancelled before its worker's first check has its buffer untouched to the end of every run |
| `Waiters.EndOfSubmittedIsSignalled` | src/mmap_file_accessor/mmap_file_accessor.c:66-76 | whoever ends SUBMITTED signals isFinished in the same section |
| `Waiters.NoWaiterForgotten` | src/mmap_file_accessor/mmap_file_accessor.c:487-504 | in every run in which no two threads are ever blocked on one request, a thread blocked without a pending signal waits for a request that is still SUBMITTED |
| `Waiters.ForgettingNeedsTwo` | src/mmap_file_accessor/mmap_file_accessor.c:487-504 | the next step can leave a thread blocked on a finished request if and only if two threads are blocked on one request |
| `Waiters.NoWaiterForgottenIff` | src/mmap_file_accessor/mmap_file_accessor.c:487-504 | the condition of NoWaiterForgotten is exact, run by run |
| `Waiters.SoleRunsForgetNobody` | src/mmap_file_accessor/mmap_file_accessor.c:551-575 | a caller who lets only one thread at a time wait for a request meets it |
| `Waiters.TimersFireInTheirWait` | src/mmap_file_accessor/mmap_file_accessor.c:477-496 | over any run a timeout thread acts at most once, after its timed wait has begun and before it is joined; it can turn the awaited request from SUBMITTED into CANCEL and changes no other request |
| `Waiters.CheckEndsDecided` | src/mmap_file_accessor/mmap_file_accessor.c:487-504 | a look of a waiting thread at its request ends the wait on a request that has ended, or does not end it, if and only if the put has returned |
| `Waiters.LeaversDoneIffAfterPut` | src/mmap_file_accessor/mmap_file_accessor.c:487-504 | throughout a run no thread leaves its wait before its request has ended, if and only if every look comes after the put has returned |
| `Waiters.WaitsEndDecided` | src/mmap_file_accessor/mmap_file_accessor.c:487-504 | wait by wait in any run: the request awaited has a final status that it keeps to the end of the run, if and only if its put had returned when the thread looked |
| `Waiters.WaitAfterPut` | src/mmap_file_accessor/mmap_file_accessor.c:470-504 | a caller who begins a wait after the put has returned gets such an end, whatever other waits do |
| `Waiters.WaitBeforePut` | src/mmap_file_accessor/mmap_file_accessor.c:470-504 | and a wait begun before can be over at once: from every state, the first look leaves an unended request if and only if the put had not returned |
| `Waiters.BlockedMeansWork` | src/mmap_file_accessor/mmap_file_accessor.c:487-504 | in a timely run in which no two threads are ever blocked on one request, as long as a thread is blocked a worker can take a step, or during a shutdown releaseAll can; WorkIsBounded allows finitely many of these steps |
| `Races.LateMarkLosesTheVerdict` | src/mmap_file_accessor/mmap_file_accessor.c:439-452 | a run in which SUBMITTED written at line 451 overwrites the worker's verdict: why the mark is assumed to be timely |
| `Races.UnmarkedIsPassedOver` | src/mmap_file_accessor/mmap_file_accessor.c:451 | a run in which a wait leaves a queued request that is still INIT: why a wait is asked to look after the put has returned |
| `Races.SecondWaiterForgotten` | src/mmap_file_accessor/mmap_file_accessor.c:487-504 | a run in which one of two waiters stays blocked on a finished request: why one waiter per request is assumed |
| `Races.PutOvertaken` | src/mmap_file_accessor/mmap_file_accessor.c:209-212 | a run in which releaseAll overtakes a put between the isRunning gate and the append |
| `Races.OvertakenPutIsNeverRun` | src/mmap_file_accessor/mmap_file_accessor.c:209-212 | a task appended behind the fifth sentinel stays queued for ever: why puts are to append before it |
| `MmapAccessors.MmapAccessor.GetRequest` | src/mmap_file_accessor/mmap_file_accessor.c:321-336 | getRequest, once open has succeeded, is one step of the accessor's machine |
| `MmapAccessors.MmapAccessor.AllocWriteBuf` | src/mmap_file_accessor/mmap_file_accessor.c:370-390 | the end of allocWriteBuf is one step |
| `MmapAccessors.MmapAccessor.ImportReadBuf` | src/mmap_file_accessor/mmap_file_accessor.c:406-417 | importReadBuf is one step |
| `MmapAccessors.MmapAccessor.PutGate` | src/mmap_file_accessor/mmap_file_accessor.c:209-210 | the gate, and the rejection with its munmap, is one step |
| `MmapAccessors.MmapAccessor.PutAppend` | src/mmap_file_accessor/mmap_file_accessor.c:212-239 | the append is one step |
| `MmapAccessors.MmapAccessor.PutMark` | src/mmap_file_accessor/mmap_file_accessor.c:451 | the write of SUBMITTED is one step |
| `MmapAccessors.MmapAccessor.CancelSection` | src/mmap_file_accessor/mmap_file_accessor.c:528-539 | the locked section of cancelRequest is one step |
| `MmapAccessors.MmapAccessor.CancelAllSection` | src/mmap_file_accessor/mmap_file_accessor.c:600-603 | the locked section of cancelAll is one step |
| `MmapAccessors.MmapAccessor.WaitCheck` | src/mmap_file_accessor/mmap_file_accessor.c:489-492 | one turn of a waiting loop is one step |
| `MmapAccessors.MmapAccessor.TimerFire` | src/mmap_file_accessor/mmap_file_accessor.c:37-40 | the locked section of timeout_thread is one step |
| `MmapAccessors.MmapAccessor.JobOf` | src/mmap_file_accessor/mmap_file_accessor.c:168 | the request a worker works on is the one of its queue entry |
| `MmapAccessors.MmapAccessor.FirstLook` | src/mmap_file_accessor/mmap_file_accessor.c:52-55 | the first check of a task function is one step |
| `MmapAccessors.MmapAccessor.TryMap` | src/mmap_file_accessor/mmap_file_accessor.c:59-62 | one turn of the mapping loop is one step |
| `MmapAccessors.MmapAccessor.CopyOut` | src/mmap_file_accessor/mmap_file_accessor.c:64 | the memcpy is one step |
| `MmapAccessors.MmapAccessor.Sync` | src/mmap_file_accessor/mmap_file_accessor.c:111 | the msync is one step |
| `MmapAccessors.MmapAccessor.Publish` | src/mmap_file_accessor/mmap_file_accessor.c:66-76 | the locked verdict is one step |
| `MmapAccessors.MmapAccessor.Cleanup` | src/mmap_file_accessor/mmap_file_accessor.c:80-90 | munmap and close at the end are one step |
| `Schedules.Perform` | src/mmap_file_accessor/mmap_file_accessor.c:142-248 | the accessor's classes take every enabled step exactly as the machine says, so every interleaving of them is a run |
| `Schedules.Interfere` | src/mmap_file_accessor/mmap_file_accessor.c:142-248 | other threads' steps happen in the given order, each if it is enabled in its turn and is not the calling thread's own, and nothing else happens |
| `Operations.RunIsOnward` | src/mmap_file_accessor/mmap_file_accessor.c:212-239 | no run takes back a submitted task, a returned put or the final status of one |
| `Operations.WaitFor` | src/mmap_file_accessor/mmap_file_accessor.c:487-504 | the waiting loop, under arbitrary interference: it begins one wait, timed or not as asked, then only looks, and ends only when the request is decided, else is still blocked on it; its trace is exactly these acts with the schedule's segments in between |
| `Operations.WaitRequest` | src/mmap_file_accessor/mmap_file_accessor.c:459-507 | waitRequest: refused on INIT and CANCEL without effect; otherwise, if the request was SUBMITTED or its put had returned, it has its final status on return; or the thread is blocked on a request still SUBMITTED whose verdict, in a timely run, is still to come, and of a timed wait the timer is still to fire and would end it; the wait itself writes no request |
| `Operations.WaitAll` | src/mmap_file_accessor/mmap_file_accessor.c:547-579 | waitAll, under arbitrary interference: when it returns, each request queued on entry has ended for good if and only if its put had returned when the thread looked at it, and then its status means the work was done, or failed, or it was cancelled; its acts are one untimed wait per queue entry in order, so requests change by the schedule's steps only; if it is blocked, in a sole and timely run the verdict it waits for is still to come |
| `Operations.FinalIsDecided` | src/mmap_file_accessor/mmap_file_accessor.c:59-122 | a final status of a queued request in any run means what it says: the work was done; or never done, with three failed mappings or a failed msync; or the request was cancelled |
| `Operations.CancelRequest` | src/mmap_file_accessor/mmap_file_accessor.c:510-544 | cancelRequest: refused on INIT and CANCEL without effect; otherwise the request is final on return and a final status it had is kept; its one act is the locked section on that request |
| `Operations.CancelAll` | src/mmap_file_accessor/mmap_file_accessor.c:582-608 | cancelAll, under arbitrary interference: each request queued on entry has ended for good with its turn if and only if its put had returned by then, and a final status is kept; a submitted request no worker had looked at by then is never mapped, copied or synced afterwards; its acts are one locked section per queue entry, in order |
| `Operations.PutRequest` | src/mmap_file_accessor/mmap_file_accessor.c:423-456 | put, interrupted at the two places where it holds no lock: accepted iff isRunning at the gate; then queued and SUBMITTED, else CANCEL with its mapping gone; its acts are gate, append and mark, or the gate alone |
| `Operations.JoinNext` | src/mmap_file_accessor/mmap_file_accessor.c:637-639 | pthread_join returns only for an exited worker |
| `Operations.JoinedMeansReleased` | src/mmap_file_accessor/mmap_file_accessor.c:635-640 | five joins in any run mean the drain, without a put behind the fifth sentinel the complete drain, and in a timely run that every accepted request is decided |
| `Operations.ReleaseAll` | src/mmap_file_accessor/mmap_file_accessor.c:611-648 | releaseAll, under arbitrary interference: nothing if no task was ever submitted; otherwise it closes the gate, sends five sentinels and joins, in this order and nothing else, with all that Released says after five joins, or is blocked on a worker that has not exited |
| `AioBuffers.FreesAreOwned` | src/aio_file_accessor/aio_file_accessor.c:31-36 | every free hits a live block that the very request owns, never the caller's memory, and never twice |
| `AioBuffers.StepKeepsInv` | src/aio_file_accessor/aio_file_accessor.c:158-168 | a step keeps the heap in order, its blocks being exactly those that requests own, if and only if it is no import after an allocation and no allocation over a block |
| `AioBuffers.InOrderIffCareful` | src/aio_file_accessor/aio_file_accessor.c:158-197 | the same for whole runs |
| `AioBuffers.CarelessImport` | src/aio_file_accessor/aio_file_accessor.c:194-197 | from every state in order: after an import over an allocation the callback frees the caller's memory, and a block is lost |
| `AioBuffers.CarelessAlloc` | src/aio_file_accessor/aio_file_accessor.c:160-168 | from every state in order: an allocation over a block loses the block |
| `AioBuffers.FreedAtMostOnce` | src/aio_file_accessor/aio_file_accessor.c:325-330 | over every interleaving of put failure, callback, cancel and release, a request's buffer is freed at most once, and exactly as often as allocated once it no longer owns it |
| `AioBuffers.ReleasedIsFreed` | src/aio_file_accessor/aio_file_accessor.c:442-448 | once the release has passed a listed request, its buffer has been freed exactly as often as it was allocated |
| `AioBuffers.FreedIffGivenUp` | src/aio_file_accessor/aio_file_accessor.c:228-235 | a request's block is freed by a failed start, the callback, a cancel that finds the request neither INIT nor CANCEL, and the release, by each of them and by nothing else |
| `AioBuffers.KeptUntilGivenUp` | src/aio_file_accessor/aio_file_accessor.c:31-36 | over every careful run a request keeps its block, live, until the first of these steps: no operation in flight loses its buffer |
| `AioBuffers.FailedAllocationCounts` | src/aio_file_accessor/aio_file_accessor.c:161-168 | isAlloced is set even when malloc fails, so that an import afterwards has the callback free the caller's memory |
| `AioBuffers.StatusIsLastWritten` | src/aio_file_accessor/aio_file_accessor.c:18-29 | in every run the status is the one last written: SUBMITTED by put, IOSUCCESS by the callback of an operation that went well, CANCEL by a cancel that goes ahead; never IOFAIL |
| `AioBuffers.ListIsAcceptedPuts` | src/aio_file_accessor/aio_file_accessor.c:260-264 | in every run the request list is the accepted puts in order, with released entries null |
| `AioBuffers.ImportOverAllocation` | src/aio_file_accessor/aio_file_accessor.c:194-197 | a run with an import over an allocated buffer, after which the callback would free the caller's memory and the block is lost |
| `AioAccessors.AioAccessor.GetRequest` | src/aio_file_accessor/aio_file_accessor.c:129-132 | getRequest is one step of the AIO machine |
| `AioAccessors.AioAccessor.AllocWriteBuffer` | src/aio_file_accessor/aio_file_accessor.c:160-168 | allocWriteBuf is one step |
| `AioAccessors.AioAccessor.ImportReadBuffer` | src/aio_file_accessor/aio_file_accessor.c:194-197 | importReadBuf is one step |
| `AioAccessors.AioAccessor.StartIo` | src/aio_file_accessor/aio_file_accessor.c:227-239 | starting the operation, or freeing the buffer when that fails, is one step |
| `AioAccessors.AioAccessor.MarkSubmitted` | src/aio_file_accessor/aio_file_accessor.c:240 | the write of SUBMITTED is one step |
| `AioAccessors.AioAccessor.AddToList` | src/aio_file_accessor/aio_file_accessor.c:243-264 | growing the list by copying and appending is one step |
| `AioAccessors.AioAccessor.Callback` | src/aio_file_accessor/aio_file_accessor.c:18-36 | the callback is one step |
| `AioAccessors.AioAccessor.CancelRequest` | src/aio_file_accessor/aio_file_accessor.c:313-334 | cancelRequest is one step |
| `AioAccessors.AioAccessor.ReleaseOne` | src/aio_file_accessor/aio_file_accessor.c:425-455 | one turn of the release loop is one step |
| `AioOperations.Perform` | src/aio_file_accessor/aio_file_accessor.c:15-52 | the classes take every enabled step exactly as the machine says |
| `AioOperations.PutRequest` | src/aio_file_accessor/aio_file_accessor.c:212-269 | put, interrupted between its parts: RET_OK iff the operation starts and the list either is not full to a page or can grow; then listed last; in flight but unlisted if the list cannot grow; rejected if the operation cannot start: its pointers are null and, in a careful run, the heap holds no block of it any more; its acts are start, mark and list |
| `AioOperations.ClearedMeansFreed` | src/aio_file_accessor/aio_file_accessor.c:421-457 | a list of nulls means that every request ever listed has had its buffer freed |
| `AioOperations.ReleaseAll` | src/aio_file_accessor/aio_file_accessor.c:411-460 | the release loop, under arbitrary interference: every entry is released once, in order, and null at the end, and each listed request's buffer was freed exactly as often as allocated |

## Left out

- `Operations.WaitAll`: passes over a request whose put has not returned when its turn comes, and over no other, as
  `Waiters.WaitsEndDecided` says of the code. The queue is read through its present array; the C code reads through the
  array pointer it found on entry, which a growth of the queue meanwhile may have freed.
- `Operations.CancelAll`: as for waitAll, the array pointer found on entry is taken to stay good.
- `Operations.PutRequest`: requires room for the tasks that others append in the meantime; the path on which realloc fails
  although the task is appended (lines 220-234) is not modelled.
- `Release.WorkIsBounded`: counts steps of the pool, not time; that enabled steps are eventually taken is left to the
  scheduler.
- `MmapAccessors.MmapAccessor.GetRequest`: covers the requests getRequest returns with RET_OK; when open fails on every try it
  returns RET_BAD_VALUE and hands out a record without a descriptor, on which no further call is modelled.
- `MmapAccessors.MmapAccessor.ImportReadBuf`: on read requests only; the code accepts a write request too, whose worker would
  then sync and unmap the caller's memory, and this model says nothing about such a request.
- `Outcomes.SuccessMeansDone`: the copy of a read is one step, so a file that changes during the memcpy is not modelled.
- System calls are outcomes with a small effect: page alignment, access past the end of a file (which reads as zeros here),
  MAP_PRIVATE visibility and errno are not modelled, and a file's new length after ftruncate is all that a write shows of it.
- Real time: a timer may fire at any moment; the conversion of milliseconds is not modelled.
- Memory-model effects of unlocked accesses: steps are sequentially consistent.
- Heap lifetime of mmap requests and task records, which releaseAll never frees.
- AIO descriptors: the callback closes one descriptor through two fields. AIO statuses are not final, since cancel may
  overwrite IOSUCCESS and put may overwrite both; `AioBuffers.StatusIsLastWritten` says exactly what they are. aio_wait_request, waitAll and cancelAll
  of the AIO accessor touch neither buffers nor the list.
- Request validity checks, retries of open, copying of file names, error messages, and the dispatch in
  `src/async_file_accessor.c`: they would add easy members only.
- The example program `test_async_accessor.c`.
