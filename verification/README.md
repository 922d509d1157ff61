# A verified model of the Raspberry Pi 4 render server, audio ring and ADC sample ring

This project models, in Dafny, the parts of the Phoenix-RTOS device servers whose
correctness depends on whole runs rather than on single calls:

- **The asynchronous V3D render server** (`gpu/rpi4-v3d-async`).  Clients submit jobs to
  six queues; jobs depend on fences, come in bin/render pairs, and name buffer objects.
  One lock makes every request and every pass of the event thread one atomic step.
  - `SchedState`, `SchedInv`, `SchedSteps`, `SchedRuns`, `SchedTheorems`: the scheduler and
    the fence page as a state machine, its invariant, and what follows for every run.
  - `FenceImports`: fences that clients bring themselves, which of them are safe, and what
    a submit that waits for one of the others does.
  - `RoundRobin`: the turn-taking bound of the pipelined mode.
  - `ImplicitSync`, `ImplicitSyncRuns`: the per-buffer record of last uses, with a ghost
    history of all uses, and why the record is enough.
  - `SchedFailures`, `ResetRuns`, `ResetOrder`: what a GPU reset and the reaping of failed
    renders keep and do not keep, and exactly when, on runs that contain them.
  - `SchedServer`: the server's own code as a class, proved against the state machine.
  - `Parked`: the doubly linked list of unanswered requests.
  - `Overflow`, `OverflowPool`, `OverflowRuns`, `OverflowLate`: the binner-overflow chunks,
    threaded through one array and shared with the interrupt handler.
  - `GpuSpace`, `GpuTlb`, `GpuTable`: the GPU address space, its page table, its cached
    translations, and the arrays that hold them.
  - `BlockPool`, `Lowmem`, `BlockStore`, `BoMemory`: memory blocks, the pool, the
    low-memory placement.
  - `BoState`, `BoInv`, `BoSteps`, `BoRuns`, `BoTheorems`, `BoQuarantine`, `BufferTable`:
    buffer objects from creation through quarantine to reuse.
- **The PWM audio ring** (`audio/rpi4-audio`): `RingPlaces`, `AudioRing`, `AudioStream`,
  `AudioDriver`.  A DMA engine plays a ring without end; the writer chases it.
- **The ADC sample ring** (`adc/ade9113`): `SampleRing`, `SampleReads`, `SampleBuffer`.  One
  writer, many readers, and a wake-up threshold.

Each part has the same structure.  Functions on values say what each operation does;
lemmas prove what every operation keeps and what therefore holds in every state of every
run; where the source works in place, a class with the source's fields and loops is proved
to do what the functions say.

## How to read the model

Maps with a missing key stand for zeroed arrays (`Num`), and job number 0 for a null
pointer.  Hardware registers, cache maintenance and the clock are inputs or absent.  Time
is one reading per request.  Blocks and physical pages have symbolic names: a page is the
`i`th page of a block, of the firmware frame buffer, of another server's window, or of the
overflow pool.  Positions in the audio and sample rings count words without end; the place
in the ring is the remainder (`Place`, equal to `%` by `PlaceMod`).

The hardware is trusted for three things.  The binner asks for memory only while it is at
work on a bin, and its end is seen after the handler has reported what it handed out.  A
flush forgets every cached translation; short of that the GPU may load any valid entry at
any time.  While words are pending, the audio engine moves less than a lap between two
services and the clock does not take that for a lap; with nothing pending both are free,
and the engine may go round for as long as it likes.  A writer's pass is atomic with its
service.

Runs of `SchedTheorems`, `FenceImports`, `RoundRobin` and `ImplicitSyncRuns` never call the
GPU reset (`wedge`); runs of the other parts have no such limit.  Two further conditions come from the code and are stated where they
are used: fences that clients import or attach have been handed out by the server, and a
slot's generation does not wrap its 32 bits (`SchedRuns.Tame`).  `FenceImports` drops both
where it follows what an import that breaks the first one leads to.

## What turned out false

- **Any fence that the server accepts is one that will signal.**  `v3da_fence_valid` also
  accepts two kinds that nobody was given: any number of a slot that is not in use, and any
  fence of a generation still to come, which reads signalled now.  `AcceptedFenceHeldIff`:
  in every state that can follow, an accepted fence is signalled or has a job that will
  signal it, if and only if it has been handed out - except where another slot has used up
  its generations and the fence's own never comes.  `UnissuedFenceWaits` and
  `QueuedWhileUnissued`: a job that waits for such a fence stays in its FIFO as long as the
  number is not given out, the slot is not reassigned and the submitter stays;
  `ReadyAtReassignment`: reassigning the slot makes it ready.  `UnissuedFenceReachable` and
  `FutureFenceReachable` are runs to the two cases.
- **The completion count of a fence row never goes back.**  Reaping a render whose bin
  failed stores its number while an earlier render of the same row is still on the
  hardware.  `ReapKeepsOrderIff` says exactly when one reap leaves the row in order, and
  `ReapGoesBack` that in the other case the completion of the running job makes a signalled
  fence unsignalled.  `RowTrueIff` is the exact condition on whole runs, resets and all:
  no unfinished job of a row ever has a fence that reads signalled, if and only if no job
  of the row was reaped while another was on the row's queue; and then the count never goes
  back (`RowAdvances`).  (The count alone does not decide it: a run may end, or the client
  leave, before the job that was passed completes.)  `ReapGoesBackReachable` is a run in
  which the count does go back.  The kick and completion counters stay exact on every run
  (`CountersExact`).
- **A buffer leaves quarantine only after the jobs on the hardware have finished.**  Reaping
  counts a job as sent and finished at once, so a queue whose job still runs counts as
  passed.  `QueuePasses` gives the exact condition; `EarlyStretch` shows that it can happen
  to any buffer with one holder in any state with idle queues and a render whose bin
  failed, and `ReapPassesEarly` is such a run from the start, through the reset that fails
  the bin.  What the page table and the translations guarantee
  (`TlbSafety`, `NoStaleReuse`) does not depend on it.
- **A reset may come at any moment of the interrupt handler.**  The reset itself keeps every
  chunk accounted for (`Pool.Wedge`).  But a handler that has taken the staged chunk still
  reports it.  Without a bin the chunk, already free, is freed again and the free list
  becomes a circle; with a bin it is in two lists (`Pool.AttributeStale`).  `OverflowRuns.Drive`
  has late reports in its runs: each chunk is on one list in every state, if and only if
  every report collected names the chunk that is staged then, and so always if no reset
  meets a handler with a chunk in hand.  A late report of the chunk that is staged again
  passes the lists by, but the word still names the chunk, which now belongs to the bin.
  `Pool.LateService`: all is in order again after that service if and only if no handler
  had or took the chunk before the next was armed, and one was free for it.
  `HandedOutTwice`: with none free the chunk is handed out once more, and the next
  collection breaks the lists.  `Pool.ResetThenReport`: a reset and a report collected right
  after it leave the lists whole if and only if no report was owed.
- **A reader's reads join up to one stretch of the sample stream.**  `sampleRead` moves the
  reader's offset after it has let go of the lock, by a load and a store.  `JoinedIff`: the
  reads of all readers join up in all states of a run if and only if every such store is
  harmless (`Harmless`: the reader is closed, or is as the read found it, or has been opened
  anew at the very offset stored).  `LateStoreBreaks`: a reader closed and opened again in
  between starts past the end, and its new owner's first read fails.  `SecondReadRepeats`:
  two reads of one reader at once return the same byte.  `ReadsJoin` is the rule for
  callers under which the claim holds.
- **Every sample size that `sample_init` accepts can be read.**  It accepts samples of no
  bytes (`EmptySampleAdmitted`), for which opening a reader divides by zero;
  `FreshNotOverrun` holds for every other size.

## Model

| member | source | states |
|---|---|---|
| SchedInv.InitInv | gpu/rpi4-v3d-async/v3da_sched.c:69-91 | the freshly initialised server satisfies the scheduler invariant, in both modes |
| SchedInv.DispatchKeeps | gpu/rpi4-v3d-async/v3da_jobs.c:645-710 | one scheduling pass, serial or pipelined, keeps rows in sequence order, every dependency on an older job or signalled, one active job per queue, and the counters exact |
| SchedInv.NotBusyIdle | gpu/rpi4-v3d-async/v3da_jobs.c:645-693 | with exact counters a busy count of zero means that no hardware queue has a job, so the serial mode's guard is sound |
| SchedInv.SerialKick | gpu/rpi4-v3d-async/v3da_jobs.c:669-692 | the serial mode kicks one ready head of an idle queue, no younger than any other ready head, or nothing |
| SchedSteps.DoneKeeps | gpu/rpi4-v3d-async/v3da_jobs.c:241-302 | completing the job on a queue advances its row by exactly one and breaks no other job's dependencies or pair link |
| SchedSteps.EnqueueKeeps | gpu/rpi4-v3d-async/v3da_jobs.c:717-733 | a new job gets the next number of its row and the next global number, and only older or signalled dependencies |
| SchedSteps.LinkKeeps | gpu/rpi4-v3d-async/v3da_jobs.c:764-934 | linking a bin to its render keeps both ends of the pair consistent |
| SchedSteps.OpenKeeps | gpu/rpi4-v3d-async/v3da_sched.c:180-191 | reassigning an idle slot to a new client with a new generation keeps every pending dependency meaningful |
| SchedSteps.GoneKeeps | gpu/rpi4-v3d-async/v3da_jobs.c:1044-1067 | discarding a dead client's queued jobs and flushing its rows keeps the invariant for all other clients |
| SchedRuns.SubmittedKeeps | gpu/rpi4-v3d-async/v3da_jobs.c:764-934 | an accepted submit, with explicit and implicit dependencies, keeps the invariant |
| SchedRuns.JoinedKeeps | gpu/rpi4-v3d-async/v3da_jobs.c:964-1019 | attaching a fence to buffers through a join job keeps the invariant |
| SchedRuns.StepKeeps | gpu/rpi4-v3d-async/v3da_jobs.c:764-1067 | every request and every event pass keeps the scheduler invariant |
| SchedRuns.DispatchSettles | gpu/rpi4-v3d-async/v3da_jobs.c:645-710 | after a scheduling pass no ready head waits for an idle queue |
| SchedRuns.StepSettles | gpu/rpi4-v3d-async/v3da_jobs.c:645-710 | and this is so after every step, those that do not schedule included |
| SchedRuns.RunInv | gpu/rpi4-v3d-async/v3da_sched.c:572-624 | both hold in every state of every run with clients opening and closing |
| SchedTheorems.DeadlockFree | gpu/rpi4-v3d-async/v3da_jobs.c:603-710 | on every run: if any job exists, some queue has an active job |
| SchedTheorems.DrainFinishes | gpu/rpi4-v3d-async/v3da_jobs.c:1147-1218 | each event pass that completes something leaves fewer jobs; when nothing is active all jobs are finished and every fence handed out is signalled |
| SchedTheorems.SeqnoWindow | gpu/rpi4-v3d-async/v3da_jobs.c:572-598 | for an open slot and queue, the numbers completed+1 to next_seq are exactly its active job followed by its FIFO, in order |
| SchedTheorems.PendingIffJob | gpu/rpi4-v3d-async/v3da_sched.c:102-124 | an issued fence of an open slot reads unsignalled exactly while its job exists |
| SchedTheorems.UnfinishedUnsignaled | gpu/rpi4-v3d-async/v3da_proto.h:120-163 | the fence of a job that has not finished is never signalled |
| SchedTheorems.StepAdvances | gpu/rpi4-v3d-async/v3da_sched.c:144-159 | completion counts never decrease except when a slot is reassigned |
| SchedTheorems.SignaledForever | gpu/rpi4-v3d-async/v3da_sched.c:102-191 | a signalled fence that was handed out stays signalled for the rest of the run, through reassignment of its slot |
| FenceImports.HeldIff | gpu/rpi4-v3d-async/v3da_sched.c:102-141 | a fence is signalled or has a job that will signal it, if and only if it is not an unissued number of the slot's present generation |
| FenceImports.AssignSignals | gpu/rpi4-v3d-async/v3da_sched.c:180-191 | which fences reassignment would unsignal, exactly: those that carry the new generation already |
| FenceImports.HandedOutHeld | gpu/rpi4-v3d-async/v3da_sched.c:128-141 | a handed-out fence is signalled or will be, now and in every state that can follow |
| FenceImports.FutureUnheld | gpu/rpi4-v3d-async/v3da_sched.c:128-141 | from every state a run leads to one in which a fence of a later generation, signalled before, is pending without a job |
| FenceImports.AcceptedFenceHeldIff | gpu/rpi4-v3d-async/v3da_sched.c:128-141 | an accepted fence is signalled or will be, in every state that can follow, if and only if it was handed out (or a worn-out slot bars its generation) |
| FenceImports.QueuedWhileUnissued | gpu/rpi4-v3d-async/v3da_jobs.c:603-710 | through any requests and events, a job waiting for an unissued number stays in its FIFO while the number is not given out, the slot not reassigned and the submitter not closed |
| FenceImports.UnissuedFenceWaits | gpu/rpi4-v3d-async/v3da_sched.c:498-517 | in any state of any run such a number can be imported, and a submit that waits for it is not ready in any later state until its slot is opened or the submitter closes |
| FenceImports.ReadyAtReassignment | gpu/rpi4-v3d-async/v3da_sched.c:180-191 | opening the slot makes the fence read signalled and a job that waited for it alone ready |
| FenceImports.UnissuedFenceReachable | gpu/rpi4-v3d-async/v3da_sched.c:128-141 | a run to a state with an importable unissued number |
| FenceImports.FutureFenceReachable | gpu/rpi4-v3d-async/v3da_sched.c:128-141 | a run in which a fence of a later generation is accepted as signalled and then waited for without anybody having been given it |
| RoundRobin.StepTurn | gpu/rpi4-v3d-async/v3da_jobs.c:694-709 | a ready head stays ready, and each step either takes it or spends no more kicks than the cyclic distance shrinks |
| RoundRobin.RoundRobinBound | gpu/rpi4-v3d-async/v3da_jobs.c:694-709 | while a ready head waits, its queue takes at most V3DA_MAX_CLIENTS-1 other jobs |
| ImplicitSync.ImplicitHas | gpu/rpi4-v3d-async/v3da_bo.c:628-650 | unless dependencies are dropped, the dependency set has a fence at least as late for every pending foreign use of every named buffer |
| ImplicitSync.SetAddHas | gpu/rpi4-v3d-async/v3da_bo.c:603-620 | merging into the set keeps, per slot, queue and generation, the latest number |
| ImplicitSync.UseUses | gpu/rpi4-v3d-async/v3da_bo.c:586-598 | overwriting last[q] loses no unfinished use: the new job or another entry waits for it |
| ImplicitSyncRuns.StepKeepsH | gpu/rpi4-v3d-async/v3da_jobs.c:885-926 | every step keeps: each unfinished use of a buffer is covered by a fence still in its last[] |
| ImplicitSyncRuns.BoWaitSound | gpu/rpi4-v3d-async/v3da_bo.c:582-650 | when all of a buffer's last[] fences are signalled, every job ever submitted before that names it has finished |
| ImplicitSyncRuns.CrossClientOrder | gpu/rpi4-v3d-async/v3da_jobs.c:890-926 | the first later submit of another client naming a buffer starts no job until the earlier client's job has finished, whoever overwrote last[] in between |
| SchedFailures.ReapCounted | gpu/rpi4-v3d-async/v3da_jobs.c:247-264 | reaping a failed render keeps hw_submitted equal to hw_completed plus the active job |
| SchedFailures.WedgeCounted | gpu/rpi4-v3d-async/v3da_jobs.c:1116-1143 | a reset fails every job on the hardware, keeps the counters exact and leaves no hardware queue busy |
| SchedFailures.ReapKeepsOrderIff | gpu/rpi4-v3d-async/v3da_jobs.c:622-642 | reaping keeps a row in order if and only if the row has no active job |
| SchedFailures.ReapGoesBack | gpu/rpi4-v3d-async/v3da_sched.c:144-159 | otherwise the running job's fence reads signalled, and its completion then unsignals the reaped one's |
| ResetRuns.CountersExact | gpu/rpi4-v3d-async/v3da_jobs.c:247-264 | in every state of every run, resets and reaped renders included, each queue's submitted count is its completed count plus its active job, and the busy count is exact |
| ResetOrder.MoveOrder | gpu/rpi4-v3d-async/v3da_jobs.c:622-710 | a request or event pass, with or without a reset, keeps a row in order and its count from going back, unless it reaps a job of the row while another is on the queue; then the count passes that one |
| ResetOrder.RowTrueIff | gpu/rpi4-v3d-async/v3da_sched.c:102-159 | on every run with resets, for every row: up to any state no unfinished job's fence reads signalled, if and only if no job of the row was reaped while another was on its queue |
| ResetOrder.RowAdvances | gpu/rpi4-v3d-async/v3da_sched.c:144-159 | and under that condition the row's completion count never goes back, except to zero for the slot's next client |
| ResetRuns.ReapGoesBackReachable | gpu/rpi4-v3d-async/v3da_jobs.c:1116-1143 | a run from the start: three submits, a completed bin, a reset and two passes, after which a fence is signalled and then pending |
| SchedServer.RenderServer.FenceSignaled | gpu/rpi4-v3d-async/v3da_sched.c:102-124 | the check agrees with the fence page for every slot, queue, generation and number |
| SchedServer.RenderServer.JobReady | gpu/rpi4-v3d-async/v3da_jobs.c:603-616 | true exactly when the bin is gone and every dependency is signalled |
| SchedServer.RenderServer.PopAndKick | gpu/rpi4-v3d-async/v3da_jobs.c:522-565 | the head of the row becomes the queue's active job and is counted |
| SchedServer.RenderServer.KickRoundRobin | gpu/rpi4-v3d-async/v3da_jobs.c:694-709 | the scan from the cursor kicks the first ready slot and moves the cursor past it, or nothing |
| SchedServer.RenderServer.KickOldest | gpu/rpi4-v3d-async/v3da_jobs.c:669-692 | the two nested scans find the ready head with the least global number |
| SchedServer.RenderServer.SchedRun | gpu/rpi4-v3d-async/v3da_jobs.c:645-710 | reaps, then dispatches: a scheduling pass of the state machine |
| SchedServer.RenderServer.Run | gpu/rpi4-v3d-async/v3da_jobs.c:645-710 | from a state with the invariant it is the dispatch alone |
| SchedServer.RenderServer.FenceComplete | gpu/rpi4-v3d-async/v3da_sched.c:144-159 | stores the number, and the dead client's flush number when that is due |
| SchedServer.RenderServer.JobDone | gpu/rpi4-v3d-async/v3da_jobs.c:241-302 | takes the job off its queue, counts it, cuts both pair links and completes its fence |
| SchedServer.RenderServer.ReapFailedHeads | gpu/rpi4-v3d-async/v3da_jobs.c:622-642 | repeated scans reap failed heads one by one until none is left, and end |
| SchedServer.RenderServer.EventPass | gpu/rpi4-v3d-async/v3da_jobs.c:1147-1218 | completes the finished queues in order and schedules |
| SchedServer.RenderServer.ClientOpen | gpu/rpi4-v3d-async/v3da_main.c:111-130 | the first slot that is neither used nor busy, assigned |
| SchedServer.RenderServer.SlotAssign | gpu/rpi4-v3d-async/v3da_sched.c:180-191 | a new generation and zeroed rows |
| SchedServer.RenderServer.ClientClose | gpu/rpi4-v3d-async/v3da_main.c:136-150 | the client's jobs discarded, its rows flushed, the slot free |
| SchedServer.RenderServer.JobsClientGone | gpu/rpi4-v3d-async/v3da_jobs.c:1044-1067 | the in-place form of the same discard and flush |
| SchedServer.RenderServer.JobDiscard | gpu/rpi4-v3d-async/v3da_jobs.c:307-323 | a discarded job's pair links are cut at both ends |
| SchedServer.RenderServer.FlushDead | gpu/rpi4-v3d-async/v3da_jobs.c:1055-1065 | each queue without an active job of the slot is completed up to its last number |
| SchedServer.RenderServer.FenceSetAdd | gpu/rpi4-v3d-async/v3da_bo.c:603-620 | merges by slot, queue and generation, or appends, or counts a drop |
| SchedServer.RenderServer.AddImplicitDeps | gpu/rpi4-v3d-async/v3da_bo.c:628-650 | the set of pending foreign uses of the named buffers |
| SchedServer.RenderServer.AddExplicitDeps | gpu/rpi4-v3d-async/v3da_jobs.c:739-745 | the pending fences of the in-syncobjs |
| SchedServer.RenderServer.CheckSubmit | gpu/rpi4-v3d-async/v3da_jobs.c:764-870 | the rejections, in the order the server makes them |
| SchedServer.RenderServer.SubmitJobs | gpu/rpi4-v3d-async/v3da_jobs.c:764-934 | dependencies before uses, uses before out-syncobjs, then both jobs queued and linked |
| SchedServer.RenderServer.AttachJoin | gpu/rpi4-v3d-async/v3da_jobs.c:964-1019 | a join job that depends on the attached fence and the buffers' uses becomes their last use |
| SchedServer.RenderServer.SyncobjImport | gpu/rpi4-v3d-async/v3da_sched.c:498-517 | a valid fence is attached, an invalid one refused |
| SchedServer.RenderServer.IsFenceValid | gpu/rpi4-v3d-async/v3da_sched.c:128-141 | the acceptance test as the code makes it |
| Parked.EvalSync | gpu/rpi4-v3d-async/v3da_sched.c:262-292 | a wait on sync objects fails on a missing or empty one, and is over when all, or one, are signalled |
| Parked.ClaimedOnce | gpu/rpi4-v3d-async/v3da_sched.c:367-409 | every parked request stays or is answered, exactly once, with the error of its reason |
| Parked.AnsweredOnce | gpu/rpi4-v3d-async/v3da_sched.c:198-409 | over any sequence of arrivals, scans and departures a parked request is answered exactly once or still parked, never both |
| Parked.ScanLeaves | gpu/rpi4-v3d-async/v3da_sched.c:367-387 | after a scan no parked request is past its deadline, met or failed |
| Parked.WaitList.Push | gpu/rpi4-v3d-async/v3da_sched.c:349-360 | the doubly linked list with the new request in front; total and per-client counts are list lengths |
| Parked.WaitList.Unlink | gpu/rpi4-v3d-async/v3da_sched.c:198-215 | the list without that request, wherever it was, and the counts with it |
| Parked.WaitList.Park | gpu/rpi4-v3d-async/v3da_sched.c:301-363 | answered at once, refused, or parked until a deadline no later than allowed |
| Parked.WaitList.Sweep | gpu/rpi4-v3d-async/v3da_sched.c:367-409 | the walk claims exactly those with a reason and keeps the others in order |
| Overflow.OnePlace | gpu/rpi4-v3d-async/v3da.h:231-246 | every chunk is in exactly one list, at exactly one position |
| Overflow.ChainUnique | gpu/rpi4-v3d-async/v3da.h:231-246 | a head and the successor array determine the list |
| Overflow.MoveKeeps | gpu/rpi4-v3d-async/v3da_jobs.c:123-156 | moving a head chunk between two lists leaves every other walk as it was |
| Overflow.MoveAllLists | gpu/rpi4-v3d-async/v3da_jobs.c:275-284 | moving a whole list delivers it reversed in front of the other |
| Overflow.Geometry | gpu/rpi4-v3d-async/v3da_jobs.c:89-106 | whatever chunk size is asked for: whole pages, 1 to 512 chunks, and none left out that would fit |
| Overflow.VaIndex | gpu/rpi4-v3d-async/v3da_jobs.c:211-212 | the handler's address gives back the chunk's index |
| OverflowPool.Pool.constructor | gpu/rpi4-v3d-async/v3da_jobs.c:89-120 | the free list is all chunks in order |
| OverflowPool.Pool.Interrupts | gpu/rpi4-v3d-async/v3da_hw.c:389-403 | any number of handler steps, late reports included, moves the shared words step by step; without a report owed they keep naming at most the staged chunk |
| OverflowPool.Pool.Take | gpu/rpi4-v3d-async/v3da_hw.c:389-403 | the armed chunk goes to the binner and holds the bin's tile data from then on, or the want is counted |
| OverflowPool.Overwritten | gpu/rpi4-v3d-async/v3da_jobs.c:167-180 | a chunk armed while the words name another: they are true of the new one if and only if the handler had not taken, and did not take, the old |
| OverflowPool.Pool.Alloc | gpu/rpi4-v3d-async/v3da_jobs.c:123-134 | the head of the free list, or none; nfree is the list's length |
| OverflowPool.Pool.FreeList | gpu/rpi4-v3d-async/v3da_jobs.c:137-149 | the walked list joins the free list and nothing else changes |
| OverflowPool.Pool.Attach | gpu/rpi4-v3d-async/v3da_jobs.c:152-156 | the chunk becomes the head of the job's list |
| OverflowPool.Pool.Stage | gpu/rpi4-v3d-async/v3da_jobs.c:167-180 | one chunk armed unless none is free, with the handler running in between |
| OverflowPool.Pool.GrantDirect | gpu/rpi4-v3d-async/v3da_jobs.c:184-196 | succeeds exactly when a chunk is free, which is then the bin's |
| OverflowPool.Pool.Gather | gpu/rpi4-v3d-async/v3da_jobs.c:207-219 | collecting a report keeps the lists if and only if it names the staged chunk, whatever the handler does meanwhile; else no book describes them any more |
| OverflowPool.Pool.Service | gpu/rpi4-v3d-async/v3da_jobs.c:201-234 | under that condition only the bin's list grows, and wants remain only when nothing is free; without a report owed it holds, and once the binner has stopped nothing handed out is unattributed |
| OverflowPool.Pool.BinDone | gpu/rpi4-v3d-async/v3da_jobs.c:271-286 | all chunks of a bin, and the tile data in them, pass to its render; without one they are freed |
| OverflowPool.Pool.JobDone | gpu/rpi4-v3d-async/v3da_jobs.c:287-290 | a finished render's chunks are freed, and no chunk with tile data of another job |
| OverflowPool.Pool.KickBin | gpu/rpi4-v3d-async/v3da_jobs.c:412-415 | whatever the handler did for earlier bins, the next may start; nobody waits yet, and a chunk is armed unless none is free |
| OverflowPool.Pool.Events | gpu/rpi4-v3d-async/v3da_jobs.c:1147-1165 | chunks handed out in the same batch as the bin's end are the bin's, and go to its render; the other jobs stay |
| OverflowRuns.Drive | gpu/rpi4-v3d-async/v3da_jobs.c:85-290 | over any sequence of new jobs, bins, events, completions and resets, with handler steps and late reports in between: every chunk is on exactly one list in every state if and only if every report collected named the staged chunk, which is so if no reset met a handler with a chunk in hand |
| OverflowPool.Pool.Wedge | gpu/rpi4-v3d-async/v3da_jobs.c:1127-1141 | a reset at any moment of the handler frees the staged chunk, fails bin and render, and keeps every chunk accounted for |
| OverflowPool.Pool.AttributeStale | gpu/rpi4-v3d-async/v3da_jobs.c:207-214 | a report of a chunk that is not staged is attached or freed all the same, and no book describes the links after that |
| OverflowPool.Pool.LateService | gpu/rpi4-v3d-async/v3da_jobs.c:201-234 | a service that finds a report from before a reset keeps the lists if and only if it names the staged chunk; then words and tile data are in order again if and only if no handler had or took the chunk before the next was armed, and one was free |
| OverflowPool.Pool.ResetThenReport | gpu/rpi4-v3d-async/v3da_hw.c:524-547 | the lists are whole after a reset and the report owed, collected at once, if and only if none was owed |
| OverflowRuns.HandedOutTwice | gpu/rpi4-v3d-async/v3da_jobs.c:167-219 | a run in which a late report names the staged chunk and leaves the lists whole, the chunk is handed out again, and the next collection breaks them |
| OverflowLate.AttachBreaks | gpu/rpi4-v3d-async/v3da_jobs.c:209-212 | attaching a chunk that is on a list leaves it on two, or makes its list a circle |
| OverflowLate.FreeBreaks | gpu/rpi4-v3d-async/v3da_jobs.c:137-149 | freeing a chunk that is on a list makes the free list a circle, or leaves the chunk on two |
| GpuSpace.AllocKeeps | gpu/rpi4-v3d-async/v3da_hw.c:321-347 | a range handed out overlaps no hole and no buffer, live or in quarantine |
| GpuSpace.FreeKeeps | gpu/rpi4-v3d-async/v3da_hw.c:352-360 | giving a vacant range back keeps all ranges apart, also when the hole list is full |
| GpuSpace.MapInKeeps | gpu/rpi4-v3d-async/v3da_bo.c:413-418 | mapping makes exactly the new range's entries valid |
| GpuSpace.ClearKeeps | gpu/rpi4-v3d-async/v3da_bo.c:498-501 | unmapping makes exactly that range's entries invalid |
| GpuSpace.ValidIffLive | gpu/rpi4-v3d-async/v3da_bo.c:402-423 | an entry is valid exactly when its page belongs to a live range |
| GpuTlb.HardwareKeeps | gpu/rpi4-v3d-async/v3da_hw.c:303-316 | loading any valid entry, or dropping one, keeps cached translations current or in quarantine |
| GpuTlb.ClearCached | gpu/rpi4-v3d-async/v3da_bo.c:491-517 | translations of an unmapped range are accounted to its quarantine |
| GpuTlb.DropCached | gpu/rpi4-v3d-async/v3da_bo.c:727-772 | once the flush generation has caught up, dropping the range leaves none behind |
| GpuTlb.ReachedIsHeld | gpu/rpi4-v3d-async/v3da_bo.c:727-772 | every page the GPU can reach belongs to a buffer that has not let go of it |
| GpuTable.AddressSpace.VaAlloc | gpu/rpi4-v3d-async/v3da_hw.c:321-347 | the array form is first fit, exact or split, else the next fresh range |
| GpuTable.AddressSpace.VaFree | gpu/rpi4-v3d-async/v3da_hw.c:352-360 | appended, or lost when the list is full |
| GpuTable.AddressSpace.WritePtes | gpu/rpi4-v3d-async/v3da_bo.c:413-418 | each page's entry is its own frame, no other entry changes |
| GpuTable.AddressSpace.ClearPtes | gpu/rpi4-v3d-async/v3da_bo.c:498-500 | those entries invalid, no other entry changes |
| BlockPool.FootprintLeast | gpu/rpi4-v3d-async/v3da_lowmem.h:60-68 | the least doubling of a page that holds the block |
| BlockPool.FootprintOf | gpu/rpi4-v3d-async/v3da_lowmem.h:60-68 | the loop computes it |
| BlockPool.Pick | gpu/rpi4-v3d-async/v3da_lowmem.h:89-115 | exact size and kind; low only if wanted; above the limit if there is such a block; none only if none fits |
| BlockPool.VictimOf | gpu/rpi4-v3d-async/v3da_pool.h:60-74 | goes no later than any other block: above the limit first, then oldest |
| BlockPool.VictimFirst | gpu/rpi4-v3d-async/v3da_pool.h:60-74 | and is the first such block |
| BlockPool.RemoveAt | gpu/rpi4-v3d-async/v3da_pool.h:77-87 | the block out, the last in its place, the byte count exact |
| BlockPool.TrimPool | gpu/rpi4-v3d-async/v3da_pool.h:93-119 | the in-place trim is the idle pass followed by the cap pass |
| BlockPool.TrimPromise | gpu/rpi4-v3d-async/v3da_pool.h:90-119 | kept and released blocks are the original multiset, no idle block stays, the cap holds, each cap release happened above the cap and precedes every kept block |
| BlockPool.CapOrder | gpu/rpi4-v3d-async/v3da_pool.h:57-74 | cap victims go in victim order and before every kept block |
| Lowmem.LowmemMap | gpu/rpi4-v3d-async/v3da_lowmem.h:139-190 | the first whole block below the limit, else the last whole one of at most 16; every other block taken is given back once |
| Lowmem.OthersOnce | gpu/rpi4-v3d-async/v3da_lowmem.h:178-183 | the blocks given back are all but the kept one, each once |
| BlockStore.Store.Get | gpu/rpi4-v3d-async/v3da_bo.c:139-180 | pooled, else placed low, else fresh: the block left in hand and where all others went |
| BlockStore.Store.PutBack | gpu/rpi4-v3d-async/v3da_bo.c:240-269 | into the pool and the pool back under its cap, or to the kernel when the pool is full |
| BoMemory.OneHome | gpu/rpi4-v3d-async/v3da_bo.c:139-180 | a buffer's block is in no other buffer, not pooled, not given back |
| BoMemory.GivenBackOnce | gpu/rpi4-v3d-async/v3da_bo.c:185-189 | a block given back was given back once and is used nowhere |
| BoMemory.TakeFreshKeeps | gpu/rpi4-v3d-async/v3da_bo.c:160-170 | the low-memory tries, rejects included, conserve blocks |
| BoMemory.PutKeeps | gpu/rpi4-v3d-async/v3da_bo.c:240-269 | putting a block back keeps conservation and the byte cap |
| BoMemory.AssignKeeps | gpu/rpi4-v3d-async/v3da_bo.c:385-471 | an admitted low block keeps the low-memory sum within its budget |
| BoInv.QuarantineKeeps | gpu/rpi4-v3d-async/v3da_bo.c:491-517 | a buffer that nothing holds goes to quarantine and every other buffer is untouched |
| BoInv.UnrefKeeps | gpu/rpi4-v3d-async/v3da_bo.c:550-561 | dropping one counted reference keeps the counts exact and withdraws the name with the last |
| BoSteps.SubmitKeeps | gpu/rpi4-v3d-async/v3da_bo.c:566-579 | pins all or none, one per mention |
| BoSteps.EndJobKeeps | gpu/rpi4-v3d-async/v3da_bo.c:653-670 | the end of a job unpins each mention and lets go of buffers nobody else holds |
| BoSteps.CloseHandleKeeps | gpu/rpi4-v3d-async/v3da_bo.c:702-722 | closing a handle keeps the counts exact |
| BoSteps.LeaveKeeps | gpu/rpi4-v3d-async/v3da_bo.c:838-863 | so does a client's departure, for owned and for imported buffers |
| BoSteps.CreateKeeps | gpu/rpi4-v3d-async/v3da_bo.c:346-483 | creation, on every path of success and failure, keeps the whole invariant |
| BoSteps.ImportWindowKeeps | gpu/rpi4-v3d-async/v3da_bo.c:1054-1162 | so does importing another server's buffer |
| BoSteps.ImportExportKeeps | gpu/rpi4-v3d-async/v3da_bo.c:1008-1051 | so does importing an exported one, once per client |
| BoSteps.ExportKeeps | gpu/rpi4-v3d-async/v3da_bo.c:1169-1208 | so does exporting |
| BoSteps.OpenNameKeeps | gpu/rpi4-v3d-async/v3da_bo.c:1304-1322 | so does opening an exported name |
| BoSteps.CloseNameKeeps | gpu/rpi4-v3d-async/v3da_bo.c:1325-1339 | so does closing one |
| BoSteps.FreeBoKeeps | gpu/rpi4-v3d-async/v3da_bo.c:727-772 | a buffer that may leave quarantine gives up block and range without leaving either reachable |
| BoRuns.StepKeeps | gpu/rpi4-v3d-async/v3da_bo.c:346-863 | every step, resets included, keeps the invariant of the buffer table |
| BoRuns.RunInv | gpu/rpi4-v3d-async/v3da_bo.c:676-699 | it holds in every state of every run from the mapped overflow pool on |
| BoTheorems.TlbSafety | gpu/rpi4-v3d-async/v3da_bo.c:727-772 | every cached translation equals the current entry or belongs to a buffer still in quarantine |
| BoTheorems.NoStaleReuse | gpu/rpi4-v3d-async/v3da_bo.c:727-772 | no page of a pooled or returned block can be reached through a cached translation |
| BoTheorems.AddressSpace | gpu/rpi4-v3d-async/v3da_hw.c:321-360 | ranges of buffers, overflow pool and holes are pairwise disjoint in the space handed out; an entry is valid exactly for a live buffer or the pool |
| BoTheorems.PageOfBlock | gpu/rpi4-v3d-async/v3da_bo.c:402-418 | page j of a live buffer is mapped, and if to its own block then to page j of it |
| BoState.PagesHold | gpu/rpi4-v3d-async/v3da_bo.c:364-370 | the pages hold the size asked for, one page at least, and not one more than needed |
| BoTheorems.ReferencesExact | gpu/rpi4-v3d-async/v3da_bo.c:550-722 | refs and inflight are exact counts, a buffer is live exactly while one is positive, jobs name only live buffers, an exported one is referenced |
| BoTheorems.Budgets | gpu/rpi4-v3d-async/v3da_bo.c:385-471 | pool_bytes and low_live are sums over what is there and within their limits, and blocks are conserved |
| BoQuarantine.QuarantinePass | gpu/rpi4-v3d-async/v3da_bo.c:738-750 | when a buffer may go, a job on the hardware at its unmapping has finished, unless a job was reaped from that queue meanwhile |
| BoQuarantine.QueuePasses | gpu/rpi4-v3d-async/v3da_jobs.c:247-264 | with that job still running, its queue counts as passed if and only if there was a reap |
| BoQuarantine.EarlyStretch | gpu/rpi4-v3d-async/v3da_jobs.c:258-264 | in any state with idle queues and a render whose bin failed, for any buffer with one holder: a start, a close, a reap and a flushing start let the buffer go with the first job still running |
| BoQuarantine.ReapPassesEarly | gpu/rpi4-v3d-async/v3da_jobs.c:258-264 | a run of the server from its start in which a reset fails a bin and then that happens |
| BoQuarantine.QuarantineEnds | gpu/rpi4-v3d-async/v3da_bo.c:727-750 | once the hardware is idle and the last flush follows the last change, every quarantined buffer may go |
| BoQuarantine.IdleLeavesAtOnce | gpu/rpi4-v3d-async/v3da_bo.c:507-516 | a buffer let go of while nothing runs is flushed and may go at once |
| BufferTable.Buffers.constructor | gpu/rpi4-v3d-async/v3da_bo.c:676-699 | the server with its overflow pool mapped |
| BufferTable.Buffers.QuarantineBegin | gpu/rpi4-v3d-async/v3da_bo.c:491-517 | entries cleared, generation and snapshot taken, flush when nothing runs |
| BufferTable.Buffers.BoUnref | gpu/rpi4-v3d-async/v3da_bo.c:550-561 | the in-place form of dropping a reference |
| BufferTable.Buffers.QuarantinePoll | gpu/rpi4-v3d-async/v3da_bo.c:727-772 | one pass frees exactly the buffers that may go and leaves all others as they were |
| BufferTable.Buffers.CloseBo | gpu/rpi4-v3d-async/v3da_bo.c:702-722 | drops the client's import, else the creator's handle, and then frees exactly what may leave quarantine; without either nothing changes |
| BufferTable.Buffers.CloseFd | gpu/rpi4-v3d-async/v3da_bo.c:1325-1339 | one descriptor of the name fewer, and then exactly what may leave quarantine is free |
| BufferTable.Buffers.ClientGone | gpu/rpi4-v3d-async/v3da_bo.c:838-863 | exactly the client's references are gone from every buffer, and exactly the buffers that nothing else held; then exactly what may leave quarantine is free, and the pool is trimmed |
| BufferTable.Buffers.PinForJob | gpu/rpi4-v3d-async/v3da_bo.c:566-579 | refused if any buffer cannot be named, else one pin per mention |
| BufferTable.Buffers.JobEnds | gpu/rpi4-v3d-async/v3da_bo.c:653-670 | the loop drops the job's pins in order, quarantining what nothing else holds, as the model's end of a job does |
| BufferTable.Buffers.Create | gpu/rpi4-v3d-async/v3da_bo.c:346-483 | slot, block, range, entries, reference; each failure undoes what was taken |
| BufferTable.Buffers.ImportForeign | gpu/rpi4-v3d-async/v3da_bo.c:1054-1162 | mapped again only if this client has not imported it yet |
| BufferTable.Buffers.ImportOwn | gpu/rpi4-v3d-async/v3da_bo.c:1008-1051 | one reference per client, none for the owner's own |
| BufferTable.Buffers.ExportBo | gpu/rpi4-v3d-async/v3da_bo.c:1169-1208 | only by a holder, and only of uncached, own, non-scan-out memory |
| BufferTable.Buffers.OpenFd | gpu/rpi4-v3d-async/v3da_bo.c:1304-1322 | one descriptor and one reference more, if exported |
| AudioRing.ConsumedTrue | audio/rpi4-audio/rpi4-audio-ring.h:92-100 | with a clock right to half a lap, the move is told exactly, a lap or more as a lap |
| AudioRing.ConsumedExact | audio/rpi4-audio/rpi4-audio-ring.h:92-100 | a move of less than a lap is told exactly if and only if the clock does not call it a lap |
| AudioRing.ServiceKeeps | audio/rpi4-audio/rpi4-audio-ring.h:150-178 | wherever the cursor and whatever the clock: outside the pending words the ring is silence |
| AudioRing.ResyncKeeps | audio/rpi4-audio/rpi4-audio-ring.h:128-141 | the restarted writer keeps its parity and stands at the end of the pending words |
| AudioRing.WriteKeeps | audio/rpi4-audio/rpi4-audio-ring.h:105-116 | writing into the free space and committing keeps the rest silent and pending below the size |
| AudioRing.CommitParity | audio/rpi4-audio/rpi4-audio-ring.h:112-116 | the write position has the parity of the number of samples committed |
| AudioStream.DutyRange | audio/rpi4-audio/rpi4-audio.c:574-577 | duties are monotone, in range, and silence is the duty of 0 |
| AudioStream.ServeKeeps | audio/rpi4-audio/rpi4-audio.c:493-516 | a timely service, or any service with nothing pending, forgets no pending word and silences the played ones |
| AudioStream.WritePassKeeps | audio/rpi4-audio/rpi4-audio.c:595-630 | a pass commits as many words as there is room for, in order, however long the engine ran idle before |
| AudioStream.WritePassRing | audio/rpi4-audio/rpi4-audio.c:595-630 | word by word and the driver's batch leave the same ring |
| AudioStream.Heard | audio/rpi4-audio/rpi4-audio-ring.h:1-30 | on every run that is timely while words are pending: each committed sample is heard once, in order, on its channel, and all else is silence |
| AudioStream.CommittedBy | audio/rpi4-audio/rpi4-audio.c:589-634 | what each step adds to the committed samples |
| AudioDriver.Driver.Fill | audio/rpi4-audio/rpi4-audio-ring.h:63-76 | silence from a place on, wrapping, a lap at most |
| AudioDriver.Driver.RingService | audio/rpi4-audio/rpi4-audio.c:493-516 | the in-place service, for any reading of the hardware |
| AudioDriver.Driver.Restart | audio/rpi4-audio/rpi4-audio-ring.h:128-141 | the in-place resync |
| AudioDriver.Driver.Pass | audio/rpi4-audio/rpi4-audio.c:595-630 | service, resync, store, commit |
| AudioDriver.Driver.RingWrite | audio/rpi4-audio/rpi4-audio.c:589-634 | the duties of the first `done` samples are committed, in order and once each; parity and silence are kept; a stall needs more than 20000 passes without room |
| SampleRing.PutKeeps | adc/ade9113/sample.h:47-54 | the buffer holds the last bytes of the stream, also when more is written than fits |
| SampleRing.AnswerTrue | adc/ade9113/sample.c:88-131 | a read returns the next bytes of the stream, unless closed, a whole buffer behind, or past the end |
| SampleRing.FreshNotOverrun | adc/ade9113/sample.c:62-71 | a reader just opened is aligned, less than a sample behind, and never overrun |
| SampleRing.EmptySampleAdmitted | adc/ade9113/sample.c:166-170 | the initial check admits samples of no bytes |
| SampleRing.StepKeeps | adc/ade9113/sample.c:26-131 | every transaction, open, close, wake-up and step of any number of reads keeps: what reads return are true bytes of the stream from recorded places, and waiting reads have their threshold set |
| SampleReads.StoredIff | adc/ade9113/sample.c:128-130 | the unlocked store of the offset keeps the reads joined if and only if it is harmless |
| SampleReads.JoinedIff | adc/ade9113/sample.c:88-131 | on every run: all readers' reads are joined in all states up to one, if and only if no offset was stored harmfully before it |
| SampleReads.ReadsJoin | adc/ade9113/sample.c:88-131 | if no reader is opened or read again while a read of it has yet to store its offset, its successful reads are one stretch of the stream |
| SampleReads.LateStoreBreaks | adc/ade9113/sample.c:62-131 | a run in which a reader closed and reopened during a read is left past the end, and every next read fails |
| SampleReads.SecondReadRepeats | adc/ade9113/sample.c:88-131 | a run in which two reads of one reader return the same byte |
| SampleRing.NoLostWakeup | adc/ade9113/sample.c:38-47 | a waiting reader is short of bytes with the threshold at or below its need; the transaction that brings enough, or a close, wakes it |
| SampleBuffer.Buffer.Write | adc/ade9113/sample.h:47-54 | the in-place store of a chunk |
| SampleBuffer.Buffer.WriteEnd | adc/ade9113/sample.c:38-47 | broadcasts exactly when the threshold is reached, and resets it |
| SampleBuffer.Buffer.Read | adc/ade9113/sample.c:102-128 | the locked part of a read: the wrapped copy is the stream's own bytes |
| SampleBuffer.ReaderSlot.Copy | adc/ade9113/sample.c:102-128 | the bytes copied are those at the reader's offset, as the model's call holds them |
| SampleBuffer.ReaderSlot.Store | adc/ade9113/sample.c:129-130 | the unlocked end of a read, for whatever offset it loaded |
| SampleBuffer.Buffer.OpenAt | adc/ade9113/sample.c:62-71 | the start of the current sample |
| SampleBuffer.Buffer.Await | adc/ade9113/sample.c:93-101 | the threshold is lowered to the reader's need and never raised |

## Left out

- Job error bits and `error_seq`: only the order and completion of fences is modelled, not which completions carry an error.
- The other fence theorems across a GPU reset: `ResetOrder` says when a row stays true; deadlock freedom, turn-taking and implicit sync are proved for runs without a reset.
- What a handler's write to the overflow registers gives the binner after a reset: only its words are followed.
- The place in its FIFO of a render whose bin failed, in the buffer machine: `BoState` counts such renders; that one can be reaped behind a running render is shown in `ResetRuns`.
- Implicit sync across the death of a client: a discarded job's fence signals before the job's own dependencies, so the guarantee does not hold there.
- Order between a client's own submits and its own attached join fence: the server skips own-slot fences.
- Wrap-around of 64-bit counters and of buffer-handle generations: counters are unbounded, and a request names a buffer by its slot or not at all.
- Register sequences, cache maintenance, power and clock control, statistics, log lines and message plumbing: no state to reason about.
- Firmware scan-out: which frame-buffer page a scan-out buffer maps is an input; frame-buffer pages are not followed through quarantine.
- Mapping another server's window page by page: its pages are symbolic.
- Grouping of micro-steps: a request that visits many slots or ends a job is several steps of `BoRuns`, with the invariant after each; `BufferTable` joins them again.
- Several clock readings within one request: one reading is used.
- The audio sweeper's sleeping and waking: service is a step that the environment takes.
- Re-arming a stalled DMA engine: a stall ends the write.
- SchedServer.RenderServer.CheckSubmit: does not model the size checks of the message payload, which precede those modelled.
- AudioDriver.Driver.RingWrite: does not model the engine's moves during a pass; each pass is atomic with its service, as the stream theorem assumes.
- The other rings of the repository (`librtt`, `bt/rpi4-hci`): simpler forms of the two modelled here.
- GPIO, I2C, CAN, PWM, RTC, sensor and display drivers: thin wrappers over registers.
