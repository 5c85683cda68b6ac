# Verified models of the DANBI runtime

DANBI runs stream programs: kernels on many threads pass data through shared-memory queues whose
reservations are made in a critical order and whose data moves without locks.  This project models
the queue protocols, the locks and ticket servers below them, and the two stream programs with a
crisp mathematical specification (merge sort and FFT), and proves what they promise.

Protocols are machines: a state holds the shared fields of the source, one step is one shared access
of one thread, or a few that nothing can come between ("Left out" lists those), and any number of
threads may take steps in any order.  Beside the real fields a state
carries history (counters behind wrapping indices, lists of reservations, logs) that no step looks at.
Sequential code is imperative: methods with loops on arrays, and classes whose fields are updated in
place, each proved against a function or against a step of the machine.

| file | what it models |
|---|---|
| Common.dfy, RingIndex.dfy | shared vocabulary; wrapping indices, room and data tests, two-piece windows |
| RingQueue.dfy, RingRuns.dfy, BlockingRing.dfy | the reserve/commit ring: lock-free machine, the runs that overrun it, and the lock-based class in place |
| TwoPhaseLock.dfy, TwoPhaseProgress.dfy, EarlyCancel.dfy, ReserveOrder.dfy | the reserve/commit lock with records on the callers' stacks, who waits for whom at it, the cancel that breaks its order, and what that cancel leaves intact |
| RingLock.dfy, LockedRing.dfy, LockedRuns.dfy | the lock-based ring over whole runs: the ring joined with its two locks, and a run in which a pop gets an uncommitted cell |
| Tickets.dfy, OrderedKernel.dfy | ticket servers, and order preservation of a parallel kernel between two rings |
| BufferManager.dfy, ResizableQueue.dfy, ResizableRuns.dfy, ResizableRing.dfy | the growing, compacting and shrinking ring: machine, the runs that break it, and class |
| Accessor.dfy | copies in and out of two-piece windows |
| SuperScalableQueue.dfy | linked FIFO queue with a permanent sentinel |
| CuBoNodes.dfy, CuBoRequests.dfy, CuBoQueue.dfy, CuBoProgress.dfy | linked FIFO queue with combining pops, and who waits for whom in it |
| CLHLock.dfy, MCSLock.dfy | the queue locks |
| Sorting.dfy, QuickSort.dfy, MergeCombine.dfy, MergeSortRun.dfy | the merge sort pipeline |
| Complex.dfy, Fft.dfy, FftKernels.dfy | the FFT pipeline and its fused kernels |

Of every lock and queue with waiting threads it is proved not only that nothing bad happens but also
that every access goes where the contents or the line say, that a thread waits only for one that does
something, and that while a call is in progress some thread can go on (`StepExact`, `StepAdvances`,
`NoDeadlock`, `NeverStuck`).

`dafny verify dfyconfig.toml` checks everything.

Seven places where the code does less than its comments or its neighbours suggest are part of the
model, each with an input on which it fails and the exact condition under which it does not:

- A reserving compare-and-swap that sleeps through a whole lap can find its index unchanged and
  overrun the ring (`LatePushOverruns`, `LatePopOverruns`).  It keeps the ring sound if and only if it
  fails or the indices of now pass the test as well (`SwapTailExact`, `SwapHeadExact`).
- The reads before that swap can refuse a push on an empty ring and a pop of data that is there
  (`PushRefusedWithRoom`, `PopRefusedWithData`).  Every refusal is just if and only if Head has not
  passed the counter that was read (`PushRefusalsJust`), or Tail is less than a lap ahead of it
  (`PopRefusalsJust`).
- The cancel of the fixed-size blocking queue does not wait for its turn to commit, so a younger push
  can commit before an older one (`EarlyCancelLosesOrder`) and a pop be granted a cell that nobody has
  committed (`EarlyCancelServesUncommitted`).  It keeps the lock sound if and only if the canceller is
  the oldest caller (`SkipWaitExact`), and over whole runs the ring stays sound if and only if every
  commit is one of the oldest reservation (`LockedRing.RunSound`), which holds as long as nobody but the
  oldest caller cancels without waiting (`PatientIsFifo`).  Reserving stays exclusive in any case
  (`OneReserverAnyway`).
- Compaction can leave Tail at the new size, after which stale cells are served
  (`OverrunServesStaleCells`); exactly when is `OverrunExactly`.
- A pop reads NumElm before it reads Tail.  If NumElm is overtaken in between, or was read while a
  compaction had given the pop lock back but not yet stored it, the pop can take the old end for the end
  of the queue, after which stale cells are served: by a queue that grows in place
  (`GrowthServesStaleCell`) and by one that compacts (`StrayServesStaleCells`).  It keeps the queue
  sound if and only if neither its window nor the new head goes around that end (`PopWindow`,
  `StepInv`); a pop whose read of NumElm is not overtaken never does (`StraysOnlyOvertaken`).
- The per-CPU ticket server also clears tickets consumed less than a lap ago (`ServersAgree`; `ServersDiffer` is the smallest case).
- binsplit does not return the index its comment names on 1, 2 split at 2 (`BinSplitMisses`); it does
  if and only if the value does not occur or nothing is less (`BinSplitExact`).

## Model

| member | source | states |
|---|---|---|
| RingIndex.RoomExact | include/Support/ConcurrentReserveCommitQueue.h:86-100 | the wrap-around test on indices decides exactly whether the reservation stays within the free cells, one cell always being left unused |
| RingIndex.DataExact | include/Support/ConcurrentReserveCommitQueue.h:102-119 | the data test decides exactly whether all peeked elements are committed; an empty queue refuses even an empty peek |
| RingIndex.WindowsExact | include/Support/ConcurrentReserveCommitQueue.h:169-184 | the two window pieces denote, in order, the cells of consecutive counters and never leave the buffer |
| RingIndex.SameIndexSameCounter | include/Support/ConcurrentReserveCommitQueue.h:199-201 | two counters less than a lap apart have equal indices only if they are equal |
| RingQueue.GrantedTail | include/Support/ConcurrentReserveCommitQueue.h:156-201 | a push reservation that passes its test and wins its swap less than a lap after its first read fits the cells that are free now, even if head was read long before |
| RingQueue.GrantedHead | include/Support/ConcurrentReserveCommitQueue.h:313-363 | a pop reservation that passes its test and wins its swap less than a lap after its first read covers only elements committed now, even if tail was read long before |
| RingQueue.SwapTailExact | include/Support/ConcurrentReserveCommitQueue.h:154-201 | however late a reserving swap on ReservedTail comes, the ring stays sound if and only if the swap fails or there is room by the indices of now |
| RingQueue.SwapHeadExact | include/Support/ConcurrentReserveCommitQueue.h:306-363 | the same for ReservedHead and the data that is committed now |
| RingQueue.WithinLapSuffices | include/Support/ConcurrentReserveCommitQueue.h:154-201 | a swap less than a lap after its first read never overruns the ring |
| RingQueue.PushGrantedExactly | include/Support/ConcurrentReserveCommitQueue.h:154-201 | within a lap of its first read, a push reservation is made exactly when nobody has reserved since that read and the counters that were read leave room, and is then the next cells; otherwise the queue is left as it is |
| RingQueue.PopGrantedExactly | include/Support/ConcurrentReserveCommitQueue.h:313-363 | the same for pops and the committed data that was read |
| RingQueue.PushRefusalsJust | include/Support/ConcurrentReserveCommitQueue.h:154-164 | at the read of Head, whatever count is asked for, a push is refused on its two reads only if the ring has no room by the indices of now, if and only if Head has not passed the ReservedTail that was read |
| RingQueue.PopRefusalsJust | include/Support/ConcurrentReserveCommitQueue.h:313-321 | at the read of Tail, whatever count is asked for, a pop is refused on its two reads only if too little is committed by the indices of now, if and only if Tail is less than a lap ahead of the ReservedHead that was read |
| RingQueue.StepInv | include/Support/ConcurrentReserveCommitQueue.h:149-256 | a step of any thread keeps the ring's counters, reservations, committed data and outstanding reads consistent if and only if it is not a reserving swap that overruns |
| RingQueue.RunSound | include/Support/ConcurrentReserveCommitQueue.h:149-437 | the ring is sound in every state of a run if and only if no swap of the run overruns it |
| RingQueue.CommitPushOnlyOldest | include/Support/ConcurrentReserveCommitQueue.h:237-256 | the commit swap on Tail succeeds exactly for the oldest uncommitted push, whatever the ready flags say |
| RingQueue.CommitPopOnlyOldest | include/Support/ConcurrentReserveCommitQueue.h:418-437 | the commit swap on Head succeeds exactly for the oldest uncommitted pop |
| RingQueue.RingSafety | include/Support/ConcurrentReserveCommitQueue.h:149-437 | in every state of every run without such a swap H <= RH <= T <= RT <= H + NumElm - 1, and no push window shares a cell with another push window, a pop window or committed data |
| RingQueue.RingRefinesFifo | include/Support/ConcurrentReserveCommitQueue.h:149-437 | every step that does not overrun is a step of a FIFO queue: commits append the filled window, pops see the first peek elements and take the first num, all else changes nothing |
| RingQueue.PopsReadCommittedPrefix | include/Support/ConcurrentReserveCommitQueue.h:149-437 | over whole runs the elements taken are a prefix of the elements committed, windows show committed data for as long as they are held, and successive windows slide by the popped count |
| RingQueue.PushWindowPrivate | include/Support/ConcurrentReserveCommitQueue.h:169-184 | until its commit a push window changes only through its owner's writes |
| RingRuns.LatePushOverruns | include/Support/ConcurrentReserveCommitQueue.h:154-201 | a run from a new ring in which a push sleeps through a lap and then reserves a cell of a full ring |
| RingRuns.LatePopOverruns | include/Support/ConcurrentReserveCommitQueue.h:306-363 | a run from a new ring in which a pop sleeps through a lap and then takes an element that was never pushed |
| RingRuns.PushRefusedWithRoom | include/Support/ConcurrentReserveCommitQueue.h:154-164 | a run from a new ring after which a push is refused on its reads although the ring is empty |
| RingRuns.PopRefusedWithData | include/Support/ConcurrentReserveCommitQueue.h:313-321 | a run from a new ring after which a pop is refused on its reads although an element is there |
| BlockingRing.ReserveCommitQueue.constructor | include/Support/BlockingReserveCommitQueue.h:168-181 | the new ring has one cell more than the capacity asked for and is empty |
| BlockingRing.ReserveCommitQueue.ReservePushN | include/Support/BlockingReserveCommitQueue.h:191-262 | refused if the reads made before the lock leave no room, whatever has happened since; past that told to wait exactly when it is not its turn, refused exactly when the cells are not free, otherwise granted the next cells as window |
| BlockingRing.ReserveCommitQueue.Fill | include/Support/BlockingReserveCommitQueue.h:229-246 | writing element i through the window changes element i of that reservation and nothing of the queue |
| BlockingRing.ReserveCommitQueue.CommitPush | include/Support/BlockingReserveCommitQueue.h:265-301 | stores Tail for any outstanding push; the queue stays sound if and only if it is the oldest, and then the committed window is appended |
| BlockingRing.ReserveCommitQueue.ReservePeekPopN | include/Support/BlockingReserveCommitQueue.h:323-421 | refused on the reads made before the lock like a push; past that refused exactly when fewer than peek elements are there, otherwise shows the first peek elements and takes the first num |
| BlockingRing.ReserveCommitQueue.CommitPeekPop | include/Support/BlockingReserveCommitQueue.h:424-452 | stores Head for any outstanding pop; the queue stays sound if and only if it is the oldest, and then its cells are freed and the contents stay |
| BlockingRing.EarlyTail | include/Support/BlockingReserveCommitQueue.h:265-301 | what a stored Tail offers to pops: everything up to the end of that reservation, so uncommitted cells unless it is the oldest |
| BlockingRing.EarlyHead | include/Support/BlockingReserveCommitQueue.h:424-452 | what a stored Head frees for pushes: everything up to the end of that pop, so cells of older pops unless it is the oldest |
| TwoPhaseLock.ApplyInv | include/Support/ResizableReserveCommitQueue.h:145-207 | every access of every thread, tryAcquire and cancel included, keeps the lock's invariant |
| TwoPhaseLock.OneReserver | include/Support/ResizableReserveCommitQueue.h:160-181 | at most one thread is in a reserve section |
| TwoPhaseLock.OneCommitter | include/Support/ResizableReserveCommitQueue.h:184-200 | at most one thread is in a commit section |
| TwoPhaseLock.OrderKept | include/Support/ResizableReserveCommitQueue.h:160-207 | commits follow reservations follow the swaps on the lock word, position by position |
| TwoPhaseLock.TouchesLive | include/Support/ResizableReserveCommitQueue.h:169-200 | another thread's record is accessed only while its owner is still inside a call |
| TwoPhaseLock.TwoPhaseSafety | include/Support/ResizableReserveCommitQueue.h:145-207 | all of this in every state of every run of any number of threads |
| TwoPhaseProgress.MayBegin | include/Support/ResizableReserveCommitQueue.h:160-164 | whoever is not inside a call may start one, with a fresh record |
| TwoPhaseProgress.SwapJoins | include/Support/ResizableReserveCommitQueue.h:160-176 | acquireReserveLock joins the line behind the last caller in it, or on a free lock goes on at once |
| TwoPhaseProgress.TryJoins | include/Support/ResizableReserveCommitQueue.h:145-158 | tryAcquireReserveLock joins the line if and only if nobody is in it, and its next access puts it in the reserve section with its commit lock; otherwise it changes nothing |
| TwoPhaseProgress.StepAdvances | include/Support/ResizableReserveCommitQueue.h:145-207 | every access goes where the line says, changes nothing exactly while its caller waits, and otherwise brings the call nearer to its end |
| TwoPhaseProgress.NoDeadlock | include/Support/ResizableReserveCommitQueue.h:145-207 | while a call is in progress some caller can take a step that is not a wait |
| EarlyCancel.SkipWaitExact | include/Support/BlockingReserveCommitQueue.h:159-164 | a cancel that does not wait for its turn keeps the lock's invariant if and only if it has its commit lock already, that is, if and only if it is the oldest caller |
| EarlyCancel.EarlyCancelLosesOrder | include/Support/BlockingReserveCommitQueue.h:159-164 | a run from the free lock in which such a cancel lets a third caller commit while the first, which reserved before it, has not |
| ReserveOrder.DoKeepsLine | include/Support/BlockingReserveCommitQueue.h:117-164 | every access of every thread, cancels that skip their wait included, keeps the order in which callers reserve |
| ReserveOrder.OneReserverAnyway | include/Support/BlockingReserveCommitQueue.h:117-164 | in every state of every run with such cancels at most one thread is in a reserve section, and they are entered in the order of the swaps on the lock word |
| RingLock.StoresOldest | include/Support/BlockingReserveCommitQueue.h:264-270 | as long as the account of a lock and its callers holds, whoever is about to store its index holds the oldest reservation |
| RingLock.AttemptOk | include/Support/BlockingReserveCommitQueue.h:214-224 | a reservation, granted or refused, keeps the account of who holds which reservation |
| RingLock.EnterOk | include/Support/BlockingReserveCommitQueue.h:117-164 | every access to the lock keeps it, unless a caller that is not the oldest cancels without waiting |
| LockedRing.StepSound | include/Support/BlockingReserveCommitQueue.h:191-452 | a step of any pusher or popper keeps the ring sound if and only if it is not a store of Tail or Head by another than the oldest reservation |
| LockedRing.RunSound | include/Support/BlockingReserveCommitQueue.h:191-452 | whatever the locks let through, the ring is sound in every state of a run if and only if every commit of the run is one of the oldest reservation |
| LockedRing.RefinesFifo | include/Support/BlockingReserveCommitQueue.h:191-452 | every other step is a step of a FIFO queue: storing Tail appends the window, a pop is granted exactly when enough is there and takes and shows the front, a push is granted exactly when it fits |
| LockedRing.RunIsFifo | include/Support/BlockingReserveCommitQueue.h:191-452 | over every run without an early commit, what was there and what was committed is what was popped and what is still there, in order |
| LockedRing.PatientStep | include/Support/BlockingReserveCommitQueue.h:135-164 | as long as nobody but the oldest caller cancels without waiting, no step is an early commit and the joint account of ring and locks is kept |
| LockedRing.PatientIsFifo | include/Support/BlockingReserveCommitQueue.h:168-181 | from a new queue, over every such run of any number of threads, the ring is sound in every state and FIFO over the run |
| LockedRing.OneReserves | include/Support/BlockingReserveCommitQueue.h:209-252 | in every state of every run, sound or not, at most one thread of a side may reserve |
| LockedRing.NeverStuck | include/Support/BlockingReserveCommitQueue.h:191-452 | as long as only the oldest caller cancels without waiting, some caller of a side with a call in progress can go on |
| LockedRing.MayAsk | include/Support/BlockingReserveCommitQueue.h:209-252 | inside its reserve section a caller may ask for any count, and the holder of a window may write any of its cells |
| LockedRuns.EarlyCancelServesUncommitted | include/Support/BlockingReserveCommitQueue.h:159-164 | a run from a new queue in which a refused push cancels early, the next one commits before the first, and a pop is granted a cell although nothing has been committed |
| Tickets.SlotHolds | include/Support/PerCPUOrderingTicketServer.h:40-46 | after k consumptions the slot of a ticket holds it exactly while it is one of the last Cores tickets up to k |
| Tickets.SlotAdvances | include/Support/PerCPUOrderingTicketServer.h:48-52 | consuming ticket k moves exactly one slot, to the next ticket of its residue class |
| Tickets.PerCPUOrderingTicketServer.constructor | include/Support/PerCPUOrderingTicketServer.h:31-38 | the slot array starts as the state before any consumption |
| Tickets.PerCPUOrderingTicketServer.IsMyTurn | include/Support/PerCPUOrderingTicketServer.h:40-46 | true exactly for the ticket being served and the Cores - 1 consumed last |
| Tickets.PerCPUOrderingTicketServer.ConsumeSafe | include/Support/PerCPUOrderingTicketServer.h:48-52 | one more ticket is consumed and every slot is right for the new count |
| Tickets.ServersAgree | include/Support/PerCPUOrderingTicketServer.h:31-52 | both servers give the same answer for a ticket if and only if it is not one of the Cores - 1 consumed last, so always for a ticket not yet consumed |
| Tickets.ServersAgreeInPlace | include/Support/SingleOrderingTicketServer.h:28-40 | for two server objects from which as many tickets were consumed, the comparisons their isMyTurn methods make agree on a ticket if and only if it is not one of the Cores - 1 consumed last |
| OrderedKernel.IssuerPassesNext | include/Support/SingleOrderingTicketIssuer.h:32-39 | the waiting issuer lets pass exactly the oldest reservation without a number, so numbers follow reservation order |
| OrderedKernel.ServerClearsServed | include/Support/PerCPUOrderingTicketServer.h:40-46 | the per-CPU server clears exactly the job whose turn it is |
| OrderedKernel.NumbersInTurn | include/Support/SingleOrderingTicketIssuer.h:32-39 | a popping job gets its number, which is its position, exactly when all jobs before it have theirs, and otherwise changes nothing |
| OrderedKernel.ClearsInTurn | include/Support/PerCPUOrderingTicketServer.h:40-46 | a ticketed job is cleared exactly when all jobs before it have consumed their tickets, and otherwise changes nothing |
| OrderedKernel.PushesInTurn | include/Support/ConcurrentReserveCommitQueue.h:154-223 | a cleared job has pushed exactly if its swap made a reservation, and has to see its turn again if not |
| OrderedKernel.OldestAdvances | include/Support/ConcurrentReserveCommitQueue.h:166-223 | the oldest job that is not finished can always go on, whatever the others do |
| OrderedKernel.StepInv | include/Support/ConcurrentReserveCommitQueue.h:166-223 | a step of any worker, producer or consumer keeps the joint invariant of both rings, the issuer and the server if and only if it overruns neither ring |
| OrderedKernel.OrderPreserved | include/Support/ConcurrentReserveCommitQueue.h:306-380 | in every state of every run that overruns neither ring, outputs lie in the output queue in the order in which their inputs were popped, no pushing job is missing, and exactly the jobs before the one served are finished |
| BufferManager.ResizableBufferManager.constructor | include/Support/ResizableBufferManager.h:46-66 | the minimum covers the request and a page and the maximum both, and neither is more than that |
| BufferManager.ResizableBufferManager.Resize | include/Support/ResizableBufferManager.h:82-112 | whatever the first page count was, the granted size is what the first page count from there on holds that is enough for the request, or the maximum; an exact page count needs no retry and grants less than a page more than asked for |
| ResizableQueue.CalcGrownEnough | include/Support/ResizableReserveCommitQueue.h:217-219 | the truncated product exceeds the old size plus the request |
| ResizableQueue.CalcGrownExact | include/Support/ResizableReserveCommitQueue.h:217-219 | what is asked for beyond the need is the growth ratio's share of the need, rounded down |
| ResizableQueue.ShrinkToExact | include/Support/ResizableReserveCommitQueue.h:354-356 | a shrinking queue asks for as much less as the shrink ratio and the reserved tail allow |
| ResizableQueue.ShrinkWhen | include/Support/ResizableReserveCommitQueue.h:318-331 | a shrink is required exactly when the queue is not wrapped around and not of the size first asked for, what is reserved or in use is at most the complement of the start ratio, and the size asked for is smaller by more than a page |
| ResizableQueue.RoomNow | include/Support/ResizableReserveCommitQueue.h:111-124 | the room test against a head that has moved on since it was read is still safe |
| ResizableQueue.PopWindow | include/Support/ResizableReserveCommitQueue.h:545-580 | a granted pop covers only committed elements, even against an overtaken Tail and an overtaken NumElm; whenever NumElm was read before ReservedHead and Tail, its window and new head are right under the size of now if and only if they do not go around the end of an overtaken one |
| ResizableQueue.FreshChecksExact | include/Support/ResizableReserveCommitQueue.h:111-143 | with nothing overtaken both tests are exact |
| ResizableQueue.FreshReserves | include/Support/ResizableReserveCommitQueue.h:418-455 | a reservation on reads that nothing has overtaken is made exactly when the cells, or the elements, are there, and is then the next cells, or the first elements; otherwise the queue is left as it is |
| ResizableQueue.Unwrapped | include/Support/ResizableReserveCommitQueue.h:287-303 | a queue that may be resized in place has its four indices in order, as the code asserts |
| ResizableQueue.GrowInv | include/Support/ResizableReserveCommitQueue.h:287-303 | growing in place keeps the queue sound under outstanding pushes and pops and a popper at any point of its reads, also one that has read NumElm and not yet Tail |
| ResizableQueue.ShrinkInv | include/Support/ResizableReserveCommitQueue.h:334-363 | shrinking keeps the queue sound and never cuts off the reserved tail |
| ResizableQueue.CompactInv | include/Support/ResizableReserveCommitQueue.h:222-284 | all three cases of compaction, and the resize when the queue was unwrapped meanwhile, keep the queue sound unless Tail lands at the new size, with NumElm still to be stored |
| ResizableQueue.StepInv | include/Support/ResizableReserveCommitQueue.h:399-660 | a step of any thread keeps the queue sound if and only if it is neither a compaction that puts Tail at the new size nor a granted pop that goes around the end of an overtaken NumElm |
| ResizableQueue.StraysOnlyOvertaken | include/Support/ResizableReserveCommitQueue.h:553-580 | a pop that reads NumElm while no compaction has yet to store it, and reserves with no growth in place since, is never such a pop |
| ResizableQueue.RunSound | include/Support/ResizableReserveCommitQueue.h:399-660 | the queue is sound in every state of a run if and only if the run takes neither of these two steps |
| ResizableQueue.OverrunExactly | include/Support/ResizableReserveCommitQueue.h:241-252 | the compaction that puts Tail at the new size is exactly the one on a wrapped queue whose front block fits behind the old end and whose maximum size is just that end |
| ResizableQueue.CompactsExactly | include/Support/ResizableReserveCommitQueue.h:222-226 | a compaction takes place exactly when no push and no pop is outstanding and no popper is inside |
| ResizableRuns.OverrunServesStaleCells | include/Support/ResizableReserveCommitQueue.h:241-252 | a run from a new queue with such a compaction, after which a pop is granted on an empty queue |
| ResizableRuns.StrayServesStaleCells | include/Support/ResizableReserveCommitQueue.h:280-311 | a run from a new queue with a sound compaction and a pop before NumElm is stored, after which four stale cells are popped |
| ResizableRuns.GrowthServesStaleCell | include/Support/ResizableReserveCommitQueue.h:553-580 | a run from a new queue without compaction in which the queue grows in place between a pop's reads of NumElm and Tail, and the pop is granted a stale cell |
| ResizableQueue.CompactingPushRetries | include/Support/ResizableReserveCommitQueue.h:418-427 | a push that compacted fails its second room test whatever the new size, so it never reserves with indices from before |
| ResizableQueue.ResizeKeepsContents | include/Support/ResizableReserveCommitQueue.h:222-365 | the elements from Head to Tail, and from ReservedHead to Tail, are the same before and after growing, compacting, storing NumElm and shrinking |
| ResizableQueue.MemoryIsLog | include/Support/ResizableReserveCommitQueue.h:399-660 | what lies between Head and Tail in the buffer is what was committed and not yet popped, in order |
| ResizableQueue.PopWindowReads | include/Support/ResizableReserveCommitQueue.h:556-585 | an outstanding pop window shows its committed elements for as long as it is held, across resizes |
| ResizableQueue.PushWindowPrivate | include/Support/ResizableReserveCommitQueue.h:430-448 | no cell of an outstanding push window is a cell of another window or of committed data |
| ResizableQueue.RefinesFifo | include/Support/ResizableReserveCommitQueue.h:399-660 | every step but those two is a step of a FIFO queue, growing, compacting and shrinking included |
| ResizableQueue.RunIsFifo | include/Support/ResizableReserveCommitQueue.h:399-660 | over every run without those two steps, what was there and what was committed is what was popped and what is still there, in order |
| ResizableQueue.FifoFromEmpty | include/Support/ResizableReserveCommitQueue.h:369-388 | from a new queue, over such runs, everything popped is a prefix of everything committed |
| ResizableQueue.NeverStuck | include/Support/ResizableReserveCommitQueue.h:399-660 | from every state the pusher and the popper have an access they may make, and every outstanding reservation can be committed |
| ResizableRing.ResizableReserveCommitQueue.constructor | include/Support/ResizableReserveCommitQueue.h:369-388 | the new queue is empty, sound, and at least as large as asked for |
| ResizableRing.ResizableReserveCommitQueue.MoveCells | include/Support/ResizableReserveCommitQueue.h:247-275 | a block copy within the buffer is right for overlapping blocks in either direction |
| ResizableRing.ResizableReserveCommitQueue.CompactQueue | include/Support/ResizableReserveCommitQueue.h:222-284 | in place, performs exactly the compaction step of the machine for the size it was granted, leaving NumElm to its caller, and nothing without the pop lock |
| ResizableRing.ResizableReserveCommitQueue.GrowQueue | include/Support/ResizableReserveCommitQueue.h:287-307 | in place, resizes when unwrapped, compacts when wrapped with no push outstanding and the dice agreeing, and otherwise leaves everything; up to the store to NumElm after a compaction |
| ResizableRing.ResizableReserveCommitQueue.StoreSize | include/Support/ResizableReserveCommitQueue.h:307-314 | that store, as the machine's step, with pops in between allowed |
| ResizableRing.ResizableReserveCommitQueue.ShrinkQueueIfNeeded | include/Support/ResizableReserveCommitQueue.h:318-365 | in place, shrinks exactly when the conditions of the source hold, and keeps the queue sound; with an exact page count it ends less than a page above what it asks for, and smaller than it was unless that is below the minimum |
| Accessor.FlatAt | include/Support/ReserveCommitQueueAccessor.h:51-57 | getElementAt addresses element i of the two pieces read as one sequence |
| Accessor.CellsDistinct | include/Support/ReserveCommitQueueAccessor.h:51-57 | different elements have different addresses |
| Accessor.ReserveCommitQueueAccessor.CopyFromMem | include/Support/ReserveCommitQueueAccessor.h:59-84 | exactly elements idx to idx + num of the flat view become the source's, whichever pieces they straddle, and nothing outside the window changes |
| Accessor.ReserveCommitQueueAccessor.CopyToMem | include/Support/ReserveCommitQueueAccessor.h:86-111 | the destination receives exactly those elements of the flat view |
| Accessor.ReserveCommitQueueAccessor.CopyOut | include/Support/ReserveCommitQueueAccessor.h:113-135 | the same at an offset of the destination |
| Accessor.ReserveCommitQueueAccessor.CopyQueue | include/Support/ReserveCommitQueueAccessor.h:137-162 | queue to queue, with pieces that need not line up: the destination's flat view receives the source's elements and nothing else changes |
| SuperScalableQueue.ApplyInv | include/Support/SuperScalableQueue.h:64-139 | every access of every pusher and popper keeps the queue's invariant despite missing links and a stale sentinel |
| SuperScalableQueue.RefinesFifo | include/Support/SuperScalableQueue.h:64-139 | push takes effect at its swap on Tail, pop takes the first element and returns exactly it, and a refusal is decided only while the queue is empty |
| SuperScalableQueue.MayStart | include/Support/SuperScalableQueue.h:64-90 | whoever is not inside a call may push any free node, or pop |
| SuperScalableQueue.RefusesExactly | include/Support/SuperScalableQueue.h:78-98 | a pop is on its way to a refusal after exactly one access, the test under the lock while the queue is empty, and refused at its first test exactly then too |
| SuperScalableQueue.ReturnsExactly | include/Support/SuperScalableQueue.h:99-139 | a pop is about to return a node only if it has just taken it from the front, or took the only one by its swap of Tail and has cleared the sentinel's link |
| SuperScalableQueue.StepExact | include/Support/SuperScalableQueue.h:64-139 | every access goes where the contents and the links of the queue say |
| SuperScalableQueue.StepAdvances | include/Support/SuperScalableQueue.h:64-139 | an access changes nothing while its thread waits, for the lock or for the link of the first or second node, and otherwise brings the call nearer to its end |
| SuperScalableQueue.NoDeadlock | include/Support/SuperScalableQueue.h:64-139 | while a call is in progress some thread can take a step that is not a wait |
| SuperScalableQueue.RunIsFifo | include/Support/SuperScalableQueue.h:64-139 | over every run what was there and what was pushed, in swap order, is what was popped and what is still there |
| SuperScalableQueue.FifoFromEmpty | include/Support/SuperScalableQueue.h:48-62 | from the empty queue, popped nodes are pushed nodes in push order, each exactly once |
| CuBoNodes.AnchorLink | include/Support/CuBoQueue.h:163-227 | following the link of the sentinel, or of the last node given away, leads to the first node left once that node is linked, and to nothing before |
| CuBoNodes.TailAtAnchor | include/Support/CuBoQueue.h:163-275 | Tail is at the sentinel, or at the last node given away, exactly when no node is left |
| CuBoNodes.OpInv | include/Support/CuBoQueue.h:344-353 | pushes, serving, and the final updates of Head and Tail keep the chain of links sound |
| CuBoRequests.SeesRightly | include/Support/CuBoQueue.h:360-372 | a waiting thread is told to combine only while its request is still in the chain, and told it is done only once it has an answer |
| CuBoRequests.ActInv | include/Support/CuBoQueue.h:121-145 | adding, answering, passing on and recycling requests keep every cluster's chain sound |
| CuBoQueue.ActionPossible | include/Support/CuBoQueue.h:147-290 | no access of any thread meets a null link or a request or node that is not there |
| CuBoQueue.StepInv | include/Support/CuBoQueue.h:121-373 | every access of every pusher, popper and combiner keeps the joint invariant |
| CuBoQueue.RefinesFifo | include/Support/CuBoQueue.h:196-290 | a swap on Tail appends, giving a node to a request takes the first one, and nothing else changes the contents, so what remains is the unserved suffix and the concurrent pushes |
| CuBoQueue.ServesInChainOrder | include/Support/CuBoQueue.h:196-242 | each node goes to the oldest unanswered request of the combiner's chain |
| CuBoQueue.RefusesOnlyWhenEmpty | include/Support/CuBoQueue.h:163-226 | whatever access it is, a round starts refusing only at a moment when the queue is empty, and at its two tests of Tail exactly then |
| CuBoQueue.AnswersGrow | include/Support/CuBoQueue.h:163-242 | an answer is recorded by the combiner alone, a refusal in the refusing walk and a node where it is served |
| CuBoQueue.RefusedWasEmpty | include/Support/CuBoQueue.h:163-226 | over every run a request is refused only in a round in an earlier state of which the queue was empty |
| CuBoQueue.ReturnsItsAnswer | include/Support/CuBoQueue.h:366-372 | a thread returns the one answer recorded for its position in the chain, and no other thread holds that request |
| CuBoQueue.ReturnHandsOver | include/Support/CuBoQueue.h:366-372 | returning, a thread hands over the node its request was given, if any, and keeps the request as its spare one |
| CuBoQueue.OneCombiner | include/Support/CuBoQueue.h:141-145 | which requests of a chain are marked Combine at any moment, the one between telling the next combiner and marking the last request done included; each cluster has exactly one designated combiner and nobody else combines |
| CuBoQueue.RunIsFifo | include/Support/CuBoQueue.h:121-373 | over every run the nodes given to requests are the pushed nodes in the order of the swaps, each exactly once |
| CuBoQueue.FifoFromEmpty | include/Support/CuBoQueue.h:297-321 | the same from the empty queue |
| CuBoProgress.StepExact | include/Support/CuBoQueue.h:147-290 | where the combiner goes next is decided by the contents of the queue and by who waits: a node is served as long as one is linked, a refusal starts exactly while the queue is empty, and a round answers whoever waits in its chain before it closes |
| CuBoProgress.StepAdvances | include/Support/CuBoQueue.h:121-373 | an access leaves everything as it is exactly while its thread waits: for its mark, for the head lock, or as the combiner for the link of the first node left |
| CuBoProgress.MayStart | include/Support/CuBoQueue.h:344-360 | whoever is not inside a call may push any free node, or pop |
| CuBoProgress.NoDeadlock | include/Support/CuBoQueue.h:121-373 | while a call is in progress some thread can make an access that is not a wait |
| CLHLock.SpinExact | include/Support/CLHLock.h:61-69 | a spinning thread is let in exactly when it is first in line |
| CLHLock.StepInv | include/Support/CLHLock.h:61-76 | every access keeps the line, the node partition and the order of entry |
| CLHLock.ClhSafety | include/Support/NUMACLHLock.h:69-96 | in every state of every schedule: one holder, entry in swap order, and every node but the tail owned by exactly one thread although unlock takes over another thread's node |
| CLHLock.StepAdvances | include/Support/CLHLock.h:61-76 | an access changes nothing while its thread is in line but not first, lets it in once it is, and otherwise brings it nearer to the end of its unlock |
| CLHLock.NoDeadlock | include/Support/CLHLock.h:61-76 | while a thread is between lock and unlock some such thread does not wait |
| MCSLock.SuccessorIsNext | include/Support/MCSLock.h:53-60 | the thread being let in is exactly the next in line |
| MCSLock.StepInv | include/Support/MCSLock.h:39-60 | every access keeps the lock's invariant |
| MCSLock.McsSafety | include/Support/MCSLock.h:39-60 | in every state of every schedule: one thread inside, entry in swap order, and no access to the node of a thread that is not queued |
| MCSLock.StepExact | include/Support/MCSLock.h:39-60 | every access goes where the line says |
| MCSLock.StepAdvances | include/Support/MCSLock.h:39-60 | an access changes nothing while its thread waits to be first or for its successor's link, and otherwise brings it nearer to the end of its unlock |
| MCSLock.NoDeadlock | include/Support/MCSLock.h:39-60 | while a thread is between lock and unlock some such thread does not wait |
| QuickSort.Med3IsMedian | benchmark/MergeSort/MergeSort.cpp:65-85 | the pivot is one of the three, with at least two not above and two not below it |
| QuickSort.SeqPart | benchmark/MergeSort/MergeSort.cpp:93-121 | the unguarded scans stay in the range, the range is permuted into a part not above and a part not below the pivot, both nonempty, and the last branch of the source is never taken |
| QuickSort.InsertionSort | benchmark/MergeSort/MergeSort.cpp:123-132 | the range becomes its sorted permutation and nothing else changes |
| QuickSort.SeqQuick | benchmark/MergeSort/MergeSort.cpp:134-142 | terminates and leaves the range sorted and permuted, nothing else changed |
| QuickSort.SequentialSort | benchmark/MergeSort/MergeSort.cpp:144-180 | one run is delivered as its sorted permutation |
| MergeCombine.BinSplit | benchmark/MergeSort/MergeSort.cpp:184-207 | returns the greatest index whose element is below val (low or low - 1 if there is none), which splits the range into elements at most val and elements at least val |
| MergeCombine.BinSplitExact | benchmark/MergeSort/MergeSort.cpp:191-206 | that index is the one the comment names if and only if val does not occur in the range or no element is less |
| MergeCombine.BinSplitMisses | benchmark/MergeSort/MergeSort.cpp:191-206 | on 1, 2 split at 2 it returns index 0 although the comment names 1 |
| MergeCombine.ChoosePiece | benchmark/MergeSort/MergeSort.cpp:288-311 | terminates with the first end, in steps of half a block, at which the second chunk contributes, and there with what binsplit cuts off, so that nothing in the piece exceeds what is left of the other chunk; with everything once the first chunk ends |
| MergeCombine.Combine | benchmark/MergeSort/MergeSort.cpp:209-388 | at most MaxMergeCmd nonempty commands, sizes summing to the data, which cut the two chunks into exactly such pieces, and executing them on the copied pieces yields the merge of the two chunks |
| MergeCombine.Merge | benchmark/MergeSort/MergeSort.cpp:406-529 | one command's output is the merge of its two chunks |
| MergeSortRun.NumSortCmd | benchmark/MergeSort/MergeSort.cpp:583-587 | the number of runs is the greatest that is one or even and not more than there are whole runs |
| MergeSortRun.SortSizes | benchmark/MergeSort/MergeSort.cpp:588-599 | the run sizes are positive and sum to N |
| MergeSortRun.CombineCommands | benchmark/MergeSort/MergeSort.cpp:605-625 | the circular array generates exactly the plan of combining the two oldest chunks, stops after exactly max(1, runs - 1) commands, and only the last one covers everything |
| MergeSortRun.PlanAllFindsChunks | benchmark/MergeSort/MergeSort.cpp:605-625 | executed in order, every generated command, that of a single run included, finds its chunk or chunks at the front of the queue it names, and the last one covers everything and leaves nothing behind |
| MergeSortRun.NamedQueueHolds | benchmark/MergeSort/MergeSort.cpp:233-243 | every combine command finds its two chunks, adjacent and in order, at the front of the queue it names |
| MergeSortRun.RunCommand | benchmark/MergeSort/MergeSort.cpp:225-543 | one combine command with its merges replaces the two oldest chunks by their merge in queue 2, or delivers the sorted input if it is the last |
| MergeSortRun.MergeSort | benchmark/MergeSort/MergeSort.cpp:144-625 | for every input, run size and split size the sink receives the sorted permutation of the input |
| Fft.ReorderIsBitReversal | benchmark/FFT-fusion/FFT-fusion.cpp:144-157 | the reorder levels N, N/2, ..., 4 are the bit reversal permutation |
| Fft.ReorderTwice | benchmark/FFT-fusion/FFT-fusion.cpp:144-157 | applying them twice restores the input |
| Fft.HalfTurn | benchmark/FFT-fusion/FFT-fusion.cpp:46-49 | roots with w_2 = -1 and w_n^2 = w_(n/2) have w_n^(n/2) = -1 |
| Fft.FftHalves | benchmark/FFT2/FFT2.cpp:83-105 | the pipeline of N points is the pipelines of the even and the odd points, combined |
| Fft.FftIsDft | benchmark/FFT2/FFT2.cpp:63-146 | for every power of two the chained one-level kernels compute the discrete Fourier transform sum |
| FftKernels.InitializeDFTParams | benchmark/FFT-fusion/FFT-fusion.cpp:46-60 | the recurrence fills the table with the powers of the root |
| FftKernels.FFTReorderSimple | benchmark/FFT-fusion/FFT-fusion.cpp:144-157 | a block becomes its even points followed by its odd points, nothing else changes |
| FftKernels.CombineDFT | benchmark/FFT-fusion/FFT-fusion.cpp:63-83 | a block becomes the weighted sums and differences of its halves, nothing else changes |
| FftKernels.ReorderPass | benchmark/FFT2/FFT2.cpp:118-146 | one reorder level over a whole stream, block by block |
| FftKernels.CombinePass | benchmark/FFT2/FFT2.cpp:63-112 | one combine level over a whole stream, block by block |
| FftKernels.FFTReorderSimpleFusion | benchmark/FFT-fusion/FFT-fusion.cpp:159-209 | the fused kernel with its buffer swapping equals the chain of one-level reorder kernels |
| FftKernels.CombineDFTFusion | benchmark/FFT-fusion/FFT-fusion.cpp:85-139 | the fused kernel with its buffer swapping equals the chain of one-level combine kernels |
| FftKernels.FftFusion | benchmark/FFT-fusion/FFT-fusion.cpp:288-302 | the two fused kernels in a row compute the discrete Fourier transform of their block |

## Left out

- Weak memory, fences, cache lines, prefetching and NUMA placement: atomic accesses are sequentially consistent.
- Fairness: that a thread which can go on eventually does is not assumed, so deadlocks are excluded but not starvation.
- RingQueue.RingSafety: says nothing of a run after a swap has overrun the ring; a reservation moves at least one cell.
- OrderedKernel.OrderPreserved: says nothing of a run after a ring was overrun; each job pushes one window or only consumes its ticket.
- RingQueue.CommitPushOnlyOldest: the ready flags and the list of waiting committers are not modelled, because the swap alone decides; a thread may try to commit at any time.
- BlockingRing.ReserveCommitQueue.ReservePushN: the method is what one caller does before the lock and as its holder; the accesses of the lock itself are in TwoPhaseLock and EarlyCancel, and LockedRing joins them with the ring, without the refusals before the lock, which touch nothing.
- LockedRing.RunSound: a reservation is one step, which OneReserves justifies; nothing is said of a run after an early commit; tickets are in OrderedKernel.
- ResizableQueue.StepInv: one step each are a compaction, from taking the pop lock to giving it back, a resize in place, a push's reads, because NumElm and ReservedTail do not move under the push lock, and a pop's reads of ReservedHead and Tail, because ReservedHead does not move under the pop lock; commits are in reservation order, as TwoPhaseLock proves; the minimum size is at least two; a pop's test before the lock, which can only refuse, and a pop's wait for the push lock when it shrinks are left out.
- ResizableQueue.CalcGrownEnough: growth and shrink ratios are exact reals and not negative, so the rounding of the source's float products is not modelled.
- ResizableQueue.RunIsFifo: says nothing of a run after one of the two breaking steps; tickets are not part of this queue's machine, they are in OrderedKernel.
- BufferManager.ResizableBufferManager.Resize: the floating-point page count is a parameter; the mapping and unmapping of pages is not modelled beyond keeping cells below the new size.
- A second window piece with a null base is the empty window at index 0.
- Indices and counts are unbounded; 32-bit overflow of tickets and counters is not modelled.
- SuperScalableQueue.ApplyInv: the pop lock is taken as atomic; MCSLock proves that lock.
- CuBoQueue.StepInv: the head lock is taken as atomic; CLHLock proves that lock. The build without pop combining and the statistics are left out. A refusal does not imply that the queue was empty during that caller's own call.
- Element types and sizes: cells hold values of one type, so byte arithmetic on addresses does not appear.
- MergeSortRun.MergeSort: the pipeline executes its commands in order; that parallel kernels preserve this order is OrderedKernel.OrderPreserved. Random data generation is left out.
- MergeCombine.Combine: the debug identifiers of the commands are left out, and the windows of its queues are sequences.
- Fft.FftIsDft: arithmetic is exact, so rounding is not modelled, and the roots are any numbers with the two defining properties.
- FftKernels.FftFusion: N is at least 4, the smallest size with a reorder level.
- PerCPUOrderingTicketIssuer, which the source marks as not to be used.
- MSQueue and LSQueue, whose memory reclamation rests on assumptions outside the code.
- The schedulers, MapReduce, the other benchmarks, drain, peekPop, fill ratios, statistics and tracing.
