# A verified model of the kernel

The project models four parts of the kernel in `phase3/` and proves what they promise. MAXPROC, UPROCMAX,
SWAP_POOL_SIZE and the other sizes are arbitrary parameters throughout.

**The nucleus** (`pcb.c`, `asl.c`, `exceptions.c`, `interrupts.c`, `scheduler.c`, boot in `initial.c`). `NucleusState`
is a state machine with one atomic step per system call or interrupt, ending where the C code ends in LDST, WAIT, HALT
or PANIC. `PcbTable`, `SemaphoreList` and `KernelCode` are the C code over its linked structures: a pointer into a
static table is an index, NULL is `NIL`, and the structures are arrays of records updated in place. Every handler is
proved to do exactly what the state machine does, recursive termination among them; the state machine is proved to
keep every pcb in one place, the tree a forest and the counters lawful. `NucleusEvents` says what each event does to
everything that can be seen of a state, and keeps the account of every device's semaphore over whole runs.
`NucleusDeadlock` studies the scheduler's deadlock test, `JoinBarrier` and `JoinRuns` run `test` and the signals of
`supTerminate` on top of the nucleus, and `MutualExclusion` the locks that `vmSupport.c` and `delayDaemon.c` make of a
semaphore.

**The demand pager** (`vmSupport.c`, the refill handler, `initPageTable`, the frame loop of `supTerminate`).
`PagerState` splits the pager into phases (lock, scan slot by slot, pick the victim and load its owner, load its page,
evict, write back, load, the three stores that record the new owner, install, unlock) and the end of a process into
the tests of its frame loop and the three stores of `freeFrame`; all of these interleave with the accesses, faults and
ends of all other processes. `PagerRuns.Transparent` is the main result: every process sees plain memory, in every run
in which no process wipes a slot that is not its own any more and no pick reads a wiped slot. `PagerRace` says which
events make the difference, `PagerScenarios` has runs from boot that go wrong, and `PagerCapacity` says for which
pools and how many processes there are such runs. `PagerCode` is the C code over its arrays and words.

**The delay facility** (`delayDaemon.c`). `DelayList` is the sorted list with its dummy and its descriptor pool;
`DelayProtocol` is the protocol between sleepers and daemon, with the gap between the sleeper's release of the lock
and its P; `DelayRuns` tells whole runs of it by their events.

**The DMA disk** (`deviceSupportDMA.c`). `DiskAddress` is the arithmetic, with C's truncating division, and
`DiskWords` ties its numbers to the shifts, masks and ors of the C code. `DiskDevice` is a disk that sees nothing but
command words, with an arm, sectors and a DMA buffer; what a code in the operation byte means to it is a parameter.
`DiskService` is the two routines over DMA buffers and disks.

Facts about the code that the statements are built around:

- **The pager can read a wiped slot.** supTerminate frees frames without taking the swap pool lock. If the process
  that owns slot `swapIndex` ends after getFreeFrame has found that slot occupied and before the pager has loaded its
  two words, the pager gets asid -1 or vpn -1 and indexes `asidProcessTable` or a page table with it
  (phase3/vmSupport.c:139-160, phase3/sysSupport.c:138-144). `PickExact` says exactly which stores do it, `LostByWipe`
  says so for whole runs from boot, and `LostPossible` that there are such runs exactly with at least two processes
  and a pool that cannot hold all their pages, the code's 16 frames among them.
- **An ending process can wipe a slot under its new owner.** It may be preempted between its test of a slot and the
  stores of freeFrame, while the pager gives that slot to another process (phase3/sysSupport.c:140-142,
  phase3/vmSupport.c:188-190). The invariants break exactly at such a store (`StepInvExact`), it can happen exactly
  with at least two processes, whatever the pool (`HarmPossible`), and in the run of `WrongReadFromBoot` a process
  then reads from one page what it has written to another. If supTerminate held the swap pool lock for its loop,
  neither could happen (`LockedTransparent`).
- `softBlockCount` is not the number of processes waiting for a device or the clock, but drifts upward. `StepSlack`
  gives the drift of every event exactly: a tick adds the waiters it wakes, a termination the clock waiters it ends, a
  SYS5 or SYS7 that need not wait adds one, and so does a SYS4 that wakes somebody from one of these semaphores; a
  SYS3 that waits on one takes one off. PANIC is therefore raised only in a real deadlock (`PanicSound`), and in a
  deadlock exactly when no event since boot has drifted (`DeadlockPanics`). `HiddenDeadlock` is a run from boot that
  ends in a deadlock the scheduler takes for waiting, and `StuckForever` says that nothing ends it.
- `processCount` counts neither the delay daemon nor the template pcbs of `initUProcs`, but `sysTerminate` lowers it
  for every pcb it frees. The ghost set `counted` holds the processes it was raised for; `TerminateCountExact` says
  exactly when termination leaves the count right.
- `outBlocked` leaves the semaphore field of the pcb set, so that field means something only in a pcb that is not
  free.
- A waiter terminated on a device semaphore leaves its deficit behind; the next interrupt of that device absorbs it.
  The semaphore law counts these in `orphans`.
- Every terminal interrupt that is acknowledged signals the odd semaphore of its terminal, whichever sub-device caused
  it; `InterruptAnswersWait` says which waits an interrupt can answer.
- A device interrupt that leaves the semaphore positive does not call the scheduler. With no process running, LDST
  then resumes the scheduler after its WAIT, and it goes on to load the state of the NULL current process
  (phase3/scheduler.c:40-52). The model calls this Astray; `AstrayExactly` says when it happens: exactly when a device
  interrupts that nobody waits for and that owes no terminated waiter. `AstrayFromBoot` gets there from boot.
- Page 1 of each process starts valid with frame number 0 and has no swap pool entry. It is never paged, and the
  paging theorems exempt it.
- The refill handler's range check lets one vpn too many through: the page after the last valid one gets the stack
  page's index (`RangeCheck`).
- A delay whose wake time does not fit in an int is stored as an earlier time, and the sleeper wakes too soon, exactly
  then (`WakeTimeExact`, `LongDelayWraps`, `NeverEarlyInRun`).
- The disk bounds check accepts every negative block number (`BoundsCheckExact`).
- **The disk routines cannot read back what they wrote.** Every successful read returns the last successful write of
  its block exactly if the device takes the three codes for a seek, a read and a write (`RightExactly`). `SEEKCYL` and
  `READBLK` are both 2 (h/const.h:164-165), so no device does (`SourceNeverRight`). If 2 is a seek, a successful read
  returns whatever the last dmaWriteDisk copied into the DMA buffer, of any block, even one that failed
  (`SourceReadsBuffer`): after a put to block 3 and a put to block 23, the get of block 3 in testers/diskIOtest.c gets
  the second buffer (`SecondComesBack`). If 2 is a read, the arm never moves and a read is right exactly if it already
  stands on the block's cylinder (`ReadingRead`, `ArmStays`).
- A failed transfer whose status is -1 looks like a success: its negated status is 1, which is READY. No other failure
  does (`ResultExact`).
- `sysSupport.c` dispatches system call 14 to the disk read and 15 to the write, the other way round from the comments
  of `deviceSupportDMA.c`; the model names the routines, not the numbers.

## Model

| member | source | states |
|---|---|---|
| PcbTable.PcbStore.constructor | phase3/pcb.c:74-83 | initPcbs chains the whole table into the free list, first entry first |
| PcbTable.PcbStore.FreePcb | phase3/pcb.c:23-30 | the pcb becomes the head of the free list; nothing else changes |
| PcbTable.PcbStore.AllocPcb | phase3/pcb.c:36-68 | the head of the free list comes off, cleared; NULL when the list is empty |
| PcbTable.PcbStore.InsertProcQ | phase3/pcb.c:105-127 | a circular doubly linked queue that represented q represents q + [p], and only links of its members changed |
| PcbTable.PcbStore.RemoveProcQ | phase3/pcb.c:133-141 | the queue loses exactly its head |
| PcbTable.PcbStore.OutProcQ | phase3/pcb.c:147-185 | any member leaves with the order of the rest kept and its own links cleared; for a non-member, NULL after one cycle and no change |
| PcbTable.PcbStore.HeadProcQ | phase3/pcb.c:190-195 | the head without a change |
| PcbTable.PcbStore.EmptyChild | phase3/pcb.c:201-207 | true exactly when the child list of p is empty |
| PcbTable.PcbStore.InsertChild | phase3/pcb.c:212-231 | parent, first-child and two-way sibling links then describe the forest with the new process as first child |
| PcbTable.PcbStore.RemoveChild | phase3/pcb.c:238-244 | the first child is detached; NULL without children |
| PcbTable.PcbStore.OutChild | phase3/pcb.c:251-279 | a child leaves its parent's list from any position, the order of its siblings kept; NULL without a parent |
| ProcessTree.Acyclic | phase3/pcb.c:212-279 | no process is its own proper ancestor |
| ProcessTree.AncestorsLinear | phase3/pcb.c:212-279 | two ancestors of a process are on one line |
| ProcessTree.AdoptForest | phase3/pcb.c:212-231 | a child prepended under another process leaves a finite forest with consistent links |
| ProcessTree.DetachForest | phase3/pcb.c:251-279 | a forest from which a child is detached is a forest |
| ProcessTree.PostExact | phase3/exceptions.c:185-194 | the order in which recursion reaches processes lists exactly the descendants of p, each once |
| ProcessTree.PruneEdge | phase3/exceptions.c:185-224 | a parent-child edge survives termination of p exactly when it does not lead into p's subtree |
| ProcessTree.PruneForest | phase3/exceptions.c:185-224 | what is left of the tree is a forest |
| SemaphoreList.Asl.constructor | phase3/asl.c:38-60 | two sentinels, every other descriptor free, and the map of queues is empty |
| SemaphoreList.Asl.FindSemd | phase3/asl.c:66-82 | finds the descriptor exactly when the address has a queue |
| SemaphoreList.Asl.AddSemd | phase3/asl.c:100-119 | a free descriptor joins the list at the place that keeps it strictly sorted |
| SemaphoreList.Asl.DropSemd | phase3/asl.c:152-168 | a descriptor with an empty queue returns to the free list |
| SemaphoreList.Asl.InsertBlocked | phase3/asl.c:91-128 | appends to the queue of the address; fails exactly for NULL or when a new descriptor is needed and all are active |
| SemaphoreList.Asl.RemoveBlocked | phase3/asl.c:136-171 | pops the front of the queue, drops an empty queue from the map, and clears the semaphore field |
| SemaphoreList.Asl.OutBlocked | phase3/asl.c:180-214 | deletes the process from the queue it waits in, wherever it stands, and leaves its semaphore field |
| SemaphoreList.Asl.HeadBlocked | phase3/asl.c:222-230 | the front of the queue, or NULL |
| KernelCode.Kernel.constructor | phase3/initial.c:42-92 | boot up to the first scheduler call gives the boot state: test ready and counted, the daemon ready, templates unqueued, the rest free |
| KernelCode.Kernel.CreateProcess | phase3/initial.c:102-129 | pcb 0 is ready and counted |
| KernelCode.Kernel.LaunchDaemon | phase3/delayDaemon.c:168-183 | pcb 1 is ready, without parent and not counted |
| KernelCode.Kernel.InitUProcs | phase3/initProc.c:89-141 | one template pcb per user process, in no queue |
| KernelCode.Kernel.Scheduler | phase3/scheduler.c:24-52 | the linked structures follow the Schedule step: dispatch the head, halt, wait or panic |
| KernelCode.Kernel.SysCreateProcess | phase3/exceptions.c:150-176 | follows the Create step, with result -1 exactly when no pcb is free |
| KernelCode.Kernel.SysTerminate | phase3/exceptions.c:185-246 | the recursion over the linked structures ends, and has exactly the effect of removing p's whole subtree; it halts exactly when the state machine does |
| KernelCode.Kernel.Bury | phase3/exceptions.c:196-245 | the part after the loop, for a process without children |
| KernelCode.Kernel.LeaveSemaphore | phase3/exceptions.c:196-214 | the process leaves its semaphore; only an ordinary one or the pseudo-clock gets the unit back, only a device's lowers softBlockCount |
| KernelCode.Kernel.TerminateCurrent | phase3/exceptions.c:107-110 | SYS2 follows the Terminate step |
| KernelCode.Kernel.SysPasseren | phase3/exceptions.c:254-276 | follows the Passeren step; its unchecked insertBlocked succeeds |
| KernelCode.Kernel.SysVerhogen | phase3/exceptions.c:284-302 | follows the Verhogen step |
| KernelCode.Kernel.SysWaitIO | phase3/exceptions.c:309-335 | follows the step for the device's semaphore |
| KernelCode.Kernel.SysWaitClock | phase3/exceptions.c:354-364 | follows the step for the pseudo-clock |
| KernelCode.Kernel.HandlePLTInterrupt | phase3/interrupts.c:68-88 | the running process goes to the end of the ready queue and the next is dispatched |
| KernelCode.Kernel.HandleIntervalTimerInterrupt | phase3/interrupts.c:94-123 | the loop drains the clock queue as the Tick step does |
| KernelCode.Kernel.HandleDeviceInterrupt | phase3/interrupts.c:161-210 | follows the DeviceInterrupt step, softBlockCount and the case of no running process included |
| TerminateSteps.DuringStep | phase3/exceptions.c:190-194 | terminating the next child takes the state after n children to the state after n + 1, or halts when p's termination halts |
| TerminateSteps.DuringEnd | phase3/exceptions.c:196-245 | with all children gone, removing p alone completes the effect of the whole |
| NucleusPlaces.StepCore | phase3/exceptions.c:86-141 | every system call and interrupt keeps each pcb in one place and the tree a forest |
| NucleusPlaces.DrainAll | phase3/interrupts.c:99-107 | all waiters move to the ready queue in blocking order; other queues stay |
| NucleusRuns.BootSound | phase3/initial.c:42-92 | all invariants hold after boot |
| NucleusRuns.OnePlace | phase3/exceptions.c:150-302 | each pcb is in exactly one of free list, ready queue, one semaphore queue, running, templates |
| NucleusRuns.BlockedPidsExact | phase3/asl.c:91-214 | a live pcb's semaphore field is set exactly when it is in that semaphore's queue, and in no other |
| NucleusRuns.Conservation | phase3/pcb.c:23-83 | the sizes of the five places add up to MAXPROC |
| NucleusRuns.RunKeepsLaws | phase3/exceptions.c:86-141 | places, forest and semaphore law hold in every state of every run |
| NucleusRuns.RunSound | phase3/exceptions.c:86-141 | so do the counter laws, in runs where SYS3 names ordinary semaphores and only counted processes end |
| NucleusRuns.DescriptorsSuffice | phase3/exceptions.c:263-275 | when a process runs, fewer descriptors are active than there are, so its P always finds one |
| NucleusLaws.StepSemLaw | phase3/exceptions.c:197-302 | max(0, -value) stays the number of waiters, plus for a device the terminated waiters not yet absorbed |
| NucleusLaws.StepSlack | phase3/exceptions.c:185-364 | the exact amount by which every event moves softBlockCount away from the number of processes waiting for a device or the clock |
| NucleusLaws.DriftsUp | phase3/exceptions.c:254-364 | that amount is negative exactly for a SYS3 that waits on such a semaphore without SYS5 or SYS7 |
| NucleusLaws.TickSlack | phase3/interrupts.c:94-110 | a tick raises the overcount by exactly the number of waiters it wakes |
| NucleusLaws.DeviceSlack | phase3/interrupts.c:178-197 | a device interrupt leaves the overcount as it was |
| NucleusLaws.TerminatedCount | phase3/exceptions.c:235-245 | terminating a counted process halts exactly when no counted process survives; otherwise processCount drops by the size of the subtree |
| NucleusLaws.StepCount | phase3/exceptions.c:150-246 | processCount stays the number of counted processes, and HALT comes only from the termination that ends the last of them |
| NucleusTerminate.SubtreePost | phase3/exceptions.c:185-194 | the processes reached are exactly p and those below it by parent links |
| NucleusTerminate.TerminateFrees | phase3/exceptions.c:185-246 | exactly the subtree joins the free list; processCount drops by its size, softBlockCount by its device waiters |
| NucleusTerminate.TerminateQueues | phase3/exceptions.c:196-217 | every queue keeps its survivors in order; semaphore values change by the waiters removed, device semaphores not at all |
| NucleusTerminate.TerminateTree | phase3/exceptions.c:219-224 | the dead have no relatives, p's parent loses p and no other child, all other child lists stay |
| NucleusTerminate.TerminateLeavesNone | phase3/exceptions.c:185-246 | none of the subtree is left in any queue or running |
| NucleusTerminate.TerminateCountExact | phase3/exceptions.c:235-239 | a right processCount stays right exactly when everything in the subtree was counted |
| NucleusRuns.PanicSound | phase3/scheduler.c:30-46 | PANIC only with an empty ready queue, counted processes alive and nobody waiting for a device or the clock |
| NucleusRuns.SlackEndsPanic | phase3/scheduler.c:36-45 | once softBlockCount is above the number of soft-blocked processes, no later state panics |
| NucleusRuns.PanicExact | phase3/scheduler.c:30-46 | with nothing to run, PANIC exactly if nobody waits for a device or the clock and softBlockCount is right |
| NucleusRuns.RunSlack | phase3/exceptions.c:86-141 | over a run the overcount grows by the sum of the drifts, which is zero exactly if no event drifts |
| NucleusRuns.DeadlockPanics | phase3/scheduler.c:30-46 | from boot, a deadlock panics exactly if no event so far has drifted |
| NucleusDeadlock.HiddenDeadlock | phase3/scheduler.c:36-41 | a run from boot that ends with everybody waiting for each other and no PANIC |
| NucleusDeadlock.StuckForever | phase3/scheduler.c:36-41 | no continuation of that run wakes anybody, halts or panics |
| NucleusRuns.StepMovesUp | phase3/scheduler.c:24-27 | a ready process is never overtaken, and each scheduler call moves it up by one |
| NucleusRuns.BoundedWait | phase3/scheduler.c:24-27 | at position i, i + 1 scheduler calls dispatch it, unless it was terminated |
| NucleusRuns.TickWakesAll | phase3/interrupts.c:94-123 | after a tick nobody waits for the clock, its semaphore is 0 and the waiters are at the back of the ready queue in order |
| NucleusRuns.WaitIndexInjective | phase3/exceptions.c:313-323 | different devices wait on different semaphores |
| NucleusRuns.WaitIndexInOrder | phase3/exceptions.c:313-323 | the semaphores stand in the order of lines, devices and sub-devices |
| NucleusRuns.DeviceWords | phase3/exceptions.c:196-214 | the 48 device semaphores are consecutive words with the pseudo-clock's after them, and the address comparison picks out the first 48 |
| NucleusRuns.InterruptAnswersWait | phase3/interrupts.c:161-176 | an interrupt signals the semaphore a wait used exactly when it is the same device and, for a terminal, the odd sub-device |
| NucleusRuns.AstrayExactly | phase3/interrupts.c:179-210 | the machine loads the state of a NULL process exactly if, with nobody running, a device interrupts that nobody waits for and that owes no terminated waiter |
| NucleusDeadlock.AstrayFromBoot | phase3/scheduler.c:36-52 | for every device, a run from boot that ends there: everybody waits, and that device interrupts |
| NucleusEvents.StartEffect | phase3/initial.c:42-92 | after the first dispatch test runs, the daemon is ready, nobody waits or has relatives, and every other pcb is a template or free |
| NucleusEvents.CreateEffect | phase3/exceptions.c:150-176 | SYS1 makes the new process its creator's first child and the last in the ready queue, and returns to the creator |
| NucleusEvents.CreateFails | phase3/exceptions.c:150-176 | without a free pcb SYS1 changes nothing |
| NucleusEvents.TakeEffect | phase3/exceptions.c:254-364 | SYS3, SYS5 and SYS7 take one unit; exactly if that leaves less than none the caller joins the end of the queue and the next process is dispatched |
| NucleusEvents.SignalEffect | phase3/exceptions.c:284-302 | SYS4 gives one unit; if the value is still not positive the first waiter leaves the queue and becomes ready |
| NucleusEvents.InterruptEffect | phase3/interrupts.c:179-210 | a device interrupt gives one unit, also when nobody waits; if the value is still not positive the first waiter becomes ready; a running process runs on |
| NucleusEvents.TickEffect | phase3/interrupts.c:94-123 | a tick makes every clock waiter ready in order, zeroes that semaphore and touches no other |
| NucleusEvents.SliceEffect | phase3/interrupts.c:68-88 | the running process goes to the end of the ready queue and the head runs |
| NucleusEvents.EndHaltsExactly | phase3/exceptions.c:185-246 | SYS2 halts the machine exactly if processCount is at most the size of the caller's subtree |
| NucleusEvents.EndEffect | phase3/exceptions.c:107-246 | otherwise SYS2 frees exactly the caller's subtree and counts it off, every queue keeps its survivors, and the first ready survivor is dispatched |
| NucleusEvents.EndFamily | phase3/exceptions.c:185-224 | the tree loses exactly the subtree |
| NucleusEvents.KeepOrder | phase3/exceptions.c:196-224 | the survivors of a queue keep their order |
| NucleusEvents.DeviceAccount | phase3/interrupts.c:179-179 | over every run the value of a device's semaphore moves by exactly what the events give and take, terminations included |
| NucleusEvents.BlocksExactly | phase3/exceptions.c:309-335 | after any run a SYS5 blocks exactly if the device's waits exceed what its semaphore started with and its interrupts |
| JoinBarrier.NextJoining | phase3/initProc.c:205-226 | the master semaphore counts signals against waits, only test waits on it, and no other process can end test or halt the machine |
| JoinBarrier.WaitsExactly | phase3/initProc.c:220-223 | test is kept waiting exactly when it has waited once more often than it was signalled |
| JoinBarrier.AllSignalled | phase3/initProc.c:220-225 | past its last wait, every user process has signalled |
| JoinBarrier.EndHalts | phase3/initProc.c:225-225 | test's SYS2 halts the machine |
| JoinBarrier.Barrier | phase3/initProc.c:205-226 | both, over every run from boot |
| JoinRuns.CreateAct | phase3/initProc.c:210-218 | each process test creates stands for the next address space; without a free pcb test panics |
| JoinRuns.BarrierOpens | phase3/initProc.c:205-226 | with pcbs enough, some run from boot gets test past its last wait and halts the machine |
| MutualExclusion.AtMostOne | phase3/vmSupport.c:121-121 | at most one process is between its SYS3 and its SYS4 on a lock, and nobody waits for an open one |
| MutualExclusion.MoveGuarded | phase3/exceptions.c:254-302 | every nucleus event keeps the lock's account, the end of a process that waits for it included |
| MutualExclusion.Exclusion | phase3/delayDaemon.c:48-77 | mutual exclusion over every run from boot, for a semaphore that starts at 1 |
| PagerState.PageVpn | phase3/initProc.c:49-64 | page indices and valid vpns correspond one to one |
| PagerState.PageAddresses | phase3/initProc.c:49-64 | a process's pages are 31 from 0x80000000 on and the one at 0xBFFFF000 |
| PagerState.PageOrder | phase3/initProc.c:49-64 | page indices run in the order of the addresses |
| PagerState.RangeCheck | phase3/exceptions.c:472-487 | the range check admits the valid vpns and one more |
| PagerState.VictimsRotate | phase3/vmSupport.c:70-75 | any n picks in a row take each of the n frames exactly once |
| PagerSteps.ScanKeeps | phase3/vmSupport.c:55-61 | a round of the scan keeps all invariants and what every process sees |
| PagerSteps.PickKeeps | phase3/vmSupport.c:142-143 | so does the pick with the load of the owner, even from a wiped slot |
| PagerSteps.PickReads | phase3/vmSupport.c:143-155 | the two words loaded name a process and a page exactly if neither had been wiped |
| PagerSteps.ReadVpnKeeps | phase3/vmSupport.c:144-155 | the load of the page keeps all invariants and what every process sees, even when it is lost |
| PagerSteps.EvictKeeps | phase3/vmSupport.c:157-178 | invalidating the victim keeps all invariants and what every process sees |
| PagerSteps.FinishWriteKeeps | phase3/vmSupport.c:254-281 | so does the write to flash |
| PagerSteps.FinishLoadKeeps | phase3/vmSupport.c:217-244 | so does the read from flash, because nobody maps the frame |
| PagerSteps.InstallKeeps | phase3/vmSupport.c:192-200 | so does mapping the page |
| PagerSteps.RecordKeeps | phase3/vmSupport.c:188-190 | so does each of the stores that record the new owner |
| PagerSteps.CheckKeeps | phase3/sysSupport.c:138-141 | so does the test in an ending process's frame loop |
| PagerSteps.ClearKeeps | phase3/vmSupport.c:82-87 | so does each store of freeFrame, at any moment of somebody else's paging, unless it hits a slot that is another's by now |
| PagerSteps.TrampleBreaks | phase3/vmSupport.c:82-87 | a store that does breaks the invariants at once |
| PagerSteps.ReadSees | phase3/exceptions.c:461-498 | a read through the TLB returns what is in the page |
| PagerSteps.WriteKeeps | phase3/exceptions.c:461-498 | a write through the TLB changes one word of one page and nothing else anybody sees |
| PagerRuns.StepInv | phase3/vmSupport.c:104-207 | every event that wipes nobody else's slot keeps TLB coherence, frame ownership, and, except a write, everybody's memory |
| PagerRuns.StepInvExact | phase3/sysSupport.c:138-144 | the invariants survive an event exactly if it is no such wipe |
| PagerRuns.LostExactly | phase3/vmSupport.c:142-160 | a harmless run becomes undefined exactly if it reads a victim's slot of which a word has been wiped |
| PagerRuns.Transparent | phase3/vmSupport.c:104-281 | in every run from boot without wipes of others' slots and without picks of wiped slots, every read of a page other than page 1 returns the last value written there, or the flash contents, and no pager step is undefined |
| PagerRuns.PlainUntilLost | phase3/vmSupport.c:104-281 | if a pick reads a wiped slot, the same holds up to that |
| PagerRace.PickExact | phase3/vmSupport.c:139-145 | once the scan has passed the next victim's slot, the pager is lost exactly if, before it has loaded them, an ending process wipes the slot's asid or vpn |
| PagerRace.LostByWipe | phase3/vmSupport.c:139-160 | a harmless run from boot is lost exactly if it reads a victim's slot that was wiped after the scan had passed it |
| PagerRace.QuietNeverLost | phase3/vmSupport.c:139-160 | no harmless run is lost in which nobody wipes a slot during somebody else's scan and pick |
| PagerRace.LockedTransparent | phase3/sysSupport.c:136-144 | with the frame loop under the swap pool lock, paging would be transparent in every run from boot |
| PagerScenarios.LostFromBoot | phase3/vmSupport.c:139-160 | with two processes and a pool that cannot hold all their pages, a harmless run from boot that is lost |
| PagerScenarios.HarmFromBoot | phase3/sysSupport.c:138-144 | with two processes and any pool, a run from boot that wipes a slot under its new owner |
| PagerScenarios.WrongReadFromBoot | phase3/sysSupport.c:138-144 | a run from boot in which, after such a wipe, a process reads from one page what it wrote to another |
| PagerCapacity.HarmPossible | phase3/sysSupport.c:138-144 | runs that wipe another's slot exist exactly if there are two processes |
| PagerCapacity.FullBound | phase3/vmSupport.c:52-63 | when a scan finds every slot occupied, the processes have more pages than the pool has frames |
| PagerCapacity.LostPossible | phase3/vmSupport.c:139-160 | harmless runs that are lost exist exactly if there are two processes and the pool cannot hold all their pages |
| PagerRuns.FrameOwnership | phase3/vmSupport.c:138-198 | in every state of a harmless run, between any two pager events, a live process's valid entry names a pool frame recorded for it, shared with no other, and not one a pager is moving |
| PagerRuns.TlbCoherence | phase3/vmSupport.c:157-200 | in every state of every run from boot every TLB entry equals its page table entry |
| PagerRuns.AccessLands | phase3/initProc.c:66-73 | every mapped access to a paged page falls inside the swap pool and can be carried out |
| PagerRuns.EndedHoldsNothing | phase3/sysSupport.c:134-144 | in every state of a harmless run, a process that has ended occupies no frame |
| PagerCode.EntryHiInjective | phase3/initProc.c:62-63 | entryHi words tell pages and processes apart, with the vpn and the asid in their fields |
| PagerCode.EntryLoDecodes | phase3/vmSupport.c:196-196 | the installed word means valid and writable, with the frame's number; the first page table's words are writable and only page 1's is valid |
| PagerCode.ClearDecodes | phase3/vmSupport.c:165-165 | clearing the valid bit leaves the frame number and the dirty bit |
| PagerCode.VmSupport.constructor | phase3/vmSupport.c:36-45 | the tables start in an initial state of the machine |
| PagerCode.VmSupport.InitSwapPool | phase3/vmSupport.c:36-45 | every entry is unoccupied |
| PagerCode.VmSupport.InitPageTable | phase3/initProc.c:47-77 | only page 1 is valid and every page is writable; other processes' tables are untouched |
| PagerCode.VmSupport.GetFreeFrame | phase3/vmSupport.c:52-63 | the first unoccupied frame, or -1 if there is none, when nobody else moves during the scan |
| PagerCode.VmSupport.PickVictimFrame | phase3/vmSupport.c:70-75 | the frame whose turn it is, and the next one in the rotation of VictimsRotate |
| PagerCode.VmSupport.FreeFrame | phase3/vmSupport.c:82-87 | three stores that follow three Clear events; the entry is reset and no other changes |
| PagerCode.VmSupport.RefillHandler | phase3/exceptions.c:461-498 | the TLB gets exactly the page table's entry under that page's entryHi, or PANIC exactly when the index is out of range |
| PagerCode.VmSupport.ScanSlot | phase3/vmSupport.c:55-61 | one round of the scan follows the Scan event |
| PagerCode.VmSupport.PickVictim | phase3/vmSupport.c:142-143 | follows the Pick event |
| PagerCode.VmSupport.ReadVictimPage | phase3/vmSupport.c:144-155 | follows the ReadVpn event, and is lost exactly if a word has been wiped |
| PagerCode.VmSupport.EvictVictim | phase3/vmSupport.c:157-178 | follows the Evict event, on page table and TLB words |
| PagerCode.VmSupport.WritePageToBackingStore | phase3/vmSupport.c:254-281 | the frame reaches the victim's page on flash |
| PagerCode.VmSupport.LoadPageFromBackingStore | phase3/vmSupport.c:217-244 | the missing page reaches the frame |
| PagerCode.VmSupport.RecordFrame | phase3/vmSupport.c:187-190 | three stores that follow three Record events; the slot names the new owner |
| PagerCode.VmSupport.InstallPage | phase3/vmSupport.c:192-200 | follows the Install event: valid entry, empty TLB |
| PagerCode.VmSupport.PagerHandler | phase3/vmSupport.c:104-207 | run without interruption, it maps the missing page and changes nobody's memory |
| PagerCode.VmSupport.CheckFrame | phase3/sysSupport.c:140-140 | follows the Check event |
| PagerCode.VmSupport.ReleaseFrames | phase3/sysSupport.c:134-144 | exactly the frames of the ending process become free |
| DelayList.InsertedSorted | phase3/delayDaemon.c:67-74 | insertion keeps the list sorted by wake time and adds exactly one entry |
| DelayList.DueExact | phase3/delayDaemon.c:107-129 | the entries the daemon takes are exactly those due |
| DelayList.WakeTimeExact | phase3/delayDaemon.c:61-64 | the stored wake time is the requested one exactly when that fits in an int; otherwise it is earlier |
| DelayList.LongDelayWraps | phase3/delayDaemon.c:64-64 | an input for which it is in the past |
| DelayList.DelayTable.constructor | phase3/delayDaemon.c:145-164 | the dummy alone on the list, all other descriptors free |
| DelayList.DelayTable.Insert | phase3/delayDaemon.c:50-74 | the sleeper is inserted in order; fails exactly when no descriptor is free |
| DelayList.DelayTable.FindPlace | phase3/delayDaemon.c:68-72 | the search stops before the first entry not due earlier, at the dummy at the latest |
| DelayList.DelayTable.ExpireHead | phase3/delayDaemon.c:113-128 | the head goes back to the free list |
| DelayList.DelayTable.Sweep | phase3/delayDaemon.c:101-129 | the due sleepers are signalled in order and leave; the others stay |
| DelayProtocol.StepInv | phase3/delayDaemon.c:47-132 | list, lock, private semaphores and phases stay consistent |
| DelayProtocol.NeverEarly | phase3/delayDaemon.c:76-81 | no process resumes before its stored wake time, and it resumes no earlier than it asked for exactly if that time fits in an int |
| DelayProtocol.OneWakePerCall | phase3/delayDaemon.c:111-111 | each call is answered by exactly one V |
| DelayProtocol.PoolSuffices | phase3/delayDaemon.c:51-56 | the branch for an exhausted pool is never taken |
| DelayProtocol.DaemonProceeds | phase3/delayDaemon.c:108-132 | under the lock the daemon can always either signal or finish, never both |
| DelayProtocol.PassClears | phase3/delayDaemon.c:98-132 | when a pass ends, everybody still to be signalled has a wake time later than the moment the daemon took the lock |
| DelayProtocol.PassServes | phase3/delayDaemon.c:77-132 | whoever is due when the daemon takes the lock, blocked or still on its way to its P, has been signalled by the end of the pass |
| DelayProtocol.SleepersAccounted | phase3/delayDaemon.c:51-132 | in every run from boot calls and signals differ by exactly the process's entry on the list, and blocked sleepers are listed |
| DelayRuns.NeverEarlyInRun | phase3/delayDaemon.c:63-81 | a call for sec seconds whose entry is made at time t comes back no earlier than t + sec seconds exactly if that fits in an int, in every run |
| DelayRuns.DueServed | phase3/delayDaemon.c:98-132 | a call whose wake time has come when the daemon takes the lock has been signalled when it gives the lock back, in every run |
| DelayRuns.CanReturn | phase3/delayDaemon.c:47-132 | nobody is stuck: from every state some run brings any process back |
| DelayRuns.CallReturns | phase3/delayDaemon.c:37-81 | every nonnegative delay is accepted and can come back |
| DiskAddress.BoundsCheckExact | phase3/deviceSupportDMA.c:66-73 | the check accepts exactly the numbers below the capacity; the sector exists exactly for those not negative |
| DiskAddress.BlockRoundTrip | phase3/deviceSupportDMA.c:131-138 | a block number can be recovered from its sector |
| DiskAddress.SectorRoundTrip | phase3/deviceSupportDMA.c:131-138 | every sector of the disk is the sector of one block |
| DiskAddress.SectorsInOrder | phase3/deviceSupportDMA.c:131-138 | block numbers run through the sectors cylinder by cylinder, head by head |
| DiskAddress.GeometryParts | phase3/deviceSupportDMA.c:62-64 | cylinders, heads and sectors are read from the parts of DATA1 that hold them |
| DiskWords.GeometryMasks | phase3/deviceSupportDMA.c:62-64 | the shifts and masks of the code give those parts |
| DiskWords.GeometryBits | phase3/deviceSupportDMA.c:62-64 | so they do on a 32-bit word |
| DiskWords.SeekWord | phase3/deviceSupportDMA.c:79-79 | the seek word of the code is the modelled number |
| DiskWords.BlockWord | phase3/deviceSupportDMA.c:85-85 | so is the transfer word |
| DiskWords.StatusMask | phase3/deviceSupportDMA.c:87-87 | masking a status leaves its low byte |
| DiskAddress.OrIsPlus | phase3/deviceSupportDMA.c:79-85 | fields joined with bitwise or do not overlap |
| DiskAddress.CommandsReach | phase3/deviceSupportDMA.c:60-85 | the packed words decode to the operation, cylinder, head and sector of the block's sector |
| DiskAddress.OperationsCollide | h/const.h:164-166 | the operation byte does not tell a seek from a read |
| DiskDevice.CallUnderstood | phase3/deviceSupportDMA.c:39-167 | on a device that understands the three codes, a successful write writes exactly its block, a successful read gets exactly its block, and anything else changes no block; what is in the buffer and where the arm stands, in every case |
| DiskDevice.ReadsLastWrite | phase3/deviceSupportDMA.c:39-167 | on such a device, over any sequence of calls, reads and failures among them, each successful read returns the last buffer successfully written to its block |
| DiskDevice.RightExactly | phase3/deviceSupportDMA.c:39-167 | that holds of all units and all sequences of calls exactly for such devices |
| DiskDevice.SourceNeverRight | h/const.h:164-166 | with the code's constants it holds for no device |
| DiskDevice.SeekingRead | phase3/deviceSupportDMA.c:142-151 | if the shared code means seek, the second word of a read moves the arm to 0x100 times the sector number, and nothing is read |
| DiskDevice.SourceReadsBuffer | phase3/deviceSupportDMA.c:51-94 | then a successful read returns what the last dmaWriteDisk copied in, of whichever block and even if it failed |
| DiskDevice.SecondComesBack | testers/diskIOtest.c:19-34 | so after writing two blocks, reading the first returns the second |
| DiskDevice.ReadingRead | phase3/deviceSupportDMA.c:142-151 | if it means read, a read returns the sector under the arm, the right one exactly if the arm stands on the block's cylinder |
| DiskDevice.ArmStays | phase3/deviceSupportDMA.c:39-167 | and no sequence of calls moves the arm |
| DiskService.ResultExact | phase3/deviceSupportDMA.c:66-94 | terminated exactly if the bounds check or the seek fails, the negated status if the transfer fails; READY exactly for a success or a failed transfer with status -1 |
| DiskService.DiskDriver.Execute | phase3/deviceSupportDMA.c:78-87 | the disk carries out the word in its command register, as its decoder has it |
| DiskService.DiskDriver.DmaWriteDisk | phase3/deviceSupportDMA.c:39-94 | follows Called, with the result for every case; no other disk or buffer changes |
| DiskService.DiskDriver.DmaReadDisk | phase3/deviceSupportDMA.c:111-167 | follows Called, with the result for every case; the caller's memory gets the buffer exactly on success |

## Left out

- Saved processor state, register contents, CPU-time accounting, stack setup, the pass-up vector and LDST/LDCXT: they
  do not touch the structures modelled.
- passUpOrDie: its die branch is the Terminate step; its pass-up branch hands control to the support level.
- What a machine does after HALT or PANIC or once it is astray, and what the structures look like when HALT stops a
  termination half way.
- Semaphore addresses are taken strictly between 0 and MAXINT, and a terminal's sub-device flag is 0 or 1.
- NucleusRuns.RunSound: assumes that SYS3 names ordinary semaphores and that only counted processes end; the delay
  daemon is the one process that is not counted, and it never ends.
- JoinBarrier.Barrier: does not rule out a user process that ends without signalling; test then waits forever. The
  printer and terminal loops between a process's start and its end are any steps that leave the master semaphore
  alone.
- KernelCode.Kernel.HandleDeviceInterrupt: the interrupting device is a parameter; the search for the highest-priority
  interrupt and device is not modelled. A terminal interrupt is one whose status byte is 5; with neither status at 5
  the C code reads an uninitialised variable.
- PagerCode.VmSupport.PagerHandler: is run without interleaving, like GetFreeFrame, FreeFrame, RecordFrame and
  ReleaseFrames; the interleavings are those of PagerState, where each load and each store of a slot is an event of
  its own. The two loads of supTerminate's test are one event, and so is each window with interrupts off.
- What happens after the pager has read a wiped slot: the code goes on with an entry outside `asidProcessTable` or a
  page table.
- PagerRuns.Transparent: claims nothing for runs in which a pick reads a wiped slot or a process wipes another's slot;
  PagerRace and PagerCapacity say when there are any.
- PagerScenarios.WrongReadFromBoot: needs a pool that leaves two pages over; for larger ones it is not known whether a
  wipe can lead to a wrong read before the pager is lost.
- Only the holder of the swap pool lock releases it; supportProgTrapHandler, which signals it whether held or not, is
  not modelled.
- The pager's branch for TLB-modification exceptions, whose cause test compares an unshifted field.
- The TLB's size: a Replace event may drop any entry at any time. The TLB probe is taken to use the index layout the
  code assumes.
- Device failures during paging (the code panics), and user flash calls, which share the device that backs paging.
- The list of free support structures: a process is known by its asid, and none is created after boot.
- A process in supDelay with a negative count is terminated before it touches the list, and is not modelled. The clock
  stays at or below MAXINT.
- DiskService.DiskDriver.DmaWriteDisk: assumes a nonnegative block number and, for a disk that exists, positive
  geometry; the same holds for DmaReadDisk. One operation runs at a time, because the routines take no lock.
- DiskService.ResultExact: takes the negation of a status as an integer's; the most negative status has none in C.
- DiskDevice.RightExactly: takes a device to have one meaning for each code; which codes a real disk uses is not part
  of the repository. A command with a code it does not know, or for a sector it does not have, changes nothing.
- User addresses that are not mapped, and the byte width of the copied data: a buffer is a sequence of 4096 values.
- Flash system calls, printers and terminals, and the tester programs.
