/**
 * exceptions.c, interrupts.c, scheduler.c and the boot sequence of initial.c over the linked structures of
 * PcbTable.dfy and SemaphoreList.dfy. Every handler is proved to do what the state machine of NucleusState.dfy does.
 */
module KernelCode {
  import opened Sequences
  import opened ProcessTree
  import opened PcbTable
  import opened SemaphoreList
  import opened NucleusState
  import opened NucleusPlaces
  import opened NucleusRuns
  import opened KernelShapes
  import opened TerminateSteps

  class Kernel {
    const pcbs: PcbStore
    const asl: Asl
    const devBase: int
    var readyQueue: int
    var currentProcess: int
    var processCount: int
    var softBlockCount: int
    /** The integers that semaphore addresses point to; absent means zero. */
    var sem: map<int, int>
    /** Whether the machine runs or waits, or was stopped by HALT or PANIC. */
    var status: Status
    ghost var k: K

    /** The linked structures and the counters represent k. */
    ghost predicate Valid()
      reads this, pcbs, pcbs.pcbTable, asl, asl.semdTable, asl.pcbs, asl.pcbs.pcbTable
    {
      Represents() && currentProcess == k.current
    }

    ghost predicate Represents()
      reads this, pcbs, pcbs.pcbTable, asl, asl.semdTable, asl.pcbs, asl.pcbs.pcbTable
    {
      && asl.pcbs == pcbs && asl.semdTable.Length == k.maxProc + 2
      && Queues(k) && PcbShape(pcbs.pcbTable[..], readyQueue, pcbs.pcbFree_h, k)
      && asl.Valid() && asl.queues == k.blocked
      && processCount == k.processCount && softBlockCount == k.softBlock && sem == k.sem
      && devBase == k.devBase && status == k.status
    }

    /** main up to the first call of the scheduler: createProcess, initADL's daemon and the templates of initUProcs. */
    constructor (maxProc: nat, uprocs: nat, devBase: int, sem: map<int, int>)
      requires BootSetup(devBase, maxProc, uprocs, sem)
      ensures Valid() && k == Boot(devBase, maxProc, uprocs, sem)
      ensures fresh(pcbs) && fresh(pcbs.pcbTable) && fresh(asl) && fresh(asl.semdTable)
    {
      var store := new PcbStore(maxProc);
      pcbs := store;
      asl := new Asl(store, maxProc);
      this.devBase := devBase;
      readyQueue, currentProcess := NIL, NIL;
      processCount, softBlockCount := 0, 0;
      this.sem := sem;
      status := Live;
      k := Booting(devBase, maxProc, 0, [], 0, [], {}, sem);
      new;
      hide Queues, PcbShape, Linked, Increasing, Partition, Owns, Apart, NoneEmpty, Ids;
      BareFacts(devBase, maxProc, sem, pcbs.pcbTable[..], pcbs.pcbFree_h);
      CreateProcess();
      LaunchDaemon();
      InitUProcs(uprocs);
    }

    /** createProcess: pcb 0 will run test. */
    method CreateProcess()
      requires Valid() && 0 < k.maxProc && k == Booting(k.devBase, k.maxProc, 0, [], 0, [], {}, k.sem)
      modifies this, pcbs, pcbs.pcbTable
      ensures Valid() && k == Booting(old(k).devBase, old(k).maxProc, 1, [0], 1, [], {0}, old(k).sem)
    {
      hide Queues, Forest, PcbShape, Linked, Increasing, Partition, Owns, Apart, NoneEmpty;
      BareTreeFacts(k.maxProc);
      IdsHead(0, k.maxProc);
      IdsProps(1, k.maxProc);
      var p := TakePcb();
      MakeReady(p);
      CountProcess(p);
      assert k.semAdd == Nils(k.maxProc);
    }

    /** The part of initADL that starts the delay daemon: ready, but neither a child nor counted. */
    method LaunchDaemon()
      requires Valid() && 1 < k.maxProc && k == Booting(k.devBase, k.maxProc, 1, [0], 1, [], {0}, k.sem)
      modifies this, pcbs, pcbs.pcbTable
      ensures Valid() && k == Booting(old(k).devBase, old(k).maxProc, 2, [0, 1], 1, [], {0}, old(k).sem)
    {
      hide Queues, Forest, PcbShape, Linked, Increasing, Partition, Owns, Apart, NoneEmpty;
      BareTreeFacts(k.maxProc);
      IdsHead(1, k.maxProc);
      IdsProps(2, k.maxProc);
      var p := TakePcb();
      MakeReady(p);
      assert k.semAdd == Nils(k.maxProc);
    }

    /** initUProcs: one pcb per user process to hold its initial state, in no queue. */
    method InitUProcs(uprocs: nat)
      requires Valid() && uprocs + 2 <= k.maxProc && k == Booting(k.devBase, k.maxProc, 2, [0, 1], 1, [], {0}, k.sem)
      modifies this, pcbs, pcbs.pcbTable
      ensures Valid() && k == Boot(old(k).devBase, old(k).maxProc, uprocs, old(k).sem)
    {
      hide Queues, Forest, PcbShape, Linked, Increasing, Partition, Owns, Apart, NoneEmpty;
      ghost var k0 := k;
      BareTreeFacts(k0.maxProc);
      var i := 1;
      while i <= uprocs
        invariant 1 <= i <= uprocs + 1 && Valid() && k == Boot(k0.devBase, k0.maxProc, i - 1, k0.sem)
      {
        IdsHead(i + 1, k.maxProc);
        IdsLast(2, i + 1);
        var p := TakePcb();
        CountedSame(k, k.(templates := k.templates + [p]));
        k := k.(templates := k.templates + [p]);
        assert k.semAdd == Nils(k.maxProc);
        i := i + 1;
      }
    }

    function Read(a: int): int
      reads this
    {
      if a in sem then sem[a] else 0
    }

    /** *a = v. */
    method Write(a: int, v: int)
      requires Valid()
      modifies this`sem, this`k
      ensures Valid() && k == SetSem(old(k), a, v)
    {
      hide Queues, PcbShape, Linked, Increasing, Partition, Owns, Apart, NoneEmpty;
      CountedSame(k, SetSem(k, a, v));
      sem := sem[a := v];
      k := SetSem(k, a, v);
    }

    /** softBlockCount += d. */
    method CountSoft(d: int)
      requires Valid()
      modifies this`softBlockCount, this`k
      ensures Valid() && k == old(k).(softBlock := old(k).softBlock + d)
    {
      hide Queues, PcbShape, Linked, Increasing, Partition, Owns, Apart, NoneEmpty;
      ghost var k1 := k.(softBlock := k.softBlock + d);
      CountedSame(k, k1);
      softBlockCount := softBlockCount + d;
      k := k1;
    }

    /** processCount++ for p. */
    method CountProcess(p: int)
      requires Valid()
      modifies this`processCount, this`k
      ensures Valid() && k == old(k).(processCount := old(k).processCount + 1, counted := old(k).counted + {p})
    {
      hide Queues, PcbShape, Linked, Increasing, Partition, Owns, Apart, NoneEmpty;
      ghost var k1 := k.(processCount := k.processCount + 1, counted := k.counted + {p});
      CountedSame(k, k1);
      processCount := processCount + 1;
      k := k1;
    }

    /** The machine's history: a deficit with nobody waiting belonged to a terminated waiter. */
    ghost method Forget(a: int)
      requires Valid()
      modifies this`k
      ensures Valid() && k == Absorb(old(k), a)
    {
      hide Queues, PcbShape, Linked, Increasing, Partition, Owns, Apart, NoneEmpty;
      CountedSame(k, Absorb(k, a));
      k := Absorb(k, a);
    }

    /** insertProcQ(&readyQueue, p). */
    method MakeReady(p: int)
      requires Represents() && IsPid(k, p) && p !in k.free && p !in k.ready
      requires forall a :: a in k.blocked ==> p !in k.blocked[a]
      modifies this`readyQueue, this`k, pcbs.pcbTable
      ensures Represents() && k == old(k).(ready := old(k).ready + [p])
    {
      hide Queues, Ring, Chain, TreeLinks, SemFields, Linked, Increasing, Partition, Owns, Apart, NoneEmpty, QueueEdit;
      ghost var t, ready := pcbs.pcbTable[..], readyQueue;
      ReadyQueues(k, p);
      readyQueue := pcbs.InsertProcQ(readyQueue, p, k.ready);
      ghost var t' := pcbs.pcbTable[..];
      ReadyShape(t, t', ready, readyQueue, pcbs.pcbFree_h, k, k.ready + [p], k.ready + [p]);
      OwnsQueueEdit(t, t', asl.semdTable[..], asl.act, asl.queues, k.ready + [p]);
      k := k.(ready := k.ready + [p]);
    }

    /** scheduler: take the head of the ready queue, or halt, wait or panic. */
    method Scheduler()
      requires Represents() && k.status == Live
      modifies this, pcbs.pcbTable
      ensures Valid() && k == Schedule(old(k))
    {
      hide Queues, Ring, Chain, TreeLinks, SemFields, Linked, Increasing, Partition, Owns, Apart, NoneEmpty, QueueEdit;
      ghost var t, ready := pcbs.pcbTable[..], readyQueue;
      ReadyFacts(k);
      DispatchQueues(k);
      readyQueue, currentProcess := pcbs.RemoveProcQ(readyQueue, k.ready);
      ghost var t' := pcbs.pcbTable[..];
      if currentProcess == NIL {
        if processCount == 0 {
          status := Halted;
        } else if softBlockCount > 0 {
          // WAIT: nothing runs until the next interrupt
        } else {
          status := Panicked;
        }
      } else {
        ReadyShape(t, t', ready, readyQueue, pcbs.pcbFree_h, k, k.ready[1..], k.ready);
        OwnsQueueEdit(t, t', asl.semdTable[..], asl.act, asl.queues, k.ready);
      }
      k := Schedule(k);
    }

    /** allocPcb: the head of the free list, cleared; only its place changes. */
    method TakePcb() returns (p: int)
      requires Represents() && Forest(k.tree)
      requires |k.tree.kids| == |k.tree.prnt| == k.maxProc
      requires k.free != [] ==>
                 IsPid(k, k.free[0]) && k.tree.kids[k.free[0]] == [] && k.tree.prnt[k.free[0]] == NIL
      modifies pcbs, pcbs.pcbTable, this`k
      ensures Represents() && pcbs.pcbTable.Length == k.maxProc
      ensures old(k).free == [] ==> p == NIL && k == old(k)
      ensures old(k).free != [] ==>
                && p == old(k).free[0] && IsPid(old(k), p) && pcbs.pcbTable[p] == ZEROED
                && k == old(k).(free := old(k).free[1..], semAdd := old(k).semAdd[p := NIL])
    {
      hide Queues, Ring, Chain, TreeLinks, SemFields, Linked, Increasing, Partition, Owns, Apart, NoneEmpty, Forest;
      ghost var t, freeH := pcbs.pcbTable[..], pcbs.pcbFree_h;
      p := pcbs.AllocPcb(k.free);
      if p == NIL {
        return;
      }
      ghost var t' := pcbs.pcbTable[..];
      HeadFree(k);
      OwnsPcbEdit(t, t', asl.semdTable[..], asl.act, asl.queues, p, ZEROED);
      TakeShape(t, t', readyQueue, freeH, pcbs.pcbFree_h, k);
      k := k.(free := k.free[1..], semAdd := k.semAdd[p := NIL]);
    }

    // ----- exceptions.c: create, P, V, waits -----

    /** sysCreateProcess (SYS1): a new child of the current process, ready to run; -1 if no pcb is free. */
    method SysCreateProcess() returns (v0: int)
      requires Valid() && Core(k) && k.status == Live && k.current != NIL
      modifies this, pcbs, pcbs.pcbTable
      ensures Valid() && k == Step(old(k), EvCreate)
      ensures v0 == if old(k).free == [] then -1 else 0
    {
      hide Queues, Placed, Forest, FreeDetached, PcbShape, Linked, Increasing, Partition, Owns, Apart, NoneEmpty;
      ghost var k0 := k;
      Shapes(k);
      if k.free != [] {
        FreeHeadAlone(k);
        HeadFree(k);
      }
      var p := TakePcb();
      if p == NIL {
        return -1;
      }
      InsertTheChild(p);
      MakeReady(p);
      CountProcess(p);
      assert k == Created(k0);
      v0 := 0;
    }

    /** Counters, semaphore values and history are not in the linked structures. */
    lemma CountedSame(k: K, k1: K)
      requires Queues(k) && PcbShape(pcbs.pcbTable[..], readyQueue, pcbs.pcbFree_h, k)
      requires k1 == k.(sem := k1.sem, softBlock := k1.softBlock, processCount := k1.processCount, status := k1.status,
                        counted := k1.counted, orphans := k1.orphans, current := k1.current, templates := k1.templates)
      ensures Queues(k1) && PcbShape(pcbs.pcbTable[..], readyQueue, pcbs.pcbFree_h, k1)
    {
      QueuesSame(k, k1);
      hide Queues, Ring, Chain, TreeLinks, SemFields;
    }

    /** insertChild(currentProcess, p) for a pcb just taken. */
    method InsertTheChild(p: int)
      requires Valid() && Forest(k.tree) && IsPid(k, p) && IsPid(k, k.current) && k.current != p
      requires |k.tree.kids| == |k.tree.prnt| == k.maxProc
      requires p !in k.free && k.current !in k.free && p < pcbs.pcbTable.Length && pcbs.pcbTable[p] == ZEROED
      requires k.tree.kids[p] == [] && k.tree.prnt[p] == NIL
      modifies pcbs.pcbTable, this`k
      ensures Valid() && k == old(k).(tree := Adopt(Stamp(old(k).tree, p), k.current, p))
    {
      hide Ring, Chain, TreeLinks, SemFields, Linked, Increasing, Partition, Owns, Apart, NoneEmpty, TreeEdit;
      ghost var t := pcbs.pcbTable[..];
      pcbs.InsertChild(currentProcess, p, k.tree, k.free);
      ghost var t' := pcbs.pcbTable[..];
      OwnsTreeEdit(t, t', asl.semdTable[..], asl.act, asl.queues);
      StampLinks(t', k.tree, k.current, p, k.free);
      TreeShape(t, t', readyQueue, pcbs.pcbFree_h, k, Adopt(Stamp(k.tree, p), k.current, p));
      k := k.(tree := Adopt(Stamp(k.tree, p), k.current, p));
    }

    /** sysPasseren (SYS3): one unit off a; wait if it goes below zero. insertBlocked cannot fail here. */
    method SysPasseren(a: int)
      requires Valid() && Core(k) && k.status == Live && k.current != NIL && 0 < a < MAXINT
      modifies this, pcbs.pcbTable, asl, asl.semdTable
      ensures Valid() && IsPid(old(k), old(k).current) && k == Passeren(old(k), a)
      ensures Enabled(old(k), EvPasseren(a)) && k == Step(old(k), EvPasseren(a))
    {
      hide Queues, Placed, Forest, FreeDetached, PcbShape, Schedule, BlockCurrent, Linked, Increasing, Partition;
      hide Owns, Apart, NoneEmpty;
      CurrentLive(k);
      CoreSame(k, SetSem(k, a, Val(k, a) - 1));
      Write(a, Read(a) - 1);
      if Read(a) < 0 {
        BlockCurrentOn(a);
        Scheduler();
      }
    }

    /** The current process joins the queue of a. */
    method BlockCurrentOn(a: int)
      requires Valid() && Core(k) && k.current != NIL && 0 < a < MAXINT
      modifies this`k, pcbs.pcbTable, asl, asl.semdTable
      ensures IsPid(old(k), old(k).current) && Represents() && k == BlockCurrent(old(k), a)
    {
      hide Queues, Placed, Forest, FreeDetached, Ring, Chain, TreeLinks, SemFields, Linked, Increasing, Partition;
      hide Owns, Apart, NoneEmpty, BlockEdit;
      var p := currentProcess;
      CurrentLive(k);
      DescriptorsSuffice(k);
      CurrentUnqueued(k);
      ghost var t := pcbs.pcbTable[..];
      pcbs.pcbTable[p] := pcbs.pcbTable[p].(semAdd := a);
      ghost var t1 := pcbs.pcbTable[..];
      assert t1 == t[p := t[p].(semAdd := a)];
      OwnsPcbEdit(t, t1, asl.semdTable[..], asl.act, asl.queues, p, t[p].(semAdd := a));
      var full := asl.InsertBlocked(a, p);
      assert !full;
      BlockQueues(k, a);
      BlockShape(t, t1, pcbs.pcbTable[..], readyQueue, pcbs.pcbFree_h, k, a);
      k := BlockCurrent(k, a);
    }

    /** removeBlocked(a) followed by insertProcQ(&readyQueue, ...). */
    method WakeFirst(a: int) returns (p: int)
      requires Represents() && 0 < a < MAXINT
      modifies this`k, this`readyQueue, pcbs.pcbTable, asl, asl.semdTable
      ensures Represents() && k == if a in old(k).blocked then Wake(old(k), a) else old(k)
      ensures p != NIL <==> a in old(k).blocked
    {
      hide Queues, Ring, Chain, TreeLinks, SemFields, Linked, Increasing, Partition, Owns, Apart, NoneEmpty, BlockEdit;
      ghost var k0, t := k, pcbs.pcbTable[..];
      p := asl.RemoveBlocked(a);
      if p != NIL {
        UnblockedQueues(k, a);
        HeadBlockedFacts(k, a);
        UnblockShape(t, pcbs.pcbTable[..], readyQueue, pcbs.pcbFree_h, k, a);
        k := k.(semAdd := k.semAdd[p := NIL], blocked := Requeued(k.blocked, a, k.blocked[a][1..]));
        MakeReady(p);
      }
    }

    /** sysVerhogen (SYS4): one unit to a, and its first waiter becomes ready if the value is still not positive. */
    method SysVerhogen(a: int)
      requires Valid() && 0 < a < MAXINT
      modifies this, pcbs.pcbTable, asl, asl.semdTable
      ensures Valid() && k == Verhogen(old(k), a)
      ensures Core(old(k)) && old(k).status == Live && old(k).current != NIL ==>
                Enabled(old(k), EvVerhogen(a)) && k == Step(old(k), EvVerhogen(a))
    {
      hide Queues, PcbShape, Wake, Linked, Increasing, Partition, Owns, Apart, NoneEmpty;
      Write(a, Read(a) + 1);
      if Read(a) <= 0 {
        WakeKeeps(k, a);
        var p := WakeFirst(a);
        if p == NIL {
          Forget(a);
        }
      }
    }

    /** sysWaitIO (SYS5). */
    method SysWaitIO(line: int, dev: int, term: int)
      requires Valid() && Core(k) && k.status == Live && k.current != NIL
      requires 3 <= line <= TERMINT && 0 <= dev < DEVPERINT && 0 <= term <= 1
      modifies this, pcbs.pcbTable, asl, asl.semdTable
      ensures Valid() && k == Step(old(k), EvWaitIO(line, dev, term))
    {
      hide Queues, Placed, Forest, FreeDetached, PcbShape, Passeren, Linked, Increasing, Partition, Owns, Apart;
      hide NoneEmpty;
      var deviceIndex;
      if line == TERMINT {
        deviceIndex := (4 * DEVPERINT) + (dev * 2) + term;
      } else {
        deviceIndex := (line - 3) * DEVPERINT + dev;
      }
      SoftAddresses(k);
      assert 0 < DevAddr(k, deviceIndex) < MAXINT;
      CoreSame(k, k.(softBlock := k.softBlock + 1));
      CountSoft(1);
      SysPasseren(devBase + WORDLEN * deviceIndex);
    }

    /** sysWaitClock (SYS7). */
    method SysWaitClock()
      requires Valid() && Core(k) && k.status == Live && k.current != NIL
      modifies this, pcbs.pcbTable, asl, asl.semdTable
      ensures Valid() && k == Step(old(k), EvWaitClock)
    {
      hide Queues, Placed, Forest, FreeDetached, PcbShape, Passeren, Linked, Increasing, Partition, Owns, Apart;
      hide NoneEmpty;
      SoftAddresses(k);
      CoreSame(k, k.(softBlock := k.softBlock + 1));
      CountSoft(1);
      SysPasseren(devBase + WORDLEN * NUM_DEVICES);
    }

    // ----- exceptions.c: terminate -----

    /**
     * sysTerminate (SYS2): p and everything below it, children first. HALT, reported by the result, stops the machine
     * on the spot, so nothing is said about the linked structures then.
     */
    method SysTerminate(p: int) returns (halted: bool)
      requires Valid() && k.status == Live && k.processCount >= 0
      requires p != NIL ==> Core(k) && IsLive(k, p)
      modifies this, pcbs, pcbs.pcbTable, asl, asl.semdTable
      ensures p == NIL ==> !halted && Valid() && k == old(k)
      ensures p != NIL ==> (halted <==> Terminated(old(k), p).status == Halted)
      ensures halted ==> status == Halted
      ensures p != NIL && !halted ==> Valid() && k == Terminated(old(k), p)
      decreases Youth(k, p)
    {
      hide Queues, Placed, Forest, FreeDetached, PcbShape, Linked, Increasing, Partition, Owns, Apart, NoneEmpty;
      hide Terminated, During;
      if p == NIL {
        return false;
      }
      ghost var k0, n := k, 0;
      DuringStart(k0, p);
      DuringFacts(k0, p, n);
      var empty := NoChild(p);
      while !empty
        invariant 0 <= n <= |k0.tree.kids[p]| && Valid() && Core(k) && k == During(k0, p, n)
        invariant empty <==> n == |k0.tree.kids[p]|
        invariant k.processCount >= 0 && (n > 0 ==> k.processCount > 0)
        decreases |k0.tree.kids[p]| - n
        modifies this, pcbs, pcbs.pcbTable, asl, asl.semdTable
      {
        DuringFacts(k0, p, n);
        DuringChild(k0, p, n);
        DuringStep(k0, p, n);
        LiveEdges(k0, p);
        assert k0.tree.kids[p][n] in k0.tree.kids[p];
        var c := DropFirstChild(p);
        halted := SysTerminate(c);
        if halted {
          return true;
        }
        n := n + 1;
        DuringFacts(k0, p, n);
        empty := NoChild(p);
      }
      DuringFacts(k0, p, n);
      DuringEnd(k0, p);
      halted := Bury(p);
    }

    method NoChild(p: int) returns (empty: bool)
      requires Valid() && Core(k) && IsLive(k, p)
      ensures |k.tree.kids| == k.maxProc && (empty <==> k.tree.kids[p] == [])
    {
      hide Queues, Placed, Forest, FreeDetached, Linked, Increasing, Partition, Owns, Apart, NoneEmpty, TreeLinks;
      empty := pcbs.EmptyChild(p, k.tree, k.free);
    }

    /** removeChild(p). */
    method DropFirstChild(p: int) returns (c: int)
      requires Valid() && Core(k) && IsLive(k, p) && |k.tree.kids| == |k.tree.prnt| == k.maxProc && k.tree.kids[p] != []
      modifies pcbs.pcbTable, this`k
      ensures IsPid(k, c) && c == old(k).tree.kids[p][0] && old(k).tree.prnt[c] == p
      ensures Valid() && k == old(k).(tree := Detach(old(k).tree, c))
    {
      hide Queues, Placed, FreeDetached, Ring, Chain, TreeLinks, SemFields, TreeEdit;
      hide Linked, Increasing, Partition, Owns, Apart, NoneEmpty, ListsDistinct, EdgesDown, EdgesUp, Born;
      ghost var t := pcbs.pcbTable[..];
      LiveEdges(k, p);
      c := pcbs.RemoveChild(p, k.tree, k.free);
      ghost var t', tr := pcbs.pcbTable[..], Detach(k.tree, c);
      OwnsTreeEdit(t, t', asl.semdTable[..], asl.act, asl.queues);
      TreeShape(t, t', readyQueue, pcbs.pcbFree_h, k, tr);
      QueuesTree(k, tr);
      k := k.(tree := tr);
    }

    /** The rest of sysTerminate, for a process without children. */
    method Bury(p: int) returns (halted: bool)
      requires Valid() && Core(k) && IsLive(k, p) && k.processCount >= 0
      requires |k.tree.kids| == |k.tree.prnt| == k.maxProc && k.tree.kids[p] == []
      requires k.tree.prnt[p] != NIL ==> IsLive(k, k.tree.prnt[p])
      modifies this, pcbs, pcbs.pcbTable, asl, asl.semdTable
      ensures halted <==> old(k).processCount <= 1
      ensures halted ==> status == Halted
      ensures !halted ==>
                && |old(k).semAdd| == old(k).maxProc
                && Valid() && k == Reap(old(k), p).(tree := Detach(old(k).tree, p))
    {
      hide Queues, Placed, Forest, FreeDetached, PcbShape, Linked, Increasing, Partition, Owns, Apart, NoneEmpty;
      hide Detach, Without, Unblock;
      ghost var k0 := k;
      Shapes(k);
      LiveEdges(k, p);
      CoreForest(k);
      UnblockKeeps(k, p);
      LeaveSemaphore(p);
      LeaveReady(p);
      LeaveParent(p);
      StopRunning(p);
      GiveBack(p);
      assert k == Unblock(k0, p).(ready := Without(k0.ready, p), tree := Detach(k0.tree, p),
                                  current := if k0.current == p then NIL else k0.current, free := [p] + k0.free);
      halted := Uncount(p);
    }

    /** currentProcess = NULL if p is running. */
    method StopRunning(p: int)
      requires Valid()
      modifies this`currentProcess, this`k
      ensures Valid() && k == old(k).(current := if old(k).current == p then NIL else old(k).current)
    {
      hide Queues, PcbShape, Linked, Increasing, Partition, Owns, Apart, NoneEmpty;
      if p == currentProcess {
        CountedSame(k, k.(current := NIL));
        currentProcess := NIL;
        k := k.(current := NIL);
      }
    }

    /** The end of sysTerminate: one process fewer, and HALT if that was the last. */
    method Uncount(p: int) returns (halted: bool)
      requires Valid() && k.processCount >= 0
      modifies this`processCount, this`status, this`k
      ensures halted <==> old(k).processCount <= 1
      ensures halted ==> status == Halted
      ensures !halted ==>
                Valid() && k == old(k).(processCount := old(k).processCount - 1, counted := old(k).counted - {p})
    {
      hide Queues, PcbShape, Linked, Increasing, Partition, Owns, Apart, NoneEmpty;
      if processCount > 0 {
        ghost var k1 := k.(processCount := k.processCount - 1, counted := k.counted - {p});
        CountedSame(k, k1);
        processCount := processCount - 1;
        k := k1;
      }
      if processCount == 0 {
        status := Halted;
        return true;
      }
      halted := false;
    }

    /** p leaves the semaphore it waits on; an ordinary semaphore gets its unit back, a device's does not. */
    method LeaveSemaphore(p: int)
      requires Valid() && IsPid(k, p) && p !in k.free && |k.semAdd| == k.maxProc
      requires k.semAdd[p] != NIL ==>
                 k.semAdd[p] in k.blocked && p in k.blocked[k.semAdd[p]] && 0 < k.semAdd[p] < MAXINT
      modifies this`k, this`sem, this`softBlockCount, pcbs.pcbTable, asl, asl.semdTable
      ensures Valid() && k == Unblock(old(k), p)
      ensures forall a :: a in k.blocked ==> p !in k.blocked[a]
    {
      hide Queues, Linked, Increasing, Partition, Owns, Apart, NoneEmpty, Ring, Chain, TreeLinks;
      hide Without, Requeued, PcbShape;
      ghost var k0 := k;
      UnblockRemoves(k, p);
      SemFieldOf(p);
      var a := pcbs.pcbTable[p].semAdd;
      if a != NIL {
        var isDevice := devBase <= a <= devBase + WORDLEN * (NUM_DEVICES - 1);
        if !isDevice {
          Write(a, Read(a) + 1);
        }
        LeaveQueueOf(p);
        if isDevice {
          CountSoft(-1);
          Mourn(a);
        }
      }
    }

    lemma SemFieldOf(p: int)
      requires Represents() && IsPid(k, p) && p !in k.free
      ensures pcbs.pcbTable.Length == k.maxProc == |k.semAdd| && pcbs.pcbTable[p].semAdd == k.semAdd[p]
    {
      hide Queues, Linked, Increasing, Partition, Owns, Apart, NoneEmpty, Ring, Chain, TreeLinks;
      assert pcbs.pcbTable[..][p] == pcbs.pcbTable[p];
    }

    /** outBlocked(p) for a blocked p. */
    method LeaveQueueOf(p: int)
      requires Valid() && IsPid(k, p) && p !in k.free && |k.semAdd| == k.maxProc
      requires k.semAdd[p] != NIL && k.semAdd[p] in k.blocked && p in k.blocked[k.semAdd[p]] && 0 < k.semAdd[p] < MAXINT
      modifies this`k, pcbs.pcbTable, asl, asl.semdTable
      ensures var a := old(k).semAdd[p];
              Valid() && k == old(k).(blocked := Requeued(old(k).blocked, a, Without(old(k).blocked[a], p)))
    {
      hide Queues, Linked, Increasing, Partition, Owns, Apart, NoneEmpty, Ring, Chain, TreeLinks, SemFields, QueueEdit;
      hide Without, Requeued;
      SemFieldOf(p);
      ghost var t, a := pcbs.pcbTable[..], k.semAdd[p];
      BlockedFacts(k, a);
      OutQueues(k, p);
      var r := asl.OutBlocked(p);
      ReadyFacts(k);
      UnreadyRing(t, pcbs.pcbTable[..], readyQueue, k.ready, k.blocked[a]);
      ReadyShape(t, pcbs.pcbTable[..], readyQueue, readyQueue, pcbs.pcbFree_h, k, k.ready, k.blocked[a]);
      k := k.(blocked := Requeued(k.blocked, a, Without(k.blocked[a], p)));
    }

    /** The interrupt of a device waiter that is gone is still to come. */
    ghost method Mourn(a: int)
      requires Valid()
      modifies this`k
      ensures Valid() && k == old(k).(orphans := old(k).orphans[a := Orphaned(old(k), a) + 1])
    {
      hide Queues, PcbShape, Linked, Increasing, Partition, Owns, Apart, NoneEmpty;
      CountedSame(k, k.(orphans := k.orphans[a := Orphaned(k, a) + 1]));
      k := k.(orphans := k.orphans[a := Orphaned(k, a) + 1]);
    }

    /** outProcQ(&readyQueue, p). */
    method LeaveReady(p: int)
      requires Valid()
      modifies this`k, this`readyQueue, pcbs.pcbTable
      ensures Valid() && k == old(k).(ready := Without(old(k).ready, p)) && p !in k.ready
    {
      hide Queues, Linked, Increasing, Partition, Owns, Apart, NoneEmpty, Ring, Chain, TreeLinks, SemFields, QueueEdit;
      hide Without;
      ghost var t, ready := pcbs.pcbTable[..], readyQueue;
      LeaveQueues(k, p);
      var r;
      readyQueue, r := pcbs.OutProcQ(readyQueue, p, k.ready);
      ghost var t' := pcbs.pcbTable[..];
      ReadyShape(t, t', ready, readyQueue, pcbs.pcbFree_h, k, Without(k.ready, p), k.ready);
      OwnsQueueEdit(t, t', asl.semdTable[..], asl.act, asl.queues, k.ready);
      k := k.(ready := Without(k.ready, p));
    }

    /** outChild(p), if p has a parent. */
    method LeaveParent(p: int)
      requires Valid() && Forest(k.tree) && IsPid(k, p) && p !in k.free && |k.tree.kids| == |k.tree.prnt| == k.maxProc
      requires k.tree.prnt[p] != NIL ==> IsPid(k, k.tree.prnt[p]) && k.tree.prnt[p] !in k.free
      modifies this`k, pcbs.pcbTable
      ensures Valid() && k == old(k).(tree := Detach(old(k).tree, p))
    {
      hide Queues, Linked, Increasing, Partition, Owns, Apart, NoneEmpty, Ring, Chain, SemFields, TreeEdit;
      hide ListsDistinct, EdgesDown, EdgesUp, Born, SiblingLinks;
      ghost var t, tr := pcbs.pcbTable[..], Detach(k.tree, p);
      assert t[p] == pcbs.pcbTable[p];
      if pcbs.pcbTable[p].prnt != NIL {
        var r := pcbs.OutChild(p, k.tree, k.free);
        ghost var t' := pcbs.pcbTable[..];
        OwnsTreeEdit(t, t', asl.semdTable[..], asl.act, asl.queues);
        TreeShape(t, t', readyQueue, pcbs.pcbFree_h, k, tr);
        QueuesTree(k, tr);
        k := k.(tree := tr);
      }
    }

    /** freePcb(p). */
    method GiveBack(p: int)
      requires Valid() && IsPid(k, p) && p !in k.free && p !in k.ready
      requires forall a :: a in k.blocked ==> p !in k.blocked[a]
      modifies this`k, pcbs, pcbs.pcbTable
      ensures Valid() && k == old(k).(free := [p] + old(k).free)
    {
      hide Queues, Linked, Increasing, Partition, Owns, Apart, NoneEmpty, Ring, Chain, TreeLinks, SemFields;
      ghost var t, freeH := pcbs.pcbTable[..], pcbs.pcbFree_h;
      FreeQueues(k, p);
      pcbs.FreePcb(p, k.free);
      ghost var t' := pcbs.pcbTable[..];
      OwnsPcbEdit(t, t', asl.semdTable[..], asl.act, asl.queues, p, t[p].(next := freeH));
      FreeShape(t, t', readyQueue, freeH, pcbs.pcbFree_h, k, p);
      k := k.(free := [p] + k.free);
    }

    /** syscallHandler's case for SYS2: the running process ends and another is dispatched. */
    method TerminateCurrent() returns (halted: bool)
      requires Valid() && Core(k) && k.status == Live && k.current != NIL && k.processCount >= 0
      modifies this, pcbs, pcbs.pcbTable, asl, asl.semdTable
      ensures halted <==> Step(old(k), EvTerminate).status == Halted && IsLive(old(k), old(k).current)
                          && Terminated(old(k), old(k).current).status == Halted
      ensures halted ==> status == Halted
      ensures !halted ==> Valid() && k == Step(old(k), EvTerminate)
    {
      hide Queues, Placed, Forest, FreeDetached, PcbShape, Linked, Increasing, Partition, Owns, Apart, NoneEmpty;
      hide Terminated, Schedule;
      CurrentLive(k);
      ghost var k0 := k;
      halted := SysTerminate(currentProcess);
      if !halted {
        TerminatedLive(k0, k0.current);
        Scheduler();
      }
    }

    // ----- interrupts.c -----

    /** handlePLTInterrupt: the running process goes to the back of the ready queue. */
    method HandlePLTInterrupt()
      requires Valid() && Core(k) && k.status == Live
      modifies this, pcbs.pcbTable
      ensures Valid() && k == Step(old(k), EvTimeSlice)
    {
      hide Queues, Placed, Forest, FreeDetached, PcbShape, Schedule, Linked, Increasing, Partition, Owns, Apart;
      hide NoneEmpty;
      if currentProcess != NIL {
        CurrentLive(k);
        CurrentUnqueued(k);
        MakeReady(currentProcess);
        CountedSame(k, k.(current := NIL));
        k := k.(current := NIL);
      }
      Scheduler();
    }

    /** handleIntervalTimerInterrupt: every clock waiter becomes ready and the clock semaphore is zero again. */
    method HandleIntervalTimerInterrupt()
      requires Valid() && Core(k) && k.status == Live
      modifies this, pcbs.pcbTable, asl, asl.semdTable
      ensures Valid() && k == Step(old(k), EvTick)
    {
      hide Queues, Placed, Forest, FreeDetached, PcbShape, Wake, Schedule, Linked, Increasing, Partition, Owns;
      hide Apart, NoneEmpty;
      SoftAddresses(k);
      ghost var k0 := k;
      var a := devBase + WORDLEN * NUM_DEVICES;
      var head := asl.HeadBlocked(a);
      HeadNotNil(k, a);
      while head != NIL
        invariant Valid() && ClockAddr(k0) == a
        invariant Drain(k, a) == Drain(k0, a)
        invariant head != NIL <==> a in k.blocked
        decreases Waiting(k, a)
        modifies this`k, this`readyQueue, pcbs.pcbTable, asl, asl.semdTable
      {
        WakeQueues(k, a);
        WakeKeeps(k, a);
        var p := WakeFirst(a);
        head := asl.HeadBlocked(a);
        HeadNotNil(k, a);
      }
      Write(a, 0);
      if currentProcess == NIL {
        Scheduler();
      }
    }

    /** handleDeviceInterrupt for the device that raised it. */
    method HandleDeviceInterrupt(line: int, dev: int)
      requires Valid() && Core(k) && k.status == Live && 3 <= line <= TERMINT && 0 <= dev < DEVPERINT
      modifies this, pcbs.pcbTable, asl, asl.semdTable
      ensures Valid() && k == Step(old(k), EvDevice(line, dev))
    {
      hide Queues, Placed, Forest, FreeDetached, PcbShape, Wake, Schedule, Linked, Increasing, Partition, Owns;
      hide Apart, NoneEmpty;
      SoftAddresses(k);
      var deviceIndex;
      if line == TERMINT {
        var isTransmitter := 1;
        deviceIndex := (4 * DEVPERINT) + (dev * 2) + isTransmitter;
      } else {
        deviceIndex := (line - 3) * DEVPERINT + dev;
      }
      var a := devBase + WORDLEN * deviceIndex;
      assert a == DevAddr(k, InterruptIndex(line, dev));
      Write(a, Read(a) + 1);
      if Read(a) <= 0 {
        WakeKeeps(k, a);
        var p := WakeFirst(a);
        if p != NIL {
          CountSoft(-1);
        } else {
          Forget(a);
        }
        if currentProcess == NIL {
          Scheduler();
        }
      } else if currentProcess == NIL {
        GoAstray();
      }
    }

    /** LDST(&(currentProcess->p_s)) with no current process. */
    method GoAstray()
      requires Valid()
      modifies this`status, this`k
      ensures Valid() && k == old(k).(status := Astray)
    {
      hide Queues, PcbShape, Linked, Increasing, Partition, Owns, Apart, NoneEmpty;
      CountedSame(k, k.(status := Astray));
      status := Astray;
      k := k.(status := Astray);
    }
  }

  /** Later-born processes are younger. */
  ghost function Youth(k: K, p: int): int {
    if 0 <= p < |k.tree.birth| then k.tree.now - k.tree.birth[p] else 0
  }

  lemma TerminatedLive(k: K, p: int)
    requires Core(k) && IsLive(k, p) && k.status == Live
    ensures Terminated(k, p).status == Halted || Terminated(k, p).status == Live
  {
    hide Queues, Placed, Forest, FreeDetached, Post, Prune;
    SubtreeLive(k, p);
    Shapes(k);
    ReapAllFree(k, Post(k.tree, p));
  }

  /** During boot: the pcbs from j on are still free. */
  ghost function Booting(devBase: int, maxProc: nat, j: nat, ready: seq<int>, pc: int, templates: seq<int>,
                         counted: set<int>, sem: map<int, int>): K
  {
    K(devBase, maxProc, Ids(j, maxProc), ready, map[], NIL, BareTree(maxProc), Nils(maxProc), sem, pc, 0, Live,
      templates, counted, map[])
  }

  lemma BareTreeFacts(n: nat)
    ensures Forest(BareTree(n)) && |BareTree(n).kids| == |BareTree(n).prnt| == n
    ensures forall p :: 0 <= p < n ==> BareTree(n).kids[p] == [] && BareTree(n).prnt[p] == NIL
  {
  }

  lemma BareFacts(devBase: int, maxProc: nat, sem: map<int, int>, t: seq<Pcb>, freeH: int)
    requires BootSetup(devBase, maxProc, 0, sem) && |t| == maxProc && Chain(t, freeH, Ids(0, maxProc))
    ensures var k := Booting(devBase, maxProc, 0, [], 0, [], {}, sem); Queues(k) && PcbShape(t, NIL, freeH, k)
  {
    IdsProps(0, maxProc);
    hide Ids;
  }

  lemma IdsHead(lo: nat, hi: nat)
    ensures lo < hi ==> Ids(lo, hi) != [] && Ids(lo, hi)[0] == lo && Ids(lo, hi)[1..] == Ids(lo + 1, hi)
  {
  }

  lemma {:induction false} IdsLast(lo: nat, hi: nat)
    requires lo <= hi
    ensures Ids(lo, hi) + [hi] == Ids(lo, hi + 1)
    decreases hi - lo
  {
    if lo < hi {
      IdsLast(lo + 1, hi);
    }
  }

  lemma CurrentUnqueued(k: K)
    requires Core(k) && k.current != NIL
    ensures IsPid(k, k.current) && k.current !in k.free && k.current !in k.ready
    ensures forall a :: a in k.blocked ==> k.current !in k.blocked[a]
  {
    hide Forest, FreeDetached;
    assert NIL !in k.blocked;
  }

  lemma WakeKeeps(k: K, a: int)
    requires Queues(k)
    ensures a in k.blocked ==>
              Wake(k, a).current == k.current && Wake(k, a).softBlock == k.softBlock && Wake(k, a).devBase == k.devBase
              && Waiting(Wake(k, a), a) == Waiting(k, a) - 1
  {
  }

  lemma HeadNotNil(k: K, a: int)
    requires Queues(k)
    ensures a in k.blocked ==> k.blocked[a] != [] && k.blocked[a][0] != NIL
  {
    if a in k.blocked {
      assert k.blocked[a][0] in k.blocked[a];
    }
  }
}
