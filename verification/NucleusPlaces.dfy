/** Every nucleus step keeps every pcb in exactly one place, and the process tree a forest. */
module NucleusPlaces {
  import opened Sequences
  import opened ProcessTree
  import opened NucleusState

  ghost predicate Places(k: K) { Queues(k) && Placed(k) }

  // ----- queue steps -----

  /** Core says nothing about semaphore values, counters or history. */
  lemma CoreSame(k: K, k1: K)
    requires Core(k)
    requires k1 == k.(sem := k1.sem, softBlock := k1.softBlock, processCount := k1.processCount, status := k1.status,
                      counted := k1.counted, orphans := k1.orphans)
    ensures Core(k1)
  {
  }

  lemma SchedulePlaces(k: K)
    requires Places(k) && k.current == NIL
    ensures Places(Schedule(k))
  {
    if k.ready != [] {
      TailProps(k.ready);
    }
  }

  lemma BlockQueues(k: K, a: int)
    requires Places(k) && k.current != NIL && 0 < a < MAXINT
    ensures Queues(BlockCurrent(k, a))
  {
    AppendProps(if a in k.blocked then k.blocked[a] else [], k.current);
  }

  lemma BlockPlaces(k: K, a: int)
    requires Places(k) && k.current != NIL && 0 < a < MAXINT
    ensures Places(BlockCurrent(k, a))
  {
    BlockQueues(k, a);
    AppendProps(if a in k.blocked then k.blocked[a] else [], k.current);
  }

  lemma WakePlaces(k: K, a: int)
    requires Places(k) && a in k.blocked
    ensures Places(Wake(k, a))
  {
    TailProps(k.blocked[a]);
    AppendProps(k.ready, k.blocked[a][0]);
    WakeQueues(k, a);
  }

  lemma TimeSlicePlaces(k: K)
    requires Places(k)
    ensures Places(TimeSlice(k))
  {
    if k.current != NIL {
      AppendProps(k.ready, k.current);
      SchedulePlaces(k.(ready := k.ready + [k.current], current := NIL));
    } else {
      SchedulePlaces(k);
    }
  }

  lemma CreatedPlaces(k: K)
    requires Core(k) && k.free != [] && k.current != NIL
    ensures Places(Created(k))
  {
    TailProps(k.free);
    AppendProps(k.ready, k.free[0]);
  }

  lemma UnblockQueues(k: K, x: int)
    requires Queues(k) && IsPid(k, x)
    ensures Queues(Unblock(k, x))
  {
    var a := k.semAdd[x];
    if a in k.blocked {
      WithoutProps(k.blocked[a], x);
    }
  }

  lemma QueuesWithout(k: K, k1: K, x: int)
    requires Queues(k) && IsPid(k, x) && x !in k.free && x !in k1.ready && k1.free == [x] + k.free
    requires k1.(free := k.free, ready := k.ready, tree := k.tree, processCount := k.processCount, current := k.current,
                 counted := k.counted) == k
    requires |k1.tree.kids| == k.maxProc && Distinct(k1.ready) && forall p :: p in k1.ready ==> p in k.ready
    requires forall a :: a in k.blocked ==> x !in k.blocked[a]
    ensures Queues(k1)
  {
    ConsProps(x, k.free);
  }

  lemma ReapQueues(k: K, x: int)
    requires Queues(k) && IsPid(k, x) && x !in k.free
    ensures Queues(Reap(k, x))
  {
    UnblockQueues(k, x);
    WithoutProps(k.ready, x);
    UnblockRemoves(k, x);
    QueuesWithout(Unblock(k, x), Reap(k, x), x);
  }

  /** After Unblock, x is in no semaphore queue; nobody else moved. */
  lemma UnblockRemoves(k: K, x: int)
    requires Queues(k) && IsPid(k, x)
    ensures forall a :: a in Unblock(k, x).blocked ==> x !in Unblock(k, x).blocked[a] && a in k.blocked
    ensures forall a, p :: a in Unblock(k, x).blocked && p in Unblock(k, x).blocked[a] ==> p in k.blocked[a]
    ensures forall a, p :: a in k.blocked && p in k.blocked[a] && p != x ==>
              a in Unblock(k, x).blocked && p in Unblock(k, x).blocked[a]
  {
    var a := k.semAdd[x];
    if a in k.blocked {
      WithoutProps(k.blocked[a], x);
    }
  }

  /** What is left is well placed when x, and only x, moved to the free list. */
  lemma PlacedWithout(k: K, k1: K, x: int)
    requires Places(k) && IsPid(k, x) && x !in k.free && x !in k.templates
    requires k1.maxProc == k.maxProc && k1.semAdd == k.semAdd && k1.templates == k.templates
    requires k1.current == if k.current == x then NIL else k.current
    requires forall p :: p in k1.free <==> p == x || p in k.free
    requires forall p :: p in k1.ready <==> p in k.ready && p != x
    requires forall a, p :: a in k.blocked && p in k.blocked[a] && p != x ==> a in k1.blocked && p in k1.blocked[a]
    ensures Placed(k1)
  {
  }

  lemma ReapPlaces(k: K, x: int)
    requires Places(k) && IsPid(k, x) && x !in k.free && x !in k.templates
    ensures Places(Reap(k, x))
  {
    ReapQueues(k, x);
    WithoutProps(k.ready, x);
    UnblockRemoves(k, x);
    PlacedWithout(k, Reap(k, x), x);
  }

  // ----- whole subtrees -----

  lemma UnblockKeeps(k: K, x: int)
    requires |k.semAdd| == k.maxProc && IsPid(k, x)
    ensures var k1 := Unblock(k, x);
            k1 == k.(softBlock := k1.softBlock, orphans := k1.orphans, sem := k1.sem, blocked := k1.blocked)
  {
    hide Without, Requeued, IsDevice;
  }

  /** Reaping puts the processes on the free list, last reaped first. */
  lemma {:induction false} ReapAllFree(k: K, ps: seq<int>)
    requires |k.semAdd| == k.maxProc && Within(ps, k.maxProc)
    ensures ReapAll(k, ps).free == Reversed(ps) + k.free
    ensures ReapAll(k, ps).templates == k.templates
    ensures ReapAll(k, ps).processCount == k.processCount - |ps| && ReapAll(k, ps).status == k.status
  {
    if ps != [] {
      var n := |ps| - 1;
      var x, r := ps[n], Reversed(ps[..n]);
      PrefixWithin(ps, k.maxProc, n);
      ReapAllFree(k, ps[..n]);
      ReversedAppend(ps[..n], x);
      assert ps == ps[..n] + [x];
      UnblockKeeps(ReapAll(k, ps[..n]), x);
      hide Unblock, Without, Reversed;
      assert [x] + (r + k.free) == ([x] + r) + k.free;
    }
  }

  lemma {:induction false} ReapAllPlaces(k: K, ps: seq<int>)
    requires Places(k) && Distinct(ps) && forall x :: x in ps ==> IsLive(k, x)
    ensures Within(ps, k.maxProc) && Places(ReapAll(k, ps))
    ensures forall x :: x in ReapAll(k, ps).free <==> x in ps || x in k.free
  {
    if ps != [] {
      var n := |ps| - 1;
      var x := ps[n];
      assert ps == ps[..n] + [x];
      assert x in ps && x !in ps[..n];
      ReapAllPlaces(k, ps[..n]);
      ReapAllFree(k, ps[..n]);
      ReapPlaces(ReapAll(k, ps[..n]), x);
      ConsProps(x, ReapAll(k, ps[..n]).free);
    }
  }

  lemma Shapes(k: K)
    requires Core(k)
    ensures |k.semAdd| == |k.tree.kids| == |k.tree.prnt| == |k.tree.birth| == k.maxProc
  {
  }

  lemma CurrentLive(k: K)
    requires Core(k) && k.current != NIL
    ensures IsLive(k, k.current)
  {
  }

  lemma SoftAddresses(k: K)
    requires Core(k)
    ensures 0 < ClockAddr(k) < MAXINT
    ensures forall i {:trigger DevAddr(k, i)} :: 0 <= i < NUM_DEVICES ==>
              0 < DevAddr(k, i) < MAXINT && IsDevice(k, DevAddr(k, i))
  {
  }

  /** Everything below a live process is live. */
  lemma SubtreeLive(k: K, p: int)
    requires Core(k) && IsLive(k, p)
    ensures Within(Post(k.tree, p), k.maxProc) && Distinct(Post(k.tree, p))
    ensures forall x :: x in Post(k.tree, p) ==> IsLive(k, x)
  {
    PostExact(k.tree, p);
    forall x | x in Post(k.tree, p) ensures IsLive(k, x) {
      assert Descends(k.tree, x, p);
    }
  }

  lemma TerminatedCore(k: K, p: int)
    requires Core(k) && IsLive(k, p)
    ensures Core(Terminated(k, p))
  {
    hide Queues, Placed, Forest, FreeDetached, Descends, Post;
    Shapes(k);
    var ps := Post(k.tree, p);
    SubtreeLive(k, p);
    if k.processCount > |ps| {
      ReapAllPlaces(k, ps);
      ReapAllFree(k, ps);
      PruneForest(k.tree, p);
      PrunedDetached(k, p, Terminated(k, p));
      WithTree(ReapAll(k, ps), Prune(k.tree, p));
    } else {
      CoreSame(k, Terminated(k, p));
    }
  }

  /** The queues do not look at the tree. */
  lemma WithTree(k: K, t: Tree)
    requires Places(k) && |t.kids| == k.maxProc && Forest(t) && FreeDetached(k.(tree := t))
    ensures Core(k.(tree := t))
  {
  }

  lemma PrunedDetached(k: K, p: int, k1: K)
    requires Core(k) && IsLive(k, p) && k1.tree == Prune(k.tree, p)
    requires k1.maxProc == k.maxProc && k1.templates == k.templates
    requires forall x :: x in k1.free <==> x in Post(k.tree, p) || x in k.free
    ensures FreeDetached(k1)
  {
    hide Queues, Placed, Forest, Descends, Post, KidsAfter, PrntAfter;
    Shapes(k);
    PruneAt(k.tree, p);
    forall x | (x in k1.free || x in k1.templates) && IsPid(k1, x)
      ensures k1.tree.kids[x] == [] && k1.tree.prnt[x] == NIL
    {
      if x !in Post(k.tree, p) {
        assert k.tree.kids[x] == [];
      }
    }
  }

  lemma CreatedCore(k: K)
    requires Core(k) && k.free != [] && k.current != NIL
    ensures Core(Created(k))
  {
    CreatedPlaces(k);
    TailProps(k.free);
    AdoptForest(k.tree, k.current, k.free[0]);
  }

  // ----- the clock tick -----

  lemma {:induction false} DrainCore(k: K, a: int)
    requires Core(k)
    ensures Core(Drain(k, a))
    decreases Waiting(k, a)
  {
    if a in k.blocked {
      WakePlaces(k, a);
      DrainCore(Wake(k, a), a);
    }
  }

  /**
   * The tick makes every waiter of a ready, in the order they blocked, and leaves the other queues as they were.
   */
  lemma {:induction false} DrainAll(k: K, a: int)
    requires Queues(k)
    ensures var k1 := Drain(k, a);
            && k1.ready == k.ready + (if a in k.blocked then k.blocked[a] else [])
            && k1.blocked == k.blocked - {a}
            && k1.sem == k.sem && k1.softBlock == k.softBlock && k1.processCount == k.processCount
            && k1.current == k.current && k1.free == k.free && k1.status == k.status
    decreases Waiting(k, a)
  {
    if a in k.blocked {
      WakeQueues(k, a);
      var q := k.blocked[a];
      DrainAll(Wake(k, a), a);
      assert q == [q[0]] + q[1..];
      assert k.ready + [q[0]] + q[1..] == k.ready + q;
    } else {
      assert k.blocked - {a} == k.blocked;
    }
  }

  // ----- every step -----

  lemma PasserenCore(k: K, a: int)
    requires Core(k) && k.current != NIL && 0 < a < MAXINT
    ensures Core(Passeren(k, a))
  {
    var k1 := SetSem(k, a, Val(k, a) - 1);
    CoreSame(k, k1);
    if Val(k1, a) < 0 {
      BlockPlaces(k1, a);
      SchedulePlaces(BlockCurrent(k1, a));
    }
  }

  lemma WaitSoftCore(k: K, a: int)
    requires Core(k) && k.current != NIL && 0 < a < MAXINT
    ensures Core(WaitSoft(k, a))
  {
    hide Queues, Placed, Forest, FreeDetached;
    CoreSame(k, k.(softBlock := k.softBlock + 1));
    PasserenCore(k.(softBlock := k.softBlock + 1), a);
  }

  lemma WakeCore(k: K, a: int)
    requires Core(k) && a in k.blocked
    ensures Core(Wake(k, a))
  {
    WakePlaces(k, a);
  }

  lemma ScheduleCore(k: K)
    requires Core(k) && k.current == NIL
    ensures Core(Schedule(k))
  {
    SchedulePlaces(k);
  }

  lemma TimeSliceCore(k: K)
    requires Core(k)
    ensures Core(TimeSlice(k))
  {
    TimeSlicePlaces(k);
  }

  lemma VerhogenCore(k: K, a: int)
    requires Core(k)
    ensures Core(Verhogen(k, a))
  {
    hide Queues, Placed, Forest, FreeDetached;
    var k1 := SetSem(k, a, Val(k, a) + 1);
    CoreSame(k, k1);
    if Val(k1, a) <= 0 {
      if a in k1.blocked {
        WakeCore(k1, a);
      } else {
        CoreSame(k1, Absorb(k1, a));
      }
    }
  }

  lemma ResumeCore(k: K)
    requires Core(k)
    ensures Core(Resume(k))
  {
    hide Queues, Placed, Forest, FreeDetached;
    if k.current == NIL {
      ScheduleCore(k);
    }
  }

  lemma DeviceCore(k: K, a: int)
    requires Core(k)
    ensures Core(DeviceInterrupt(k, a))
  {
    hide Queues, Placed, Forest, FreeDetached;
    var k1 := SetSem(k, a, Val(k, a) + 1);
    CoreSame(k, k1);
    if Val(k1, a) <= 0 {
      var k2 := if a in k1.blocked then Wake(k1, a).(softBlock := k1.softBlock - 1) else Absorb(k1, a);
      if a in k1.blocked {
        WakeCore(k1, a);
        CoreSame(Wake(k1, a), k2);
      } else {
        CoreSame(k1, k2);
      }
      ResumeCore(k2);
    } else {
      CoreSame(k1, k1.(status := Astray));
    }
  }

  lemma TickCore(k: K)
    requires Core(k)
    ensures Core(Tick(k))
  {
    hide Queues, Placed, Forest, FreeDetached;
    var k1 := Drain(k, ClockAddr(k));
    DrainCore(k, ClockAddr(k));
    CoreSame(k1, SetSem(k1, ClockAddr(k), 0));
    ResumeCore(SetSem(k1, ClockAddr(k), 0));
  }

  lemma TerminateCore(k: K)
    requires Core(k) && k.current != NIL
    ensures Core(Terminate(k))
  {
    hide Queues, Placed, Forest, FreeDetached;
    CurrentLive(k);
    TerminatedCore(k, k.current);
    var k1 := Terminated(k, k.current);
    if k1.status != Halted {
      TerminatedCurrent(k);
      ScheduleCore(k1);
    }
  }

  /** A process that terminates itself is no longer current. */
  lemma TerminatedCurrent(k: K)
    requires Core(k) && k.current != NIL && Terminated(k, k.current).status != Halted
    ensures Terminated(k, k.current).current == NIL
  {
    var ps := Post(k.tree, k.current);
    SubtreeLive(k, k.current);
    ReapAllPlaces(k, ps);
    assert k.current in ps;
    assert k.current in ReapAll(k, ps).free;
    ReapAllCurrent(k, ps);
  }

  lemma {:induction false} ReapAllCurrent(k: K, ps: seq<int>)
    requires |k.semAdd| == k.maxProc && Within(ps, k.maxProc)
    ensures ReapAll(k, ps).current == if k.current in ps then NIL else k.current
  {
    if ps != [] {
      var n := |ps| - 1;
      PrefixWithin(ps, k.maxProc, n);
      assert ps == ps[..n] + [ps[n]];
      ReapAllCurrent(k, ps[..n]);
    }
  }

  /** Core is an invariant: every enabled event keeps it. */
  lemma StepCore(k: K, e: Event)
    requires Core(k) && Enabled(k, e)
    ensures Core(Step(k, e))
  {
    hide Queues, Placed, Forest, FreeDetached;
    SoftAddresses(k);
    match e
    case EvCreate => if k.free != [] { CreatedCore(k); }
    case EvTerminate => TerminateCore(k);
    case EvPasseren(a) => PasserenCore(k, a);
    case EvVerhogen(a) => VerhogenCore(k, a);
    case EvWaitIO(line, dev, term) => WaitSoftCore(k, DevAddr(k, WaitIndex(line, dev, term)));
    case EvWaitClock => WaitSoftCore(k, ClockAddr(k));
    case EvDevice(line, dev) => DeviceCore(k, DevAddr(k, InterruptIndex(line, dev)));
    case EvTick => TickCore(k);
    case EvTimeSlice => TimeSliceCore(k);
  }
}
