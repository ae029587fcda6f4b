/**
 * The laws of the counters: semaphore values against waiters, softBlockCount against soft-blocked processes and
 * processCount against counted processes, kept by every step.
 */
module NucleusLaws {
  import opened Sequences
  import opened ProcessTree
  import opened NucleusState
  import opened NucleusPlaces

  // ----- semaphores -----

  lemma SemLawSame(k: K, k1: K)
    requires SemLaw(k) && k1.devBase == k.devBase && k1.sem == k.sem && k1.blocked == k.blocked
    requires k1.orphans == k.orphans
    ensures SemLaw(k1)
  {
    forall a ensures SemLawAt(k1, a) {
      assert SemLawAt(k, a) by { assert Val(k, a) == Val(k1, a); }
    }
  }

  lemma PasserenSemLaw(k: K, a: int)
    requires Queues(k) && IsPid(k, k.current) && SemLaw(k)
    ensures SemLaw(Passeren(k, a))
  {
    var k1 := SetSem(k, a, Val(k, a) - 1);
    var k2 := if Val(k1, a) < 0 then BlockCurrent(k1, a) else k1;
    forall b ensures SemLawAt(k2, b) {
      assert SemLawAt(k, b) by { assert Val(k, b) == Val(k, b); }
    }
    SemLawSame(k2, Passeren(k, a));
  }

  /** One unit on a, and the step that answers it. */
  lemma SignalSemLaw(k: K, a: int)
    requires Queues(k) && SemLaw(k)
    ensures SemLaw(Verhogen(k, a))
  {
    var k1 := SetSem(k, a, Val(k, a) + 1);
    var k2 := Verhogen(k, a);
    forall b ensures SemLawAt(k2, b) {
      assert SemLawAt(k, b) by { assert Val(k, b) == Val(k, b); }
    }
  }

  lemma DeviceSemLaw(k: K, a: int)
    requires Queues(k) && SemLaw(k)
    ensures SemLaw(DeviceInterrupt(k, a))
  {
    hide Queues;
    SignalSemLaw(k, a);
    SemLawSame(Verhogen(k, a), DeviceInterrupt(k, a));
  }

  lemma ReapSemLawAt(k: K, x: int, b: int)
    requires Places(k) && IsLive(k, x) && SemLawAt(k, b)
    ensures SemLawAt(Reap(k, x), b)
  {
    var a := k.semAdd[x];
    if a in k.blocked {
      WithoutProps(k.blocked[a], x);
    }
    assert a == NIL || (a in k.blocked && x in k.blocked[a]);
    assert a == NIL ==> !IsDevice(k, a);
    hide Queues, Placed, Without;
  }

  lemma ReapSemLaw(k: K, x: int)
    requires Places(k) && IsLive(k, x) && SemLaw(k)
    ensures SemLaw(Reap(k, x))
  {
    assert |k.semAdd| == k.maxProc;
    hide Queues, Placed, Reap;
    forall b ensures SemLawAt(Reap(k, x), b) {
      assert SemLawAt(k, b) by { assert Val(k, b) == Val(k, b); }
      ReapSemLawAt(k, x, b);
    }
  }

  lemma {:induction false} ReapAllSemLaw(k: K, ps: seq<int>)
    requires Places(k) && SemLaw(k) && Distinct(ps) && forall x :: x in ps ==> IsLive(k, x)
    ensures Within(ps, k.maxProc) && SemLaw(ReapAll(k, ps))
  {
    ReapAllPlaces(k, ps);
    if ps != [] {
      var n := |ps| - 1;
      assert ps == ps[..n] + [ps[n]];
      assert ps[n] in ps && ps[n] !in ps[..n];
      hide Queues, Placed, Reap, SemLaw;
      ReapAllPlaces(k, ps[..n]);
      ReapAllSemLaw(k, ps[..n]);
      ReapAllFree(k, ps[..n]);
      ReapSemLaw(ReapAll(k, ps[..n]), ps[n]);
    }
  }

  lemma TickSemLaw(k: K)
    requires Queues(k) && SemLaw(k)
    ensures SemLaw(Tick(k))
  {
    var a := ClockAddr(k);
    DrainAll(k, a);
    DrainHistory(k, a);
    var k1 := SetSem(Drain(k, a), a, 0);
    assert SemLawAt(k, a) by { assert Val(k, a) == Val(k, a); }
    forall b ensures SemLawAt(k1, b) {
      assert SemLawAt(k, b) by { assert Val(k, b) == Val(k, b); }
    }
    SemLawSame(k1, Tick(k));
  }

  lemma {:induction false} DrainHistory(k: K, a: int)
    requires Queues(k)
    ensures Drain(k, a).orphans == k.orphans && Drain(k, a).devBase == k.devBase && Drain(k, a).counted == k.counted
    ensures Drain(k, a).tree == k.tree && Drain(k, a).maxProc == k.maxProc && Drain(k, a).templates == k.templates
    decreases Waiting(k, a)
  {
    if a in k.blocked {
      WakeQueues(k, a);
      DrainHistory(Wake(k, a), a);
    }
  }

  lemma TerminateSemLaw(k: K)
    requires Core(k) && SemLaw(k) && IsLive(k, k.current)
    ensures SemLaw(Terminate(k))
  {
    hide Queues, Placed, FreeDetached, SemLaw;
    Shapes(k);
    var ps := Post(k.tree, k.current);
    SubtreeLive(k, k.current);
    if k.processCount > |ps| {
      ReapAllSemLaw(k, ps);
      ReapAllBase(k, ps);
      SemLawSame(ReapAll(k, ps), Terminate(k));
    } else {
      SemLawSame(k, Terminate(k));
    }
  }

  lemma {:induction false} ReapAllBase(k: K, ps: seq<int>)
    requires |k.semAdd| == k.maxProc && Within(ps, k.maxProc)
    ensures ReapAll(k, ps).devBase == k.devBase
  {
    if ps != [] {
      PrefixWithin(ps, k.maxProc, |ps| - 1);
      ReapAllBase(k, ps[..|ps| - 1]);
    }
  }

  /**
   * The semaphore law is an invariant of every event: a semaphore's deficit is the number of its waiters, plus, for
   * a device, the waiters that were terminated and whose interrupt is still to come.
   */
  lemma StepSemLaw(k: K, e: Event)
    requires Core(k) && SemLaw(k) && Enabled(k, e)
    ensures SemLaw(Step(k, e))
  {
    hide Queues, Placed, Forest, FreeDetached, SemLaw;
    if k.current != NIL { CurrentLive(k); }
    CoreSame(k, k.(softBlock := k.softBlock + 1));
    match e
    case EvCreate => SemLawSame(k, Create(k));
    case EvTerminate => TerminateSemLaw(k);
    case EvPasseren(a) => PasserenSemLaw(k, a);
    case EvVerhogen(a) => SignalSemLaw(k, a);
    case EvWaitIO(line, dev, term) =>
      SemLawSame(k, k.(softBlock := k.softBlock + 1));
      PasserenSemLaw(k.(softBlock := k.softBlock + 1), DevAddr(k, WaitIndex(line, dev, term)));
    case EvWaitClock =>
      SemLawSame(k, k.(softBlock := k.softBlock + 1));
      PasserenSemLaw(k.(softBlock := k.softBlock + 1), ClockAddr(k));
    case EvDevice(line, dev) => DeviceSemLaw(k, DevAddr(k, InterruptIndex(line, dev)));
    case EvTick => TickSemLaw(k);
    case EvTimeSlice => SemLawSame(k, TimeSlice(k));
  }

  // ----- softBlockCount -----

  /** How far softBlockCount is above the number of soft-blocked processes. */
  ghost function Slack(k: K): int
    requires |k.semAdd| == k.maxProc
  {
    k.softBlock - |SoftBlocked(k)|
  }

  lemma SoftSame(k: K, k1: K)
    requires |k.semAdd| == k.maxProc && |k1.semAdd| == k1.maxProc == k.maxProc && k1.devBase == k.devBase
    requires forall p :: IsPid(k, p) ==>
               (p !in k.free && IsSoft(k, k.semAdd[p]) <==> p !in k1.free && IsSoft(k1, k1.semAdd[p]))
    ensures SoftBlocked(k1) == SoftBlocked(k)
  {
  }

  /** Exactly x stops being soft-blocked, or starts. */
  lemma SoftLess(k: K, k1: K, x: int)
    requires |k.semAdd| == k.maxProc && |k1.semAdd| == k1.maxProc == k.maxProc && k1.devBase == k.devBase && IsPid(k, x)
    requires x !in k.free && IsSoft(k, k.semAdd[x]) && (x in k1.free || !IsSoft(k1, k1.semAdd[x]))
    requires forall p :: IsPid(k, p) && p != x ==>
               (p !in k.free && IsSoft(k, k.semAdd[p]) <==> p !in k1.free && IsSoft(k1, k1.semAdd[p]))
    ensures SoftBlocked(k) == SoftBlocked(k1) + {x} && |SoftBlocked(k)| == |SoftBlocked(k1)| + 1
  {
    assert SoftBlocked(k) == SoftBlocked(k1) + {x};
  }

  /** SYS3 leaves the soft-blocked processes alone unless it blocks on a device or the clock. */
  lemma PasserenSoft(k: K, a: int)
    requires Core(k) && k.current != NIL && 0 < a < MAXINT
    ensures |Passeren(k, a).semAdd| == Passeren(k, a).maxProc
    ensures |SoftBlocked(Passeren(k, a))|
            == |SoftBlocked(k)| + if Val(k, a) - 1 < 0 && IsSoft(k, a) then 1 else 0
  {
    hide Forest, FreeDetached;
    var k1 := Passeren(k, a);
    if Val(k, a) - 1 < 0 && IsSoft(k, a) {
      SoftLess(k1, k, k.current);
    } else {
      SoftSame(k, k1);
    }
  }

  lemma WakeSoft(k: K, a: int)
    requires Queues(k) && a in k.blocked
    ensures |Wake(k, a).semAdd| == Wake(k, a).maxProc
    ensures |SoftBlocked(Wake(k, a))| == |SoftBlocked(k)| - if IsSoft(k, a) then 1 else 0
  {
    var p := k.blocked[a][0];
    assert p in k.blocked[a];
    if IsSoft(k, a) {
      SoftLess(k, Wake(k, a), p);
    } else {
      SoftSame(k, Wake(k, a));
    }
  }

  lemma ReapFields(k: K, x: int)
    requires |k.semAdd| == k.maxProc && IsPid(k, x) && 0 < k.devBase
    ensures var k1 := Reap(k, x);
            && k1.semAdd == k.semAdd && k1.maxProc == k.maxProc && k1.devBase == k.devBase
            && (forall p :: p in k1.free <==> p == x || p in k.free)
            && k1.softBlock == k.softBlock - if IsDevice(k, k.semAdd[x]) then 1 else 0
  {
  }

  lemma ReapSoft(k: K, x: int)
    requires Queues(k) && IsPid(k, x) && x !in k.free
    ensures |SoftBlocked(Reap(k, x))| == |SoftBlocked(k)| - if IsSoft(k, k.semAdd[x]) then 1 else 0
    ensures Reap(k, x).softBlock == k.softBlock - if IsDevice(k, k.semAdd[x]) then 1 else 0
  {
    var k1 := Reap(k, x);
    ReapFields(k, x);
    hide Queues, Reap;
    if IsSoft(k, k.semAdd[x]) {
      SoftLess(k, k1, x);
    } else {
      SoftSame(k, k1);
    }
  }

  /** How many of ps wait for the clock. */
  function ClockWaiters(k: K, ps: seq<int>): nat {
    if ps == [] then 0
    else
      var x := ps[|ps| - 1];
      ClockWaiters(k, ps[..|ps| - 1]) + if 0 <= x < |k.semAdd| && k.semAdd[x] == ClockAddr(k) then 1 else 0
  }

  /** Reaping a clock waiter leaves softBlockCount one too high; reaping anybody else does not. */
  lemma ReapSlack(k: K, x: int)
    requires Queues(k) && IsPid(k, x) && x !in k.free
    ensures |Reap(k, x).semAdd| == Reap(k, x).maxProc
    ensures Slack(Reap(k, x)) == Slack(k) + if k.semAdd[x] == ClockAddr(k) then 1 else 0
  {
    ReapSoft(k, x);
    hide Queues, SoftBlocked;
  }

  lemma PrefixLive(k: K, ps: seq<int>)
    requires Distinct(ps) && ps != [] && forall x :: x in ps ==> IsLive(k, x)
    ensures var n := |ps| - 1;
            && Within(ps, k.maxProc) && Within(ps[..n], k.maxProc) && Distinct(ps[..n]) && ps[n] !in ps[..n]
            && IsLive(k, ps[n]) && forall y :: y in ps[..n] ==> IsLive(k, y)
  {
    var n := |ps| - 1;
    forall y | y in ps[..n] ensures y in ps && y != ps[n] {
      var i :| 0 <= i < n && ps[i] == y;
    }
    assert ps[n] in ps;
  }

  /** Reaping a list of live processes ends with reaping its last one. */
  lemma ReapAllLast(k: K, ps: seq<int>)
    requires Places(k) && Distinct(ps) && ps != [] && forall x :: x in ps ==> IsLive(k, x)
    ensures Within(ps, k.maxProc) && Within(ps[..|ps| - 1], k.maxProc) && Distinct(ps[..|ps| - 1])
    ensures |k.semAdd| == k.maxProc && IsLive(k, ps[|ps| - 1])
    ensures forall y :: y in ps[..|ps| - 1] ==> IsLive(k, y)
    ensures var u, x := ReapAll(k, ps[..|ps| - 1]), ps[|ps| - 1];
            && ReapAll(k, ps) == Reap(u, x)
            && Places(u) && IsLive(u, x) && u.semAdd == k.semAdd && u.devBase == k.devBase
  {
    PrefixLive(k, ps);
    hide Distinct, Within, Placed, Reap;
    ReapAllPlaces(k, ps[..|ps| - 1]);
    ReapAllFree(k, ps[..|ps| - 1]);
    ReapAllBase(k, ps[..|ps| - 1]);
  }

  lemma {:induction false} ReapAllSoft(k: K, ps: seq<int>)
    requires Places(k) && Distinct(ps) && forall x :: x in ps ==> IsLive(k, x)
    ensures Within(ps, k.maxProc) && Slack(ReapAll(k, ps)) == Slack(k) + ClockWaiters(k, ps)
  {
    if ps != [] {
      ReapAllLast(k, ps);
      assert Queues(ReapAll(k, ps[..|ps| - 1]));
      hide Distinct, Within, Queues, Placed, Reap, ReapAll, SoftBlocked, Slack;
      ReapAllSoft(k, ps[..|ps| - 1]);
      ReapSlack(ReapAll(k, ps[..|ps| - 1]), ps[|ps| - 1]);
    }
  }

  lemma {:induction false} DrainSoft(k: K, a: int)
    requires Queues(k)
    ensures |Drain(k, a).semAdd| == Drain(k, a).maxProc
    ensures |SoftBlocked(Drain(k, a))| == |SoftBlocked(k)| - if IsSoft(k, a) then Waiting(k, a) else 0
    decreases Waiting(k, a)
  {
    if a in k.blocked {
      WakeQueues(k, a);
      WakeSoft(k, a);
      DrainSoft(Wake(k, a), a);
    }
  }

  /**
   * A tick wakes all clock waiters without touching softBlockCount, so the count drifts above the number of
   * soft-blocked processes by exactly the number of waiters it woke.
   */
  lemma TickSlack(k: K)
    requires Core(k)
    ensures |Tick(k).semAdd| == Tick(k).maxProc
    ensures Slack(Tick(k)) == Slack(k) + Waiting(k, ClockAddr(k))
  {
    hide Placed, Forest, FreeDetached;
    var a := ClockAddr(k);
    DrainSoft(k, a);
    DrainAll(k, a);
    DrainHistory(k, a);
    SoftSame(Drain(k, a), Tick(k));
  }

  /** The callers of SYS3 pass ordinary semaphores; the device semaphores are reached through SYS5 and SYS7. */
  predicate Disciplined(k: K, e: Event) { e.EvPasseren? ==> !IsSoft(k, e.a) }

  /** What an event adds to softBlockCount beyond the processes that start waiting for a device or the clock. */
  ghost function Drift(k: K, e: Event): int
    requires Core(k) && Enabled(k, e)
  {
    match e
    case EvTick => Waiting(k, ClockAddr(k))
    case EvTerminate => CurrentLive(k); ClockWaiters(k, Post(k.tree, k.current))
    case EvPasseren(a) => if IsSoft(k, a) && Val(k, a) - 1 < 0 then -1 else 0
    case EvVerhogen(a) => if IsSoft(k, a) && Val(k, a) + 1 <= 0 && a in k.blocked then 1 else 0
    case EvWaitIO(line, dev, term) => if Val(k, DevAddr(k, WaitIndex(line, dev, term))) - 1 < 0 then 0 else 1
    case EvWaitClock => if Val(k, ClockAddr(k)) - 1 < 0 then 0 else 1
    case _ => 0
  }

  /** Only an undisciplined SYS3 lets softBlockCount fall behind. */
  lemma DriftsUp(k: K, e: Event)
    requires Core(k) && Enabled(k, e)
    ensures Drift(k, e) < 0 <==> !Disciplined(k, e) && Val(k, e.a) - 1 < 0
  {
    hide Queues, Placed, Forest, FreeDetached;
  }

  /**
   * The exact drift of every event: softBlockCount moves away from the number of soft-blocked processes by the waiters
   * a tick wakes, the clock waiters that are terminated, a SYS5 or SYS7 that need not wait, and a SYS3 or SYS4 on
   * one of their semaphores; by nothing else.
   */
  lemma StepSlack(k: K, e: Event)
    requires Core(k) && Enabled(k, e)
    ensures |k.semAdd| == k.maxProc && |Step(k, e).semAdd| == Step(k, e).maxProc
    ensures Step(k, e).status != Halted ==> Slack(Step(k, e)) == Slack(k) + Drift(k, e)
  {
    hide Queues, Placed, Forest, FreeDetached;
    SoftAddresses(k);
    Shapes(k);
    if k.current != NIL { CurrentLive(k); }
    match e
    case EvCreate => if k.free != [] { CreatedSoft(k); }
    case EvTerminate => TerminateSlack(k);
    case EvPasseren(a) => PasserenSoft(k, a);
    case EvVerhogen(a) => VerhogenSlack(k, a);
    case EvWaitIO(line, dev, term) => WaitSoftSlack(k, DevAddr(k, WaitIndex(line, dev, term)));
    case EvWaitClock => WaitSoftSlack(k, ClockAddr(k));
    case EvDevice(line, dev) => DeviceSlack(k, DevAddr(k, InterruptIndex(line, dev)));
    case EvTick => TickSlack(k);
    case EvTimeSlice => SoftSame(k, TimeSlice(k));
  }

  lemma CreatedSoft(k: K)
    requires Core(k) && k.free != [] && IsLive(k, k.current)
    ensures |Created(k).semAdd| == Created(k).maxProc && SoftBlocked(Created(k)) == SoftBlocked(k)
  {
    hide Placed, Forest, FreeDetached;
    TailProps(k.free);
    SoftSame(k, Created(k));
  }

  lemma TerminateSlack(k: K)
    requires Core(k) && IsLive(k, k.current)
    ensures |Terminate(k).semAdd| == Terminate(k).maxProc
    ensures Terminate(k).status != Halted ==> Slack(Terminate(k)) == Slack(k) + ClockWaiters(k, Post(k.tree, k.current))
  {
    hide Queues, Placed, Forest, FreeDetached, Post, Prune, ReapAll, SoftBlocked, ClockWaiters;
    Shapes(k);
    var ps := Post(k.tree, k.current);
    SubtreeLive(k, k.current);
    if k.processCount > |ps| {
      ReapAllSoft(k, ps);
      ReapAllBase(k, ps);
      SoftSame(ReapAll(k, ps), Terminate(k));
    }
  }

  lemma WaitSoftSlack(k: K, a: int)
    requires Core(k) && k.current != NIL && 0 < a < MAXINT
    ensures |WaitSoft(k, a).semAdd| == WaitSoft(k, a).maxProc
    ensures Slack(WaitSoft(k, a)) == Slack(k) + if Val(k, a) - 1 < 0 && IsSoft(k, a) then 0 else 1
  {
    hide Queues, Placed, Forest, FreeDetached;
    Shapes(k);
    var k1 := k.(softBlock := k.softBlock + 1);
    CoreSame(k, k1);
    PasserenSoft(k1, a);
    SoftSame(k, k1);
  }

  lemma VerhogenSlack(k: K, a: int)
    requires Core(k)
    ensures |Verhogen(k, a).semAdd| == Verhogen(k, a).maxProc
    ensures Slack(Verhogen(k, a)) == Slack(k) + if IsSoft(k, a) && Val(k, a) + 1 <= 0 && a in k.blocked then 1 else 0
  {
    hide Placed, Forest, FreeDetached, SoftBlocked;
    var k1 := SetSem(k, a, Val(k, a) + 1);
    SoftSame(k, k1);
    if Val(k1, a) <= 0 {
      if a in k1.blocked {
        WakeSoft(k1, a);
      } else {
        SoftSame(k1, Verhogen(k, a));
      }
    }
  }

  lemma DeviceSlack(k: K, a: int)
    requires Core(k) && IsDevice(k, a)
    ensures |DeviceInterrupt(k, a).semAdd| == DeviceInterrupt(k, a).maxProc && Slack(DeviceInterrupt(k, a)) == Slack(k)
  {
    hide Queues, Placed, Forest, FreeDetached, SoftBlocked;
    Shapes(k);
    var k1 := SetSem(k, a, Val(k, a) + 1);
    CoreSame(k, k1);
    SoftSame(k, k1);
    if Val(k1, a) <= 0 {
      if a in k1.blocked {
        WakeSoft(k1, a);
        SoftSame(Wake(k1, a), DeviceInterrupt(k, a));
      } else {
        SoftSame(k1, DeviceInterrupt(k, a));
      }
    } else {
      SoftSame(k1, DeviceInterrupt(k, a));
    }
  }

  // ----- processCount -----

  /** The counted processes are the only ones that end; the delay daemon, which is not counted, runs forever. */
  predicate EndsCounted(k: K, e: Event) { e.EvTerminate? ==> k.current in k.counted }

  lemma {:induction false} ReapAllCounted(k: K, ps: seq<int>)
    requires |k.semAdd| == k.maxProc && Within(ps, k.maxProc)
    ensures ReapAll(k, ps).counted == k.counted - Elems(ps)
  {
    if ps != [] {
      var n := |ps| - 1;
      PrefixWithin(ps, k.maxProc, n);
      assert ps == ps[..n] + [ps[n]];
      ReapAllCounted(k, ps[..n]);
      assert Elems(ps) == Elems(ps[..n]) + {ps[n]};
    }
  }

  lemma SubtreeCounted(k: K, p: int)
    requires Core(k) && IsLive(k, p) && CountLaw(k) && p in k.counted
    ensures forall x :: x in Post(k.tree, p) ==> x in k.counted
    ensures |Post(k.tree, p)| <= k.processCount
    ensures |Post(k.tree, p)| == k.processCount <==> k.counted == Elems(Post(k.tree, p))
    ensures |k.counted - Elems(Post(k.tree, p))| == k.processCount - |Post(k.tree, p)|
  {
    hide Queues, Placed, FreeDetached;
    Shapes(k);
    var ps := Post(k.tree, p);
    PostExact(k.tree, p);
    forall x | x in ps ensures x in k.counted {
      if x != p {
        assert Descends(k.tree, x, p);
        assert x in k.tree.kids[k.tree.prnt[x]];
      }
    }
    CardDistinct(ps);
    var rest := k.counted - Elems(ps);
    assert k.counted == Elems(ps) + rest;
    assert |k.counted| == |Elems(ps)| + |rest|;
  }

  /**
   * Terminating a counted process halts the machine exactly when no counted process survives, and otherwise lowers
   * processCount by the number of processes freed.
   */
  lemma TerminatedCount(k: K, p: int)
    requires Core(k) && IsLive(k, p) && CountLaw(k) && p in k.counted && k.status == Live
    ensures Terminated(k, p).status == Halted <==> k.counted == Elems(Post(k.tree, p))
    ensures Terminated(k, p).status != Halted ==>
              |Terminated(k, p).tree.kids| == Terminated(k, p).maxProc && CountLaw(Terminated(k, p))
              && Terminated(k, p).processCount == k.processCount - |Post(k.tree, p)| > 0
  {
    hide Queues, Placed, FreeDetached, Descends, Post;
    Shapes(k);
    var ps := Post(k.tree, p);
    SubtreeLive(k, p);
    SubtreeCounted(k, p);
    if k.processCount > |ps| {
      ReapAllFree(k, ps);
      ReapAllCounted(k, ps);
      ReapAllPlaces(k, ps);
      var k1 := Terminated(k, p);
      forall a, q | IsPid(k1, a) && q in k1.tree.kids[a] ensures q in k1.counted {
        PruneEdge(k.tree, p, a, q);
        PostExact(k.tree, p);
      }
    }
  }

  lemma CountSame(k: K, k1: K)
    requires |k.tree.kids| == k.maxProc && CountLaw(k)
    requires k1.maxProc == k.maxProc && k1.tree == k.tree && k1.free == k.free && k1.counted == k.counted
    requires k1.processCount == k.processCount
    ensures CountLaw(k1)
  {
  }

  lemma CreatedCount(k: K)
    requires Core(k) && CountLaw(k) && k.free != [] && k.current != NIL
    ensures |Created(k).tree.kids| == k.maxProc && CountLaw(Created(k))
  {
    CurrentLive(k);
    hide Placed, FreeDetached;
    TailProps(k.free);
    var k1 := Created(k);
    forall p, q | IsPid(k1, p) && q in k1.tree.kids[p] ensures q in k1.counted {
      if q != k.free[0] {
        assert q in k.tree.kids[p];
      }
    }
  }

  /** Only creation and termination touch the tree, the free list and processCount. */
  lemma StaysPut(k: K, e: Event)
    requires Core(k) && Enabled(k, e) && !e.EvCreate? && !e.EvTerminate?
    ensures var k1 := Step(k, e);
            && k1.tree == k.tree && k1.counted == k.counted && k1.free == k.free && k1.templates == k.templates
            && k1.maxProc == k.maxProc && k1.devBase == k.devBase && k1.processCount == k.processCount
            && (k.processCount > 0 ==> k1.status != Halted)
  {
    hide Queues, Placed, Forest, FreeDetached;
    if k.current != NIL { CurrentLive(k); }
    match e
    case EvTick => DrainHistory(k, ClockAddr(k)); DrainAll(k, ClockAddr(k));
    case _ =>
  }

  lemma StepCount(k: K, e: Event)
    requires Core(k) && CountLaw(k) && k.processCount > 0 && Enabled(k, e) && EndsCounted(k, e)
    ensures var k1 := Step(k, e);
            k1.status != Halted ==> |k1.tree.kids| == k1.maxProc && CountLaw(k1) && k1.processCount > 0
    ensures Step(k, e).status == Halted <==> e.EvTerminate? && k.counted == Elems(Post(k.tree, k.current))
  {
    hide Queues, Placed, Forest, FreeDetached, CountLaw, Post, Prune, ReapAll;
    Shapes(k);
    if e.EvCreate? {
      CurrentLive(k);
      if k.free != [] {
        CreatedCount(k);
      }
    } else if e.EvTerminate? {
      CurrentLive(k);
      TerminatedCount(k, k.current);
      if Terminated(k, k.current).status != Halted {
        CountSame(Terminated(k, k.current), Step(k, e));
      }
    } else {
      StaysPut(k, e);
      CountSame(k, Step(k, e));
    }
  }
}
