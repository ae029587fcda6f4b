/**
 * What every event does, seen from outside: who runs, who is ready, the value and the queue of every semaphore, the
 * family tree, the free pcbs and the counters; and, over whole runs, the account of every device's semaphore.
 */
module NucleusEvents {
  import opened Sequences
  import opened ProcessTree
  import opened NucleusState
  import opened NucleusPlaces
  import opened NucleusLaws
  import opened NucleusTerminate
  import opened NucleusRuns

  // ----- the parts of a state -----

  /** The scheduler has run with this ready queue: its head runs, or nobody does and the machine waits or stops. */
  predicate Dispatched(k1: K, ready: seq<int>) {
    if ready != [] then k1.current == ready[0] && k1.ready == ready[1..] && k1.status == Live
    else
      && k1.current == NIL && k1.ready == []
      && k1.status == if k1.processCount == 0 then Halted else if k1.softBlock > 0 then Live else Panicked
  }

  /** The same process runs on, and the ready queue has grown by these. */
  predicate RunsOn(k: K, k1: K, woken: seq<int>) {
    k1.current == k.current && k1.ready == k.ready + woken && k1.status == k.status
  }

  predicate SameFamily(k: K, k1: K) {
    k1.free == k.free && k1.tree.kids == k.tree.kids && k1.tree.prnt == k.tree.prnt && k1.processCount == k.processCount
  }

  /** Semaphore a has this value and this queue now; every other semaphore has what it had. */
  ghost predicate OnlySem(k: K, k1: K, a: int, v: int, q: seq<int>) {
    forall b {:trigger Val(k1, b)} {:trigger Queue(k1, b)} ::
      && Val(k1, b) == (if b == a then v else Val(k, b))
      && Queue(k1, b) == if b == a then q else Queue(k, b)
  }

  ghost predicate SameSems(k: K, k1: K) {
    forall b {:trigger Val(k1, b)} {:trigger Queue(k1, b)} :: Val(k1, b) == Val(k, b) && Queue(k1, b) == Queue(k, b)
  }

  // ----- boot -----

  /** After the first dispatch test runs, the daemon is ready, and nobody waits or has relatives. */
  lemma StartEffect(devBase: int, maxProc: nat, uprocs: nat, sem: map<int, int>, p: int)
    requires BootSetup(devBase, maxProc, uprocs, sem)
    ensures var k := Started(devBase, maxProc, uprocs, sem);
            && k.current == 0 && k.ready == [1] && k.status == Live && k.processCount == 1 && k.softBlock == 0
            && (forall a :: Queue(k, a) == [] && Val(k, a) == if a in sem then sem[a] else 0)
            && (p in k.free <==> uprocs + 2 <= p < maxProc) && (p in k.templates <==> 2 <= p < uprocs + 2)
            && |k.tree.kids| == |k.tree.prnt| == maxProc
            && (0 <= p < maxProc ==> k.tree.kids[p] == [] && k.tree.prnt[p] == NIL)
  {
    IdsProps(uprocs + 2, maxProc);
    IdsProps(2, uprocs + 2);
    hide Ids;
  }

  // ----- system calls -----

  /** SYS1 with a free pcb: it becomes its creator's first child and the last ready process; the creator runs on. */
  lemma CreateEffect(k: K, p: int)
    requires Core(k) && Enabled(k, EvCreate) && k.free != [] && IsPid(k, p)
    ensures var k1, n := Step(k, EvCreate), k.free[0];
            && RunsOn(k, k1, [n]) && k1.free == k.free[1..] && SameSems(k, k1)
            && k1.processCount == k.processCount + 1 && k1.softBlock == k.softBlock
            && |k.tree.kids| == |k.tree.prnt| == |k1.tree.kids| == |k1.tree.prnt| == k.maxProc
            && k1.tree.kids[p] == (if p == k.current then [n] else []) + k.tree.kids[p]
            && k1.tree.prnt[p] == if p == n then k.current else k.tree.prnt[p]
  {
    CurrentLive(k);
    hide Placed, FreeDetached;
    Shapes(k);
    assert k.free[0] in k.free;
  }

  /** Without one, nothing happens. */
  lemma CreateFails(k: K)
    requires Core(k) && Enabled(k, EvCreate) && k.free == []
    ensures Step(k, EvCreate) == k
  {
    CurrentLive(k);
  }

  /** The semaphore that a SYS3, SYS5 or SYS7 takes a unit from. */
  predicate Takes(devBase: int, e: Event, a: int) {
    match e
    case EvPasseren(b) => a == b
    case EvWaitIO(line, dev, term) => a == devBase + WORDLEN * WaitIndex(line, dev, term)
    case EvWaitClock => a == devBase + WORDLEN * NUM_DEVICES
    case _ => false
  }

  /** The semaphore that a SYS4 or a device interrupt gives a unit to. */
  predicate Gives(devBase: int, e: Event, a: int) {
    match e
    case EvVerhogen(b) => a == b
    case EvDevice(line, dev) => a == devBase + WORDLEN * InterruptIndex(line, dev)
    case _ => false
  }

  /**
   * SYS3, SYS5 and SYS7: the semaphore loses one unit. If that leaves it negative the caller joins the end of its
   * queue and the next process is dispatched; otherwise the caller runs on.
   */
  lemma TakeEffect(k: K, e: Event, a: int)
    requires Core(k) && Enabled(k, e) && Takes(k.devBase, e, a)
    ensures var k1, v := Step(k, e), Val(k, a) - 1;
            && OnlySem(k, k1, a, v, if v < 0 then Queue(k, a) + [k.current] else Queue(k, a))
            && (if v < 0 then Dispatched(k1, k.ready) else RunsOn(k, k1, []))
            && SameFamily(k, k1) && k1.softBlock == k.softBlock + if e.EvPasseren? then 0 else 1
  {
    hide Placed, Forest, FreeDetached, OnlySem, Dispatched;
    CurrentLive(k);
    var k2 := if e.EvPasseren? then k else k.(softBlock := k.softBlock + 1);
    CoreSame(k, k2);
    PasserenEffect(k2, a);
    assert Step(k, e) == Passeren(k2, a) && Val(k2, a) == Val(k, a) && Queue(k2, a) == Queue(k, a);
    var v, q, k1 := Val(k, a) - 1, Queue(k, a), Passeren(k2, a);
    hide Queues, Passeren, Step, Val, Queue;
    SameSemViews(k2, k, k1, k1, a, v, if v < 0 then q + [k.current] else q);
  }

  lemma PasserenEffect(k: K, a: int)
    requires Core(k) && IsLive(k, k.current) && k.status == Live
    ensures var k1, v := Passeren(k, a), Val(k, a) - 1;
            && OnlySem(k, k1, a, v, if v < 0 then Queue(k, a) + [k.current] else Queue(k, a))
            && (if v < 0 then Dispatched(k1, k.ready) else RunsOn(k, k1, []))
            && SameFamily(k, k1) && k1.softBlock == k.softBlock
  {
    hide Placed, Forest, FreeDetached;
    var k2 := SetSem(k, a, Val(k, a) - 1);
    BlockEffect(k, k2, a);
    if Val(k, a) - 1 < 0 {
      hide Queues;
      var k3 := BlockCurrent(k2, a);
      hide BlockCurrent, OnlySem;
      assert Dispatched(Schedule(k3), k.ready);
      hide Dispatched;
      SameSemViews(k, k, k3, Schedule(k3), a, Val(k, a) - 1, Queue(k, a) + [k.current]);
    }
  }

  /** The caller joins the queue. */
  lemma BlockEffect(k: K, k2: K, a: int)
    requires Core(k) && IsLive(k, k.current) && k2 == SetSem(k, a, Val(k, a) - 1)
    ensures Queues(k2) && IsPid(k2, k2.current)
    ensures var k3 := BlockCurrent(k2, a);
            && OnlySem(k, k3, a, Val(k, a) - 1, Queue(k, a) + [k.current]) && SameFamily(k, k3)
            && k3.ready == k.ready && k3.status == k.status && k3.softBlock == k.softBlock
  {
    hide Placed, Forest, FreeDetached;
  }

  /** OnlySem looks at values and queues only. */
  lemma SameSemViews(k: K, k': K, k1: K, k1': K, a: int, v: int, q: seq<int>)
    requires k'.sem == k.sem && k'.blocked == k.blocked && k1'.sem == k1.sem && k1'.blocked == k1.blocked
    requires OnlySem(k, k1, a, v, q)
    ensures OnlySem(k', k1', a, v, q)
  {
    forall b ensures Val(k1', b) == (if b == a then v else Val(k', b))
                     && Queue(k1', b) == if b == a then q else Queue(k', b)
    {
      assert Val(k1, b) == (if b == a then v else Val(k, b));
    }
  }

  /** SYS4: the semaphore gains one unit; if it is still not positive, its first waiter becomes ready. */
  lemma SignalEffect(k: K, a: int)
    requires Core(k) && Enabled(k, EvVerhogen(a))
    ensures var k1, v, q := Step(k, EvVerhogen(a)), Val(k, a) + 1, Queue(k, a);
            && OnlySem(k, k1, a, v, if v <= 0 && q != [] then q[1..] else q)
            && RunsOn(k, k1, if v <= 0 && q != [] then [q[0]] else [])
            && SameFamily(k, k1) && k1.softBlock == k.softBlock
  {
    hide Placed, Forest, FreeDetached;
  }

  // ----- interrupts -----

  /**
   * A device interrupt: the device's semaphore gains one unit, also when nobody waits for it; if it is still not
   * positive its first waiter becomes ready and softBlockCount drops by one. A running process runs on; with none, the
   * scheduler is called, or the machine goes astray if the value is positive.
   */
  lemma InterruptEffect(k: K, line: int, dev: int)
    requires Core(k) && Enabled(k, EvDevice(line, dev))
    ensures var k1, a := Step(k, EvDevice(line, dev)), DevAddr(k, InterruptIndex(line, dev));
            var v, q := Val(k, a) + 1, Queue(k, a);
            var woken := if v <= 0 && q != [] then [q[0]] else [];
            && OnlySem(k, k1, a, v, if woken != [] then q[1..] else q)
            && (k.current != NIL ==> RunsOn(k, k1, woken))
            && (k.current == NIL && v <= 0 ==> Dispatched(k1, k.ready + woken))
            && (k.current == NIL && v > 0 ==> k1.current == NIL && k1.ready == k.ready && k1.status == Astray)
            && SameFamily(k, k1) && k1.softBlock == k.softBlock - |woken|
  {
    hide Placed, Forest, FreeDetached;
  }

  /** The clock tick: every clock waiter becomes ready in order, and the clock's semaphore is zero. */
  lemma TickEffect(k: K)
    requires Core(k) && Enabled(k, EvTick)
    ensures var k1, a := Step(k, EvTick), ClockAddr(k);
            && OnlySem(k, k1, a, 0, [])
            && (if k.current != NIL then RunsOn(k, k1, Queue(k, a)) else Dispatched(k1, k.ready + Queue(k, a)))
            && SameFamily(k, k1) && k1.softBlock == k.softBlock
  {
    hide Queues, Placed, Forest, FreeDetached, Drain;
    DrainAll(k, ClockAddr(k));
    DrainHistory(k, ClockAddr(k));
  }

  /** The end of a time slice: the running process goes to the end of the ready queue, and its head runs. */
  lemma SliceEffect(k: K)
    requires Core(k) && Enabled(k, EvTimeSlice)
    ensures var k1 := Step(k, EvTimeSlice);
            && SameSems(k, k1) && Dispatched(k1, k.ready + if k.current == NIL then [] else [k.current])
            && SameFamily(k, k1) && k1.softBlock == k.softBlock
  {
    hide Queues, Placed, Forest, FreeDetached;
  }

  // ----- termination -----

  /** Survivors keep their order. */
  lemma {:induction false} KeepOrder(s: seq<int>, gone: set<int>, x: int, y: int)
    requires x in s && y in s && x !in gone && y !in gone
    ensures Pos(Keep(s, gone), x) < Pos(Keep(s, gone), y) <==> Pos(s, x) < Pos(s, y)
  {
    var kept := Keep(s[1..], gone);
    if s[0] in gone {
      assert Keep(s, gone) == kept;
      KeepOrder(s[1..], gone, x, y);
    } else {
      assert Keep(s, gone) == [s[0]] + kept && ([s[0]] + kept)[1..] == kept;
      if s[0] != x && s[0] != y {
        KeepOrder(s[1..], gone, x, y);
      }
    }
  }

  /** The members of s that wait for a device. */
  ghost function AtDevices(k: K, s: set<int>): set<int>
    requires |k.semAdd| == k.maxProc
  {
    set x | x in s && 0 <= x < k.maxProc && IsDevice(k, k.semAdd[x])
  }

  lemma {:induction false} DeviceWaitersSet(k: K, ps: seq<int>)
    requires |k.semAdd| == k.maxProc && Distinct(ps)
    ensures DeviceWaiters(k, ps) == |AtDevices(k, Elems(ps))|
  {
    if ps == [] {
      assert AtDevices(k, Elems(ps)) == {};
    } else {
      var n := |ps| - 1;
      var x, rest := ps[n], ps[..n];
      DeviceWaitersSet(k, rest);
      assert ps == rest + [x];
      assert x !in rest;
      assert AtDevices(k, Elems(ps)) == AtDevices(k, Elems(rest)) + AtDevices(k, {x});
      assert AtDevices(k, {x}) == if 0 <= x < k.maxProc && IsDevice(k, k.semAdd[x]) then {x} else {};
    }
  }

  /** SYS2 halts the machine exactly when processCount says that nobody is left outside the caller's subtree. */
  lemma EndHaltsExactly(k: K)
    requires Core(k) && Enabled(k, EvTerminate)
    ensures Step(k, EvTerminate).status == Halted <==> k.processCount <= |Subtree(k, k.current)|
  {
    hide Queues, Placed, Forest, FreeDetached, Subtree, Terminated;
    CurrentLive(k);
    SubtreePost(k, k.current);
    TerminatedOutcome(k, k.current);
  }

  lemma TerminatedOutcome(k: K, p: int)
    requires Core(k) && IsLive(k, p) && k.status == Live
    ensures var k1, n := Terminated(k, p), |Post(k.tree, p)|;
            if k.processCount <= n then k1.status == Halted
            else k1.status == Live && k1.processCount == k.processCount - n
  {
    hide Queues, Placed, Forest, FreeDetached, Post, Prune;
    SubtreeLive(k, p);
    Shapes(k);
    ReapAllFree(k, Post(k.tree, p));
  }

  /**
   * SYS2, unless it halts the machine: the caller and everything below it is freed and counted off, every queue keeps
   * its survivors in order, and the first ready survivor is dispatched.
   */
  lemma EndEffect(k: K, a: int)
    requires Core(k) && Enabled(k, EvTerminate) && Step(k, EvTerminate).status != Halted
    ensures var k1, gone := Step(k, EvTerminate), Subtree(k, k.current);
            && (forall x :: x in k1.free <==> x in gone || x in k.free)
            && Dispatched(k1, Keep(k.ready, gone))
            && Queue(k1, a) == Keep(Queue(k, a), gone)
            && Val(k1, a) == Val(k, a) + (if IsDevice(k, a) then 0 else |Queue(k, a)| - |Queue(k1, a)|)
            && k1.processCount == k.processCount - |gone|
            && |k.semAdd| == k.maxProc && k1.softBlock == k.softBlock - |AtDevices(k, gone)|
  {
    hide Queues, Placed, Forest, FreeDetached, Subtree, Terminated, Post, Keep, AtDevices, DeviceWaiters, Queue, Val;
    CurrentLive(k);
    var p := k.current;
    var k1 := Terminated(k, p);
    Shapes(k);
    TerminatedOutcome(k, p);
    SubtreeLive(k, p);
    SubtreePost(k, p);
    TerminateFrees(k, p, k1);
    TerminateQueues(k, p, k1, a);
    DeviceWaitersSet(k, Post(k.tree, p));
    InOwnSubtree(k, p);
    ScheduleKeeps(k1, a);
  }

  lemma InOwnSubtree(k: K, p: int)
    requires Core(k) && IsPid(k, p)
    ensures p in Subtree(k, p)
  {
    hide Queues, Placed, FreeDetached, Forest;
    Shapes(k);
  }

  lemma ScheduleKeeps(k: K, a: int)
    ensures var k1 := Schedule(k);
            && Queue(k1, a) == Queue(k, a) && Val(k1, a) == Val(k, a) && k1.free == k.free && k1.tree == k.tree
            && k1.processCount == k.processCount && k1.softBlock == k.softBlock
            && (k.status == Live ==> Dispatched(k1, k.ready))
  {
  }

  /** The tree loses exactly the subtree: the dead have no relatives, and only the caller's parent loses a child. */
  lemma EndFamily(k: K, x: int)
    requires Core(k) && Enabled(k, EvTerminate) && Step(k, EvTerminate).status != Halted && IsPid(k, x)
    ensures var k1, gone, p := Step(k, EvTerminate), Subtree(k, k.current), k.current;
            && |k1.tree.kids| == |k1.tree.prnt| == |k.tree.kids| == |k.tree.prnt| == k.maxProc && IsPid(k, p)
            && (x in gone ==> k1.tree.kids[x] == [] && k1.tree.prnt[x] == NIL)
            && (x !in gone ==> k1.tree.prnt[x] == k.tree.prnt[x])
            && (x !in gone ==> k1.tree.kids[x] == if x == k.tree.prnt[p] then Without(k.tree.kids[x], p)
                                                 else k.tree.kids[x])
  {
    hide Queues, Placed, Forest, FreeDetached, Subtree, Terminated, Without;
    CurrentLive(k);
    Shapes(k);
    TerminatedOutcome(k, k.current);
    TerminateTree(k, k.current, Terminated(k, k.current), x);
    ScheduleKeeps(Terminated(k, k.current), 0);
  }

  // ----- the account of a device's semaphore -----

  /** How many units the events give to semaphore a. */
  function Given(devBase: int, es: seq<Event>, a: int): nat {
    if es == [] then 0 else (if Gives(devBase, es[0], a) then 1 else 0) + Given(devBase, es[1..], a)
  }

  /** How many they take from it. */
  function Taken(devBase: int, es: seq<Event>, a: int): nat {
    if es == [] then 0 else (if Takes(devBase, es[0], a) then 1 else 0) + Taken(devBase, es[1..], a)
  }

  lemma StepBase(k: K, e: Event)
    requires Core(k) && Enabled(k, e)
    ensures Step(k, e).devBase == k.devBase
  {
    hide Queues, Placed, Forest, FreeDetached, Post, Prune, ReapAll;
    if e.EvTerminate? {
      CurrentLive(k);
      SubtreeLive(k, k.current);
      Shapes(k);
      ReapAllBase(k, Post(k.tree, k.current));
    } else if !e.EvCreate? {
      StaysPut(k, e);
    }
  }

  /** Termination takes nothing from a device's semaphore and gives it nothing back. */
  lemma EndAccount(k: K, a: int)
    requires Core(k) && Enabled(k, EvTerminate) && IsDevice(k, a)
    ensures Val(Step(k, EvTerminate), a) == Val(k, a)
  {
    hide Queues, Placed, Forest, FreeDetached, Subtree, Keep, Dispatched, Terminated;
    CurrentLive(k);
    if Step(k, EvTerminate).status == Halted {
      EndHaltsExactly(k);
      SubtreePost(k, k.current);
      TerminatedOutcome(k, k.current);
      TerminatedStatus(k, k.current);
    } else {
      EndEffect(k, a);
    }
  }

  lemma StepAccount(k: K, e: Event, a: int)
    requires Core(k) && Enabled(k, e) && IsDevice(k, a)
    ensures Val(Step(k, e), a) == Val(k, a) + (if Gives(k.devBase, e, a) then 1 else 0)
                                - if Takes(k.devBase, e, a) then 1 else 0
  {
    hide Queues, Placed, Forest, FreeDetached, Step, Queue, Dispatched, RunsOn, SameFamily;
    match e
    case EvCreate => if k.free != [] { CurrentLive(k); CreateEffect(k, k.current); } else { CreateFails(k); }
    case EvTerminate => EndAccount(k, a);
    case EvPasseren(b) => TakeEffect(k, e, b);
    case EvVerhogen(b) => SignalEffect(k, b);
    case EvWaitIO(line, dev, term) => TakeEffect(k, e, DevAddr(k, WaitIndex(line, dev, term)));
    case EvWaitClock => TakeEffect(k, e, ClockAddr(k));
    case EvDevice(line, dev) => InterruptEffect(k, line, dev);
    case EvTick => TickEffect(k);
    case EvTimeSlice => SliceEffect(k);
  }

  /** Over every run the value of a device's semaphore moves by what the events give and take, terminations included. */
  lemma {:induction false} DeviceAccount(k: K, es: seq<Event>, a: int)
    requires Core(k) && Runs(k, es) && IsDevice(k, a)
    ensures Core(Run(k, es)) && Run(k, es).devBase == k.devBase
    ensures Val(Run(k, es), a) == Val(k, a) + Given(k.devBase, es, a) - Taken(k.devBase, es, a)
    decreases |es|
  {
    if es != [] {
      hide Core, Step, Enabled, Val, Gives, Takes;
      StepCore(k, es[0]);
      StepBase(k, es[0]);
      StepAccount(k, es[0], a);
      DeviceAccount(Step(k, es[0]), es[1..], a);
    }
  }

  /**
   * No interrupt is lost and none is counted twice: after any run a SYS5 makes its caller wait exactly if the device's
   * semaphore has been asked for more units than it started with and was given, this request included. An interrupt
   * that came before the request counts.
   */
  lemma BlocksExactly(k0: K, es: seq<Event>, line: int, dev: int, term: int)
    requires Core(k0) && Runs(k0, es) && Enabled(Run(k0, es), EvWaitIO(line, dev, term))
    ensures Core(Run(k0, es))
    ensures var k, a := Run(k0, es), DevAddr(k0, WaitIndex(line, dev, term));
            var k1 := Step(k, EvWaitIO(line, dev, term));
            && (k.current in Queue(k1, a) <==>
                  Taken(k0.devBase, es, a) + 1 > Val(k0, a) + Given(k0.devBase, es, a))
            && (k.current !in Queue(k1, a) ==> RunsOn(k, k1, []))
  {
    var a := DevAddr(k0, WaitIndex(line, dev, term));
    var k := Run(k0, es);
    WaitAddress(k0, line, dev, term);
    hide Core, Step, Val, Queue, Runs, Run, Dispatched, RunsOn, SameFamily, Given, Taken;
    DeviceAccount(k0, es, a);
    TakeEffect(k, EvWaitIO(line, dev, term), a);
    NotQueued(k, a);
  }

  lemma WaitAddress(k: K, line: int, dev: int, term: int)
    requires ValidDevice(line, dev) && 0 <= term <= 1
    ensures IsDevice(k, DevAddr(k, WaitIndex(line, dev, term)))
  {
  }

  lemma NotQueued(k: K, a: int)
    requires Core(k) && k.current != NIL
    ensures k.current !in Queue(k, a)
  {
    hide Forest, FreeDetached;
    CurrentLive(k);
  }
}
