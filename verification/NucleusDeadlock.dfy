/** A deadlock that the scheduler takes for waiting: a run from boot that no later event can end. */
module NucleusDeadlock {
  import opened Sequences
  import opened ProcessTree
  import opened NucleusState
  import opened NucleusPlaces
  import opened NucleusLaws
  import opened NucleusRuns

  lemma RunCons(k: K, e: Event, es: seq<Event>)
    requires Core(k) && Enabled(k, e) && Disciplined(k, e) && EndsCounted(k, e) && Core(Step(k, e))
    requires Runs(Step(k, e), es) && Proper(Step(k, e), es)
    ensures Runs(k, [e] + es) && Proper(k, [e] + es) && Run(k, [e] + es) == Run(Step(k, e), es)
  {
    hide Core, Step, Enabled, Disciplined, EndsCounted;
    assert ([e] + es)[1..] == es && ([e] + es)[0] == e;
  }

  /** Everybody waits on m, and nobody is left to signal it. */
  ghost predicate Stuck(k: K, m: int)
    requires |k.semAdd| == k.maxProc
  {
    && k.current == NIL && k.ready == [] && k.counted != {} && k.processCount > 0
    && forall p :: p in BlockedPids(k) ==> k.semAdd[p] == m
  }

  /** test waits for the clock; the daemon runs. */
  lemma AfterWait(devBase: int, maxProc: nat, uprocs: nat, sem: map<int, int>, k: K)
    requires BootSetup(devBase, maxProc, uprocs, sem) && k == Started(devBase, maxProc, uprocs, sem) && Core(k)
    requires Val(k, ClockAddr(k)) == 0
    ensures Enabled(k, EvWaitClock)
    ensures var c, k1 := ClockAddr(k), Step(k, EvWaitClock);
            k1 == k.(softBlock := 1, sem := k.sem[c := -1], semAdd := k.semAdd[0 := c], blocked := map[c := [0]],
                     current := 1, ready := [])
  {
    hide Queues, Placed, Forest, FreeDetached;
    StartedShape(devBase, maxProc, uprocs, sem);
    CurrentLive(k);
    var c, v := ClockAddr(k), k.(softBlock := 1);
    CoreSame(k, v);
    WaitsOn(v, c, [], -1);
    assert [] + [0] == [0] && [1][1..] == [];
  }

  lemma StartedShape(devBase: int, maxProc: nat, uprocs: nat, sem: map<int, int>)
    requires BootSetup(devBase, maxProc, uprocs, sem)
    ensures var k := Started(devBase, maxProc, uprocs, sem);
            && k.devBase == devBase && k.maxProc == maxProc && k.semAdd == Nils(maxProc) && |k.semAdd| == maxProc
            && k.sem == sem && k.current == 0 && k.ready == [1] && k.blocked == map[] && k.status == Live
            && k.processCount == 1 && k.softBlock == 0 && k.counted == {0} && k.orphans == map[]
  {
  }

  /** The tick wakes test and leaves softBlockCount at one. */
  lemma AfterTick(k: K, c: int)
    requires Core(k) && k.status == Live && c == ClockAddr(k) && k.blocked == map[c := [0]] && k.ready == []
    requires k.current == 1
    requires |k.semAdd| == k.maxProc && IsPid(k, 0)
    ensures Enabled(k, EvTick)
    ensures Step(k, EvTick) == k.(semAdd := k.semAdd[0 := NIL], blocked := map[], ready := [0], sem := k.sem[c := 0])
  {
    WakeQueues(k, c);
    var w := Wake(k, c);
    assert w.blocked == map[];
    assert Drain(w, c) == w;
    assert Drain(k, c) == w;
  }

  /** The daemon and then test wait on m. */
  lemma AfterWaits(k: K, m: int)
    requires Core(k) && k.status == Live && k.current == 1 && k.ready == [0] && k.blocked == map[]
    requires |k.semAdd| == k.maxProc
    requires IsPid(k, 0) && IsPid(k, 1) && 0 < m < MAXINT && Val(k, m) == 0 && k.processCount == 1 && k.softBlock == 1
    ensures Enabled(k, EvPasseren(m)) && Enabled(Step(k, EvPasseren(m)), EvPasseren(m)) && Core(Step(k, EvPasseren(m)))
    ensures Step(k, EvPasseren(m)).devBase == k.devBase
    ensures var k1 := Step(Step(k, EvPasseren(m)), EvPasseren(m));
            k1 == k.(sem := k.sem[m := -2], semAdd := k.semAdd[1 := m][0 := m], blocked := map[m := [1, 0]],
                     current := NIL, ready := [])
  {
    hide Queues, Placed, Forest, FreeDetached;
    CurrentLive(k);
    StepCore(k, EvPasseren(m));
    WaitsOn(k, m, [], -1);
    var u := Step(k, EvPasseren(m));
    assert [] + [1] == [1] && [0][1..] == [];
    assert u == k.(sem := k.sem[m := -1], semAdd := k.semAdd[1 := m], blocked := map[m := [1]], current := 0,
        ready := []);
    CurrentLive(u);
    WaitsOn(u, m, [1], -2);
    assert [1] + [0] == [1, 0];
    assert u.sem[m := -2] == k.sem[m := -2];
  }

  /** A SYS3 that waits, when m is the only active semaphore or there is none. */
  lemma WaitsOn(k: K, m: int, q: seq<int>, v: int)
    requires Queues(k) && IsPid(k, k.current) && Val(k, m) - 1 == v < 0
    requires k.blocked == if q == [] then map[] else map[m := q]
    ensures Passeren(k, m) == Schedule(k.(sem := k.sem[m := v], semAdd := k.semAdd[k.current := m],
                                          blocked := map[m := q + [k.current]], current := NIL))
  {
    hide Queues, Schedule;
    assert Enqueued(k.blocked, m, k.current) == map[m := q + [k.current]];
  }

  /**
   * In the run SYS7, tick, SYS3, SYS3 from boot, test and the daemon end up waiting for each other; softBlockCount is
   * still 1 from the clock wait, and the machine waits instead of raising PANIC.
   */
  lemma HiddenDeadlock(devBase: int, maxProc: nat, uprocs: nat, sem: map<int, int>, m: int) returns (es: seq<Event>)
    requires BootSetup(devBase, maxProc, uprocs, sem) && 0 < m < MAXINT && (m in sem ==> sem[m] == 0)
    requires !IsSoft(Started(devBase, maxProc, uprocs, sem), m)
    requires Val(Started(devBase, maxProc, uprocs, sem), devBase + WORDLEN * NUM_DEVICES) == 0
    ensures ProperFromBoot(devBase, maxProc, uprocs, sem, es)
    ensures var k := Run(Started(devBase, maxProc, uprocs, sem), es);
            && Core(k) && |k.semAdd| == k.maxProc
            && k.status == Live && Stuck(k, m) && SoftBlocked(k) == {} && !IsSoft(k, m) && k.softBlock > 0
            && k.orphans == map[]
  {
    hide Queues, Placed, Forest, FreeDetached, SemLaw, SoftLaw, CountLaw, Step, Stuck, SoftBlocked;
    var k0 := Started(devBase, maxProc, uprocs, sem);
    BootSound(devBase, maxProc, uprocs, sem);
    StartedShape(devBase, maxProc, uprocs, sem);
    hide Started;
    var c := ClockAddr(k0);
    AfterWait(devBase, maxProc, uprocs, sem, k0);
    var k1 := Step(k0, EvWaitClock);
    StepCore(k0, EvWaitClock);
    AfterTick(k1, c);
    var k2 := Step(k1, EvTick);
    StepCore(k1, EvTick);
    AfterWaits(k2, m);
    var k3 := Step(k2, EvPasseren(m));
    var k4 := Step(k3, EvPasseren(m));
    StepCore(k3, EvPasseren(m));
    EndStuck(devBase, maxProc, uprocs, sem, k4, m);
    hide Core;
    assert Runs(k4, []) && Proper(k4, []) && Run(k4, []) == k4;
    RunCons(k3, EvPasseren(m), []);
    RunCons(k2, EvPasseren(m), [EvPasseren(m)] + []);
    RunCons(k1, EvTick, [EvPasseren(m)] + ([EvPasseren(m)] + []));
    RunCons(k0, EvWaitClock, [EvTick] + ([EvPasseren(m)] + ([EvPasseren(m)] + [])));
    es := [EvWaitClock] + ([EvTick] + ([EvPasseren(m)] + ([EvPasseren(m)] + [])));
  }

  lemma EndStuck(devBase: int, maxProc: nat, uprocs: nat, sem: map<int, int>, k: K, m: int)
    requires BootSetup(devBase, maxProc, uprocs, sem) && |k.semAdd| == k.maxProc == maxProc && k.devBase == devBase
    requires k.current == NIL && k.ready == [] && k.counted == {0} && k.processCount == 1 && !IsSoft(k, m)
    requires forall p :: 0 <= p < maxProc ==> k.semAdd[p] == if p <= 1 then m else NIL
    ensures Stuck(k, m) && SoftBlocked(k) == {}
  {
  }

  // ----- nothing ends it -----

  lemma OnlyM(k: K, m: int)
    requires Core(k) && |k.semAdd| == k.maxProc && Stuck(k, m)
    ensures forall a :: a in k.blocked ==> a == m
  {
    hide Placed, Forest, FreeDetached;
    forall a | a in k.blocked ensures a == m {
      var p := k.blocked[a][0];
      assert p in k.blocked[a];
      BlockedPidsExact(k, p);
      assert BlockedOn(k, p, a);
    }
  }

  /** With nobody running only interrupts can come, and none of them wakes anybody. */
  lemma StuckStep(k: K, m: int, e: Event)
    requires Core(k) && |k.semAdd| == k.maxProc && Stuck(k, m) && !IsSoft(k, m) && k.softBlock > 0 && Enabled(k, e)
    ensures var k1 := Step(k, e);
            && Core(k1) && |k1.semAdd| == k1.maxProc && Stuck(k1, m) && !IsSoft(k1, m) && k1.softBlock > 0
            && (k1.status == Live || k1.status == Astray) && k1.blocked == k.blocked
  {
    OnlyM(k, m);
    StepCore(k, e);
    hide Queues, Placed, Forest, FreeDetached;
    Shapes(Step(k, e));
    assert ClockAddr(k) !in k.blocked;
    match e
    case EvTick => assert Drain(k, ClockAddr(k)) == k;
    case EvDevice(line, dev) => assert IsSoft(k, DevAddr(k, InterruptIndex(line, dev)));
    case EvTimeSlice =>
  }

  /** The deadlock lasts: no continuation of the run wakes anybody, and none halts or panics. */
  lemma {:induction false} StuckForever(k: K, m: int, es: seq<Event>)
    requires Core(k) && |k.semAdd| == k.maxProc && Stuck(k, m) && !IsSoft(k, m) && k.softBlock > 0 && k.status == Live
    requires Runs(k, es)
    ensures (Run(k, es).status == Live || Run(k, es).status == Astray) && Run(k, es).current == NIL
    ensures Run(k, es).ready == []
    ensures Run(k, es).blocked == k.blocked
    decreases |es|
  {
    if es != [] {
      StuckStep(k, m, es[0]);
      if Step(k, es[0]).status != Live {
        HaltedStays(Step(k, es[0]), es[1..]);
      } else {
        hide Core, Step, Enabled, IsSoft;
        StuckForever(Step(k, es[0]), m, es[1..]);
      }
    }
  }

  // ----- an interrupt nobody waits for -----

  lemma {:induction false} RunThen(k: K, es: seq<Event>, e: Event)
    requires Core(k) && Runs(k, es) && Proper(k, es) && Core(Run(k, es))
    requires Enabled(Run(k, es), e) && Disciplined(Run(k, es), e) && EndsCounted(Run(k, es), e)
    ensures Runs(k, es + [e]) && Proper(k, es + [e]) && Run(k, es + [e]) == Step(Run(k, es), e)
    decreases |es|
  {
    hide Queues, Placed, Forest, FreeDetached, Enabled, Disciplined, EndsCounted, Step;
    if es == [] {
      StepCore(k, e);
      assert Runs(Step(k, e), []) && Proper(Step(k, e), []) && Run(Step(k, e), []) == Step(k, e);
      hide Core;
      assert es + [e] == [e] + [];
      RunCons(k, e, []);
    } else {
      StepCore(k, es[0]);
      hide Core;
      RunThen(Step(k, es[0]), es[1..], e);
      assert es + [e] == [es[0]] + (es[1..] + [e]);
      RunCons(k, es[0], es[1..] + [e]);
    }
  }

  /** With everybody stuck on m and no terminated waiter owed a signal, any device interrupt leads astray. */
  lemma StuckAstray(k: K, m: int, line: int, dev: int)
    requires Core(k) && SemLaw(k) && |k.semAdd| == k.maxProc && k.status == Live && Stuck(k, m) && !IsSoft(k, m)
    requires k.orphans == map[] && ValidDevice(line, dev)
    ensures Enabled(k, EvDevice(line, dev)) && Step(k, EvDevice(line, dev)).status == Astray
  {
    assert IsSoft(k, DevAddr(k, InterruptIndex(line, dev)));
    hide Queues, Placed, Forest, FreeDetached, SemLaw, Step;
    OnlyM(k, m);
    AstrayExactly(k, EvDevice(line, dev));
  }

  /**
   * In the same deadlock any device interrupt, wanted by nobody, makes the machine load the state of a NULL process:
   * the run SYS7, tick, SYS3, SYS3, device interrupt ends there, for every device.
   */
  lemma AstrayFromBoot(devBase: int, maxProc: nat, uprocs: nat, sem: map<int, int>, m: int, line: int, dev: int)
    returns (es: seq<Event>)
    requires BootSetup(devBase, maxProc, uprocs, sem) && 0 < m < MAXINT && (m in sem ==> sem[m] == 0)
    requires !IsSoft(Started(devBase, maxProc, uprocs, sem), m) && ValidDevice(line, dev)
    requires Val(Started(devBase, maxProc, uprocs, sem), devBase + WORDLEN * NUM_DEVICES) == 0
    ensures ProperFromBoot(devBase, maxProc, uprocs, sem, es)
    ensures Run(Started(devBase, maxProc, uprocs, sem), es).status == Astray
  {
    var fs := HiddenDeadlock(devBase, maxProc, uprocs, sem, m);
    BootSound(devBase, maxProc, uprocs, sem);
    var k0, e := Started(devBase, maxProc, uprocs, sem), EvDevice(line, dev);
    hide Core, SemLaw, SoftLaw, CountLaw, Step, Stuck, SoftBlocked, Started, IsSoft, Val, Enabled;
    RunKeepsLaws(k0, fs);
    StuckAstray(Run(k0, fs), m, line, dev);
    RunThen(k0, fs, e);
    es := fs + [e];
  }
}
