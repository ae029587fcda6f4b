/** Whole runs of the nucleus: the state after boot, and what holds in every state that can follow it. */
module NucleusRuns {
  import opened Sequences
  import opened ProcessTree
  import opened NucleusState
  import opened NucleusPlaces
  import opened NucleusLaws
  import opened NucleusTerminate

  // ----- boot -----

  /**
   * main before it calls the scheduler: pcb 0 runs test and is counted, pcb 1 is the delay daemon, the next uprocs
   * pcbs are the templates of the user processes, the rest are free.
   */
  ghost function Boot(devBase: int, maxProc: nat, uprocs: nat, sem: map<int, int>): K
    requires uprocs + 2 <= maxProc
  {
    K(devBase, maxProc, Ids(uprocs + 2, maxProc), [0, 1], map[], NIL, BareTree(maxProc), Nils(maxProc),
      sem, 1, 0, Live, Ids(2, uprocs + 2), {0}, map[])
  }

  function Nils(n: nat): seq<int> { seq(n, _ => NIL) }

  /** No process has relatives. */
  function BareTree(n: nat): Tree { Tree(seq(n, _ => []), Nils(n), seq(n, _ => 0), 1) }

  ghost predicate BootSetup(devBase: int, maxProc: nat, uprocs: nat, sem: map<int, int>) {
    && 0 < devBase && devBase + WORDLEN * NUM_DEVICES < MAXINT && uprocs + 2 <= maxProc
    && forall a :: a in sem ==> sem[a] >= 0
  }

  /** Everything the nucleus keeps. */
  ghost predicate Sound(k: K) {
    Core(k) && SemLaw(k) && SoftLaw(k) && CountLaw(k) && k.processCount > 0
  }

  lemma BootLaws(devBase: int, maxProc: nat, uprocs: nat, sem: map<int, int>)
    requires BootSetup(devBase, maxProc, uprocs, sem)
    ensures var k := Boot(devBase, maxProc, uprocs, sem); SemLaw(k) && SoftLaw(k) && CountLaw(k)
  {
    var k := Boot(devBase, maxProc, uprocs, sem);
    IdsProps(uprocs + 2, maxProc);
    IdsProps(2, uprocs + 2);
    forall a ensures SemLawAt(k, a) {}
    assert SoftBlocked(k) == {};
  }

  lemma BootCore(devBase: int, maxProc: nat, uprocs: nat, sem: map<int, int>)
    requires BootSetup(devBase, maxProc, uprocs, sem)
    ensures Core(Boot(devBase, maxProc, uprocs, sem))
  {
    var k := Boot(devBase, maxProc, uprocs, sem);
    IdsProps(uprocs + 2, maxProc);
    IdsProps(2, uprocs + 2);
    assert Queues(k) by { hide Ids; }
    assert Placed(k) by { hide Ids, Queues; }
    assert Forest(k.tree) by { hide Ids, Queues, Placed; }
    assert FreeDetached(k) by { hide Ids, Queues, Placed, Forest; }
  }

  lemma BootSound(devBase: int, maxProc: nat, uprocs: nat, sem: map<int, int>)
    requires BootSetup(devBase, maxProc, uprocs, sem)
    ensures Sound(Boot(devBase, maxProc, uprocs, sem))
    ensures Sound(Schedule(Boot(devBase, maxProc, uprocs, sem)))
  {
    hide Queues, Placed, Forest, FreeDetached, CountLaw;
    var k := Boot(devBase, maxProc, uprocs, sem);
    BootCore(devBase, maxProc, uprocs, sem);
    BootLaws(devBase, maxProc, uprocs, sem);
    ScheduleCore(k);
    CountSame(k, Schedule(k));
    SemLawSame(k, Schedule(k));
    SoftSame(k, Schedule(k));
  }

  // ----- runs -----

  ghost predicate Runs(k: K, es: seq<Event>)
    requires Core(k)
    decreases |es|
  {
    es == [] || (Enabled(k, es[0]) && (StepCore(k, es[0]); Runs(Step(k, es[0]), es[1..])))
  }

  ghost function Run(k: K, es: seq<Event>): K
    requires Core(k) && Runs(k, es)
    decreases |es|
  {
    if es == [] then k else StepCore(k, es[0]); Run(Step(k, es[0]), es[1..])
  }

  /** Every SYS3 names an ordinary semaphore and only counted processes end. */
  ghost predicate Proper(k: K, es: seq<Event>)
    requires Core(k) && Runs(k, es)
    decreases |es|
  {
    es == [] || (Disciplined(k, es[0]) && EndsCounted(k, es[0])
                 && (StepCore(k, es[0]); Proper(Step(k, es[0]), es[1..])))
  }

  /** In every reachable state each pcb has one place and every semaphore obeys the semaphore law. */
  lemma {:induction false} RunKeepsLaws(k: K, es: seq<Event>)
    requires Core(k) && SemLaw(k) && Runs(k, es)
    ensures Core(Run(k, es)) && SemLaw(Run(k, es))
    decreases |es|
  {
    if es != [] {
      hide Core, SemLaw, Step, Enabled;
      StepCore(k, es[0]);
      StepSemLaw(k, es[0]);
      RunKeepsLaws(Step(k, es[0]), es[1..]);
    }
  }

  lemma StepSound(k: K, e: Event)
    requires Sound(k) && Enabled(k, e) && Disciplined(k, e) && EndsCounted(k, e)
    ensures Step(k, e).status != Halted ==> Sound(Step(k, e))
    ensures Step(k, e).status == Halted <==> e.EvTerminate? && k.counted == Subtree(k, k.current)
  {
    hide Queues, Placed, Forest, FreeDetached, SemLaw, CountLaw, Step, Subtree, Post, Drift;
    Shapes(k);
    StepCore(k, e);
    StepSemLaw(k, e);
    StepSlack(k, e);
    DriftsUp(k, e);
    StepCount(k, e);
    if e.EvTerminate? {
      CurrentLive(k);
      SubtreePost(k, k.current);
    }
  }

  /** A proper run never breaks a law, and it never reaches the scheduler's own HALT. */
  lemma {:induction false} RunSound(k: K, es: seq<Event>)
    requires Sound(k) && Runs(k, es) && Proper(k, es)
    ensures Run(k, es).status != Halted ==> Sound(Run(k, es))
    decreases |es|
  {
    if es != [] {
      hide Core, Sound, Step, Enabled, Subtree;
      assert Core(k) by { SoundCore(k); }
      StepCore(k, es[0]);
      StepSound(k, es[0]);
      if Step(k, es[0]).status != Halted {
        RunSound(Step(k, es[0]), es[1..]);
      } else {
        HaltedStays(Step(k, es[0]), es[1..]);
      }
    }
  }

  lemma SoundCore(k: K)
    requires Sound(k)
    ensures Core(k)
  {
  }

  lemma HaltedStays(k: K, es: seq<Event>)
    requires Core(k) && k.status != Live && Runs(k, es)
    ensures es == [] && Run(k, es) == k
  {
    hide Core;
  }

  // ----- the scheduler's deadlock test -----

  /**
   * PANIC is raised only in a real deadlock: nothing is ready, counted processes exist, and no process waits for a
   * device or for the clock.
   */
  lemma PanicSound(k: K, e: Event)
    requires Sound(k) && Enabled(k, e) && Disciplined(k, e) && EndsCounted(k, e)
    requires Step(k, e).status == Panicked
    ensures var k1 := Step(k, e);
            && k1.current == NIL && k1.ready == [] && k1.counted != {}
            && |k1.semAdd| == k1.maxProc && SoftBlocked(k1) == {}
  {
    hide Queues, Placed, Forest, FreeDetached, SemLaw, Subtree, SoftBlocked, Step;
    StepSound(k, e);
    Shapes(Step(k, e));
    PanicState(k, e);
  }

  lemma PanicState(k: K, e: Event)
    requires Core(k) && Enabled(k, e) && Step(k, e).status == Panicked
    ensures Step(k, e).current == NIL && Step(k, e).ready == [] && Step(k, e).softBlock <= 0
  {
    hide Queues, Placed, Forest, FreeDetached, Post, Prune, ReapAll;
    if k.current != NIL { CurrentLive(k); }
    match e
    case EvTick => DrainAll(k, ClockAddr(k));
    case EvTerminate =>
      SubtreeLive(k, k.current);
      Shapes(k);
      ReapAllFree(k, Post(k.tree, k.current));
    case _ =>
  }

  /**
   * The converse fails: once a tick has woken a clock waiter, softBlockCount stays above the number of soft-blocked
   * processes for the rest of the run, and the deadlock test never fires again.
   */
  lemma {:induction false} SlackEndsPanic(k: K, es: seq<Event>)
    requires Sound(k) && k.status == Live && Runs(k, es) && Proper(k, es) && Slack(k) > 0
    ensures Run(k, es).status != Panicked
    decreases |es|
  {
    if es != [] {
      hide Core, Sound, Step, Enabled, Subtree, Slack, Drift;
      assert Core(k) by { SoundCore(k); }
      StepCore(k, es[0]);
      var k1 := Step(k, es[0]);
      StepSound(k, es[0]);
      StepSlack(k, es[0]);
      DriftsUp(k, es[0]);
      if k1.status == Panicked {
        PanicSlack(k, es[0]);
      }
      if k1.status != Live {
        HaltedStays(k1, es[1..]);
      } else {
        SlackEndsPanic(k1, es[1..]);
      }
    }
  }

  lemma PanicSlack(k: K, e: Event)
    requires Core(k) && Enabled(k, e) && Step(k, e).status == Panicked
    requires |Step(k, e).semAdd| == Step(k, e).maxProc
    ensures Slack(Step(k, e)) <= 0
  {
    hide Queues, Placed, Forest, FreeDetached, Step, SoftBlocked;
    PanicState(k, e);
  }

  // ----- every pcb in one place -----

  /** The processes blocked on some semaphore. */
  ghost function BlockedPids(k: K): set<int>
    requires |k.semAdd| == k.maxProc
  {
    set p | p in Range(k.maxProc) && p !in k.free && k.semAdd[p] != NIL
  }

  ghost predicate BlockedOn(k: K, p: int, a: int) { a in k.blocked && p in k.blocked[a] }

  lemma BlockedPidsExact(k: K, p: int)
    requires Core(k) && IsPid(k, p)
    ensures p in BlockedPids(k) <==> BlockedOn(k, p, k.semAdd[p]) && p !in k.free
    ensures forall a :: BlockedOn(k, p, a) ==> a == k.semAdd[p] && p in BlockedPids(k)
  {
    hide Forest, FreeDetached;
    assert NIL !in k.blocked;
  }

  /** Each pcb is in exactly one of the five places. */
  lemma OnePlace(k: K, p: int)
    requires Core(k) && IsPid(k, p)
    ensures (if p in k.free then 1 else 0) + (if p in k.ready then 1 else 0) + (if p in BlockedPids(k) then 1 else 0)
            + (if p in k.templates then 1 else 0) + (if p == k.current then 1 else 0) == 1
  {
    hide Forest, FreeDetached;
    BlockedPidsExact(k, p);
  }

  lemma PlacedSets(k: K)
    requires Core(k)
    ensures |Elems(k.templates)| == |k.templates| && |Elems(k.free)| == |k.free| && |Elems(k.ready)| == |k.ready|
    ensures Within(k.templates, k.maxProc) && Within(k.free, k.maxProc) && Within(k.ready, k.maxProc)
    ensures k.current != NIL ==> IsPid(k, k.current)
    ensures forall p :: p in BlockedPids(k) ==> IsPid(k, p)
  {
    hide Forest, FreeDetached;
    CardDistinct(k.templates);
    CardDistinct(k.free);
    CardDistinct(k.ready);
  }

  ghost function CurrentSet(k: K): set<int> { if k.current == NIL then {} else {k.current} }

  lemma PlacesDisjoint(k: K)
    requires Core(k)
    ensures var f, r, t, b := Elems(k.free), Elems(k.ready), Elems(k.templates), BlockedPids(k);
            f !! r && (f + r) !! b && (f + r + b) !! t && (f + r + b + t) !! CurrentSet(k)
  {
    hide Queues, Placed, Forest, FreeDetached;
    Shapes(k);
    PlacedSets(k);
    var f, r, t, b := Elems(k.free), Elems(k.ready), Elems(k.templates), BlockedPids(k);
    forall p | p in f + r + t + b ensures
      && !(p in f && p in r) && !(p in f && p in b) && !(p in r && p in b) && !(p in f && p in t) && !(p in r && p in t)
      && !(p in b && p in t) && p != k.current {
      OnePlace(k, p);
    }
  }

  ghost function AllPlaces(k: K): set<int>
    requires |k.semAdd| == k.maxProc
  {
    Elems(k.free) + Elems(k.ready) + BlockedPids(k) + Elems(k.templates) + CurrentSet(k)
  }

  lemma InAllPlaces(k: K, p: int)
    requires Core(k) && |k.semAdd| == k.maxProc
    ensures p in AllPlaces(k) <==> IsPid(k, p)
  {
    hide Queues, Placed, Forest, FreeDetached, BlockedPids;
    PlacedSets(k);
    if IsPid(k, p) {
      OnePlace(k, p);
    }
  }

  lemma PlacesCover(k: K)
    requires Core(k) && |k.semAdd| == k.maxProc
    ensures AllPlaces(k) == Elems(Ids(0, k.maxProc))
  {
    hide Queues, Placed, Forest, FreeDetached, Ids, AllPlaces;
    IdsProps(0, k.maxProc);
    var u, v := AllPlaces(k), Elems(Ids(0, k.maxProc));
    forall p ensures p in u <==> p in v {
      InAllPlaces(k, p);
    }
  }

  /** The five places are disjoint and cover the table, so their sizes add up to MAXPROC. */
  lemma Conservation(k: K)
    requires Core(k)
    ensures |k.free| + |k.ready| + |BlockedPids(k)| + |k.templates| + (if k.current == NIL then 0 else 1) == k.maxProc
  {
    hide Queues, Placed, Forest, FreeDetached, BlockedPids, Elems;
    Shapes(k);
    PlacedSets(k);
    PlacesDisjoint(k);
    PlacesCover(k);
    IdsProps(0, k.maxProc);
    CardDistinct(Ids(0, k.maxProc));
    var f, r, t, b := Elems(k.free), Elems(k.ready), Elems(k.templates), BlockedPids(k);
    var c := CurrentSet(k);
    assert |f + r| == |f| + |r|;
    assert |f + r + b| == |f + r| + |b|;
    assert |f + r + b + t| == |f + r + b| + |t|;
    assert |f + r + b + t + c| == |f + r + b + t| + |c|;
  }

  // ----- semaphore descriptors -----

  /** The addresses the first n pcbs wait on. */
  ghost function Awaited(k: K, n: nat): set<int>
    requires |k.semAdd| == k.maxProc && n <= k.maxProc
  {
    if n == 0 then {}
    else Awaited(k, n - 1) + if n - 1 !in k.free && k.semAdd[n - 1] != NIL then {k.semAdd[n - 1]} else {}
  }

  lemma {:induction false} AwaitedBound(k: K, n: nat)
    requires |k.semAdd| == k.maxProc && n <= k.maxProc && IsPid(k, k.current) && k.current !in BlockedPids(k)
    ensures |Awaited(k, n)| <= n - if k.current < n then 1 else 0
  {
    if n > 0 {
      AwaitedBound(k, n - 1);
      var p := n - 1;
      if p !in k.free && k.semAdd[p] != NIL {
        CardPlus(Awaited(k, p), k.semAdd[p]);
      } else {
        assert Awaited(k, n) == Awaited(k, p) + {};
        assert Awaited(k, n) == Awaited(k, p);
      }
    }
  }

  lemma {:induction false} AwaitedCovers(k: K, n: nat, p: int)
    requires |k.semAdd| == k.maxProc && n <= k.maxProc && 0 <= p < n && p in BlockedPids(k)
    ensures k.semAdd[p] in Awaited(k, n)
  {
    if p < n - 1 {
      AwaitedCovers(k, n - 1, p);
    }
  }

  lemma CardPlus(s: set<int>, x: int)
    ensures |s + {x}| <= |s| + 1
  {
  }

  /**
   * Every active descriptor has a waiter of its own, and a running process waits nowhere: with as many descriptors
   * as pcbs, P never finds the descriptor free list empty.
   */
  lemma DescriptorsSuffice(k: K)
    requires Core(k) && k.current != NIL
    ensures |k.blocked| < k.maxProc
  {
    hide Placed, Forest, FreeDetached;
    CurrentNotBlocked(k);
    AwaitedBound(k, k.maxProc);
    var all := Awaited(k, k.maxProc);
    forall a | a in k.blocked ensures a in all {
      var p := k.blocked[a][0];
      assert p in k.blocked[a];
      BlockedPidsExact(k, p);
      assert BlockedOn(k, p, a);
      AwaitedCovers(k, k.maxProc, p);
    }
    var keys := set a | a in k.blocked;
    assert keys == k.blocked.Keys;
    assert all == keys + (all - keys);
  }

  lemma CurrentNotBlocked(k: K)
    requires Core(k) && k.current != NIL
    ensures IsPid(k, k.current) && k.current !in BlockedPids(k)
  {
  }

  // ----- round robin -----

  /** Position of x in s, or |s|. */
  function Pos(s: seq<int>, x: int): nat {
    if s == [] || s[0] == x then 0 else 1 + Pos(s[1..], x)
  }

  lemma {:induction false} PosAppend(s: seq<int>, t: seq<int>, x: int)
    requires x in s
    ensures Pos(s + t, x) == Pos(s, x)
  {
    if s[0] != x {
      assert (s + t)[1..] == s[1..] + t;
      PosAppend(s[1..], t, x);
    }
  }

  lemma {:induction false} PosKeep(s: seq<int>, dead: set<int>, x: int)
    requires x in s && x !in dead
    ensures x in Keep(s, dead) && Pos(Keep(s, dead), x) <= Pos(s, x)
  {
    if s[0] != x {
      PosKeep(s[1..], dead, x);
      var kept := Keep(s[1..], dead);
      if s[0] in dead {
        assert Keep(s, dead) == kept;
      } else {
        assert ([s[0]] + kept)[1..] == kept;
      }
    }
  }

  ghost predicate CallsScheduler(k: K, e: Event)
    requires Core(k) && Enabled(k, e)
  {
    match e
    case EvCreate => false
    case EvTerminate => CurrentLive(k); Terminated(k, k.current).status != Halted
    case EvPasseren(a) => Val(k, a) - 1 < 0
    case EvVerhogen(a) => false
    case EvWaitIO(line, dev, term) => Val(k, DevAddr(k, WaitIndex(line, dev, term))) - 1 < 0
    case EvWaitClock => Val(k, ClockAddr(k)) - 1 < 0
    case EvDevice(line, dev) => k.current == NIL && Val(k, DevAddr(k, InterruptIndex(line, dev))) + 1 <= 0
    case EvTick => k.current == NIL
    case EvTimeSlice => true
  }

  /** p is running or has been terminated. */
  predicate Gone(k: K, p: int) { k.current == p || p in k.free }

  ghost predicate MovesUp(k: K, k1: K, p: int, call: bool) {
    || Gone(k1, p)
    || (p in k1.ready && Pos(k1.ready, p) <= Pos(k.ready, p) - if call then 1 else 0)
  }

  lemma ScheduleMovesUp(k: K, p: int)
    requires p in k.ready
    ensures MovesUp(k, Schedule(k), p, true)
  {
  }

  /** A ready process is never overtaken: every event leaves it where it was or nearer the front. */
  lemma StepMovesUp(k: K, e: Event, p: int)
    requires Core(k) && Enabled(k, e) && p in k.ready
    ensures MovesUp(k, Step(k, e), p, CallsScheduler(k, e))
  {
    hide Queues, Placed, Forest, FreeDetached, Post, Keep;
    if k.current != NIL { CurrentLive(k); }
    ReadyAppend(k, p);
    match e
    case EvTerminate => TerminateMovesUp(k, p);
    case EvTick => DrainAll(k, ClockAddr(k));
    case _ =>
  }

  lemma ReadyAppend(k: K, p: int)
    requires p in k.ready
    ensures forall t {:trigger k.ready + t} :: p in k.ready + t && Pos(k.ready + t, p) == Pos(k.ready, p)
  {
    forall t ensures p in k.ready + t && Pos(k.ready + t, p) == Pos(k.ready, p) {
      PosAppend(k.ready, t, p);
    }
  }

  lemma TerminatedStatus(k: K, p: int)
    requires Core(k) && IsLive(k, p)
    ensures Terminated(k, p).status == k.status || Terminated(k, p) == k.(status := Halted)
  {
    hide Queues, Placed, FreeDetached, Post, ReapAll, Prune;
    SubtreeLive(k, p);
    Shapes(k);
    ReapAllFree(k, Post(k.tree, p));
  }

  lemma TerminateMovesUp(k: K, p: int)
    requires Core(k) && IsLive(k, k.current) && k.status == Live && p in k.ready
    ensures MovesUp(k, Terminate(k), p, Terminated(k, k.current).status != Halted)
  {
    hide Queues, Placed, Forest, FreeDetached, Post, Keep, Subtree;
    var k1 := Terminated(k, k.current);
    if k1.status != Halted {
      assert k1.status == Live by { TerminatedStatus(k, k.current); }
      TerminateFrees(k, k.current, k1);
      TerminateQueues(k, k.current, k1, 0);
      if p !in Subtree(k, k.current) {
        PosKeep(k.ready, Subtree(k, k.current), p);
        ScheduleMovesUp(k1, p);
        assert MovesUp(k, Schedule(k1), p, true);
      } else {
        assert Gone(Schedule(k1), p);
      }
    } else {
      TerminatedStatus(k, k.current);
    }
  }

  ghost function Calls(k: K, es: seq<Event>): nat
    requires Core(k) && Runs(k, es)
    decreases |es|
  {
    if es == [] then 0
    else
      StepCore(k, es[0]);
      (if CallsScheduler(k, es[0]) then 1 else 0) + Calls(Step(k, es[0]), es[1..])
  }

  /** At some point of the run p is dispatched or has been terminated. */
  ghost predicate Served(k: K, es: seq<Event>, p: int)
    requires Core(k) && Runs(k, es)
    decreases |es|
  {
    es != [] && (StepCore(k, es[0]); Gone(Step(k, es[0]), p) || Served(Step(k, es[0]), es[1..], p))
  }

  /** Bounded wait: at position i of the ready queue, i + 1 scheduler calls are enough. */
  lemma {:induction false} BoundedWait(k: K, es: seq<Event>, p: int)
    requires Core(k) && Runs(k, es) && p in k.ready && Calls(k, es) > Pos(k.ready, p)
    ensures Served(k, es, p)
    decreases |es|
  {
    hide Core, Step, Enabled, CallsScheduler;
    StepCore(k, es[0]);
    StepMovesUp(k, es[0], p);
    if !Gone(Step(k, es[0]), p) {
      BoundedWait(Step(k, es[0]), es[1..], p);
    }
  }

  // ----- when a deadlock is noticed -----

  lemma NoNils(k: K)
    requires Core(k)
    ensures k.ready != [] ==> k.ready[0] != NIL
    ensures forall a :: a in k.blocked ==> k.blocked[a] != [] && k.blocked[a][0] != NIL
    ensures k.current != NIL ==> IsLive(k, k.current)
  {
    if k.ready != [] {
      assert k.ready[0] in k.ready;
    }
    forall a | a in k.blocked ensures k.blocked[a] != [] && k.blocked[a][0] != NIL {
      assert k.blocked[a][0] in k.blocked[a];
    }
  }

  /** When an event calls the scheduler and nothing is ready, softBlockCount alone decides. */
  lemma SchedulerIdle(k: K, e: Event)
    requires Core(k) && Enabled(k, e) && CallsScheduler(k, e) && Step(k, e).current == NIL
    ensures Step(k, e).ready == []
    ensures Step(k, e).status == if Step(k, e).processCount == 0 then Halted
                                 else if Step(k, e).softBlock > 0 then Live else Panicked
  {
    hide Queues, Placed, Forest, FreeDetached, Terminated;
    NoNils(k);
    match e
    case EvTick => DrainAll(k, ClockAddr(k));
    case EvTerminate =>
      TerminatedCore(k, k.current);
      TerminatedStatus(k, k.current);
      NoNils(Terminated(k, k.current));
    case _ =>
  }

  /**
   * A deadlock is noticed exactly when softBlockCount is right: with nothing to run, the scheduler panics exactly if
   * nobody waits for a device or the clock and the count has not drifted.
   */
  lemma PanicExact(k: K, e: Event)
    requires Sound(k) && Enabled(k, e) && Disciplined(k, e) && EndsCounted(k, e)
    requires CallsScheduler(k, e) && Step(k, e).status != Halted && Step(k, e).current == NIL
    ensures |Step(k, e).semAdd| == Step(k, e).maxProc
    ensures Step(k, e).status == Panicked <==> SoftBlocked(Step(k, e)) == {} && Slack(Step(k, e)) == 0
  {
    hide Queues, Placed, Forest, FreeDetached, SemLaw, Subtree, SoftBlocked, Step, CallsScheduler;
    StepSound(k, e);
    Shapes(Step(k, e));
    SchedulerIdle(k, e);
  }

  /** How far softBlockCount moves over a run. */
  ghost function TotalDrift(k: K, es: seq<Event>): int
    requires Core(k) && Runs(k, es)
    decreases |es|
  {
    if es == [] then 0 else StepCore(k, es[0]); Drift(k, es[0]) + TotalDrift(Step(k, es[0]), es[1..])
  }

  /** No event of the run drifts. */
  ghost predicate NeverDrifts(k: K, es: seq<Event>)
    requires Core(k) && Runs(k, es)
    decreases |es|
  {
    es == [] || (Drift(k, es[0]) == 0 && (StepCore(k, es[0]); NeverDrifts(Step(k, es[0]), es[1..])))
  }

  lemma {:induction false} RunSlack(k: K, es: seq<Event>)
    requires Sound(k) && Runs(k, es) && Proper(k, es)
    ensures Run(k, es).status != Halted ==>
              |k.semAdd| == k.maxProc && Sound(Run(k, es)) && |Run(k, es).semAdd| == Run(k, es).maxProc
              && Slack(Run(k, es)) == Slack(k) + TotalDrift(k, es)
    ensures TotalDrift(k, es) >= 0 && (TotalDrift(k, es) == 0 <==> NeverDrifts(k, es))
    decreases |es|
  {
    if es == [] {
      SoundShape(k);
    } else {
      hide Core, Sound, Step, Enabled, Subtree, Slack, Drift, Disciplined;
      assert Core(k) by { SoundCore(k); }
      StepCore(k, es[0]);
      StepSound(k, es[0]);
      StepSlack(k, es[0]);
      DriftsUp(k, es[0]);
      if Step(k, es[0]).status != Halted {
        RunSlack(Step(k, es[0]), es[1..]);
      } else {
        HaltedStays(Step(k, es[0]), es[1..]);
        assert TotalDrift(Step(k, es[0]), es[1..]) == 0 && NeverDrifts(Step(k, es[0]), es[1..]);
      }
    }
  }

  lemma SoundShape(k: K)
    requires Sound(k)
    ensures |k.semAdd| == k.maxProc
  {
  }

  /** The state in which the scheduler has first run. */
  ghost function Started(devBase: int, maxProc: nat, uprocs: nat, sem: map<int, int>): K
    requires uprocs + 2 <= maxProc
  {
    Schedule(Boot(devBase, maxProc, uprocs, sem))
  }

  /** es is a proper run from boot. */
  ghost predicate ProperFromBoot(devBase: int, maxProc: nat, uprocs: nat, sem: map<int, int>, es: seq<Event>)
    ensures ProperFromBoot(devBase, maxProc, uprocs, sem, es) ==>
              && uprocs + 2 <= maxProc && Sound(Started(devBase, maxProc, uprocs, sem))
              && Runs(Started(devBase, maxProc, uprocs, sem), es) && Proper(Started(devBase, maxProc, uprocs, sem), es)
  {
    && BootSetup(devBase, maxProc, uprocs, sem)
    && (BootSound(devBase, maxProc, uprocs, sem);
        Runs(Started(devBase, maxProc, uprocs, sem), es) && Proper(Started(devBase, maxProc, uprocs, sem), es))
  }

  lemma BootSlack(devBase: int, maxProc: nat, uprocs: nat, sem: map<int, int>)
    requires BootSetup(devBase, maxProc, uprocs, sem)
    ensures var k := Started(devBase, maxProc, uprocs, sem); |k.semAdd| == k.maxProc && Slack(k) == 0
  {
    var k := Started(devBase, maxProc, uprocs, sem);
    assert SoftBlocked(k) == {};
  }

  /**
   * From boot: a deadlock panics exactly when no event of the run so far has made softBlockCount drift, that is, no
   * tick has woken a waiter, no clock waiter was terminated, no SYS5 or SYS7 was answered without waiting and no SYS4
   * woke a process from a device or the clock.
   */
  lemma DeadlockPanics(devBase: int, maxProc: nat, uprocs: nat, sem: map<int, int>, es: seq<Event>, e: Event)
    requires ProperFromBoot(devBase, maxProc, uprocs, sem, es)
    requires var k := Run(Started(devBase, maxProc, uprocs, sem), es);
             && Core(k) && Enabled(k, e) && Disciplined(k, e) && EndsCounted(k, e) && CallsScheduler(k, e)
             && Step(k, e).status != Halted && Step(k, e).current == NIL
    ensures var k0 := Started(devBase, maxProc, uprocs, sem);
            var k := Run(k0, es);
            && |Step(k, e).semAdd| == Step(k, e).maxProc
            && (Step(k, e).status == Panicked <==>
                  SoftBlocked(Step(k, e)) == {} && NeverDrifts(k0, es) && Drift(k, e) == 0)
  {
    var k0 := Started(devBase, maxProc, uprocs, sem);
    var k := Run(k0, es);
    BootSlack(devBase, maxProc, uprocs, sem);
    hide Core, Sound, Step, Subtree, Slack, Drift, Disciplined, Started, ProperFromBoot, CallsScheduler, SoftBlocked;
    RunSlack(k0, es);
    PanicExact(k, e);
    StepSlack(k, e);
    DriftsUp(k, e);
  }

  /**
   * The clock tick: every waiter goes to the back of the ready queue in the order the waiters blocked, nobody is left
   * waiting, and the pseudo-clock's semaphore is zero. With nobody running, the head of that queue is dispatched.
   */
  lemma TickWakesAll(k: K)
    requires Core(k) && k.status == Live
    ensures var k1, q := Tick(k), k.ready + Queue(k, ClockAddr(k));
            && Queue(k1, ClockAddr(k)) == [] && Val(k1, ClockAddr(k)) == 0
            && (k.current != NIL ==> k1.current == k.current && k1.ready == q)
            && (k.current == NIL && q != [] ==> k1.current == q[0] && k1.ready == q[1..])
  {
    hide Queues, Placed, Forest, FreeDetached, Drain;
    DrainAll(k, ClockAddr(k));
  }

  // ----- device semaphores -----

  /** Different devices wait on different semaphores, all below the pseudo-clock. */
  lemma WaitIndexInjective(line: int, dev: int, term: int, line': int, dev': int, term': int)
    requires ValidDevice(line, dev) && ValidDevice(line', dev') && 0 <= term <= 1 && 0 <= term' <= 1
    ensures 0 <= WaitIndex(line, dev, term) < NUM_DEVICES
    ensures WaitIndex(line, dev, term) == WaitIndex(line', dev', term') <==>
            line == line' && dev == dev' && (line == TERMINT ==> term == term')
  {
  }

  /** The semaphores stand in the order of lines, devices and sub-devices. */
  lemma WaitIndexInOrder(line: int, dev: int, term: int, line': int, dev': int, term': int)
    requires 3 <= line <= 7 && 0 <= dev < 8 && 3 <= line' <= 7 && 0 <= dev' < 8 && 0 <= term <= 1 && 0 <= term' <= 1
    ensures ValidDevice(line, dev) && ValidDevice(line', dev')
    ensures WaitIndex(line, dev, term) < WaitIndex(line', dev', term') <==>
            line < line' || (line == line' && (dev < dev' || (dev == dev' && line == 7 && term < term')))
  {
  }

  /** The 48 device semaphores are the words from devBase on, and the pseudo-clock's is the next. */
  lemma DeviceWords(k: K, a: int)
    ensures (exists i :: 0 <= i < 48 && a == DevAddr(k, i)) <==>
            k.devBase <= a < k.devBase + 192 && (a - k.devBase) % 4 == 0
    ensures ClockAddr(k) == k.devBase + 192
    ensures IsDevice(k, a) <==> k.devBase <= a <= k.devBase + 188
  {
    if k.devBase <= a < k.devBase + 192 && (a - k.devBase) % 4 == 0 {
      assert a == DevAddr(k, (a - k.devBase) / 4);
    }
  }

  /**
   * The machine goes astray exactly when, with no process running, a device interrupts that nobody waits for and that
   * owes no terminated waiter.
   */
  lemma AstrayExactly(k: K, e: Event)
    requires Core(k) && SemLaw(k) && Enabled(k, e)
    ensures Step(k, e).status == Astray <==>
              && e.EvDevice? && k.current == NIL
              && (var a := DevAddr(k, InterruptIndex(e.line, e.dev)); Waiting(k, a) == 0 && Orphaned(k, a) == 0)
  {
    hide Queues, Placed, Forest, FreeDetached, SemLaw;
    NoNils(k);
    match e
    case EvDevice(line, dev) => DeviceLaw(k, DevAddr(k, InterruptIndex(line, dev)));
    case EvTerminate => TerminatedStatus(k, k.current);
    case EvTick => DrainAll(k, ClockAddr(k));
    case _ =>
  }

  lemma DeviceLaw(k: K, a: int)
    requires SemLaw(k)
    ensures Deficit(Val(k, a)) == Waiting(k, a) + Orphaned(k, a) && Orphaned(k, a) >= 0
  {
    assert SemLawAt(k, a) by { assert Val(k, a) == Val(k, a); }
  }

  /** An interrupt answers the wait on its device, except that no terminal interrupt answers the even sub-device. */
  lemma InterruptAnswersWait(line: int, dev: int, term: int, line': int, dev': int)
    requires ValidDevice(line, dev) && ValidDevice(line', dev') && 0 <= term <= 1
    ensures InterruptIndex(line', dev') == WaitIndex(line, dev, term) <==>
            line == line' && dev == dev' && (line == TERMINT ==> term == 1)
  {
  }
}
