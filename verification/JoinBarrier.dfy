/**
 * test of initProc.c and the V of supTerminate, as programs that run on the nucleus: test creates the user processes,
 * waits once for each on the master semaphore, and then ends.
 */
module JoinBarrier {
  import opened Sequences
  import opened ProcessTree
  import opened NucleusState
  import opened NucleusPlaces
  import opened NucleusLaws
  import opened NucleusTerminate
  import opened NucleusRuns

  /** The pcb createProcess takes for test. */
  const TEST := 0

  /**
   * made and waited are test's two loop counters; procOf gives the pcb test created for an address space; signalled
   * holds the address spaces whose process has done its V in supTerminate.
   */
  datatype World = World(k: K, master: int, uprocs: nat, made: nat, waited: nat, procOf: map<int, int>,
                         signalled: seq<int>)

  datatype Act =
    | TestCreate
    | TestWait
    | UserSignal(asid: int)
    | Other(e: Event)

  /** An event in which nobody runs a system call. */
  predicate IsInterrupt(e: Event) { e.EvDevice? || e.EvTick? || e.EvTimeSlice? }

  /**
   * What can happen next. test only runs its own program. The other processes use SYS3 and SYS4 on other semaphores
   * only, cannot create processes, and end only themselves; the delay daemon never ends.
   */
  predicate Can(w: World, x: Act) {
    match x
    case TestCreate => Enabled(w.k, EvCreate) && w.k.current == TEST && w.made < w.uprocs
    case TestWait => Enabled(w.k, EvPasseren(w.master)) && w.k.current == TEST && w.made == w.uprocs
        && w.waited < w.uprocs
    case UserSignal(i) =>
      && Enabled(w.k, EvVerhogen(w.master)) && w.k.current != TEST
      && i in w.procOf && w.procOf[i] == w.k.current && i !in w.signalled
    case Other(e) =>
      && Enabled(w.k, e) && !e.EvCreate? && (IsInterrupt(e) || w.k.current != TEST)
      && Disciplined(w.k, e) && EndsCounted(w.k, e)
      && (e.EvPasseren? || e.EvVerhogen? ==> e.a != w.master)
  }

  ghost function Next(w: World, x: Act): World
    requires Core(w.k) && Can(w, x)
  {
    match x
    case TestCreate =>
      if w.k.free == [] then w.(k := w.k.(status := Panicked))
      else w.(k := Step(w.k, EvCreate), made := w.made + 1, procOf := w.procOf[w.made + 1 := w.k.free[0]])
    case TestWait => w.(k := Step(w.k, EvPasseren(w.master)), waited := w.waited + 1)
    case UserSignal(i) => w.(k := Step(w.k, EvVerhogen(w.master)), signalled := w.signalled + [i])
    case Other(e) => w.(k := Step(w.k, e))
  }

  /** test is alive and at the top, and the counted processes are test and its children. */
  ghost predicate Family(k: K)
    requires |k.tree.prnt| == k.maxProc
  {
    && IsLive(k, TEST) && k.tree.prnt[TEST] == NIL && TEST in k.counted
    && forall p :: p in k.counted && IsPid(k, p) ==> p == TEST || k.tree.prnt[p] == TEST
  }

  predicate OnlyTest(q: seq<int>) { q == [] || q == [TEST] }

  /** The master semaphore counts signals against waits, and nobody but test waits on it. */
  ghost predicate Balanced(w: World) {
    && !IsSoft(w.k, w.master) && 0 < w.master < MAXINT
    && Val(w.k, w.master) == |w.signalled| - w.waited
    && OnlyTest(Queue(w.k, w.master))
    && Distinct(w.signalled) && (forall i :: i in w.signalled ==> 1 <= i <= w.made)
    && (forall i :: i in w.procOf ==> 1 <= i <= w.made)
    && w.made <= w.uprocs && w.waited <= w.uprocs && (w.waited > 0 ==> w.made == w.uprocs)
  }

  ghost predicate Joining(w: World) {
    Sound(w.k) && |w.k.tree.prnt| == w.k.maxProc && Family(w.k) && Balanced(w)
  }

  // ----- one event -----

  lemma CreatedFamily(k: K)
    requires Core(k) && Enabled(k, EvCreate) && k.current == TEST && k.free != [] && Family(k)
    ensures |Created(k).tree.prnt| == Created(k).maxProc && Family(Created(k))
  {
    CurrentLive(k);
    TailProps(k.free);
  }

  /** A child of test that ends takes neither test nor its siblings with it. */
  lemma TerminatedFamily(k: K)
    requires Core(k) && Enabled(k, EvTerminate) && k.current != TEST && k.current in k.counted && Family(k)
    requires IsLive(k, k.current) && Terminated(k, k.current).status != Halted
    ensures var k1 := Terminated(k, k.current);
            |k1.tree.prnt| == k1.maxProc && Family(k1) && k1.devBase == k.devBase && k1.status == Live
  {
    hide Queues, Placed, Forest, FreeDetached, Subtree, Post, Descends, Prune, ReapAll;
    Shapes(k);
    var p := k.current;
    var k1 := Terminated(k, p);
    SubtreeLive(k, p);
    NotBelow(k, p);
    ReapAllFree(k, Post(k.tree, p));
    ReapAllBase(k, Post(k.tree, p));
    ReapAllCounted(k, Post(k.tree, p));
    SubtreePost(k, p);
    TerminateFrees(k, p, k1);
    TerminateTree(k, p, k1, p);
    forall x | IsPid(k, x) ensures x !in Subtree(k, p) ==> k1.tree.prnt[x] == k.tree.prnt[x] {
      TerminateTree(k, p, k1, x);
    }
  }

  /** test is below nobody but itself. */
  lemma NotBelow(k: K, p: int)
    requires Core(k) && IsLive(k, p) && p != TEST && |k.tree.prnt| == k.maxProc && IsPid(k, TEST)
    requires k.tree.prnt[TEST] == NIL
    ensures TEST !in Subtree(k, p)
  {
  }

  lemma SignalOther(k: K, a: int, m: int)
    requires Queues(k) && a != m
    ensures Val(Verhogen(k, a), m) == Val(k, m) && Queue(Verhogen(k, a), m) == Queue(k, m)
    ensures Val(DeviceInterrupt(k, a), m) == Val(k, m) && Queue(DeviceInterrupt(k, a), m) == Queue(k, m)
  {
  }

  lemma WaitOther(k: K, a: int, m: int)
    requires Queues(k) && IsPid(k, k.current) && a != m
    ensures Val(Passeren(k, a), m) == Val(k, m) && Queue(Passeren(k, a), m) == Queue(k, m)
  {
  }

  lemma TickOther(k: K, m: int)
    requires Queues(k) && m != ClockAddr(k)
    ensures Val(Tick(k), m) == Val(k, m) && Queue(Tick(k), m) == Queue(k, m)
  {
    hide Queues, Drain;
    DrainAll(k, ClockAddr(k));
  }

  /** An event that neither signals nor waits on the master semaphore leaves it as it is. */
  lemma MasterSame(k: K, e: Event, m: int)
    requires Core(k) && Enabled(k, e) && !IsSoft(k, m) && !e.EvTerminate?
    requires e.EvPasseren? || e.EvVerhogen? ==> e.a != m
    ensures Val(Step(k, e), m) == Val(k, m) && Queue(Step(k, e), m) == Queue(k, m)
  {
    hide Queues, Placed, Forest, FreeDetached, Passeren, Verhogen, DeviceInterrupt, Tick;
    SoftAddresses(k);
    if k.current != NIL { CurrentLive(k); }
    CoreSame(k, k.(softBlock := k.softBlock + 1));
    match e
    case EvTick => TickOther(k, m);
    case EvWaitIO(line, dev, term) => WaitOther(k.(softBlock := k.softBlock + 1),
        DevAddr(k, WaitIndex(line, dev, term)), m);
    case EvWaitClock => WaitOther(k.(softBlock := k.softBlock + 1), ClockAddr(k), m);
    case EvPasseren(a) => WaitOther(k, a, m);
    case EvVerhogen(a) => SignalOther(k, a, m);
    case EvDevice(line, dev) => SignalOther(k, DevAddr(k, InterruptIndex(line, dev)), m);
    case _ =>
  }

  lemma MasterTerminate(k: K, m: int)
    requires Core(k) && Enabled(k, EvTerminate) && IsLive(k, k.current) && Terminated(k, k.current).status != Halted
    requires IsLive(k, TEST) && |k.tree.prnt| == k.maxProc && k.tree.prnt[TEST] == NIL && k.current != TEST
    requires !IsDevice(k, m) && OnlyTest(Queue(k, m))
    ensures Val(Step(k, EvTerminate), m) == Val(k, m) && Queue(Step(k, EvTerminate), m) == Queue(k, m)
  {
    hide Queues, Placed, Forest, FreeDetached, Subtree, Post, Descends, Keep, ReapAll, Prune;
    var p := k.current;
    SubtreeLive(k, p);
    Shapes(k);
    ReapAllFree(k, Post(k.tree, p));
    TerminateQueues(k, p, Terminated(k, p), m);
    NotBelow(k, p);
    KeepAll(Queue(k, m), Subtree(k, p));
  }

  /** No event of another process, and no interrupt, ends test or halts the machine. */
  lemma OtherFamily(k: K, e: Event)
    requires Sound(k) && Enabled(k, e) && !e.EvCreate? && Disciplined(k, e) && EndsCounted(k, e)
    requires (IsInterrupt(e) || k.current != TEST) && |k.tree.prnt| == k.maxProc && Family(k)
    ensures Step(k, e).status != Halted
    ensures |Step(k, e).tree.prnt| == Step(k, e).maxProc && Family(Step(k, e)) && Step(k, e).devBase == k.devBase
  {
    hide Queues, Placed, Forest, FreeDetached, Subtree, SemLaw, SoftLaw, CountLaw, Terminated;
    StepSound(k, e);
    if e.EvTerminate? {
      CurrentLive(k);
      NotBelow(k, k.current);
      TerminatedFamily(k);
    } else {
      StaysPut(k, e);
    }
  }

  lemma OtherMaster(k: K, e: Event, m: int)
    requires Sound(k) && Enabled(k, e) && !e.EvCreate? && Step(k, e).status != Halted
    requires IsInterrupt(e) || k.current != TEST
    requires |k.tree.prnt| == k.maxProc && Family(k) && !IsSoft(k, m) && OnlyTest(Queue(k, m))
    requires e.EvPasseren? || e.EvVerhogen? ==> e.a != m
    ensures Val(Step(k, e), m) == Val(k, m) && Queue(Step(k, e), m) == Queue(k, m)
  {
    hide Queues, Placed, Forest, FreeDetached, Subtree, SemLaw, SoftLaw, CountLaw, Terminated, Queue;
    if e.EvTerminate? {
      CurrentLive(k);
      MasterTerminate(k, m);
    } else {
      MasterSame(k, e, m);
    }
  }

  // ----- one act -----

  /** SYS3 by test: one more wait on record, and test in the queue if no signal was left for it. */
  lemma WaitMaster(k: K, m: int)
    requires Core(k) && k.current == TEST && Enabled(k, EvPasseren(m)) && OnlyTest(Queue(k, m))
    ensures Val(Step(k, EvPasseren(m)), m) == Val(k, m) - 1 && OnlyTest(Queue(Step(k, EvPasseren(m)), m))
  {
    hide Forest, FreeDetached, Placed;
    CurrentLive(k);
    TestUnqueued(k, m);
  }

  lemma SignalMaster(k: K, m: int)
    requires Core(k) && Enabled(k, EvVerhogen(m)) && OnlyTest(Queue(k, m))
    ensures Val(Step(k, EvVerhogen(m)), m) == Val(k, m) + 1 && OnlyTest(Queue(Step(k, EvVerhogen(m)), m))
  {
    hide Placed, Forest, FreeDetached;
  }

  lemma NextJoining(w: World, x: Act)
    requires Joining(w) && Can(w, x)
    ensures Next(w, x).k.status != Halted && Joining(Next(w, x)) && Next(w, x).uprocs == w.uprocs
  {
    hide Queues, Placed, Forest, FreeDetached, SemLaw, SoftLaw, CountLaw, Step, Queue, Family;
    var k, m := w.k, w.master;
    match x
    case TestCreate =>
      if k.free != [] {
        StepSound(k, EvCreate);
        MasterSame(k, EvCreate, m);
        CreateJoining(k);
      } else {
        PanicJoining(w);
      }
    case TestWait =>
      StepSound(k, EvPasseren(m));
      StaysPut(k, EvPasseren(m));
      FamilySame(k, Step(k, EvPasseren(m)));
      WaitMaster(k, m);
      WaitBalanced(w);
    case UserSignal(i) =>
      StepSound(k, EvVerhogen(m));
      StaysPut(k, EvVerhogen(m));
      FamilySame(k, Step(k, EvVerhogen(m)));
      SignalMaster(k, m);
      SignalBalanced(w, i);
    case Other(e) =>
      StepSound(k, e);
      OtherFamily(k, e);
      OtherMaster(k, e, m);
      OtherBalanced(w, e);
  }

  lemma CreateJoining(k: K)
    requires Core(k) && Enabled(k, EvCreate) && k.current == TEST && k.free != []
    requires |k.tree.prnt| == k.maxProc && Family(k)
    ensures var k1 := Step(k, EvCreate); |k1.tree.prnt| == k1.maxProc && Family(k1) && k1.devBase == k.devBase
  {
    hide Queues, Placed, Forest, FreeDetached, Family;
    CreatedFamily(k);
  }

  lemma PanicJoining(w: World)
    requires Joining(w)
    ensures Joining(w.(k := w.k.(status := Panicked)))
  {
    var k1 := w.k.(status := Panicked);
    hide Queues, Placed, Forest, FreeDetached, CountLaw;
    Shapes(w.k);
    CoreSame(w.k, k1);
    SemLawSame(w.k, k1);
    SoftSame(w.k, k1);
    CountSame(w.k, k1);
    hide SemLaw;
  }

  lemma FamilySame(k: K, k1: K)
    requires |k.tree.prnt| == k.maxProc && Family(k)
    requires k1.tree == k.tree && k1.counted == k.counted && k1.free == k.free && k1.templates == k.templates
    requires k1.maxProc == k.maxProc
    ensures |k1.tree.prnt| == k1.maxProc && Family(k1)
  {
  }

  lemma WaitBalanced(w: World)
    requires Joining(w) && Can(w, TestWait) && Next(w, TestWait).k.devBase == w.k.devBase
    requires Val(Next(w, TestWait).k, w.master) == Val(w.k, w.master) - 1
    requires OnlyTest(Queue(Next(w, TestWait).k, w.master))
    ensures Balanced(Next(w, TestWait))
  {
    hide Queues, Placed, Forest, FreeDetached, SemLaw, SoftLaw, CountLaw, Step, Queue, Family;
  }

  lemma SignalBalanced(w: World, i: int)
    requires Joining(w) && Can(w, UserSignal(i)) && Next(w, UserSignal(i)).k.devBase == w.k.devBase
    requires Val(Next(w, UserSignal(i)).k, w.master) == Val(w.k, w.master) + 1
    requires OnlyTest(Queue(Next(w, UserSignal(i)).k, w.master))
    ensures Balanced(Next(w, UserSignal(i)))
  {
    hide Queues, Placed, Forest, FreeDetached, SemLaw, SoftLaw, CountLaw, Step, Queue, Family;
    AppendProps(w.signalled, i);
  }

  lemma OtherBalanced(w: World, e: Event)
    requires Joining(w) && Can(w, Other(e)) && Step(w.k, e).devBase == w.k.devBase
    requires Val(Step(w.k, e), w.master) == Val(w.k, w.master) && Queue(Step(w.k, e), w.master) == Queue(w.k, w.master)
    ensures Balanced(Next(w, Other(e)))
  {
    hide Queues, Placed, Forest, FreeDetached, SemLaw, SoftLaw, CountLaw, Step, Queue, Family;
  }

  // ----- the barrier -----

  /** test is kept waiting exactly when it has waited once more often than it was signalled. */
  lemma WaitsExactly(w: World)
    requires Joining(w)
    ensures TEST in Queue(w.k, w.master) <==> w.waited == |w.signalled| + 1
    ensures w.waited <= |w.signalled| + 1
  {
    hide Placed, Forest, FreeDetached, SoftLaw, CountLaw, Family;
    assert SemLawAt(w.k, w.master) by { assert Val(w.k, w.master) == Val(w.k, w.master); }
  }

  /** Past its last wait, test knows that every user process has signalled. */
  lemma AllSignalled(w: World)
    requires Joining(w) && w.k.current == TEST && w.waited == w.uprocs
    ensures forall i :: 1 <= i <= w.uprocs ==> i in w.signalled
    ensures |w.signalled| == w.uprocs
  {
    hide Queues, Placed, Forest, FreeDetached, SemLaw, SoftLaw, CountLaw, Family, Ids;
    WaitsExactly(w);
    TestUnqueued(w.k, w.master);
    IdsProps(1, w.uprocs + 1);
    CardDistinct(Ids(1, w.uprocs + 1));
    CardDistinct(w.signalled);
    var all, done := Elems(Ids(1, w.uprocs + 1)), Elems(w.signalled);
    assert all == done + (all - done);
    assert |all| == |done| + |all - done|;
    assert all - done == {};
    forall i | 1 <= i <= w.uprocs ensures i in w.signalled {
      assert i in all;
    }
  }

  lemma TestUnqueued(k: K, m: int)
    requires Core(k) && k.current == TEST
    ensures TEST !in Queue(k, m)
  {
    hide Forest, FreeDetached;
  }

  /** test's end is the end of the machine: every counted process is test or one of its children. */
  lemma EndHalts(w: World)
    requires Joining(w) && w.k.current == TEST && Enabled(w.k, EvTerminate)
    ensures Step(w.k, EvTerminate).status == Halted
  {
    hide Queues, Placed, FreeDetached, SemLaw, SoftLaw, CountLaw, Step, Post;
    var k := w.k;
    Shapes(k);
    CurrentLive(k);
    SubtreeCounted(k, TEST);
    SubtreePost(k, TEST);
    var all, below := k.counted, Subtree(k, TEST);
    assert forall x :: x in below ==> x in all;
    CountedPids(k);
    assert forall x :: x in all ==> x in below;
    StepSound(k, EvTerminate);
  }

  lemma CountedPids(k: K)
    requires |k.tree.kids| == k.maxProc && CountLaw(k)
    ensures forall p :: p in k.counted ==> IsPid(k, p)
  {
  }

  // ----- whole runs -----

  ghost function Start(devBase: int, maxProc: nat, uprocs: nat, sem: map<int, int>, master: int): World
    requires uprocs + 2 <= maxProc
  {
    World(Schedule(Boot(devBase, maxProc, uprocs, sem)), master, uprocs, 0, 0, map[], [])
  }

  /** The master semaphore is an ordinary integer that starts at zero. */
  ghost predicate StartSetup(devBase: int, maxProc: nat, uprocs: nat, sem: map<int, int>, master: int) {
    && BootSetup(devBase, maxProc, uprocs, sem) && 0 < master < MAXINT && (master in sem ==> sem[master] == 0)
    && !(devBase <= master <= devBase + WORDLEN * (NUM_DEVICES - 1)) && master != devBase + WORDLEN * NUM_DEVICES
  }

  lemma StartJoining(devBase: int, maxProc: nat, uprocs: nat, sem: map<int, int>, master: int)
    requires StartSetup(devBase, maxProc, uprocs, sem, master)
    ensures Joining(Start(devBase, maxProc, uprocs, sem, master))
  {
    hide Sound, Ids, Queues, Placed, Forest, FreeDetached, SemLaw, SoftLaw, CountLaw;
    BootSound(devBase, maxProc, uprocs, sem);
    IdsProps(uprocs + 2, maxProc);
    IdsProps(2, uprocs + 2);
  }

  ghost predicate Plays(w: World, xs: seq<Act>)
    requires Joining(w)
    decreases |xs|
  {
    xs == [] || (Can(w, xs[0]) && (NextJoining(w, xs[0]); Plays(Next(w, xs[0]), xs[1..])))
  }

  ghost function Play(w: World, xs: seq<Act>): World
    requires Joining(w) && Plays(w, xs)
    decreases |xs|
  {
    if xs == [] then w else NextJoining(w, xs[0]); Play(Next(w, xs[0]), xs[1..])
  }

  lemma {:induction false} PlayJoining(w: World, xs: seq<Act>)
    requires Joining(w) && Plays(w, xs)
    ensures Joining(Play(w, xs)) && Play(w, xs).uprocs == w.uprocs
    decreases |xs|
  {
    if xs != [] {
      hide Joining, Can, Next;
      NextJoining(w, xs[0]);
      PlayJoining(Next(w, xs[0]), xs[1..]);
    }
  }

  /** xs is a run from boot. */
  ghost predicate FromBoot(devBase: int, maxProc: nat, uprocs: nat, sem: map<int, int>, master: int, xs: seq<Act>)
    ensures FromBoot(devBase, maxProc, uprocs, sem, master, xs) ==>
              && uprocs + 2 <= maxProc && Joining(Start(devBase, maxProc, uprocs, sem, master))
              && Plays(Start(devBase, maxProc, uprocs, sem, master), xs)
  {
    && StartSetup(devBase, maxProc, uprocs, sem, master)
    && (StartJoining(devBase, maxProc, uprocs, sem, master); Plays(Start(devBase, maxProc, uprocs, sem, master), xs))
  }

  /**
   * The join barrier: in every run from boot, when test runs past its last wait each of the user processes has
   * signalled the master semaphore once, and test's final SYS2 then halts the machine.
   */
  lemma Barrier(devBase: int, maxProc: nat, uprocs: nat, sem: map<int, int>, master: int, xs: seq<Act>)
    requires FromBoot(devBase, maxProc, uprocs, sem, master, xs)
    ensures var w := Play(Start(devBase, maxProc, uprocs, sem, master), xs);
            w.k.current == TEST && w.waited == uprocs && w.k.status == Live ==>
              && (forall i :: 1 <= i <= uprocs ==> i in w.signalled) && |w.signalled| == uprocs
              && Core(w.k) && Enabled(w.k, EvTerminate) && Step(w.k, EvTerminate).status == Halted
  {
    hide Joining, Step, FromBoot;
    var w0 := Start(devBase, maxProc, uprocs, sem, master);
    PlayJoining(w0, xs);
    var w := Play(w0, xs);
    if w.k.current == TEST && w.waited == uprocs && w.k.status == Live {
      AllSignalled(w);
      JoiningCore(w);
      EndHalts(w);
    }
  }

  lemma JoiningCore(w: World)
    requires Joining(w)
    ensures Core(w.k)
  {
  }
}
