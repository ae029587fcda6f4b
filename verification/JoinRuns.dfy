/** The join barrier opens: from boot some run lets every user process signal, and test gets past its last wait. */
module JoinRuns {
  import opened Sequences
  import opened ProcessTree
  import opened NucleusState
  import opened NucleusPlaces
  import opened NucleusTerminate
  import opened NucleusRuns
  import opened NucleusEvents
  import opened JoinBarrier

  // ----- putting runs together -----

  ghost predicate Leads(w: World, xs: seq<Act>, w1: World) {
    Joining(w) && Plays(w, xs) && Play(w, xs) == w1 && Joining(w1)
  }

  lemma LeadsStep(w: World, x: Act)
    requires Joining(w) && Can(w, x)
    ensures Leads(w, [x], Next(w, x)) && Joining(Next(w, x))
  {
    JoiningCore(w);
    NextJoining(w, x);
    hide Joining, Can, Next;
    assert [x][1..] == [];
    assert Plays(Next(w, x), []) && Play(Next(w, x), []) == Next(w, x);
  }

  lemma {:induction false} LeadsOn(w: World, xs: seq<Act>, w1: World, ys: seq<Act>, w2: World)
    requires Leads(w, xs, w1) && Leads(w1, ys, w2)
    ensures Leads(w, xs + ys, w2)
    decreases |xs|
  {
    hide Sound, Family, Balanced, Can, Next;
    if xs == [] {
      assert xs + ys == ys;
    } else {
      JoiningCore(w);
      NextJoining(w, xs[0]);
      assert (xs + ys)[1..] == xs[1..] + ys;
      LeadsOn(Next(w, xs[0]), xs[1..], w1, ys, w2);
    }
  }

  // ----- single acts -----

  /** Out of pcbs test panics; otherwise the child stands for the next address space and is the last ready process. */
  lemma CreateAct(w: World)
    requires Joining(w) && Can(w, TestCreate)
    ensures w.k.free == [] ==> Next(w, TestCreate) == w.(k := w.k.(status := Panicked))
    ensures w.k.free != [] ==>
              var w1, n := Next(w, TestCreate), w.k.free[0];
              && w1 == w.(k := w1.k, made := w.made + 1, procOf := w.procOf[w.made + 1 := n])
              && RunsOn(w.k, w1.k, [n]) && w1.k.free == w.k.free[1..] && Val(w1.k, w.master) == Val(w.k, w.master)
  {
    hide Queues, Placed, Forest, FreeDetached, SemLaw, SoftLaw, CountLaw, Family, Step, Queue, Val;
    if w.k.free != [] {
      CurrentLive(w.k);
      CreateEffect(w.k, TEST);
    }
  }

  lemma SliceAct(w: World)
    requires Joining(w) && w.k.status == Live && w.k.current != NIL
    ensures Can(w, Other(EvTimeSlice))
    ensures var w1 := Next(w, Other(EvTimeSlice));
            && w1 == w.(k := w1.k) && Dispatched(w1.k, w.k.ready + [w.k.current]) && w1.k.free == w.k.free
            && Val(w1.k, w.master) == Val(w.k, w.master)
  {
    hide Queues, Placed, Forest, FreeDetached, SemLaw, SoftLaw, CountLaw, Family, Step, Queue, Val, Dispatched;
    SliceEffect(w.k);
  }

  lemma SignalAct(w: World, i: int)
    requires Joining(w) && Can(w, UserSignal(i)) && Val(w.k, w.master) >= 0
    ensures var w1 := Next(w, UserSignal(i));
            && w1 == w.(k := w1.k, signalled := w.signalled + [i]) && RunsOn(w.k, w1.k, [])
            && Val(w1.k, w.master) == Val(w.k, w.master) + 1
  {
    hide Queues, Placed, Forest, FreeDetached, SemLaw, SoftLaw, CountLaw, Family, Step, Queue, Val;
    SignalEffect(w.k, w.master);
  }

  lemma WaitAct(w: World)
    requires Joining(w) && Can(w, TestWait) && Val(w.k, w.master) > 0
    ensures var w1 := Next(w, TestWait);
            && w1 == w.(k := w1.k, waited := w.waited + 1) && RunsOn(w.k, w1.k, [])
            && Val(w1.k, w.master) == Val(w.k, w.master) - 1
  {
    hide Queues, Placed, Forest, FreeDetached, SemLaw, SoftLaw, CountLaw, Family, Step, Queue, Val, Dispatched;
    TakeEffect(w.k, EvPasseren(w.master), w.master);
  }

  // ----- the run -----

  /** The processes cs stand for the address spaces 1, 2 and on; none is test. */
  ghost predicate Named(procOf: map<int, int>, cs: seq<int>) {
    forall i :: 0 <= i < |cs| ==> NamedAt(procOf, cs, i)
  }

  ghost predicate NamedAt(procOf: map<int, int>, cs: seq<int>, i: int)
    requires 0 <= i < |cs|
  {
    i + 1 in procOf && procOf[i + 1] == cs[i] && cs[i] > TEST
  }

  /** test has created the processes cs and runs; the daemon and they are ready. */
  ghost predicate Made(w: World, cs: seq<int>) {
    && w.k.status == Live && w.k.current == TEST && w.k.ready == [1] + cs && w.made == |cs| <= w.uprocs
    && w.waited == 0 && w.signalled == [] && Val(w.k, w.master) == 0 && Named(w.procOf, cs)
  }

  lemma MadeNext(w: World, w1: World, cs: seq<int>, n: int)
    requires Made(w, cs) && n > TEST && |cs| < w.uprocs && RunsOn(w.k, w1.k, [n])
    requires w1 == w.(k := w1.k, made := w.made + 1, procOf := w.procOf[w.made + 1 := n])
    requires Val(w1.k, w.master) == Val(w.k, w.master)
    ensures Made(w1, cs + [n])
  {
    hide Val;
    assert [1] + cs + [n] == [1] + (cs + [n]);
    var ds := cs + [n];
    forall i | 0 <= i < |ds| ensures NamedAt(w1.procOf, ds, i) {
      assert i < |cs| ==> NamedAt(w.procOf, cs, i) && ds[i] == cs[i];
    }
  }

  lemma {:induction false} MakeAll(w: World, cs: seq<int>) returns (xs: seq<Act>, w1: World, ds: seq<int>)
    requires Joining(w) && Made(w, cs) && |w.k.free| >= w.uprocs - |cs|
    ensures Leads(w, xs, w1) && Made(w1, ds) && |ds| == w1.uprocs == w.uprocs && w1.master == w.master
    decreases w.uprocs - |cs|
  {
    hide Sound, Family, Balanced, Step, Val;
    if |cs| == w.uprocs {
      xs, w1, ds := [], w, cs;
      assert Plays(w, xs) && Play(w, xs) == w;
    } else {
      JoiningCore(w);
      NotTest(w);
      CreateAct(w);
      LeadsStep(w, TestCreate);
      var u, n := Next(w, TestCreate), w.k.free[0];
      hide Leads, Next, Can, Named, Joining;
      MadeNext(w, u, cs, n);
      hide Made, RunsOn;
      var ys;
      ys, w1, ds := MakeAll(u, cs + [n]);
      LeadsOn(w, [TestCreate], u, ys, w1);
      xs := [TestCreate] + ys;
    }
  }

  lemma NotTest(w: World)
    requires Joining(w) && w.k.current == TEST && w.k.free != []
    ensures w.k.free[0] > TEST
  {
    hide Forest, FreeDetached, SemLaw, SoftLaw, CountLaw, Family;
    assert w.k.free[0] in w.k.free;
  }

  /** The first i user processes have signalled and process i + 1 runs; test and the daemon come after the others. */
  ghost predicate Signalling(w: World, cs: seq<int>, i: nat) {
    && w.k.status == Live && i < |cs| == w.uprocs == w.made && w.k.current == cs[i] && Named(w.procOf, cs)
    && w.k.ready == cs[i + 1..] + [TEST, 1] + cs[..i]
    && w.waited == 0 && |w.signalled| == i && Val(w.k, w.master) == i && forall s :: s in w.signalled ==> s <= i
  }

  /** test runs, everybody has signalled, and test has waited j times. */
  ghost predicate Gathered(w: World, j: nat) {
    && w.k.status == Live && w.k.current == TEST && w.made == w.uprocs == |w.signalled|
    && w.waited == j <= w.uprocs && Val(w.k, w.master) == w.uprocs - j
  }

  /** test and the daemon give way to the first user process. */
  lemma GiveWay(w: World, cs: seq<int>) returns (xs: seq<Act>, w1: World)
    requires Joining(w) && Made(w, cs) && |cs| == w.uprocs
    ensures Leads(w, xs, w1) && w1.uprocs == w.uprocs && w1.master == w.master
    ensures if cs == [] then Gathered(w1, 0) else Signalling(w1, cs, 0)
  {
    hide Sound, Family, Balanced, Step, Val;
    if cs == [] {
      xs, w1 := [], w;
      assert Plays(w, xs) && Play(w, xs) == w;
    } else {
      var x := Other(EvTimeSlice);
      JoiningCore(w);
      SliceAct(w);
      LeadsStep(w, x);
      var u := Next(w, x);
      FirstSlice(u.k, cs);
      JoiningCore(u);
      SliceAct(u);
      LeadsStep(u, x);
      w1 := Next(u, x);
      hide Leads, Next, Can, Joining;
      SecondSlice(w1.k, cs);
      LeadsOn(w, [x], u, [x], w1);
      xs := [x] + [x];
    }
  }

  lemma FirstSlice(k: K, cs: seq<int>)
    requires Dispatched(k, [1] + cs + [TEST])
    ensures k.current == 1 && k.ready == cs + [TEST] && k.status == Live
  {
    assert [1] + cs + [TEST] == [1] + (cs + [TEST]);
  }

  lemma SecondSlice(k: K, cs: seq<int>)
    requires Dispatched(k, cs + [TEST] + [1]) && cs != []
    ensures k.current == cs[0] && k.ready == cs[1..] + [TEST, 1] + cs[..0] && k.status == Live
  {
    var r := cs + [TEST] + [1];
    assert r[0] == cs[0];
    assert r[1..] == cs[1..] + [TEST, 1] + cs[..0];
  }

  /** One process signals and gives way to the next, or to test. */
  lemma SignalOne(w: World, cs: seq<int>, i: nat) returns (xs: seq<Act>, w1: World)
    requires Joining(w) && Signalling(w, cs, i)
    ensures Leads(w, xs, w1) && w1.uprocs == w.uprocs && w1.master == w.master
    ensures if i + 1 < |cs| then Signalling(w1, cs, i + 1) else Gathered(w1, 0)
  {
    hide Sound, Family, Balanced, Step, Val;
    var x, y := UserSignal(i + 1), Other(EvTimeSlice);
    JoiningCore(w);
    Positive(w);
    assert NamedAt(w.procOf, cs, i);
    SignalAct(w, i + 1);
    LeadsStep(w, x);
    var u := Next(w, x);
    JoiningCore(u);
    SliceAct(u);
    LeadsStep(u, y);
    w1 := Next(u, y);
    hide Leads, Next, Can, Joining;
    Rotate(w1.k, u.k.ready, cs, i);
    LeadsOn(w, [x], u, [y], w1);
    xs := [x] + [y];
  }

  lemma Positive(w: World)
    requires Joining(w)
    ensures 0 < w.master < MAXINT
  {
    hide Queues, Placed, Forest, FreeDetached, SemLaw, SoftLaw, CountLaw, Family;
  }

  lemma Rotate(k: K, ready: seq<int>, cs: seq<int>, i: nat)
    requires i < |cs| && ready == cs[i + 1..] + [TEST, 1] + cs[..i] && Dispatched(k, ready + [cs[i]])
    ensures k.status == Live
    ensures if i + 1 < |cs| then k.current == cs[i + 1] && k.ready == cs[i + 2..] + [TEST, 1] + cs[..i + 1]
            else k.current == TEST
  {
    var r := ready + [cs[i]];
    assert cs[..i] + [cs[i]] == cs[..i + 1];
    if i + 1 < |cs| {
      assert cs[i + 1..] == [cs[i + 1]] + cs[i + 2..];
      assert r == [cs[i + 1]] + (cs[i + 2..] + [TEST, 1] + cs[..i + 1]);
    } else {
      assert cs[i + 1..] == [];
      assert r == [TEST] + ([1] + cs[..i + 1]);
    }
  }

  lemma {:induction false} SignalAll(w: World, cs: seq<int>, i: nat) returns (xs: seq<Act>, w1: World)
    requires Joining(w) && Signalling(w, cs, i)
    ensures Leads(w, xs, w1) && w1.uprocs == w.uprocs && w1.master == w.master && Gathered(w1, 0)
    decreases |cs| - i
  {
    hide Sound, Family, Balanced, Val;
    xs, w1 := SignalOne(w, cs, i);
    if i + 1 < |cs| {
      var u, zs := w1, [];
      zs, w1 := SignalAll(u, cs, i + 1);
      LeadsOn(w, xs, u, zs, w1);
      xs := xs + zs;
    }
  }

  lemma {:induction false} WaitAll(w: World, j: nat) returns (xs: seq<Act>, w1: World)
    requires Joining(w) && Gathered(w, j)
    ensures Leads(w, xs, w1) && w1.uprocs == w.uprocs && Gathered(w1, w.uprocs)
    decreases w.uprocs - j
  {
    hide Sound, Family, Balanced, Step, Val;
    if j == w.uprocs {
      xs, w1 := [], w;
      assert Plays(w, xs) && Play(w, xs) == w;
    } else {
      JoiningCore(w);
      Positive(w);
      WaitAct(w);
      LeadsStep(w, TestWait);
      var u := Next(w, TestWait);
      hide Leads, Next, Can, Joining;
      var ys;
      ys, w1 := WaitAll(u, j + 1);
      LeadsOn(w, [TestWait], u, ys, w1);
      xs := [TestWait] + ys;
    }
  }

  /**
   * The barrier can be passed: with a pcb for every user process and for its template, some run from boot ends with
   * test past its last wait, and its SYS2 then halts the machine.
   */
  lemma BarrierOpens(devBase: int, maxProc: nat, uprocs: nat, sem: map<int, int>, master: int) returns (xs: seq<Act>)
    requires StartSetup(devBase, maxProc, uprocs, sem, master) && 2 * uprocs + 2 <= maxProc
    ensures FromBoot(devBase, maxProc, uprocs, sem, master, xs)
    ensures var w := Play(Start(devBase, maxProc, uprocs, sem, master), xs);
            && w.k.current == TEST && w.waited == uprocs && w.k.status == Live
            && Core(w.k) && Step(w.k, EvTerminate).status == Halted
  {
    var w := Start(devBase, maxProc, uprocs, sem, master);
    StartJoining(devBase, maxProc, uprocs, sem, master);
    StartMade(devBase, maxProc, uprocs, sem, master);
    hide Joining, Start, StartSetup, Leads, Made, Signalling, Gathered;
    var made, u, cs := MakeAll(w, []);
    assert Joining(u) by { LeadsJoining(w, made, u); }
    var bs, v := GiveWay(u, cs);
    LeadsOn(w, made, u, bs, v);
    xs := made + bs;
    LeadsJoining(w, xs, v);
    if cs != [] {
      var ds, t := SignalAll(v, cs, 0);
      LeadsOn(w, xs, v, ds, t);
      xs, v := xs + ds, t;
      LeadsJoining(w, xs, v);
    }
    var fs, z := WaitAll(v, 0);
    LeadsOn(w, xs, v, fs, z);
    xs := xs + fs;
    Passed(devBase, maxProc, uprocs, sem, master, xs, z);
  }

  lemma LeadsJoining(w: World, xs: seq<Act>, w1: World)
    requires Leads(w, xs, w1)
    ensures Joining(w1)
  {
  }

  lemma StartMade(devBase: int, maxProc: nat, uprocs: nat, sem: map<int, int>, master: int)
    requires StartSetup(devBase, maxProc, uprocs, sem, master) && 2 * uprocs + 2 <= maxProc
    requires Joining(Start(devBase, maxProc, uprocs, sem, master))
    ensures Made(Start(devBase, maxProc, uprocs, sem, master), [])
    ensures |Start(devBase, maxProc, uprocs, sem, master).k.free| >= uprocs
    ensures Start(devBase, maxProc, uprocs, sem, master).uprocs == uprocs
  {
    hide Joining, Ids, BareTree, Nils;
    IdsProps(uprocs + 2, maxProc);
    assert [1] + [] == [1];
    assert [0, 1][1..] == [1];
  }

  lemma Passed(devBase: int, maxProc: nat, uprocs: nat, sem: map<int, int>, master: int, xs: seq<Act>, z: World)
    requires StartSetup(devBase, maxProc, uprocs, sem, master)
    requires Leads(Start(devBase, maxProc, uprocs, sem, master), xs, z) && Gathered(z, uprocs) && z.uprocs == uprocs
    ensures FromBoot(devBase, maxProc, uprocs, sem, master, xs) && Core(z.k)
    ensures Play(Start(devBase, maxProc, uprocs, sem, master), xs) == z && z.k.current == TEST && z.k.status == Live
    ensures Step(z.k, EvTerminate).status == Halted && z.waited == uprocs
  {
    hide Joining, Start, Step, StartSetup;
    Barrier(devBase, maxProc, uprocs, sem, master, xs);
  }
}
