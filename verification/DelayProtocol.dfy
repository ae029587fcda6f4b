/**
 * SYS18 and the delay daemon as concurrent programs: the list lock, the private semaphores, and the gap between a
 * sleeper's release of the lock and its P.
 */
module DelayProtocol {
  import opened Sequences
  import opened DelayList

  /** Where a process stands in supDelay. wake is the stored wake time, due the time it asked for. */
  datatype Phase =
    | Awake
    | Asked(sec: int)
    | Locked(sec: int)
    | Listed(wake: int, due: int)
    | Unlocked(wake: int, due: int)
    | Blocked(wake: int, due: int)

  datatype Lock = Open | HeldBy(p: int) | HeldByDaemon

  /**
   * The descriptor pool has one entry per process. sem holds the private semaphores; calls counts each process's
   * insertions, wakes the daemon's V's on its semaphore. sweep is the time of the daemon's current pass.
   */
  datatype D = D(procs: nat, now: int, list: seq<Sleep>, lock: Lock, sweep: int, phase: seq<Phase>, sem: seq<int>,
                 calls: seq<int>, wakes: seq<int>)

  datatype Event =
    | Advance(t: int)
    | Ask(p: int, sec: int)
    | Acquire(p: int)
    | Enlist(p: int)
    | Release(p: int)
    | Block(p: int)
    | DaemonAcquire
    | DaemonWake
    | DaemonRelease

  predicate Shaped(d: D) {
    |d.phase| == |d.sem| == |d.calls| == |d.wakes| == d.procs
  }

  predicate IsProc(d: D, p: int) { 0 <= p < d.procs }

  predicate Sleeps(ph: Phase) { ph.Listed? || ph.Unlocked? || ph.Blocked? }

  /** The clock never runs past MAXINT, and every delay is a nonnegative int. */
  predicate Enabled(d: D, e: Event)
    requires Shaped(d)
  {
    match e
    case Advance(t) => d.now <= t <= MAXINT
    case Ask(p, sec) => IsProc(d, p) && d.phase[p].Awake? && 0 <= sec <= MAXINT
    case Acquire(p) => IsProc(d, p) && d.phase[p].Asked? && d.lock.Open?
    case Enlist(p) => IsProc(d, p) && d.phase[p].Locked? && |d.list| < d.procs
    case Release(p) => IsProc(d, p) && d.phase[p].Listed?
    case Block(p) => IsProc(d, p) && d.phase[p].Unlocked?
    case DaemonAcquire => d.lock.Open?
    case DaemonWake => d.lock.HeldByDaemon? && d.list != [] && d.list[0].wake <= d.sweep && IsProc(d, d.list[0].sup)
    case DaemonRelease => d.lock.HeldByDaemon? && (d.list == [] || d.list[0].wake > d.sweep)
  }

  function Step(d: D, e: Event): D
    requires Shaped(d) && Enabled(d, e)
  {
    match e
    case Advance(t) => d.(now := t)
    case Ask(p, sec) => d.(phase := d.phase[p := Asked(sec)])
    case Acquire(p) => d.(phase := d.phase[p := Locked(d.phase[p].sec)], lock := HeldBy(p))
    case Enlist(p) =>
      var sec := d.phase[p].sec;
      var w := WakeTime(d.now, sec);
      d.(list := Inserted(d.list, Sleep(w, p)), phase := d.phase[p := Listed(w, d.now + sec * SECOND)],
         calls := d.calls[p := d.calls[p] + 1])
    case Release(p) => d.(phase := d.phase[p := Unlocked(d.phase[p].wake, d.phase[p].due)], lock := Open)
    case Block(p) =>
      var v := d.sem[p] - 1;
      d.(sem := d.sem[p := v], phase := d.phase[p := if v < 0 then Blocked(d.phase[p].wake, d.phase[p].due) else Awake])
    case DaemonAcquire => d.(lock := HeldByDaemon, sweep := d.now)
    case DaemonWake =>
      var p := d.list[0].sup;
      var v := d.sem[p] + 1;
      d.(list := d.list[1..], sem := d.sem[p := v], wakes := d.wakes[p := d.wakes[p] + 1],
         phase := if v <= 0 then d.phase[p := Awake] else d.phase)
    case DaemonRelease => d.(lock := Open)
  }

  // ----- the invariant -----

  /** An entry belongs to a process that sleeps until its wake time and has not been signalled for it yet. */
  ghost predicate EntryAt(d: D, i: int)
    requires Shaped(d) && 0 <= i < |d.list|
  {
    var p := d.list[i].sup;
    && IsProc(d, p) && Sleeps(d.phase[p]) && d.phase[p].wake == d.list[i].wake
    && d.calls[p] == d.wakes[p] + 1
  }

  /**
   * Every call is matched by one V, or its entry is still on the list. A V that came before the P is kept in the
   * private semaphore, and then the wake time has passed.
   */
  ghost predicate ProcAt(d: D, p: int)
    requires Shaped(d) && IsProc(d, p)
  {
    var ph := d.phase[p];
    && (d.calls[p] == d.wakes[p] || d.calls[p] == d.wakes[p] + 1)
    && (d.calls[p] == d.wakes[p] + 1 ==>
          Sleeps(ph) && Sleep(ph.wake, p) in d.list && d.sem[p] == if ph.Blocked? then -1 else 0)
    && (d.calls[p] == d.wakes[p] ==>
          if Sleeps(ph) then ph.Unlocked? && d.sem[p] == 1 && ph.wake <= d.now else d.sem[p] == 0)
    && (ph.Locked? || ph.Listed? <==> d.lock == HeldBy(p))
    && (ph.Asked? || ph.Locked? ==> 0 <= ph.sec <= MAXINT)
    && (Sleeps(ph) ==>
          ph.wake <= MAXINT && (ph.due <= MAXINT ==> ph.wake == ph.due) && (ph.due > MAXINT ==> ph.wake < ph.due))
  }

  ghost predicate Inv(d: D) {
    && Shaped(d) && 0 <= d.now <= MAXINT && Sorted(d.list)
    && (forall i {:trigger EntryAt(d, i)} :: 0 <= i < |d.list| ==> EntryAt(d, i))
    && (forall i, j :: 0 <= i < j < |d.list| ==> d.list[i].sup != d.list[j].sup)
    && (forall p {:trigger ProcAt(d, p)} :: IsProc(d, p) ==> ProcAt(d, p))
    && (d.lock.HeldByDaemon? ==> d.sweep <= d.now)
    && (d.lock.HeldBy? ==> IsProc(d, d.lock.p))
  }

  // ----- one event -----

  lemma {:induction false} MoveInv(d: D, e: Event)
    requires Inv(d) && Enabled(d, e) && !e.Enlist? && !e.DaemonWake?
    ensures Inv(Step(d, e))
  {
    var d1 := Step(d, e);
    hide Sorted;
    assert e.Ask? || e.Acquire? || e.Release? || e.Block? ==> ProcAt(d, e.p);
    forall i | 0 <= i < |d1.list| ensures EntryAt(d1, i) {
      assert EntryAt(d, i);
    }
    forall p | IsProc(d1, p) ensures ProcAt(d1, p) {
      assert ProcAt(d, p);
    }
  }

  lemma EnlistInv(d: D, p: int)
    requires Inv(d) && Enabled(d, Enlist(p))
    ensures Inv(Step(d, Enlist(p)))
  {
    var d1 := Step(d, Enlist(p));
    var x := Sleep(d1.phase[p].wake, p);
    var n := Place(d.list, x);
    assert ProcAt(d, p);
    WakeTimeExact(d.now, d.phase[p].sec);
    InsertedAt(d.list, x, n);
    SortedInsert(d.list, x, n, d1.list);
    hide Sorted, Inserted, WakeTime, Place;
    forall i | 0 <= i < |d.list| ensures d.list[i].sup != p {
      assert EntryAt(d, i);
    }
    EnlistEntries(d, d1, x, n);
    StillIn(d.list, x, n, d1.list);
    forall q | IsProc(d1, q) ensures ProcAt(d1, q) {
      assert ProcAt(d, q);
    }
  }

  lemma EnlistEntries(d: D, d1: D, x: Sleep, n: nat)
    requires Inv(d) && Shaped(d1) && d1.procs == d.procs && n <= |d.list| && d1.list == d.list[..n] + [x] + d.list[n..]
    requires IsProc(d, x.sup) && (forall i :: 0 <= i < |d.list| ==> d.list[i].sup != x.sup) && d1.wakes == d.wakes
    requires Sleeps(d1.phase[x.sup]) && d1.phase[x.sup].wake == x.wake && d1.calls[x.sup] == d.wakes[x.sup] + 1
    requires forall q :: IsProc(d, q) && q != x.sup ==> d1.phase[q] == d.phase[q] && d1.calls[q] == d.calls[q]
    ensures forall i :: 0 <= i < |d1.list| ==> EntryAt(d1, i)
    ensures forall i, j :: 0 <= i < j < |d1.list| ==> d1.list[i].sup != d1.list[j].sup
  {
    hide Sorted;
    forall i | 0 <= i < |d1.list| ensures EntryAt(d1, i) {
      if i != n {
        var m := if i < n then i else i - 1;
        assert EntryAt(d, m) && d1.list[i] == d.list[m];
      }
    }
    forall i, j | 0 <= i < j < |d1.list| ensures d1.list[i].sup != d1.list[j].sup {
      assert i != n ==> d1.list[i] == d.list[if i < n then i else i - 1];
      assert j != n ==> d1.list[j] == d.list[if j < n then j else j - 1];
    }
  }

  lemma StillIn(l: seq<Sleep>, x: Sleep, n: nat, r: seq<Sleep>)
    requires n <= |l| && r == l[..n] + [x] + l[n..]
    ensures x in r && forall y :: y in l ==> y in r
  {
    assert l == l[..n] + l[n..];
    assert r[n] == x;
  }

  lemma WakeInv(d: D)
    requires Inv(d) && Enabled(d, DaemonWake)
    ensures Inv(Step(d, DaemonWake))
  {
    var d1, x := Step(d, DaemonWake), d.list[0];
    assert EntryAt(d, 0) && ProcAt(d, x.sup);
    forall i | 0 <= i < |d1.list| ensures EntryAt(d1, i) {
      assert EntryAt(d, i + 1) && d1.list[i] == d.list[i + 1];
    }
    assert d.list == [x] + d1.list;
    forall q | IsProc(d1, q) ensures ProcAt(d1, q) {
      assert ProcAt(d, q);
    }
  }

  /** The protocol's invariant is kept by every event. */
  lemma StepInv(d: D, e: Event)
    requires Inv(d) && Enabled(d, e)
    ensures Inv(Step(d, e))
  {
    if e.Enlist? {
      EnlistInv(d, e.p);
    } else if e.DaemonWake? {
      WakeInv(d);
    } else {
      MoveInv(d, e);
    }
  }

  // ----- what it means for sleepers -----

  /**
   * A process that comes out of supDelay does so no earlier than its stored wake time; it does so no earlier than the
   * time it asked for exactly when that time fits in an int.
   */
  lemma NeverEarly(d: D, e: Event, p: int)
    requires Inv(d) && Enabled(d, e) && IsProc(d, p) && Sleeps(d.phase[p]) && Step(d, e).phase[p].Awake?
    ensures d.now >= d.phase[p].wake
    ensures d.now >= d.phase[p].due <==> d.phase[p].due <= MAXINT
  {
    assert ProcAt(d, p);
    if e.DaemonWake? {
      assert EntryAt(d, 0);
    }
  }

  /** Each call is answered by exactly one V: an awake process has been signalled once for every call it made. */
  lemma OneWakePerCall(d: D, p: int)
    requires Inv(d) && IsProc(d, p)
    ensures d.phase[p].Awake? ==> d.calls[p] == d.wakes[p] && d.sem[p] == 0
    ensures d.phase[p].Blocked? ==> d.calls[p] == d.wakes[p] + 1 && Sleep(d.phase[p].wake, p) in d.list
  {
    assert ProcAt(d, p);
  }

  function Sups(l: seq<Sleep>): (r: seq<int>)
    ensures |r| == |l| && forall i :: 0 <= i < |l| ==> r[i] == l[i].sup
  {
    if l == [] then [] else Sups(l[..|l| - 1]) + [l[|l| - 1].sup]
  }

  /** A process that holds the lock has no descriptor yet, so the pool is never exhausted when it asks for one. */
  lemma PoolSuffices(d: D, p: int)
    requires Inv(d) && IsProc(d, p) && d.phase[p].Locked?
    ensures |d.list| < d.procs && Enabled(d, Enlist(p))
  {
    hide Sorted;
    var s := Sups(d.list);
    forall i | 0 <= i < |d.list| ensures 0 <= s[i] < d.procs && s[i] != p {
      assert EntryAt(d, i);
    }
    AppendProps(s, p);
    DistinctBound(s + [p], d.procs);
  }

  /** The daemon's loop never gets stuck: it signals the head of the list or gives the lock back. */
  lemma DaemonProceeds(d: D)
    requires Inv(d) && d.lock.HeldByDaemon?
    ensures Enabled(d, DaemonWake) <==> !Enabled(d, DaemonRelease)
  {
    assert d.list != [] ==> EntryAt(d, 0);
  }

  /** When a pass may end, whoever is still to be signalled has a wake time after the pass's. */
  lemma ListClears(d: D, p: int)
    requires Inv(d) && Enabled(d, DaemonRelease) && IsProc(d, p)
    ensures forall i :: 0 <= i < |d.list| ==> d.list[i].wake > d.sweep
    ensures d.calls[p] > d.wakes[p] ==> Sleeps(d.phase[p]) && d.phase[p].wake > d.sweep
  {
    assert ProcAt(d, p);
  }

  // ----- whole runs -----

  ghost predicate Runs(d: D, es: seq<Event>)
    requires Inv(d)
    decreases |es|
  {
    es == [] || (Enabled(d, es[0]) && (StepInv(d, es[0]); Runs(Step(d, es[0]), es[1..])))
  }

  ghost function Run(d: D, es: seq<Event>): D
    requires Inv(d) && Runs(d, es)
    decreases |es|
  {
    if es == [] then d else StepInv(d, es[0]); Run(Step(d, es[0]), es[1..])
  }

  /** Before the first call. */
  ghost predicate Initial(d: D) {
    && Shaped(d) && 0 <= d.now <= MAXINT && d.list == [] && d.lock == Open
    && forall p :: IsProc(d, p) ==> d.phase[p] == Awake && d.sem[p] == 0 && d.calls[p] == d.wakes[p] == 0
  }

  lemma InitialInv(d: D)
    requires Initial(d)
    ensures Inv(d)
  {
  }

  /** es is a run from boot. */
  ghost predicate FromBoot(d: D, es: seq<Event>)
    ensures FromBoot(d, es) ==> Inv(d) && Runs(d, es)
  {
    Initial(d) && (InitialInv(d); Runs(d, es))
  }

  lemma {:induction false} RunInv(d: D, es: seq<Event>)
    requires Inv(d) && Runs(d, es)
    ensures Inv(Run(d, es)) && Run(d, es).procs == d.procs
    decreases |es|
  {
    if es != [] {
      hide Inv, Enabled;
      StepInv(d, es[0]);
      RunInv(Step(d, es[0]), es[1..]);
    }
  }

  /** Signals are never taken back, and until the next one a sleeper that owes a wakeup keeps its wake time. */
  lemma StepWakes(d: D, e: Event, p: int)
    requires Inv(d) && Enabled(d, e) && IsProc(d, p)
    ensures Step(d, e).wakes[p] >= d.wakes[p]
    ensures d.calls[p] > d.wakes[p] && Step(d, e).wakes[p] == d.wakes[p] ==>
              Sleeps(d.phase[p]) && Sleeps(Step(d, e).phase[p]) && Step(d, e).phase[p].wake == d.phase[p].wake
              && Step(d, e).calls[p] == d.calls[p]
  {
    assert ProcAt(d, p);
  }

  lemma {:induction false} WakesGrow(d: D, es: seq<Event>, p: int)
    requires Inv(d) && Runs(d, es) && IsProc(d, p)
    ensures Inv(Run(d, es)) && Run(d, es).procs == d.procs && Run(d, es).wakes[p] >= d.wakes[p]
    decreases |es|
  {
    if es != [] {
      hide Inv, Enabled;
      StepInv(d, es[0]);
      StepWakes(d, es[0], p);
      WakesGrow(Step(d, es[0]), es[1..], p);
    } else {
      assert Run(d, es) == d;
    }
  }

  lemma {:induction false} RestServes(d: D, es: seq<Event>, p: int)
    requires Inv(d) && Runs(d, es) && IsProc(d, p) && d.lock == HeldByDaemon
    requires d.calls[p] > d.wakes[p] && Sleeps(d.phase[p]) && d.phase[p].wake <= d.sweep
    requires !Run(d, es).lock.HeldByDaemon?
    ensures Inv(Run(d, es)) && Run(d, es).procs == d.procs && Run(d, es).wakes[p] > d.wakes[p]
    decreases |es|
  {
    assert es != [];
    var d1 := Step(d, es[0]);
    StepInv(d, es[0]);
    StepWakes(d, es[0], p);
    if es[0].DaemonRelease? {
      ListClears(d, p);
    } else if d1.wakes[p] > d.wakes[p] {
      WakesGrow(d1, es[1..], p);
    } else {
      SweepStays(d, es[0]);
      hide Inv, Enabled, Step;
      RestServes(d1, es[1..], p);
    }
  }

  /** What follows the daemon's acquisition of the lock in a pass that starts in d. */
  ghost predicate Pass(d: D, es: seq<Event>) {
    Inv(d) && es != [] && es[0] == DaemonAcquire && Runs(d, es)
  }

  lemma PassStarts(d: D, es: seq<Event>)
    requires Pass(d, es)
    ensures var d1 := Step(d, DaemonAcquire);
            && Inv(d1) && Runs(d1, es[1..]) && Run(d, es) == Run(d1, es[1..])
            && d1 == d.(lock := HeldByDaemon, sweep := d.now)
  {
    StepInv(d, DaemonAcquire);
  }

  /**
   * No wakeup is lost: whoever is on the list when the daemon takes the lock and is due then, blocked or still on its
   * way from the lock to its P, has been signalled once the daemon gives the lock back.
   */
  lemma PassServes(d: D, es: seq<Event>, p: int)
    requires Pass(d, es) && IsProc(d, p)
    requires d.calls[p] > d.wakes[p] && Sleeps(d.phase[p]) && d.phase[p].wake <= d.now
    requires !Run(d, es).lock.HeldByDaemon?
    ensures Inv(Run(d, es)) && Run(d, es).procs == d.procs && Run(d, es).wakes[p] > d.wakes[p]
  {
    PassStarts(d, es);
    hide Inv, Enabled, Step, Runs, Run;
    RestServes(d.(lock := HeldByDaemon, sweep := d.now), es[1..], p);
  }

  /** When the daemon may give the lock back, whoever is still to be signalled was not due when the pass began. */
  lemma PassClears(d: D, es: seq<Event>, p: int)
    requires Pass(d, es) && IsProc(d, p) && (forall i :: 1 <= i < |es| ==> !es[i].DaemonRelease?)
    ensures var d1 := Run(d, es);
            && Inv(d1) && d1.procs == d.procs
            && (Enabled(d1, DaemonRelease) ==>
                  && (forall i :: 0 <= i < |d1.list| ==> d1.list[i].wake > d.now)
                  && (d1.calls[p] > d1.wakes[p] ==> Sleeps(d1.phase[p]) && d1.phase[p].wake > d.now))
  {
    PassStarts(d, es);
    var d0 := d.(lock := HeldByDaemon, sweep := d.now);
    hide Inv, Step, Runs, Run;
    RunInv(d, es);
    RestHolds(d0, es[1..]);
    if Enabled(Run(d, es), DaemonRelease) {
      ListClears(Run(d, es), p);
    }
  }

  lemma {:induction false} RestHolds(d: D, es: seq<Event>)
    requires Inv(d) && Runs(d, es) && d.lock == HeldByDaemon && forall i :: 0 <= i < |es| ==> !es[i].DaemonRelease?
    ensures Run(d, es).lock == HeldByDaemon && Run(d, es).sweep == d.sweep
    decreases |es|
  {
    if es != [] {
      StepInv(d, es[0]);
      SweepStays(d, es[0]);
      hide Inv, Enabled, Step;
      RestHolds(Step(d, es[0]), es[1..]);
    }
  }

  lemma SweepStays(d: D, e: Event)
    requires Inv(d) && Enabled(d, e) && d.lock == HeldByDaemon && !e.DaemonRelease?
    ensures Step(d, e).lock == HeldByDaemon && Step(d, e).sweep == d.sweep
  {
    assert e.Enlist? || e.Release? ==> ProcAt(d, e.p);
  }

  /**
   * In every run from boot: a sleeper is listed or has been signalled already, a blocked sleeper is listed, and the
   * number of its signals is the number of its calls, or one less while it is listed.
   */
  lemma SleepersAccounted(d: D, es: seq<Event>, p: int)
    requires FromBoot(d, es) && IsProc(d, p)
    ensures var d1 := Run(d, es);
            && Inv(d1) && d1.procs == d.procs && |d1.list| <= d1.procs
            && d1.calls[p] == d1.wakes[p] + (if exists i :: 0 <= i < |d1.list| && d1.list[i].sup == p then 1 else 0)
            && (d1.phase[p].Blocked? ==> Sleep(d1.phase[p].wake, p) in d1.list)
  {
    RunInv(d, es);
    hide Run, Runs, FromBoot, Sorted;
    var d1 := Run(d, es);
    assert ProcAt(d1, p);
    var s := Sups(d1.list);
    forall i | 0 <= i < |d1.list| ensures 0 <= s[i] < d1.procs && (s[i] == p ==> d1.calls[p] == d1.wakes[p] + 1) {
      assert EntryAt(d1, i);
    }
    DistinctBound(s, d1.procs);
    if d1.calls[p] == d1.wakes[p] + 1 {
      var x := Sleep(d1.phase[p].wake, p);
      assert x in d1.list;
      var i :| 0 <= i < |d1.list| && d1.list[i] == x;
      assert d1.list[i].sup == p;
    }
  }
}
