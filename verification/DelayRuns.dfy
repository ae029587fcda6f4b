/**
 * SYS18 and the daemon over whole runs, told by their events alone: when a call comes back, what one pass of the daemon
 * signals, and that every call can come back.
 */
module DelayRuns {
  import opened Sequences
  import opened DelayList
  import opened DelayProtocol

  // ----- the clock -----

  /** What the clock shows after the events, if it showed now before them. */
  function Clock(now: int, es: seq<Event>): int
    decreases |es|
  {
    if es == [] then now else Clock(if es[0].Advance? then es[0].t else now, es[1..])
  }

  lemma {:induction false} ClockShows(d: D, es: seq<Event>)
    requires Inv(d) && Runs(d, es)
    ensures Inv(Run(d, es)) && Run(d, es).now == Clock(d.now, es) && d.now <= Run(d, es).now <= MAXINT
    decreases |es|
  {
    if es != [] {
      StepInv(d, es[0]);
      StepClock(d, es[0]);
      hide Shaped, Enabled, Step, Sorted;
      ClockShows(Step(d, es[0]), es[1..]);
    }
  }

  lemma StepClock(d: D, e: Event)
    requires Inv(d) && Enabled(d, e)
    ensures Step(d, e).now == (if e.Advance? then e.t else d.now) && d.now <= Step(d, e).now
    ensures Step(d, e).procs == d.procs
  {
  }

  lemma {:induction false} RunsOn(d: D, es: seq<Event>, fs: seq<Event>)
    requires Inv(d) && Runs(d, es + fs)
    ensures Runs(d, es) && Inv(Run(d, es)) && Runs(Run(d, es), fs) && Run(d, es + fs) == Run(Run(d, es), fs)
    decreases |es|
  {
    if es == [] {
      assert es + fs == fs;
    } else {
      assert (es + fs)[0] == es[0] && (es + fs)[1..] == es[1..] + fs;
      StepInv(d, es[0]);
      hide Inv, Enabled, Step;
      RunsOn(Step(d, es[0]), es[1..], fs);
    }
  }

  lemma {:induction false} ClockOn(now: int, es: seq<Event>, fs: seq<Event>)
    ensures Clock(now, es + fs) == Clock(Clock(now, es), fs)
    decreases |es|
  {
    if es == [] {
      assert es + fs == fs;
    } else {
      assert (es + fs)[1..] == es[1..] + fs;
      ClockOn(if es[0].Advance? then es[0].t else now, es[1..], fs);
    }
  }

  // ----- one call -----

  /** Process p makes no further call. */
  ghost predicate NoAsk(es: seq<Event>, p: int) {
    forall i :: 0 <= i < |es| ==> !(es[i].Ask? && es[i].p == p)
  }

  ghost predicate NoEnlist(es: seq<Event>, p: int) {
    forall i :: 0 <= i < |es| ==> !(es[i].Enlist? && es[i].p == p)
  }

  /** Until p is put on the list, the call keeps its argument. */
  lemma {:induction false} KeepsAsking(d: D, es: seq<Event>, p: int, sec: int)
    requires Inv(d) && IsProc(d, p) && (d.phase[p] == Asked(sec) || d.phase[p] == Locked(sec)) && Runs(d, es)
    requires NoAsk(es, p) && NoEnlist(es, p)
    ensures var d1 := Run(d, es); Inv(d1) && IsProc(d1, p) && (d1.phase[p] == Asked(sec) || d1.phase[p] == Locked(sec))
    decreases |es|
  {
    if es != [] {
      StepInv(d, es[0]);
      StepAsking(d, es[0], p, sec);
      hide Inv, Enabled, Step;
      KeepsAsking(Step(d, es[0]), es[1..], p, sec);
    }
  }

  lemma StepAsking(d: D, e: Event, p: int, sec: int)
    requires Inv(d) && IsProc(d, p) && (d.phase[p] == Asked(sec) || d.phase[p] == Locked(sec)) && Enabled(d, e)
    requires !(e.Ask? && e.p == p) && !(e.Enlist? && e.p == p)
    ensures var d1 := Step(d, e);
            Shaped(d1) && IsProc(d1, p) && (d1.phase[p] == Asked(sec) || d1.phase[p] == Locked(sec))
  {
    if e.DaemonWake? {
      assert EntryAt(d, 0);
    }
  }

  /** Process p sleeps until wake, or the clock has reached that and p is awake. */
  ghost predicate SleepsTill(d: D, p: int, wake: int) {
    && Inv(d) && IsProc(d, p)
    && ((Sleeps(d.phase[p]) && d.phase[p].wake == wake) || (d.phase[p].Awake? && d.now >= wake))
  }

  lemma {:induction false} KeepsSleeping(d: D, es: seq<Event>, p: int, wake: int)
    requires SleepsTill(d, p, wake) && Runs(d, es) && NoAsk(es, p)
    ensures SleepsTill(Run(d, es), p, wake)
    decreases |es|
  {
    if es != [] {
      StepInv(d, es[0]);
      StepSleeping(d, es[0], p, wake);
      hide SleepsTill, Inv, Enabled, Step;
      KeepsSleeping(Step(d, es[0]), es[1..], p, wake);
    }
  }

  lemma StepSleeping(d: D, e: Event, p: int, wake: int)
    requires SleepsTill(d, p, wake) && Enabled(d, e) && !(e.Ask? && e.p == p)
    ensures SleepsTill(Step(d, e), p, wake)
  {
    StepInv(d, e);
    assert ProcAt(d, p);
    if e.DaemonWake? {
      assert EntryAt(d, 0);
    }
  }

  predicate IsAwake(d: D, p: int) { Shaped(d) && IsProc(d, p) && d.phase[p].Awake? }

  /** A run of one call: p asks for sec seconds, gets the lock after ys and is put on the list; then zs. */
  function Call(p: int, sec: int, ys: seq<Event>, zs: seq<Event>): seq<Event> {
    [Ask(p, sec)] + ys + [Enlist(p)] + zs
  }

  /** It is about p's first call, and p makes no other. */
  ghost predicate OneCall(d: D, p: int, sec: int, ys: seq<Event>, zs: seq<Event>)
    requires Inv(d)
  {
    Runs(d, Call(p, sec, ys, zs)) && NoAsk(ys, p) && NoEnlist(ys, p) && NoAsk(zs, p)
  }

  lemma CallSleeps(d: D, p: int, sec: int, ys: seq<Event>, zs: seq<Event>)
    requires Inv(d) && OneCall(d, p, sec, ys, zs)
    ensures 0 <= sec <= MAXINT
    ensures SleepsTill(Run(d, Call(p, sec, ys, zs)), p, WakeTime(Clock(d.now, ys), sec))
  {
    var es := [Ask(p, sec)] + (ys + ([Enlist(p)] + zs));
    assert Call(p, sec, ys, zs) == es;
    hide Inv, WakeTime, Step, Enabled, SleepsTill;
    RunsOn(d, [Ask(p, sec)], ys + ([Enlist(p)] + zs));
    AskStep(d, p, sec);
    var d1 := Run(d, [Ask(p, sec)]);
    RunsOn(d1, ys, [Enlist(p)] + zs);
    KeepsAsking(d1, ys, p, sec);
    ClockShows(d1, ys);
    var d2 := Run(d1, ys);
    RunsOn(d2, [Enlist(p)], zs);
    EnlistStep(d2, p, sec);
    KeepsSleeping(Run(d2, [Enlist(p)]), zs, p, WakeTime(d2.now, sec));
  }

  lemma AskStep(d: D, p: int, sec: int)
    requires Inv(d) && Runs(d, [Ask(p, sec)])
    ensures var d1 := Run(d, [Ask(p, sec)]);
            Inv(d1) && IsProc(d1, p) && d1.phase[p] == Asked(sec) && d1.now == d.now && 0 <= sec <= MAXINT
  {
    StepInv(d, Ask(p, sec));
    assert [Ask(p, sec)][1..] == [];
  }

  lemma EnlistStep(d: D, p: int, sec: int)
    requires Inv(d) && Runs(d, [Enlist(p)]) && IsProc(d, p) && (d.phase[p] == Asked(sec) || d.phase[p] == Locked(sec))
    ensures SleepsTill(Run(d, [Enlist(p)]), p, WakeTime(d.now, sec))
  {
    StepInv(d, Enlist(p));
    assert [Enlist(p)][1..] == [];
    hide Inserted, WakeTime, Sorted;
  }

  /**
   * A process that asks for sec seconds and is put on the list at time t is awake again, in whichever run, no earlier
   * than t + sec seconds exactly if that time fits in an int, and never before the time that wraps around to.
   */
  lemma NeverEarlyInRun(d: D, p: int, sec: int, ys: seq<Event>, zs: seq<Event>)
    requires Inv(d) && OneCall(d, p, sec, ys, zs) && IsAwake(Run(d, Call(p, sec, ys, zs)), p)
    ensures var t, u := Clock(d.now, ys), Clock(d.now, Call(p, sec, ys, zs));
            && (u >= t + sec * SECOND <==> t + sec * SECOND <= MAXINT)
            && u >= WakeTime(t, sec)
  {
    var es := Call(p, sec, ys, zs);
    CallSleeps(d, p, sec, ys, zs);
    ClockShows(d, es);
    CallTimes(d, p, sec, ys, zs);
    hide Call, Run, Runs, OneCall, Clock;
    WakeTimeExact(Clock(d.now, ys), sec);
  }

  lemma CallTimes(d: D, p: int, sec: int, ys: seq<Event>, zs: seq<Event>)
    requires Inv(d) && OneCall(d, p, sec, ys, zs)
    ensures 0 <= Clock(d.now, ys) <= MAXINT
  {
    var es := [Ask(p, sec)] + (ys + ([Enlist(p)] + zs));
    assert Call(p, sec, ys, zs) == es;
    RunsOn(d, [Ask(p, sec)], ys + ([Enlist(p)] + zs));
    AskStep(d, p, sec);
    RunsOn(Run(d, [Ask(p, sec)]), ys, [Enlist(p)] + zs);
    ClockShows(Run(d, [Ask(p, sec)]), ys);
  }

  // ----- one pass -----

  /** A process that has not called again is signalled no more often than it was put on the list. */
  lemma {:induction false} CallsStay(d: D, es: seq<Event>, p: int)
    requires Inv(d) && Runs(d, es) && IsProc(d, p) && (Sleeps(d.phase[p]) || d.phase[p].Awake?) && NoAsk(es, p)
    ensures var d1 := Run(d, es); Inv(d1) && d1.procs == d.procs && d1.calls[p] == d.calls[p]
    decreases |es|
  {
    if es != [] {
      StepInv(d, es[0]);
      StepCalls(d, es[0], p);
      hide Inv, Enabled, Step;
      CallsStay(Step(d, es[0]), es[1..], p);
    }
  }

  lemma StepCalls(d: D, e: Event, p: int)
    requires Inv(d) && IsProc(d, p) && (Sleeps(d.phase[p]) || d.phase[p].Awake?)
    requires Enabled(d, e) && !(e.Ask? && e.p == p)
    ensures var d1 := Step(d, e);
            && Shaped(d1) && d1.procs == d.procs && (Sleeps(d1.phase[p]) || d1.phase[p].Awake?)
            && d1.calls[p] == d.calls[p]
  {
  }

  /** p is awake, or its P is still to come and will not wait. */
  predicate IsSignalled(d: D, p: int) {
    Shaped(d) && IsProc(d, p) && (d.phase[p].Awake? || (d.phase[p].Unlocked? && d.sem[p] == 1))
  }

  lemma Signalled(d: D, p: int)
    requires Inv(d) && IsProc(d, p) && d.calls[p] == d.wakes[p] && (Sleeps(d.phase[p]) || d.phase[p].Awake?)
    ensures IsSignalled(d, p)
  {
    assert ProcAt(d, p);
  }

  lemma CallsBound(d: D, p: int)
    requires Inv(d) && IsProc(d, p)
    ensures d.wakes[p] <= d.calls[p] <= d.wakes[p] + 1
  {
    assert ProcAt(d, p);
  }

  /**
   * Nobody due is left behind: a process whose wake time has come when the daemon takes the lock has been signalled by
   * the time the lock is given back, wherever it stands between the lock and its P.
   */
  lemma DueServed(d: D, p: int, sec: int, ys: seq<Event>, zs: seq<Event>, ws: seq<Event>)
    requires Inv(d) && OneCall(d, p, sec, ys, zs + ([DaemonAcquire] + ws))
    requires WakeTime(Clock(d.now, ys), sec) <= Clock(d.now, Call(p, sec, ys, zs))
    requires !Run(d, Call(p, sec, ys, zs + ([DaemonAcquire] + ws))).lock.HeldByDaemon?
    ensures IsSignalled(Run(d, Call(p, sec, ys, zs + ([DaemonAcquire] + ws))), p)
  {
    var es, rest := Call(p, sec, ys, zs), [DaemonAcquire] + ws;
    var wake := WakeTime(Clock(d.now, ys), sec);
    assert Call(p, sec, ys, zs + rest) == es + rest;
    NoAskParts(zs, rest, p);
    hide Inv, Call, NoAsk, NoEnlist, Clock, WakeTime, SleepsTill, IsSignalled;
    RunsOn(d, es, rest);
    CallSleeps(d, p, sec, ys, zs);
    ClockShows(d, es);
    ServedFrom(Run(d, es), rest, p, wake);
  }

  lemma NoAskParts(es: seq<Event>, fs: seq<Event>, p: int)
    requires NoAsk(es + fs, p)
    ensures NoAsk(es, p) && NoAsk(fs, p)
  {
    assert forall i :: 0 <= i < |es| ==> (es + fs)[i] == es[i];
    assert forall i :: 0 <= i < |fs| ==> (es + fs)[|es| + i] == fs[i];
  }

  lemma ServedFrom(d: D, es: seq<Event>, p: int, wake: int)
    requires SleepsTill(d, p, wake) && wake <= d.now && Pass(d, es) && NoAsk(es, p) && !Run(d, es).lock.HeldByDaemon?
    ensures IsSignalled(Run(d, es), p)
  {
    var d1 := Run(d, es);
    CallsStay(d, es, p);
    KeepsSleeping(d, es, p, wake);
    CallsBound(d, p);
    CallsBound(d1, p);
    if d.calls[p] > d.wakes[p] {
      assert Sleeps(d.phase[p]) by { assert ProcAt(d, p); }
      PassServes(d, es, p);
    } else {
      WakesGrow(d, es, p);
    }
    Signalled(d1, p);
  }

  // ----- every call can come back -----

  ghost predicate Leads(d: D, es: seq<Event>, d1: D) {
    Inv(d) && Runs(d, es) && Run(d, es) == d1 && Inv(d1)
  }

  lemma LeadsStep(d: D, e: Event)
    requires Inv(d) && Enabled(d, e)
    ensures Leads(d, [e], Step(d, e)) && Inv(Step(d, e))
  {
    StepInv(d, e);
    hide Shaped, Sorted, Step, Enabled;
    assert [e][1..] == [];
    assert Runs(Step(d, e), []) && Run(Step(d, e), []) == Step(d, e);
  }

  lemma {:induction false} LeadsOn(d: D, es: seq<Event>, d1: D, fs: seq<Event>, d2: D)
    requires Leads(d, es, d1) && Leads(d1, fs, d2)
    ensures Leads(d, es + fs, d2)
    decreases |es|
  {
    if es == [] {
      assert es + fs == fs;
    } else {
      StepInv(d, es[0]);
      assert (es + fs)[1..] == es[1..] + fs;
      hide Inv, Step, Enabled;
      LeadsOn(Step(d, es[0]), es[1..], d1, fs, d2);
    }
  }

  /** The daemon finishes its pass; nobody but the sleepers it signals moves. */
  lemma {:induction false} FinishPass(d: D) returns (es: seq<Event>, d1: D)
    requires Inv(d) && d.lock == HeldByDaemon
    ensures Leads(d, es, d1) && d1.lock == Open && d1.procs == d.procs && Shaped(d1)
    ensures forall p :: IsProc(d, p) ==> d1.phase[p] == d.phase[p] || d1.phase[p].Awake?
    ensures forall i :: 0 <= i < |es| ==> es[i].DaemonWake? || es[i].DaemonRelease?
    decreases |d.list|
  {
    DaemonProceeds(d);
    if Enabled(d, DaemonRelease) {
      es, d1 := [DaemonRelease], Step(d, DaemonRelease);
      LeadsStep(d, DaemonRelease);
    } else {
      var u := Step(d, DaemonWake);
      LeadsStep(d, DaemonWake);
      var fs;
      fs, d1 := FinishPass(u);
      hide Inv, Enabled, Leads;
      LeadsOn(d, [DaemonWake], u, fs, d1);
      es := [DaemonWake] + fs;
    }
  }

  /** Whoever holds the lock gives it back. */
  lemma FreeLock(d: D) returns (es: seq<Event>, d1: D)
    requires Inv(d)
    ensures Leads(d, es, d1) && d1.lock == Open && d1.procs == d.procs && Shaped(d1)
  {
    match d.lock
    case Open =>
      es, d1 := [], d;
      assert Runs(d, es) && Run(d, es) == d;
    case HeldByDaemon =>
      es, d1 := FinishPass(d);
    case HeldBy(p) =>
      assert ProcAt(d, p);
      if d.phase[p].Locked? {
        es, d1 := FinishCall(d, p);
      } else {
        es, d1 := [Release(p)], Step(d, Release(p));
        LeadsStep(d, Release(p));
      }
  }

  /** From the lock to the list and out. */
  lemma FinishCall(d: D, p: int) returns (es: seq<Event>, d1: D)
    requires Inv(d) && IsProc(d, p) && d.phase[p].Locked?
    ensures Leads(d, es, d1) && d1.lock == Open && d1.procs == d.procs && Shaped(d1) && d1.phase[p].Unlocked?
  {
    PoolSuffices(d, p);
    var u := Step(d, Enlist(p));
    LeadsStep(d, Enlist(p));
    d1 := Step(u, Release(p));
    LeadsStep(u, Release(p));
    hide Inv, Enabled, Leads;
    LeadsOn(d, [Enlist(p)], u, [Release(p)], d1);
    es := [Enlist(p)] + [Release(p)];
  }

  /** With the lock free, p gets as far as its P, or is awake. */
  lemma ReachP(d: D, p: int) returns (es: seq<Event>, d1: D)
    requires Inv(d) && IsProc(d, p) && d.lock == Open
    ensures Leads(d, es, d1) && d1.lock == Open && d1.procs == d.procs && Shaped(d1)
    ensures d1.phase[p].Awake? || d1.phase[p].Blocked?
  {
    assert ProcAt(d, p);
    var fs, u := [], d;
    assert Runs(d, fs) && Run(d, fs) == d;
    if d.phase[p].Asked? {
      var v := Step(d, Acquire(p));
      LeadsStep(d, Acquire(p));
      var gs;
      gs, u := FinishCall(v, p);
      LeadsOn(d, [Acquire(p)], v, gs, u);
      fs := [Acquire(p)] + gs;
    }
    assert Leads(d, fs, u);
    if u.phase[p].Unlocked? {
      d1 := Step(u, Block(p));
      LeadsStep(u, Block(p));
      hide Inv, Enabled, Leads;
      LeadsOn(d, fs, u, [Block(p)], d1);
      es := fs + [Block(p)];
    } else {
      es, d1 := fs, u;
    }
  }

  /** Late enough, a pass of the daemon wakes p. */
  lemma WakeUp(d: D, p: int) returns (es: seq<Event>, d1: D)
    requires Inv(d) && IsProc(d, p) && d.lock == Open && d.phase[p].Blocked?
    ensures Leads(d, es, d1) && IsAwake(d1, p)
  {
    assert ProcAt(d, p);
    var u := Step(d, Advance(MAXINT));
    LeadsStep(d, Advance(MAXINT));
    assert ProcAt(u, p);
    var v := Step(u, DaemonAcquire);
    LeadsStep(u, DaemonAcquire);
    assert ProcAt(v, p);
    var gs;
    gs, d1 := FinishPass(v);
    RestServes(v, gs, p);
    CallsStay(v, gs, p);
    assert ProcAt(d1, p);
    hide Inv, Enabled, Leads;
    LeadsOn(d, [Advance(MAXINT)], u, [DaemonAcquire], v);
    LeadsOn(d, [Advance(MAXINT)] + [DaemonAcquire], v, gs, d1);
    es := [Advance(MAXINT)] + [DaemonAcquire] + gs;
  }

  /** Nobody is stuck: from every state some run brings any process back from its call. */
  lemma CanReturn(d: D, p: int) returns (es: seq<Event>)
    requires Inv(d) && IsProc(d, p)
    ensures Runs(d, es) && IsAwake(Run(d, es), p)
  {
    var fs, u := FreeLock(d);
    var gs, v := ReachP(u, p);
    LeadsOn(d, fs, u, gs, v);
    es := fs + gs;
    if v.phase[p].Blocked? {
      var hs, w := WakeUp(v, p);
      LeadsOn(d, es, v, hs, w);
      es := es + hs;
    }
  }

  /** So a process that is awake can ask for any nonnegative delay, and some run brings it back. */
  lemma CallReturns(d: D, p: int, sec: int) returns (es: seq<Event>)
    requires Inv(d) && IsProc(d, p) && d.phase[p].Awake? && 0 <= sec <= MAXINT
    ensures Runs(d, [Ask(p, sec)] + es) && es != [] && IsAwake(Run(d, [Ask(p, sec)] + es), p)
  {
    var u := Step(d, Ask(p, sec));
    LeadsStep(d, Ask(p, sec));
    es := CanReturn(u, p);
    assert ([Ask(p, sec)] + es)[1..] == es;
    assert !IsAwake(u, p);
  }
}
