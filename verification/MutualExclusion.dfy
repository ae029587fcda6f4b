/**
 * A semaphore that starts at 1 and is used as SYS3 ... SYS4 is a lock, on the nucleus as it is: swapPoolSem of
 * vmSupport.c and ADLsem of delayDaemon.c.
 */
module MutualExclusion {
  import opened Sequences
  import opened ProcessTree
  import opened NucleusState
  import opened NucleusPlaces
  import opened NucleusLaws
  import opened NucleusTerminate
  import opened NucleusRuns
  import opened JoinBarrier

  /** lock is the semaphore's address; inside lists the processes between their SYS3 on it and their SYS4. */
  datatype Region = Region(k: K, lock: int, inside: seq<int>)

  datatype Move =
    | Enter
    | Leave
    | Elsewhere(e: Event)

  /** A process takes the lock only from outside and gives it back only from inside, and none ends inside. */
  ghost predicate May(w: Region, x: Move)
    requires Core(w.k)
  {
    match x
    case Enter => Enabled(w.k, EvPasseren(w.lock)) && w.k.current !in w.inside
    case Leave => Enabled(w.k, EvVerhogen(w.lock)) && w.k.current in w.inside
    case Elsewhere(e) =>
      && Enabled(w.k, e) && (e.EvPasseren? || e.EvVerhogen? ==> e.a != w.lock)
      && (e.EvTerminate? ==> forall p :: p in w.inside ==> p !in Subtree(w.k, w.k.current))
  }

  /** SYS3 lets the caller in or makes it wait; SYS4 lets the first waiter in. */
  ghost function Moved(w: Region, x: Move): Region
    requires Core(w.k) && May(w, x)
  {
    match x
    case Enter =>
      w.(k := Step(w.k, EvPasseren(w.lock)),
         inside := if Val(w.k, w.lock) - 1 < 0 then w.inside else w.inside + [w.k.current])
    case Leave =>
      var q := Queue(w.k, w.lock);
      w.(k := Step(w.k, EvVerhogen(w.lock)),
         inside := Without(w.inside, w.k.current) + if Val(w.k, w.lock) + 1 <= 0 && q != [] then [q[0]] else [])
    case Elsewhere(e) => w.(k := Step(w.k, e))
  }

  /** The value counts one unit, less one for everybody inside or waiting. */
  ghost predicate Guarded(w: Region) {
    && Core(w.k) && SemLaw(w.k) && 0 < w.lock < MAXINT && !IsSoft(w.k, w.lock)
    && Distinct(w.inside) && (forall p :: p in w.inside ==> p !in Queue(w.k, w.lock))
    && Val(w.k, w.lock) == 1 - |w.inside| - |Queue(w.k, w.lock)|
  }

  /** At most one process is inside, and nobody waits for an open lock. */
  lemma AtMostOne(w: Region)
    requires Guarded(w)
    ensures |w.inside| <= 1
    ensures w.inside == [] <==> Val(w.k, w.lock) == 1
    ensures Queue(w.k, w.lock) != [] ==> |w.inside| == 1
  {
    hide Core;
    assert SemLawAt(w.k, w.lock) by { assert Val(w.k, w.lock) == Val(w.k, w.lock); }
  }

  // ----- one move -----

  lemma EnterLock(k: K, m: int)
    requires Core(k) && Enabled(k, EvPasseren(m))
    ensures IsLive(k, k.current) && k.current !in Queue(k, m)
    ensures var k1 := Step(k, EvPasseren(m));
            && Val(k1, m) == Val(k, m) - 1 && k1.devBase == k.devBase
            && Queue(k1, m) == Queue(k, m) + if Val(k, m) - 1 < 0 then [k.current] else []
  {
    hide Forest, FreeDetached;
    CurrentLive(k);
  }

  lemma LeaveLock(k: K, m: int)
    requires Core(k) && Enabled(k, EvVerhogen(m))
    ensures Distinct(Queue(k, m))
    ensures var k1, q := Step(k, EvVerhogen(m)), Queue(k, m);
            && Val(k1, m) == Val(k, m) + 1 && k1.devBase == k.devBase
            && Queue(k1, m) == if Val(k, m) + 1 <= 0 && q != [] then q[1..] else q
  {
    hide Placed, Forest, FreeDetached;
  }

  lemma EnterGuarded(w: Region)
    requires Guarded(w) && May(w, Enter)
    ensures Guarded(Moved(w, Enter))
  {
    StepCore(w.k, EvPasseren(w.lock));
    StepSemLaw(w.k, EvPasseren(w.lock));
    EnterLock(w.k, w.lock);
    AtMostOne(w);
    hide Core, SemLaw, Queue, Val, Step;
    AppendProps(w.inside, w.k.current);
  }

  lemma LeaveGuarded(w: Region)
    requires Guarded(w) && May(w, Leave)
    ensures Guarded(Moved(w, Leave))
  {
    StepCore(w.k, EvVerhogen(w.lock));
    StepSemLaw(w.k, EvVerhogen(w.lock));
    LeaveLock(w.k, w.lock);
    AtMostOne(w);
    hide Core, SemLaw, Queue, Val, Step;
    var p, q := w.k.current, Queue(w.k, w.lock);
    assert w.inside == [p];
    assert Without([p], p) == [];
    if q != [] {
      TailProps(q);
    }
  }

  lemma EndsElsewhere(w: Region)
    requires Guarded(w) && May(w, Elsewhere(EvTerminate)) && Step(w.k, EvTerminate).status != Halted
    ensures var k1 := Step(w.k, EvTerminate);
            && Val(k1, w.lock) + |Queue(k1, w.lock)| == Val(w.k, w.lock) + |Queue(w.k, w.lock)|
            && k1.devBase == w.k.devBase && forall p :: p in Queue(k1, w.lock) ==> p in Queue(w.k, w.lock)
  {
    hide Queues, Placed, Forest, FreeDetached, SemLaw, Subtree, Post, Keep, ReapAll, Prune;
    var k := w.k;
    CurrentLive(k);
    Shapes(k);
    SubtreeLive(k, k.current);
    ReapAllFree(k, Post(k.tree, k.current));
    ReapAllBase(k, Post(k.tree, k.current));
    TerminateQueues(k, k.current, Terminated(k, k.current), w.lock);
    KeepProps(Queue(k, w.lock), Subtree(k, k.current));
  }

  lemma ElsewhereGuarded(w: Region, e: Event)
    requires Guarded(w) && May(w, Elsewhere(e)) && Step(w.k, e).status != Halted
    ensures Guarded(Moved(w, Elsewhere(e)))
  {
    StepCore(w.k, e);
    StepSemLaw(w.k, e);
    if e.EvTerminate? {
      EndsElsewhere(w);
    } else {
      MasterSame(w.k, e, w.lock);
      BaseStays(w.k, e);
    }
    hide Core, SemLaw, Queue, Val, Step;
  }

  lemma BaseStays(k: K, e: Event)
    requires Core(k) && Enabled(k, e) && !e.EvTerminate?
    ensures Step(k, e).devBase == k.devBase
  {
    hide Queues, Placed, Forest, FreeDetached;
    if !e.EvCreate? {
      StaysPut(k, e);
    }
  }

  /** The lock is kept by every move, until the machine halts. */
  lemma MoveGuarded(w: Region, x: Move)
    requires Guarded(w) && May(w, x)
    ensures Moved(w, x).k.status != Halted ==> Guarded(Moved(w, x))
  {
    hide SemLaw, Queue, Val, Step;
    match x
    case Enter => EnterGuarded(w);
    case Leave => LeaveGuarded(w);
    case Elsewhere(e) =>
      if Step(w.k, e).status != Halted {
        ElsewhereGuarded(w, e);
      }
  }

  // ----- whole runs -----

  lemma MovedCore(w: Region, x: Move)
    requires Core(w.k) && May(w, x)
    ensures Core(Moved(w, x).k)
  {
    hide Queue, Val, Step, Subtree, Core;
    match x
    case Enter => StepCore(w.k, EvPasseren(w.lock));
    case Leave => StepCore(w.k, EvVerhogen(w.lock));
    case Elsewhere(e) => StepCore(w.k, e);
  }

  ghost predicate Goes(w: Region, xs: seq<Move>)
    requires Core(w.k)
    decreases |xs|
  {
    xs == [] || (May(w, xs[0]) && (MovedCore(w, xs[0]); Goes(Moved(w, xs[0]), xs[1..])))
  }

  ghost function Went(w: Region, xs: seq<Move>): Region
    requires Core(w.k) && Goes(w, xs)
    decreases |xs|
  {
    if xs == [] then w else MovedCore(w, xs[0]); Went(Moved(w, xs[0]), xs[1..])
  }

  lemma HaltedEnds(w: Region, xs: seq<Move>)
    requires Core(w.k) && w.k.status != Live && Goes(w, xs)
    ensures xs == [] && Went(w, xs) == w
  {
    hide Core;
  }

  lemma {:induction false} GoesGuarded(w: Region, xs: seq<Move>)
    requires Guarded(w) && Goes(w, xs)
    ensures Went(w, xs).k.status != Halted ==> Guarded(Went(w, xs))
    decreases |xs|
  {
    if xs != [] {
      MoveGuarded(w, xs[0]);
      MovedCore(w, xs[0]);
      hide Guarded, May, Moved, Core;
      if Moved(w, xs[0]).k.status != Halted {
        GoesGuarded(Moved(w, xs[0]), xs[1..]);
      } else {
        HaltedEnds(Moved(w, xs[0]), xs[1..]);
      }
    }
  }

  /** The lock when the scheduler has first run, with nobody inside. */
  ghost function Unentered(devBase: int, maxProc: nat, uprocs: nat, sem: map<int, int>, lock: int): Region
    requires uprocs + 2 <= maxProc
  {
    Region(Started(devBase, maxProc, uprocs, sem), lock, [])
  }

  /** An ordinary integer that starts at 1. */
  ghost predicate LockSetup(devBase: int, maxProc: nat, uprocs: nat, sem: map<int, int>, lock: int) {
    && BootSetup(devBase, maxProc, uprocs, sem) && 0 < lock < MAXINT && lock in sem && sem[lock] == 1
    && !(devBase <= lock <= devBase + WORDLEN * (NUM_DEVICES - 1)) && lock != devBase + WORDLEN * NUM_DEVICES
  }

  lemma UnenteredGuarded(devBase: int, maxProc: nat, uprocs: nat, sem: map<int, int>, lock: int)
    requires LockSetup(devBase, maxProc, uprocs, sem, lock)
    ensures Guarded(Unentered(devBase, maxProc, uprocs, sem, lock))
  {
    hide Queues, Placed, Forest, FreeDetached, SemLaw, SoftLaw, CountLaw;
    BootSound(devBase, maxProc, uprocs, sem);
  }

  /** xs is a run from boot. */
  ghost predicate GoesFromBoot(devBase: int, maxProc: nat, uprocs: nat, sem: map<int, int>, lock: int, xs: seq<Move>)
    ensures GoesFromBoot(devBase, maxProc, uprocs, sem, lock, xs) ==>
              && uprocs + 2 <= maxProc && Guarded(Unentered(devBase, maxProc, uprocs, sem, lock))
              && Goes(Unentered(devBase, maxProc, uprocs, sem, lock), xs)
  {
    && LockSetup(devBase, maxProc, uprocs, sem, lock)
    && (UnenteredGuarded(devBase, maxProc, uprocs, sem, lock); Goes(Unentered(devBase, maxProc, uprocs, sem, lock), xs))
  }

  /**
   * Mutual exclusion: from boot, whatever else the nucleus does in between, at most one process is between its SYS3 and
   * its SYS4 on the lock, and processes wait for the lock only while one is.
   */
  lemma Exclusion(devBase: int, maxProc: nat, uprocs: nat, sem: map<int, int>, lock: int, xs: seq<Move>)
    requires GoesFromBoot(devBase, maxProc, uprocs, sem, lock, xs)
    ensures var w := Went(Unentered(devBase, maxProc, uprocs, sem, lock), xs);
            w.k.status != Halted ==>
              && |w.inside| <= 1 && (w.inside == [] <==> Val(w.k, w.lock) == 1)
              && (Queue(w.k, w.lock) != [] ==> |w.inside| == 1)
  {
    hide GoesFromBoot, Core, SemLaw;
    var w0 := Unentered(devBase, maxProc, uprocs, sem, lock);
    GoesGuarded(w0, xs);
    var w := Went(w0, xs);
    if w.k.status != Halted {
      AtMostOne(w);
    }
  }
}
