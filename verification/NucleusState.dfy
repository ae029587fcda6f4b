/**
 * The nucleus as a state machine: what every system call, interrupt and scheduler call does to the process
 * queues, the semaphores, the process tree and the counters. The linked structures of KernelCode.dfy refine it.
 */
module NucleusState {
  import opened Sequences
  import opened ProcessTree

  const WORDLEN := 4
  const DEVPERINT := 8
  const TERMINT := 7
  const NUM_DEVICES := 4 * DEVPERINT + 2 * DEVPERINT

  /** Astray: LDST has been given the state of a process that does not exist, and what happens next is undefined. */
  datatype Status = Live | Halted | Panicked | Astray

  /**
   * Processes are indices into the pcb table; addresses of semaphores are integers. blocked maps the address of
   * each active semaphore to its queue. templates, counted and orphans are history: the pcbs that only hold an
   * initial state, the processes that processCount was raised for, and, per device semaphore, the waiters that
   * were terminated while blocked and whose interrupt has not been absorbed.
   */
  datatype K = K(
    devBase: int,
    maxProc: nat,
    free: seq<int>,
    ready: seq<int>,
    blocked: map<int, seq<int>>,
    current: int,
    tree: Tree,
    semAdd: seq<int>,
    sem: map<int, int>,
    processCount: int,
    softBlock: int,
    status: Status,
    templates: seq<int>,
    counted: set<int>,
    orphans: map<int, int>)

  // ----- reading the state -----

  function DevAddr(k: K, i: int): int { k.devBase + WORDLEN * i }

  function ClockAddr(k: K): int { DevAddr(k, NUM_DEVICES) }

  /** The address comparison sysTerminate makes: a device semaphore, the pseudo-clock excluded. */
  predicate IsDevice(k: K, a: int) { DevAddr(k, 0) <= a <= DevAddr(k, NUM_DEVICES - 1) }

  predicate IsSoft(k: K, a: int) { IsDevice(k, a) || a == ClockAddr(k) }

  function Val(k: K, a: int): int { if a in k.sem then k.sem[a] else 0 }

  function Waiting(k: K, a: int): nat { if a in k.blocked then |k.blocked[a]| else 0 }

  function Orphaned(k: K, a: int): int { if a in k.orphans then k.orphans[a] else 0 }

  predicate IsPid(k: K, p: int) { 0 <= p < k.maxProc }

  /** A pcb that stands for a process. */
  predicate IsLive(k: K, p: int) { IsPid(k, p) && p !in k.free && p !in k.templates }

  // ----- invariants -----

  /** Shape of the tables, and no pcb in two queues or twice in one. */
  ghost predicate Queues(k: K) {
    && 0 < k.devBase && ClockAddr(k) < MAXINT
    && |k.semAdd| == |k.tree.kids| == k.maxProc
    && Within(k.free, k.maxProc) && Distinct(k.free)
    && Within(k.ready, k.maxProc) && Distinct(k.ready)
    && (forall p :: p in k.free ==> p !in k.ready)
    && (forall a :: a in k.blocked ==>
          0 < a < MAXINT && k.blocked[a] != [] && Within(k.blocked[a], k.maxProc) && Distinct(k.blocked[a]))
    && (forall a, p :: a in k.blocked && p in k.blocked[a] ==>
          IsPid(k, p) && k.semAdd[p] == a && p !in k.free && p !in k.ready)
  }

  /** The running process and the templates are in no queue, and every other pcb is in one. */
  ghost predicate Placed(k: K)
    requires |k.semAdd| == k.maxProc
  {
    && Distinct(k.templates)
    && (k.current != NIL ==> IsPid(k, k.current) && k.current !in k.free && k.current !in k.ready
                             && k.semAdd[k.current] == NIL && k.current !in k.templates)
    && (forall p :: p in k.templates ==> IsPid(k, p) && p !in k.free && p !in k.ready && k.semAdd[p] == NIL)
    && (forall p :: p in k.ready && IsPid(k, p) ==> k.semAdd[p] == NIL)
    && (forall p :: IsPid(k, p) && p !in k.free && k.semAdd[p] != NIL ==>
          k.semAdd[p] in k.blocked && p in k.blocked[k.semAdd[p]])
    && (forall p :: IsPid(k, p) && p !in k.free && k.semAdd[p] == NIL ==>
          p in k.ready || p == k.current || p in k.templates)
  }

  /** A free pcb or a template has no relatives. */
  ghost predicate FreeDetached(k: K)
    requires |k.tree.kids| == |k.tree.prnt| == k.maxProc
  {
    forall p :: (p in k.free || p in k.templates) && IsPid(k, p) ==> k.tree.kids[p] == [] && k.tree.prnt[p] == NIL
  }

  ghost predicate Core(k: K) {
    Queues(k) && Placed(k) && Forest(k.tree) && FreeDetached(k)
  }

  function Deficit(v: int): nat { if v < 0 then -v else 0 }

  /** A semaphore's deficit is its number of waiters, dead device waiters included. */
  ghost predicate SemLaw(k: K) {
    forall a {:trigger Val(k, a)} :: SemLawAt(k, a)
  }

  ghost predicate SemLawAt(k: K, a: int) {
    && Deficit(Val(k, a)) == Waiting(k, a) + Orphaned(k, a)
    && Orphaned(k, a) >= 0
    && (Orphaned(k, a) > 0 ==> IsDevice(k, a))
  }

  /** The processes waiting for a device or for the pseudo-clock. */
  ghost function SoftBlocked(k: K): set<int>
    requires |k.semAdd| == k.maxProc
  {
    set p | p in Range(k.maxProc) && p !in k.free && IsSoft(k, k.semAdd[p])
  }

  ghost predicate SoftLaw(k: K)
    requires |k.semAdd| == k.maxProc
  {
    k.softBlock >= |SoftBlocked(k)|
  }

  /** processCount is the number of counted processes, and every child is counted. */
  ghost predicate CountLaw(k: K)
    requires |k.tree.kids| == k.maxProc
  {
    && k.processCount == |k.counted|
    && (forall p :: p in k.counted ==> IsPid(k, p) && p !in k.free)
    && (forall p, q :: IsPid(k, p) && q in k.tree.kids[p] ==> q in k.counted)
  }

  // ----- queue steps -----

  ghost function Enqueued(b: map<int, seq<int>>, a: int, p: int): map<int, seq<int>> {
    b[a := (if a in b then b[a] else []) + [p]]
  }

  /** A semaphore whose queue became empty is no longer active. */
  ghost function Requeued(b: map<int, seq<int>>, a: int, q: seq<int>): map<int, seq<int>> {
    if q == [] then b - {a} else b[a := q]
  }

  ghost function SetSem(k: K, a: int, v: int): K { k.(sem := k.sem[a := v]) }

  /** scheduler: dispatch the head of the ready queue, or halt, wait or panic. */
  ghost function Schedule(k: K): K {
    if k.ready != [] then k.(current := k.ready[0], ready := k.ready[1..])
    else k.(current := NIL,
            status := if k.processCount == 0 then Halted else if k.softBlock > 0 then Live else Panicked)
  }

  ghost function BlockCurrent(k: K, a: int): K
    requires Queues(k) && IsPid(k, k.current)
  {
    k.(semAdd := k.semAdd[k.current := a], blocked := Enqueued(k.blocked, a, k.current), current := NIL)
  }

  /** removeBlocked and insertProcQ: the first waiter on a becomes ready. */
  ghost function Wake(k: K, a: int): K
    requires Queues(k) && a in k.blocked
  {
    var p := k.blocked[a][0];
    assert p in k.blocked[a];
    k.(semAdd := k.semAdd[p := NIL], blocked := Requeued(k.blocked, a, k.blocked[a][1..]), ready := k.ready + [p])
  }

  ghost function Passeren(k: K, a: int): K
    requires Queues(k) && IsPid(k, k.current)
  {
    var k1 := SetSem(k, a, Val(k, a) - 1);
    if Val(k1, a) < 0 then Schedule(BlockCurrent(k1, a)) else k1
  }

  /** A deficit with nobody in the queue belongs to a terminated waiter. */
  ghost function Absorb(k: K, a: int): K { k.(orphans := k.orphans[a := Orphaned(k, a) - 1]) }

  ghost function Verhogen(k: K, a: int): K
    requires Queues(k)
  {
    var k1 := SetSem(k, a, Val(k, a) + 1);
    if Val(k1, a) > 0 then k1 else if a in k1.blocked then Wake(k1, a) else Absorb(k1, a)
  }

  ghost function WaitSoft(k: K, a: int): K
    requires Queues(k) && IsPid(k, k.current)
  {
    Passeren(k.(softBlock := k.softBlock + 1), a)
  }

  /** Back to the interrupted process, or to the scheduler if there is none. */
  ghost function Resume(k: K): K { if k.current == NIL then Schedule(k) else k }

  /**
   * handleDeviceInterrupt. If the value ends up positive the handler returns and LDST resumes what was interrupted;
   * with no process running, that is the scheduler after its WAIT, which goes on to load the state of a NULL process.
   */
  ghost function DeviceInterrupt(k: K, a: int): K
    requires Queues(k)
  {
    var k1 := SetSem(k, a, Val(k, a) + 1);
    if Val(k1, a) > 0 then if k.current == NIL then k1.(status := Astray) else k1
    else Resume(if a in k1.blocked then Wake(k1, a).(softBlock := k1.softBlock - 1) else Absorb(k1, a))
  }

  ghost function TimeSlice(k: K): K {
    Schedule(if k.current == NIL then k else k.(ready := k.ready + [k.current], current := NIL))
  }

  // ----- process steps -----

  ghost function Created(k: K): K
    requires Queues(k) && Forest(k.tree) && k.free != [] && IsPid(k, k.current)
  {
    var n := k.free[0];
    assert n in k.free;
    k.(free := k.free[1..], ready := k.ready + [n], tree := Adopt(Stamp(k.tree, n), k.current, n),
       semAdd := k.semAdd[n := NIL], processCount := k.processCount + 1, counted := k.counted + {n})
  }

  ghost function Create(k: K): K
    requires Queues(k) && Forest(k.tree) && IsPid(k, k.current)
  {
    if k.free == [] then k else Created(k)
  }

  /** Take x off the semaphore it waits on; only a semaphore that is not a device's gets its unit back. */
  ghost function Unblock(k: K, x: int): K
    requires |k.semAdd| == k.maxProc && IsPid(k, x)
  {
    var a := k.semAdd[x];
    if a == NIL then k
    else
      var k1 := if IsDevice(k, a) then k.(softBlock := k.softBlock - 1, orphans := k.orphans[a := Orphaned(k, a) + 1])
                else SetSem(k, a, Val(k, a) + 1);
      if a in k.blocked then k1.(blocked := Requeued(k.blocked, a, Without(k.blocked[a], x))) else k1
  }

  /** What sysTerminate does to the queues and counters for one process. */
  ghost function Reap(k: K, x: int): K
    requires |k.semAdd| == k.maxProc && IsPid(k, x)
  {
    var k1 := Unblock(k, x);
    k1.(ready := Without(k.ready, x), current := if k.current == x then NIL else k.current, free := [x] + k.free,
        processCount := k.processCount - 1, counted := k.counted - {x})
  }

  ghost function ReapAll(k: K, ps: seq<int>): K
    requires |k.semAdd| == k.maxProc && Within(ps, k.maxProc)
    ensures ReapAll(k, ps).maxProc == k.maxProc && ReapAll(k, ps).semAdd == k.semAdd && ReapAll(k, ps).tree == k.tree
  {
    if ps == [] then k
    else
      PrefixWithin(ps, k.maxProc, |ps| - 1);
      Reap(ReapAll(k, ps[..|ps| - 1]), ps[|ps| - 1])
  }

  /** sysTerminate: the subtree of p goes, bottom up; HALT as soon as processCount reaches zero. */
  ghost function Terminated(k: K, p: int): K
    requires Core(k) && IsLive(k, p)
  {
    var ps := Post(k.tree, p);
    PostExact(k.tree, p);
    if k.processCount <= |ps| then k.(status := Halted)
    else ReapAll(k, ps).(tree := Prune(k.tree, p))
  }

  ghost function Terminate(k: K): K
    requires Core(k) && IsPid(k, k.current)
  {
    var k1 := Terminated(k, k.current);
    if k1.status == Halted then k1 else Schedule(k1)
  }

  // ----- the clock tick -----

  /** Wake the waiters on a one by one. */
  ghost function Drain(k: K, a: int): K
    requires Queues(k)
    decreases Waiting(k, a)
  {
    if a in k.blocked then WakeQueues(k, a); Drain(Wake(k, a), a) else k
  }

  ghost function Tick(k: K): K
    requires Queues(k)
  {
    Resume(SetSem(Drain(k, ClockAddr(k)), ClockAddr(k), 0))
  }

  lemma WakeQueues(k: K, a: int)
    requires Queues(k) && a in k.blocked
    ensures Queues(Wake(k, a))
  {
    TailProps(k.blocked[a]);
    AppendProps(k.ready, k.blocked[a][0]);
  }

  // ----- events -----

  datatype Event =
    | EvCreate
    | EvTerminate
    | EvPasseren(a: int)
    | EvVerhogen(a: int)
    | EvWaitIO(line: int, dev: int, term: int)
    | EvWaitClock
    | EvDevice(line: int, dev: int)
    | EvTick
    | EvTimeSlice

  /** sysWaitIO's index; term is the terminal sub-device flag passed in a3. */
  function WaitIndex(line: int, dev: int, term: int): int {
    if line == TERMINT then 4 * DEVPERINT + dev * 2 + term else (line - 3) * DEVPERINT + dev
  }

  /**
   * handleDeviceInterrupt's index. A terminal interrupt is acknowledged only when the status byte is 5, and any
   * nonzero status byte selects the odd sub-device.
   */
  function InterruptIndex(line: int, dev: int): int {
    if line == TERMINT then 4 * DEVPERINT + dev * 2 + 1 else (line - 3) * DEVPERINT + dev
  }

  predicate ValidDevice(line: int, dev: int) { 3 <= line <= TERMINT && 0 <= dev < DEVPERINT }

  /** A system call needs a running process; nothing happens after HALT or PANIC. */
  predicate Enabled(k: K, e: Event) {
    k.status == Live &&
    match e
    case EvPasseren(a) => k.current != NIL && 0 < a < MAXINT
    case EvVerhogen(a) => k.current != NIL && 0 < a < MAXINT
    case EvWaitIO(line, dev, term) => k.current != NIL && ValidDevice(line, dev) && 0 <= term <= 1
    case EvDevice(line, dev) => ValidDevice(line, dev)
    case EvTick => true
    case EvTimeSlice => true
    case _ => k.current != NIL
  }

  ghost function Step(k: K, e: Event): K
    requires Core(k) && Enabled(k, e)
  {
    match e
    case EvCreate => Create(k)
    case EvTerminate => Terminate(k)
    case EvPasseren(a) => Passeren(k, a)
    case EvVerhogen(a) => Verhogen(k, a)
    case EvWaitIO(line, dev, term) => WaitSoft(k, DevAddr(k, WaitIndex(line, dev, term)))
    case EvWaitClock => WaitSoft(k, ClockAddr(k))
    case EvDevice(line, dev) => DeviceInterrupt(k, DevAddr(k, InterruptIndex(line, dev)))
    case EvTick => Tick(k)
    case EvTimeSlice => TimeSlice(k)
  }
}
