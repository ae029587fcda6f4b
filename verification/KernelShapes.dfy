/** How the pcb table represents the state machine of NucleusState.dfy, and which edits keep that. */
module KernelShapes {
  import opened Sequences
  import opened ProcessTree
  import opened PcbTable
  import opened SemaphoreList
  import opened NucleusState
  import opened NucleusPlaces

  /** The pcb table holds the free list, the ready queue and the tree of k, and each process's semaphore. */
  ghost predicate PcbShape(t: seq<Pcb>, ready: int, freeH: int, k: K) {
    && |t| == k.maxProc == |k.semAdd|
    && Ring(t, ready, k.ready) && Chain(t, freeH, k.free) && TreeLinks(t, k.tree, k.free)
    && SemFields(t, k.semAdd, k.free)
  }

  ghost predicate SemFields(t: seq<Pcb>, semAdd: seq<int>, free: seq<int>)
    requires |t| == |semAdd|
  {
    forall p {:trigger t[p]} :: 0 <= p < |t| && p !in free ==> t[p].semAdd == semAdd[p]
  }

  // ----- facts about k -----

  /** The queues do not look at semaphore values, counters, the running process or history. */
  lemma QueuesSame(k: K, k1: K)
    requires Queues(k)
    requires k1 == k.(sem := k1.sem, softBlock := k1.softBlock, processCount := k1.processCount, status := k1.status,
                      counted := k1.counted, orphans := k1.orphans, current := k1.current, templates := k1.templates)
    ensures Queues(k1)
  {
  }

  lemma ReadyFacts(k: K)
    requires Queues(k)
    ensures Disjoint(k.ready, k.free) && Distinct(k.ready) && Distinct(k.free)
    ensures k.ready != [] ==> IsPid(k, k.ready[0])
    ensures forall a, x :: a in k.blocked && x in k.blocked[a] ==> x !in k.ready
  {
    if k.ready != [] {
      assert k.ready[0] in k.ready;
    }
  }

  lemma DispatchQueues(k: K)
    requires Queues(k)
    ensures Queues(Schedule(k))
  {
    if k.ready != [] {
      TailProps(k.ready);
    }
  }

  /** The head of the free list is in no queue and has no relatives. */
  lemma HeadFree(k: K)
    requires Queues(k) && k.free != []
    ensures IsPid(k, k.free[0]) && k.free[0] !in k.free[1..] && k.free[0] !in k.ready
    ensures forall a :: a in k.blocked ==> k.free[0] !in k.blocked[a]
    ensures Queues(k.(free := k.free[1..], semAdd := k.semAdd[k.free[0] := NIL]))
    ensures forall x :: x in k.free[1..] ==> x in k.free
  {
    TailProps(k.free);
  }

  lemma ReadyQueues(k: K, p: int)
    requires Queues(k) && IsPid(k, p) && p !in k.free && p !in k.ready
    requires forall a :: a in k.blocked ==> p !in k.blocked[a]
    ensures Queues(k.(ready := k.ready + [p]))
    ensures forall x :: x in k.ready + [p] ==> x !in k.free
    ensures forall a, x :: a in k.blocked && x in k.blocked[a] ==> x !in k.ready + [p]
  {
    AppendProps(k.ready, p);
  }

  lemma HeadBlockedFacts(k: K, a: int)
    requires Queues(k) && a in k.blocked
    ensures k.blocked[a] != [] && IsPid(k, k.blocked[a][0]) && k.blocked[a][0] !in k.ready && k.blocked[a][0] !in k.free
  {
    assert k.blocked[a][0] in k.blocked[a];
  }

  /** Taking the first waiter off a leaves it in no queue at all. */
  lemma UnblockedQueues(k: K, a: int)
    requires Queues(k) && a in k.blocked
    ensures var p := k.blocked[a][0];
            && IsPid(k, p)
            && Queues(k.(semAdd := k.semAdd[p := NIL], blocked := Requeued(k.blocked, a, k.blocked[a][1..])))
            && forall c :: c in Requeued(k.blocked, a, k.blocked[a][1..]) ==>
                 p !in Requeued(k.blocked, a, k.blocked[a][1..])[c]
  {
    var p := k.blocked[a][0];
    TailProps(k.blocked[a]);
    forall c | c in Requeued(k.blocked, a, k.blocked[a][1..])
      ensures p !in Requeued(k.blocked, a, k.blocked[a][1..])[c]
    {
      assert k.semAdd[p] == a;
    }
  }

  lemma OutQueues(k: K, x: int)
    requires Queues(k) && IsPid(k, x) && k.semAdd[x] in k.blocked
    ensures Queues(k.(blocked := Requeued(k.blocked, k.semAdd[x], Without(k.blocked[k.semAdd[x]], x))))
  {
    var a := k.semAdd[x];
    assert Distinct(k.blocked[a]);
    WithoutProps(k.blocked[a], x);
  }

  lemma BlockedFacts(k: K, a: int)
    requires Queues(k) && a in k.blocked
    ensures Disjoint(k.blocked[a], k.free) && Disjoint(k.blocked[a], k.ready)
  {
  }

  lemma LeaveQueues(k: K, x: int)
    requires Queues(k)
    ensures Queues(k.(ready := Without(k.ready, x))) && x !in Without(k.ready, x)
    ensures Disjoint(k.ready, k.free)
    ensures forall a, y :: a in k.blocked && y in k.blocked[a] ==> y !in k.ready
  {
    WithoutProps(k.ready, x);
  }

  lemma QueuesTree(k: K, t: Tree)
    requires Queues(k) && |t.kids| == k.maxProc
    ensures Queues(k.(tree := t))
  {
  }

  lemma FreeQueues(k: K, p: int)
    requires Queues(k) && IsPid(k, p) && p !in k.free && p !in k.ready
    requires forall a :: a in k.blocked ==> p !in k.blocked[a]
    ensures Queues(k.(free := [p] + k.free))
  {
    ConsProps(p, k.free);
  }

  /** The relatives of a live process are live, and nobody has a free pcb as a child. */
  lemma LiveEdges(k: K, p: int)
    requires Core(k) && IsLive(k, p)
    ensures |k.tree.kids| == |k.tree.prnt| == |k.tree.birth| == |k.semAdd| == k.maxProc
    ensures forall c :: c in k.tree.kids[p] ==> IsLive(k, c) && k.tree.prnt[c] == p && k.tree.birth[p] < k.tree.birth[c]
    ensures k.tree.prnt[p] != NIL ==> IsLive(k, k.tree.prnt[p])
    ensures k.tree.birth[p] < k.tree.now
    ensures k.semAdd[p] != NIL ==> k.semAdd[p] in k.blocked && p in k.blocked[k.semAdd[p]] && 0 < k.semAdd[p] < MAXINT
  {
    hide Distinct, Within;
    if k.tree.prnt[p] != NIL {
      assert p in k.tree.kids[k.tree.prnt[p]];
    }
  }

  lemma FreeHeadAlone(k: K)
    requires Core(k) && k.free != []
    ensures |k.tree.kids| == |k.tree.prnt| == k.maxProc
    ensures IsPid(k, k.free[0]) && k.tree.kids[k.free[0]] == [] && k.tree.prnt[k.free[0]] == NIL
    ensures k.current != NIL ==> k.current !in k.free && k.current != k.free[0] && IsPid(k, k.current)
  {
    assert k.free[0] in k.free;
  }

  // ----- edits of the table -----

  /** Editing the links of one queue leaves the tree and the free list alone. */
  lemma ReadyShape(t: seq<Pcb>, t': seq<Pcb>, ready: int, ready': int, freeH: int, k: K, r: seq<int>, q: seq<int>)
    requires PcbShape(t, ready, freeH, k) && QueueEdit(t, t', q) && Disjoint(q, k.free) && Ring(t', ready', r)
    ensures PcbShape(t', ready', freeH, k.(ready := r))
  {
    TreeFrame(t, t', k.tree, k.free);
    forall x | x in k.free && 0 <= x < |t| ensures t'[x].next == t[x].next {
      assert x !in q;
    }
    ChainFrame(t, t', freeH, k.free);
  }

  lemma UnreadyRing(t: seq<Pcb>, t': seq<Pcb>, tp: int, q: seq<int>, o: seq<int>)
    requires Ring(t, tp, q) && QueueEdit(t, t', o) && Disjoint(o, q)
    ensures Ring(t', tp, q)
  {
    forall x | x in q && 0 <= x < |t| ensures t'[x] == t[x] {
      assert x !in o;
    }
    RingFrame(t, t', tp, q);
  }

  lemma OwnsQueueEdit(t: seq<Pcb>, t': seq<Pcb>, d: seq<Semd>, act: seq<int>, b: map<int, seq<int>>, q: seq<int>)
    requires Within(act, |d|) && Owns(t, d, act, b) && QueueEdit(t, t', q)
    requires forall a, x :: a in b && x in b[a] ==> x !in q
    ensures Owns(t', d, act, b)
  {
    OwnsFrame(t, t', d, act, b);
  }

  lemma OwnsTreeEdit(t: seq<Pcb>, t': seq<Pcb>, d: seq<Semd>, act: seq<int>, b: map<int, seq<int>>)
    requires Within(act, |d|) && Owns(t, d, act, b) && TreeEdit(t, t')
    ensures Owns(t', d, act, b)
  {
    OwnsFrame(t, t', d, act, b);
  }

  lemma OwnsPcbEdit(t: seq<Pcb>, t': seq<Pcb>, d: seq<Semd>, act: seq<int>, b: map<int, seq<int>>, p: int, u: Pcb)
    requires Within(act, |d|) && Owns(t, d, act, b) && 0 <= p < |t| && t' == t[p := u]
    requires forall a :: a in b ==> p !in b[a]
    ensures Owns(t', d, act, b)
  {
    OwnsFrame(t, t', d, act, b);
  }

  /** The head of the free list, cleared. */
  lemma TakeShape(t: seq<Pcb>, t': seq<Pcb>, ready: int, freeH: int, freeH': int, k: K)
    requires PcbShape(t, ready, freeH, k) && Forest(k.tree) && k.free != [] && IsPid(k, k.free[0])
    requires k.free[0] !in k.ready && k.tree.kids[k.free[0]] == [] && k.tree.prnt[k.free[0]] == NIL
    requires t' == t[k.free[0] := ZEROED] && Chain(t', freeH', k.free[1..])
    ensures PcbShape(t', ready, freeH', k.(free := k.free[1..], semAdd := k.semAdd[k.free[0] := NIL]))
  {
    var p := k.free[0];
    TailProps(k.free);
    RingFrame(t, t', ready, k.ready);
    TakeTree(t, t', k.tree, k.free, p);
  }

  lemma TakeTree(t: seq<Pcb>, t': seq<Pcb>, tr: Tree, free: seq<int>, p: int)
    requires TreeLinks(t, tr, free) && Forest(tr) && free != [] && Distinct(free) && p == free[0] && 0 <= p < |t|
    requires t' == t[p := ZEROED] && tr.kids[p] == [] && tr.prnt[p] == NIL
    ensures TreeLinks(t', tr, free[1..])
  {
    TailProps(free);
    forall a, i | 0 <= a < |t'| && 0 <= i < |tr.kids[a]| ensures SiblingLinks(t', tr.kids[a], i) {
      assert SiblingLinks(t, tr.kids[a], i) && tr.kids[a][i] in tr.kids[a];
    }
  }

  /** Only tree links changed, and they describe tr. */
  lemma TreeShape(t: seq<Pcb>, t': seq<Pcb>, ready: int, freeH: int, k: K, tr: Tree)
    requires PcbShape(t, ready, freeH, k) && TreeEdit(t, t') && TreeLinks(t', tr, k.free)
    ensures PcbShape(t', ready, freeH, k.(tree := tr))
  {
    RingFrame(t, t', ready, k.ready);
    ChainFrame(t, t', freeH, k.free);
  }

  lemma StampLinks(t: seq<Pcb>, tr: Tree, p: int, n: int, free: seq<int>)
    requires 0 <= p < |tr.kids| && 0 <= n < |tr.prnt| && n < |tr.birth| && TreeLinks(t, Adopt(tr, p, n), free)
    ensures TreeLinks(t, Adopt(Stamp(tr, n), p, n), free)
  {
    var u := Adopt(tr, p, n);
    forall a, i | 0 <= a < |t| && 0 <= i < |u.kids[a]| ensures SiblingLinks(t, u.kids[a], i) {
    }
  }

  lemma BlockShape(t: seq<Pcb>, t1: seq<Pcb>, t2: seq<Pcb>, ready: int, freeH: int, k: K, a: int)
    requires Places(k) && IsPid(k, k.current) && PcbShape(t, ready, freeH, k) && 0 < a < MAXINT
    requires t1 == t[k.current := t[k.current].(semAdd := a)]
    requires BlockEdit(t1, t2, BlockCurrent(k, a).blocked[a], k.current) && t2[k.current].semAdd == a
    ensures PcbShape(t2, ready, freeH, BlockCurrent(k, a))
  {
    var p := k.current;
    var q := if a in k.blocked then k.blocked[a] else [];
    AppendProps(q, p);
    TreeFrame(t, t2, k.tree, k.free);
    forall x | x in k.ready + k.free ensures x !in q + [p] {}
    RingFrame(t, t2, ready, k.ready);
    ChainFrame(t, t2, freeH, k.free);
  }

  lemma UnblockShape(t: seq<Pcb>, t': seq<Pcb>, ready: int, freeH: int, k: K, a: int)
    requires Queues(k) && a in k.blocked && PcbShape(t, ready, freeH, k) && IsPid(k, k.blocked[a][0])
    requires BlockEdit(t, t', k.blocked[a], k.blocked[a][0]) && t'[k.blocked[a][0]].semAdd == NIL
    ensures PcbShape(t', ready, freeH,
                     k.(semAdd := k.semAdd[k.blocked[a][0] := NIL],
                         blocked := Requeued(k.blocked, a, k.blocked[a][1..])))
  {
    var p := k.blocked[a][0];
    assert p in k.blocked[a];
    TreeFrame(t, t', k.tree, k.free);
    RingFrame(t, t', ready, k.ready);
    ChainFrame(t, t', freeH, k.free);
  }

  /** p goes back to the free list. */
  lemma FreeShape(t: seq<Pcb>, t': seq<Pcb>, ready: int, freeH: int, freeH': int, k: K, p: int)
    requires PcbShape(t, ready, freeH, k) && IsPid(k, p) && p !in k.ready
    requires t' == t[p := t[p].(next := freeH)] && Chain(t', freeH', [p] + k.free)
    ensures PcbShape(t', ready, freeH', k.(free := [p] + k.free))
  {
    RingFrame(t, t', ready, k.ready);
    TreeFrame(t, t', k.tree, k.free);
    FewerLinks(t', k.tree, k.free, [p] + k.free);
  }

  lemma FewerLinks(t: seq<Pcb>, tr: Tree, free: seq<int>, free': seq<int>)
    requires TreeLinks(t, tr, free) && forall x :: x in free ==> x in free'
    ensures TreeLinks(t, tr, free')
  {
    forall a, i | 0 <= a < |t| && 0 <= i < |tr.kids[a]| ensures SiblingLinks(t, tr.kids[a], i) {
    }
  }
}
