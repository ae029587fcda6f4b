/** sysTerminate as a whole: exactly the subtree goes, and everything else keeps its place and its order. */
module NucleusTerminate {
  import opened Sequences
  import opened ProcessTree
  import opened NucleusState
  import opened NucleusPlaces
  import opened NucleusLaws

  /** The processes blocked on a, first to block first. */
  function Queue(k: K, a: int): seq<int> { if a in k.blocked then k.blocked[a] else [] }

  /** How many of ps wait for a device. */
  function DeviceWaiters(k: K, ps: seq<int>): nat {
    if ps == [] then 0
    else
      var x := ps[|ps| - 1];
      DeviceWaiters(k, ps[..|ps| - 1]) + if 0 <= x < |k.semAdd| && IsDevice(k, k.semAdd[x]) then 1 else 0
  }

  /** p and everything below it, by following parent links. */
  ghost function Subtree(k: K, p: int): set<int>
    requires Core(k)
  {
    Shapes(k);
    set x | x in Range(k.maxProc) && Descends(k.tree, x, p)
  }

  lemma SubtreePost(k: K, p: int)
    requires Core(k) && IsLive(k, p)
    ensures Subtree(k, p) == Elems(Post(k.tree, p)) && |Subtree(k, p)| == |Post(k.tree, p)|
  {
    hide Queues, Placed, Forest, FreeDetached, Descends, Post;
    Shapes(k);
    PostExact(k.tree, p);
    CardDistinct(Post(k.tree, p));
    PostWithin(k, p);
    assert forall x :: x in Subtree(k, p) <==> x in Elems(Post(k.tree, p));
  }

  lemma PostWithin(k: K, p: int)
    requires Core(k) && IsLive(k, p)
    ensures forall x :: x in Post(k.tree, p) ==> 0 <= x < k.maxProc
  {
    SubtreeLive(k, p);
  }

  lemma {:induction false} WithoutKeep(s: seq<int>, x: int, dead: set<int>)
    requires Distinct(s)
    ensures Without(Keep(s, dead), x) == Keep(s, dead + {x})
  {
    if s != [] {
      TailProps(s);
      var t, kept := s[1..], Keep(s[1..], dead);
      WithoutKeep(t, x, dead);
      if s[0] in dead {
        assert Keep(s, dead) == kept && Keep(s, dead + {x}) == Keep(t, dead + {x});
      } else {
        assert ([s[0]] + kept)[1..] == kept;
        if s[0] == x {
          KeepExtra(t, x, dead);
          assert Keep(s, dead + {x}) == Keep(t, dead + {x});
        }
      }
    }
  }

  lemma {:induction false} KeepNothing(s: seq<int>)
    ensures Keep(s, {}) == s
  {
    KeepAll(s, {});
  }

  lemma QueueReap(k: K, x: int, a: int)
    requires Places(k) && IsLive(k, x)
    ensures Queue(Reap(k, x), a) == Without(Queue(k, a), x)
    ensures Val(Reap(k, x), a) == Val(k, a) + if IsDevice(k, a) then 0 else Waiting(k, a) - Waiting(Reap(k, x), a)
  {
    if x in Queue(k, a) {
      WithoutProps(Queue(k, a), x);
    } else {
      WithoutAbsent(Queue(k, a), x);
      if k.semAdd[x] != NIL {
        assert x in Queue(k, k.semAdd[x]);
      }
    }
  }

  lemma {:induction false} QueueReapAll(k: K, ps: seq<int>, a: int)
    requires Places(k) && Distinct(ps) && forall x :: x in ps ==> IsLive(k, x)
    ensures Within(ps, k.maxProc)
    ensures Queue(ReapAll(k, ps), a) == Keep(Queue(k, a), Elems(ps))
    ensures Val(ReapAll(k, ps), a) == Val(k, a) + if IsDevice(k, a) then 0
             else Waiting(k, a) - Waiting(ReapAll(k, ps), a)
  {
    if ps == [] {
      assert Elems(ps) == {};
      KeepNothing(Queue(k, a));
    } else {
      var n := |ps| - 1;
      var x := ps[n];
      assert ps == ps[..n] + [x];
      assert Elems(ps) == Elems(ps[..n]) + {x};
      QueueDistinct(k, a);
      ReapAllLast(k, ps);
      hide Queues, Placed, Keep, Without, Reap, ReapAll, Val, Waiting, Queue, Distinct, Within, IsLive, Elems;
      WithoutKeep(Queue(k, a), x, Elems(ps[..n]));
      QueueReapAll(k, ps[..n], a);
      QueueReap(ReapAll(k, ps[..n]), x, a);
    }
  }

  lemma QueueDistinct(k: K, a: int)
    requires Queues(k)
    ensures Distinct(Queue(k, a)) && Distinct(k.ready) && 0 < k.devBase
  {
  }

  lemma {:induction false} ReadyReapAll(k: K, ps: seq<int>)
    requires |k.semAdd| == k.maxProc && Within(ps, k.maxProc) && Distinct(k.ready)
    ensures ReapAll(k, ps).ready == Keep(k.ready, Elems(ps))
  {
    if ps == [] {
      assert Elems(ps) == {};
      KeepNothing(k.ready);
    } else {
      hide Keep, Without, Unblock;
      var n := |ps| - 1;
      PrefixWithin(ps, k.maxProc, n);
      assert ps == ps[..n] + [ps[n]];
      assert Elems(ps) == Elems(ps[..n]) + {ps[n]};
      WithoutKeep(k.ready, ps[n], Elems(ps[..n]));
      ReadyReapAll(k, ps[..n]);
    }
  }

  lemma SoftReap(k: K, x: int)
    requires |k.semAdd| == k.maxProc && IsPid(k, x) && 0 < k.devBase
    ensures Reap(k, x).softBlock == k.softBlock - if IsDevice(k, k.semAdd[x]) then 1 else 0
  {
    hide Without;
  }

  lemma {:induction false} SoftReapAll(k: K, ps: seq<int>)
    requires |k.semAdd| == k.maxProc && Within(ps, k.maxProc) && 0 < k.devBase
    ensures ReapAll(k, ps).softBlock == k.softBlock - DeviceWaiters(k, ps)
  {
    if ps != [] {
      hide Reap;
      var n := |ps| - 1;
      PrefixWithin(ps, k.maxProc, n);
      SoftReapAll(k, ps[..n]);
      ReapAllBase(k, ps[..n]);
      SoftReap(ReapAll(k, ps[..n]), ps[n]);
    }
  }

  /**
   * Terminating p frees exactly p and its descendants, children before parents, and lowers processCount by one for
   * each; softBlockCount falls by the number of device waiters among them.
   */
  lemma TerminateFrees(k: K, p: int, k1: K)
    requires Core(k) && IsLive(k, p) && k1 == Terminated(k, p) && k1.status == k.status == Live
    ensures k1.free == Reversed(Post(k.tree, p)) + k.free
    ensures forall x :: x in k1.free <==> x in Subtree(k, p) || x in k.free
    ensures k1.current == if k.current in Subtree(k, p) then NIL else k.current
    ensures k1.processCount == k.processCount - |Subtree(k, p)|
    ensures k1.softBlock == k.softBlock - DeviceWaiters(k, Post(k.tree, p))
  {
    hide Queues, Placed, FreeDetached, Post, Descends, Keep, DeviceWaiters, Subtree;
    Shapes(k);
    var ps := Post(k.tree, p);
    SubtreeLive(k, p);
    SubtreePost(k, p);
    ReapAllFree(k, ps);
    ReapAllPlaces(k, ps);
    ReapAllCurrent(k, ps);
    QueueDistinct(k, 0);
    SoftReapAll(k, ps);
  }

  /**
   * Every queue keeps exactly its survivors, in order. An ordinary semaphore, the pseudo-clock among them, gets one
   * unit back per waiter removed; a device semaphore keeps its value.
   */
  lemma TerminateQueues(k: K, p: int, k1: K, a: int)
    requires Core(k) && IsLive(k, p) && k1 == Terminated(k, p) && k1.status == k.status == Live
    ensures k1.ready == Keep(k.ready, Subtree(k, p))
    ensures Queue(k1, a) == Keep(Queue(k, a), Subtree(k, p))
    ensures Val(k1, a) == Val(k, a) + if IsDevice(k, a) then 0 else |Queue(k, a)| - |Queue(k1, a)|
  {
    hide Queues, Placed, FreeDetached, Post, Descends, Keep, Subtree;
    Shapes(k);
    var ps := Post(k.tree, p);
    SubtreeLive(k, p);
    SubtreePost(k, p);
    QueueReapAll(k, ps, a);
    QueueDistinct(k, 0);
    ReadyReapAll(k, ps);
  }

  /** The dead have no relatives left; p's parent loses p and no other child; every other child list is as it was. */
  lemma TerminateTree(k: K, p: int, k1: K, x: int)
    requires Core(k) && IsLive(k, p) && k1 == Terminated(k, p) && k1.status == k.status == Live && IsPid(k, x)
    ensures |k1.tree.kids| == |k1.tree.prnt| == |k.tree.kids| == |k.tree.prnt| == k.maxProc && Forest(k1.tree)
    ensures x in Subtree(k, p) ==> k1.tree.kids[x] == [] && k1.tree.prnt[x] == NIL
    ensures x !in Subtree(k, p) && x == k.tree.prnt[p] ==> k1.tree.kids[x] == Without(k.tree.kids[x], p)
    ensures x !in Subtree(k, p) && x != k.tree.prnt[p] ==> k1.tree.kids[x] == k.tree.kids[x]
    ensures x !in Subtree(k, p) ==> k1.tree.prnt[x] == k.tree.prnt[x]
  {
    hide Queues, Placed, FreeDetached, Post, Descends, Without, Forest, Subtree;
    Shapes(k);
    SubtreePost(k, p);
    PruneAt(k.tree, p);
    PruneForest(k.tree, p);
  }

  /** None of the dead is left in the ready queue or on any semaphore. */
  lemma TerminateLeavesNone(k: K, p: int, k1: K, x: int, a: int)
    requires Core(k) && IsLive(k, p) && k1 == Terminated(k, p) && k1.status == k.status == Live
    requires x in Subtree(k, p)
    ensures x !in k1.ready && x !in Queue(k1, a) && x != k1.current && x in k1.free
  {
    hide Queues, Placed, FreeDetached, Keep, Without, Post, Descends, Subtree, Terminated;
    TerminateQueues(k, p, k1, a);
    TerminateFrees(k, p, k1);
    KeepProps(k.ready, Subtree(k, p));
    KeepProps(Queue(k, a), Subtree(k, p));
    SubtreePost(k, p);
    SubtreeLive(k, p);
    assert x != NIL;
  }

  // ----- processCount and processes that were never counted -----

  /**
   * processCount is lowered once per freed pcb, counted or not. From a state where it is right, ending p leaves it
   * right exactly when everything in p's subtree was counted.
   */
  lemma TerminateCountExact(k: K, p: int, k1: K)
    requires Core(k) && IsLive(k, p) && k1 == Terminated(k, p) && k1.status == k.status == Live
    requires k.processCount == |k.counted|
    ensures k1.processCount == |k1.counted| <==> Subtree(k, p) <= k.counted
  {
    hide Queues, Placed, FreeDetached, Keep, Without, Post, Descends, Subtree;
    Shapes(k);
    SubtreeLive(k, p);
    TerminateFrees(k, p, k1);
    SubtreePost(k, p);
    ReapAllCounted(k, Post(k.tree, p));
    var gone := Subtree(k, p);
    var hit := gone * k.counted;
    assert k.counted == hit + (k.counted - gone);
    assert |k.counted| == |hit| + |k.counted - gone|;
    assert gone == hit + (gone - k.counted);
    assert |gone| == |hit| + |gone - k.counted|;
    assert |gone - k.counted| == 0 <==> gone - k.counted == {};
  }
}
