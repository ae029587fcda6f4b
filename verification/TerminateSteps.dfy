/** The states sysTerminate goes through: after n of p's children are gone, and once p's own turn comes. */
module TerminateSteps {
  import opened Sequences
  import opened ProcessTree
  import opened NucleusState
  import opened NucleusPlaces
  import opened KernelShapes

  /** Reaping does not look at the tree. */
  lemma {:induction false} ReapAllTree(k: K, ps: seq<int>, t: Tree)
    requires |k.semAdd| == k.maxProc && Within(ps, k.maxProc)
    ensures ReapAll(k.(tree := t), ps) == ReapAll(k, ps).(tree := t)
  {
    if ps != [] {
      hide Reap;
      PrefixWithin(ps, k.maxProc, |ps| - 1);
      ReapAllTree(k, ps[..|ps| - 1], t);
      ReapTree(ReapAll(k, ps[..|ps| - 1]), ps[|ps| - 1], t);
    }
  }

  lemma {:induction false} ReapAllAppend(k: K, ps: seq<int>, qs: seq<int>)
    requires |k.semAdd| == k.maxProc && Within(ps, k.maxProc) && Within(qs, k.maxProc)
    ensures Within(ps + qs, k.maxProc)
    ensures ReapAll(ReapAll(k, ps), qs) == ReapAll(k, ps + qs)
  {
    if qs == [] {
      assert ps + qs == ps;
    } else {
      var n := |qs| - 1;
      PrefixWithin(qs, k.maxProc, n);
      ReapAllAppend(k, ps, qs[..n]);
      assert (ps + qs)[..|ps + qs| - 1] == ps + qs[..n];
      assert (ps + qs)[|ps + qs| - 1] == qs[n];
    }
  }

  lemma DetachCore(k: K, c: int)
    requires Core(k) && IsLive(k, c)
    ensures Core(k.(tree := Detach(k.tree, c)))
  {
    hide Queues, Placed;
    Shapes(k);
    LiveEdges(k, c);
    DetachForest(k.tree, c);
    assert FreeDetached(k.(tree := Detach(k.tree, c)));
    hide Forest, FreeDetached;
    PlacesTree(k, Detach(k.tree, c));
  }

  lemma PlacesTree(k: K, t: Tree)
    requires Places(k) && |t.kids| == k.maxProc
    ensures Places(k.(tree := t))
  {
  }

  lemma {:induction false} PostsGrow(t: Tree, p: int, n: nat)
    requires Forest(t) && 0 <= p < |t.kids| && n <= |t.kids[p]|
    ensures |Posts(t, p, n)| <= |Posts(t, p, |t.kids[p]|)|
    decreases |t.kids[p]| - n
  {
    if n < |t.kids[p]| {
      assert t.kids[p][n] in t.kids[p];
      PostsGrow(t, p, n + 1);
    }
  }

  lemma PostsSafe(k: K, p: int, n: nat)
    requires Core(k) && IsLive(k, p) && n <= |k.tree.kids[p]|
    ensures Within(Posts(k.tree, p, n), k.maxProc) && Distinct(Posts(k.tree, p, n)) && p !in Posts(k.tree, p, n)
    ensures forall x :: x in Posts(k.tree, p, n) ==> IsLive(k, x)
  {
    hide Queues, Placed, Forest, FreeDetached, Descends, Posts;
    Shapes(k);
    PostsExact(k.tree, p, n);
    PostExact(k.tree, p);
    SubtreeLive(k, p);
  }

  /** n of p's children have been terminated, subtree and all. */
  ghost function During(k: K, p: int, n: nat): K
    requires Core(k) && IsLive(k, p) && n <= |k.tree.kids[p]|
  {
    PostsSafe(k, p, n);
    ReapAll(k, Posts(k.tree, p, n)).(tree := Partway(k.tree, p, n))
  }

  lemma DuringStart(k: K, p: int)
    requires Core(k) && IsLive(k, p)
    ensures During(k, p, 0) == k
  {
    hide Queues, Placed, Forest, FreeDetached;
    Shapes(k);
    PartwayStart(k.tree, p);
  }

  lemma DuringFacts(k: K, p: int, n: nat)
    requires Core(k) && IsLive(k, p) && n <= |k.tree.kids[p]|
    ensures var m := During(k, p, n);
            && m.maxProc == k.maxProc && m.semAdd == k.semAdd && m.status == k.status
            && m.processCount == k.processCount - |Posts(k.tree, p, n)|
            && m.tree.birth == k.tree.birth && m.tree.now == k.tree.now
            && IsLive(m, p) && (forall x :: x !in Posts(k.tree, p, n) && IsLive(k, x) ==> IsLive(m, x))
            && |m.tree.kids| == |m.tree.prnt| == k.maxProc
            && m.tree.prnt[p] == k.tree.prnt[p] && m.tree.kids[p] == k.tree.kids[p][n..]
  {
    hide Queues, Placed, Forest, FreeDetached, Posts;
    Shapes(k);
    PostsSafe(k, p, n);
    ReapAllFree(k, Posts(k.tree, p, n));
    ReapAllPlaces(k, Posts(k.tree, p, n));
  }

  /** The next child comes off p's list and is itself ready to be terminated. */
  lemma DuringChild(k: K, p: int, n: nat)
    requires Core(k) && IsLive(k, p) && n < |k.tree.kids[p]| && Core(During(k, p, n))
    ensures var m, c := During(k, p, n), k.tree.kids[p][n];
            && IsLive(m, c) && |m.tree.prnt| == |m.tree.kids| == k.maxProc && m.tree.prnt[c] == p
            && |m.tree.kids[p]| > 0 && m.tree.kids[p][0] == c
            && Core(m.(tree := Detach(m.tree, c))) && Forest(Detach(m.tree, c))
            && Post(Detach(m.tree, c), c) == Post(k.tree, c)
  {
    hide Queues, Placed, Forest, FreeDetached, Posts, Post, Partway;
    Shapes(k);
    var m, c := During(k, p, n), k.tree.kids[p][n];
    Shapes(m);
    DuringFacts(k, p, n);
    PartwayNext(k.tree, p, n);
    assert c in m.tree.kids[p];
    LiveEdges(m, p);
    DetachCore(m, c);
    CoreForest(m);
    PartwayDetach(k.tree, p, n);
  }

  lemma CoreForest(k: K)
    requires Core(k)
    ensures Forest(k.tree)
  {
  }

  /** Terminating that child leads to the state after n + 1 children, or halts, and then terminating p halts too. */
  lemma DuringStep(k: K, p: int, n: nat)
    requires Core(k) && IsLive(k, p) && n < |k.tree.kids[p]| && Core(During(k, p, n)) && k.status == Live
    requires var m, c := During(k, p, n), k.tree.kids[p][n];
             && |m.tree.prnt| == |m.tree.kids| == k.maxProc && IsLive(m, c) && m.tree.prnt[c] == p
             && Core(m.(tree := Detach(m.tree, c)))
    ensures var m, c := During(k, p, n), k.tree.kids[p][n];
            var k1 := Terminated(m.(tree := Detach(m.tree, c)), c);
            if k1.status == Halted then Terminated(k, p).status == Halted
            else k1 == During(k, p, n + 1) && Core(k1) && k1.processCount > 0
  {
    hide Queues, Placed, Forest, FreeDetached, Post, Partway, Prune, Detach;
    Shapes(k);
    CoreForest(k);
    DuringFacts(k, p, n);
    DuringFacts(k, p, n + 1);
    DuringChild(k, p, n);
    var m, c := During(k, p, n), k.tree.kids[p][n];
    var kd := m.(tree := Detach(m.tree, c));
    CoreForest(m);
    Shapes(m);
    var ps, qs := Posts(k.tree, p, n), Post(k.tree, c);
    assert c in k.tree.kids[p];
    assert Posts(k.tree, p, n + 1) == ps + qs;
    PostsGrow(k.tree, p, n + 1);
    PostLength(k.tree, p);
    PostsSafe(k, p, n);
    PostsSafe(k, p, n + 1);
    SubtreeLive(kd, c);
    SubtreeLive(k, p);
    if kd.processCount <= |qs| {
      assert Terminated(k, p).status == Halted;
    } else {
      ReapAllFree(kd, qs);
      TerminatedCore(kd, c);
      PartwayStep(k.tree, p, n);
      ReapAllTree(ReapAll(k, ps), qs, Detach(m.tree, c));
      ReapAllAppend(k, ps, qs);
      assert Terminated(kd, c) == During(k, p, n + 1);
    }
  }

  lemma PostLength(t: Tree, p: int)
    requires Forest(t) && 0 <= p < |t.kids|
    ensures |Post(t, p)| == |Posts(t, p, |t.kids[p]|)| + 1
    ensures Post(t, p) == Posts(t, p, |t.kids[p]|) + [p]
  {
  }

  /** With no children left, taking p out is the whole of sysTerminate's effect. */
  lemma DuringEnd(k: K, p: int)
    requires Core(k) && IsLive(k, p) && Core(During(k, p, |k.tree.kids[p]|)) && k.status == Live
    requires |k.tree.kids[p]| > 0 ==> During(k, p, |k.tree.kids[p]|).processCount > 0
    ensures var m := During(k, p, |k.tree.kids[p]|);
            && |m.tree.kids| == |m.tree.prnt| == k.maxProc && m.tree.kids[p] == [] && |m.semAdd| == m.maxProc
            && IsLive(m, p) && (m.tree.prnt[p] != NIL ==> IsLive(m, m.tree.prnt[p]))
            && (m.processCount <= 1 <==> Terminated(k, p).status == Halted)
            && (m.processCount > 1 ==> Terminated(k, p) == Reap(m, p).(tree := Detach(m.tree, p)))
  {
    hide Queues, Placed, Forest, FreeDetached, Post, Posts, Partway, Prune, Detach, Unblock;
    Shapes(k);
    CoreForest(k);
    var n := |k.tree.kids[p]|;
    var m, ps := During(k, p, n), Posts(k.tree, p, n);
    DuringFacts(k, p, n);
    LiveEdges(m, p);
    CoreForest(m);
    PostsSafe(k, p, n);
    PostLength(k.tree, p);
    SubtreeLive(k, p);
    PartwayEnd(k.tree, p);
    assert (ps + [p])[..|ps + [p]| - 1] == ps;
    assert ReapAll(k, ps + [p]) == Reap(ReapAll(k, ps), p);
    ReapAllFree(k, ps + [p]);
    ReapTree(ReapAll(k, ps), p, m.tree);
  }

  lemma UnblockTree(k: K, x: int, t: Tree)
    requires |k.semAdd| == k.maxProc && IsPid(k, x)
    ensures Unblock(k.(tree := t), x) == Unblock(k, x).(tree := t)
  {
    var a, k1 := k.semAdd[x], k.(tree := t);
    assert IsDevice(k1, a) == IsDevice(k, a) && Val(k1, a) == Val(k, a) && Orphaned(k1, a) == Orphaned(k, a);
    hide IsDevice, Val, Orphaned, Requeued, Without;
  }

  lemma ReapTree(k: K, x: int, t: Tree)
    requires |k.semAdd| == k.maxProc && IsPid(k, x)
    ensures Reap(k.(tree := t), x) == Reap(k, x).(tree := t)
  {
    UnblockTree(k, x, t);
    hide Unblock, Without;
  }
}
