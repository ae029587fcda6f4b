/** The process tree as a value: child lists, parents, and the order in which processes were created. */
module ProcessTree {
  import opened Sequences

  /**
   * kids[p] lists the children of p, first child first; prnt[p] is the parent or NIL. A process is created
   * after its parent: birth records when, and now is the next time stamp.
   */
  datatype Tree = Tree(kids: seq<seq<int>>, prnt: seq<int>, birth: seq<int>, now: int)

  /** Parents and child lists agree, and every edge leads from an older process to a younger one. */
  ghost predicate Forest(t: Tree) {
    && |t.kids| == |t.prnt| == |t.birth|
    && ListsDistinct(t) && EdgesDown(t) && EdgesUp(t) && Born(t)
  }

  ghost predicate ListsDistinct(t: Tree) {
    forall p {:trigger t.kids[p]} :: 0 <= p < |t.kids| ==> Distinct(t.kids[p])
  }

  ghost predicate EdgesDown(t: Tree)
    requires |t.kids| == |t.prnt| == |t.birth|
  {
    forall p, q {:trigger q in t.kids[p]} {:trigger EdgeDown(t, p, q)} :: 0 <= p < |t.kids| ==> EdgeDown(t, p, q)
  }

  ghost predicate EdgeDown(t: Tree, p: int, q: int)
    requires |t.kids| == |t.prnt| == |t.birth| && 0 <= p < |t.kids|
  {
    q in t.kids[p] ==> 0 <= q < |t.prnt| && t.prnt[q] == p && t.birth[p] < t.birth[q]
  }

  ghost predicate EdgesUp(t: Tree)
    requires |t.kids| == |t.prnt|
  {
    forall q {:trigger t.prnt[q]} :: 0 <= q < |t.prnt| && t.prnt[q] != NIL ==>
      0 <= t.prnt[q] < |t.kids| && q in t.kids[t.prnt[q]]
  }

  ghost predicate Born(t: Tree) {
    forall q {:trigger t.birth[q]} :: 0 <= q < |t.birth| ==> 0 <= t.birth[q] < t.now
  }

  /** Following parent links upward from q reaches p. */
  ghost predicate Descends(t: Tree, q: int, p: int)
    requires Forest(t) && 0 <= q < |t.kids|
    decreases t.birth[q]
  {
    q == p || (t.prnt[q] != NIL && Descends(t, t.prnt[q], p))
  }

  /** The subtree of p, children before their parent, in the order recursive termination reaches them. */
  ghost function Post(t: Tree, p: int): seq<int>
    requires Forest(t) && 0 <= p < |t.kids|
    decreases t.now - t.birth[p], 1, 0
  {
    Posts(t, p, |t.kids[p]|) + [p]
  }

  /** The subtrees of the first n children of p. */
  ghost function Posts(t: Tree, p: int, n: nat): seq<int>
    requires Forest(t) && 0 <= p < |t.kids| && n <= |t.kids[p]|
    decreases t.now - t.birth[p], 0, n
  {
    if n == 0 then []
    else
      assert t.kids[p][n - 1] in t.kids[p];
      Posts(t, p, n - 1) + Post(t, t.kids[p][n - 1])
  }

  // ----- tree operations -----

  /** A pcb leaves the free list: it has no relatives yet. */
  function Stamp(t: Tree, n: int): Tree
    requires 0 <= n < |t.birth|
  {
    t.(birth := t.birth[n := t.now], now := t.now + 1)
  }

  /** insertChild: n becomes the first child of p. */
  function Adopt(t: Tree, p: int, n: int): Tree
    requires 0 <= p < |t.kids| && 0 <= n < |t.prnt|
  {
    t.(kids := t.kids[p := [n] + t.kids[p]], prnt := t.prnt[n := p])
  }

  /** outChild: x is no longer a child of its parent, if it had one. */
  function Detach(t: Tree, x: int): Tree
    requires 0 <= x < |t.prnt| && (t.prnt[x] != NIL ==> 0 <= t.prnt[x] < |t.kids|)
  {
    if t.prnt[x] == NIL then t
    else t.(kids := t.kids[t.prnt[x] := Without(t.kids[t.prnt[x]], x)], prnt := t.prnt[x := NIL])
  }

  /** The first n child lists once the processes in dead are gone and nobody has p as a child. */
  ghost function KidsAfter(kids: seq<seq<int>>, p: int, dead: seq<int>, n: nat): (r: seq<seq<int>>)
    requires n <= |kids|
    ensures |r| == n
    ensures forall x :: 0 <= x < n ==> r[x] == if x in dead then [] else Without(kids[x], p)
  {
    if n == 0 then []
    else KidsAfter(kids, p, dead, n - 1) + [if n - 1 in dead then [] else Without(kids[n - 1], p)]
  }

  ghost function PrntAfter(prnt: seq<int>, dead: seq<int>, n: nat): (r: seq<int>)
    requires n <= |prnt|
    ensures |r| == n
    ensures forall x :: 0 <= x < n ==> r[x] == if x in dead then NIL else prnt[x]
  {
    if n == 0 then [] else PrntAfter(prnt, dead, n - 1) + [if n - 1 in dead then NIL else prnt[n - 1]]
  }

  /** The tree once p and its whole subtree are gone. */
  ghost function Prune(t: Tree, p: int): Tree
    requires Forest(t) && 0 <= p < |t.kids|
  {
    t.(kids := KidsAfter(t.kids, p, Post(t, p), |t.kids|), prnt := PrntAfter(t.prnt, Post(t, p), |t.prnt|))
  }

  // ----- the ancestor relation -----

  lemma {:induction false} DescendsOlder(t: Tree, q: int, p: int)
    requires Forest(t) && 0 <= q < |t.kids| && Descends(t, q, p)
    ensures 0 <= p < |t.kids| && t.birth[p] <= t.birth[q]
    ensures q != p ==> t.birth[p] < t.birth[q]
    decreases t.birth[q]
  {
    if q != p {
      assert q in t.kids[t.prnt[q]];
      DescendsOlder(t, t.prnt[q], p);
    }
  }

  /** No process is its own proper ancestor. */
  lemma Acyclic(t: Tree, p: int)
    requires Forest(t) && 0 <= p < |t.kids| && t.prnt[p] != NIL
    ensures !Descends(t, t.prnt[p], p)
  {
    assert p in t.kids[t.prnt[p]];
    if Descends(t, t.prnt[p], p) {
      DescendsOlder(t, t.prnt[p], p);
    }
  }

  lemma {:induction false} DescendsTrans(t: Tree, x: int, q: int, p: int)
    requires Forest(t) && 0 <= x < |t.kids| && 0 <= q < |t.kids|
    requires Descends(t, x, q) && Descends(t, q, p)
    ensures Descends(t, x, p)
    decreases t.birth[x]
  {
    if x != q {
      assert x in t.kids[t.prnt[x]];
      DescendsTrans(t, t.prnt[x], q, p);
    }
  }

  /** A process has one ancestor line: two ancestors of x are ancestors of each other one way round. */
  lemma {:induction false} AncestorsLinear(t: Tree, x: int, p: int, q: int)
    requires Forest(t) && 0 <= x < |t.kids| && Descends(t, x, p) && Descends(t, x, q)
    ensures 0 <= p < |t.kids| && 0 <= q < |t.kids|
    ensures Descends(t, p, q) || Descends(t, q, p)
    decreases t.birth[x]
  {
    DescendsOlder(t, x, p);
    DescendsOlder(t, x, q);
    if x != p && x != q {
      assert x in t.kids[t.prnt[x]];
      AncestorsLinear(t, t.prnt[x], p, q);
    }
  }

  /** Subtrees of different children of one process share nothing. */
  lemma SiblingsApart(t: Tree, p: int, c: int, d: int, x: int)
    requires Forest(t) && 0 <= p < |t.kids| && c in t.kids[p] && d in t.kids[p] && c != d
    requires 0 <= x < |t.kids| && Descends(t, x, c)
    ensures !Descends(t, x, d)
  {
    if Descends(t, x, d) {
      AncestorsLinear(t, x, c, d);
      if Descends(t, c, d) {
        DescendsOlder(t, p, d);
      } else {
        DescendsOlder(t, p, c);
      }
    }
  }

  /** Below p, and not p itself, means in the subtree of exactly one child. */
  lemma {:induction false} DescendsViaChild(t: Tree, x: int, p: int) returns (c: int)
    requires Forest(t) && 0 <= x < |t.kids| && Descends(t, x, p) && x != p
    ensures 0 <= p < |t.kids| && c in t.kids[p] && 0 <= c < |t.kids| && Descends(t, x, c)
    decreases t.birth[x]
  {
    assert x in t.kids[t.prnt[x]];
    if t.prnt[x] == p {
      c := x;
    } else {
      c := DescendsViaChild(t, t.prnt[x], p);
    }
  }

  // ----- what Post lists -----

  /** Post lists exactly the descendants of p, p included, each once. */
  lemma {:induction false} PostExact(t: Tree, p: int)
    requires Forest(t) && 0 <= p < |t.kids|
    ensures Within(Post(t, p), |t.kids|) && Distinct(Post(t, p))
    ensures forall x :: 0 <= x < |t.kids| ==> (x in Post(t, p) <==> Descends(t, x, p))
    decreases t.now - t.birth[p], 1, 0
  {
    var n := |t.kids[p]|;
    PostsExact(t, p, n);
    forall x | 0 <= x < |t.kids| ensures x in Post(t, p) <==> Descends(t, x, p) {
      if x != p && Descends(t, x, p) {
        var c := DescendsViaChild(t, x, p);
        var i :| 0 <= i < n && t.kids[p][i] == c;
        assert BelowSome(t, p, n, x);
      }
    }
    assert !BelowSome(t, p, n, p) by { NotBelowOwnChild(t, p, n); }
    DistinctConcat(Posts(t, p, n), [p]);
  }

  ghost predicate BelowSome(t: Tree, p: int, n: nat, x: int)
    requires Forest(t) && 0 <= p < |t.kids| && n <= |t.kids[p]| && 0 <= x < |t.kids|
  {
    exists i :: 0 <= i < n && Descends(t, x, t.kids[p][i])
  }

  lemma NotBelowOwnChild(t: Tree, p: int, n: nat)
    requires Forest(t) && 0 <= p < |t.kids| && n <= |t.kids[p]|
    ensures !BelowSome(t, p, n, p)
  {
    if BelowSome(t, p, n, p) {
      var i :| 0 <= i < n && Descends(t, p, t.kids[p][i]);
      assert t.kids[p][i] in t.kids[p];
      DescendsOlder(t, p, t.kids[p][i]);
    }
  }

  lemma {:induction false} PostsExact(t: Tree, p: int, n: nat)
    requires Forest(t) && 0 <= p < |t.kids| && n <= |t.kids[p]|
    ensures Within(Posts(t, p, n), |t.kids|) && Distinct(Posts(t, p, n))
    ensures forall x :: 0 <= x < |t.kids| ==> (x in Posts(t, p, n) <==> BelowSome(t, p, n, x))
    ensures forall x :: x in Posts(t, p, n) ==> 0 <= x < |t.kids| && x != p && Descends(t, x, p)
    decreases t.now - t.birth[p], 0, n
  {
    if n > 0 {
      var c := t.kids[p][n - 1];
      assert c in t.kids[p];
      PostsExact(t, p, n - 1);
      PostExact(t, c);
      forall x | 0 <= x < |t.kids| ensures x in Posts(t, p, n) <==> BelowSome(t, p, n, x) {
        if Descends(t, x, c) {
          assert BelowSome(t, p, n, x);
        }
        if BelowSome(t, p, n - 1, x) {
          var i :| 0 <= i < n - 1 && Descends(t, x, t.kids[p][i]);
          assert 0 <= i < n;
          assert BelowSome(t, p, n, x);
        }
      }
      forall x | x in Posts(t, p, n - 1) ensures x !in Post(t, c) {
        var i :| 0 <= i < n - 1 && Descends(t, x, t.kids[p][i]);
        assert t.kids[p][i] in t.kids[p] && t.kids[p][i] != c;
        SiblingsApart(t, p, t.kids[p][i], c, x);
      }
      forall x | x in Posts(t, p, n) ensures 0 <= x < |t.kids| && x != p && Descends(t, x, p) {
        if x in Post(t, c) {
          DescendsTrans(t, x, c, p);
          DescendsOlder(t, x, c);
        }
      }
      DistinctConcat(Posts(t, p, n - 1), Post(t, c));
    }
  }

  // ----- what termination does to the tree -----

  /** Post looks only at the child lists inside the subtree. */
  lemma {:induction false} PostLocal(t: Tree, u: Tree, p: int)
    requires Forest(t) && Forest(u) && 0 <= p < |t.kids| == |u.kids| && u.birth == t.birth && u.now == t.now
    requires forall x :: 0 <= x < |t.kids| && x in Post(t, p) ==> u.kids[x] == t.kids[x]
    ensures Post(u, p) == Post(t, p)
    decreases t.now - t.birth[p], 1, 0
  {
    assert p in Post(t, p);
    PostsLocal(t, u, p, |t.kids[p]|);
  }

  lemma {:induction false} PostsLocal(t: Tree, u: Tree, p: int, n: nat)
    requires Forest(t) && Forest(u) && 0 <= p < |t.kids| == |u.kids| && u.birth == t.birth && u.now == t.now
    requires n <= |t.kids[p]| && u.kids[p] == t.kids[p]
    requires forall x :: 0 <= x < |t.kids| && x in Posts(t, p, n) ==> u.kids[x] == t.kids[x]
    ensures Posts(u, p, n) == Posts(t, p, n)
    decreases t.now - t.birth[p], 0, n
  {
    if n > 0 {
      assert t.kids[p][n - 1] in t.kids[p];
      PostsLocal(t, u, p, n - 1);
      PostLocal(t, u, t.kids[p][n - 1]);
    }
  }

  lemma DetachForest(t: Tree, x: int)
    requires Forest(t) && 0 <= x < |t.kids|
    ensures Forest(Detach(t, x))
  {
    if t.prnt[x] != NIL {
      WithoutProps(t.kids[t.prnt[x]], x);
    }
  }

  lemma AdoptForest(t: Tree, p: int, n: int)
    requires Forest(t) && 0 <= p < |t.kids| && 0 <= n < |t.kids| && p != n
    requires t.kids[n] == [] && t.prnt[n] == NIL
    ensures Forest(Adopt(Stamp(t, n), p, n))
  {
    var u := Adopt(Stamp(t, n), p, n);
    assert n !in t.kids[p];
    assert Distinct(u.kids[p]);
    forall a, q | 0 <= a < |u.kids| && q in u.kids[a]
      ensures 0 <= q < |u.prnt| && u.prnt[q] == a && u.birth[a] < u.birth[q]
    {
      assert a != n;
      if q != n {
        assert q in t.kids[a];
      }
    }
    forall q | 0 <= q < |u.prnt| && u.prnt[q] != NIL
      ensures 0 <= u.prnt[q] < |u.kids| && q in u.kids[u.prnt[q]]
    {
      if q != n {
        assert q in t.kids[t.prnt[q]];
      }
    }
  }

  /** Only p's own parent loses a child; the terminated processes keep no relatives. */
  lemma PruneAt(t: Tree, p: int)
    requires Forest(t) && 0 <= p < |t.kids|
    ensures forall x :: 0 <= x < |t.kids| && x in Post(t, p) ==>
              Prune(t, p).kids[x] == [] && Prune(t, p).prnt[x] == NIL
    ensures forall x :: 0 <= x < |t.kids| && x !in Post(t, p) ==>
              Prune(t, p).kids[x] == Without(t.kids[x], p) && Prune(t, p).prnt[x] == t.prnt[x]
    ensures forall x :: 0 <= x < |t.kids| && x !in Post(t, p) && x != t.prnt[p] ==>
              Prune(t, p).kids[x] == t.kids[x]
  {
    forall x | 0 <= x < |t.kids| && x != t.prnt[p] ensures Without(t.kids[x], p) == t.kids[x] {
      assert p !in t.kids[x];
      WithoutAbsent(t.kids[x], p);
    }
  }

  /** An edge survives termination of p exactly when it leads neither to p nor into p's subtree. */
  lemma PruneEdge(t: Tree, p: int, a: int, q: int)
    requires Forest(t) && 0 <= p < |t.kids| && 0 <= a < |t.kids|
    ensures q in Prune(t, p).kids[a] <==> q in t.kids[a] && !(0 <= q < |t.kids| && Descends(t, q, p))
  {
    PostExact(t, p);
    WithoutProps(t.kids[a], p);
    if q in t.kids[a] {
      assert t.prnt[q] == a;
      assert Descends(t, q, p) <==> q == p || Descends(t, a, p);
    }
  }

  lemma PruneDownAt(t: Tree, p: int, a: int, q: int)
    requires Forest(t) && 0 <= p < |t.kids| && 0 <= a < |t.kids|
    ensures EdgeDown(Prune(t, p), a, q)
  {
    PruneEdge(t, p, a, q);
    PostExact(t, p);
  }

  lemma PruneDown(t: Tree, p: int)
    requires Forest(t) && 0 <= p < |t.kids|
    ensures EdgesDown(Prune(t, p))
  {
    var u := Prune(t, p);
    forall a, q | 0 <= a < |u.kids| ensures EdgeDown(u, a, q) {
      PruneDownAt(t, p, a, q);
    }
  }

  lemma PruneUp(t: Tree, p: int)
    requires Forest(t) && 0 <= p < |t.kids|
    ensures EdgesUp(Prune(t, p))
  {
    var u := Prune(t, p);
    PostExact(t, p);
    forall q | 0 <= q < |u.prnt| && u.prnt[q] != NIL
      ensures 0 <= u.prnt[q] < |u.kids| && q in u.kids[u.prnt[q]]
    {
      assert q in t.kids[t.prnt[q]];
      PruneEdge(t, p, t.prnt[q], q);
    }
  }

  lemma PruneDistinct(t: Tree, p: int)
    requires Forest(t) && 0 <= p < |t.kids|
    ensures ListsDistinct(Prune(t, p))
  {
    forall x | 0 <= x < |t.kids| ensures Distinct(Prune(t, p).kids[x]) {
      WithoutProps(t.kids[x], p);
    }
  }

  /** What is left of a forest after termination is a forest. */
  lemma PruneForest(t: Tree, p: int)
    requires Forest(t) && 0 <= p < |t.kids|
    ensures Forest(Prune(t, p))
  {
    PruneDistinct(t, p);
    PruneDown(t, p);
    PruneUp(t, p);
  }

  // ----- the tree while a process is being terminated -----

  lemma SameTree(t: Tree, u: Tree)
    requires |t.kids| == |u.kids| == |t.prnt| == |u.prnt| && t.birth == u.birth && t.now == u.now
    requires forall x :: 0 <= x < |t.kids| ==> t.kids[x] == u.kids[x]
    requires forall x :: 0 <= x < |t.prnt| ==> t.prnt[x] == u.prnt[x]
    ensures t == u
  {
    assert t.kids == u.kids;
    assert t.prnt == u.prnt;
  }

  ghost function KidsDuring(kids: seq<seq<int>>, p: int, left: seq<int>, gone: seq<int>, n: nat): (r: seq<seq<int>>)
    requires n <= |kids|
    ensures |r| == n
    ensures forall x :: 0 <= x < n ==> r[x] == if x in gone then [] else if x == p then left else kids[x]
  {
    if n == 0 then []
    else KidsDuring(kids, p, left, gone, n - 1)
         + [if n - 1 in gone then [] else if n - 1 == p then left else kids[n - 1]]
  }

  /** After n of p's children have been terminated one by one. */
  ghost function Partway(t: Tree, p: int, n: nat): Tree
    requires Forest(t) && 0 <= p < |t.kids| && n <= |t.kids[p]|
  {
    var gone := Posts(t, p, n);
    t.(kids := KidsDuring(t.kids, p, t.kids[p][n..], gone, |t.kids|), prnt := PrntAfter(t.prnt, gone, |t.prnt|))
  }

  lemma PartwayStart(t: Tree, p: int)
    requires Forest(t) && 0 <= p < |t.kids|
    ensures Partway(t, p, 0) == t
  {
    SameTree(Partway(t, p, 0), t);
  }

  /** The subtree of the next child is disjoint from the subtrees already gone. */
  lemma NextApart(t: Tree, p: int, n: nat, x: int)
    requires Forest(t) && 0 <= p < |t.kids| && n < |t.kids[p]|
    requires 0 <= t.kids[p][n] < |t.kids| && x in Post(t, t.kids[p][n])
    ensures x !in Posts(t, p, n) && x != p
  {
    var c := t.kids[p][n];
    assert c in t.kids[p];
    PostExact(t, c);
    PostsExact(t, p, n);
    DescendsOlder(t, x, c);
    if x in Posts(t, p, n) {
      var i :| 0 <= i < n && Descends(t, x, t.kids[p][i]);
      assert t.kids[p][i] in t.kids[p] && t.kids[p][i] != c;
      SiblingsApart(t, p, c, t.kids[p][i], x);
    }
  }

  /** The next child is a first child. */
  lemma PartwayNext(t: Tree, p: int, n: nat)
    requires Forest(t) && 0 <= p < |t.kids| && n < |t.kids[p]|
    ensures 0 <= t.kids[p][n] < |t.kids| && Partway(t, p, n).prnt[t.kids[p][n]] == p
    ensures Partway(t, p, n).kids[p] == [t.kids[p][n]] + t.kids[p][n + 1..]
  {
    var c := t.kids[p][n];
    assert c in t.kids[p];
    assert c in Post(t, c);
    NextApart(t, p, n, c);
    PostsExact(t, p, n);
  }

  lemma PartwayDetach(t: Tree, p: int, n: nat)
    requires Forest(t) && 0 <= p < |t.kids| && n < |t.kids[p]| && Forest(Partway(t, p, n))
    requires 0 <= t.kids[p][n] < |t.kids| && Partway(t, p, n).prnt[t.kids[p][n]] == p
    ensures var u := Detach(Partway(t, p, n), t.kids[p][n]);
            Forest(u) && u.kids == Partway(t, p, n).kids[p := t.kids[p][n + 1..]]
            && u.prnt == Partway(t, p, n).prnt[t.kids[p][n] := NIL] && Post(u, t.kids[p][n]) == Post(t, t.kids[p][n])
  {
    var v := Partway(t, p, n);
    var c := t.kids[p][n];
    PartwayNext(t, p, n);
    forall x | x in Post(t, c) ensures x !in Posts(t, p, n) && x != p { NextApart(t, p, n, x); }
    assert Without(v.kids[p], c) == t.kids[p][n + 1..];
    DetachForest(v, c);
    PostLocal(t, Detach(v, c), c);
  }

  lemma PartwayStepAt(t: Tree, p: int, n: nat, x: int)
    requires Forest(t) && 0 <= p < |t.kids| && n < |t.kids[p]| && Forest(Partway(t, p, n)) && 0 <= x < |t.kids|
    requires 0 <= t.kids[p][n] < |t.kids| && Partway(t, p, n).prnt[t.kids[p][n]] == p
    requires Forest(Detach(Partway(t, p, n), t.kids[p][n]))
    ensures Prune(Detach(Partway(t, p, n), t.kids[p][n]), t.kids[p][n]).kids[x] == Partway(t, p, n + 1).kids[x]
    ensures Prune(Detach(Partway(t, p, n), t.kids[p][n]), t.kids[p][n]).prnt[x] == Partway(t, p, n + 1).prnt[x]
  {
    hide ListsDistinct, EdgesDown, Born;
    var c := t.kids[p][n];
    var u := Detach(Partway(t, p, n), c);
    PartwayDetach(t, p, n);
    PruneAt(u, c);
    assert c in Post(t, c);
    assert Posts(t, p, n + 1) == Posts(t, p, n) + Post(t, c);
    if x in Post(t, c) {
      NextApart(t, p, n, x);
    }
    PostsExact(t, p, n);
  }

  /** Detaching the next child and terminating it goes from n to n + 1 terminated children. */
  lemma PartwayStep(t: Tree, p: int, n: nat)
    requires Forest(t) && 0 <= p < |t.kids| && n < |t.kids[p]| && Forest(Partway(t, p, n))
    requires 0 <= t.kids[p][n] < |t.kids| && Partway(t, p, n).prnt[t.kids[p][n]] == p
    requires Forest(Detach(Partway(t, p, n), t.kids[p][n]))
    ensures Prune(Detach(Partway(t, p, n), t.kids[p][n]), t.kids[p][n]) == Partway(t, p, n + 1)
  {
    var w := Prune(Detach(Partway(t, p, n), t.kids[p][n]), t.kids[p][n]);
    var z := Partway(t, p, n + 1);
    forall x | 0 <= x < |t.kids| ensures w.kids[x] == z.kids[x] && w.prnt[x] == z.prnt[x] {
      PartwayStepAt(t, p, n, x);
    }
    SameTree(w, z);
  }

  lemma PartwayEndAt(t: Tree, p: int, x: int)
    requires Forest(t) && 0 <= p < |t.kids| && Forest(Partway(t, p, |t.kids[p]|)) && 0 <= x < |t.kids|
    ensures Detach(Partway(t, p, |t.kids[p]|), p).kids[x] == Prune(t, p).kids[x]
    ensures Detach(Partway(t, p, |t.kids[p]|), p).prnt[x] == Prune(t, p).prnt[x]
  {
    var v := Partway(t, p, |t.kids[p]|);
    PostsExact(t, p, |t.kids[p]|);
    assert v.kids[p] == [];
    assert v.prnt[p] == t.prnt[p];
    PruneAt(t, p);
    if t.prnt[p] == NIL {
      WithoutAbsent(t.kids[x], p);
    } else if x != t.prnt[p] {
      assert x !in Post(t, p) ==> Prune(t, p).kids[x] == t.kids[x];
    } else {
      assert p in v.kids[v.prnt[p]];
    }
  }

  /** Once all children are terminated, detaching p itself gives the pruned tree. */
  lemma PartwayEnd(t: Tree, p: int)
    requires Forest(t) && 0 <= p < |t.kids| && Forest(Partway(t, p, |t.kids[p]|))
    ensures Detach(Partway(t, p, |t.kids[p]|), p) == Prune(t, p)
  {
    var u := Detach(Partway(t, p, |t.kids[p]|), p);
    forall x | 0 <= x < |t.kids| ensures u.kids[x] == Prune(t, p).kids[x] && u.prnt[x] == Prune(t, p).prnt[x] {
      PartwayEndAt(t, p, x);
    }
    SameTree(u, Prune(t, p));
  }
}
