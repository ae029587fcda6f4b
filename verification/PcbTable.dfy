/**
 * pcb.c: the static table of process control blocks, its free list, the circular queues and the process tree.
 * A pointer into the table is an index, the null pointer is NIL. A queue is known by its tail.
 */
module PcbTable {
  import opened Sequences
  import opened ProcessTree

  /** The link fields of pcb_t and the semaphore it waits on; saved state and times are not part of this model. */
  datatype Pcb = Pcb(next: int, prev: int, prnt: int, child: int, sibLeft: int, sibRight: int, semAdd: int)

  const ZEROED := Pcb(NIL, NIL, NIL, NIL, NIL, NIL, NIL)

  // ----- what the links mean -----

  function Succ(i: nat, n: nat): nat { if i + 1 < n then i + 1 else 0 }

  function Pred(i: nat, n: nat): int { if i > 0 then i - 1 else n - 1 }

  /** tp is the tail of a circular doubly linked queue whose members, head first, are q. */
  ghost predicate Ring(t: seq<Pcb>, tp: int, q: seq<int>) {
    && Distinct(q)
    && tp == (if q == [] then NIL else q[|q| - 1])
    && forall i {:trigger RingAt(t, q, i)} :: 0 <= i < |q| ==> RingAt(t, q, i)
  }

  ghost predicate RingAt(t: seq<Pcb>, q: seq<int>, i: int)
    requires 0 <= i < |q|
  {
    0 <= q[i] < |t| && t[q[i]].next == q[Succ(i, |q|)] && t[q[i]].prev == q[Pred(i, |q|)]
  }

  /** h heads a singly linked list of the pcbs in s. */
  ghost predicate Chain(t: seq<Pcb>, h: int, s: seq<int>) {
    && Distinct(s)
    && h == (if s == [] then NIL else s[0])
    && forall i {:trigger ChainAt(t, s, i)} :: 0 <= i < |s| ==> ChainAt(t, s, i)
  }

  ghost predicate ChainAt(t: seq<Pcb>, s: seq<int>, i: int)
    requires 0 <= i < |s|
  {
    0 <= s[i] < |t| && t[s[i]].next == if i + 1 < |s| then s[i + 1] else NIL
  }

  /** Parent, first-child and sibling links describe the tree, except in free pcbs, whose links mean nothing. */
  ghost predicate TreeLinks(t: seq<Pcb>, tr: Tree, free: seq<int>) {
    && |tr.kids| == |tr.prnt| == |t|
    && (forall p {:trigger t[p]} :: 0 <= p < |t| && p !in free ==>
          && t[p].prnt == tr.prnt[p]
          && t[p].child == (if tr.kids[p] == [] then NIL else tr.kids[p][0])
          && (tr.prnt[p] == NIL ==> t[p].sibLeft == NIL && t[p].sibRight == NIL))
    && (forall p, i {:trigger tr.kids[p][i]} :: 0 <= p < |t| && 0 <= i < |tr.kids[p]| ==>
          SiblingLinks(t, tr.kids[p], i))
  }

  ghost predicate SiblingLinks(t: seq<Pcb>, cs: seq<int>, i: int)
    requires 0 <= i < |cs|
  {
    && 0 <= cs[i] < |t|
    && t[cs[i]].sibLeft == (if i == 0 then NIL else cs[i - 1])
    && t[cs[i]].sibRight == (if i + 1 == |cs| then NIL else cs[i + 1])
  }

  // ----- what an operation leaves alone -----

  /** Only next and prev changed, and only in members of q. */
  ghost predicate QueueEdit(t: seq<Pcb>, t': seq<Pcb>, q: seq<int>) {
    && |t'| == |t|
    && (forall x {:trigger t'[x]} :: 0 <= x < |t| ==> t'[x] == t[x].(next := t'[x].next, prev := t'[x].prev))
    && (forall x {:trigger t'[x]} :: 0 <= x < |t| && x !in q ==> t'[x] == t[x])
  }

  /** Only tree links changed. */
  ghost predicate TreeEdit(t: seq<Pcb>, t': seq<Pcb>) {
    && |t'| == |t|
    && forall x {:trigger t'[x]} :: 0 <= x < |t| ==>
         t'[x].next == t[x].next && t'[x].prev == t[x].prev && t'[x].semAdd == t[x].semAdd
  }

  lemma RingFrame(t: seq<Pcb>, t': seq<Pcb>, tp: int, q: seq<int>)
    requires Ring(t, tp, q) && |t'| == |t|
    requires forall x :: x in q && 0 <= x < |t| ==> t'[x].next == t[x].next && t'[x].prev == t[x].prev
    ensures Ring(t', tp, q)
  {
    forall i | 0 <= i < |q| ensures RingAt(t', q, i) {
      var x := q[i];
      assert RingAt(t, q, i) && x in q;
    }
  }

  lemma ChainFrame(t: seq<Pcb>, t': seq<Pcb>, h: int, s: seq<int>)
    requires Chain(t, h, s) && |t'| == |t|
    requires forall x :: x in s && 0 <= x < |t| ==> t'[x].next == t[x].next
    ensures Chain(t', h, s)
  {
    forall i | 0 <= i < |s| ensures ChainAt(t', s, i) {
      var x := s[i];
      assert ChainAt(t, s, i) && x in s;
    }
  }

  lemma TreeFrame(t: seq<Pcb>, t': seq<Pcb>, tr: Tree, free: seq<int>)
    requires TreeLinks(t, tr, free) && |t'| == |t|
    requires forall x :: 0 <= x < |t| ==>
               t'[x].prnt == t[x].prnt && t'[x].child == t[x].child
               && t'[x].sibLeft == t[x].sibLeft && t'[x].sibRight == t[x].sibRight
    ensures TreeLinks(t', tr, free)
  {
    forall p, i | 0 <= p < |t'| && 0 <= i < |tr.kids[p]| ensures SiblingLinks(t', tr.kids[p], i) {
      assert SiblingLinks(t, tr.kids[p], i);
    }
  }

  // ----- queue surgery -----

  lemma RingWithin(t: seq<Pcb>, tp: int, q: seq<int>)
    requires Ring(t, tp, q)
    ensures Within(q, |t|)
  {
    forall x | x in q ensures 0 <= x < |t| {
      var i :| 0 <= i < |q| && q[i] == x;
      assert RingAt(t, q, i);
    }
  }

  lemma RingAppend(t: seq<Pcb>, t': seq<Pcb>, tp: int, q: seq<int>, p: int)
    requires Ring(t, tp, q) && 0 <= p < |t| && p !in q
    requires q == [] ==> t' == t[p := t[p].(next := p, prev := p)]
    requires q != [] ==> 0 <= q[0] < |t| && 0 <= tp < |t|
    requires q != [] ==> (var t1 := t[p := t[p].(next := q[0], prev := tp)];
                          var t2 := t1[q[0] := t1[q[0]].(prev := p)];
                          t' == t2[tp := t2[tp].(next := p)])
    ensures Ring(t', p, q + [p]) && QueueEdit(t, t', q + [p])
  {
    AppendProps(q, p);
    var r := q + [p];
    if q == [] {
      assert RingAt(t', r, 0);
    } else {
      var h := q[0];
      assert h in q && tp in q;
      forall i | 0 <= i < |r| ensures RingAt(t', r, i) {
        if i < |q| {
          var x := q[i];
          assert RingAt(t, q, i) && x in q;
          assert r[i] == x && x != p;
          assert i > 0 ==> x != h;
          assert i + 1 < |q| ==> x != tp;
        }
      }
      assert Ring(t', p, r);
    }
  }

  /** What unlinking p from a queue of at least two members does to the table. */
  ghost predicate Unlinked(t: seq<Pcb>, t': seq<Pcb>, p: int)
    requires 0 <= p < |t|
  {
    var a, b := t[p].prev, t[p].next;
    && |t'| == |t|
    && forall x {:trigger t'[x]} :: 0 <= x < |t| ==>
         t'[x] == t[x].(next := if x == p then NIL else if x == a then b else t[x].next,
                        prev := if x == p then NIL else if x == b then a else t[x].prev)
  }

  lemma RingRemoveAt(t: seq<Pcb>, t': seq<Pcb>, tp: int, q: seq<int>, i: nat, r: seq<int>, j: nat)
    requires Ring(t, tp, q) && i < |q| && |q| > 1 && 0 <= q[i] < |t| && Unlinked(t, t', q[i])
    requires r == q[..i] + q[i + 1..] && j < |r|
    ensures RingAt(t', r, j)
  {
    var n := |q|;
    var m := if j < i then j else j + 1;
    assert RingAt(t, q, i) && RingAt(t, q, m);
    var x, a, b := q[m], q[Pred(i, n)], q[Succ(i, n)];
    assert r[j] == x && x != q[i];
    assert x == a <==> m == Pred(i, n);
    assert x == b <==> m == Succ(i, n);
  }

  lemma RingRemove(t: seq<Pcb>, t': seq<Pcb>, tp: int, q: seq<int>, i: nat)
    requires Ring(t, tp, q) && i < |q| && |q| > 1 && 0 <= q[i] < |t| && Unlinked(t, t', q[i])
    ensures Ring(t', if tp == q[i] then t[q[i]].prev else tp, Without(q, q[i])) && QueueEdit(t, t', q)
  {
    var r := q[..i] + q[i + 1..];
    WithoutAt(q, i);
    WithoutProps(q, q[i]);
    assert RingAt(t, q, i);
    UnlinkEdit(t, t', q, i);
    hide QueueEdit, Unlinked, Distinct;
    forall j | 0 <= j < |r| ensures RingAt(t', r, j) {
      RingRemoveAt(t, t', tp, q, i, r, j);
    }
    hide RingAt;
  }

  lemma UnlinkEdit(t: seq<Pcb>, t': seq<Pcb>, q: seq<int>, i: nat)
    requires i < |q| && |q| > 1 && RingAt(t, q, i) && 0 <= q[i] < |t| && Unlinked(t, t', q[i])
    ensures QueueEdit(t, t', q)
  {
    assert q[Pred(i, |q|)] in q && q[Succ(i, |q|)] in q && q[i] in q;
  }

  // ----- tree surgery -----

  ghost predicate Adopted(t: seq<Pcb>, t': seq<Pcb>, p: int, n: int)
    requires 0 <= p < |t| && 0 <= n < |t|
  {
    && |t'| == |t|
    && forall y {:trigger t'[y]} :: 0 <= y < |t| ==>
         t'[y] == if y == n then t[n].(prnt := p, sibRight := t[p].child, sibLeft := NIL)
                  else if y == p then t[p].(child := n)
                  else if y == t[p].child then t[y].(sibLeft := n)
                  else t[y]
  }

  lemma AdoptSiblings(t: seq<Pcb>, t': seq<Pcb>, tr: Tree, free: seq<int>, p: int, n: int, i: nat)
    requires TreeLinks(t, tr, free) && Forest(tr) && 0 <= p < |t| && 0 <= n < |t| && p != n && p !in free
    requires tr.prnt[n] == NIL && Adopted(t, t', p, n) && i <= |tr.kids[p]|
    ensures SiblingLinks(t', [n] + tr.kids[p], i)
  {
    hide EdgesUp, Born;
    var cs := tr.kids[p];
    if i > 0 {
      assert SiblingLinks(t, cs, i - 1);
      var c := cs[i - 1];
      assert c in cs && c != n && c != p;
      assert i > 1 ==> c != cs[0];
    }
  }

  lemma AdoptOthers(t: seq<Pcb>, t': seq<Pcb>, tr: Tree, free: seq<int>, p: int, n: int, a: int, i: nat)
    requires TreeLinks(t, tr, free) && Forest(tr) && 0 <= p < |t| && 0 <= n < |t| && p != n && p !in free
    requires tr.prnt[n] == NIL && Adopted(t, t', p, n) && 0 <= a < |t| && a != p && i < |tr.kids[a]|
    ensures SiblingLinks(t', tr.kids[a], i)
  {
    var c := tr.kids[a][i];
    assert SiblingLinks(t, tr.kids[a], i) && c in tr.kids[a];
    if tr.kids[p] != [] {
      var f := tr.kids[p][0];
      assert f in tr.kids[p];
    }
  }

  lemma AdoptLinks(t: seq<Pcb>, t': seq<Pcb>, tr: Tree, free: seq<int>, p: int, n: int)
    requires TreeLinks(t, tr, free) && Forest(tr) && 0 <= p < |t| && 0 <= n < |t| && p != n && p !in free
    requires tr.prnt[n] == NIL && Adopted(t, t', p, n)
    ensures TreeLinks(t', Adopt(tr, p, n), free) && TreeEdit(t, t')
  {
    var u := Adopt(tr, p, n);
    forall a, i | 0 <= a < |t'| && 0 <= i < |u.kids[a]| ensures SiblingLinks(t', u.kids[a], i) {
      if a == p {
        AdoptSiblings(t, t', tr, free, p, n, i);
      } else {
        AdoptOthers(t, t', tr, free, p, n, a, i);
      }
    }
    if tr.kids[p] != [] {
      var f := tr.kids[p][0];
      assert f in tr.kids[p];
    }
  }

  ghost predicate Detached(t: seq<Pcb>, t': seq<Pcb>, p: int, x: int)
    requires 0 <= p < |t| && 0 <= x < |t|
  {
    var l, r := t[x].sibLeft, t[x].sibRight;
    && |t'| == |t| && (l == NIL || 0 <= l < |t|) && (r == NIL || 0 <= r < |t|)
    && (forall y {:trigger t'[y]} :: 0 <= y < |t| ==>
          t'[y] == if y == x then t[x].(prnt := NIL, sibLeft := NIL, sibRight := NIL)
                   else if y == p && t[p].child == x then t[p].(child := r)
                   else if y == l then t[l].(sibRight := r)
                   else if y == r then t[r].(sibLeft := l)
                   else t[y])
  }

  /** The sibling links of a pcb c other than x and its parent: they skip x. */
  lemma DetachedLinks(t: seq<Pcb>, t': seq<Pcb>, p: int, x: int, c: int)
    requires 0 <= p < |t| && 0 <= x < |t| && Detached(t, t', p, x) && 0 <= c < |t| && c != x && c != p
    requires t[x].sibLeft != NIL ==> t[x].sibLeft != t[x].sibRight
    ensures t'[c].sibLeft == if c == t[x].sibRight then t[x].sibLeft else t[c].sibLeft
    ensures t'[c].sibRight == if c == t[x].sibLeft then t[x].sibRight else t[c].sibRight
  {
  }

  /** One list without its j-th element. */
  lemma DetachSiblingAt(t: seq<Pcb>, t': seq<Pcb>, cs: seq<int>, p: int, j: nat, r: seq<int>, i: nat)
    requires Distinct(cs) && j < |cs| && r == cs[..j] + cs[j + 1..] && i < |r|
    requires forall m {:trigger SiblingLinks(t, cs, m)} :: 0 <= m < |cs| ==> SiblingLinks(t, cs, m)
    requires 0 <= p < |t| && (forall c :: c in cs ==> c != p) && 0 <= cs[j] < |t| && Detached(t, t', p, cs[j])
    ensures SiblingLinks(t', r, i)
  {
    var m := if i < j then i else i + 1;
    var x, c := cs[j], cs[m];
    assert r[i] == c && c in cs;
    assert SiblingLinks(t, cs, j) && SiblingLinks(t, cs, m);
    assert i > 0 ==> r[i - 1] == cs[if i - 1 < j then i - 1 else i];
    assert i + 1 < |r| ==> r[i + 1] == cs[if i + 1 < j then i + 1 else i + 2];
    assert j > 0 ==> (c == cs[j - 1] <==> m == j - 1);
    assert j + 1 < |cs| ==> (c == cs[j + 1] <==> m == j + 1);
    hide Distinct;
    DetachedLinks(t, t', p, x, c);
    hide Detached;
  }

  lemma DetachSiblings(t: seq<Pcb>, t': seq<Pcb>, tr: Tree, free: seq<int>, x: int, j: nat)
    requires TreeLinks(t, tr, free) && Forest(tr) && 0 <= x < |t| && x !in free && tr.prnt[x] != NIL
    requires 0 <= tr.prnt[x] < |t| && Detached(t, t', tr.prnt[x], x)
    requires j < |tr.kids[tr.prnt[x]]| && tr.kids[tr.prnt[x]][j] == x
    ensures var cs := tr.kids[tr.prnt[x]]; var r := cs[..j] + cs[j + 1..];
            forall i :: 0 <= i < |r| ==> SiblingLinks(t', r, i)
  {
    var p := tr.prnt[x];
    var cs := tr.kids[p];
    var r := cs[..j] + cs[j + 1..];
    forall m | 0 <= m < |cs| ensures SiblingLinks(t, cs, m) {
      assert SiblingLinks(t, tr.kids[p], m);
    }
    OwnParent(tr, p);
    hide TreeLinks, Forest, SiblingLinks, Detached;
    forall i | 0 <= i < |r| ensures SiblingLinks(t', r, i) {
      DetachSiblingAt(t, t', cs, p, j, r, i);
    }
  }

  lemma OwnParent(tr: Tree, p: int)
    requires Forest(tr) && 0 <= p < |tr.kids|
    ensures Distinct(tr.kids[p]) && forall c :: c in tr.kids[p] ==> c != p
  {
  }

  lemma DetachOthers(t: seq<Pcb>, t': seq<Pcb>, tr: Tree, free: seq<int>, x: int, a: int, i: int)
    requires TreeLinks(t, tr, free) && Forest(tr) && 0 <= x < |t| && x !in free && tr.prnt[x] != NIL
    requires 0 <= tr.prnt[x] < |t| && Detached(t, t', tr.prnt[x], x)
    requires 0 <= a < |t| && a != tr.prnt[x] && 0 <= i < |tr.kids[a]|
    ensures SiblingLinks(t', tr.kids[a], i)
  {
    var p := tr.prnt[x];
    var c := tr.kids[a][i];
    assert c in tr.kids[a] && SiblingLinks(t, tr.kids[a], i);
    assert x in tr.kids[p];
    var j :| 0 <= j < |tr.kids[p]| && tr.kids[p][j] == x;
    assert SiblingLinks(t, tr.kids[p], j);
    if j > 0 { assert tr.kids[p][j - 1] in tr.kids[p]; }
    if j + 1 < |tr.kids[p]| { assert tr.kids[p][j + 1] in tr.kids[p]; }
  }

  lemma DetachLists(t: seq<Pcb>, t': seq<Pcb>, tr: Tree, free: seq<int>, x: int, j: nat)
    requires TreeLinks(t, tr, free) && Forest(tr) && 0 <= x < |t| && x !in free && tr.prnt[x] != NIL
    requires 0 <= tr.prnt[x] < |t| && Detached(t, t', tr.prnt[x], x)
    requires j < |tr.kids[tr.prnt[x]]| && tr.kids[tr.prnt[x]][j] == x
    requires var cs := tr.kids[tr.prnt[x]]; Detach(tr, x).kids == tr.kids[tr.prnt[x] := cs[..j] + cs[j + 1..]]
    ensures var u := Detach(tr, x);
            forall a, i :: 0 <= a < |t| && 0 <= i < |u.kids[a]| ==> SiblingLinks(t', u.kids[a], i)
  {
    var p, u := tr.prnt[x], Detach(tr, x);
    assert |u.kids| == |t|;
    DetachSiblings(t, t', tr, free, x, j);
    forall a, i | 0 <= a < |t| && 0 <= i < |u.kids[a]| ensures SiblingLinks(t', u.kids[a], i) {
      if a != p {
        DetachOthers(t, t', tr, free, x, a, i);
      }
    }
  }

  /** The neighbours of the j-th child of p, and what they share with it. */
  lemma Neighbours(t: seq<Pcb>, tr: Tree, free: seq<int>, p: int, j: nat)
    requires TreeLinks(t, tr, free) && Forest(tr) && 0 <= p < |t| && p !in free && j < |tr.kids[p]|
    ensures var cs := tr.kids[p]; var l, r := t[cs[j]].sibLeft, t[cs[j]].sibRight;
            && 0 <= cs[j] < |t| && cs[j] != p
            && l == (if j == 0 then NIL else cs[j - 1]) && r == (if j + 1 == |cs| then NIL else cs[j + 1])
            && (l != NIL ==> 0 <= l < |t| && l != p && tr.prnt[l] == p)
            && (r != NIL ==> 0 <= r < |t| && r != p && tr.prnt[r] == p)
            && t[p].child == cs[0] && (cs[0] == cs[j] <==> j == 0)
  {
    var cs := tr.kids[p];
    OwnParent(tr, p);
    assert SiblingLinks(t, tr.kids[p], j);
    assert cs[j] in cs;
    if j > 0 { assert cs[j - 1] in cs; }
    if j + 1 < |cs| { assert cs[j + 1] in cs; }
    hide SiblingLinks;
  }

  /** A pcb's parent and first child after x, the j-th child of p, is taken out. */
  lemma DetachHead(t: seq<Pcb>, t': seq<Pcb>, tr: Tree, free: seq<int>, p: int, x: int, j: nat, u: Tree, y: int)
    requires TreeLinks(t, tr, free) && Forest(tr) && 0 <= p < |t| && p !in free && j < |tr.kids[p]|
    requires x == tr.kids[p][j] && 0 <= x < |t| && Detached(t, t', p, x) && 0 <= y < |t| && y !in free
    requires var cs := tr.kids[p]; u.kids == tr.kids[p := cs[..j] + cs[j + 1..]] && u.prnt == tr.prnt[x := NIL]
    ensures t'[y].prnt == u.prnt[y] && t'[y].child == (if u.kids[y] == [] then NIL else u.kids[y][0])
    ensures u.prnt[y] == NIL ==> t'[y].sibLeft == NIL && t'[y].sibRight == NIL
  {
    Neighbours(t, tr, free, p, j);
    hide Forest;
    assert t[y].prnt == tr.prnt[y];
    var cs := tr.kids[p];
    assert y == p ==> u.kids[y] == cs[..j] + cs[j + 1..];
    assert y != p ==> u.kids[y] == tr.kids[y];
  }

  lemma DetachLinks(t: seq<Pcb>, t': seq<Pcb>, tr: Tree, free: seq<int>, x: int)
    requires TreeLinks(t, tr, free) && Forest(tr) && 0 <= x < |t| && x !in free && tr.prnt[x] != NIL
    requires 0 <= tr.prnt[x] < |t| && tr.prnt[x] !in free && Detached(t, t', tr.prnt[x], x)
    ensures TreeLinks(t', Detach(tr, x), free) && TreeEdit(t, t')
  {
    var p, u := tr.prnt[x], Detach(tr, x);
    var j := PlaceAmong(t, tr, free, x);
    DetachLists(t, t', tr, free, x, j);
    forall y | 0 <= y < |t| && y !in free
      ensures t'[y].prnt == u.prnt[y] && t'[y].child == (if u.kids[y] == [] then NIL else u.kids[y][0])
      ensures u.prnt[y] == NIL ==> t'[y].sibLeft == NIL && t'[y].sibRight == NIL
    {
      DetachHead(t, t', tr, free, p, x, j, u, y);
    }
    DetachEdit(t, t', p, x);
    hide Forest, Detached, SiblingLinks, TreeEdit;
  }

  lemma PlaceAmong(t: seq<Pcb>, tr: Tree, free: seq<int>, x: int) returns (j: nat)
    requires TreeLinks(t, tr, free) && Forest(tr) && 0 <= x < |t| && tr.prnt[x] != NIL && 0 <= tr.prnt[x] < |t|
    ensures var cs := tr.kids[tr.prnt[x]];
            j < |cs| && cs[j] == x && Detach(tr, x).kids == tr.kids[tr.prnt[x] := cs[..j] + cs[j + 1..]]
  {
    var cs := tr.kids[tr.prnt[x]];
    assert x in cs;
    j :| 0 <= j < |cs| && cs[j] == x;
    OwnParent(tr, tr.prnt[x]);
    WithoutAt(cs, j);
  }

  lemma DetachEdit(t: seq<Pcb>, t': seq<Pcb>, p: int, x: int)
    requires 0 <= p < |t| && 0 <= x < |t| && Detached(t, t', p, x)
    ensures TreeEdit(t, t')
  {
  }

  // ----- the operations -----

  class PcbStore {
    const pcbTable: array<Pcb>
    var pcbFree_h: int

    /** initPcbs: link every pcb to the next. */
    constructor (maxProc: nat)
      requires 0 < maxProc
      ensures fresh(pcbTable) && pcbTable.Length == maxProc
      ensures Chain(pcbTable[..], pcbFree_h, Ids(0, maxProc))
    {
      pcbTable := new Pcb[maxProc];
      pcbFree_h := NIL;
      new;
      var i := 0;
      while i < maxProc - 1
        invariant 0 <= i <= maxProc - 1
        invariant forall j :: 0 <= j < i ==> pcbTable[j].next == j + 1
      {
        pcbTable[i] := pcbTable[i].(next := i + 1);
        i := i + 1;
      }
      pcbTable[maxProc - 1] := pcbTable[maxProc - 1].(next := NIL);
      pcbFree_h := 0;
      ghost var s, t := Ids(0, maxProc), pcbTable[..];
      IdsProps(0, maxProc);
      IdsAt(0, maxProc);
      forall j | 0 <= j < |s| ensures ChainAt(t, s, j) {
        assert s[j] == j;
      }
      assert s[0] == 0;
    }

    /** freePcb: p becomes the head of the free list. */
    method FreePcb(p: int, ghost s: seq<int>)
      requires Chain(pcbTable[..], pcbFree_h, s)
      requires p == NIL || (0 <= p < pcbTable.Length && p !in s)
      modifies pcbTable, this`pcbFree_h
      ensures p == NIL ==> pcbTable[..] == old(pcbTable[..]) && pcbFree_h == old(pcbFree_h)
      ensures p != NIL ==> Chain(pcbTable[..], pcbFree_h, [p] + s)
      ensures p != NIL ==> pcbTable[..] == old(pcbTable[..])[p := old(pcbTable[p]).(next := old(pcbFree_h))]
    {
      if p == NIL {
        return;
      }
      ghost var t := pcbTable[..];
      pcbTable[p] := pcbTable[p].(next := pcbFree_h);
      pcbFree_h := p;
      ghost var t', r := pcbTable[..], [p] + s;
      assert t' == t[p := t[p].(next := old(pcbFree_h))];
      ConsProps(p, s);
      forall i | 0 <= i < |r| ensures ChainAt(t', r, i) {
        if i > 0 {
          assert ChainAt(t, s, i - 1) && s[i - 1] in s;
        }
      }
    }

    /** allocPcb: take the head of the free list and clear its fields. */
    method AllocPcb(ghost s: seq<int>) returns (r: int)
      requires Chain(pcbTable[..], pcbFree_h, s)
      modifies pcbTable, this`pcbFree_h
      ensures s == [] ==> r == NIL && pcbTable[..] == old(pcbTable[..]) && pcbFree_h == old(pcbFree_h)
      ensures s != [] ==> r == s[0] && 0 <= r < pcbTable.Length
      ensures s != [] ==> Chain(pcbTable[..], pcbFree_h, s[1..]) && pcbTable[..] == old(pcbTable[..])[r := ZEROED]
    {
      ghost var t := pcbTable[..];
      assert s != [] ==> ChainAt(t, s, 0);
      if pcbFree_h == NIL {
        return NIL;
      }
      r := pcbFree_h;
      pcbFree_h := pcbTable[r].next;
      pcbTable[r] := ZEROED;
      ghost var t', u := pcbTable[..], s[1..];
      assert t' == t[r := ZEROED];
      TailProps(s);
      forall i | 0 <= i < |u| ensures ChainAt(t', u, i) {
        assert ChainAt(t, s, i + 1);
        assert u[i] in u;
      }
    }

    /** insertProcQ: p goes to the end; the new tail is p. */
    method InsertProcQ(tp: int, p: int, ghost q: seq<int>) returns (tp': int)
      requires Ring(pcbTable[..], tp, q)
      requires p == NIL || (0 <= p < pcbTable.Length && p !in q)
      modifies pcbTable
      ensures p == NIL ==> tp' == tp && pcbTable[..] == old(pcbTable[..])
      ensures p != NIL ==> Ring(pcbTable[..], tp', q + [p])
      ensures p != NIL ==> QueueEdit(old(pcbTable[..]), pcbTable[..], q + [p])
    {
      if p == NIL {
        return tp;
      }
      ghost var t := pcbTable[..];
      assert q != [] ==> RingAt(t, q, |q| - 1);
      if tp == NIL {
        pcbTable[p] := pcbTable[p].(next := p, prev := p);
        assert pcbTable[..] == t[p := t[p].(next := p, prev := p)];
      } else {
        assert RingAt(t, q, 0);
        assert tp in q;
        pcbTable[p] := pcbTable[p].(next := pcbTable[tp].next, prev := tp);
        ghost var t1 := pcbTable[..];
        assert t1 == t[p := t[p].(next := q[0], prev := tp)];
        var h := pcbTable[tp].next;
        pcbTable[h] := pcbTable[h].(prev := p);
        ghost var t2 := pcbTable[..];
        assert t2 == t1[q[0] := t1[q[0]].(prev := p)];
        pcbTable[tp] := pcbTable[tp].(next := p);
        assert pcbTable[..] == t2[tp := t2[tp].(next := p)];
      }
      RingAppend(t, pcbTable[..], tp, q, p);
      tp' := p;
    }

    /** outProcQ: p leaves the queue, wherever it stands; NIL after one full cycle without finding it. */
    method OutProcQ(tp: int, p: int, ghost q: seq<int>) returns (tp': int, r: int)
      requires Ring(pcbTable[..], tp, q)
      modifies pcbTable
      ensures r == if p in q then p else NIL
      ensures Ring(pcbTable[..], tp', Without(q, p))
      ensures QueueEdit(old(pcbTable[..]), pcbTable[..], q)
      ensures p in q ==> 0 <= p < pcbTable.Length && pcbTable[p].next == NIL && pcbTable[p].prev == NIL
      ensures p !in q ==> tp' == tp && pcbTable[..] == old(pcbTable[..])
    {
      ghost var t := pcbTable[..];
      RingWithin(t, tp, q);
      assert q != [] ==> RingAt(t, q, |q| - 1);
      if tp == NIL || p == NIL {
        WithoutAbsent(q, p);
        return tp, NIL;
      }
      var current := pcbTable[tp].next;
      ghost var i := 0;
      while true
        invariant 0 <= i < |q| && current == q[i] && pcbTable[..] == t
        invariant forall j :: 0 <= j < i ==> q[j] != p
        decreases |q| - i
      {
        assert RingAt(t, q, i) && q[i] in q;
        if current == p {
          tp' := Unlink(tp, current, q, i);
          return tp', p;
        }
        current := pcbTable[current].next;
        if current == pcbTable[tp].next {
          break;
        }
        i := i + 1;
      }
      assert i == |q| - 1;
      WithoutAbsent(q, p);
      tp', r := tp, NIL;
    }

    /** The part of outProcQ that takes the found pcb out. */
    method Unlink(tp: int, current: int, ghost q: seq<int>, ghost i: nat) returns (tp': int)
      requires Ring(pcbTable[..], tp, q) && i < |q| && current == q[i]
      modifies pcbTable
      ensures Ring(pcbTable[..], tp', Without(q, current)) && QueueEdit(old(pcbTable[..]), pcbTable[..], q)
      ensures 0 <= current < pcbTable.Length && pcbTable[current].next == NIL && pcbTable[current].prev == NIL
    {
      ghost var t := pcbTable[..];
      RingWithin(t, tp, q);
      assert RingAt(t, q, i);
      tp' := tp;
      if current == tp && pcbTable[current].next == current {
        tp' := NIL;
        assert |q| == 1;
        pcbTable[current] := pcbTable[current].(next := NIL, prev := NIL);
        assert pcbTable[..] == t[current := t[current].(next := NIL, prev := NIL)];
        assert Without(q, current) == [];
      } else {
        assert |q| > 1;
        var a, b := pcbTable[current].prev, pcbTable[current].next;
        assert a in q && b in q && a != current && b != current;
        pcbTable[a] := pcbTable[a].(next := b);
        pcbTable[b] := pcbTable[b].(prev := a);
        if tp == current {
          tp' := pcbTable[current].prev;
        }
        pcbTable[current] := pcbTable[current].(next := NIL, prev := NIL);
        assert Unlinked(t, pcbTable[..], current);
        RingRemove(t, pcbTable[..], tp, q, i);
      }
    }

    /** removeProcQ: the head leaves. */
    method RemoveProcQ(tp: int, ghost q: seq<int>) returns (tp': int, r: int)
      requires Ring(pcbTable[..], tp, q)
      modifies pcbTable
      ensures q == [] ==> r == NIL && tp' == tp && pcbTable[..] == old(pcbTable[..])
      ensures q != [] ==> r == q[0] && 0 <= r < pcbTable.Length && Ring(pcbTable[..], tp', q[1..])
      ensures QueueEdit(old(pcbTable[..]), pcbTable[..], q)
    {
      assert q != [] ==> RingAt(pcbTable[..], q, |q| - 1);
      if tp == NIL {
        return tp, NIL;
      }
      assert q[0] in q;
      assert Without(q, q[0]) == q[1..];
      tp', r := OutProcQ(tp, pcbTable[tp].next, q);
    }

    /** headProcQ: the head, which stays. */
    method HeadProcQ(tp: int, ghost q: seq<int>) returns (r: int)
      requires Ring(pcbTable[..], tp, q)
      ensures r == if q == [] then NIL else q[0]
    {
      assert q != [] ==> RingAt(pcbTable[..], q, |q| - 1);
      if tp == NIL {
        return NIL;
      }
      r := pcbTable[tp].next;
    }

    /** insertChild: n becomes the first child of p. */
    method InsertChild(p: int, n: int, ghost tr: Tree, ghost free: seq<int>)
      requires p != NIL && n != NIL ==>
                 && 0 <= p < pcbTable.Length && 0 <= n < pcbTable.Length && p != n && p !in free
                 && TreeLinks(pcbTable[..], tr, free) && Forest(tr)
                 && tr.prnt[n] == NIL
      modifies pcbTable
      ensures p == NIL || n == NIL ==> pcbTable[..] == old(pcbTable[..])
      ensures p != NIL && n != NIL ==>
                && 0 <= p < |tr.kids| && 0 <= n < |tr.prnt|
                && TreeLinks(pcbTable[..], Adopt(tr, p, n), free) && TreeEdit(old(pcbTable[..]), pcbTable[..])
    {
      if p == NIL || n == NIL {
        return;
      }
      ghost var t := pcbTable[..];
      var first := pcbTable[p].child;
      if tr.kids[p] != [] {
        assert tr.kids[p][0] in tr.kids[p];
      }
      pcbTable[p] := pcbTable[p].(child := n);
      pcbTable[n] := pcbTable[n].(prnt := p, sibRight := first, sibLeft := NIL);
      if first != NIL {
        pcbTable[first] := pcbTable[first].(sibLeft := n);
      }
      assert Adopted(t, pcbTable[..], p, n);
      AdoptLinks(t, pcbTable[..], tr, free, p, n);
    }

    /** emptyChild. */
    method EmptyChild(p: int, ghost tr: Tree, ghost free: seq<int>) returns (r: bool)
      requires 0 <= p < pcbTable.Length && p !in free && TreeLinks(pcbTable[..], tr, free)
      ensures |tr.kids| == pcbTable.Length && (r <==> tr.kids[p] == [])
    {
      ghost var t := pcbTable[..];
      assert t[p] == pcbTable[p];
      assert tr.kids[p] != [] ==> SiblingLinks(t, tr.kids[p], 0);
      r := pcbTable[p].child == NIL;
    }

    /** outChild: x leaves its parent's child list, wherever it stands; NIL if it has no parent. */
    method OutChild(x: int, ghost tr: Tree, ghost free: seq<int>) returns (r: int)
      requires x != NIL ==> 0 <= x < pcbTable.Length && x !in free && TreeLinks(pcbTable[..], tr, free) && Forest(tr)
      requires x != NIL && tr.prnt[x] != NIL ==> tr.prnt[x] !in free
      modifies pcbTable
      ensures r == if x == NIL || tr.prnt[x] == NIL then NIL else x
      ensures x != NIL ==> TreeLinks(pcbTable[..], Detach(tr, x), free)
      ensures TreeEdit(old(pcbTable[..]), pcbTable[..])
    {
      if x == NIL || pcbTable[x].prnt == NIL {
        return NIL;
      }
      ghost var t := pcbTable[..];
      var p := pcbTable[x].prnt;
      SiblingRange(t, tr, free, x);
      if pcbTable[p].child == x {
        pcbTable[p] := pcbTable[p].(child := pcbTable[x].sibRight);
      }
      if pcbTable[x].sibLeft != NIL {
        var l := pcbTable[x].sibLeft;
        pcbTable[l] := pcbTable[l].(sibRight := pcbTable[x].sibRight);
      }
      if pcbTable[x].sibRight != NIL {
        var s := pcbTable[x].sibRight;
        pcbTable[s] := pcbTable[s].(sibLeft := pcbTable[x].sibLeft);
      }
      pcbTable[x] := pcbTable[x].(prnt := NIL, sibLeft := NIL, sibRight := NIL);
      assert Detached(t, pcbTable[..], p, x);
      DetachLinks(t, pcbTable[..], tr, free, x);
      r := x;
    }

    /** removeChild: p's first child leaves; NIL if p has none. */
    method RemoveChild(p: int, ghost tr: Tree, ghost free: seq<int>) returns (r: int)
      requires 0 <= p < pcbTable.Length && p !in free && TreeLinks(pcbTable[..], tr, free) && Forest(tr)
      requires forall c :: c in tr.kids[p] ==> c !in free
      modifies pcbTable
      ensures tr.kids[p] == [] ==> r == NIL && pcbTable[..] == old(pcbTable[..])
      ensures tr.kids[p] != [] ==> r == tr.kids[p][0] && 0 <= r < |tr.prnt| && tr.prnt[r] == p
      ensures tr.kids[p] != [] ==> TreeLinks(pcbTable[..], Detach(tr, tr.kids[p][0]), free)
      ensures TreeEdit(old(pcbTable[..]), pcbTable[..])
    {
      assert tr.kids[p] != [] ==> tr.kids[p][0] in tr.kids[p];
      if pcbTable[p].child == NIL {
        return NIL;
      }
      r := OutChild(pcbTable[p].child, tr, free);
    }
  }

  lemma IdsAt(lo: nat, hi: nat)
    requires lo <= hi
    ensures |Ids(lo, hi)| == hi - lo && forall i :: 0 <= i < hi - lo ==> Ids(lo, hi)[i] == lo + i
    decreases hi - lo
  {
    if lo < hi {
      IdsAt(lo + 1, hi);
    }
  }

  /** The siblings of a child are table entries other than itself and its parent. */
  lemma SiblingRange(t: seq<Pcb>, tr: Tree, free: seq<int>, x: int)
    requires TreeLinks(t, tr, free) && Forest(tr) && 0 <= x < |t| && x !in free && tr.prnt[x] != NIL
    ensures var l, r, p := t[x].sibLeft, t[x].sibRight, tr.prnt[x];
            && 0 <= p < |t| && p != x
            && (l != NIL ==> 0 <= l < |t| && l != x && l != p)
            && (r != NIL ==> 0 <= r < |t| && r != x && r != p)
            && (l != NIL && r != NIL ==> l != r)
  {
    var cs := tr.kids[tr.prnt[x]];
    assert x in cs;
    var j :| 0 <= j < |cs| && cs[j] == x;
    assert SiblingLinks(t, cs, j);
    if j > 0 { assert cs[j - 1] in cs; }
    if j + 1 < |cs| { assert cs[j + 1] in cs; }
  }
}
