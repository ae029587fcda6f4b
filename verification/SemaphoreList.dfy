/**
 * asl.c: the active semaphore list, sorted by address between two dummy descriptors, its free descriptors, and the
 * queue each active descriptor owns. It refines a map from addresses to nonempty queues.
 */
module SemaphoreList {
  import opened Sequences
  import opened PcbTable
  import opened NucleusState

  datatype Semd = Semd(next: int, semAdd: int, procQ: int)

  // ----- the two descriptor lists -----

  ghost predicate LinkAt(d: seq<Semd>, s: seq<int>, i: int)
    requires 0 <= i < |s|
  {
    0 <= s[i] < |d| && d[s[i]].next == if i + 1 < |s| then s[i + 1] else NIL
  }

  /** h heads a list of the descriptors in s. */
  ghost predicate Linked(d: seq<Semd>, h: int, s: seq<int>) {
    && Distinct(s)
    && h == (if s == [] then NIL else s[0])
    && forall i {:trigger LinkAt(d, s, i)} :: 0 <= i < |s| ==> LinkAt(d, s, i)
  }

  /** Addresses strictly increase along s. */
  ghost predicate Increasing(d: seq<Semd>, s: seq<int>)
    requires Within(s, |d|)
  {
    forall i, j {:trigger Addr(d, s, i), Addr(d, s, j)} :: 0 <= i < j < |s| ==> Addr(d, s, i) < Addr(d, s, j)
  }

  ghost function Addr(d: seq<Semd>, s: seq<int>, i: int): int
    requires Within(s, |d|) && 0 <= i < |s|
  {
    var x := s[i];
    assert x in s;
    d[x].semAdd
  }

  /** The active list runs from dummy 0 with address 0 to the last dummy with address MAXINT. */
  ghost predicate Active(d: seq<Semd>, h: int, act: seq<int>) {
    && |act| >= 2 && Linked(d, h, act) && Within(act, |d|) && Increasing(d, act)
    && act[0] == 0 && act[|act| - 1] == |d| - 1
    && Addr(d, act, 0) == 0 && Addr(d, act, |act| - 1) == MAXINT
  }

  /** Every descriptor is active or free, and none is both. */
  ghost predicate Partition(n: nat, act: seq<int>, free: seq<int>) {
    Disjoint(act, free) && |act| + |free| == n
  }

  ghost predicate Lists(d: seq<Semd>, h: int, fh: int, act: seq<int>, free: seq<int>) {
    Active(d, h, act) && Linked(d, fh, free) && Within(free, |d|) && Partition(|d|, act, free)
  }

  // ----- the queues -----

  /** The i-th active descriptor owns the queue of its address. */
  ghost predicate OwnsAt(t: seq<Pcb>, d: seq<Semd>, act: seq<int>, b: map<int, seq<int>>, i: int)
    requires Within(act, |d|) && 0 <= i < |act|
  {
    var x := act[i];
    Addr(d, act, i) in b && x in act && Ring(t, d[x].procQ, b[Addr(d, act, i)])
  }

  ghost predicate Owned(d: seq<Semd>, act: seq<int>, a: int)
    requires Within(act, |d|)
  {
    exists i {:trigger Addr(d, act, i)} :: 0 < i < |act| - 1 && Addr(d, act, i) == a
  }

  /** b lists the queues of exactly the active descriptors between the dummies. */
  ghost predicate Owns(t: seq<Pcb>, d: seq<Semd>, act: seq<int>, b: map<int, seq<int>>)
    requires Within(act, |d|)
  {
    && |b| == |act| - 2
    && (forall i {:trigger OwnsAt(t, d, act, b, i)} :: 0 < i < |act| - 1 ==> OwnsAt(t, d, act, b, i))
    && (forall a :: a in b ==> Owned(d, act, a))
  }

  /** No pcb is in two queues. */
  ghost predicate Apart(b: map<int, seq<int>>) {
    forall a, c, x :: a in b && c in b && x in b[a] && x in b[c] ==> a == c
  }

  ghost predicate NoneEmpty(b: map<int, seq<int>>) {
    forall a :: a in b ==> b[a] != []
  }

  // ----- list surgery -----

  lemma {:induction false} LinkedFrame(d: seq<Semd>, d': seq<Semd>, h: int, s: seq<int>)
    requires Linked(d, h, s) && |d'| == |d| && forall x :: x in s && 0 <= x < |d| ==> d'[x].next == d[x].next
    ensures Linked(d', h, s)
  {
    forall i | 0 <= i < |s| ensures LinkAt(d', s, i) {
      var x := s[i];
      assert LinkAt(d, s, i) && x in s;
    }
  }

  lemma AddrFrame(d: seq<Semd>, d': seq<Semd>, h: int, act: seq<int>)
    requires Active(d, h, act) && |d'| == |d|
    requires forall x :: x in act && 0 <= x < |d| ==> d'[x].next == d[x].next && d'[x].semAdd == d[x].semAdd
    ensures Active(d', h, act)
    ensures forall i {:trigger Addr(d', act, i)} :: 0 <= i < |act| ==> Addr(d', act, i) == Addr(d, act, i)
  {
    LinkedFrame(d, d', h, act);
    forall i | 0 <= i < |act| ensures Addr(d', act, i) == Addr(d, act, i) {
      var x := act[i];
      assert x in act;
    }
  }

  /** s is linked in as the i-th element. */
  lemma InsertLinks(d: seq<Semd>, d': seq<Semd>, h: int, act: seq<int>, i: nat, s: int)
    requires Linked(d, h, act) && Within(act, |d|) && 0 < i < |act| && 0 <= s < |d| && s !in act && |d'| == |d|
    requires d'[s].next == act[i] && 0 <= act[i - 1] < |d| && d'[act[i - 1]].next == s
    requires forall x :: x in act && x != act[i - 1] && 0 <= x < |d| ==> d'[x].next == d[x].next
    ensures Linked(d', h, act[..i] + [s] + act[i..])
  {
    var r := act[..i] + [s] + act[i..];
    forall j, m | 0 <= j < m < |r| ensures r[j] != r[m] {
      if r[j] == s || r[m] == s {
        if j < i || j > i { assert r[j] in act; }
        if m < i || m > i { assert r[m] in act; }
      }
    }
    forall j | 0 <= j < |r| ensures LinkAt(d', r, j) {
      var m := if j < i then j else j - 1;
      if j != i {
        var x := act[m];
        assert r[j] == x && x in act && LinkAt(d, act, m);
      }
    }
  }

  lemma InsertAddr(d: seq<Semd>, d': seq<Semd>, act: seq<int>, i: nat, s: int, r: seq<int>, j: nat)
    requires Within(act, |d|) && 0 < i < |act| && 0 <= s < |d| && |d'| == |d| && r == act[..i] + [s] + act[i..]
    requires j < |r|
    requires forall x :: x in act && 0 <= x < |d| ==> d'[x].semAdd == d[x].semAdd
    ensures Within(r, |d'|)
    ensures Addr(d', r, j) == if j < i then Addr(d, act, j) else if j == i then d'[s].semAdd else Addr(d, act, j - 1)
  {
    forall x | x in r ensures 0 <= x < |d'| {
      assert x == s || x in act;
    }
    var x := r[j];
    if j != i {
      assert x == act[if j < i then j else j - 1] && x in act;
    }
  }

  lemma InsertActive(d: seq<Semd>, d': seq<Semd>, h: int, act: seq<int>, i: nat, s: int, r: seq<int>)
    requires Active(d, h, act) && 0 < i < |act| && 0 <= s < |d| && s !in act && |d'| == |d|
    requires d'[s].next == act[i] && 0 <= act[i - 1] < |d| && d'[act[i - 1]].next == s
    requires forall x :: x in act && x != act[i - 1] && 0 <= x < |d| ==> d'[x].next == d[x].next
    requires forall x :: x in act && 0 <= x < |d| ==> d'[x].semAdd == d[x].semAdd
    requires Addr(d, act, i - 1) < d'[s].semAdd < Addr(d, act, i) && r == act[..i] + [s] + act[i..]
    ensures Active(d', h, r)
  {
    InsertLinks(d, d', h, act, i, s);
    InsertAddr(d, d', act, i, s, r, 0);
    InsertAddr(d, d', act, i, s, r, |r| - 1);
    forall j, m | 0 <= j < m < |r| ensures Addr(d', r, j) < Addr(d', r, m) {
      InsertAddr(d, d', act, i, s, r, j);
      InsertAddr(d, d', act, i, s, r, m);
      assert j < i ==> Addr(d, act, j) <= Addr(d, act, i - 1);
      assert m > i ==> Addr(d, act, i) <= Addr(d, act, m - 1);
    }
  }

  /** The i-th element is unlinked. */
  lemma RemoveLinks(d: seq<Semd>, d': seq<Semd>, h: int, act: seq<int>, i: nat)
    requires Linked(d, h, act) && Within(act, |d|) && 0 < i < |act| - 1 && |d'| == |d|
    requires 0 <= act[i - 1] < |d| && d'[act[i - 1]].next == act[i + 1]
    requires forall x :: x in act && x != act[i - 1] && x != act[i] && 0 <= x < |d| ==> d'[x].next == d[x].next
    ensures Linked(d', h, act[..i] + act[i + 1..])
  {
    var r := act[..i] + act[i + 1..];
    forall j | 0 <= j < |r| ensures LinkAt(d', r, j) {
      var m := if j < i then j else j + 1;
      var x := act[m];
      assert r[j] == x && x in act && LinkAt(d, act, m);
      assert x != act[i] && (x == act[i - 1] <==> m == i - 1);
    }
  }

  lemma RemoveAddr(d: seq<Semd>, d': seq<Semd>, act: seq<int>, i: nat, r: seq<int>, j: nat)
    requires Within(act, |d|) && i < |act| && |d'| == |d| && r == act[..i] + act[i + 1..] && j < |r|
    requires forall x :: x in act && 0 <= x < |d| ==> d'[x].semAdd == d[x].semAdd
    ensures Within(r, |d'|)
    ensures Addr(d', r, j) == Addr(d, act, if j < i then j else j + 1)
  {
    forall x | x in r ensures 0 <= x < |d'| {
      assert x in act;
    }
    var x := r[j];
    assert x == act[if j < i then j else j + 1] && x in act;
  }

  lemma RemoveActive(d: seq<Semd>, d': seq<Semd>, h: int, act: seq<int>, i: nat, r: seq<int>)
    requires Active(d, h, act) && 0 < i < |act| - 1 && |d'| == |d| && r == act[..i] + act[i + 1..]
    requires 0 <= act[i - 1] < |d| && d'[act[i - 1]].next == act[i + 1]
    requires forall x :: x in act && x != act[i - 1] && x != act[i] && 0 <= x < |d| ==> d'[x].next == d[x].next
    requires forall x :: x in act && 0 <= x < |d| ==> d'[x].semAdd == d[x].semAdd
    ensures Active(d', h, r)
  {
    RemoveLinks(d, d', h, act, i);
    RemoveAddr(d, d', act, i, r, 0);
    RemoveAddr(d, d', act, i, r, |r| - 1);
    forall j, m | 0 <= j < m < |r| ensures Addr(d', r, j) < Addr(d', r, m) {
      RemoveAddr(d, d', act, i, r, j);
      RemoveAddr(d, d', act, i, r, m);
    }
  }

  lemma {:induction false} PushLinked(d: seq<Semd>, d': seq<Semd>, fh: int, free: seq<int>, s: int)
    requires Linked(d, fh, free) && 0 <= s < |d| && s !in free && |d'| == |d| && d'[s].next == fh
    requires forall x :: x in free && 0 <= x < |d| ==> d'[x].next == d[x].next
    ensures Linked(d', s, [s] + free)
  {
    var r := [s] + free;
    ConsProps(s, free);
    forall i | 0 <= i < |r| ensures LinkAt(d', r, i) {
      if i > 0 {
        var x := free[i - 1];
        assert LinkAt(d, free, i - 1) && x in free;
      }
    }
  }

  lemma {:induction false} PopLinked(d: seq<Semd>, d': seq<Semd>, fh: int, free: seq<int>)
    requires Linked(d, fh, free) && free != [] && |d'| == |d| && 0 <= free[0] < |d|
    requires forall x :: x in free && x != free[0] && 0 <= x < |d| ==> d'[x].next == d[x].next
    ensures Linked(d', d[free[0]].next, free[1..])
  {
    var r := free[1..];
    TailProps(free);
    assert LinkAt(d, free, 0);
    forall i | 0 <= i < |r| ensures LinkAt(d', r, i) {
      var x := r[i];
      assert LinkAt(d, free, i + 1) && x in r;
    }
  }

  /** Where an address belongs, there is at most one descriptor. */
  lemma OwnedPosition(d: seq<Semd>, h: int, act: seq<int>, a: int, i: nat)
    requires Active(d, h, act) && 0 < i < |act| && Addr(d, act, i - 1) < a <= Addr(d, act, i) && 0 < a < MAXINT
    ensures Owned(d, act, a) <==> Addr(d, act, i) == a
  {
    if Addr(d, act, i) == a {
      assert i < |act| - 1;
    }
    if Owned(d, act, a) {
      var j :| 0 < j < |act| - 1 && Addr(d, act, j) == a;
    }
  }

  lemma OwnedAt(d: seq<Semd>, act: seq<int>, i: int, a: int)
    requires Within(act, |d|) && 0 < i < |act| - 1 && Addr(d, act, i) == a
    ensures Owned(d, act, a)
  {
  }

  // ----- queue surgery -----

  /** A new descriptor with an empty queue joins the list. */
  lemma InsertOwns(t: seq<Pcb>, d: seq<Semd>, d': seq<Semd>, act: seq<int>, b: map<int, seq<int>>, i: nat, s: int,
                   r: seq<int>)
    requires Within(act, |d|) && 0 < i < |act| && 0 <= s < |d| && s !in act && |d'| == |d|
    requires r == act[..i] + [s] + act[i..] && Within(r, |d'|)
    requires forall x :: x in act && 0 <= x < |d| ==> d'[x].semAdd == d[x].semAdd && d'[x].procQ == d[x].procQ
    requires Owns(t, d, act, b) && d'[s].procQ == NIL && d'[s].semAdd !in b
    ensures Owns(t, d', r, b[d'[s].semAdd := []])
  {
    var a := d'[s].semAdd;
    var b' := b[a := []];
    forall j | 0 < j < |r| - 1 ensures OwnsAt(t, d', r, b', j) {
      InsertAddr(d, d', act, i, s, r, j);
      var x := r[j];
      assert x in r;
      if j != i {
        var m := if j < i then j else j - 1;
        assert OwnsAt(t, d, act, b, m) && x == act[m] && x in act;
      }
    }
    forall c | c in b' ensures Owned(d', r, c) {
      if c == a {
        InsertAddr(d, d', act, i, s, r, i);
        OwnedAt(d', r, i, c);
      } else {
        assert Owned(d, act, c);
        var m :| 0 < m < |act| - 1 && Addr(d, act, m) == c;
        var j := if m < i then m else m + 1;
        InsertAddr(d, d', act, i, s, r, j);
        OwnedAt(d', r, j, c);
      }
    }
  }

  /** A descriptor whose queue is empty leaves the list. */
  lemma RemoveOwns(t: seq<Pcb>, d: seq<Semd>, d': seq<Semd>, h: int, act: seq<int>, b: map<int, seq<int>>, i: nat,
                   r: seq<int>)
    requires Active(d, h, act) && 0 < i < |act| - 1 && |d'| == |d|
    requires r == act[..i] + act[i + 1..] && Within(r, |d'|)
    requires forall x :: x in act && 0 <= x < |d| ==> d'[x].semAdd == d[x].semAdd && d'[x].procQ == d[x].procQ
    requires Owns(t, d, act, b)
    ensures Owns(t, d', r, b - {Addr(d, act, i)})
  {
    var a := Addr(d, act, i);
    var b' := b - {a};
    assert OwnsAt(t, d, act, b, i);
    forall j | 0 < j < |r| - 1 ensures OwnsAt(t, d', r, b', j) {
      RemoveAddr(d, d', act, i, r, j);
      var m := if j < i then j else j + 1;
      var x := r[j];
      assert x in r && x == act[m] && x in act;
      assert OwnsAt(t, d, act, b, m) && Addr(d, act, m) != a;
    }
    forall c | c in b' ensures Owned(d', r, c) {
      assert Owned(d, act, c);
      var m :| 0 < m < |act| - 1 && Addr(d, act, m) == c;
      var j := if m < i then m else m - 1;
      RemoveAddr(d, d', act, i, r, j);
      OwnedAt(d', r, j, c);
    }
  }

  /** The queue of the i-th descriptor changes, and nobody else's. */
  lemma RequeueOwns(t: seq<Pcb>, t': seq<Pcb>, d: seq<Semd>, d': seq<Semd>, h: int, act: seq<int>,
                    b: map<int, seq<int>>, i: nat, q: seq<int>, touched: seq<int>)
    requires Active(d, h, act) && 0 < i < |act| - 1 && Owns(t, d, act, b) && Within(act, |d'|)
    requires 0 <= act[i] < |d| == |d'| && d' == d[act[i] := d[act[i]].(procQ := d'[act[i]].procQ)]
    requires Ring(t', d'[act[i]].procQ, q) && |t'| == |t|
    requires forall x :: 0 <= x < |t| && x !in touched ==> t'[x] == t[x]
    requires forall c, x :: c in b && c != Addr(d, act, i) && x in b[c] ==> x !in touched
    ensures Owns(t', d', act, b[Addr(d, act, i) := q])
  {
    var a := Addr(d, act, i);
    var b' := b[a := q];
    assert OwnsAt(t, d, act, b, i);
    forall j | 0 < j < |act| - 1 ensures OwnsAt(t', d', act, b', j) {
      var x := act[j];
      assert x in act && OwnsAt(t, d, act, b, j);
      if j != i {
        assert Addr(d, act, j) != a;
        RingFrame(t, t', d[x].procQ, b[Addr(d, act, j)]);
      }
    }
    forall c | c in b' ensures Owned(d', act, c) {
      assert Owned(d, act, c);
      var m :| 0 < m < |act| - 1 && Addr(d, act, m) == c;
      var x := act[m];
      assert x in act;
      assert Addr(d', act, m) == c;
      OwnedAt(d', act, m, c);
    }
  }

  /** Queue links in members of q, and the semaphore field of p. */
  ghost predicate BlockEdit(t: seq<Pcb>, t': seq<Pcb>, q: seq<int>, p: int) {
    && |t'| == |t|
    && (forall x {:trigger t'[x]} :: 0 <= x < |t| ==>
          t'[x] == t[x].(next := t'[x].next, prev := t'[x].prev, semAdd := t'[x].semAdd))
    && (forall x {:trigger t'[x]} :: 0 <= x < |t| && x != p ==> t'[x].semAdd == t[x].semAdd)
    && (forall x {:trigger t'[x]} :: 0 <= x < |t| && x !in q && x != p ==> t'[x] == t[x])
  }

  lemma OwnedIn(t: seq<Pcb>, d: seq<Semd>, act: seq<int>, b: map<int, seq<int>>, a: int)
    requires Within(act, |d|) && Owns(t, d, act, b)
    ensures a in b <==> Owned(d, act, a)
  {
    if Owned(d, act, a) {
      var j :| 0 < j < |act| - 1 && Addr(d, act, j) == a;
      assert OwnsAt(t, d, act, b, j);
    }
  }

  /** The whole effect of linking a free descriptor in for address a. */
  lemma LinkIn(t: seq<Pcb>, d: seq<Semd>, d': seq<Semd>, h: int, act: seq<int>, free: seq<int>, b: map<int, seq<int>>,
               i: nat, s: int, a: int, r: seq<int>)
    requires free != [] && Lists(d, h, s, act, free) && Owns(t, d, act, b) && a !in b && 0 < i < |act|
    requires s == free[0] && 0 <= s < |d| && 0 <= act[i - 1] < |d| && act[i - 1] != s
    requires Addr(d, act, i - 1) < a < Addr(d, act, i) && r == act[..i] + [s] + act[i..]
    requires d' == d[s := Semd(act[i], a, NIL)][act[i - 1] := d[act[i - 1]].(next := s)]
    ensures Lists(d', h, d[s].next, r, free[1..]) && Owns(t, d', r, b[a := []])
  {
    hide OwnsAt, Owned;
    TailProps(free);
    assert act[i - 1] in act && s !in act;
    InsertActive(d, d', h, act, i, s, r);
    PopLinked(d, d', s, free);
    InsertOwns(t, d, d', act, b, i, s, r);
    InsertPartition(|d|, act, free, i, r);
  }

  /** The whole effect of giving the i-th descriptor back. */
  lemma LinkOut(t: seq<Pcb>, d: seq<Semd>, d': seq<Semd>, h: int, fh: int, act: seq<int>, free: seq<int>,
                b: map<int, seq<int>>, i: nat, r: seq<int>)
    requires Lists(d, h, fh, act, free) && Owns(t, d, act, b) && 0 < i < |act| - 1
    requires 0 <= act[i] < |d| && 0 <= act[i - 1] < |d| && act[i - 1] != act[i] && r == act[..i] + act[i + 1..]
    requires d' == d[act[i - 1] := d[act[i - 1]].(next := act[i + 1])][act[i] := d[act[i]].(next := fh)]
    ensures Lists(d', h, act[i], r, [act[i]] + free) && Owns(t, d', r, b - {d[act[i]].semAdd})
  {
    hide OwnsAt, Owned;
    var s := act[i];
    assert act[i - 1] in act && s in act;
    RemoveActive(d, d', h, act, i, r);
    PushLinked(d, d', fh, free, s);
    RemoveOwns(t, d, d', h, act, b, i, r);
    RemovePartition(|d|, act, free, i, r);
  }

  lemma OwnsFrame(t: seq<Pcb>, t': seq<Pcb>, d: seq<Semd>, act: seq<int>, b: map<int, seq<int>>)
    requires Within(act, |d|) && Owns(t, d, act, b) && |t'| == |t|
    requires forall a, x :: a in b && x in b[a] && 0 <= x < |t| ==> t'[x].next == t[x].next && t'[x].prev == t[x].prev
    ensures Owns(t', d, act, b)
  {
    forall i | 0 < i < |act| - 1 ensures OwnsAt(t', d, act, b, i) {
      assert OwnsAt(t, d, act, b, i);
      var x := act[i];
      assert x in act;
      RingFrame(t, t', d[x].procQ, b[Addr(d, act, i)]);
    }
  }

  // ----- the operations -----

  class Asl {
    const pcbs: PcbStore
    const semdTable: array<Semd>
    var semd_h: int
    var semdFree_h: int
    ghost var act: seq<int>
    ghost var free: seq<int>
    ghost var queues: map<int, seq<int>>

    /** Well formed, except that a queue may be empty for a moment. */
    ghost predicate WellLinked()
      reads this, semdTable, pcbs.pcbTable
    {
      && Lists(semdTable[..], semd_h, semdFree_h, act, free)
      && Owns(pcbs.pcbTable[..], semdTable[..], act, queues)
      && Apart(queues)
    }

    ghost predicate Valid()
      reads this, semdTable, pcbs.pcbTable
    {
      WellLinked() && NoneEmpty(queues)
    }

    /** initASL: two dummies in the list, every other descriptor free. */
    constructor (pcbs: PcbStore, maxSemd: nat)
      requires 0 < maxSemd
      ensures Valid() && this.pcbs == pcbs && fresh(semdTable) && semdTable.Length == maxSemd + 2 && queues == map[]
    {
      this.pcbs := pcbs;
      semdTable := new Semd[maxSemd + 2];
      semd_h := 0;
      semdFree_h := NIL;
      new;
      semdTable[0] := semdTable[0].(semAdd := 0);
      var tail := maxSemd + 1;
      semdTable[tail] := semdTable[tail].(semAdd := MAXINT);
      semdTable[0] := semdTable[0].(next := tail);
      semdTable[tail] := semdTable[tail].(next := NIL);
      semdFree_h := 1;
      var i := 1;
      while i < maxSemd
        invariant 1 <= i <= maxSemd
        invariant semd_h == 0 && semdFree_h == 1
        invariant semdTable[0].semAdd == 0 && semdTable[0].next == tail
        invariant semdTable[tail].semAdd == MAXINT && semdTable[tail].next == NIL
        invariant forall j :: 1 <= j < i ==> semdTable[j].next == j + 1
      {
        semdTable[i] := semdTable[i].(next := i + 1);
        i := i + 1;
      }
      semdTable[maxSemd] := semdTable[maxSemd].(next := NIL);
      act, free, queues := [0, tail], Ids(1, tail), map[];
      InitLists(semdTable[..]);
    }

    /** findSemd: the descriptor of a, or NIL; i is its position. */
    method FindSemd(a: int) returns (s: int, ghost i: nat)
      requires WellLinked() && 0 < a < MAXINT
      ensures s == NIL <==> a !in queues
      ensures s != NIL ==> 0 < i < |act| - 1 && act[i] == s && 0 <= s < semdTable.Length && semdTable[s].semAdd == a
    {
      ghost var d := semdTable[..];
      assert LinkAt(d, act, 0) && LinkAt(d, act, 1);
      var current := semdTable[semd_h].next;
      i := 1;
      while current != NIL && semdTable[current].semAdd < a
        invariant 1 <= i < |act| && current == act[i] && LinkAt(d, act, i)
        invariant Addr(d, act, i - 1) < a
        decreases |act| - i
      {
        assert i < |act| - 1;
        assert LinkAt(d, act, i + 1);
        current := semdTable[current].next;
        i := i + 1;
      }
      OwnedPosition(d, semd_h, act, a, i);
      OwnedIn(pcbs.pcbTable[..], d, act, queues, a);
      if current != NIL && semdTable[current].semAdd == a {
        return current, i;
      }
      s := NIL;
    }

    /** The last active descriptor below a; i is the position after it. */
    method PrevBelow(a: int) returns (prev: int, ghost i: nat)
      requires Active(semdTable[..], semd_h, act) && 0 < a < MAXINT
      ensures 0 < i < |act| && prev == act[i - 1] && 0 <= prev < semdTable.Length && semdTable[prev].next == act[i]
      ensures Addr(semdTable[..], act, i - 1) < a <= Addr(semdTable[..], act, i)
    {
      ghost var d := semdTable[..];
      assert LinkAt(d, act, 0) && LinkAt(d, act, 1);
      prev := semd_h;
      i := 1;
      while semdTable[prev].next != NIL && semdTable[semdTable[prev].next].semAdd < a
        invariant 1 <= i < |act| && prev == act[i - 1] && LinkAt(d, act, i - 1) && LinkAt(d, act, i)
        invariant Addr(d, act, i - 1) < a
        decreases |act| - i
      {
        assert i < |act| - 1;
        assert LinkAt(d, act, i + 1);
        prev := semdTable[prev].next;
        i := i + 1;
      }
    }

    /** The active descriptor linked to s. */
    method PrevOf(s: int, ghost i: nat) returns (prev: int)
      requires Active(semdTable[..], semd_h, act) && 0 < i < |act| - 1 && act[i] == s
      ensures prev == act[i - 1] && 0 <= prev < semdTable.Length && semdTable[prev].next == s
    {
      ghost var d := semdTable[..];
      assert LinkAt(d, act, 0) && LinkAt(d, act, 1);
      prev := semd_h;
      ghost var j := 0;
      while semdTable[prev].next != NIL && semdTable[prev].next != s
        invariant 0 <= j < i && prev == act[j] && LinkAt(d, act, j) && LinkAt(d, act, j + 1)
        decreases |act| - j
      {
        assert LinkAt(d, act, j + 2);
        prev := semdTable[prev].next;
        j := j + 1;
      }
    }

    /** The part of insertBlocked that takes a descriptor off the free list and links it in at its address. */
    method AddSemd(a: int) returns (s: int, ghost i: nat)
      requires WellLinked() && 0 < a < MAXINT && a !in queues && semdFree_h != NIL
      modifies semdTable, this`semdFree_h, this`act, this`free, this`queues
      ensures WellLinked() && queues == old(queues)[a := []]
      ensures 0 < i < |act| - 1 && act[i] == s && 0 <= s < semdTable.Length && semdTable[s].semAdd == a
    {
      ghost var d := semdTable[..];
      ghost var t := pcbs.pcbTable[..];
      assert free != [] ==> LinkAt(d, free, 0);
      s := semdFree_h;
      assert s in free;
      semdFree_h := semdTable[s].next;
      semdTable[s] := semdTable[s].(semAdd := a, procQ := NIL);
      AddrFrame(d, semdTable[..], semd_h, act);
      var prev;
      prev, i := PrevBelow(a);
      OwnedPosition(d, semd_h, act, a, i);
      OwnedIn(t, d, act, queues, a);
      assert act[i - 1] in act && act[i] in act;
      semdTable[s] := semdTable[s].(next := semdTable[prev].next);
      semdTable[prev] := semdTable[prev].(next := s);
      ghost var d' := semdTable[..];
      assert d' == d[s := Semd(act[i], a, NIL)][prev := d[prev].(next := s)];
      hide Addr, Increasing, Linked, OwnsAt, Owned;
      ghost var r := act[..i] + [s] + act[i..];
      LinkIn(t, d, d', semd_h, act, free, queues, i, s, a, r);
      assert s == r[i];
      act, free, queues := r, free[1..], queues[a := []];
    }

    /** The part shared by removeBlocked and outBlocked that gives an empty descriptor back. */
    method DropSemd(s: int, ghost i: nat)
      requires WellLinked() && 0 < i < |act| - 1 && act[i] == s && 0 <= s < semdTable.Length
      requires semdTable[s].semAdd in queues && queues[semdTable[s].semAdd] == []
      modifies semdTable, this`semdFree_h, this`act, this`free, this`queues
      ensures WellLinked() && queues == old(queues - {semdTable[s].semAdd})
    {
      ghost var d := semdTable[..];
      var prev := PrevOf(s, i);
      assert act[i - 1] in act && act[i] in act;
      if semdTable[prev].next == s {
        semdTable[prev] := semdTable[prev].(next := semdTable[s].next);
      }
      semdTable[s] := semdTable[s].(next := semdFree_h);
      semdFree_h := s;
      ghost var d' := semdTable[..];
      assert LinkAt(d, act, i);
      assert d' == d[prev := d[prev].(next := act[i + 1])][s := d[s].(next := old(semdFree_h))];
      hide Increasing, Linked, OwnsAt, Owned;
      ghost var r := act[..i] + act[i + 1..];
      LinkOut(pcbs.pcbTable[..], d, d', semd_h, old(semdFree_h), act, free, queues, i, r);
      act, free, queues := r, [s] + free, queues - {d[s].semAdd};
    }

    /** insertBlocked: p joins the end of a's queue; TRUE if there is no process or no descriptor for a. */
    method InsertBlocked(a: int, p: int) returns (full: bool)
      requires Valid() && 0 < a < MAXINT
      requires p == NIL || (0 <= p < pcbs.pcbTable.Length && forall c :: c in queues ==> p !in queues[c])
      modifies semdTable, pcbs.pcbTable, this`semdFree_h, this`act, this`free, this`queues
      ensures Valid()
      ensures full <==> p == NIL || (a !in old(queues) && |old(queues)| == semdTable.Length - 2)
      ensures full ==> queues == old(queues) && pcbs.pcbTable[..] == old(pcbs.pcbTable[..])
      ensures !full ==> queues == Enqueued(old(queues), a, p)
      ensures !full ==>
                BlockEdit(old(pcbs.pcbTable[..]), pcbs.pcbTable[..], queues[a], p) && pcbs.pcbTable[p].semAdd == a
    {
      hide Increasing, Linked, Partition, Owns, Apart, Addr;
      if p == NIL {
        return true;
      }
      var s;
      ghost var i;
      s, i := FindSemd(a);
      if s == NIL {
        FreeEmpty();
        if semdFree_h == NIL {
          return true;
        }
        s, i := AddSemd(a);
      } else {
        assert a in queues;
      }
      AddQueue(s, i, p);
      ghost var t := pcbs.pcbTable[..];
      pcbs.pcbTable[p] := pcbs.pcbTable[p].(semAdd := a);
      OwnsFrame(t, pcbs.pcbTable[..], semdTable[..], act, queues);
      full := false;
    }

    /** The free list is empty exactly when every descriptor is active. */
    lemma FreeEmpty()
      requires WellLinked()
      ensures semdFree_h == NIL <==> |queues| == semdTable.Length - 2
    {
      if free != [] {
        assert LinkAt(semdTable[..], free, 0);
      }
    }

    /** insertProcQ on the queue of descriptor s. */
    method AddQueue(s: int, ghost i: nat, p: int)
      requires WellLinked() && 0 < i < |act| - 1 && act[i] == s && 0 <= s < semdTable.Length
      requires 0 <= p < pcbs.pcbTable.Length && semdTable[s].semAdd in queues
      requires forall c :: c in queues ==> p !in queues[c]
      modifies semdTable, pcbs.pcbTable, this`queues
      ensures WellLinked()
      ensures var a := old(semdTable[s].semAdd);
              && queues == old(queues)[a := old(queues)[a] + [p]]
              && QueueEdit(old(pcbs.pcbTable[..]), pcbs.pcbTable[..], old(queues)[a] + [p])
    {
      ghost var t, d, a := pcbs.pcbTable[..], semdTable[..], semdTable[s].semAdd;
      ghost var q := queues[a];
      assert s in act && OwnsAt(t, d, act, queues, i);
      var tail := pcbs.InsertProcQ(semdTable[s].procQ, p, q);
      semdTable[s] := semdTable[s].(procQ := tail);
      ghost var d' := semdTable[..];
      assert d' == d[s := d[s].(procQ := tail)];
      RequeueOwns(t, pcbs.pcbTable[..], d, d', semd_h, act, queues, i, q + [p], q + [p]);
      ListsFrame(d, d', semd_h, semdFree_h, act, free);
      queues := queues[a := q + [p]];
    }

    /** removeProcQ on the queue of descriptor s. */
    method TakeQueue(s: int, ghost i: nat) returns (r: int)
      requires Valid() && 0 < i < |act| - 1 && act[i] == s && 0 <= s < semdTable.Length && semdTable[s].semAdd in queues
      modifies semdTable, pcbs.pcbTable, this`queues
      ensures WellLinked() && semdTable[s].semAdd == old(semdTable[s].semAdd)
      ensures semdTable[s].semAdd in queues && ((semdTable[s].procQ == NIL) == (queues[semdTable[s].semAdd] == []))
      ensures var a := old(semdTable[s].semAdd);
              && r == old(queues)[a][0] && queues == old(queues)[a := old(queues)[a][1..]]
              && 0 <= r < pcbs.pcbTable.Length
              && QueueEdit(old(pcbs.pcbTable[..]), pcbs.pcbTable[..], old(queues)[a])
    {
      ghost var t, d, a := pcbs.pcbTable[..], semdTable[..], semdTable[s].semAdd;
      ghost var q := queues[a];
      assert s in act && OwnsAt(t, d, act, queues, i);
      var tail;
      tail, r := pcbs.RemoveProcQ(semdTable[s].procQ, q);
      semdTable[s] := semdTable[s].(procQ := tail);
      ghost var d' := semdTable[..];
      assert d' == d[s := d[s].(procQ := tail)];
      RequeueOwns(t, pcbs.pcbTable[..], d, d', semd_h, act, queues, i, q[1..], q);
      ListsFrame(d, d', semd_h, semdFree_h, act, free);
      TailProps(q);
      TailNil(pcbs.pcbTable[..], tail, q[1..]);
      queues := queues[a := q[1..]];
    }

    /** outProcQ on the queue of descriptor s. */
    method LeaveQueue(s: int, ghost i: nat, p: int) returns (r: int)
      requires Valid() && 0 < i < |act| - 1 && act[i] == s && 0 <= s < semdTable.Length && semdTable[s].semAdd in queues
      modifies semdTable, pcbs.pcbTable, this`queues
      ensures WellLinked() && semdTable[s].semAdd == old(semdTable[s].semAdd)
      ensures semdTable[s].semAdd in queues && ((semdTable[s].procQ == NIL) == (queues[semdTable[s].semAdd] == []))
      ensures var a := old(semdTable[s].semAdd);
              && r == (if p in old(queues)[a] then p else NIL)
              && queues == old(queues)[a := Without(old(queues)[a], p)]
              && QueueEdit(old(pcbs.pcbTable[..]), pcbs.pcbTable[..], old(queues)[a])
    {
      ghost var t, d, a := pcbs.pcbTable[..], semdTable[..], semdTable[s].semAdd;
      ghost var q := queues[a];
      assert s in act && OwnsAt(t, d, act, queues, i);
      var tail;
      tail, r := pcbs.OutProcQ(semdTable[s].procQ, p, q);
      semdTable[s] := semdTable[s].(procQ := tail);
      ghost var d' := semdTable[..];
      assert d' == d[s := d[s].(procQ := tail)];
      RequeueOwns(t, pcbs.pcbTable[..], d, d', semd_h, act, queues, i, Without(q, p), q);
      ListsFrame(d, d', semd_h, semdFree_h, act, free);
      WithoutProps(q, p);
      TailNil(pcbs.pcbTable[..], tail, Without(q, p));
      queues := queues[a := Without(q, p)];
    }

    /** removeBlocked: the first waiter on a leaves its queue and forgets the semaphore. */
    method RemoveBlocked(a: int) returns (r: int)
      requires Valid() && 0 < a < MAXINT
      modifies semdTable, pcbs.pcbTable, this`semdFree_h, this`act, this`free, this`queues
      ensures Valid()
      ensures a !in old(queues) ==> r == NIL && queues == old(queues) && pcbs.pcbTable[..] == old(pcbs.pcbTable[..])
      ensures a in old(queues) ==>
                && r == old(queues)[a][0] && queues == Requeued(old(queues), a, old(queues)[a][1..])
                && 0 <= r < pcbs.pcbTable.Length && pcbs.pcbTable[r].semAdd == NIL
                && BlockEdit(old(pcbs.pcbTable[..]), pcbs.pcbTable[..], old(queues)[a], r)
    {
      ghost var b, q := queues, if a in queues then queues[a] else [];
      var s;
      ghost var i;
      s, i := FindSemd(a);
      if s == NIL {
        return NIL;
      }
      assert s != NIL && a in queues;
      r := TakeQueue(s, i);
      ghost var t := pcbs.pcbTable[..];
      pcbs.pcbTable[r] := pcbs.pcbTable[r].(semAdd := NIL);
      OwnsFrame(t, pcbs.pcbTable[..], semdTable[..], act, queues);
      if semdTable[s].procQ == NIL {
        DropSemd(s, i);
        assert queues == b - {a};
      }
    }

    /** outBlocked: p leaves the queue of the semaphore it waits on, but keeps its semaphore field. */
    method OutBlocked(p: int) returns (r: int)
      requires Valid()
      requires p != NIL ==> 0 <= p < pcbs.pcbTable.Length
      requires p != NIL && pcbs.pcbTable[p].semAdd != NIL ==> 0 < pcbs.pcbTable[p].semAdd < MAXINT
      modifies semdTable, pcbs.pcbTable, this`semdFree_h, this`act, this`free, this`queues
      ensures Valid()
      ensures p == NIL ==> r == NIL && queues == old(queues) && pcbs.pcbTable[..] == old(pcbs.pcbTable[..])
      ensures p != NIL ==>
                var a := old(pcbs.pcbTable[p].semAdd);
                if a != NIL && a in old(queues) then
                  && r == (if p in old(queues)[a] then p else NIL)
                  && queues == Requeued(old(queues), a, Without(old(queues)[a], p))
                  && QueueEdit(old(pcbs.pcbTable[..]), pcbs.pcbTable[..], old(queues)[a])
                else r == NIL && queues == old(queues) && pcbs.pcbTable[..] == old(pcbs.pcbTable[..])
    {
      if p == NIL || pcbs.pcbTable[p].semAdd == NIL {
        return NIL;
      }
      ghost var b, a := queues, pcbs.pcbTable[p].semAdd;
      var s;
      ghost var i;
      s, i := FindSemd(pcbs.pcbTable[p].semAdd);
      if s == NIL {
        return NIL;
      }
      assert s != NIL && a in queues;
      r := LeaveQueue(s, i, p);
      if r == NIL {
        WithoutAbsent(b[a], p);
        assert queues == b;
        return NIL;
      }
      if semdTable[s].procQ == NIL {
        DropSemd(s, i);
        assert queues == b - {a};
      }
      r := p;
    }

    /** headBlocked: the first waiter on a, which stays. */
    method HeadBlocked(a: int) returns (r: int)
      requires Valid() && 0 < a < MAXINT
      ensures r == if a in queues then queues[a][0] else NIL
    {
      var s;
      ghost var i;
      s, i := FindSemd(a);
      if s == NIL {
        return NIL;
      }
      assert s != NIL && a in queues;
      assert s in act && OwnsAt(pcbs.pcbTable[..], semdTable[..], act, queues, i);
      TailNil(pcbs.pcbTable[..], semdTable[s].procQ, queues[a]);
      if semdTable[s].procQ == NIL {
        return NIL;
      }
      r := pcbs.HeadProcQ(semdTable[s].procQ, queues[a]);
    }
  }

  lemma TailNil(t: seq<Pcb>, tp: int, q: seq<int>)
    requires Ring(t, tp, q)
    ensures tp == NIL <==> q == []
  {
    if q != [] {
      assert RingAt(t, q, |q| - 1);
    }
  }

  lemma ListsFrame(d: seq<Semd>, d': seq<Semd>, h: int, fh: int, act: seq<int>, free: seq<int>)
    requires Lists(d, h, fh, act, free) && |d'| == |d|
    requires forall x :: 0 <= x < |d| ==> d'[x].next == d[x].next && d'[x].semAdd == d[x].semAdd
    ensures Lists(d', h, fh, act, free)
  {
    AddrFrame(d, d', h, act);
    LinkedFrame(d, d', fh, free);
  }

  lemma InsertPartition(n: nat, act: seq<int>, free: seq<int>, i: nat, r: seq<int>)
    requires Partition(n, act, free) && free != [] && Distinct(free) && i <= |act|
    requires r == act[..i] + [free[0]] + act[i..]
    ensures Partition(n, r, free[1..])
  {
    TailProps(free);
    forall x | x in r ensures x !in free[1..] {
      assert x == free[0] || x in act;
    }
  }

  lemma RemovePartition(n: nat, act: seq<int>, free: seq<int>, i: nat, r: seq<int>)
    requires Partition(n, act, free) && Distinct(act) && i < |act| && r == act[..i] + act[i + 1..]
    ensures Partition(n, r, [act[i]] + free)
  {
    WithoutAt(act, i);
    WithoutProps(act, act[i]);
  }

  lemma InitLists(d: seq<Semd>)
    requires |d| >= 3 && d[0].semAdd == 0 && d[0].next == |d| - 1 && d[|d| - 1].semAdd == MAXINT
    requires d[|d| - 1].next == NIL
    requires forall j :: 1 <= j < |d| - 2 ==> d[j].next == j + 1
    requires d[|d| - 2].next == NIL
    ensures Lists(d, 0, 1, [0, |d| - 1], Ids(1, |d| - 1))
  {
    hide Active, Linked, Distinct;
    IdsAt(1, |d| - 1);
    IdsProps(1, |d| - 1);
    InitActive(d, [0, |d| - 1]);
    InitFree(d, Ids(1, |d| - 1));
  }

  lemma InitFree(d: seq<Semd>, free: seq<int>)
    requires |d| >= 3 && free == Ids(1, |d| - 1) && d[|d| - 2].next == NIL
    requires forall j :: 1 <= j < |d| - 2 ==> d[j].next == j + 1
    ensures Linked(d, 1, free)
  {
    IdsAt(1, |d| - 1);
    IdsProps(1, |d| - 1);
    hide Ids;
    forall i | 0 <= i < |free| ensures LinkAt(d, free, i) {
      assert free[i] == i + 1;
    }
    assert free[0] == 1;
  }

  lemma InitActive(d: seq<Semd>, act: seq<int>)
    requires |d| >= 3 && d[0].semAdd == 0 && d[0].next == |d| - 1 && d[|d| - 1].semAdd == MAXINT
    requires d[|d| - 1].next == NIL
    requires act == [0, |d| - 1]
    ensures Active(d, 0, act)
  {
    assert act[0] == 0 && act[1] == |d| - 1;
    assert LinkAt(d, act, 0) && LinkAt(d, act, 1);
  }
}
