/**
 * delayDaemon.c: the Active Delay List, sorted by wake time before a dummy tail, and the free descriptors. It refines
 * a sorted sequence of sleeps.
 */
module DelayList {
  import opened Sequences

  const SECOND := 1_000_000

  /** A process, known by its support structure, and the time to wake it. */
  datatype Sleep = Sleep(wake: int, sup: int)

  datatype Delayd = Delayd(next: int, wake: int, sup: int)

  // ----- sorted sequences of sleeps -----

  ghost predicate Sorted(l: seq<Sleep>) {
    forall i, j :: 0 <= i < j < |l| ==> l[i].wake <= l[j].wake
  }

  /** x goes before the first sleep that is not due earlier. */
  function Inserted(l: seq<Sleep>, x: Sleep): (r: seq<Sleep>)
    ensures |r| == |l| + 1
  {
    if l == [] || l[0].wake >= x.wake then [x] + l else [l[0]] + Inserted(l[1..], x)
  }

  /** How many sleeps at the front are due at t. */
  function Due(l: seq<Sleep>, t: int): (n: nat)
    ensures n <= |l|
    ensures forall i :: 0 <= i < n ==> l[i].wake <= t
    ensures n < |l| ==> l[n].wake > t
  {
    if l == [] || l[0].wake > t then 0
    else
      var n := Due(l[1..], t);
      assert forall i :: 0 < i < n + 1 ==> l[i] == l[1..][i - 1];
      1 + n
  }

  lemma {:induction false} InsertedAt(l: seq<Sleep>, x: Sleep, i: nat)
    requires i <= |l| && (forall j :: 0 <= j < i ==> l[j].wake < x.wake) && (i < |l| ==> l[i].wake >= x.wake)
    ensures Inserted(l, x) == l[..i] + [x] + l[i..]
  {
    if i == 0 {
      assert l[..0] + [x] + l[0..] == [x] + l;
    } else {
      var t := l[1..];
      InsertedAt(t, x, i - 1);
      var r := Inserted(t, x);
      assert Inserted(l, x) == [l[0]] + r;
      hide Inserted;
      assert t[..i - 1] == l[1..i] && t[i - 1..] == l[i..];
      assert r == l[1..i] + [x] + l[i..];
      assert l[..i] == [l[0]] + l[1..i];
      assert [l[0]] + r == [l[0]] + l[1..i] + [x] + l[i..];
    }
  }

  lemma SortedInsert(l: seq<Sleep>, x: Sleep, i: nat, r: seq<Sleep>)
    requires Sorted(l) && i <= |l|
    requires (forall j :: 0 <= j < i ==> l[j].wake < x.wake) && (i < |l| ==> l[i].wake >= x.wake)
    requires r == l[..i] + [x] + l[i..]
    ensures Sorted(r)
  {
    forall j, m | 0 <= j < m < |r| ensures r[j].wake <= r[m].wake {
      assert j != i ==> r[j] == l[if j < i then j else j - 1];
      assert m != i ==> r[m] == l[if m < i then m else m - 1];
    }
  }

  /** The place of x: behind everything that is due earlier. */
  function Place(l: seq<Sleep>, x: Sleep): (i: nat)
    ensures i <= |l| && (forall j :: 0 <= j < i ==> l[j].wake < x.wake) && (i < |l| ==> l[i].wake >= x.wake)
  {
    if l == [] || l[0].wake >= x.wake then 0
    else
      var i := Place(l[1..], x);
      assert forall j :: 0 < j < i + 1 ==> l[j] == l[1..][j - 1];
      1 + i
  }

  /** Insertion keeps the order and adds x to what was there. */
  lemma InsertedSorted(l: seq<Sleep>, x: Sleep)
    requires Sorted(l)
    ensures Sorted(Inserted(l, x)) && multiset(Inserted(l, x)) == multiset(l) + multiset{x}
  {
    var i := Place(l, x);
    InsertedAt(l, x, i);
    SortedInsert(l, x, i, Inserted(l, x));
    hide Sorted, Inserted, Place;
    InsertedOnce(l, x, i, Inserted(l, x));
  }

  lemma InsertedOnce(l: seq<Sleep>, x: Sleep, i: nat, r: seq<Sleep>)
    requires i <= |l| && r == l[..i] + [x] + l[i..]
    ensures multiset(r) == multiset(l) + multiset{x}
  {
    assert l == l[..i] + l[i..];
  }

  /** In a sorted list the sleeps due at t are exactly those at the front. */
  lemma DueExact(l: seq<Sleep>, t: int, i: nat)
    requires Sorted(l) && i < |l|
    ensures i < Due(l, t) <==> l[i].wake <= t
  {
  }

  // ----- wake times -----

  /** Signed 32-bit wrap-around. */
  function Wrap(x: int): int { (x + 0x8000_0000) % 0x1_0000_0000 - 0x8000_0000 }

  /** currTime + (secCnt * SECOND) in C's int. */
  function WakeTime(now: int, sec: int): (w: int)
    ensures w <= MAXINT
  {
    Wrap(now + Wrap(sec * SECOND))
  }

  /**
   * The stored wake time is the time the caller asked for exactly when that time fits in an int; otherwise it is an
   * earlier time, and the process wakes too soon.
   */
  lemma WakeTimeExact(now: int, sec: int)
    requires 0 <= now <= MAXINT && 0 <= sec <= MAXINT
    ensures WakeTime(now, sec) == now + sec * SECOND <==> now + sec * SECOND <= MAXINT
    ensures now + sec * SECOND > MAXINT ==> WakeTime(now, sec) < now + sec * SECOND
  {
    var x := sec * SECOND;
    WrapSum(now, x);
    WrapRange(now + x);
  }

  lemma WrapSum(a: int, b: int)
    ensures Wrap(a + Wrap(b)) == Wrap(a + b)
  {
    var q := (b + 0x8000_0000) / 0x1_0000_0000;
    assert Wrap(b) == b - q * 0x1_0000_0000;
    WrapShift(a + b, -q);
  }

  lemma WrapShift(x: int, q: int)
    ensures Wrap(x + q * 0x1_0000_0000) == Wrap(x)
  {
    var m := 0x1_0000_0000;
    var y := x + 0x8000_0000;
    assert (y + q * m) == m * (y / m + q) + y % m;
  }

  lemma WrapRange(x: int)
    requires x >= 0
    ensures x <= MAXINT ==> Wrap(x) == x
    ensures x > MAXINT ==> Wrap(x) < x
  {
  }

  /** 2148 seconds asked for at time 0 are stored as a time in the past. */
  lemma LongDelayWraps()
    ensures WakeTime(0, 2148) < 0
  {
  }

  // ----- linked lists of descriptors -----

  ghost predicate InTable(s: seq<int>, n: nat) {
    forall i :: 0 <= i < |s| ==> 0 <= s[i] < n
  }

  ghost predicate LinkAt(d: seq<Delayd>, s: seq<int>, i: int)
    requires 0 <= i < |s|
  {
    0 <= s[i] < |d| && d[s[i]].next == if i + 1 < |s| then s[i + 1] else NIL
  }

  ghost predicate Linked(d: seq<Delayd>, h: int, s: seq<int>) {
    && Distinct(s) && InTable(s, |d|)
    && h == (if s == [] then NIL else s[0])
    && forall i {:trigger LinkAt(d, s, i)} :: 0 <= i < |s| ==> LinkAt(d, s, i)
  }

  lemma LinkedFrame(d: seq<Delayd>, d': seq<Delayd>, h: int, s: seq<int>)
    requires Linked(d, h, s) && |d'| == |d| && forall x :: x in s && 0 <= x < |d| ==> d'[x].next == d[x].next
    ensures Linked(d', h, s)
  {
    forall i | 0 <= i < |s| ensures LinkAt(d', s, i) {
      var x := s[i];
      assert LinkAt(d, s, i) && x in s;
    }
  }

  lemma LinkedPop(d: seq<Delayd>, h: int, s: seq<int>)
    requires Linked(d, h, s) && s != []
    ensures 0 <= h < |d| && Linked(d, d[h].next, s[1..])
  {
    TailProps(s);
    assert LinkAt(d, s, 0);
    forall i | 0 <= i < |s[1..]| ensures LinkAt(d, s[1..], i) {
      assert LinkAt(d, s, i + 1);
    }
  }

  lemma LinkedPush(d: seq<Delayd>, d': seq<Delayd>, h: int, s: seq<int>, x: int)
    requires Linked(d, h, s) && 0 <= x < |d| && x !in s && |d'| == |d| && d'[x].next == h
    requires forall y :: 0 <= y < |d| && y != x ==> d'[y].next == d[y].next
    ensures Linked(d', x, [x] + s)
  {
    var r := [x] + s;
    ConsProps(x, s);
    forall i | 0 <= i < |r| ensures LinkAt(d', r, i) {
      if i > 0 {
        var y := s[i - 1];
        assert LinkAt(d, s, i - 1) && y in s;
      }
    }
  }

  /** x is linked in before the i-th element. */
  lemma LinkedInsert(d: seq<Delayd>, d': seq<Delayd>, h: int, h': int, s: seq<int>, i: nat, x: int, r: seq<int>)
    requires Linked(d, h, s) && i < |s| && 0 <= x < |d| && x !in s && |d'| == |d| && r == s[..i] + [x] + s[i..]
    requires d'[x].next == s[i]
    requires if i == 0 then h' == x else h' == h && 0 <= s[i - 1] < |d| && d'[s[i - 1]].next == x
    requires forall y :: 0 <= y < |d| && y != x && (i > 0 ==> y != s[i - 1]) ==> d'[y].next == d[y].next
    ensures Linked(d', h', r)
  {
    InsertProps(s, i, x, r);
    hide Distinct;
    forall j | 0 <= j < |r| ensures LinkAt(d', r, j) {
      if j != i {
        var n := if j < i then j else j - 1;
        var y := s[n];
        assert LinkAt(d, s, n) && r[j] == y && y in s;
      }
    }
  }

  /** The sleeps recorded in the first n descriptors of s. */
  ghost function SleepsTo(d: seq<Delayd>, s: seq<int>, n: nat): (r: seq<Sleep>)
    requires InTable(s, |d|) && n <= |s|
    ensures |r| == n
    ensures forall i {:trigger r[i]} :: 0 <= i < n ==> r[i] == Sleep(d[s[i]].wake, d[s[i]].sup)
  {
    if n == 0 then [] else SleepsTo(d, s, n - 1) + [Sleep(d[s[n - 1]].wake, d[s[n - 1]].sup)]
  }

  ghost function SleepsIn(d: seq<Delayd>, s: seq<int>): seq<Sleep>
    requires InTable(s, |d|)
  {
    SleepsTo(d, s, |s|)
  }

  lemma SleepsFrame(d: seq<Delayd>, d': seq<Delayd>, s: seq<int>)
    requires InTable(s, |d|) && |d'| == |d|
    requires forall x :: x in s && 0 <= x < |d| ==> d'[x].wake == d[x].wake && d'[x].sup == d[x].sup
    ensures SleepsIn(d', s) == SleepsIn(d, s)
  {
    forall i | 0 <= i < |s| ensures SleepsIn(d', s)[i] == SleepsIn(d, s)[i] {
      var x := s[i];
      assert x in s;
    }
    assert SleepsIn(d', s) == SleepsIn(d, s);
  }

  lemma SleepsInsert(d: seq<Delayd>, s: seq<int>, i: nat, x: int, r: seq<int>)
    requires InTable(s, |d|) && i <= |s| && 0 <= x < |d| && r == s[..i] + [x] + s[i..]
    ensures InTable(r, |d|)
    ensures var l := SleepsIn(d, s); SleepsIn(d, r) == l[..i] + [Sleep(d[x].wake, d[x].sup)] + l[i..]
  {
    var l, l' := SleepsIn(d, s), SleepsIn(d, r);
    var e := l[..i] + [Sleep(d[x].wake, d[x].sup)] + l[i..];
    forall j | 0 <= j < |r| ensures l'[j] == e[j] {
      assert j != i ==> r[j] == s[if j < i then j else j - 1];
    }
    assert l' == e;
  }

  lemma SleepsTail(d: seq<Delayd>, s: seq<int>)
    requires InTable(s, |d|) && s != []
    ensures InTable(s[1..], |d|) && SleepsIn(d, s[1..]) == SleepsIn(d, s)[1..]
  {
    assert SleepsIn(d, s[1..]) == SleepsIn(d, s)[1..];
  }

  /** act is the sorted list with the dummy at its end, and free holds other descriptors. */
  ghost predicate Listed(d: seq<Delayd>, h: int, fh: int, act: seq<int>, free: seq<int>) {
    && Linked(d, h, act) && Linked(d, fh, free) && Disjoint(act, free)
    && act != [] && |d| > 0 && act[|act| - 1] == |d| - 1 && d[|d| - 1].wake == MAXINT && d[|d| - 1].sup == NIL
    && Sorted(SleepsIn(d, act)) && (forall i :: 0 <= i < |act| - 1 ==> SleepsIn(d, act)[i].sup != NIL)
  }

  /** A descriptor leaves the free list and is filled in. */
  lemma TakeListed(d: seq<Delayd>, d': seq<Delayd>, h: int, fh: int, act: seq<int>, free: seq<int>)
    requires Listed(d, h, fh, act, free) && free != []
    requires 0 <= fh < |d| == |d'| && d' == d[fh := d'[fh].(next := d[fh].next)]
    ensures Listed(d', h, d[fh].next, act, free[1..]) && SleepsIn(d', act) == SleepsIn(d, act)
    ensures fh !in act && fh !in free[1..]
  {
    TailProps(free);
    assert fh in free && fh !in act && act[|act| - 1] in act;
    LinkedPop(d, fh, free);
    LinkedFrame(d, d', h, act);
    LinkedFrame(d, d', d[fh].next, free[1..]);
    SleepsFrame(d, d', act);
  }

  /** What linking descriptor x in before the i-th element does to the table. */
  ghost predicate Spliced(d: seq<Delayd>, d': seq<Delayd>, h: int, h': int, act: seq<int>, i: nat, x: int)
    requires i < |act| && 0 <= x < |d|
  {
    && |d'| == |d| && d'[x] == d[x].(next := act[i])
    && (if i == 0 then h' == x else h' == h && 0 <= act[i - 1] < |d| && d'[act[i - 1]] == d[act[i - 1]].(next := x))
    && (forall y :: 0 <= y < |d| && y != x && (i > 0 ==> y != act[i - 1]) ==> d'[y] == d[y])
  }

  lemma InsertLists(d: seq<Delayd>, d': seq<Delayd>, h: int, h': int, fh: int, act: seq<int>, free: seq<int>,
      i: nat, x: int,
                    r: seq<int>)
    requires Linked(d, h, act) && Linked(d, fh, free) && Disjoint(act, free) && i < |act| && 0 <= x < |d|
    requires x !in act && x !in free && Spliced(d, d', h, h', act, i, x) && r == act[..i] + [x] + act[i..]
    ensures Linked(d', h', r) && Linked(d', fh, free) && Disjoint(r, free)
  {
    assert i > 0 ==> act[i - 1] in act;
    LinkedInsert(d, d', h, h', act, i, x, r);
    InsertProps(act, i, x, r);
    forall y | y in free && 0 <= y < |d| ensures d'[y].next == d[y].next {
      assert i > 0 ==> y != act[i - 1];
    }
    LinkedFrame(d, d', fh, free);
  }

  lemma InsertOrder(d: seq<Delayd>, d': seq<Delayd>, h: int, h': int, act: seq<int>, i: nat, x: int, r: seq<int>)
    requires InTable(act, |d|) && i < |act| && 0 <= x < |d| && x !in act && Spliced(d, d', h, h', act, i, x)
    requires r == act[..i] + [x] + act[i..]
    ensures InTable(r, |d'|)
    ensures var l := SleepsIn(d, act); SleepsIn(d', r) == l[..i] + [Sleep(d[x].wake, d[x].sup)] + l[i..]
  {
    SleepsFrame(d, d', act);
    SleepsInsert(d', act, i, x, r);
  }

  /** The filled-in descriptor x joins the list before its i-th element. */
  lemma InsertListed(d: seq<Delayd>, d': seq<Delayd>, h: int, h': int, fh: int, act: seq<int>, free: seq<int>,
      i: nat, x: int)
    requires Listed(d, h, fh, act, free) && i < |act| && 0 <= x < |d| && x !in act && x !in free && d[x].sup != NIL
    requires (forall j :: 0 <= j < i ==> SleepsIn(d, act)[j].wake < d[x].wake) && SleepsIn(d, act)[i].wake >= d[x].wake
    requires Spliced(d, d', h, h', act, i, x)
    ensures var r := act[..i] + [x] + act[i..];
            && Listed(d', h', fh, r, free)
            && SleepsIn(d', r)[..|r| - 1] == Inserted(SleepsIn(d, act)[..|act| - 1], Sleep(d[x].wake, d[x].sup))
  {
    var r, l, s := act[..i] + [x] + act[i..], SleepsIn(d, act), Sleep(d[x].wake, d[x].sup);
    assert act[|act| - 1] in act;
    hide Sorted, Inserted, Distinct, LinkAt, Disjoint;
    InsertLists(d, d', h, h', fh, act, free, i, x, r);
    InsertOrder(d, d', h, h', act, i, x, r);
    InsertFacts(l, s, i, SleepsIn(d', r));
    SupsKept(l, s, i, SleepsIn(d', r));
  }

  lemma SupsKept(l: seq<Sleep>, x: Sleep, i: nat, r: seq<Sleep>)
    requires i < |l| && r == l[..i] + [x] + l[i..] && x.sup != NIL && forall j :: 0 <= j < |l| - 1 ==> l[j].sup != NIL
    ensures forall j :: 0 <= j < |r| - 1 ==> r[j].sup != NIL
  {
    forall j | 0 <= j < |r| - 1 ensures r[j].sup != NIL {
      assert j != i ==> r[j] == l[if j < i then j else j - 1];
    }
  }

  class DelayTable {
    const table: array<Delayd>
    var delayd_h: int
    var delaydFree_h: int
    ghost var act: seq<int>
    ghost var free: seq<int>

    ghost predicate Valid()
      reads this, table
    {
      Listed(table[..], delayd_h, delaydFree_h, act, free) && |act| + |free| == table.Length
    }

    /** The sleeps on the list, first to wake first, without the dummy. */
    ghost function Sleeps(): seq<Sleep>
      requires Valid()
      reads this, table
    {
      SleepsIn(table[..], act)[..|act| - 1]
    }

    /** initADL: the dummy alone on the list, every other descriptor free. */
    constructor (size: nat)
      requires size >= 1
      ensures Valid() && fresh(table) && table.Length == size && Sleeps() == [] && |free| == size - 1
    {
      table := new Delayd[size];
      delayd_h, delaydFree_h := NIL, NIL;
      new;
      free := [];
      var i := 0;
      while i < size - 1
        invariant 0 <= i <= size - 1 && Linked(table[..], delaydFree_h, free) && |free| == i
        invariant forall x :: x in free ==> 0 <= x < i
      {
        ghost var d := table[..];
        table[i] := table[i].(next := delaydFree_h);
        LinkedPush(d, table[..], delaydFree_h, free, i);
        delaydFree_h := i;
        free := [i] + free;
        i := i + 1;
      }
      ghost var d := table[..];
      var dummy := size - 1;
      table[dummy] := Delayd(NIL, MAXINT, NIL);
      delayd_h := dummy;
      act := [dummy];
      LinkedFrame(d, table[..], delaydFree_h, free);
      assert LinkAt(table[..], act, 0);
    }

    /**
     * The part of supDelay that runs under the list lock: a descriptor for sup goes into the list. Reports failure if
     * there is no free descriptor.
     */
    method Insert(sup: int, now: int, sec: int) returns (ok: bool)
      requires Valid() && sup != NIL
      modifies this, table
      ensures Valid()
      ensures ok <==> |old(act)| < table.Length
      ensures Sleeps() == if ok then Inserted(old(Sleeps()), Sleep(WakeTime(now, sec), sup)) else old(Sleeps())
      ensures |act| == |old(act)| + if ok then 1 else 0
    {
      assert free != [] ==> LinkAt(table[..], free, 0);
      if delaydFree_h == NIL {
        return false;
      }
      hide Linked, Sorted, SleepsIn, Inserted, Distinct, Disjoint, WakeTime;
      var node := TakeNode(sup, WakeTime(now, sec));
      LinkNode(node);
      ok := true;
    }

    /** A descriptor leaves the free list and is filled in. */
    method TakeNode(sup: int, wake: int) returns (node: int)
      requires Valid() && free != [] && 0 <= delaydFree_h < table.Length
      modifies table, this`delaydFree_h, this`free
      ensures Listed(table[..], delayd_h, delaydFree_h, act, free) && |act| + |free| + 1 == table.Length
      ensures 0 <= node < table.Length && node !in act && node !in free
      ensures table[node].wake == wake && table[node].sup == sup
      ensures SleepsIn(table[..], act) == old(SleepsIn(table[..], act))
    {
      ghost var d := table[..];
      node := delaydFree_h;
      delaydFree_h := table[node].next;
      table[node] := table[node].(wake := wake);
      table[node] := table[node].(sup := sup);
      TakeListed(d, table[..], delayd_h, node, act, free);
      free := free[1..];
    }

    /** Insertion through the pointer to a pointer: the new descriptor goes where the search stopped. */
    method LinkNode(node: int)
      requires Listed(table[..], delayd_h, delaydFree_h, act, free) && |act| + |free| + 1 == table.Length
      requires 0 <= node < table.Length && node !in act && node !in free
      requires table[node].sup != NIL && table[node].wake <= MAXINT
      modifies table, this`delayd_h, this`act
      ensures Valid() && |act| == |old(act)| + 1
      ensures Sleeps() == Inserted(old(SleepsIn(table[..], act)[..|act| - 1]),
               old(Sleep(table[node].wake, table[node].sup)))
    {
      ghost var d, h := table[..], delayd_h;
      var prev, i := FindPlace(table[node].wake);
      assert LinkAt(d, act, 0) && LinkAt(d, act, i);
      assert i > 0 ==> LinkAt(d, act, i - 1) && act[i - 1] in act;
      hide Linked, Sorted, SleepsIn, Inserted, Distinct, Disjoint;
      table[node] := table[node].(next := if prev == NIL then delayd_h else table[prev].next);
      if prev == NIL {
        delayd_h := node;
      } else {
        table[prev] := table[prev].(next := node);
      }
      assert Spliced(d, table[..], h, delayd_h, act, i, node);
      InsertListed(d, table[..], h, delayd_h, delaydFree_h, act, free, i, node);
      act := act[..i] + [node] + act[i..];
    }

    /** The search of supDelay: the place before the first descriptor that is not due earlier; the dummy stops it. */
    method FindPlace(wake: int) returns (prev: int, ghost i: nat)
      requires Linked(table[..], delayd_h, act) && act != [] && wake <= MAXINT
      requires 0 <= act[|act| - 1] < table.Length && table[act[|act| - 1]].wake == MAXINT
      ensures i < |act| && prev == (if i == 0 then NIL else act[i - 1]) && (i > 0 ==> 0 <= prev < table.Length)
      ensures forall j :: 0 <= j < i ==> SleepsIn(table[..], act)[j].wake < wake
      ensures SleepsIn(table[..], act)[i].wake >= wake
    {
      ghost var d := table[..];
      prev, i := NIL, 0;
      var cur := delayd_h;
      assert LinkAt(d, act, 0);
      while table[cur].wake < wake
        invariant 0 <= i < |act| && cur == act[i] && 0 <= cur < |d|
        invariant prev == (if i == 0 then NIL else act[i - 1]) && (i > 0 ==> 0 <= prev < |d|)
        invariant forall j :: 0 <= j < i ==> SleepsIn(d, act)[j].wake < wake
        decreases |act| - i
      {
        assert LinkAt(d, act, i) && i < |act| - 1;
        assert LinkAt(d, act, i + 1);
        prev := cur;
        cur := table[cur].next;
        i := i + 1;
      }
    }

    /** One round of the daemon's loop: the head goes back to the free list. */
    method ExpireHead()
      requires Valid() && |act| >= 2
      modifies this, table
      ensures Valid() && Sleeps() == old(Sleeps())[1..] && |act| == |old(act)| - 1
    {
      ghost var d, l := table[..], SleepsIn(table[..], act);
      LinkedPop(d, delayd_h, act);
      SleepsTail(d, act);
      TailProps(act);
      assert LinkAt(d, act, 0) && act[|act| - 1] in act[1..];
      var expired := delayd_h;
      var curr := table[expired].next;
      delayd_h := curr;
      table[expired] := table[expired].(next := delaydFree_h);
      ghost var d' := table[..];
      LinkedFrame(d, d', curr, act[1..]);
      SleepsFrame(d, d', act[1..]);
      LinkedPush(d, d', delaydFree_h, free, expired);
      delaydFree_h := expired;
      free := [expired] + free;
      act := act[1..];
    }

    /** The daemon's pass at time t: every sleeper that is due is signalled, earliest first, and leaves the list. */
    method Sweep(t: int) returns (woken: seq<int>)
      requires Valid()
      modifies this, table
      ensures Valid() && Sleeps() == old(Sleeps())[Due(old(Sleeps()), t)..]
      ensures |woken| == Due(old(Sleeps()), t) && forall i :: 0 <= i < |woken| ==> woken[i] == old(Sleeps())[i].sup
    {
      ghost var l, n := Sleeps(), 0;
      woken := [];
      var curr := delayd_h;
      HeadFacts();
      while curr != NIL && table[curr].sup != NIL && table[curr].wake <= t
        invariant Valid() && curr == delayd_h && 0 <= curr < table.Length
        invariant 0 <= n <= |l| && Sleeps() == l[n..] && |woken| == n
        invariant forall i :: 0 <= i < n ==> woken[i] == l[i].sup
        invariant forall i :: 0 <= i < n ==> l[i].wake <= t
        invariant if n == |l| then table[curr].sup == NIL else Sleep(table[curr].wake, table[curr].sup) == l[n]
        decreases |l| - n
      {
        hide Linked, Sorted, SleepsIn, Listed, Due;
        woken := woken + [table[curr].sup];
        ExpireHead();
        n := n + 1;
        curr := delayd_h;
        HeadFacts();
      }
      DueIs(l, t, n);
    }

    /** The head of the list is the first sleep, or the dummy. */
    lemma HeadFacts()
      requires Valid()
      ensures 0 <= delayd_h < table.Length
      ensures |act| == |Sleeps()| + 1
      ensures if Sleeps() == [] then table[delayd_h].sup == NIL
              else Sleeps()[0] == Sleep(table[delayd_h].wake, table[delayd_h].sup)
    {
      assert LinkAt(table[..], act, 0);
      assert SleepsIn(table[..], act)[0] == Sleep(table[delayd_h].wake, table[delayd_h].sup);
    }
  }

  lemma DueIs(l: seq<Sleep>, t: int, n: nat)
    requires n <= |l| && (forall i :: 0 <= i < n ==> l[i].wake <= t) && (n < |l| ==> l[n].wake > t)
    ensures Due(l, t) == n
  {
  }

  /** l is a list with the dummy at its end. */
  lemma InsertFacts(l: seq<Sleep>, x: Sleep, i: nat, r: seq<Sleep>)
    requires Sorted(l) && i < |l| && (forall j :: 0 <= j < i ==> l[j].wake < x.wake) && l[i].wake >= x.wake
    requires r == l[..i] + [x] + l[i..]
    ensures Sorted(r) && r[..|r| - 1] == Inserted(l[..|l| - 1], x) && r[|r| - 1] == l[|l| - 1]
  {
    SortedInsert(l, x, i, r);
    InsertLast(l, x, i, r);
    InsertedAt(l[..|l| - 1], x, i);
    hide Sorted, Inserted;
  }

  lemma InsertLast<T>(l: seq<T>, x: T, i: nat, r: seq<T>)
    requires i < |l| && r == l[..i] + [x] + l[i..]
    ensures r[..|r| - 1] == l[..|l| - 1][..i] + [x] + l[..|l| - 1][i..] && r[|r| - 1] == l[|l| - 1]
  {
    var m := l[..|l| - 1];
    assert m[..i] == l[..i];
    assert m[i..] == l[i..][..|l| - 1 - i];
  }
}
