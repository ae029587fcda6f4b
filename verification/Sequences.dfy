/** The C constants and small facts about finite sequences of table indices that every component shares. */
module Sequences {

  /** The null pointer: no table entry has this index. */
  const NIL := -1

  /** The largest C int. */
  const MAXINT := 0x7FFF_FFFF

  ghost predicate Distinct(s: seq<int>) {
    forall i, j :: 0 <= i < j < |s| ==> s[i] != s[j]
  }

  ghost predicate Within(s: seq<int>, n: int) {
    forall x :: x in s ==> 0 <= x < n
  }

  ghost predicate Disjoint(s: seq<int>, t: seq<int>) {
    forall x :: x in s ==> x !in t
  }

  function Elems(s: seq<int>): set<int> {
    set x | x in s
  }

  /** The sequence with the first occurrence of x taken out. */
  function Without(s: seq<int>, x: int): seq<int> {
    if s == [] then [] else if s[0] == x then s[1..] else [s[0]] + Without(s[1..], x)
  }

  /** The subsequence of elements outside a set, in the same order. */
  function Keep(s: seq<int>, dead: set<int>): seq<int> {
    if s == [] then [] else (if s[0] in dead then [] else [s[0]]) + Keep(s[1..], dead)
  }

  function Reversed(s: seq<int>): seq<int> {
    if s == [] then [] else Reversed(s[1..]) + [s[0]]
  }

  lemma {:induction false} WithoutAbsent(s: seq<int>, x: int)
    requires x !in s
    ensures Without(s, x) == s
  {
    if s != [] {
      WithoutAbsent(s[1..], x);
    }
  }

  lemma {:induction false} WithoutAt(s: seq<int>, i: nat)
    requires i < |s| && Distinct(s)
    ensures Without(s, s[i]) == s[..i] + s[i + 1..]
  {
    if i > 0 {
      WithoutAt(s[1..], i - 1);
      assert s[1..][..i - 1] == s[1..i];
      assert s[1..][i..] == s[i + 1..];
      assert [s[0]] + (s[1..i] + s[i + 1..]) == s[..i] + s[i + 1..];
    }
  }

  lemma WithoutProps(s: seq<int>, x: int)
    requires Distinct(s)
    ensures Distinct(Without(s, x)) && x !in Without(s, x)
    ensures forall y :: y in Without(s, x) <==> y in s && y != x
    ensures |Without(s, x)| == if x in s then |s| - 1 else |s|
  {
    if x in s {
      var i :| 0 <= i < |s| && s[i] == x;
      WithoutAt(s, i);
      var r := s[..i] + s[i + 1..];
      forall y ensures y in r <==> y in s && y != x {
        if y in s && y != x {
          var j :| 0 <= j < |s| && s[j] == y;
          assert y == r[if j < i then j else j - 1];
        }
      }
    } else {
      WithoutAbsent(s, x);
    }
  }

  lemma {:induction false} KeepProps(s: seq<int>, dead: set<int>)
    ensures forall y :: y in Keep(s, dead) <==> y in s && y !in dead
  {
    if s != [] {
      KeepProps(s[1..], dead);
    }
  }

  lemma {:induction false} KeepAll(s: seq<int>, dead: set<int>)
    requires forall y :: y in s ==> y !in dead
    ensures Keep(s, dead) == s
  {
    if s != [] {
      var x := s[0];
      assert x in s && s == [x] + s[1..];
      KeepAll(s[1..], dead);
    }
  }

  lemma {:induction false} KeepExtra(s: seq<int>, x: int, dead: set<int>)
    requires x !in s
    ensures Keep(s, dead) == Keep(s, dead + {x})
  {
    if s != [] {
      KeepExtra(s[1..], x, dead);
    }
  }

  lemma DistinctConcat(s: seq<int>, t: seq<int>)
    requires Distinct(s) && Distinct(t) && Disjoint(s, t)
    ensures Distinct(s + t)
  {
    var r := s + t;
    forall i, j | 0 <= i < j < |r| ensures r[i] != r[j] {
      if i < |s| <= j {
        assert s[i] in s && t[j - |s|] in t;
      }
    }
  }

  /** A sequence without repetitions has as many elements as it has positions. */
  lemma {:induction false} CardDistinct(s: seq<int>)
    requires Distinct(s)
    ensures |Elems(s)| == |s|
  {
    if s == [] {
      assert Elems(s) == {};
    } else {
      CardDistinct(s[1..]);
      assert Elems(s) == Elems(s[1..]) + {s[0]};
    }
  }

  lemma {:induction false} ReversedAppend(s: seq<int>, x: int)
    ensures Reversed(s + [x]) == [x] + Reversed(s)
  {
    if s == [] {
      assert s + [x] == [x];
    } else {
      ReversedAppend(s[1..], x);
      assert (s + [x])[1..] == s[1..] + [x];
    }
  }

  lemma PrefixWithin(s: seq<int>, n: int, i: nat)
    requires i <= |s| && Within(s, n)
    ensures Within(s[..i], n)
    ensures i < |s| ==> 0 <= s[i] < n
  {
    forall x | x in s[..i] ensures 0 <= x < n {
      var j :| 0 <= j < i && s[..i][j] == x;
      assert s[j] == x && x in s;
    }
    if i < |s| {
      var x := s[i];
      assert x in s;
    }
  }

  lemma TailProps(s: seq<int>)
    requires s != [] && Distinct(s)
    ensures Distinct(s[1..]) && s[0] !in s[1..] && s[0] in s
    ensures forall x :: x in s[1..] <==> x in s && x != s[0]
  {
    var h := s[0];
    assert s == [h] + s[1..];
    assert h in s;
  }

  lemma AppendProps(s: seq<int>, x: int)
    requires Distinct(s) && x !in s
    ensures Distinct(s + [x])
    ensures forall y :: y in s + [x] <==> y in s || y == x
  {
    DistinctConcat(s, [x]);
  }

  lemma ConsProps(x: int, s: seq<int>)
    requires Distinct(s) && x !in s
    ensures Distinct([x] + s)
    ensures forall y :: y in [x] + s <==> y in s || y == x
  {
    DistinctConcat([x], s);
  }

  lemma InsertProps(s: seq<int>, i: nat, x: int, r: seq<int>)
    requires Distinct(s) && x !in s && i <= |s| && r == s[..i] + [x] + s[i..]
    ensures Distinct(r) && forall y :: y in r <==> y in s || y == x
  {
    assert s == s[..i] + s[i..];
    forall j, m | 0 <= j < m < |r| ensures r[j] != r[m] {
      assert j != i ==> r[j] == s[if j < i then j else j - 1] && r[j] in s;
      assert m != i ==> r[m] == s[if m < i then m else m - 1] && r[m] in s;
    }
  }

  /** The first n table indices. */
  function Range(n: nat): (r: set<int>)
    ensures forall x :: x in r <==> 0 <= x < n
    ensures |r| == n
  {
    if n == 0 then {} else Range(n - 1) + {n - 1}
  }

  /** The indices from lo up to hi. */
  function Ids(lo: nat, hi: nat): seq<int>
    decreases hi - lo
  {
    if lo >= hi then [] else [lo] + Ids(lo + 1, hi)
  }

  lemma {:induction false} IdsProps(lo: nat, hi: nat)
    ensures |Ids(lo, hi)| == (if lo < hi then hi - lo else 0)
    ensures Distinct(Ids(lo, hi)) && forall x :: x in Ids(lo, hi) <==> lo <= x < hi
    decreases hi - lo
  {
    if lo < hi {
      IdsProps(lo + 1, hi);
      ConsProps(lo, Ids(lo + 1, hi));
    }
  }

  /** Different numbers below n: at most n of them. */
  lemma DistinctBound(s: seq<int>, n: nat)
    requires Distinct(s) && forall i :: 0 <= i < |s| ==> 0 <= s[i] < n
    ensures |s| <= n
  {
    IdsProps(0, n);
    CardDistinct(s);
    CardDistinct(Ids(0, n));
    var all, some := Elems(Ids(0, n)), Elems(s);
    assert all == some + (all - some);
  }
}
