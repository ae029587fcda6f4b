/**
 * The words of deviceSupportDMA.c as the C code makes and reads them, with shifts, masks and bitwise or: they are the
 * numbers of DiskAddress.dfy.
 */
module DiskWords {
  import opened DiskAddress

  // ----- C's operators on nonnegative numbers, bit by bit -----

  function Pow2(n: nat): (r: nat)
    ensures r > 0
  {
    if n == 0 then 1 else 2 * Pow2(n - 1)
  }

  function And(a: nat, b: nat): nat {
    if a == 0 || b == 0 then 0 else 2 * And(a / 2, b / 2) + if a % 2 == 1 && b % 2 == 1 then 1 else 0
  }

  function Or(a: nat, b: nat): nat {
    if a == 0 then b else if b == 0 then a else 2 * Or(a / 2, b / 2) + if a % 2 == 1 || b % 2 == 1 then 1 else 0
  }

  /** x << n, for a result that fits. */
  function Shl(x: nat, n: nat): nat { x * Pow2(n) }

  /** x >> n. */
  function Shr(x: nat, n: nat): nat { if n == 0 then x else Shr(x, n - 1) / 2 }

  lemma {:induction false} ShrDivides(x: nat, n: nat)
    ensures Shr(x, n) == x / Pow2(n)
  {
    if n > 0 {
      var m := Pow2(n - 1);
      ShrDivides(x, n - 1);
      HalfQuotient(x, m);
    }
  }

  lemma HalfQuotient(x: nat, m: nat)
    requires m > 0
    ensures (x / m) / 2 == x / (2 * m)
  {
    var q, r := x / m, x % m;
    var a, b := q / 2, q % 2;
    assert x == q * m + r;
    Regroup(q, a, b, m);
    assert 0 <= b * m <= m by { assert b == 0 || b == 1; }
    SplitUnique(x, 2 * m, a, b * m + r);
  }

  lemma Regroup(q: nat, a: nat, b: nat, m: nat)
    requires q == 2 * a + b
    ensures q * m == a * (2 * m) + b * m
  {
  }

  /** Masking the n low bits. */
  lemma {:induction false} AndMask(a: nat, n: nat)
    ensures And(a, Pow2(n) - 1) == a % Pow2(n)
  {
    if n > 0 {
      var m := Pow2(n - 1);
      AndMask(a / 2, n - 1);
      Halved(a, m);
      assert (2 * m - 1) / 2 == m - 1 && (2 * m - 1) % 2 == 1;
    }
  }

  /** The low bits of a, without its last one and with it. */
  lemma Halved(a: nat, m: nat)
    requires m > 0
    ensures a % (2 * m) == 2 * ((a / 2) % m) + a % 2
  {
    var q, r := (a / 2) / m, (a / 2) % m;
    assert a / 2 == q * m + r;
    assert a == q * (2 * m) + (2 * r + a % 2) by {
      assert a == 2 * (a / 2) + a % 2;
      assert 2 * (q * m) == q * (2 * m);
    }
    SplitUnique(a, 2 * m, q, 2 * r + a % 2);
  }

  /** A field of n bits fits under the bits of another. */
  lemma {:induction false} OrJoin(a: nat, b: nat, n: nat)
    requires b < Pow2(n)
    ensures Or(a * Pow2(n), b) == a * Pow2(n) + b
  {
    if n > 0 && a > 0 && b > 0 {
      var m := Pow2(n - 1);
      OrJoin(a, b / 2, n - 1);
      Doubled(a, m);
    }
  }

  lemma Doubled(a: nat, m: nat)
    requires a > 0 && m > 0
    ensures a * (2 * m) > 0 && (a * (2 * m)) / 2 == a * m && (a * (2 * m)) % 2 == 0
  {
    assert a * (2 * m) == 2 * (a * m);
    MulPositive(a, m);
  }

  lemma Powers()
    ensures Pow2(8) == 0x100 && Pow2(16) == 0x1_0000 && Pow2(24) == 0x100_0000
  {
  }

  // ----- the words of the two routines -----

  /** The geometry register as the routines take it apart: cylinders, heads, sectors. */
  lemma GeometryMasks(data1: nat)
    ensures GeometryIn(data1) == Geometry(And(Shr(data1, 16), 0xFFFF), And(Shr(data1, 8), 0xFF), And(data1, 0xFF))
  {
    Powers();
    ShrDivides(data1, 16);
    ShrDivides(data1, 8);
    AndMask(data1 / 0x1_0000, 16);
    AndMask(data1 / 0x100, 8);
    AndMask(data1, 8);
    hide And, Pow2, Shr;
  }

  /** status & STATUS_MASK. */
  lemma StatusMask(status: nat)
    ensures And(status, 0xFF) == status % 0x100
  {
    Powers();
    AndMask(status, 8);
    hide And, Pow2;
  }

  /** The word of a seek. */
  lemma SeekWord(cyl: nat, op: nat)
    requires op <= 0xFF
    ensures Or(Shl(cyl, 8), op) == SeekCommand(cyl, op)
  {
    Powers();
    OrJoin(cyl, op, 8);
    hide Or, Pow2;
  }

  /** The word of a transfer. */
  lemma BlockWord(head: nat, sect: nat, op: nat)
    requires sect <= 0xFF && op <= 0xFF
    ensures Or(Or(Shl(head, 24), Shl(sect, 16)), op) == BlockCommand(head, sect, op)
  {
    Powers();
    OrJoin(head, sect * 0x1_0000, 24);
    OrJoin(head * 0x100 + sect, op, 16);
    hide Or, Pow2;
    assert (head * 0x100 + sect) * 0x1_0000 == head * 0x100_0000 + sect * 0x1_0000;
  }

  /** On a 32-bit word the shifts and masks give back each part. */
  lemma GeometryBits(cyls: bv32, heads: bv32, sects: bv32)
    requires cyls <= 0xFFFF && heads <= 0xFF && sects <= 0xFF
    ensures var w := cyls * 0x1_0000 + heads * 0x100 + sects;
            (w >> 16) & 0xFFFF == cyls && (w >> 8) & 0xFF == heads && w & 0xFF == sects
  {
  }
}
