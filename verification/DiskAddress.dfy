/**
 * deviceSupportDMA.c, the arithmetic: logical blocks, physical sectors and the command words that carry them.
 */
module DiskAddress {

  // ----- C's division -----

  /** Division that truncates toward zero. */
  function TruncDiv(a: int, b: int): int
    requires b > 0
  {
    if a >= 0 then a / b else -((-a) / b)
  }

  function TruncMod(a: int, b: int): int
    requires b > 0
  {
    a - TruncDiv(a, b) * b
  }

  // ----- blocks and sectors -----

  datatype Geometry = Geometry(maxCyl: int, maxHead: int, maxSect: int)

  datatype Sector = Sector(cyl: int, head: int, sect: int)

  predicate Positive(g: Geometry) { g.maxCyl > 0 && g.maxHead > 0 && g.maxSect > 0 }

  function Capacity(g: Geometry): int { g.maxCyl * (g.maxHead * g.maxSect) }

  /** The translation in dmaReadDisk and dmaWriteDisk. */
  function SectorOf(g: Geometry, b: int): Sector
    requires Positive(g)
  {
    MulPositive(g.maxHead, g.maxSect);
    var rem := TruncMod(b, g.maxHead * g.maxSect);
    Sector(TruncDiv(b, g.maxHead * g.maxSect), TruncDiv(rem, g.maxSect), TruncMod(rem, g.maxSect))
  }

  /** The bounds check as written: each coordinate against its maximum. */
  predicate Accepted(g: Geometry, b: int)
    requires Positive(g)
  {
    var s := SectorOf(g, b);
    !(s.cyl >= g.maxCyl || s.head >= g.maxHead || s.sect >= g.maxSect)
  }

  /** A sector the disk has. */
  predicate OnDisk(g: Geometry, s: Sector) {
    0 <= s.cyl < g.maxCyl && 0 <= s.head < g.maxHead && 0 <= s.sect < g.maxSect
  }

  function BlockOf(g: Geometry, s: Sector): int { s.cyl * (g.maxHead * g.maxSect) + s.head * g.maxSect + s.sect }

  lemma MulPositive(a: int, b: int)
    requires a > 0 && b > 0
    ensures a * b > 0
  {
  }

  lemma MulMonotone(a: int, b: int, c: int)
    requires a <= b && c > 0
    ensures a * c <= b * c
  {
  }

  /** Quotient and remainder are the only way to split a number. */
  lemma SplitUnique(a: int, m: int, q: int, r: int)
    requires m > 0 && 0 <= r < m && a == q * m + r
    ensures q == a / m && r == a % m
  {
    var d := q - a / m;
    assert a == (a / m) * m + a % m;
    assert d * m == a % m - r;
    if d > 0 {
      MulMonotone(1, d, m);
    } else if d < 0 {
      MulMonotone(d, -1, m);
    }
  }

  lemma QuotientBelow(a: int, m: int, n: int)
    requires a >= 0 && m > 0
    ensures a / m < n <==> a < n * m
  {
    var q := a / m;
    assert a == q * m + a % m;
    if q < n {
      MulMonotone(q + 1, n, m);
    } else {
      MulMonotone(n, q, m);
    }
  }

  /** Where a nonnegative block number lands. */
  lemma SectorParts(g: Geometry, b: int)
    requires Positive(g) && b >= 0
    ensures g.maxHead * g.maxSect > 0
    ensures var hs := g.maxHead * g.maxSect;
            SectorOf(g, b) == Sector(b / hs, (b % hs) / g.maxSect, (b % hs) % g.maxSect)
    ensures 0 <= SectorOf(g, b).cyl && 0 <= SectorOf(g, b).head < g.maxHead && 0 <= SectorOf(g, b).sect < g.maxSect
  {
    MulPositive(g.maxHead, g.maxSect);
    var hs := g.maxHead * g.maxSect;
    var rem := b % hs;
    assert TruncMod(b, hs) == rem;
    assert TruncMod(rem, g.maxSect) == rem % g.maxSect;
    QuotientBelow(rem, g.maxSect, g.maxHead);
  }

  /** No negative block number has a sector. */
  lemma NegativeParts(g: Geometry, b: int)
    requires Positive(g) && b < 0
    ensures var s := SectorOf(g, b);
            s.cyl <= 0 && s.head <= 0 && s.sect <= 0 && (s.cyl < 0 || s.head < 0 || s.sect < 0)
  {
    MulPositive(g.maxHead, g.maxSect);
    var hs := g.maxHead * g.maxSect;
    var rem := TruncMod(b, hs);
    TruncNegative(b, hs);
    if rem < 0 {
      TruncNegative(rem, g.maxSect);
    }
  }

  lemma TruncNegative(a: int, m: int)
    requires a < 0 && m > 0
    ensures TruncDiv(a, m) <= 0 && TruncMod(a, m) <= 0 && (TruncDiv(a, m) < 0 || TruncMod(a, m) < 0)
    ensures TruncDiv(a, m) * m + TruncMod(a, m) == a
  {
    var n := -a;
    assert n == (n / m) * m + n % m;
    assert TruncMod(a, m) == -(n % m);
  }

  /**
   * The bounds check passes exactly the block numbers below the capacity, the negative ones among them; the sector it
   * leads to exists exactly for those that are not negative.
   */
  lemma BoundsCheckExact(g: Geometry, b: int)
    requires Positive(g)
    ensures Accepted(g, b) <==> b < Capacity(g)
    ensures Accepted(g, b) && OnDisk(g, SectorOf(g, b)) <==> 0 <= b < Capacity(g)
  {
    MulPositive(g.maxHead, g.maxSect);
    MulPositive(g.maxCyl, g.maxHead * g.maxSect);
    if b >= 0 {
      SectorParts(g, b);
      QuotientBelow(b, g.maxHead * g.maxSect, g.maxCyl);
    } else {
      NegativeParts(g, b);
    }
  }

  /** Blocks to sectors and back. */
  lemma BlockRoundTrip(g: Geometry, b: int)
    requires Positive(g) && 0 <= b < Capacity(g)
    ensures OnDisk(g, SectorOf(g, b)) && BlockOf(g, SectorOf(g, b)) == b
  {
    BoundsCheckExact(g, b);
    SectorParts(g, b);
    var hs := g.maxHead * g.maxSect;
    assert b == (b / hs) * hs + b % hs;
    assert b % hs == ((b % hs) / g.maxSect) * g.maxSect + (b % hs) % g.maxSect;
  }

  /** Sectors to blocks and back. */
  lemma SectorRoundTrip(g: Geometry, s: Sector)
    requires Positive(g) && OnDisk(g, s)
    ensures 0 <= BlockOf(g, s) < Capacity(g) && SectorOf(g, BlockOf(g, s)) == s
  {
    MulPositive(g.maxHead, g.maxSect);
    var hs, b, rem := g.maxHead * g.maxSect, BlockOf(g, s), s.head * g.maxSect + s.sect;
    MulMonotone(0, s.head, g.maxSect);
    MulMonotone(s.head + 1, g.maxHead, g.maxSect);
    assert 0 <= rem < hs;
    SplitUnique(rem, g.maxSect, s.head, s.sect);
    SplitUnique(b, hs, s.cyl, rem);
    MulMonotone(0, s.cyl, hs);
    SectorParts(g, b);
    BoundsCheckExact(g, b);
    QuotientBelow(b, hs, g.maxCyl);
  }

  /** Different blocks have different sectors. */
  lemma SectorInjective(g: Geometry, b: int, c: int)
    requires Positive(g) && 0 <= b < Capacity(g) && 0 <= c < Capacity(g)
    ensures SectorOf(g, b) == SectorOf(g, c) <==> b == c
  {
    BlockRoundTrip(g, b);
    BlockRoundTrip(g, c);
  }

  /** Cylinder by cylinder, then head by head, then sector by sector. */
  predicate Before(s: Sector, t: Sector) {
    s.cyl < t.cyl || (s.cyl == t.cyl && (s.head < t.head || (s.head == t.head && s.sect < t.sect)))
  }

  /** In a number of two digits to base m the first decides. */
  lemma TwoDigits(a: int, r: int, b: int, q: int, m: int)
    requires 0 <= r < m && 0 <= q < m && (a < b || (a == b && r < q))
    ensures a * m + r < b * m + q
  {
    if a < b {
      MulMonotone(a + 1, b, m);
      assert (a + 1) * m == a * m + m;
    }
  }

  /** The sectors of one cylinder. */
  lemma WithinCylinder(g: Geometry, s: Sector)
    requires Positive(g) && OnDisk(g, s)
    ensures 0 <= s.head * g.maxSect + s.sect < g.maxHead * g.maxSect
  {
    MulMonotone(0, s.head, g.maxSect);
    MulMonotone(s.head + 1, g.maxHead, g.maxSect);
    assert (s.head + 1) * g.maxSect == s.head * g.maxSect + g.maxSect;
  }

  lemma BeforeBlocks(g: Geometry, s: Sector, t: Sector)
    requires Positive(g) && OnDisk(g, s) && OnDisk(g, t) && Before(s, t)
    ensures BlockOf(g, s) < BlockOf(g, t)
  {
    WithinCylinder(g, s);
    WithinCylinder(g, t);
    var r, q := s.head * g.maxSect + s.sect, t.head * g.maxSect + t.sect;
    if s.cyl == t.cyl {
      TwoDigits(s.head, s.sect, t.head, t.sect, g.maxSect);
    }
    TwoDigits(s.cyl, r, t.cyl, q, g.maxHead * g.maxSect);
  }

  /** The blocks fill the disk in that order: a lower number is an earlier sector. */
  lemma SectorsInOrder(g: Geometry, b: int, c: int)
    requires Positive(g) && 0 <= b < Capacity(g) && 0 <= c < Capacity(g)
    ensures b < c <==> Before(SectorOf(g, b), SectorOf(g, c))
  {
    BlockRoundTrip(g, b);
    BlockRoundTrip(g, c);
    var s, t := SectorOf(g, b), SectorOf(g, c);
    hide SectorOf, BlockOf, Capacity, OnDisk;
    if Before(s, t) {
      BeforeBlocks(g, s, t);
    } else if Before(t, s) {
      BeforeBlocks(g, t, s);
    } else {
      assert s == t;
    }
  }

  // ----- registers -----

  const SEEKCYL := 2
  const READBLK := 2
  const WRITEBLK := 3

  /** (cyl << 8) | op. */
  function SeekCommand(cyl: int, op: int): int { cyl * 0x100 + op }

  /** (head << 24) | (sect << 16) | op. */
  function BlockCommand(head: int, sect: int, op: int): int { head * 0x100_0000 + sect * 0x1_0000 + op }

  /** Fields that fit their widths do not overlap in a 32-bit word, so joining them with | adds them. */
  lemma OrIsPlus(cyl: bv32, head: bv32, sect: bv32, op: bv32)
    requires cyl <= 0xFFFF && head <= 0xFF && sect <= 0xFF && op <= 0xFF
    ensures (cyl << 8) | op == cyl * 0x100 + op
    ensures (head << 24) | (sect << 16) | op == head * 0x100_0000 + sect * 0x1_0000 + op
  {
  }

  // What the device reads from the words.

  function Operation(command: int): int { command % 0x100 }

  function CylinderIn(command: int): int { (command / 0x100) % 0x1_0000 }

  function HeadIn(command: int): int { (command / 0x100_0000) % 0x100 }

  function SectIn(command: int): int { (command / 0x1_0000) % 0x100 }

  /** DATA1: cylinders in the upper half, then heads, then sectors. */
  function GeometryIn(w: int): (g: Geometry)
    ensures 0 <= g.maxCyl <= 0xFFFF && 0 <= g.maxHead <= 0xFF && 0 <= g.maxSect <= 0xFF
  {
    Geometry((w / 0x1_0000) % 0x1_0000, (w / 0x100) % 0x100, w % 0x100)
  }

  /** Each part of DATA1 is where the routines look for it. */
  lemma GeometryParts(cyls: int, heads: int, sects: int)
    requires 0 <= cyls <= 0xFFFF && 0 <= heads <= 0xFF && 0 <= sects <= 0xFF
    ensures GeometryIn(cyls * 0x1_0000 + heads * 0x100 + sects) == Geometry(cyls, heads, sects)
  {
    var w := cyls * 0x1_0000 + heads * 0x100 + sects;
    assert w / 0x1_0000 == cyls;
    assert w == (cyls * 0x100 + heads) * 0x100 + sects;
    assert w / 0x100 == cyls * 0x100 + heads;
  }

  lemma SeekDecodes(cyl: int, op: int)
    requires 0 <= cyl <= 0xFFFF && 0 <= op <= 0xFF
    ensures var c := SeekCommand(cyl, op); Operation(c) == op && CylinderIn(c) == cyl
    ensures var c := SeekCommand(cyl, op); HeadIn(c) == 0 && SectIn(c) == cyl / 0x100
  {
    var c := SeekCommand(cyl, op);
    assert c / 0x100 == cyl;
    assert c / 0x1_0000 == cyl / 0x100;
    assert c / 0x100_0000 == 0;
  }

  lemma BlockDecodes(head: int, sect: int, op: int)
    requires 0 <= head <= 0xFF && 0 <= sect <= 0xFF && 0 <= op <= 0xFF
    ensures var c := BlockCommand(head, sect, op); Operation(c) == op && SectIn(c) == sect && HeadIn(c) == head
    ensures CylinderIn(BlockCommand(head, sect, op)) == sect * 0x100
  {
    var c := BlockCommand(head, sect, op);
    assert c == (head * 0x100 + sect) * 0x1_0000 + op;
    assert c / 0x1_0000 == head * 0x100 + sect;
    assert c / 0x100_0000 == head;
    assert c == (head * 0x1_0000 + sect * 0x100) * 0x100 + op;
    assert c / 0x100 == head * 0x1_0000 + sect * 0x100;
  }

  /** SEEKCYL and READBLK are the same number, so the operation byte does not tell a seek from a read. */
  lemma OperationsCollide(cyl: int, head: int, sect: int)
    requires 0 <= cyl <= 0xFFFF && 0 <= head <= 0xFF && 0 <= sect <= 0xFF
    ensures Operation(SeekCommand(cyl, SEEKCYL)) == Operation(BlockCommand(head, sect, READBLK))
    ensures Operation(BlockCommand(head, sect, WRITEBLK)) != Operation(BlockCommand(head, sect, READBLK))
  {
    SeekDecodes(cyl, SEEKCYL);
    BlockDecodes(head, sect, READBLK);
    BlockDecodes(head, sect, WRITEBLK);
  }

  /** The two commands of a transfer lead to the sector of the block. */
  lemma CommandsReach(w: int, b: int, seek: int, op: int)
    requires Positive(GeometryIn(w)) && 0 <= b < Capacity(GeometryIn(w)) && 0 <= seek <= 0xFF && 0 <= op <= 0xFF
    ensures var s := SectorOf(GeometryIn(w), b);
            && OnDisk(GeometryIn(w), s)
            && CylinderIn(SeekCommand(s.cyl, seek)) == s.cyl && Operation(SeekCommand(s.cyl, seek)) == seek
            && HeadIn(BlockCommand(s.head, s.sect, op)) == s.head
            && SectIn(BlockCommand(s.head, s.sect, op)) == s.sect
            && Operation(BlockCommand(s.head, s.sect, op)) == op
  {
    var g := GeometryIn(w);
    BlockRoundTrip(g, b);
    var s := SectorOf(g, b);
    SeekDecodes(s.cyl, seek);
    BlockDecodes(s.head, s.sect, op);
  }
}
