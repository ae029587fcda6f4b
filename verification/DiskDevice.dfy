/**
 * deviceSupportDMA.c against a disk that sees only command words. What a code in the operation byte means is a
 * parameter; so are the three codes that the routines use, which h/const.h sets to 2, 2 and 3.
 */
module DiskDevice {
  import opened DiskAddress

  const DISK_SECTOR_SIZE := 4096
  const DEVICE_READY := 1

  /** What a device takes an operation byte to mean. */
  datatype Meaning = Seeks | Reads | Writes | Ignored

  type Decoder = int -> Meaning

  datatype Codes = Codes(seek: int, read: int, write: int)

  const SOURCE_CODES := Codes(SEEKCYL, READBLK, WRITEBLK)

  predicate Bytes(c: Codes) { 0 <= c.seek <= 0xFF && 0 <= c.read <= 0xFF && 0 <= c.write <= 0xFF }

  /** The device can tell the three commands apart, and takes each for what the routines mean. */
  predicate Understood(kind: Decoder, c: Codes) {
    kind(c.seek) == Seeks && kind(c.read) == Reads && kind(c.write) == Writes
  }

  /** The geometry register DATA1, the cylinder the arm stands on, and the sectors. */
  datatype Disk = Disk(data1: int, arm: int, sectors: map<Sector, seq<int>>)

  /** A disk and the DMA buffer that its DATA0 register points to. */
  datatype Unit = Unit(disk: Disk, buffer: seq<int>)

  function Geom(d: Disk): Geometry { GeometryIn(d.data1) }

  ghost predicate Formatted(d: Disk) {
    forall s {:trigger s in d.sectors} :: OnDisk(Geom(d), s) ==> s in d.sectors && |d.sectors[s]| == DISK_SECTOR_SIZE
  }

  ghost predicate Ready(u: Unit) {
    Formatted(u.disk) && Positive(Geom(u.disk)) && |u.buffer| == DISK_SECTOR_SIZE
  }

  /** The contents of block b. */
  ghost function Block(d: Disk, b: int): (r: seq<int>)
    requires Formatted(d) && Positive(Geom(d)) && 0 <= b < Capacity(Geom(d))
    ensures |r| == DISK_SECTOR_SIZE
  {
    BlockRoundTrip(Geom(d), b);
    d.sectors[SectorOf(Geom(d), b)]
  }

  // ----- the device -----

  /** The sector a transfer command names: the arm's cylinder and the head and sector of the word. */
  function Addressed(d: Disk, command: int): Sector { Sector(d.arm, HeadIn(command), SectIn(command)) }

  /** A command that completes with status 1 has been carried out, as far as the device knows it and has the sector. */
  function Executed(kind: Decoder, u: Unit, command: int, status: int): (u1: Unit)
    ensures u1.disk.data1 == u.disk.data1
  {
    var s := Addressed(u.disk, command);
    var there := OnDisk(Geom(u.disk), s) && s in u.disk.sectors;
    if status % 0x100 != DEVICE_READY then u
    else
      match kind(Operation(command))
      case Seeks => u.(disk := u.disk.(arm := CylinderIn(command)))
      case Reads => if there then u.(buffer := u.disk.sectors[s]) else u
      case Writes => if there then u.(disk := u.disk.(sectors := u.disk.sectors[s := u.buffer])) else u
      case Ignored => u
  }

  // ----- the two routines -----

  /** A call of dmaWriteDisk or dmaReadDisk, with the two statuses that the device will report. */
  datatype Op =
    | Put(b: int, data: seq<int>, seekStatus: int, blockStatus: int)
    | Get(b: int, seekStatus: int, blockStatus: int)

  predicate Valid(op: Op) { op.b >= 0 && (op.Put? ==> |op.data| == DISK_SECTOR_SIZE) }

  /** The bounds check passes and both statuses read as ready; the seek's status is compared unmasked. */
  predicate Succeeds(g: Geometry, op: Op) {
    op.b < Capacity(g) && op.seekStatus == DEVICE_READY && op.blockStatus % 0x100 == DEVICE_READY
  }

  /**
   * What a call does to the unit: a write first copies its data into the buffer, whether or not it gets any further;
   * then come the bounds check, the seek command and the transfer command. A read returns the buffer at the end.
   */
  function Called(kind: Decoder, c: Codes, u: Unit, op: Op): (u1: Unit)
    requires Positive(Geom(u.disk))
    ensures u1.disk.data1 == u.disk.data1
  {
    var g := Geom(u.disk);
    var u0 := if op.Put? then u.(buffer := op.data) else u;
    if op.b >= Capacity(g) then u0
    else
      var s := SectorOf(g, op.b);
      var u1 := Executed(kind, u0, SeekCommand(s.cyl, c.seek), op.seekStatus);
      if op.seekStatus != DEVICE_READY then u1
      else Executed(kind, u1, BlockCommand(s.head, s.sect, if op.Put? then c.write else c.read), op.blockStatus)
  }

  function Ran(kind: Decoder, c: Codes, u: Unit, ops: seq<Op>): (u1: Unit)
    requires Positive(Geom(u.disk))
    ensures u1.disk.data1 == u.disk.data1
  {
    if ops == [] then u else Called(kind, c, Ran(kind, c, u, ops[..|ops| - 1]), ops[|ops| - 1])
  }

  /** The last buffer successfully written to block b, or what was there before. */
  function LastWritten(g: Geometry, ops: seq<Op>, b: int, before: seq<int>): seq<int> {
    if ops == [] then before
    else
      var last := ops[|ops| - 1];
      if last.Put? && Succeeds(g, last) && last.b == b then last.data
      else LastWritten(g, ops[..|ops| - 1], b, before)
  }

  ghost predicate Trace(ops: seq<Op>) {
    forall i :: 0 <= i < |ops| ==> Valid(ops[i])
  }

  /** After the calls ops, a successful read returns the last buffer successfully written to its block. */
  ghost predicate RightAfter(kind: Decoder, c: Codes, u: Unit, ops: seq<Op>, get: Op) {
    Ready(u) && Trace(ops) && Valid(get) && get.Get? && Succeeds(Geom(u.disk), get) ==>
      Called(kind, c, Ran(kind, c, u, ops), get).buffer == LastWritten(Geom(u.disk), ops, get.b, Block(u.disk, get.b))
  }

  /** The promise of the two routines: every successful read of every trace, reads and failures included, is right. */
  ghost predicate AlwaysRight(kind: Decoder, c: Codes) {
    forall u, ops, get :: RightAfter(kind, c, u, ops, get)
  }

  // ----- a device that understands the codes -----

  /** No block of the disk changed. */
  ghost predicate SameBlocks(d: Disk, d1: Disk)
    requires Formatted(d) && Positive(Geom(d))
  {
    && Formatted(d1) && d1.data1 == d.data1
    && forall b {:trigger Block(d1, b)} :: 0 <= b < Capacity(Geom(d)) ==> Block(d1, b) == Block(d, b)
  }

  /** Block b now holds data, and every other block what it held. */
  ghost predicate BlockWritten(d: Disk, d1: Disk, b: int, data: seq<int>)
    requires Formatted(d) && Positive(Geom(d))
  {
    && Formatted(d1) && d1.data1 == d.data1
    && forall x {:trigger Block(d1, x)} :: 0 <= x < Capacity(Geom(d)) ==>
         Block(d1, x) == if x == b then data else Block(d, x)
  }

  /** Writing the sector of one block leaves the sectors of all others alone. */
  lemma SectorWritten(d: Disk, b: int, data: seq<int>, arm: int)
    requires Formatted(d) && Positive(Geom(d)) && 0 <= b < Capacity(Geom(d)) && |data| == DISK_SECTOR_SIZE
    ensures BlockWritten(d, d.(arm := arm, sectors := d.sectors[SectorOf(Geom(d), b) := data]), b, data)
  {
    var g := Geom(d);
    BlockRoundTrip(g, b);
    hide SectorOf, Capacity;
    var d1 := d.(arm := arm, sectors := d.sectors[SectorOf(g, b) := data]);
    assert Formatted(d1);
    forall x | 0 <= x < Capacity(g) ensures Block(d1, x) == if x == b then data else Block(d, x) {
      SectorInjective(g, b, x);
    }
  }

  lemma MovedArm(d: Disk, arm: int)
    requires Formatted(d) && Positive(Geom(d))
    ensures SameBlocks(d, d.(arm := arm))
  {
  }

  /** On such a device a call does what its comment says. */
  lemma CallUnderstood(kind: Decoder, c: Codes, u: Unit, op: Op)
    requires Bytes(c) && Understood(kind, c) && Ready(u) && Valid(op)
    ensures var u1 := Called(kind, c, u, op);
            && Ready(u1)
            && (if op.Put? && Succeeds(Geom(u.disk), op) then BlockWritten(u.disk, u1.disk, op.b, op.data)
                else SameBlocks(u.disk, u1.disk))
            && u1.buffer == (if op.Put? then op.data
                             else if Succeeds(Geom(u.disk), op) then Block(u.disk, op.b) else u.buffer)
            && u1.disk.arm == if op.b < Capacity(Geom(u.disk)) && op.seekStatus % 0x100 == DEVICE_READY
                              then SectorOf(Geom(u.disk), op.b).cyl else u.disk.arm
  {
    var g, d := Geom(u.disk), u.disk;
    MovedArm(d, d.arm);
    if op.b < Capacity(g) {
      var s := SectorOf(g, op.b);
      CommandsReach(d.data1, op.b, c.seek, if op.Put? then c.write else c.read);
      MovedArm(d, s.cyl);
      if op.Put? {
        SectorWritten(d, op.b, op.data, s.cyl);
      }
      assert s in d.sectors && d.sectors[s] == Block(d, op.b);
      hide SectorOf, SeekCommand, BlockCommand, Operation, CylinderIn, HeadIn, SectIn, GeometryIn, Capacity, OnDisk;
      hide SameBlocks, BlockWritten, Block;
    }
  }

  lemma {:induction false} RanUnderstood(kind: Decoder, c: Codes, u: Unit, ops: seq<Op>, b: int)
    requires Bytes(c) && Understood(kind, c) && Ready(u) && Trace(ops) && 0 <= b < Capacity(Geom(u.disk))
    ensures Ready(Ran(kind, c, u, ops))
    ensures Block(Ran(kind, c, u, ops).disk, b) == LastWritten(Geom(u.disk), ops, b, Block(u.disk, b))
  {
    if ops != [] {
      var earlier, last := ops[..|ops| - 1], ops[|ops| - 1];
      RanUnderstood(kind, c, u, earlier, b);
      CallUnderstood(kind, c, Ran(kind, c, u, earlier), last);
      hide Called, Formatted, Block, Capacity, GeometryIn, Positive;
    }
  }

  /** On such a device every successful read returns the last successful write of its block. */
  lemma ReadsLastWrite(kind: Decoder, c: Codes, u: Unit, ops: seq<Op>, get: Op)
    requires Bytes(c) && Understood(kind, c)
    ensures RightAfter(kind, c, u, ops, get)
  {
    if Ready(u) && Trace(ops) && Valid(get) && get.Get? && Succeeds(Geom(u.disk), get) {
      RanUnderstood(kind, c, u, ops, get.b);
      CallUnderstood(kind, c, Ran(kind, c, u, ops), get);
    }
  }

  // ----- every other device -----

  /** A sector full of x. */
  function Filled(x: int): (r: seq<int>)
    ensures |r| == DISK_SECTOR_SIZE && r[0] == x
  {
    seq(DISK_SECTOR_SIZE, _ => x)
  }

  /** Two cylinders of one sector each, both holding z, with the arm on the first. */
  function SmallDisk(z: seq<int>): Disk {
    Disk(0x2_0101, 0, map[Sector(0, 0, 0) := z, Sector(1, 0, 0) := z])
  }

  lemma SmallGeometry()
    ensures GeometryIn(0x2_0101) == Geometry(2, 1, 1)
  {
  }

  lemma SmallSectors(b: int)
    requires 0 <= b <= 1
    ensures SectorOf(Geometry(2, 1, 1), b) == Sector(b, 0, 0) && Capacity(Geometry(2, 1, 1)) == 2
  {
    var g := Geometry(2, 1, 1);
    assert g.maxHead * g.maxSect == 1;
    SectorParts(g, b);
  }

  /** The small disk with its buffer: the arm, what is in the two sectors and what is in the buffer. */
  datatype Mini = Mini(arm: int, s0: seq<int>, s1: seq<int>, buf: seq<int>)

  ghost predicate Shows(u: Unit, m: Mini) {
    && u.disk.data1 == 0x2_0101 && u.disk.arm == m.arm && 0 <= m.arm <= 1 && u.buffer == m.buf
    && Sector(0, 0, 0) in u.disk.sectors && u.disk.sectors[Sector(0, 0, 0)] == m.s0
    && Sector(1, 0, 0) in u.disk.sectors && u.disk.sectors[Sector(1, 0, 0)] == m.s1
  }

  /** A command that names cylinder cyl, head 0 and sector 0. */
  function Does(m: Mini, what: Meaning, cyl: int): Mini {
    match what
    case Seeks => m.(arm := cyl)
    case Reads => m.(buf := if m.arm == 0 then m.s0 else m.s1)
    case Writes => if m.arm == 0 then m.(s0 := m.buf) else m.(s1 := m.buf)
    case Ignored => m
  }

  lemma DoesExecuted(kind: Decoder, u: Unit, command: int, m: Mini, cyl: int)
    requires Shows(u, m) && 0 <= cyl <= 1
    requires CylinderIn(command) == cyl && HeadIn(command) == 0 && SectIn(command) == 0
    ensures Shows(Executed(kind, u, command, DEVICE_READY), Does(m, kind(Operation(command)), cyl))
  {
    SmallGeometry();
    hide GeometryIn, Operation, CylinderIn, HeadIn, SectIn;
    assert Addressed(u.disk, command) == Sector(m.arm, 0, 0) && OnDisk(Geom(u.disk), Sector(m.arm, 0, 0));
    hide OnDisk, Addressed, Geom;
  }

  /** A call without errors on the small disk: the seek word names its cylinder, the transfer word cylinder 0. */
  lemma DoesCalled(kind: Decoder, c: Codes, u: Unit, op: Op, m: Mini)
    requires Bytes(c) && Shows(u, m) && 0 <= op.b <= 1 && op.seekStatus == op.blockStatus == DEVICE_READY
    ensures Positive(Geom(u.disk))
    ensures Shows(Called(kind, c, u, op),
                  Does(Does(if op.Put? then m.(buf := op.data) else m, kind(c.seek), op.b),
                       kind(if op.Put? then c.write else c.read), 0))
  {
    SmallGeometry();
    SmallSectors(op.b);
    var code := if op.Put? then c.write else c.read;
    SeekDecodes(op.b, c.seek);
    BlockDecodes(0, 0, code);
    var u0 := if op.Put? then u.(buffer := op.data) else u;
    var m0 := if op.Put? then m.(buf := op.data) else m;
    hide Operation, CylinderIn, HeadIn, SectIn, SectorOf, GeometryIn, Capacity, Executed, Does;
    DoesExecuted(kind, u0, SeekCommand(op.b, c.seek), m0, op.b);
    DoesExecuted(kind, Executed(kind, u0, SeekCommand(op.b, c.seek), DEVICE_READY), BlockCommand(0, 0, code),
                 Does(m0, kind(c.seek), op.b), 0);
  }

  /** What is in the buffer after writing a to block 0, b to block 1, and reading block 0. */
  function Outcome(seek: Meaning, read: Meaning, write: Meaning, z: seq<int>, a: seq<int>, b: seq<int>): seq<int> {
    var m1 := Does(Does(Mini(0, z, z, a), seek, 0), write, 0);
    var m2 := Does(Does(m1.(buf := b), seek, 1), write, 0);
    Does(Does(m2, seek, 0), read, 0).buf
  }

  /** Only one way to understand the three codes gives a back. */
  lemma OutcomeExact(seek: Meaning, read: Meaning, write: Meaning, z: seq<int>, a: seq<int>, b: seq<int>)
    requires a != z && a != b
    ensures Outcome(seek, read, write, z, a, b) == a <==> seek == Seeks && read == Reads && write == Writes
  {
  }

  /** A device that understands the codes differently gets the read of block 0 wrong on the small disk. */
  lemma Misunderstood(kind: Decoder, c: Codes) returns (u: Unit, ops: seq<Op>, get: Op)
    requires Bytes(c) && !Understood(kind, c)
    ensures !RightAfter(kind, c, u, ops, get)
  {
    var z, a, b := Filled(0), Filled(1), Filled(2);
    u := Unit(SmallDisk(z), z);
    var p, q := Put(0, a, DEVICE_READY, DEVICE_READY), Put(1, b, DEVICE_READY, DEVICE_READY);
    ops, get := [p, q], Get(0, DEVICE_READY, DEVICE_READY);
    SmallReady(z);
    var g := Geom(u.disk);
    assert [p, q][..1] == [p] && [p][..0] == [] && [p, q][1] == q;
    assert LastWritten(g, [p], 0, Block(u.disk, 0)) == a;
    assert LastWritten(g, ops, 0, Block(u.disk, 0)) == a;
    var u1 := Called(kind, c, u, p);
    var u2 := Called(kind, c, u1, q);
    assert Ran(kind, c, u, []) == u && Ran(kind, c, u, [p]) == u1 && Ran(kind, c, u, ops) == u2;
    hide Called, Does, LastWritten, Ran;
    var m0 := Mini(0, z, z, z);
    DoesCalled(kind, c, u, p, m0);
    var m1 := Does(Does(m0.(buf := a), kind(c.seek), 0), kind(c.write), 0);
    DoesCalled(kind, c, u1, q, m1);
    var m2 := Does(Does(m1.(buf := b), kind(c.seek), 1), kind(c.write), 0);
    DoesCalled(kind, c, u2, get, m2);
    OutcomeExact(kind(c.seek), kind(c.read), kind(c.write), z, a, b);
  }

  lemma SmallReady(z: seq<int>)
    requires |z| == DISK_SECTOR_SIZE
    ensures Ready(Unit(SmallDisk(z), z)) && Capacity(Geom(SmallDisk(z))) == 2
  {
    hide *;
    SmallGeometry();
    SmallSectors(0);
    SmallOne(SmallDisk(z), z);
  }

  lemma SmallOne(d: Disk, z: seq<int>)
    requires GeometryIn(0x2_0101) == Geometry(2, 1, 1) && d == SmallDisk(z) && |z| == DISK_SECTOR_SIZE
    requires Capacity(Geometry(2, 1, 1)) == 2
    ensures Ready(Unit(d, z)) && Capacity(Geom(d)) == 2
  {
    hide GeometryIn, Capacity, OnDisk;
    var w := d.data1;
    assert GeometryIn(w) == Geometry(2, 1, 1);
    SmallFormatted(d, z);
  }

  lemma SmallFormatted(d: Disk, z: seq<int>)
    requires Geom(d) == Geometry(2, 1, 1) && |z| == DISK_SECTOR_SIZE
    requires d.sectors == map[Sector(0, 0, 0) := z, Sector(1, 0, 0) := z]
    ensures Formatted(d)
  {
    hide Geom;
    forall s | OnDisk(Geom(d), s) ensures s in d.sectors && |d.sectors[s]| == DISK_SECTOR_SIZE {
      assert s == Sector(0, 0, 0) || s == Sector(1, 0, 0);
    }
  }

  /**
   * The disk round trip, exactly: the routines keep their promise, in every trace on every disk, if and only if the
   * device takes their three codes for seek, read and write.
   */
  lemma RightExactly(kind: Decoder, c: Codes)
    requires Bytes(c)
    ensures AlwaysRight(kind, c) <==> Understood(kind, c)
  {
    if Understood(kind, c) {
      forall u, ops, get ensures RightAfter(kind, c, u, ops, get) {
        ReadsLastWrite(kind, c, u, ops, get);
      }
    } else {
      var u, ops, get := Misunderstood(kind, c);
    }
  }

  /** With the codes of the source no device keeps it: SEEKCYL and READBLK are the same. */
  lemma SourceNeverRight(kind: Decoder)
    ensures !AlwaysRight(kind, SOURCE_CODES)
  {
    RightExactly(kind, SOURCE_CODES);
  }

  // ----- what the source's reads return -----

  /** If the shared code means seek, a successful read of the source moves the arm and returns the buffer as it was. */
  lemma SeekingRead(kind: Decoder, u: Unit, get: Op)
    requires kind(READBLK) == Seeks && Ready(u) && Valid(get) && get.Get? && Succeeds(Geom(u.disk), get)
    ensures Called(kind, SOURCE_CODES, u, get).buffer == u.buffer
    ensures Called(kind, SOURCE_CODES, u, get).disk
            == u.disk.(arm := SectorOf(Geom(u.disk), get.b).sect * 0x100)
  {
    var s := SectorOf(Geom(u.disk), get.b);
    CommandsReach(u.disk.data1, get.b, SEEKCYL, READBLK);
    BlockDecodes(s.head, s.sect, READBLK);
    hide SectorOf, SeekCommand, BlockCommand, Operation, CylinderIn, HeadIn, SectIn, GeometryIn, Capacity, OnDisk;
  }

  /** The data of the last call that was a write, of any block, successful or not. */
  function LastCopied(ops: seq<Op>, before: seq<int>): seq<int> {
    if ops == [] then before
    else if ops[|ops| - 1].Put? then ops[|ops| - 1].data
    else LastCopied(ops[..|ops| - 1], before)
  }

  lemma BufferStays(kind: Decoder, u: Unit, command: int, status: int)
    requires kind(Operation(command)) != Reads
    ensures Executed(kind, u, command, status).buffer == u.buffer
  {
  }

  lemma {:induction false} BufferHolds(kind: Decoder, u: Unit, ops: seq<Op>)
    requires kind(READBLK) == Seeks && kind(WRITEBLK) == Writes && Positive(Geom(u.disk)) && Trace(ops)
    ensures Ran(kind, SOURCE_CODES, u, ops).buffer == LastCopied(ops, u.buffer)
  {
    if ops != [] {
      var earlier, last := ops[..|ops| - 1], ops[|ops| - 1];
      BufferHolds(kind, u, earlier);
      BufferCalled(kind, Ran(kind, SOURCE_CODES, u, earlier), last);
      hide Called;
    }
  }

  lemma BufferCalled(kind: Decoder, u: Unit, op: Op)
    requires kind(READBLK) == Seeks && kind(WRITEBLK) == Writes && Positive(Geom(u.disk)) && Valid(op)
    ensures Called(kind, SOURCE_CODES, u, op).buffer == if op.Put? then op.data else u.buffer
  {
    if op.b < Capacity(Geom(u.disk)) {
      var s, code := SectorOf(Geom(u.disk), op.b), if op.Put? then WRITEBLK else READBLK;
      CommandsReach(u.disk.data1, op.b, SEEKCYL, code);
      var u0 := if op.Put? then u.(buffer := op.data) else u;
      hide SectorOf, SeekCommand, BlockCommand, Operation, Executed, GeometryIn, Capacity;
      BufferStays(kind, u0, SeekCommand(s.cyl, SEEKCYL), op.seekStatus);
      BufferStays(kind, Executed(kind, u0, SeekCommand(s.cyl, SEEKCYL), op.seekStatus),
                  BlockCommand(s.head, s.sect, code), op.blockStatus);
    }
  }

  /**
   * On a device to which 2 is a seek and 3 a write, every successful read of the source returns what the last
   * dmaWriteDisk copied into the buffer, of whichever block and whether or not that write succeeded.
   */
  lemma SourceReadsBuffer(kind: Decoder, u: Unit, ops: seq<Op>, get: Op)
    requires kind(READBLK) == Seeks && kind(WRITEBLK) == Writes && Positive(Geom(u.disk))
    requires Trace(ops) && Valid(get) && get.Get?
    ensures Called(kind, SOURCE_CODES, Ran(kind, SOURCE_CODES, u, ops), get).buffer == LastCopied(ops, u.buffer)
  {
    BufferHolds(kind, u, ops);
    BufferCalled(kind, Ran(kind, SOURCE_CODES, u, ops), get);
    hide Called, Ran, LastCopied;
  }

  /** So after writing one block and then another, reading the first returns the second. */
  lemma SecondComesBack(kind: Decoder, u: Unit, b: nat, x: nat, data: seq<int>, other: seq<int>)
    requires kind(READBLK) == Seeks && kind(WRITEBLK) == Writes && Ready(u) && b != x && data != other
    requires b < Capacity(Geom(u.disk)) && x < Capacity(Geom(u.disk)) && |data| == |other| == DISK_SECTOR_SIZE
    ensures var ops, get := [Put(b, data, 1, 1), Put(x, other, 1, 1)], Get(b, 1, 1);
            && Called(kind, SOURCE_CODES, Ran(kind, SOURCE_CODES, u, ops), get).buffer == other
            && !RightAfter(kind, SOURCE_CODES, u, ops, get)
  {
    var p, q := Put(b, data, 1, 1), Put(x, other, 1, 1);
    SourceReadsBuffer(kind, u, [p, q], Get(b, 1, 1));
    hide Called, Ran;
    assert [p, q][..1] == [p];
    assert LastWritten(Geom(u.disk), [p], b, Block(u.disk, b)) == data;
    assert LastWritten(Geom(u.disk), [p, q], b, Block(u.disk, b)) == data;
  }

  /**
   * If the shared code means read, the arm never moves, and a successful read returns the sector under the arm: that of
   * the block exactly if the arm already stands on the block's cylinder.
   */
  lemma ReadingRead(kind: Decoder, u: Unit, get: Op)
    requires kind(READBLK) == Reads && Ready(u) && Valid(get) && get.Get? && Succeeds(Geom(u.disk), get)
    requires 0 <= u.disk.arm < Geom(u.disk).maxCyl
    ensures var s := SectorOf(Geom(u.disk), get.b);
            var at := Sector(u.disk.arm, s.head, s.sect);
            && at in u.disk.sectors && Called(kind, SOURCE_CODES, u, get).buffer == u.disk.sectors[at]
            && Called(kind, SOURCE_CODES, u, get).disk == u.disk
            && (at == s <==> u.disk.arm == s.cyl)
            && (u.disk.arm == s.cyl ==> Called(kind, SOURCE_CODES, u, get).buffer == Block(u.disk, get.b))
  {
    var s := SectorOf(Geom(u.disk), get.b);
    CommandsReach(u.disk.data1, get.b, SEEKCYL, READBLK);
    assert OnDisk(Geom(u.disk), Sector(u.disk.arm, s.head, s.sect));
    hide SectorOf, SeekCommand, BlockCommand, Operation, CylinderIn, HeadIn, SectIn, GeometryIn, Capacity, OnDisk;
  }

  lemma {:induction false} ArmStays(kind: Decoder, u: Unit, ops: seq<Op>)
    requires kind(READBLK) == Reads && kind(WRITEBLK) == Writes && Positive(Geom(u.disk)) && Trace(ops)
    ensures Ran(kind, SOURCE_CODES, u, ops).disk.arm == u.disk.arm
  {
    if ops != [] {
      var earlier, last := ops[..|ops| - 1], ops[|ops| - 1];
      ArmStays(kind, u, earlier);
      ArmCalled(kind, Ran(kind, SOURCE_CODES, u, earlier), last);
      hide Called;
    }
  }

  lemma ArmCalled(kind: Decoder, u: Unit, op: Op)
    requires kind(READBLK) == Reads && kind(WRITEBLK) == Writes && Positive(Geom(u.disk)) && Valid(op)
    ensures Called(kind, SOURCE_CODES, u, op).disk.arm == u.disk.arm
  {
    if op.b < Capacity(Geom(u.disk)) {
      CommandsReach(u.disk.data1, op.b, SEEKCYL, if op.Put? then WRITEBLK else READBLK);
      hide SectorOf, SeekCommand, BlockCommand, Operation, GeometryIn, Capacity, OnDisk;
    }
  }
}
