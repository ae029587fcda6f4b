/**
 * deviceSupportDMA.c, the operations: a 4 KB block goes from a process through the disk's DMA buffer to the device, or
 * back. One operation runs at a time.
 */
module DiskService {
  import opened DiskAddress
  import opened DiskDevice

  const DISKS := 8

  /** supTerminate, or back to the process with v0. */
  datatype Result = Terminated | Returned(v0: int)

  /** What a call comes back with. */
  function ResultOf(d: Disk, op: Op): Result {
    if op.b >= Capacity(Geom(d)) || op.seekStatus != DEVICE_READY then Terminated
    else if op.blockStatus % 0x100 != DEVICE_READY then Returned(-op.blockStatus)
    else Returned(DEVICE_READY)
  }

  /**
   * The caller is terminated exactly if the bounds check or the seek fails. Otherwise a failed transfer gives its
   * negated status, and a success gives READY; a failed transfer with status -1 looks like a success, and no other
   * does.
   */
  lemma ResultExact(d: Disk, op: Op)
    ensures ResultOf(d, op) == Terminated <==> !(op.b < Capacity(Geom(d)) && op.seekStatus == 1)
    ensures op.b < Capacity(Geom(d)) && op.seekStatus == 1 && op.blockStatus % 0x100 != 1 ==>
              ResultOf(d, op) == Returned(-op.blockStatus)
    ensures Succeeds(Geom(d), op) ==> ResultOf(d, op) == Returned(1)
    ensures ResultOf(d, op) == Returned(1) <==>
              Succeeds(Geom(d), op) || (op.b < Capacity(Geom(d)) && op.seekStatus == 1 && op.blockStatus == -1)
  {
    hide Capacity, Geom;
  }

  class DiskDriver {
    /** What the devices take an operation byte to mean. */
    const kind: Decoder
    const disks: array<Disk>
    /** One DMA buffer a disk. */
    const dma: array2<int>

    ghost predicate Valid()
      reads disks, dma
    {
      && disks.Length == DISKS && dma.Length0 == DISKS && dma.Length1 == DISK_SECTOR_SIZE
      && forall n {:trigger disks[n]} :: 0 <= n < DISKS ==> Formatted(disks[n])
    }

    constructor (kind: Decoder, initial: seq<Disk>)
      requires |initial| == DISKS && forall n :: 0 <= n < DISKS ==> Formatted(initial[n])
      ensures Valid() && this.kind == kind && disks[..] == initial && fresh(disks) && fresh(dma)
    {
      this.kind := kind;
      disks := new Disk[DISKS](n requires 0 <= n < DISKS => initial[n]);
      dma := new int[DISKS, DISK_SECTOR_SIZE];
    }

    /** What is in the DMA buffer of disk n. */
    ghost function Buffer(n: int): (r: seq<int>)
      requires dma.Length0 == DISKS && dma.Length1 == DISK_SECTOR_SIZE && 0 <= n < DISKS
      reads dma
      ensures |r| == DISK_SECTOR_SIZE && forall i :: 0 <= i < DISK_SECTOR_SIZE ==> r[i] == dma[n, i]
    {
      seq(DISK_SECTOR_SIZE, i requires 0 <= i < DISK_SECTOR_SIZE reads dma => dma[n, i])
    }

    /** Disk n with its buffer. */
    ghost function UnitOf(n: int): Unit
      requires Valid() && 0 <= n < DISKS
      reads disks, dma
    {
      Unit(disks[n], Buffer(n))
    }

    /** Nothing but disk n and its buffer changed. */
    twostate predicate OnlyUnit(n: int)
      reads disks, dma
    {
      && (forall m :: 0 <= m < disks.Length && m != n ==> disks[m] == old(disks[m]))
      && (forall m, i :: 0 <= m < dma.Length0 && m != n && 0 <= i < dma.Length1 ==> dma[m, i] == old(dma[m, i]))
    }

    // ----- the device -----

    /** Disk n carries out the word in its command register and completes with the given status. */
    method Execute(n: int, command: int, status: int)
      requires Valid() && 0 <= n < DISKS
      modifies disks, dma
      ensures Valid() && UnitOf(n) == Executed(kind, old(UnitOf(n)), command, status) && OnlyUnit(n)
    {
      var d := disks[n];
      var s := Addressed(d, command);
      if status % 0x100 == DEVICE_READY {
        match kind(Operation(command)) {
          case Seeks =>
            disks[n] := d.(arm := CylinderIn(command));
            assert Formatted(disks[n]);
          case Reads =>
            if OnDisk(Geom(d), s) && s in d.sectors {
              var data := d.sectors[s];
              forall i | 0 <= i < DISK_SECTOR_SIZE {
                dma[n, i] := data[i];
              }
              assert Buffer(n) == data;
            }
          case Writes =>
            if OnDisk(Geom(d), s) && s in d.sectors {
              var data := seq(DISK_SECTOR_SIZE, i requires 0 <= i < DISK_SECTOR_SIZE reads dma, this => dma[n, i]);
              assert data == Buffer(n);
              disks[n] := d.(sectors := d.sectors[s := data]);
              assert Formatted(disks[n]);
            }
          case Ignored =>
        }
      }
    }

    // ----- the operations -----

    /** The copy from the process into the DMA buffer. */
    method CopyIn(n: int, from: array<int>)
      requires Valid() && 0 <= n < DISKS && from.Length == DISK_SECTOR_SIZE
      modifies dma
      ensures Buffer(n) == from[..] && OnlyUnit(n)
    {
      var i := 0;
      while i < DISK_SECTOR_SIZE
        invariant 0 <= i <= DISK_SECTOR_SIZE
        invariant forall j :: 0 <= j < i ==> dma[n, j] == from[j]
        invariant OnlyUnit(n)
      {
        dma[n, i] := from[i];
        i := i + 1;
      }
      assert Buffer(n) == from[..];
    }

    /** The copy from the DMA buffer to the process. */
    method CopyOut(n: int, to: array<int>)
      requires Valid() && 0 <= n < DISKS && to.Length == DISK_SECTOR_SIZE
      modifies to
      ensures to[..] == Buffer(n)
    {
      var i := 0;
      while i < DISK_SECTOR_SIZE
        invariant 0 <= i <= DISK_SECTOR_SIZE
        invariant forall j :: 0 <= j < i ==> to[j] == dma[n, j]
      {
        to[i] := dma[n, i];
        i := i + 1;
      }
      assert to[..] == Buffer(n);
    }

    /**
     * dmaWriteDisk. seekStatus and blockStatus are what the device reports. The disk and its buffer end up as Called
     * says, all other disks stay.
     */
    method DmaWriteDisk(diskNum: int, blockNum: int, from: array<int>, seekStatus: int, blockStatus: int)
      returns (r: Result)
      requires Valid() && from.Length == DISK_SECTOR_SIZE && blockNum >= 0
      requires 0 <= diskNum < DISKS ==> Positive(Geom(disks[diskNum]))
      modifies disks, dma
      ensures Valid() && OnlyUnit(diskNum)
      ensures !(0 <= diskNum < DISKS) ==> r == Terminated
      ensures 0 <= diskNum < DISKS ==>
                var op := Put(blockNum, from[..], seekStatus, blockStatus);
                && r == ResultOf(old(disks[diskNum]), op)
                && UnitOf(diskNum) == Called(kind, SOURCE_CODES, old(UnitOf(diskNum)), op)
    {
      if diskNum < 0 || diskNum >= 8 {
        return Terminated;
      }
      CopyIn(diskNum, from);
      var g := Geom(disks[diskNum]);
      BoundsCheckExact(g, blockNum);
      var s := SectorOf(g, blockNum);
      if s.cyl >= g.maxCyl || s.head >= g.maxHead || s.sect >= g.maxSect {
        return Terminated;
      }
      hide SectorOf, Capacity, Geom, Positive, Executed, SeekCommand, BlockCommand;
      Execute(diskNum, SeekCommand(s.cyl, SEEKCYL), seekStatus);
      if seekStatus != DEVICE_READY {
        return Terminated;
      }
      Execute(diskNum, BlockCommand(s.head, s.sect, WRITEBLK), blockStatus);
      if blockStatus % 0x100 != DEVICE_READY {
        return Returned(-blockStatus);
      }
      r := Returned(DEVICE_READY);
    }

    /** dmaReadDisk: on success the caller gets the buffer, whatever the device has put there. */
    method DmaReadDisk(diskNum: int, blockNum: int, to: array<int>, seekStatus: int, blockStatus: int)
      returns (r: Result)
      requires Valid() && to.Length == DISK_SECTOR_SIZE && blockNum >= 0
      requires 0 <= diskNum < DISKS ==> Positive(Geom(disks[diskNum]))
      modifies disks, dma, to
      ensures Valid() && OnlyUnit(diskNum)
      ensures !(0 <= diskNum < DISKS) ==> r == Terminated && to[..] == old(to[..])
      ensures 0 <= diskNum < DISKS ==>
                var op := Get(blockNum, seekStatus, blockStatus);
                && r == ResultOf(old(disks[diskNum]), op)
                && UnitOf(diskNum) == Called(kind, SOURCE_CODES, old(UnitOf(diskNum)), op)
                && to[..] == if Succeeds(old(Geom(disks[diskNum])), op) then UnitOf(diskNum).buffer else old(to[..])
    {
      if diskNum < 0 || diskNum >= 8 {
        return Terminated;
      }
      var g := Geom(disks[diskNum]);
      BoundsCheckExact(g, blockNum);
      var s := SectorOf(g, blockNum);
      if s.cyl >= g.maxCyl || s.head >= g.maxHead || s.sect >= g.maxSect {
        return Terminated;
      }
      hide SectorOf, Capacity, Geom, Positive, Executed, SeekCommand, BlockCommand;
      Execute(diskNum, SeekCommand(s.cyl, SEEKCYL), seekStatus);
      if seekStatus != DEVICE_READY {
        return Terminated;
      }
      Execute(diskNum, BlockCommand(s.head, s.sect, READBLK), blockStatus);
      if blockStatus % 0x100 != DEVICE_READY {
        return Returned(-blockStatus);
      }
      CopyOut(diskNum, to);
      r := Returned(DEVICE_READY);
    }
  }
}
