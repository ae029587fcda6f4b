/**
 * vmSupport.c over its tables, with initPageTable of initProc.c, uTLB_RefillHandler of exceptions.c and the frame loop
 * of supTerminate. Every phase is proved to do what the state machine of PagerState.dfy does.
 */
module PagerCode {
  import opened PagerState
  import opened PagerSteps
  import opened PagerRuns

  // ----- the words of a page table entry -----

  const PAGESIZE := 4096
  const FRAMEPOOL := 0x20020000
  const ENTRYLO_DIRTY := 1024
  const ENTRYLO_VALID := 512
  const ASID_UNIT := 64

  /** entryHi: (vpn & VPN_MASK) | (asid << ASID_SHIFT) for an asid of six bits. */
  function EntryHi(asid: int, page: int): int { VpnOf(page) * PAGESIZE + asid * ASID_UNIT }

  /** w & ~bit for a single bit. */
  function Cleared(w: int, bit: int): int
    requires bit > 0
  {
    if (w / bit) % 2 == 1 then w - bit else w
  }

  /** What the hardware reads from an entryLo word. */
  function Decoded(w: int): Pte { Pte((w / ENTRYLO_VALID) % 2 == 1, w / PAGESIZE) }

  /** The hardware lets stores through: the dirty bit is on. */
  predicate Writable(w: int) { (w / ENTRYLO_DIRTY) % 2 == 1 }

  /** Different pages of different processes have different entryHi words. */
  lemma EntryHiInjective(a: int, q: int, b: int, r: int)
    requires 0 <= a < 64 && 0 <= b < 64 && IsPage(q) && IsPage(r)
    ensures EntryHi(a, q) == EntryHi(b, r) <==> a == b && q == r
    ensures EntryHi(a, q) / 0x1000 == VpnOf(q) && (EntryHi(a, q) / 64) % 64 == a
  {
  }

  /** The low twelve bits of a word hold its flags, the rest the frame number. */
  lemma DecodedParts(q: int, r: int)
    requires 0 <= r < PAGESIZE
    ensures Decoded(q * PAGESIZE + r) == Pte((r / ENTRYLO_VALID) % 2 == 1, q)
    ensures ((q * PAGESIZE + r) / ENTRYLO_VALID) % 2 == (r / ENTRYLO_VALID) % 2
  {
    FlagsAndFrame(q, r);
  }

  lemma FlagsAndFrame(q: int, r: int)
    requires 0 <= r < PAGESIZE
    ensures (q * PAGESIZE + r) / PAGESIZE == q && (q * PAGESIZE + r) / ENTRYLO_VALID == 8 * q + r / ENTRYLO_VALID
  {
    var w := q * PAGESIZE + r;
    assert w / PAGESIZE == q;
    assert w / ENTRYLO_VALID == 8 * q + r / ENTRYLO_VALID;
  }

  /** A frame's entryLo decodes to that frame; so do the words that initPageTable writes. */
  lemma EntryLoDecodes(f: nat)
    ensures Decoded(FRAMEPOOL + f * PAGESIZE + ENTRYLO_VALID + ENTRYLO_DIRTY) == Pte(true, POOL_PFN + f)
    ensures Decoded(ENTRYLO_DIRTY) == Pte(false, 0) && Decoded(ENTRYLO_VALID + ENTRYLO_DIRTY) == Pte(true, 0)
    ensures Writable(FRAMEPOOL + f * PAGESIZE + ENTRYLO_VALID + ENTRYLO_DIRTY)
    ensures Writable(ENTRYLO_DIRTY) && Writable(ENTRYLO_VALID + ENTRYLO_DIRTY)
    ensures ENTRYLO_DIRTY == 0x400 && FRAMEPOOL + ENTRYLO_VALID + ENTRYLO_DIRTY == 0x2002_0600
  {
    DirtyBit(f);
    hide Writable;
    DecodedParts(POOL_PFN + f, 1536);
    hide Decoded;
    DecodedParts(0, 1024);
    DecodedParts(0, 1536);
    assert FRAMEPOOL + f * PAGESIZE + ENTRYLO_VALID + ENTRYLO_DIRTY == (POOL_PFN + f) * PAGESIZE + 1536;
  }

  lemma DirtyBit(f: nat)
    ensures Writable(FRAMEPOOL + f * PAGESIZE + ENTRYLO_VALID + ENTRYLO_DIRTY)
    ensures Writable(ENTRYLO_DIRTY) && Writable(ENTRYLO_VALID + ENTRYLO_DIRTY)
  {
    Thousands(4 * (POOL_PFN + f) + 1, 512);
    Odd(2 * (POOL_PFN + f));
  }

  lemma Thousands(n: int, r: int)
    requires 0 <= r < 1024
    ensures (n * 1024 + r) / 1024 == n
  {
  }

  lemma Odd(n: int)
    ensures (2 * n + 1) % 2 == 1
  {
  }

  /** Clearing the valid bit touches nothing else. */
  lemma ClearDecodes(w: int)
    ensures Decoded(Cleared(w, ENTRYLO_VALID)) == Decoded(w).(valid := false)
    ensures Writable(Cleared(w, ENTRYLO_VALID)) <==> Writable(w)
  {
    ClearKeepsDirty(w);
    hide Decoded;
    var q, r := w / PAGESIZE, w % PAGESIZE;
    DecodedParts(q, r);
    assert w == q * PAGESIZE + r;
    if (r / ENTRYLO_VALID) % 2 == 1 {
      SubtractValid(r);
      DecodedParts(q, r - ENTRYLO_VALID);
      assert Cleared(w, ENTRYLO_VALID) == q * PAGESIZE + (r - ENTRYLO_VALID);
    }
  }

  lemma ClearKeepsDirty(w: int)
    ensures Cleared(w, ENTRYLO_VALID) / ENTRYLO_DIRTY == w / ENTRYLO_DIRTY
  {
    var q, r := w / ENTRYLO_DIRTY, w % ENTRYLO_DIRTY;
    assert w == q * ENTRYLO_DIRTY + r;
    assert w / ENTRYLO_VALID == 2 * q + r / ENTRYLO_VALID;
  }

  lemma SubtractValid(r: int)
    requires 0 <= r < PAGESIZE && (r / ENTRYLO_VALID) % 2 == 1
    ensures 0 <= r - ENTRYLO_VALID && ((r - ENTRYLO_VALID) / ENTRYLO_VALID) % 2 == 0
  {
    assert (r - ENTRYLO_VALID) / ENTRYLO_VALID == r / ENTRYLO_VALID - 1;
  }

  /** The hardware TLB, keyed by entryHi, holds the entries of tlb. */
  ghost predicate TlbHolds(uprocs: nat, hw: map<int, int>, tlb: map<Key, Pte>) {
    forall a, q {:trigger EntryHi(a, q)} :: 1 <= a <= uprocs && IsPage(q) ==>
      (EntryHi(a, q) in hw <==> Key(a, q) in tlb)
      && (EntryHi(a, q) in hw ==> Decoded(hw[EntryHi(a, q)]) == tlb[Key(a, q)] && Writable(hw[EntryHi(a, q)]))
  }

  lemma TlbPut(uprocs: nat, hw: map<int, int>, tlb: map<Key, Pte>, a: int, q: int, w: int)
    requires TlbHolds(uprocs, hw, tlb) && uprocs < 64 && 1 <= a <= uprocs && IsPage(q) && Writable(w)
    ensures TlbHolds(uprocs, hw[EntryHi(a, q) := w], tlb[Key(a, q) := Decoded(w)])
  {
    forall b, r | 1 <= b <= uprocs && IsPage(r)
      ensures EntryHi(b, r) == EntryHi(a, q) <==> b == a && r == q
    {
      EntryHiInjective(b, r, a, q);
    }
    hide EntryHi, Decoded, Writable;
  }

  class VmSupport {
    const uprocs: nat
    const words: nat
    const swapPool: array<Slot>
    var swapIndex: int
    /** sup_pageTable[page].entryLo of each process. */
    const entryLo: array2<int>
    /** The hardware TLB, by entryHi. */
    var tlb: map<int, int>
    const ram: array<seq<int>>
    const flash: array2<seq<int>>
    ghost var s: S

    ghost predicate Valid()
      reads this, swapPool, entryLo, ram, flash
    {
      Inv(s) && Matches(s)
    }

    /** The tables hold what t says. */
    ghost predicate Matches(t: S)
      reads this, swapPool, entryLo, ram, flash
    {
      && t.uprocs == uprocs < 64 && t.words == words
      && t.swap == swapPool[..] && t.swapIndex == swapIndex && t.ram == ram[..]
      && Tables(t.pt) && Backing(t.flash) && TlbHolds(uprocs, tlb, t.tlb)
    }

    /** One more event, once the tables hold what it leads to. */
    ghost method Follow(e: Event)
      requires Inv(s) && Enabled(s, e) && !Harms(s, e) && !e.Write? && Matches(Step(s, e))
      modifies this`s
      ensures Valid() && s == Step(old(s), e) && SameMemory(old(s), s) && Reaches(old(s), [e], s)
    {
      StepInv(s, e);
      ReachesOne(s, e);
      hide Inv, SameMemory, Step, Enabled, Harms, Reaches;
      s := Step(s, e);
    }

    ghost predicate Tables(pt: seq<seq<Pte>>)
      reads entryLo
    {
      && entryLo.Length0 == |pt| == uprocs + 1 && entryLo.Length1 == PAGE_TABLE_SIZE
      && (forall a {:trigger pt[a]} :: 1 <= a <= uprocs ==> |pt[a]| == PAGE_TABLE_SIZE)
      && forall a, q {:trigger entryLo[a, q]} :: 1 <= a <= uprocs && IsPage(q) ==>
           Decoded(entryLo[a, q]) == pt[a][q] && Writable(entryLo[a, q])
    }

    ghost predicate Backing(fl: seq<seq<seq<int>>>)
      reads flash
    {
      && flash.Length0 == |fl| == uprocs + 1 && flash.Length1 == PAGE_TABLE_SIZE
      && (forall a {:trigger fl[a]} :: 1 <= a <= uprocs ==> |fl[a]| == PAGE_TABLE_SIZE)
      && forall a, q {:trigger flash[a, q]} :: 1 <= a <= uprocs && IsPage(q) ==> flash[a, q] == fl[a][q]
    }

    /** A store into slot f, which is what event e does to the tables. */
    method StoreSlot(f: int, slot: Slot, ghost e: Event)
      requires Valid() && 0 <= f < swapPool.Length && Enabled(s, e) && !Harms(s, e) && !e.Write?
      requires Step(s, e) == s.(swap := s.swap[f := slot], mode := Step(s, e).mode, pager := Step(s, e).pager)
      modifies swapPool, this`s
      ensures Valid() && s == Step(old(s), e) && SameMemory(old(s), s) && Reaches(old(s), [e], s)
      ensures swapPool[..] == old(swapPool[..])[f := slot] && swapPool[f] == slot
    {
      hide Inv, Tables, Backing, TlbHolds, SameMemory, Reaches, Harms, Step, Enabled;
      swapPool[f] := slot;
      Follow(e);
    }

    // ----- start-up -----

    /** initSwapPool, and initPageTable for every process, over flash devices with any contents. */
    constructor (uprocs: nat, words: nat, frames: nat, fl: seq<seq<seq<int>>>)
      requires uprocs < 64 && frames > 0 && |fl| == uprocs + 1
      requires forall a :: 1 <= a <= uprocs ==> |fl[a]| == PAGE_TABLE_SIZE
      requires forall a, q :: 1 <= a <= uprocs && IsPage(q) ==> |fl[a][q]| == words
      ensures Valid() && Initial(s) && s.flash == fl && |s.swap| == frames && s.uprocs == uprocs && s.words == words
    {
      this.uprocs, this.words := uprocs, words;
      swapPool := new Slot[frames];
      swapIndex := 0;
      entryLo := new int[uprocs + 1, PAGE_TABLE_SIZE];
      tlb := map[];
      ram := new seq<int>[frames](_ => Zeros(words));
      flash := new seq<int>[uprocs + 1, PAGE_TABLE_SIZE]((a, q) requires 0 <= a <= uprocs && 0 <= q < PAGE_TABLE_SIZE =>
        if a == 0 then [] else fl[a][q]);
      s := BootState(uprocs, words, frames, fl);
      new;
      hide Inv, Initial, TlbHolds, Decoded, Writable, BootState;
      assert Backing(s.flash);
      hide Backing;
      InitSwapPool();
      InitPageTables();
      assert Tables(s.pt);
      hide Tables;
      assert s.swap == swapPool[..] && s.ram == ram[..];
      NothingHeld(uprocs);
    }

    /** initSwapPool: every frame is unoccupied. */
    method InitSwapPool()
      modifies swapPool
      ensures forall f :: 0 <= f < swapPool.Length ==> swapPool[f] == EMPTY
    {
      var i := 0;
      while i < swapPool.Length
        invariant 0 <= i <= swapPool.Length
        invariant forall f :: 0 <= f < i ==> swapPool[f] == EMPTY
      {
        swapPool[i] := Slot(false, -1, -1);
        i := i + 1;
      }
    }

    /** initUProcs, for the page tables. */
    method InitPageTables()
      requires entryLo.Length0 == uprocs + 1 && entryLo.Length1 == PAGE_TABLE_SIZE
      modifies entryLo
      ensures forall a, q :: 1 <= a <= uprocs && IsPage(q) ==>
                Decoded(entryLo[a, q]) == Pte(q == DATA_PAGE, 0) && Writable(entryLo[a, q])
    {
      hide Decoded, Writable;
      var a := 1;
      while a <= uprocs
        invariant 1 <= a <= uprocs + 1
        invariant forall b, q :: 1 <= b < a && IsPage(q) ==>
                    Decoded(entryLo[b, q]) == Pte(q == DATA_PAGE, 0) && Writable(entryLo[b, q])
      {
        InitPageTable(a);
        a := a + 1;
      }
    }

    /** initPageTable: every page is writable and only the data page is valid. */
    method InitPageTable(a: int)
      requires 0 <= a < entryLo.Length0 && entryLo.Length1 == PAGE_TABLE_SIZE
      modifies entryLo
      ensures forall q :: IsPage(q) ==> Decoded(entryLo[a, q]) == Pte(q == DATA_PAGE, 0) && Writable(entryLo[a, q])
      ensures forall b, q :: 0 <= b < entryLo.Length0 && b != a && IsPage(q) ==> entryLo[b, q] == old(entryLo[b, q])
    {
      EntryLoDecodes(0);
      var i := 0;
      while i < PAGE_TABLE_SIZE
        invariant 0 <= i <= PAGE_TABLE_SIZE
        invariant forall q :: 0 <= q < i ==> Decoded(entryLo[a, q]) == Pte(q == DATA_PAGE, 0) && Writable(entryLo[a, q])
        invariant forall b, q :: 0 <= b < entryLo.Length0 && b != a && IsPage(q) ==> entryLo[b, q] == old(entryLo[b, q])
      {
        if i == 1 {
          entryLo[a, i] := ENTRYLO_VALID + ENTRYLO_DIRTY;
        } else {
          entryLo[a, i] := ENTRYLO_DIRTY;
        }
        i := i + 1;
      }
    }

    // ----- small operations -----

    /** One round of getFreeFrame's loop. */
    method ScanSlot(i: nat) returns (found: bool)
      requires Valid() && s.pager.Scanning? && s.pager.i == i < swapPool.Length
      modifies this`s
      ensures Valid() && s == Step(old(s), Scan) && SameMemory(old(s), s)
      ensures var p := old(s).pager;
              && found == !swapPool[p.i].occupied
              && s == old(s).(pager := if found then Loading(p.a, p.page, p.i) else Scanning(p.a, p.page, p.i + 1))
    {
      StepInv(s, Scan);
      hide Inv, Tables, Backing, TlbHolds, SameMemory;
      found := !swapPool[i].occupied;
      s := Step(s, Scan);
    }

    /** getFreeFrame, when nobody else moves in between: the first frame that is not occupied, or -1. */
    method GetFreeFrame() returns (f: int)
      requires Valid() && s.pager.Scanning? && s.pager.i == 0
      modifies this`s
      ensures Valid() && SameMemory(old(s), s)
      ensures forall j :: 0 <= j < (if f == -1 then swapPool.Length else f) ==>
                0 <= j < swapPool.Length && swapPool[j].occupied
      ensures f != -1 ==> 0 <= f < swapPool.Length && !swapPool[f].occupied
      ensures var p := old(s).pager;
              s == old(s).(pager := if f == -1 then Scanning(p.a, p.page, swapPool.Length) else Loading(p.a, p.page, f))
    {
      ghost var s0 := s;
      SameRefl(s0);
      hide Inv, Tables, Backing, TlbHolds, SameMemory, Step;
      var i := 0;
      while i < swapPool.Length
        invariant 0 <= i <= swapPool.Length && Valid() && SameMemory(s0, s)
        invariant s == s0.(pager := Scanning(s0.pager.a, s0.pager.page, i))
        invariant forall j :: 0 <= j < i ==> swapPool[j].occupied
      {
        ghost var s1 := s;
        var found := ScanSlot(i);
        SameTrans(s0, s1, s);
        if found {
          return i;
        }
        i := i + 1;
      }
      f := -1;
    }

    /** pickVictimFrame: the frame whose turn it is; the next one in rotation is next. */
    method PickVictimFrame() returns (victim: int)
      requires 0 <= swapIndex < swapPool.Length
      modifies this`swapIndex
      ensures victim == Victim(old(swapIndex), swapPool.Length, 0)
      ensures swapIndex == Victim(old(swapIndex), swapPool.Length, 1)
    {
      victim := swapIndex;
      swapIndex := (swapIndex + 1) % swapPool.Length;
    }

    /** freeFrame: three stores, and no other slot changes. */
    method FreeFrame(ghost a: int, f: nat)
      requires Valid() && !s.pager.Lost? && 1 <= a <= uprocs && s.mode[a] == Clearing(f, Occupied)
      requires f < swapPool.Length && swapPool[f].occupied && swapPool[f].asid == a
      modifies swapPool, this`s
      ensures Valid() && SameMemory(old(s), s) && Reaches(old(s), [Clear(a)] + [Clear(a)] + [Clear(a)], s)
      ensures swapPool[..] == old(swapPool[..])[f := EMPTY]
      ensures s == old(s).(swap := old(s).swap[f := EMPTY], mode := old(s).mode[a := Dying(f + 1)])
    {
      ghost var s0 := s;
      ghost var s1, s2 := OwnWipe(s0, a);
      assert swapPool[f] == s0.swap[f];
      hide Inv, Matches, SameMemory, Reaches, Typed, Harms, Step, Enabled, Runs, Run, Harmless;
      StoreSlot(f, swapPool[f].(occupied := false), Clear(a));
      StoreSlot(f, swapPool[f].(asid := -1), Clear(a));
      StoreSlot(f, swapPool[f].(vpn := -1), Clear(a));
      SameTrans(s0, s1, s2);
      SameTrans(s0, s2, s);
      ReachesOn(s0, [Clear(a)], s1, [Clear(a)], s2);
      ReachesOn(s0, [Clear(a)] + [Clear(a)], s2, [Clear(a)], s);
    }

    /** Page index of a vpn, as every routine computes it. */
    method PageIndex(vpn: int) returns (pageIndex: int)
      ensures pageIndex == PageOf(vpn)
    {
      if vpn == STACK_VPN {
        pageIndex := STACK_PAGE_INDEX;
      } else {
        pageIndex := vpn - BASE_VPN;
      }
    }

    /**
     * uTLB_RefillHandler: the page table entry for vpn goes into the TLB; PANIC, reported by the result, if vpn is out
     * of range.
     */
    method RefillHandler(a: int, vpn: int) returns (panic: bool)
      requires Valid() && 1 <= a <= uprocs && s.mode[a].Running? && !s.pager.Lost?
      requires IsPage(PageOf(vpn)) ==> Key(a, PageOf(vpn)) !in s.tlb
      modifies this`tlb, this`s
      ensures panic <==> !IsPage(PageOf(vpn))
      ensures Valid() && s == if panic then old(s) else Step(old(s), Refill(a, PageOf(vpn)))
      ensures tlb == if panic then old(tlb) else old(tlb)[EntryHi(a, PageOf(vpn)) := entryLo[a, PageOf(vpn)]]
    {
      var pageIndex := PageIndex(vpn);
      if pageIndex < 0 || pageIndex >= PAGE_TABLE_SIZE {
        return true;
      }
      var entry := entryLo[a, pageIndex];
      assert Decoded(entry) == Entry(s, a, pageIndex);
      StepInv(s, Refill(a, pageIndex));
      TlbPut(uprocs, tlb, s.tlb, a, pageIndex, entry);
      hide Inv, Tables, Backing, TlbHolds, EntryHi, Decoded, Writable;
      tlb := tlb[EntryHi(a, pageIndex) := entry];
      s := Step(s, Refill(a, pageIndex));
      panic := false;
    }

    // ----- pagerHandler, phase by phase -----

    /** SYS3 on the swap pool semaphore returns: a holds the lock. */
    ghost method Acquire(a: int)
      requires Valid() && Enabled(s, Lock(a))
      modifies this`s
      ensures Valid() && s == Step(old(s), Lock(a))
      ensures SameMemory(old(s), s) && s.mode == old(s).mode && s.pager == Scanning(a, old(s).mode[a].page, 0)
      ensures s.swap == old(s).swap
    {
      StepInv(s, Lock(a));
      hide Inv, Tables, Backing, TlbHolds;
      s := Step(s, Lock(a));
    }

    /** The victim whose turn it is, and the owner its slot names: nobody, if it has been wiped. */
    method PickVictim() returns (f: int, victimAsid: int)
      requires Valid() && s.pager.Scanning? && s.pager.i >= swapPool.Length
      modifies this`swapIndex, this`s
      ensures Valid() && s == Step(old(s), Pick) && SameMemory(old(s), s) && s.mode == old(s).mode
      ensures f == old(s).swapIndex && 0 <= f < swapPool.Length && victimAsid == swapPool[f].asid
      ensures s.pager == Reading(old(s).pager.a, old(s).pager.page, f, victimAsid)
    {
      hide Coherent, Owned, Slots, Modes, HolderKnows, Tables, Backing, TlbHolds, SameMemory, Reaches;
      f := PickVictimFrame();
      victimAsid := swapPool[f].asid;
      Follow(Pick);
    }

    /** The page that the victim's slot names; the pager is lost exactly if one of the two words has been wiped. */
    method ReadVictimPage(f: int, victimAsid: int) returns (victimVpn: int)
      requires Valid() && s.pager.Reading? && s.pager.f == f && s.pager.va == victimAsid
      modifies this`s
      ensures Valid() && s == Step(old(s), ReadVpn) && SameMemory(old(s), s) && s.mode == old(s).mode
      ensures 0 <= f < swapPool.Length && victimVpn == swapPool[f].vpn
      ensures s.pager == if victimAsid == -1 || victimVpn == -1
                         then Lost(old(s).pager.a, old(s).pager.page, f)
                         else Picked(old(s).pager.a, old(s).pager.page, f, victimAsid, PageOf(victimVpn))
    {
      PickReads(s);
      assert 0 <= f < swapPool.Length;
      hide Coherent, Owned, Slots, Modes, HolderKnows, Tables, Backing, TlbHolds, SameMemory, Reaches;
      victimVpn := swapPool[f].vpn;
      Follow(ReadVpn);
    }

    /** Nobody has wiped the slot whose turn it is. */
    lemma WholeVictim()
      requires Valid() && s.pager.Scanning? && s.swap[s.swapIndex].occupied
      ensures s.swap[s.swapIndex].asid != -1 && s.swap[s.swapIndex].vpn != -1
    {
      assert SlotAt(s, s.swapIndex);
    }

    /** The cleared word stands for the evicted entry, in the page table and in the TLB. */
    lemma EvictWord(asid: int, page: int)
      requires Valid() && s.pager.Picked? && s.pager.va == asid && s.pager.vp == page
      ensures 1 <= asid < entryLo.Length0 && 0 <= page < entryLo.Length1
      ensures var e := Cleared(entryLo[asid, page], ENTRYLO_VALID);
              && Writable(e) && Evicted(s).pt == s.pt[asid := s.pt[asid][page := Decoded(e)]]
              && TlbHolds(uprocs, if EntryHi(asid, page) in tlb then tlb[EntryHi(asid, page) := e] else tlb,
                  Evicted(s).tlb)
    {
      var w := entryLo[asid, page];
      ClearDecodes(w);
      TlbPut(uprocs, tlb, s.tlb, asid, page, Cleared(w, ENTRYLO_VALID));
      assert Decoded(w) == Entry(s, asid, page);
      assert EntryHi(asid, page) in tlb <==> Key(asid, page) in s.tlb;
      hide Inv, Tables, Backing, TlbHolds, Decoded, Writable, Cleared, EntryHi;
    }

    /** TLBP, and TLBWI if the probe hits. */
    method ProbeAndWrite(entryHi: int, e: int)
      modifies this`tlb
      ensures tlb == if entryHi in old(tlb) then old(tlb)[entryHi := e] else old(tlb)
    {
      if entryHi in tlb {
        tlb := tlb[entryHi := e];
      }
    }

    /** Step 8, with interrupts off: the victim's entry becomes invalid, in the page table and in the TLB. */
    method EvictVictim(victimAsid: int, victimVpn: int)
      requires Valid() && s.pager.Picked? && s.pager.va == victimAsid && s.pager.vp == PageOf(victimVpn)
      modifies entryLo, this`tlb, this`s
      ensures Valid() && s == Step(old(s), Evict)
      ensures SameMemory(old(s), s) && s.mode == old(s).mode
      ensures s.pager == WritingBack(old(s).pager.a, old(s).pager.page, old(s).pager.f, old(s).pager.va,
               old(s).pager.vp)
    {
      var page := PageIndex(victimVpn);
      EvictWord(victimAsid, page);
      ghost var s1 := Evicted(s);
      assert s1 == Step(s, Evict) && s1 == s.(pt := s1.pt, tlb := s1.tlb, pager := s1.pager);
      hide Inv, Backing, TlbHolds, EntryHi, Decoded, Writable, Cleared, SameMemory, Step, Reaches;
      var e := Cleared(entryLo[victimAsid, page], ENTRYLO_VALID);
      entryLo[victimAsid, page] := e;
      assert Tables(s1.pt);
      hide Tables;
      ProbeAndWrite(EntryHi(victimAsid, page), e);
      Follow(Evict);
    }

    /** writePageToBackingStore: the frame goes to its owner's flash device. */
    method WritePageToBackingStore(asid: int, vpn: int, frame: int)
      requires Valid() && s.pager.WritingBack? && s.pager.va == asid && s.pager.vp == PageOf(vpn) && s.pager.f == frame
      modifies flash, this`s
      ensures Valid() && s == Step(old(s), FinishWrite)
      ensures SameMemory(old(s), s) && s.mode == old(s).mode
      ensures s.pager == Loading(old(s).pager.a, old(s).pager.page, old(s).pager.f)
    {
      StepInv(s, FinishWrite);
      var page := PageIndex(vpn);
      ghost var fl := Step(s, FinishWrite).flash;
      assert ram[frame] == s.ram[frame];
      hide Inv, Tables, TlbHolds;
      flash[asid, page] := ram[frame];
      assert Backing(fl);
      hide Backing;
      s := Step(s, FinishWrite);
    }

    /** loadPageFromBackingStore: the missing page comes from its owner's flash device. */
    method LoadPageFromBackingStore(asid: int, vpn: int, frame: int)
      requires Valid() && s.pager.Loading? && s.pager.a == asid && s.pager.page == PageOf(vpn) && s.pager.f == frame
      modifies ram, this`s
      ensures Valid() && s == Step(old(s), FinishLoad)
      ensures SameMemory(old(s), s) && s.mode == old(s).mode
      ensures s.pager == Recording(old(s).pager.a, old(s).pager.page, old(s).pager.f, Asid)
    {
      StepInv(s, FinishLoad);
      var page := PageIndex(vpn);
      assert flash[asid, page] == s.flash[asid][page];
      hide Inv, Tables, Backing, TlbHolds;
      ram[frame] := flash[asid, page];
      s := Step(s, FinishLoad);
    }

    /** Step 10: three stores, after which the frame's slot records its new owner. */
    method RecordFrame(asid: int, vpn: int, frame: int)
      requires Valid() && s.pager.Recording? && s.pager.a == asid && VpnOf(s.pager.page) == vpn && s.pager.f == frame
      requires s.pager.field.Asid?
      modifies swapPool, this`s
      ensures Valid() && Reaches(old(s), [Record] + [Record] + [Record], s)
      ensures SameMemory(old(s), s)
      ensures s == old(s).(swap := old(s).swap[frame := Slot(true, asid, vpn)],
                           pager := Recorded(old(s).pager.a, old(s).pager.page, old(s).pager.f))
    {
      ghost var s0 := s;
      hide Coherent, Owned, Slots, Modes, HolderKnows, Tables, Backing, TlbHolds, SameMemory, Reaches;
      StoreSlot(frame, swapPool[frame].(asid := asid), Record);
      ghost var s1 := s;
      StoreSlot(frame, swapPool[frame].(vpn := vpn), Record);
      ghost var s2 := s;
      StoreSlot(frame, swapPool[frame].(occupied := true), Record);
      SameTrans(s0, s1, s2);
      SameTrans(s0, s2, s);
      ReachesOn(s0, [Record], s1, [Record], s2);
      ReachesOn(s0, [Record] + [Record], s2, [Record], s);
    }

    /** Step 11: with interrupts off, the entry becomes valid and the TLB is flushed. */
    method InstallPage(asid: int, pageIndex: int, frame: int)
      requires Valid() && s.pager == Recorded(asid, pageIndex, frame)
      modifies entryLo, this`tlb, this`s
      ensures Valid() && s == Step(old(s), Install)
      ensures SameMemory(old(s), s) && s.mode == old(s).mode && s.pager == Installed(asid, pageIndex, frame)
      ensures Entry(s, asid, pageIndex).valid
    {
      StepInv(s, Install);
      EntryLoDecodes(frame);
      NothingHeld(uprocs);
      ghost var pt := Step(s, Install).pt;
      hide Inv, Backing, TlbHolds, Decoded, Writable;
      entryLo[asid, pageIndex] := FRAMEPOOL + frame * PAGESIZE + ENTRYLO_VALID + ENTRYLO_DIRTY;
      assert Tables(pt);
      hide Tables;
      tlb := map[];
      s := Step(s, Install);
    }

    /** SYS4 on the swap pool semaphore, and back to the process. */
    ghost method ReleaseLock()
      requires Valid() && s.pager.Installed?
      modifies this`s
      ensures Valid() && s == Step(old(s), Unlock)
      ensures SameMemory(old(s), s) && s.mode == old(s).mode[old(s).pager.a := Running] && s.pager == Unlocked
      ensures s.pt == old(s).pt
    {
      StepInv(s, Unlock);
      hide Inv, Tables, Backing, TlbHolds;
      s := Step(s, Unlock);
    }

    /**
     * pagerHandler, when nobody else moves in between: the missing page is mapped, the process runs again, and nobody's
     * memory has changed.
     */
    method PagerHandler(a: int, vpn: int)
      requires Valid() && 1 <= a <= uprocs && s.pager.Unlocked? && s.mode[a] == Faulting(PageOf(vpn)) && IsVpn(vpn)
      modifies swapPool, entryLo, ram, flash, this`swapIndex, this`tlb, this`s
      ensures Valid() && s.pager.Unlocked? && s.mode == old(s).mode[a := Running] && Entry(s, a, PageOf(vpn)).valid
      ensures SameMemory(old(s), s)
    {
      PageVpn(PageOf(vpn), vpn);
      ghost var s0 := s;
      Acquire(a);
      hide Inv, Tables, Backing, TlbHolds, Step, SameMemory, PageOf, VpnOf, Reaches;
      var pageIndex := PageIndex(vpn);
      ghost var s1 := s;
      var f := GetFreeFrame();
      SameTrans(s0, s1, s);
      if f == -1 {
        s1 := s;
        WholeVictim();
        var victimAsid;
        f, victimAsid := PickVictim();
        SameTrans(s0, s1, s);
        s1 := s;
        var victimVpn := ReadVictimPage(f, victimAsid);
        SameTrans(s0, s1, s);
        s1 := s;
        EvictVictim(victimAsid, victimVpn);
        SameTrans(s0, s1, s);
        s1 := s;
        WritePageToBackingStore(victimAsid, victimVpn, f);
        SameTrans(s0, s1, s);
      }
      s1 := s;
      LoadPageFromBackingStore(a, vpn, f);
      SameTrans(s0, s1, s);
      s1 := s;
      RecordFrame(a, vpn, f);
      SameTrans(s0, s1, s);
      s1 := s;
      InstallPage(a, pageIndex, f);
      SameTrans(s0, s1, s);
      s1 := s;
      ReleaseLock();
      SameTrans(s0, s1, s);
    }

    /** The test in one round of supTerminate's loop. */
    method CheckFrame(a: int, i: nat) returns (mine: bool)
      requires Valid() && 1 <= a <= uprocs && s.mode[a] == Dying(i) && i < swapPool.Length && !s.pager.Lost?
      modifies this`s
      ensures Valid() && s == Step(old(s), Check(a)) && SameMemory(old(s), s) && Reaches(old(s), [Check(a)], s)
      ensures mine <==> swapPool[i].occupied && swapPool[i].asid == a
      ensures s == old(s).(mode := old(s).mode[a := if mine then Clearing(i, Occupied) else Dying(i + 1)])
    {
      hide Coherent, Owned, Slots, Modes, HolderKnows, Tables, Backing, TlbHolds, SameMemory, Reaches;
      mine := swapPool[i].occupied && swapPool[i].asid == a;
      Follow(Check(a));
    }

    /** One round of supTerminate's loop, when nobody else moves in between. */
    method ReleaseFrame(a: int, i: nat)
      requires Valid() && 1 <= a <= uprocs && s.mode[a] == Dying(i) && i < swapPool.Length && !s.pager.Lost?
      modifies swapPool, this`s
      ensures Valid() && SameMemory(old(s), s)
      ensures s == old(s).(swap := old(s).swap[i := Freed(old(s).swap[i], a)],
                           mode := old(s).mode[a := Dying(i + 1)])
    {
      ghost var s0 := s;
      hide Coherent, Owned, Slots, Modes, HolderKnows, Tables, Backing, TlbHolds, SameMemory, Reaches, Step;
      var mine := CheckFrame(a, i);
      if mine {
        ghost var s1 := s;
        FreeFrame(a, i);
        SameTrans(s0, s1, s);
      }
    }

    /** supTerminate's loop: every frame of a becomes free, and no other; then a is gone. */
    method ReleaseFrames(a: int)
      requires Valid() && 1 <= a <= uprocs && s.mode[a] == Dying(0) && !s.pager.Lost?
      modifies swapPool, this`s
      ensures Valid() && s.mode == old(s).mode[a := Dead] && SameMemory(old(s), s)
      ensures forall f :: 0 <= f < |s.swap| ==> s.swap[f] == Freed(old(s).swap[f], a)
    {
      var i := 0;
      ghost var s0 := s;
      SameRefl(s0);
      hide Inv, Tables, Backing, TlbHolds, Step, SameMemory, Freed;
      while i < swapPool.Length
        invariant 0 <= i <= swapPool.Length == |s.swap| == |s0.swap|
        invariant Valid() && s.mode == s0.mode[a := Dying(i)] && s.pager == s0.pager && SameMemory(s0, s)
        invariant forall f :: 0 <= f < |s.swap| ==> s.swap[f] == if f < i then Freed(s0.swap[f], a) else s0.swap[f]
      {
        ghost var s1 := s;
        ReleaseFrame(a, i);
        SameTrans(s0, s1, s);
        i := i + 1;
      }
      ghost var s1 := s;
      Leave(a);
      SameTrans(s0, s1, s);
    }

    ghost method Leave(a: int)
      requires Valid() && 1 <= a <= uprocs && s.mode[a] == Dying(swapPool.Length) && !s.pager.Lost?
      modifies this`s
      ensures Valid() && SameMemory(old(s), s) && s == old(s).(mode := old(s).mode[a := Dead])
    {
      hide Inv, Tables, Backing, TlbHolds, SameMemory, Reaches;
      Follow(Exit(a));
    }
  }

  /** A slot that process a has just found to be its own stays its own until a has wiped it. */
  lemma OwnWipe(s: S, a: int) returns (s1: S, s2: S)
    requires Inv(s) && IsAsid(s, a) && s.mode[a].Clearing? && s.mode[a].field.Occupied? && !s.pager.Lost?
    requires s.swap[s.mode[a].i].occupied && s.swap[s.mode[a].i].asid == a
    ensures Enabled(s, Clear(a)) && !Harms(s, Clear(a)) && s1 == Step(s, Clear(a))
    ensures Typed(s1) && Enabled(s1, Clear(a)) && !Harms(s1, Clear(a)) && s2 == Step(s1, Clear(a))
    ensures Typed(s2) && Enabled(s2, Clear(a)) && !Harms(s2, Clear(a))
    ensures var i, slot := s.mode[a].i, s.swap[s.mode[a].i];
            && s1 == s.(swap := s.swap[i := slot.(occupied := false)], mode := s.mode[a := Clearing(i, Asid)])
            && s2 == s.(swap := s.swap[i := Slot(false, -1, slot.vpn)], mode := s.mode[a := Clearing(i, Vpn)])
            && Step(s2, Clear(a)) == s.(swap := s.swap[i := EMPTY], mode := s.mode[a := Dying(i + 1)])
  {
    hide Coherent, Owned, Slots, Modes;
    s1 := Step(s, Clear(a));
    StepTyped(s, Clear(a));
    s2 := Step(s1, Clear(a));
    StepTyped(s1, Clear(a));
  }

  /** A slot once its owner, if that is a, has given it up. */
  function Freed(slot: Slot, a: int): Slot { if slot.occupied && slot.asid == a then EMPTY else slot }

  function Repeated<T>(x: T, n: nat): (r: seq<T>)
    ensures |r| == n && forall i :: 0 <= i < n ==> r[i] == x
  {
    seq(n, _ => x)
  }

  lemma NothingHeld(uprocs: nat)
    ensures TlbHolds(uprocs, map[], map[])
  {
  }

  function Zeros(n: nat): (r: seq<int>)
    ensures |r| == n
  {
    seq(n, _ => 0)
  }

  /** The state at boot, over flash devices with the contents fl. */
  ghost function BootState(uprocs: nat, words: nat, frames: nat, fl: seq<seq<seq<int>>>): (s: S)
    requires frames > 0 && |fl| == uprocs + 1
    requires forall a :: 1 <= a <= uprocs ==> |fl[a]| == PAGE_TABLE_SIZE
    requires forall a, q :: 1 <= a <= uprocs && IsPage(q) ==> |fl[a][q]| == words
    ensures Initial(s) && Inv(s) && s.uprocs == uprocs && s.words == words && s.flash == fl && s.tlb == map[]
    ensures s.swap == Repeated(EMPTY, frames) && s.ram == Repeated(Zeros(words), frames) && s.swapIndex == 0
    ensures s.pt == Repeated(FirstTable(), uprocs + 1)
  {
    var s := S(uprocs, words, Repeated(EMPTY, frames), 0, Repeated(FirstTable(), uprocs + 1), map[],
               Repeated(Zeros(words), frames), fl, Repeated(Running, uprocs + 1), Unlocked);
    hide Inv;
    InitialInv(s);
    s
  }

  /** A page table after initPageTable. */
  function FirstTable(): (r: seq<Pte>)
    ensures |r| == PAGE_TABLE_SIZE && forall q :: IsPage(q) ==> r[q] == Pte(q == DATA_PAGE, 0)
  {
    seq(PAGE_TABLE_SIZE, q => Pte(q == DATA_PAGE, 0))
  }
}
