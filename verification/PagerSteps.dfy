/** Every pager event keeps the invariants and what each live process sees. */
module PagerSteps {
  import opened Sequences
  import opened PagerState

  /** What a live process would read from page q: its frame, or the frame on its way to flash, or flash. */
  ghost function Content(s: S, a: int, q: int): seq<int>
    requires Inv(s) && IsLive(s, a) && IsPage(q) && q != DATA_PAGE
  {
    if Entry(s, a, q).valid then
      assert OwnsAt(s, a, q);
      s.ram[Entry(s, a, q).pfn - POOL_PFN]
    else if s.pager.WritingBack? && s.pager.va == a && s.pager.vp == q then s.ram[s.pager.f]
    else s.flash[a][q]
  }

  /** Nobody's memory changed, except that some processes stopped using theirs. */
  ghost predicate SameMemory(s: S, s1: S) {
    && Inv(s) && Inv(s1) && s1.uprocs == s.uprocs && s1.words == s.words
    && (forall a {:trigger IsLive(s1, a)} :: IsLive(s1, a) ==> IsLive(s, a))
    && forall a, q {:trigger Content(s1, a, q)} :: IsLive(s1, a) && IsPage(q) && q != DATA_PAGE ==>
         Content(s1, a, q) == Content(s, a, q)
  }

  lemma SameTrans(s: S, s1: S, s2: S)
    requires SameMemory(s, s1) && SameMemory(s1, s2)
    ensures SameMemory(s, s2)
  {
    hide Placed, Coherent, Owned, Slots, Modes, HolderKnows, Content;
    forall a | IsLive(s2, a) ensures IsLive(s, a) {
      assert IsLive(s1, a);
    }
    forall a, q | IsLive(s2, a) && IsPage(q) && q != DATA_PAGE ensures Content(s2, a, q) == Content(s, a, q) {
      assert IsLive(s1, a);
      assert Content(s2, a, q) == Content(s1, a, q);
    }
  }

  lemma SameRefl(s: S)
    requires Inv(s)
    ensures SameMemory(s, s)
  {
  }

  /** Same tables, frames and flash, and no write back under way: the same contents. */
  lemma SameContents(s: S, s1: S)
    requires Inv(s) && Inv(s1) && s1.uprocs == s.uprocs && s1.words == s.words
    requires s1.pt == s.pt && s1.ram == s.ram && s1.flash == s.flash
    requires s1.pager == s.pager || (!s.pager.WritingBack? && !s1.pager.WritingBack?)
    requires forall a {:trigger IsLive(s1, a)} :: IsLive(s1, a) ==> IsLive(s, a)
    ensures SameMemory(s, s1)
  {
    hide Coherent, Owned, Slots, Modes, HolderKnows, Placed;
  }

  // ----- what each part of the state may do -----

  lemma ModeInv(s: S, a: int, m: Mode)
    requires Inv(s) && IsAsid(s, a) && Fits(s, m) && ModeIs(s, a, m)
    requires s.mode[a].Faulting? ==> s.pager.Unlocked? || s.pager.a != a
    requires m.Running? || m.Faulting? ==> IsLive(s, a)
    ensures Inv(s.(mode := s.mode[a := m]))
  {
    var s1 := s.(mode := s.mode[a := m]);
    forall x | x in s1.tlb ensures CoherentAt(s1, x) { assert CoherentAt(s, x); }
    assert Coherent(s1);
    hide Coherent, CoherentAt;
    forall b | IsAsid(s1, b) ensures ModeAt(s1, b) { assert ModeAt(s, b); }
    assert Modes(s1);
    hide Modes, ModeAt, ModeIs;
    forall b, q ensures OwnsAt(s1, b, q) { assert OwnsAt(s, b, q); }
    forall f | IsFrame(s1, f) ensures SlotAt(s1, f) { assert SlotAt(s, f); }
  }

  /** A process other than the pager's moves on, and none comes back to life. */
  lemma ModeChange(s: S, a: int, m: Mode)
    requires Inv(s) && IsAsid(s, a) && Fits(s, m) && ModeIs(s, a, m)
    requires s.mode[a].Faulting? ==> s.pager.Unlocked? || s.pager.a != a
    requires m.Running? || m.Faulting? ==> IsLive(s, a)
    ensures SameMemory(s, s.(mode := s.mode[a := m]))
  {
    ModeInv(s, a, m);
    hide Coherent, Owned, Slots, Modes, HolderKnows;
    SameContents(s, s.(mode := s.mode[a := m]));
  }

  /** The TLB changes. */
  lemma TlbChange(s: S, tlb: map<Key, Pte>)
    requires Inv(s) && Coherent(s.(tlb := tlb))
    ensures SameMemory(s, s.(tlb := tlb))
  {
    var s1 := s.(tlb := tlb);
    assert Inv(s1) by {
      hide Coherent;
      forall b, q ensures OwnsAt(s1, b, q) { assert OwnsAt(s, b, q); }
      forall f | IsFrame(s1, f) ensures SlotAt(s1, f) { assert SlotAt(s, f); }
      forall b | IsAsid(s1, b) ensures ModeAt(s1, b) { assert ModeAt(s, b); }
    }
    SameContents(s, s1);
  }

  /** The pager moves on, with the same frame or with one whose slot is free. */
  lemma PagerInv(s: S, p: Pager, i: int)
    requires Inv(s) && IsFrame(s, i) && PagerFits(s, p) && HolderKnows(s.(pager := p, swapIndex := i))
    requires !s.pager.Installed?
    requires var s1 := s.(pager := p, swapIndex := i);
             Busy(s1) == Busy(s) || (Busy(s) == NIL && IsFrame(s, Busy(s1)) && !s.swap[Busy(s1)].occupied)
    ensures Inv(s.(pager := p, swapIndex := i))
  {
    var s1 := s.(pager := p, swapIndex := i);
    forall b, q ensures OwnsAt(s1, b, q) { assert OwnsAt(s, b, q); }
    forall f | IsFrame(s1, f) ensures SlotAt(s1, f) { assert SlotAt(s, f); }
    forall b | IsAsid(s1, b) ensures ModeAt(s1, b) { assert ModeAt(s, b); }
    forall x | x in s1.tlb ensures CoherentAt(s1, x) { assert CoherentAt(s, x); }
  }

  lemma PagerChange(s: S, p: Pager, i: int)
    requires Inv(s) && Inv(s.(pager := p, swapIndex := i)) && !s.pager.WritingBack? && !p.WritingBack?
    ensures SameMemory(s, s.(pager := p, swapIndex := i))
  {
    hide Coherent, Owned, Slots, Modes, HolderKnows, Placed;
    SameContents(s, s.(pager := p, swapIndex := i));
  }

  /** A slot that no live process can rely on changes: a word is wiped, or becomes that of a live process. */
  lemma SlotChange(s: S, f: int, slot: Slot)
    requires Inv(s) && IsFrame(s, f) && HolderKnows(s.(swap := s.swap[f := slot]))
    requires SlotAt(s.(swap := s.swap[f := slot]), f)
    requires f == Busy(s) || !IsLive(s, s.swap[f].asid)
    requires IsLive(s, slot.asid)
             || ((slot.asid == s.swap[f].asid || slot.asid == -1) && (slot.occupied ==> s.swap[f].occupied))
    ensures SameMemory(s, s.(swap := s.swap[f := slot]))
  {
    var s1 := s.(swap := s.swap[f := slot]);
    assert Inv(s1) by {
      forall b | IsAsid(s1, b) ensures ModeAt(s1, b) { assert ModeAt(s, b); }
      assert Modes(s1);
      hide Modes, ModeAt, ModeIs, HolderKnows;
      forall b, q ensures OwnsAt(s1, b, q) { assert OwnsAt(s, b, q); }
      forall g | IsFrame(s1, g) ensures SlotAt(s1, g) { assert SlotAt(s, g); }
      forall x | x in s1.tlb ensures CoherentAt(s1, x) { assert CoherentAt(s, x); }
    }
    hide Coherent, Owned, Slots, Modes, HolderKnows;
    SameContents(s, s1);
  }

  /** The contents of frames and flash change. */
  lemma MemoryInv(s: S, ram: seq<seq<int>>, flash: seq<seq<seq<int>>>)
    requires Inv(s) && Shaped(s.(ram := ram, flash := flash)) && HolderKnows(s.(ram := ram, flash := flash))
    ensures Inv(s.(ram := ram, flash := flash))
  {
    var s1 := s.(ram := ram, flash := flash);
    forall b, q ensures OwnsAt(s1, b, q) { assert OwnsAt(s, b, q); }
    forall g | IsFrame(s1, g) ensures SlotAt(s1, g) { assert SlotAt(s, g); }
    forall b | IsAsid(s1, b) ensures ModeAt(s1, b) { assert ModeAt(s, b); }
    forall x | x in s1.tlb ensures CoherentAt(s1, x) { assert CoherentAt(s, x); }
  }

  // ----- steps outside the pager -----

  lemma RefillKeeps(s: S, a: int, page: int)
    requires Inv(s) && Enabled(s, Refill(a, page))
    ensures SameMemory(s, Step(s, Refill(a, page)))
  {
    hide Owned, Slots, Modes, HolderKnows;
    var s1 := Step(s, Refill(a, page));
    forall x | x in s1.tlb ensures CoherentAt(s1, x) {
      if x != Key(a, page) { assert CoherentAt(s, x); }
    }
    TlbChange(s, s1.tlb);
  }

  lemma ReplaceKeeps(s: S, key: Key)
    requires Inv(s) && Enabled(s, Replace(key))
    ensures SameMemory(s, Step(s, Replace(key)))
  {
    hide Owned, Slots, Modes, HolderKnows;
    var s1 := Step(s, Replace(key));
    forall x | x in s1.tlb ensures CoherentAt(s1, x) { assert CoherentAt(s, x); }
    TlbChange(s, s1.tlb);
  }

  lemma FaultKeeps(s: S, a: int, page: int)
    requires Inv(s) && Enabled(s, Fault(a, page))
    ensures SameMemory(s, Step(s, Fault(a, page)))
  {
    assert CoherentAt(s, Key(a, page));
    hide Coherent, Owned, Slots, Modes;
    ModeChange(s, a, Faulting(page));
  }

  lemma DieKeeps(s: S, a: int)
    requires Inv(s) && Enabled(s, Die(a))
    ensures SameMemory(s, Step(s, Die(a)))
  {
    hide Coherent, Owned, Slots, Modes;
    ModeChange(s, a, Dying(0));
  }

  lemma CheckKeeps(s: S, a: int)
    requires Inv(s) && Enabled(s, Check(a))
    ensures SameMemory(s, Step(s, Check(a)))
  {
    assert ModeAt(s, a);
    hide Coherent, Owned, Slots, Modes;
    ModeChange(s, a, Step(s, Check(a)).mode[a]);
  }

  lemma ExitKeeps(s: S, a: int)
    requires Inv(s) && Enabled(s, Exit(a))
    ensures SameMemory(s, Step(s, Exit(a)))
  {
    assert ModeAt(s, a);
    hide Coherent, Owned, Slots, Modes;
    ModeChange(s, a, Dead);
  }

  /** The store, as long as the word is still the process's own to wipe. */
  lemma WipeKeeps(s: S, a: int)
    requires Inv(s) && Enabled(s, Clear(a)) && !Tramples(s, a)
    ensures SameMemory(s, s.(swap := Step(s, Clear(a)).swap))
  {
    var i := s.mode[a].i;
    assert SlotAt(s, i);
    hide Coherent, Owned, Slots, Modes;
    SlotChange(s, i, Step(s, Clear(a)).swap[i]);
  }

  lemma ClearKeeps(s: S, a: int)
    requires Inv(s) && Enabled(s, Clear(a)) && !Tramples(s, a)
    ensures SameMemory(s, Step(s, Clear(a)))
  {
    var u, s1 := s.(swap := Step(s, Clear(a)).swap), Step(s, Clear(a));
    WipeKeeps(s, a);
    assert ModeAt(u, a) && SlotAt(s, s.mode[a].i);
    hide Coherent, Owned, Slots, Modes, HolderKnows;
    ModeChange(u, a, s1.mode[a]);
    SameTrans(s, u, s1);
  }

  /** Any other store into a slot breaks the invariants at once. */
  lemma TrampleBreaks(s: S, a: int)
    requires Inv(s) && Enabled(s, Clear(a)) && Tramples(s, a)
    ensures !Inv(Step(s, Clear(a)))
  {
    var i, s1 := s.mode[a].i, Step(s, Clear(a));
    assert SlotAt(s, i);
    if i == Busy(s) {
      assert !HolderKnows(s1);
    } else {
      assert IsFrame(s1, i) && !SlotAt(s1, i);
    }
  }

  // ----- the pager's phases -----

  lemma LockKeeps(s: S, a: int)
    requires Inv(s) && Enabled(s, Lock(a))
    ensures SameMemory(s, Step(s, Lock(a)))
  {
    var s1 := Step(s, Lock(a));
    assert ModeAt(s, a);
    hide Coherent, Owned, Slots, Modes;
    PagerInv(s, s1.pager, s1.swapIndex);
    PagerChange(s, s1.pager, s1.swapIndex);
  }

  lemma ScanKeeps(s: S)
    requires Inv(s) && Enabled(s, Scan)
    ensures SameMemory(s, Step(s, Scan))
  {
    var s1 := Step(s, Scan);
    hide Coherent, Owned, Slots, Modes;
    PagerInv(s, s1.pager, s1.swapIndex);
    PagerChange(s, s1.pager, s1.swapIndex);
  }

  lemma PickKeeps(s: S)
    requires Inv(s) && Enabled(s, Pick)
    ensures SameMemory(s, Step(s, Pick))
  {
    var s1 := Step(s, Pick);
    assert SlotAt(s, s.swapIndex);
    hide Coherent, Owned, Slots, Modes;
    PagerInv(s, s1.pager, s1.swapIndex);
    PagerChange(s, s1.pager, s1.swapIndex);
  }

  /** The two words read name a process and a page exactly when neither had been wiped. */
  lemma PickReads(s: S)
    requires Inv(s) && Enabled(s, ReadVpn)
    ensures Step(s, ReadVpn).pager.Lost? <==> s.pager.va == -1 || s.swap[s.pager.f].vpn == -1
    ensures s.pager.va != -1 && s.swap[s.pager.f].vpn != -1 ==>
              var p := Step(s, ReadVpn).pager; p.Picked? && p.va == s.pager.va && s.swap[p.f].vpn == VpnOf(p.vp)
  {
    assert SlotAt(s, s.pager.f);
    PageVpn(0, s.swap[s.pager.f].vpn);
  }

  lemma ReadVpnKeeps(s: S)
    requires Inv(s) && Enabled(s, ReadVpn)
    ensures SameMemory(s, Step(s, ReadVpn))
  {
    var s1 := Step(s, ReadVpn);
    assert SlotAt(s, s.pager.f);
    PageVpn(0, s.swap[s.pager.f].vpn);
    hide Coherent, Owned, Slots, Modes;
    PagerInv(s, s1.pager, s1.swapIndex);
    PagerChange(s, s1.pager, s1.swapIndex);
  }

  lemma EvictOwned(s: S, b: int, q: int)
    requires Inv(s) && Enabled(s, Evict)
    ensures Shaped(Evicted(s)) && OwnsAt(Evicted(s), b, q)
  {
    assert OwnsAt(s, b, q);
    PageVpn(s.pager.vp, 0);
    PageVpn(q, 0);
    hide Coherent, Owned, Slots, Modes;
  }

  lemma EvictSlots(s: S, f: int)
    requires Inv(s) && Enabled(s, Evict) && IsFrame(s, f)
    ensures Shaped(Evicted(s)) && SlotAt(Evicted(s), f)
  {
    assert SlotAt(s, f) && SlotAt(s, s.pager.f);
    PageVpn(s.pager.vp, s.swap[f].vpn);
    hide Coherent, Owned, Slots, Modes;
  }

  lemma EvictInv(s: S)
    requires Inv(s) && Enabled(s, Evict)
    ensures Inv(Step(s, Evict))
  {
    var s1 := Step(s, Evict);
    forall b, q ensures Shaped(s1) && OwnsAt(s1, b, q) { EvictOwned(s, b, q); }
    forall f | IsFrame(s1, f) ensures SlotAt(s1, f) { EvictSlots(s, f); }
    hide OwnsAt, SlotAt;
    forall b | IsAsid(s1, b) ensures ModeAt(s1, b) { assert ModeAt(s, b); }
    forall x | x in s1.tlb ensures CoherentAt(s1, x) { assert x in s.tlb && CoherentAt(s, x); }
  }

  lemma EvictKeeps(s: S)
    requires Inv(s) && Enabled(s, Evict)
    ensures SameMemory(s, Step(s, Evict))
  {
    var p, s1 := s.pager, Step(s, Evict);
    PageVpn(p.vp, 0);
    assert SlotAt(s, p.f);
    EvictInv(s);
    hide Coherent, Slots, Modes;
  }

  lemma FinishWriteInv(s: S)
    requires Inv(s) && Enabled(s, FinishWrite)
    ensures Inv(Step(s, FinishWrite))
  {
    var s1 := Step(s, FinishWrite);
    hide Coherent, Owned, Slots, Modes;
    MemoryInv(s, s.ram, s1.flash);
    PagerInv(s.(flash := s1.flash), s1.pager, s.swapIndex);
  }

  lemma FinishWriteKeeps(s: S)
    requires Inv(s) && Enabled(s, FinishWrite)
    ensures SameMemory(s, Step(s, FinishWrite))
  {
    FinishWriteInv(s);
    hide Coherent, Slots, Modes;
  }

  lemma FinishLoadInv(s: S)
    requires Inv(s) && Enabled(s, FinishLoad)
    ensures Inv(Step(s, FinishLoad))
  {
    var s1 := Step(s, FinishLoad);
    hide Coherent, Owned, Slots, Modes;
    MemoryInv(s, s1.ram, s.flash);
    PagerInv(s.(ram := s1.ram), s1.pager, s.swapIndex);
  }

  lemma FinishLoadKeeps(s: S)
    requires Inv(s) && Enabled(s, FinishLoad)
    ensures SameMemory(s, Step(s, FinishLoad))
  {
    FinishLoadInv(s);
    var s1 := Step(s, FinishLoad);
    hide Coherent, Slots, Modes;
    forall b, q | IsLive(s1, b) && IsPage(q) && q != DATA_PAGE ensures Content(s1, b, q) == Content(s, b, q) {
      assert OwnsAt(s, b, q);
    }
  }

  /** The next store into the frame's slot, before the pager moves on. */
  lemma StoreKeeps(s: S)
    requires Inv(s) && Enabled(s, Record)
    ensures SameMemory(s, s.(swap := Step(s, Record).swap))
  {
    var p := s.pager;
    PageVpn(p.page, 0);
    assert ModeAt(s, p.a) && SlotAt(s, p.f);
    hide Coherent, Owned, Slots, Modes;
    SlotChange(s, p.f, Step(s, Record).swap[p.f]);
  }

  lemma RecordKeeps(s: S)
    requires Inv(s) && Enabled(s, Record)
    ensures SameMemory(s, Step(s, Record))
  {
    var u, s1 := s.(swap := Step(s, Record).swap), Step(s, Record);
    StoreKeeps(s);
    hide Coherent, Owned, Slots, Modes;
    PagerInv(u, s1.pager, s1.swapIndex);
    PagerChange(u, s1.pager, s1.swapIndex);
    SameTrans(s, u, s1);
  }

  lemma InstallInv(s: S)
    requires Inv(s) && Enabled(s, Install)
    ensures Inv(Step(s, Install))
  {
    var p, s1 := s.pager, Step(s, Install);
    PageVpn(p.page, 0);
    assert ModeAt(s, p.a);
    forall b | IsAsid(s1, b) ensures ModeAt(s1, b) { assert ModeAt(s, b); }
    assert Modes(s1);
    hide Modes, ModeAt, ModeIs, Coherent;
    forall b, q ensures OwnsAt(s1, b, q) { assert OwnsAt(s, b, q); }
    assert Owned(s1);
    hide Owned, OwnsAt;
    forall f | IsFrame(s1, f) ensures SlotAt(s1, f) { assert SlotAt(s, f); }
    assert Coherent(s1) by { assert s1.tlb == map[]; CoherentEmpty(s1); }
  }

  lemma CoherentEmpty(s: S)
    requires Shaped(s) && s.tlb == map[]
    ensures Coherent(s)
  {
  }

  lemma InstallKeeps(s: S)
    requires Inv(s) && Enabled(s, Install)
    ensures SameMemory(s, Step(s, Install))
  {
    var p, s1 := s.pager, Step(s, Install);
    assert ModeAt(s, p.a);
    InstallInv(s);
    hide Coherent, Slots, Modes;
    forall b, q | IsLive(s1, b) && IsPage(q) && q != DATA_PAGE ensures Content(s1, b, q) == Content(s, b, q) {
      assert OwnsAt(s, b, q);
    }
  }

  lemma UnlockKeeps(s: S)
    requires Inv(s) && Enabled(s, Unlock)
    ensures SameMemory(s, Step(s, Unlock))
  {
    var s1 := Step(s, Unlock);
    assert Inv(s1) by {
      forall b | IsAsid(s1, b) ensures ModeAt(s1, b) { assert ModeAt(s, b); }
      assert Modes(s1);
      hide Modes, ModeAt, ModeIs;
      forall b, q ensures OwnsAt(s1, b, q) { assert OwnsAt(s, b, q); }
      forall f | IsFrame(s1, f) ensures SlotAt(s1, f) { assert SlotAt(s, f); }
      forall x | x in s1.tlb ensures CoherentAt(s1, x) { assert CoherentAt(s, x); }
    }
    hide Coherent, Owned, Slots, Modes;
    SameContents(s, s1);
  }

  // ----- user accesses -----

  /** A read through the TLB returns what is in the page. */
  lemma ReadSees(s: S, a: int, page: int, off: int, v: int)
    requires Inv(s) && Enabled(s, Read(a, page, off, v))
    ensures IsLive(s, a) && |Content(s, a, page)| == s.words && v == Content(s, a, page)[off]
  {
    assert CoherentAt(s, Key(a, page)) && OwnsAt(s, a, page);
  }

  /** A write leaves tables and slots alone, and the frame it writes is not one that a pager is filling. */
  lemma WriteInv(s: S, a: int, page: int, off: int, v: int)
    requires Inv(s) && Enabled(s, Write(a, page, off, v))
    ensures Inv(Step(s, Write(a, page, off, v)))
  {
    assert CoherentAt(s, Key(a, page)) && OwnsAt(s, a, page);
    hide Coherent, Owned, Slots, Modes;
    MemoryInv(s, Step(s, Write(a, page, off, v)).ram, s.flash);
  }

  lemma WriteSees(s: S, a: int, page: int, off: int, v: int, b: int, q: int)
    requires Inv(s) && Enabled(s, Write(a, page, off, v)) && IsLive(s, b) && IsPage(q) && q != DATA_PAGE
    requires Inv(Step(s, Write(a, page, off, v)))
    ensures IsLive(s, a) && |Content(s, a, page)| == s.words
    ensures Content(Step(s, Write(a, page, off, v)), b, q)
            == if b == a && q == page then Content(s, a, page)[off := v] else Content(s, b, q)
  {
    assert CoherentAt(s, Key(a, page)) && OwnsAt(s, a, page) && OwnsAt(s, b, q);
    PageVpn(q, 0);
    PageVpn(page, 0);
    hide Coherent, Owned, Slots, Modes;
  }

  /** A write changes that word and nothing else anybody can see. */
  lemma WriteKeeps(s: S, a: int, page: int, off: int, v: int)
    requires Inv(s) && Enabled(s, Write(a, page, off, v))
    ensures var s1 := Step(s, Write(a, page, off, v));
            && Inv(s1) && s1.uprocs == s.uprocs && s1.words == s.words && s1.mode == s.mode
            && IsLive(s, a) && |Content(s, a, page)| == s.words
            && forall b, q {:trigger Content(s1, b, q)} :: IsLive(s1, b) && IsPage(q) && q != DATA_PAGE ==>
                 Content(s1, b, q) == if b == a && q == page then Content(s, a, page)[off := v] else Content(s, b, q)
  {
    var s1 := Step(s, Write(a, page, off, v));
    WriteInv(s, a, page, off, v);
    WriteSees(s, a, page, off, v, a, page);
    forall b, q | IsLive(s1, b) && IsPage(q) && q != DATA_PAGE
      ensures Content(s1, b, q) == if b == a && q == page then Content(s, a, page)[off := v] else Content(s, b, q)
    {
      WriteSees(s, a, page, off, v, b, q);
    }
  }
}
