/** Paging is transparent: in every interleaving each process sees plain memory of its own. */
module PagerRuns {
  import opened PagerState
  import opened PagerSteps

  // ----- one event -----

  /** The pager's frames, tables and TLB are right after every event that wipes nobody else's slot. */
  lemma StepInv(s: S, e: Event)
    requires Inv(s) && Enabled(s, e) && !Harms(s, e)
    ensures Inv(Step(s, e))
    ensures !e.Write? ==> SameMemory(s, Step(s, e))
  {
    if e.Write? {
      WriteKeeps(s, e.a, e.page, e.off, e.v);
    } else {
      QuietStep(s, e);
    }
  }

  /** No other event keeps them. */
  lemma StepInvExact(s: S, e: Event)
    requires Inv(s) && Enabled(s, e)
    ensures Inv(Step(s, e)) <==> !Harms(s, e)
  {
    hide Coherent, Owned, Slots, Modes, HolderKnows, Step, Tramples;
    if Harms(s, e) {
      TrampleBreaks(s, e.a);
    } else {
      StepInv(s, e);
    }
  }

  /** No event but a user's own write changes what anybody sees. */
  lemma QuietStep(s: S, e: Event)
    requires Inv(s) && Enabled(s, e) && !e.Write? && !Harms(s, e)
    ensures SameMemory(s, Step(s, e))
  {
    hide Shaped, Placed, Coherent, Owned, Slots, Modes, HolderKnows, Content;
    match e
    case Read(a, page, off, v) =>
    case Refill(a, page) => RefillKeeps(s, a, page);
    case Replace(key) => ReplaceKeeps(s, key);
    case Fault(a, page) => FaultKeeps(s, a, page);
    case Lock(a) => LockKeeps(s, a);
    case Scan => ScanKeeps(s);
    case Pick => PickKeeps(s);
    case ReadVpn => ReadVpnKeeps(s);
    case Evict => EvictKeeps(s);
    case FinishWrite => FinishWriteKeeps(s);
    case FinishLoad => FinishLoadKeeps(s);
    case Record => RecordKeeps(s);
    case Install => InstallKeeps(s);
    case Unlock => UnlockKeeps(s);
    case Die(a) => DieKeeps(s, a);
    case Check(a) => CheckKeeps(s, a);
    case Clear(a) => ClearKeeps(s, a);
    case Exit(a) => ExitKeeps(s, a);
  }

  // ----- whole runs -----

  /** Whatever happens to the slots, the next event is well defined. */
  lemma StepTyped(s: S, e: Event)
    requires Typed(s) && Enabled(s, e)
    ensures Typed(Step(s, e)) && |Step(s, e).swap| == |s.swap| && Step(s, e).uprocs == s.uprocs
    ensures Step(s, e).words == s.words
  {
    StepShaped(s, e);
    hide Shaped;
  }

  lemma StepShaped(s: S, e: Event)
    requires Typed(s) && Enabled(s, e)
    ensures Shaped(Step(s, e)) && |Step(s, e).swap| == |s.swap| && Step(s, e).uprocs == s.uprocs
    ensures Step(s, e).words == s.words
  {
  }

  ghost predicate Runs(s: S, es: seq<Event>)
    requires Typed(s)
    decreases |es|
  {
    es == [] || (Enabled(s, es[0]) && (StepTyped(s, es[0]); Runs(Step(s, es[0]), es[1..])))
  }

  ghost function Run(s: S, es: seq<Event>): (r: S)
    requires Typed(s) && Runs(s, es)
    ensures Typed(r) && |r.swap| == |s.swap| && r.uprocs == s.uprocs && r.words == s.words
    decreases |es|
  {
    if es == [] then s else StepTyped(s, es[0]); Run(Step(s, es[0]), es[1..])
  }

  /** The events es lead from s to s1. */
  ghost predicate Reaches(s: S, es: seq<Event>, s1: S) {
    Typed(s) && Runs(s, es) && Run(s, es) == s1
  }

  lemma ReachesOne(s: S, e: Event)
    requires Typed(s) && Enabled(s, e)
    ensures Typed(Step(s, e)) && Reaches(s, [e], Step(s, e))
    ensures Harmless(s, [e]) <==> !Harms(s, e)
  {
    StepTyped(s, e);
    hide Shaped, Placed, Step, Enabled, Harms;
    assert [e][1..] == [];
    assert Runs(Step(s, e), []) && Run(Step(s, e), []) == Step(s, e) && Harmless(Step(s, e), []);
  }

  lemma {:induction false} ReachesOn(s: S, es: seq<Event>, s1: S, fs: seq<Event>, s2: S)
    requires Reaches(s, es, s1) && Reaches(s1, fs, s2)
    ensures Reaches(s, es + fs, s2)
    ensures Harmless(s, es + fs) <==> Harmless(s, es) && Harmless(s1, fs)
    decreases |es|
  {
    if es == [] {
      assert es + fs == fs;
    } else {
      StepTyped(s, es[0]);
      hide Shaped, Placed, Step, Enabled, Harms;
      assert (es + fs)[1..] == es[1..] + fs;
      ReachesOn(Step(s, es[0]), es[1..], s1, fs, s2);
    }
  }

  /** No event of the run wipes a slot that has been given to somebody else. */
  ghost predicate Harmless(s: S, es: seq<Event>)
    requires Typed(s) && Runs(s, es)
    decreases |es|
  {
    es == [] || (!Harms(s, es[0]) && (StepTyped(s, es[0]); Harmless(Step(s, es[0]), es[1..])))
  }

  /** The victim's slot named a process when the pager loaded its owner, and names a page now. */
  predicate FindsSlot(s: S)
    requires Typed(s) && s.pager.Reading?
  {
    s.pager.va != -1 && s.swap[s.pager.f].vpn != -1
  }

  /** No victim's slot that the run reads has been wiped. */
  ghost predicate PicksFind(s: S, es: seq<Event>)
    requires Typed(s) && Runs(s, es)
    decreases |es|
  {
    es == [] || ((es[0].ReadVpn? ==> FindsSlot(s)) && (StepTyped(s, es[0]); PicksFind(Step(s, es[0]), es[1..])))
  }

  lemma {:induction false} RunInv(s: S, es: seq<Event>)
    requires Inv(s) && Runs(s, es) && Harmless(s, es)
    ensures Inv(Run(s, es))
    decreases |es|
  {
    if es != [] {
      StepInv(s, es[0]);
      StepTyped(s, es[0]);
      hide Shaped, Placed, Coherent, Owned, Slots, Modes, HolderKnows, Enabled, Step, Harms;
      RunInv(Step(s, es[0]), es[1..]);
    }
  }

  /** A run ends in undefined behaviour exactly when it reads a victim's slot that has been wiped. */
  lemma {:induction false} LostExactly(s: S, es: seq<Event>)
    requires Inv(s) && Runs(s, es) && Harmless(s, es) && !s.pager.Lost?
    ensures Inv(Run(s, es)) && (Run(s, es).pager.Lost? <==> !PicksFind(s, es))
    decreases |es|
  {
    if es != [] {
      StepInv(s, es[0]);
      StepTyped(s, es[0]);
      StepLost(s, es[0]);
      hide Shaped, Placed, Coherent, Owned, Slots, Modes, HolderKnows, Step, Harms;
      if Step(s, es[0]).pager.Lost? {
        LostStays(Step(s, es[0]), es[1..]);
      } else {
        LostExactly(Step(s, es[0]), es[1..]);
      }
    }
  }

  lemma StepLost(s: S, e: Event)
    requires Inv(s) && Enabled(s, e)
    ensures Step(s, e).pager.Lost? <==> e.ReadVpn? && !FindsSlot(s)
  {
    if e.ReadVpn? {
      PickReads(s);
    }
  }

  lemma LostStays(s: S, es: seq<Event>)
    requires Typed(s) && Runs(s, es) && s.pager.Lost?
    ensures es == [] && Run(s, es) == s
  {
    hide Shaped, Placed, Step;
  }

  /** Boot: initSwapPool and initPageTable have run, the TLB is empty and nobody holds the lock. */
  ghost predicate Initial(s: S) {
    && Shaped(s) && s.tlb == map[] && s.pager == Unlocked && s.swapIndex == 0
    && (forall f :: IsFrame(s, f) ==> s.swap[f] == EMPTY)
    && (forall a, q :: IsAsid(s, a) && IsPage(q) ==> Entry(s, a, q) == Pte(q == DATA_PAGE, 0))
    && (forall a :: IsAsid(s, a) ==> s.mode[a] == Running)
  }

  lemma InitialInv(s: S)
    requires Initial(s)
    ensures Inv(s)
  {
  }

  /** es is a run from boot. */
  ghost predicate FromBoot(s: S, es: seq<Event>)
    ensures FromBoot(s, es) ==> Inv(s) && Runs(s, es)
  {
    Initial(s) && (InitialInv(s); Runs(s, es))
  }

  // ----- plain memory -----

  /** One array of words for each page of each process. */
  type Plain = map<Key, seq<int>>

  predicate HasWord(m: Plain, a: int, page: int, off: int) {
    Key(a, page) in m && 0 <= off < |m[Key(a, page)]|
  }

  /** Every read of the run returns what plain memory holds; writes update it and nothing else does. */
  ghost predicate Plainly(m: Plain, es: seq<Event>)
    decreases |es|
  {
    es == [] ||
    match es[0]
    case Read(a, page, off, v) => HasWord(m, a, page, off) && m[Key(a, page)][off] == v && Plainly(m, es[1..])
    case Write(a, page, off, v) =>
      HasWord(m, a, page, off) && Plainly(m[Key(a, page) := m[Key(a, page)][off := v]], es[1..])
    case _ => Plainly(m, es[1..])
  }

  /** Plain memory m is what the live processes see. */
  ghost predicate Shows(s: S, m: Plain)
    requires Inv(s)
  {
    forall a, q {:trigger Content(s, a, q)} :: IsLive(s, a) && IsPage(q) && q != DATA_PAGE ==>
      Key(a, q) in m && m[Key(a, q)] == Content(s, a, q)
  }

  /** What one event does to plain memory. */
  ghost function Applied(m: Plain, e: Event): Plain {
    if e.Write? && HasWord(m, e.a, e.page, e.off) then m[Key(e.a, e.page) := m[Key(e.a, e.page)][e.off := e.v]] else m
  }

  lemma StepShows(s: S, m: Plain, e: Event)
    requires Inv(s) && Shows(s, m) && Enabled(s, e) && !Harms(s, e)
    ensures Inv(Step(s, e)) && Shows(Step(s, e), Applied(m, e))
    ensures e.Read? ==> HasWord(m, e.a, e.page, e.off) && m[Key(e.a, e.page)][e.off] == e.v
    ensures e.Write? ==> HasWord(m, e.a, e.page, e.off)
  {
    hide Placed, Coherent, Owned, Slots, Modes, HolderKnows, Content, Step;
    StepInv(s, e);
    if e.Read? {
      ReadSees(s, e.a, e.page, e.off, e.v);
    }
    if e.Write? {
      WriteShows(s, m, e.a, e.page, e.off, e.v);
    } else {
      SameShows(s, Step(s, e), m);
    }
  }

  lemma SameShows(s: S, s1: S, m: Plain)
    requires Inv(s) && Shows(s, m) && SameMemory(s, s1)
    ensures Shows(s1, m)
  {
    hide Placed, Coherent, Owned, Slots, Modes, HolderKnows, Content;
    forall a, q | IsLive(s1, a) && IsPage(q) && q != DATA_PAGE
      ensures Key(a, q) in m && m[Key(a, q)] == Content(s1, a, q)
    {
      var c := Content(s, a, q);
      assert Key(a, q) in m && m[Key(a, q)] == c;
    }
  }

  lemma WriteShows(s: S, m: Plain, a: int, page: int, off: int, v: int)
    requires Inv(s) && Shows(s, m) && Enabled(s, Write(a, page, off, v)) && Inv(Step(s, Write(a, page, off, v)))
    ensures HasWord(m, a, page, off)
    ensures Shows(Step(s, Write(a, page, off, v)), m[Key(a, page) := m[Key(a, page)][off := v]])
  {
    WriteKeeps(s, a, page, off, v);
    hide Placed, Coherent, Owned, Slots, Modes, HolderKnows, Content, Step;
    var s1 := Step(s, Write(a, page, off, v));
    assert Key(a, page) in m && m[Key(a, page)] == Content(s, a, page);
    var m1 := m[Key(a, page) := m[Key(a, page)][off := v]];
    forall b, q | IsLive(s1, b) && IsPage(q) && q != DATA_PAGE
      ensures Key(b, q) in m1 && m1[Key(b, q)] == Content(s1, b, q)
    {
      var c := Content(s, b, q);
      assert Key(b, q) in m && m[Key(b, q)] == c;
    }
  }

  lemma {:induction false} RunsPlainly(s: S, m: Plain, es: seq<Event>)
    requires Inv(s) && Shows(s, m) && Runs(s, es) && Harmless(s, es)
    ensures Plainly(m, es)
    decreases |es|
  {
    if es != [] {
      StepTyped(s, es[0]);
      hide Shaped, Placed, Coherent, Owned, Slots, Modes, HolderKnows, Enabled, Step, Shows, Harms;
      StepShows(s, m, es[0]);
      RunsPlainly(Step(s, es[0]), Applied(m, es[0]), es[1..]);
    }
  }

  /** What is on the flash devices, page by page. */
  ghost function OnFlash(s: S): (m: Plain)
    requires Shaped(s)
    ensures forall a, q :: IsAsid(s, a) && IsPage(q) ==> Key(a, q) in m && m[Key(a, q)] == s.flash[a][q]
  {
    map a, q | 1 <= a <= s.uprocs && 0 <= q < PAGE_TABLE_SIZE :: Key(a, q) := s.flash[a][q]
  }

  lemma FlashShows(s: S)
    requires Initial(s) && Inv(s)
    ensures Shows(s, OnFlash(s))
  {
    hide Placed, Coherent, Owned, Slots, Modes, HolderKnows;
    forall a, q | IsLive(s, a) && IsPage(q) && q != DATA_PAGE
      ensures Key(a, q) in OnFlash(s) && OnFlash(s)[Key(a, q)] == Content(s, a, q)
    {
      assert !Entry(s, a, q).valid;
    }
  }

  /**
   * Paging is transparent in every run from boot in which no ending process wipes a slot that is not its own any more
   * and no pick reads a wiped slot, whatever faults, evictions, TLB replacements and terminations it interleaves: every
   * read by a live process returns the last value it wrote there, or else the contents of its flash, and no access or
   * pager step is undefined.
   */
  lemma Transparent(s: S, es: seq<Event>)
    requires FromBoot(s, es) && Harmless(s, es) && PicksFind(s, es)
    ensures Plainly(OnFlash(s), es) && Inv(Run(s, es)) && !Run(s, es).pager.Lost?
  {
    PlainUntilLost(s, es);
    LostExactly(s, es);
  }

  /** If a pick reads a wiped slot, the same holds of everything up to that. */
  lemma PlainUntilLost(s: S, es: seq<Event>)
    requires FromBoot(s, es) && Harmless(s, es)
    ensures Plainly(OnFlash(s), es)
  {
    FlashShows(s);
    RunsPlainly(s, OnFlash(s), es);
  }

  // ----- frames -----

  /**
   * In every state that a harmless run reaches, between any two phases of a pager: a valid entry of a live process
   * names a pool frame whose slot records that process and page, no two such entries share a frame, and none names the
   * frame a pager is writing back, loading or about to install.
   */
  lemma FrameOwnership(s: S, es: seq<Event>, a: int, q: int, b: int, r: int)
    requires FromBoot(s, es) && Harmless(s, es) && IsPage(q) && q != DATA_PAGE && IsPage(r) && r != DATA_PAGE
    ensures var s1 := Run(s, es);
            Inv(s1) && (IsLive(s1, a) && Entry(s1, a, q).valid ==>
              var f := Entry(s1, a, q).pfn - POOL_PFN;
              && IsFrame(s1, f) && s1.swap[f] == Slot(true, a, VpnOf(q)) && f != Busy(s1)
              && (IsLive(s1, b) && Entry(s1, b, r).valid && Entry(s1, b, r).pfn == Entry(s1, a, q).pfn ==>
                    a == b && q == r))
  {
    hide Placed, Coherent, Slots, Modes, HolderKnows, Busy, Run, Runs, FromBoot, Harmless;
    RunInv(s, es);
    var s1 := Run(s, es);
    assert OwnsAt(s1, a, q) && OwnsAt(s1, b, r);
    PageVpn(q, 0);
    PageVpn(r, 0);
  }

  lemma StepCoherent(s: S, e: Event)
    requires Typed(s) && Coherent(s) && Enabled(s, e)
    ensures Typed(Step(s, e)) && Coherent(Step(s, e))
  {
    StepTyped(s, e);
    forall x | x in Step(s, e).tlb ensures CoherentAt(Step(s, e), x) {
      assert x in s.tlb ==> CoherentAt(s, x);
    }
  }

  lemma {:induction false} RunCoherent(s: S, es: seq<Event>)
    requires Typed(s) && Coherent(s) && Runs(s, es)
    ensures Coherent(Run(s, es))
    decreases |es|
  {
    if es != [] {
      StepCoherent(s, es[0]);
      hide Shaped, Placed, Coherent, Step, Enabled;
      RunCoherent(Step(s, es[0]), es[1..]);
    }
  }

  /** In every state of every run from boot every TLB entry equals the page table entry for its asid and page. */
  lemma TlbCoherence(s: S, es: seq<Event>, key: Key)
    requires FromBoot(s, es)
    ensures var s1 := Run(s, es);
            Typed(s1) && (key in s1.tlb ==>
              IsAsid(s1, key.asid) && IsPage(key.page) && s1.tlb[key] == Entry(s1, key.asid, key.page))
  {
    RunCoherent(s, es);
    hide Run, Runs, FromBoot;
    assert key in Run(s, es).tlb ==> CoherentAt(Run(s, es), key);
  }

  /** Every mapped access to a paged page lands in the pool: the hardware finds a word there, to read or to write. */
  lemma AccessLands(s: S, a: int, page: int, off: int, v: int)
    requires Inv(s) && Maps(s, a, page) && page != DATA_PAGE && 0 <= off < s.words
    ensures IsFrame(s, s.tlb[Key(a, page)].pfn - POOL_PFN)
    ensures !s.pager.Lost? ==> Enabled(s, Read(a, page, off, s.ram[s.tlb[Key(a, page)].pfn - POOL_PFN][off]))
    ensures !s.pager.Lost? ==> Enabled(s, Write(a, page, off, v))
  {
    assert CoherentAt(s, Key(a, page)) && OwnsAt(s, a, page);
  }

  /** An ended process holds no frame, whatever a pager was doing while it gave them up. */
  lemma EndedHoldsNothing(s: S, es: seq<Event>, a: int, f: int)
    requires FromBoot(s, es) && Harmless(s, es)
    ensures var s1 := Run(s, es);
            Inv(s1) && (IsAsid(s1, a) && s1.mode[a] == Dead && IsFrame(s1, f) && s1.swap[f].occupied ==>
              s1.swap[f].asid != a)
  {
    RunInv(s, es);
    hide Run, Runs, FromBoot;
    var s1 := Run(s, es);
    assert IsAsid(s1, a) ==> ModeAt(s1, a);
  }
}
