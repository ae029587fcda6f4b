/** For which pools and how many processes the pager's races can happen at all. */
module PagerCapacity {
  import opened Sequences
  import opened PagerState
  import opened PagerRuns
  import opened PagerRace
  import opened PagerScenarios

  // ----- one process -----

  /** With one process, whoever holds the lock is the only one there, and it is not ending. */
  lemma AloneOutside(s: S, e: Event)
    requires Inv(s) && Enabled(s, e) && s.uprocs <= 1
    ensures OutsideLock(s, e)
  {
    hide Coherent, Owned, Slots, Modes;
  }

  lemma {:induction false} AloneLocked(s: S, es: seq<Event>)
    requires Inv(s) && Runs(s, es) && s.uprocs <= 1 && WipesOwn(s)
    ensures Locked(s, es)
    decreases |es|
  {
    if es != [] {
      StepTyped(s, es[0]);
      AloneOutside(s, es[0]);
      StepOwn(s, es[0]);
      StepInv(s, es[0]);
      hide Shaped, Placed, Coherent, Owned, Slots, Modes, HolderKnows, Step, Enabled, Harms, WipesOwn, OutsideLock;
      AloneLocked(Step(s, es[0]), es[1..]);
    }
  }

  lemma AloneHarmless(s: S, es: seq<Event>)
    requires FromBoot(s, es) && s.uprocs <= 1
    ensures Harmless(s, es) && QuietScans(s, es)
  {
    assert WipesOwn(s);
    AloneLocked(s, es);
    hide Inv, WipesOwn, Initial;
    LockedQuiet(s, es);
  }

  /** Runs that wipe somebody else's slot exist exactly if there are two processes, whatever the size of the pool. */
  lemma HarmPossible(s: S)
    requires Initial(s)
    ensures (exists es :: FromBoot(s, es) && !Harmless(s, es)) <==> s.uprocs >= 2
  {
    if s.uprocs >= 2 {
      var es := HarmFromBoot(s);
      assert FromBoot(s, es) && !Harmless(s, es);
    } else {
      forall es | FromBoot(s, es) ensures Harmless(s, es) {
        AloneHarmless(s, es);
      }
    }
  }

  // ----- a pool with room for every page -----

  /** Two occupied slots that no pager is filling hold different pages. */
  ghost predicate Differ(s: S, f: int, g: int)
    requires Shaped(s) && IsFrame(s, f) && IsFrame(s, g)
  {
    f != g && f != Busy(s) && g != Busy(s) && s.swap[f].occupied && s.swap[g].occupied ==>
      s.swap[f].asid != s.swap[g].asid || s.swap[f].vpn != s.swap[g].vpn
  }

  ghost predicate DistinctSlots(s: S)
    requires Shaped(s)
  {
    forall f, g :: IsFrame(s, f) && IsFrame(s, g) ==> Differ(s, f, g)
  }

  /** The frame of a page that was missing holds the only slot for that page. */
  lemma InstalledDiffers(s: S, g: int)
    requires Inv(s) && s.pager.Recorded? && IsFrame(s, g) && g != s.pager.f && s.swap[g].occupied
    ensures s.swap[g].asid != s.pager.a || s.swap[g].vpn != VpnOf(s.pager.page)
  {
    assert SlotAt(s, g) && ModeAt(s, s.pager.a);
    PageVpn(s.pager.page, 0);
  }

  lemma StepDistinct(s: S, e: Event)
    requires Inv(s) && Enabled(s, e) && !Harms(s, e) && DistinctSlots(s)
    ensures Typed(Step(s, e)) && DistinctSlots(Step(s, e))
  {
    StepTyped(s, e);
    var s1 := Step(s, e);
    forall f, g | IsFrame(s1, f) && IsFrame(s1, g) ensures Differ(s1, f, g) {
      assert Differ(s, f, g);
      if e.Install? {
        InstallDiffer(s, f, g);
      } else {
        hide Coherent, Owned, Slots, Modes, AllFit, DistinctSlots;
      }
    }
  }

  lemma InstallDiffer(s: S, f: int, g: int)
    requires Inv(s) && Enabled(s, Install) && IsFrame(s, f) && IsFrame(s, g) && Differ(s, f, g)
    ensures Typed(Step(s, Install)) && |Step(s, Install).swap| == |s.swap| && Differ(Step(s, Install), f, g)
  {
    StepTyped(s, Install);
    if f != g && s.swap[f].occupied && s.swap[g].occupied {
      if f == s.pager.f { InstalledDiffers(s, g); }
      if g == s.pager.f { InstalledDiffers(s, f); }
    }
    hide Coherent, Owned, Slots, Modes, AllFit;
  }

  /** The scan in s began in v, and every slot it has passed was occupied then. */
  ghost predicate Since(v: S, s: S) {
    && Inv(v) && DistinctSlots(v) && v.pager.Scanning? && v.uprocs == s.uprocs && |v.swap| == |s.swap|
    && s.pager.Scanning?
    && (forall f :: 0 <= f < |s.swap| && s.swap[f].occupied ==> v.swap[f].occupied)
    && (forall f :: 0 <= f < s.pager.i && f < |s.swap| ==> v.swap[f].occupied)
  }

  ghost predicate Began(s: S) { s.pager.Scanning? ==> exists v :: Since(v, s) }

  lemma StepBegan(s: S, e: Event)
    requires Inv(s) && Enabled(s, e) && Inv(Step(s, e)) && DistinctSlots(Step(s, e)) && Began(s)
    ensures Began(Step(s, e))
  {
    hide Coherent, Owned, Slots, Modes, HolderKnows, AllFit, DistinctSlots;
    var s1 := Step(s, e);
    if s1.pager.Scanning? {
      if e.Lock? {
        assert Since(s1, s1);
      } else {
        var v :| Since(v, s);
        assert Since(v, s1);
      }
    }
  }

  /** What the occupied slots hold, as indices, and the missing page's index. */
  ghost function Indices(s: S): (r: seq<int>)
    requires s.pager.Scanning?
    ensures |r| == |s.swap| + 1
  {
    seq(|s.swap|, f requires 0 <= f < |s.swap| => Index(s.swap[f].asid, PageOf(s.swap[f].vpn)))
    + [Index(s.pager.a, s.pager.page)]
  }

  lemma IndexAt(s: S, f: int)
    requires Inv(s) && s.pager.Scanning? && IsFrame(s, f) && s.swap[f].occupied
    ensures IsAsid(s, s.swap[f].asid) && IsPage(PageOf(s.swap[f].vpn)) && PageOf(s.swap[f].vpn) != DATA_PAGE
    ensures IsAsid(s, s.pager.a) && IsPage(s.pager.page) && s.pager.page != DATA_PAGE
    ensures s.swap[f].asid != s.pager.a || PageOf(s.swap[f].vpn) != s.pager.page
    ensures VpnOf(PageOf(s.swap[f].vpn)) == s.swap[f].vpn
  {
    assert SlotAt(s, f) && ModeAt(s, s.pager.a);
    PageVpn(0, s.swap[f].vpn);
  }

  lemma IndicesDiffer(s: S, f: int, g: int)
    requires Inv(s) && DistinctSlots(s) && s.pager.Scanning? && 0 <= f < g <= |s.swap|
    requires forall h :: 0 <= h < |s.swap| ==> s.swap[h].occupied
    ensures Indices(s)[f] != Indices(s)[g] && 0 <= Indices(s)[f] < PAGED * s.uprocs
  {
    IndexAt(s, f);
    if g < |s.swap| {
      IndexAt(s, g);
      assert Differ(s, f, g);
      IndexInjective(s, s.swap[f].asid, PageOf(s.swap[f].vpn), s.swap[g].asid, PageOf(s.swap[g].vpn));
    } else {
      IndexInjective(s, s.swap[f].asid, PageOf(s.swap[f].vpn), s.pager.a, s.pager.page);
    }
  }

  /** When every slot is occupied and some page is missing, the pages outnumber the slots. */
  lemma FullBound(s: S)
    requires Inv(s) && DistinctSlots(s) && s.pager.Scanning? && forall h :: 0 <= h < |s.swap| ==> s.swap[h].occupied
    ensures |s.swap| < PAGED * s.uprocs
  {
    var r, n := Indices(s), |s.swap|;
    IndexAt(s, 0);
    IndexInjective(s, s.pager.a, s.pager.page, s.pager.a, s.pager.page);
    forall f, g | 0 <= f < g <= n ensures r[f] != r[g] && 0 <= r[f] < PAGED * s.uprocs {
      IndicesDiffer(s, f, g);
    }
    assert 0 <= r[n] < PAGED * s.uprocs;
    forall f | 0 <= f <= n ensures 0 <= r[f] < PAGED * s.uprocs {
      assert f < n ==> r[f] != r[n];
    }
    hide Inv, Indices, DistinctSlots;
    DistinctBound(r, PAGED * s.uprocs);
  }

  /** So with room for every page a scan always finds a free slot, and no victim is ever needed. */
  lemma {:induction false} RoomyNeverLost(s: S, es: seq<Event>)
    requires Inv(s) && Runs(s, es) && Harmless(s, es) && DistinctSlots(s) && Began(s)
    requires |s.swap| >= PAGED * s.uprocs && !s.pager.Reading? && !s.pager.Lost?
    ensures !Run(s, es).pager.Lost?
    decreases |es|
  {
    if es != [] {
      StepInv(s, es[0]);
      StepTyped(s, es[0]);
      StepDistinct(s, es[0]);
      StepBegan(s, es[0]);
      StepLost(s, es[0]);
      RoomyStep(s, es[0]);
      hide Shaped, Placed, Coherent, Owned, Slots, Modes, HolderKnows, Step, Enabled, Harms, DistinctSlots, Began;
      RoomyNeverLost(Step(s, es[0]), es[1..]);
    }
  }

  lemma RoomyStep(s: S, e: Event)
    requires Inv(s) && Enabled(s, e) && Began(s) && |s.swap| >= PAGED * s.uprocs && !s.pager.Reading?
    ensures !Step(s, e).pager.Reading? && !Step(s, e).pager.Lost?
  {
    hide Coherent, Owned, Slots, Modes, HolderKnows, AllFit, DistinctSlots;
    if e.Pick? {
      var v :| Since(v, s);
      FullBound(v);
    }
  }

  /**
   * A pager can read a wiped slot exactly if there are two processes and the pool cannot hold all their pages: with
   * UPROCMAX of 8, for every pool of at most 247 frames, SWAP_POOL_SIZE of 16 among them.
   */
  lemma LostPossible(s: S)
    requires Initial(s)
    ensures (exists es :: FromBoot(s, es) && Harmless(s, es) && Run(s, es).pager.Lost?)
            <==> s.uprocs >= 2 && |s.swap| < PAGED * s.uprocs
  {
    if s.uprocs >= 2 && |s.swap| < PAGED * s.uprocs {
      var es := LostFromBoot(s);
      assert FromBoot(s, es) && Harmless(s, es) && Run(s, es).pager.Lost?;
    } else {
      forall es | FromBoot(s, es) && Harmless(s, es) ensures !Run(s, es).pager.Lost? {
        NotLost(s, es);
      }
    }
  }

  lemma NotLost(s: S, es: seq<Event>)
    requires FromBoot(s, es) && Harmless(s, es) && (s.uprocs <= 1 || |s.swap| >= PAGED * s.uprocs)
    ensures !Run(s, es).pager.Lost?
  {
    if s.uprocs <= 1 {
      AloneHarmless(s, es);
      QuietNeverLost(s, es);
    } else {
      forall f, g | IsFrame(s, f) && IsFrame(s, g) ensures Differ(s, f, g) {
      }
      hide Inv;
      RoomyNeverLost(s, es);
    }
  }
}
