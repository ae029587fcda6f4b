/** What the pager's races lead to: runs from boot that are lost, that wipe a live slot, and that read a wrong word. */
module PagerScenarios {
  import opened PagerState
  import opened PagerRuns

  // ----- putting runs together -----

  /** The events lead from s to s1, and no process reads or writes its memory on the way. */
  ghost predicate Goes(s: S, es: seq<Event>, s1: S) { Reaches(s, es, s1) && NoAccess(es) }

  ghost predicate NoAccess(es: seq<Event>) {
    forall i :: 0 <= i < |es| ==> !es[i].Read? && !es[i].Write?
  }

  /** So they do, and no slot is wiped that is not the wiper's own. */
  ghost predicate Leads(s: S, es: seq<Event>, s1: S) { Goes(s, es, s1) && Harmless(s, es) }

  lemma GoesStep(s: S, e: Event)
    requires Typed(s) && Enabled(s, e) && !e.Read? && !e.Write?
    ensures Typed(Step(s, e)) && Goes(s, [e], Step(s, e)) && (!Harms(s, e) ==> Leads(s, [e], Step(s, e)))
  {
    hide Typed, Step, Enabled, Harms, Reaches, Harmless;
    ReachesOne(s, e);
  }

  lemma GoesOn(s: S, es: seq<Event>, s1: S, fs: seq<Event>, s2: S)
    requires Goes(s, es, s1) && Goes(s1, fs, s2)
    ensures Goes(s, es + fs, s2)
  {
    ReachesOn(s, es, s1, fs, s2);
    hide Reaches;
  }

  lemma LeadsOn(s: S, es: seq<Event>, s1: S, fs: seq<Event>, s2: S)
    requires Leads(s, es, s1) && Leads(s1, fs, s2)
    ensures Leads(s, es + fs, s2)
  {
    ReachesOn(s, es, s1, fs, s2);
    GoesOn(s, es, s1, fs, s2);
    hide Goes, Typed, Harmless, Runs;
  }

  // ----- pieces of a run -----

  lemma Nothing(s: S)
    requires Typed(s)
    ensures Leads(s, [], s)
  {
  }

  /** A process touches a page that is not mapped and gets the lock: refill, fault, lock. */
  lemma Touch(s: S, a: int, q: int) returns (es: seq<Event>, s1: S)
    requires Typed(s) && s.pager.Unlocked? && s.tlb == map[] && IsAsid(s, a) && IsPage(q)
    requires s.mode[a] == Running && !Entry(s, a, q).valid
    ensures Leads(s, es, s1) && Typed(s1)
    ensures s1 == s.(tlb := map[Key(a, q) := s.pt[a][q]], mode := s.mode[a := Faulting(q)], pager := Scanning(a, q, 0))
  {
    var u := Step(s, Refill(a, q));
    GoesStep(s, Refill(a, q));
    var v := Step(u, Fault(a, q));
    GoesStep(u, Fault(a, q));
    s1 := Step(v, Lock(a));
    GoesStep(v, Lock(a));
    hide Placed, Shaped, Enabled, Goes, Leads;
    LeadsOn(s, [Refill(a, q)], u, [Fault(a, q)], v);
    LeadsOn(s, [Refill(a, q)] + [Fault(a, q)], v, [Lock(a)], s1);
    es := [Refill(a, q)] + [Fault(a, q)] + [Lock(a)];
  }

  /** The scan passes occupied slots. */
  lemma {:induction false} ScanOn(s: S, k: nat) returns (es: seq<Event>, s1: S)
    requires Typed(s) && s.pager.Scanning? && s.pager.i <= k <= |s.swap|
    requires forall f :: s.pager.i <= f < k ==> s.swap[f].occupied
    ensures Leads(s, es, s1) && Typed(s1) && s1 == s.(pager := Scanning(s.pager.a, s.pager.page, k))
    decreases k - s.pager.i
  {
    if s.pager.i == k {
      Nothing(s);
      es, s1 := [], s;
    } else {
      var u := Step(s, Scan);
      GoesStep(s, Scan);
      var fs;
      fs, s1 := ScanOn(u, k);
      hide Placed, Shaped, Enabled, Goes, Leads;
      LeadsOn(s, [Scan], u, fs, s1);
      es := [Scan] + fs;
    }
  }

  /** The state once the page that the pager is loading is mapped and the lock given back. */
  function Mapped(s: S): S
    requires Typed(s) && s.pager.Loading?
  {
    var p := s.pager;
    s.(ram := s.ram[p.f := s.flash[p.a][p.page]], swap := s.swap[p.f := Slot(true, p.a, VpnOf(p.page))],
       pt := s.pt[p.a := s.pt[p.a][p.page := Pte(true, POOL_PFN + p.f)]], tlb := map[], pager := Unlocked,
       mode := s.mode[p.a := Running])
  }

  /** The pager loads the page and records its owner. */
  lemma LoadIn(s: S) returns (es: seq<Event>, s1: S)
    requires Typed(s) && s.pager.Loading?
    ensures Leads(s, es, s1) && Typed(s1)
    ensures var p := s.pager;
            s1 == s.(ram := s.ram[p.f := s.flash[p.a][p.page]], swap := s.swap[p.f := Slot(true, p.a, VpnOf(p.page))],
                     pager := Recorded(p.a, p.page, p.f))
  {
    var s2 := Step(s, FinishLoad);
    GoesStep(s, FinishLoad);
    var s3 := Step(s2, Record);
    GoesStep(s2, Record);
    var s4 := Step(s3, Record);
    GoesStep(s3, Record);
    s1 := Step(s4, Record);
    GoesStep(s4, Record);
    hide Placed, Shaped, Enabled, Goes, Leads;
    LeadsOn(s, [FinishLoad], s2, [Record], s3);
    LeadsOn(s, [FinishLoad] + [Record], s3, [Record], s4);
    LeadsOn(s, [FinishLoad] + [Record] + [Record], s4, [Record], s1);
    es := [FinishLoad] + [Record] + [Record] + [Record];
  }

  /** The pager loads the page, records its owner, maps it and gives the lock back. */
  lemma MapIn(s: S) returns (es: seq<Event>, s1: S)
    requires Typed(s) && s.pager.Loading?
    ensures Leads(s, es, s1) && Typed(s1) && s1 == Mapped(s)
  {
    var fs, s2 := LoadIn(s);
    var s3 := Step(s2, Install);
    GoesStep(s2, Install);
    s1 := Step(s3, Unlock);
    GoesStep(s3, Unlock);
    hide Placed, Shaped, Enabled, Goes, Leads;
    LeadsOn(s, fs, s2, [Install], s3);
    LeadsOn(s, fs + [Install], s3, [Unlock], s1);
    es := fs + [Install] + [Unlock];
  }

  /** A process faults, and the pager finds slot f, the first one free. */
  lemma FindFree(s: S, a: int, q: int, f: nat) returns (es: seq<Event>, s1: S)
    requires Typed(s) && s.pager.Unlocked? && s.tlb == map[] && IsAsid(s, a) && IsPage(q)
    requires s.mode[a] == Running && !Entry(s, a, q).valid
    requires f < |s.swap| && !s.swap[f].occupied && forall g :: 0 <= g < f ==> s.swap[g].occupied
    ensures Leads(s, es, s1) && Typed(s1)
    ensures s1 == s.(tlb := map[Key(a, q) := s.pt[a][q]], mode := s.mode[a := Faulting(q)], pager := Loading(a, q, f))
  {
    var fs, u := Touch(s, a, q);
    var gs, v := ScanOn(u, f);
    s1 := Step(v, Scan);
    GoesStep(v, Scan);
    hide Placed, Shaped, Enabled, Goes, Leads;
    LeadsOn(s, fs, u, gs, v);
    LeadsOn(s, fs + gs, v, [Scan], s1);
    es := fs + gs + [Scan];
  }

  /** A process faults on a page and gets it in slot f, the first one free. */
  lemma PageIn(s: S, a: int, q: int, f: nat) returns (es: seq<Event>, s1: S)
    requires Typed(s) && s.pager.Unlocked? && s.tlb == map[] && IsAsid(s, a) && IsPage(q)
    requires s.mode[a] == Running && !Entry(s, a, q).valid
    requires f < |s.swap| && !s.swap[f].occupied && forall g :: 0 <= g < f ==> s.swap[g].occupied
    ensures Leads(s, es, s1) && Typed(s1)
    ensures s1 == s.(ram := s.ram[f := s.flash[a][q]], swap := s.swap[f := Slot(true, a, VpnOf(q))],
                     pt := s.pt[a := s.pt[a][q := Pte(true, POOL_PFN + f)]])
  {
    var fs, u := FindFree(s, a, q, f);
    var gs;
    gs, s1 := MapIn(u);
    assert s1.mode == s.mode;
    hide Placed, Shaped, Goes, Leads;
    LeadsOn(s, fs, u, gs, s1);
    es := fs + gs;
  }

  /** The pager takes the frame whose turn it is from its owner. */
  lemma TakeVictim(s: S, va: int, vp: int) returns (es: seq<Event>, s1: S)
    requires Typed(s) && s.pager.Scanning? && s.pager.i == |s.swap| && IsAsid(s, va) && IsPage(vp)
    requires s.swap[s.swapIndex] == Slot(true, va, VpnOf(vp))
    ensures Leads(s, es, s1) && Typed(s1) && s1.pager == Loading(s.pager.a, s.pager.page, s.swapIndex)
    ensures s1.swap == s.swap && s1.mode == s.mode && s1.tlb.Keys == s.tlb.Keys
    ensures s1.pt == s.pt[va := s.pt[va][vp := s.pt[va][vp].(valid := false)]]
  {
    PageVpn(vp, 0);
    var s2 := Step(s, Pick);
    GoesStep(s, Pick);
    var s3 := Step(s2, ReadVpn);
    GoesStep(s2, ReadVpn);
    var s4 := Step(s3, Evict);
    GoesStep(s3, Evict);
    s1 := Step(s4, FinishWrite);
    GoesStep(s4, FinishWrite);
    hide Placed, Shaped, Enabled, Goes, Leads;
    LeadsOn(s, [Pick], s2, [ReadVpn], s3);
    LeadsOn(s, [Pick] + [ReadVpn], s3, [Evict], s4);
    LeadsOn(s, [Pick] + [ReadVpn] + [Evict], s4, [FinishWrite], s1);
    es := [Pick] + [ReadVpn] + [Evict] + [FinishWrite];
  }

  /** Process a ends and finds itself in slot 0. */
  lemma EndTo(s: S, a: int) returns (es: seq<Event>, s1: S)
    requires Typed(s) && !s.pager.Lost? && IsAsid(s, a) && s.mode[a] == Running
    requires s.swap[0].occupied && s.swap[0].asid == a
    ensures Leads(s, es, s1) && Typed(s1) && s1 == s.(mode := s.mode[a := Clearing(0, Occupied)])
  {
    var u := Step(s, Die(a));
    GoesStep(s, Die(a));
    s1 := Step(u, Check(a));
    GoesStep(u, Check(a));
    hide Placed, Shaped, Enabled, Goes, Leads;
    LeadsOn(s, [Die(a)], u, [Check(a)], s1);
    es := [Die(a)] + [Check(a)];
  }

  // ----- a full pool -----

  /** The pages that are paged, in order. */
  const PAGED := 31

  function PageAt(k: int): int { if k == 0 then 0 else k + 1 }

  function Rank(q: int): int { if q == 0 then 0 else q - 1 }

  /** The pages of all processes in one order. */
  function Index(a: int, q: int): int { (a - 1) * PAGED + Rank(q) }

  function OwnerAt(f: int): int { 1 + f / PAGED }

  function PageOfIndex(f: int): int { PageAt(f % PAGED) }

  lemma IndexRoundTrip(s: S, f: int)
    requires 0 <= f < PAGED * s.uprocs
    ensures IsAsid(s, OwnerAt(f)) && IsPage(PageOfIndex(f)) && PageOfIndex(f) != DATA_PAGE
    ensures Index(OwnerAt(f), PageOfIndex(f)) == f
  {
  }

  /** Different pages have different indices. */
  lemma IndexInjective(s: S, a: int, q: int, b: int, r: int)
    requires IsAsid(s, a) && IsPage(q) && q != DATA_PAGE && IsAsid(s, b) && IsPage(r) && r != DATA_PAGE
    ensures 0 <= Index(a, q) < PAGED * s.uprocs
    ensures Index(a, q) == Index(b, r) <==> a == b && q == r
  {
    if a < b {
      assert (a - 1) * PAGED + PAGED <= (b - 1) * PAGED;
    } else if b < a {
      assert (b - 1) * PAGED + PAGED <= (a - 1) * PAGED;
    }
  }

  /** The first j pages are in the first j slots; everybody is running and nobody is paging. */
  ghost predicate Filled(s: S, j: int) {
    && Typed(s) && 0 <= j <= |s.swap| <= PAGED * s.uprocs
    && s.pager == Unlocked && s.tlb == map[] && s.swapIndex == 0
    && (forall a :: IsAsid(s, a) ==> s.mode[a] == Running)
    && (forall f {:trigger s.swap[f]} :: 0 <= f < j ==> s.swap[f] == Slot(true, OwnerAt(f), VpnOf(PageOfIndex(f))))
    && (forall f {:trigger s.swap[f]} :: j <= f < |s.swap| ==> !s.swap[f].occupied)
    && (forall a, q :: IsAsid(s, a) && IsPage(q) && q != DATA_PAGE && Index(a, q) >= j ==> !Entry(s, a, q).valid)
  }

  lemma FillOne(s: S, j: int) returns (es: seq<Event>, s1: S)
    requires Filled(s, j) && j < |s.swap|
    ensures Leads(s, es, s1) && Filled(s1, j + 1) && |s1.swap| == |s.swap| && s1.uprocs == s.uprocs
    ensures s1.words == s.words
  {
    var a, q := OwnerAt(j), PageOfIndex(j);
    IndexRoundTrip(s, j);
    es, s1 := PageIn(s, a, q, j);
    hide Goes, Placed, Index, OwnerAt, PageOfIndex;
    forall b, r | IsAsid(s1, b) && IsPage(r) && r != DATA_PAGE && Index(b, r) >= j + 1 ensures !Entry(s1, b, r).valid {
      assert b != a || r != q;
    }
  }

  lemma {:induction false} FillAll(s: S, j: int) returns (es: seq<Event>, s1: S)
    requires Filled(s, j)
    ensures Leads(s, es, s1) && Filled(s1, |s1.swap|) && |s1.swap| == |s.swap| && s1.uprocs == s.uprocs
    ensures s1.words == s.words
    decreases |s.swap| - j
  {
    if j == |s.swap| {
      Nothing(s);
      es, s1 := [], s;
    } else {
      var fs, u := FillOne(s, j);
      hide Goes, Leads, Filled;
      var gs;
      gs, s1 := FillAll(u, j + 1);
      LeadsOn(s, fs, u, gs, s1);
      es := fs + gs;
    }
  }

  lemma InitialFilled(s: S)
    requires Initial(s) && |s.swap| <= PAGED * s.uprocs
    ensures Filled(s, 0)
  {
    InitialInv(s);
    hide Index;
    forall f | 0 <= f < |s.swap| ensures !s.swap[f].occupied {
      assert IsFrame(s, f);
    }
    forall a, q | IsAsid(s, a) && IsPage(q) && q != DATA_PAGE ensures !Entry(s, a, q).valid {
      assert Entry(s, a, q) == Pte(q == DATA_PAGE, 0);
    }
  }

  /** From boot to a full pool; the pages that are left are not mapped. */
  lemma FillFromBoot(s: S) returns (es: seq<Event>, s1: S)
    requires Initial(s) && |s.swap| <= PAGED * s.uprocs
    ensures FromBoot(s, es) && Leads(s, es, s1) && Filled(s1, |s1.swap|)
    ensures |s1.swap| == |s.swap| && s1.uprocs == s.uprocs && s1.words == s.words
  {
    InitialFilled(s);
    es, s1 := FillAll(s, 0);
    hide Filled, Inv, Typed;
  }

  // ----- a lost pager -----

  /** From a full pool: the last process faults on its last page, and the scan finds every slot occupied. */
  lemma FullScan(s: S) returns (es: seq<Event>, s1: S)
    requires Filled(s, |s.swap|) && s.uprocs >= 1 && |s.swap| < PAGED * s.uprocs
    ensures Leads(s, es, s1) && Typed(s1)
    ensures s1 == s.(tlb := map[Key(s.uprocs, STACK_PAGE_INDEX) := s.pt[s.uprocs][STACK_PAGE_INDEX]],
                     mode := s.mode[s.uprocs := Faulting(STACK_PAGE_INDEX)],
                     pager := Scanning(s.uprocs, STACK_PAGE_INDEX, |s.swap|))
  {
    var a, q := s.uprocs, STACK_PAGE_INDEX;
    assert Index(a, q) == PAGED * s.uprocs - 1;
    hide Index, OwnerAt, PageOfIndex;
    var fs, u := Touch(s, a, q);
    var gs;
    gs, s1 := ScanOn(u, |s.swap|);
    hide Placed, Shaped, Goes, Leads, Filled;
    LeadsOn(s, fs, u, gs, s1);
    es := fs + gs;
  }

  /** From there process 1 ends and wipes its first slot, whose turn it is, and the pick reads that slot. */
  lemma LoseFrom(s: S) returns (es: seq<Event>, s1: S)
    requires Typed(s) && s.uprocs >= 2 && s.pager.Scanning? && s.pager.i == |s.swap| && s.swapIndex == 0
    requires s.mode[1] == Running && s.swap[0].occupied && s.swap[0].asid == 1
    ensures Leads(s, es, s1) && s1.pager.Lost?
  {
    var es1, s4 := EndTo(s, 1);
    var s5 := Step(s4, Clear(1));
    GoesStep(s4, Clear(1));
    var s6 := Step(s5, Clear(1));
    GoesStep(s5, Clear(1));
    var s7 := Step(s6, Pick);
    GoesStep(s6, Pick);
    s1 := Step(s7, ReadVpn);
    GoesStep(s7, ReadVpn);
    hide Placed, Shaped, Enabled, Goes, Leads, Step;
    LeadsOn(s, es1, s4, [Clear(1)], s5);
    LeadsOn(s, es1 + [Clear(1)], s5, [Clear(1)], s6);
    LeadsOn(s, es1 + [Clear(1)] + [Clear(1)], s6, [Pick], s7);
    LeadsOn(s, es1 + [Clear(1)] + [Clear(1)] + [Pick], s7, [ReadVpn], s1);
    es := es1 + [Clear(1)] + [Clear(1)] + [Pick] + [ReadVpn];
  }

  /** Slot 0 of a full pool belongs to process 1's page 0. */
  lemma FirstSlot(s: S)
    requires Filled(s, |s.swap|)
    ensures s.swap[0] == Slot(true, 1, VpnOf(0))
    ensures forall a :: IsAsid(s, a) ==> s.mode[a] == Running
    ensures s.swapIndex == 0
  {
  }

  /**
   * With two processes and a pool that the processes can fill with one page to spare, some harmless run from boot ends
   * with the pager reading a wiped slot.
   */
  lemma LostFromBoot(s: S) returns (es: seq<Event>)
    requires Initial(s) && s.uprocs >= 2 && |s.swap| < PAGED * s.uprocs
    ensures FromBoot(s, es) && Harmless(s, es) && Run(s, es).pager.Lost?
  {
    var fs, u := FillFromBoot(s);
    FirstSlot(u);
    var gs, v := FullScan(u);
    hide Filled, Inv, Initial, Goes, Leads, Shaped, Placed;
    var hs, w := LoseFrom(v);
    LeadsOn(s, fs, u, gs, v);
    LeadsOn(s, fs + gs, v, hs, w);
    es := fs + gs + hs;
    LeadsRuns(s, es, w);
  }

  lemma LeadsRuns(s: S, es: seq<Event>, s1: S)
    requires Leads(s, es, s1)
    ensures Typed(s) && Runs(s, es) && Run(s, es) == s1 && Harmless(s, es)
  {
  }

  // ----- a slot wiped under its new owner -----

  /** Process 1 gets slot 0, ends, and has marked the slot free when it is preempted. */
  lemma HalfWiped(s: S) returns (es: seq<Event>, s1: S)
    requires Typed(s) && s.uprocs >= 1 && s.pager.Unlocked? && s.tlb == map[] && !s.swap[0].occupied
    requires s.mode[1] == Running && !Entry(s, 1, 0).valid
    ensures Leads(s, es, s1) && Typed(s1) && s1.uprocs == s.uprocs && s1.pager.Unlocked? && s1.tlb == map[]
    ensures |s1.swap| == |s.swap| && !s1.swap[0].occupied && s1.mode == s.mode[1 := Clearing(0, Asid)]
    ensures forall a :: IsAsid(s, a) && a != 1 ==> s1.pt[a] == s.pt[a]
  {
    hide Goes, Leads;
    var fs, u := PageIn(s, 1, 0, 0);
    var gs, v := EndTo(u, 1);
    s1 := Step(v, Clear(1));
    GoesStep(v, Clear(1));
    hide Placed, Shaped;
    LeadsOn(s, fs, u, gs, v);
    LeadsOn(s, fs + gs, v, [Clear(1)], s1);
    es := fs + gs + [Clear(1)];
  }

  /** The pager gives that slot to process 2, and process 1 goes on to wipe it. */
  lemma HarmFrom(s: S) returns (es: seq<Event>, s1: S)
    requires Typed(s) && s.uprocs >= 2 && s.pager.Unlocked? && s.tlb == map[] && !s.swap[0].occupied
    requires s.mode[1] == Running && s.mode[2] == Running && !Entry(s, 1, 0).valid && !Entry(s, 2, 0).valid
    ensures Leads(s, es, s1) && Typed(s1) && Enabled(s1, Clear(1)) && Harms(s1, Clear(1))
  {
    var fs, u := HalfWiped(s);
    var gs, v := FindFree(u, 2, 0, 0);
    var hs;
    hs, s1 := LoadIn(v);
    hide Placed, Shaped, Goes, Leads;
    LeadsOn(s, fs, u, gs, v);
    LeadsOn(s, fs + gs, v, hs, s1);
    es := fs + gs + hs;
  }

  /** With two processes and any pool, some run from boot wipes a slot under its new owner. */
  lemma HarmFromBoot(s: S) returns (es: seq<Event>)
    requires Initial(s) && s.uprocs >= 2
    ensures FromBoot(s, es) && !Harmless(s, es)
  {
    InitialInv(s);
    assert IsFrame(s, 0) && IsAsid(s, 1) && IsAsid(s, 2);
    assert Entry(s, 1, 0) == Entry(s, 2, 0) == Pte(false, 0);
    var fs, u := HarmFrom(s);
    LeadsRuns(s, fs, u);
    ReachesOne(u, Clear(1));
    hide Inv, Typed, Initial, Step, Enabled;
    es := fs + [Clear(1)];
    ReachesOn(s, fs, u, [Clear(1)], Step(u, Clear(1)));
  }

  // ----- a wrong read -----

  /** The last process has its pages 30 and 31 in frame 0, and their slot is empty. */
  ghost predicate Doubled(s: S) {
    && Typed(s) && s.uprocs >= 1 && s.words >= 1 && s.pager.Unlocked? && s.tlb == map[]
    && s.mode[s.uprocs] == Running && s.pt[s.uprocs][30] == s.pt[s.uprocs][31] == Pte(true, POOL_PFN)
  }

  /**
   * From a full pool: the last process faults on page 31 and gets slot 0 of process 1, which has found itself there
   * just before; process 1 marks the slot free.
   */
  lemma Robbed(s: S) returns (es: seq<Event>, s1: S)
    requires Filled(s, |s.swap|) && s.uprocs >= 2 && |s.swap| < PAGED * s.uprocs - 1
    ensures Goes(s, es, s1) && Typed(s1) && s1.pager.Unlocked? && s1.tlb == map[] && s1.words == s.words
    ensures s1.uprocs == s.uprocs && |s1.swap| == |s.swap| && !s1.swap[0].occupied
    ensures s1.mode[s.uprocs] == Running && s1.pt[s.uprocs] == s.pt[s.uprocs][31 := Pte(true, POOL_PFN)]
  {
    FirstSlot(s);
    var es1, s2 := FullScan(s);
    hide Filled, Shaped, Placed, Goes, Leads;
    var es2, s3 := RobTo(s2);
    s1 := Step(s3, Clear(1));
    GoesStep(s3, Clear(1));
    GoesOn(s, es1, s2, es2, s3);
    GoesOn(s, es1 + es2, s3, [Clear(1)], s1);
    es := es1 + es2 + [Clear(1)];
  }

  lemma RobTo(s: S) returns (es: seq<Event>, s1: S)
    requires Typed(s) && s.uprocs >= 2 && s.pager == Scanning(s.uprocs, 31, |s.swap|) && s.swapIndex == 0
    requires s.mode[1] == Running && s.swap[0] == Slot(true, 1, VpnOf(0))
    ensures Goes(s, es, s1) && Typed(s1) && s1.pager.Unlocked? && s1.tlb == map[] && s1.words == s.words
    ensures s1.uprocs == s.uprocs && |s1.swap| == |s.swap| && s1.mode[1] == Clearing(0, Occupied)
    ensures s1.mode[s.uprocs] == Running && s1.pt[s.uprocs] == s.pt[s.uprocs][31 := Pte(true, POOL_PFN)]
  {
    var es1, s2 := EndTo(s, 1);
    var es2, s3 := TakeVictim(s2, 1, 0);
    var es3;
    es3, s1 := MapIn(s3);
    hide Placed, Shaped, Goes, Leads;
    GoesOn(s, es1, s2, es2, s3);
    GoesOn(s, es1 + es2, s3, es3, s1);
    es := es1 + es2 + es3;
  }

  lemma DoubleUp(s: S) returns (es: seq<Event>, s1: S)
    requires Filled(s, |s.swap|) && s.uprocs >= 2 && |s.swap| < PAGED * s.uprocs - 1 && s.words >= 1
    ensures Goes(s, es, s1) && Doubled(s1) && s1.uprocs == s.uprocs
  {
    var fs, u := Robbed(s);
    assert Index(s.uprocs, 30) == PAGED * s.uprocs - 2;
    assert !Entry(s, s.uprocs, 30).valid;
    hide Index, Filled, Goes, Leads;
    var gs;
    gs, s1 := PageIn(u, s.uprocs, 30, 0);
    assert Goes(u, gs, s1) by { LeadsGoes(u, gs, s1); }
    GoesOn(s, fs, u, gs, s1);
    es := fs + gs;
  }

  lemma LeadsGoes(s: S, es: seq<Event>, s1: S)
    requires Leads(s, es, s1)
    ensures Goes(s, es, s1)
  {
  }

  /** What the process writes to page 31 it then reads from page 30. */
  lemma WrongTail(s: S, v: int) returns (es: seq<Event>)
    requires Doubled(s)
    ensures es == [Refill(s.uprocs, 31), Write(s.uprocs, 31, 0, v), Refill(s.uprocs, 30), Read(s.uprocs, 30, 0, v)]
    ensures Typed(s) && Runs(s, es) && !Run(s, es).pager.Lost?
  {
    var a := s.uprocs;
    var s1 := Step(s, Refill(a, 31));
    StepTyped(s, Refill(a, 31));
    var s2 := Step(s1, Write(a, 31, 0, v));
    StepTyped(s1, Write(a, 31, 0, v));
    var s3 := Step(s2, Refill(a, 30));
    StepTyped(s2, Refill(a, 30));
    var s4 := Step(s3, Read(a, 30, 0, v));
    StepTyped(s3, Read(a, 30, 0, v));
    hide Shaped, Placed, Step, Enabled;
    assert Runs(s4, []) && Run(s4, []) == s4;
    assert Runs(s3, [Read(a, 30, 0, v)]) && Run(s3, [Read(a, 30, 0, v)]) == s4 by {
      assert [Read(a, 30, 0, v)][1..] == [];
    }
    var ds := [Refill(a, 30), Read(a, 30, 0, v)];
    assert Runs(s2, ds) && Run(s2, ds) == s4 by { assert ds[1..] == [Read(a, 30, 0, v)]; }
    var cs := [Write(a, 31, 0, v), Refill(a, 30), Read(a, 30, 0, v)];
    assert Runs(s1, cs) && Run(s1, cs) == s4 by { assert cs[1..] == ds; }
    es := [Refill(a, 31), Write(a, 31, 0, v), Refill(a, 30), Read(a, 30, 0, v)];
    assert Runs(s, es) && Run(s, es) == s4 by { assert es[1..] == cs; }
  }

  lemma {:induction false} PlainlyOn(m: Plain, fs: seq<Event>, gs: seq<Event>)
    requires NoAccess(fs)
    ensures Plainly(m, fs + gs) <==> Plainly(m, gs)
    decreases |fs|
  {
    if fs == [] {
      assert fs + gs == gs;
    } else {
      assert (fs + gs)[1..] == fs[1..] + gs;
      PlainlyOn(m, fs[1..], gs);
    }
  }

  /** In plain memory a write to page 31 does not show in page 30. */
  lemma TailNotPlain(m: Plain, a: int, v: int)
    requires HasWord(m, a, 30, 0) && m[Key(a, 30)][0] != v
    ensures !Plainly(m, [Refill(a, 31), Write(a, 31, 0, v), Refill(a, 30), Read(a, 30, 0, v)])
  {
    var cs := [Write(a, 31, 0, v), Refill(a, 30), Read(a, 30, 0, v)];
    assert ([Refill(a, 31)] + cs)[1..] == cs;
    if HasWord(m, a, 31, 0) {
      var m1 := m[Key(a, 31) := m[Key(a, 31)][0 := v]];
      var ds := [Refill(a, 30), Read(a, 30, 0, v)];
      assert cs[1..] == ds && ds[1..] == [Read(a, 30, 0, v)];
      assert !Plainly(m1, ds[1..]);
      assert !Plainly(m1, ds);
      assert !Plainly(m, cs);
    }
    assert [Refill(a, 31), Write(a, 31, 0, v), Refill(a, 30), Read(a, 30, 0, v)] == [Refill(a, 31)] + cs;
  }

  /**
   * Such a wipe breaks transparency: with two processes and a pool that leaves two pages over, in some run from boot
   * a process reads from one page what it has written to another.
   */
  lemma WrongReadFromBoot(s: S) returns (es: seq<Event>)
    requires Initial(s) && s.uprocs >= 2 && |s.swap| < PAGED * s.uprocs - 1 && s.words >= 1
    ensures FromBoot(s, es) && !Run(s, es).pager.Lost? && !Plainly(OnFlash(s), es)
  {
    var a := s.uprocs;
    var v := s.flash[a][30][0] + 1;
    var fs, u := FillFromBoot(s);
    assert Goes(s, fs, u) by { LeadsGoes(s, fs, u); }
    hide Filled, Inv, Initial, Leads, Doubled, Plainly, Goes;
    var gs, w := DoubleUp(u);
    GoesOn(s, fs, u, gs, w);
    GoesRuns(s, fs + gs, w);
    var hs := WrongTail(w, v);
    ReachesOn(s, fs + gs, w, hs, Run(w, hs));
    TailNotPlain(OnFlash(s), a, v);
    PlainlyOn(OnFlash(s), fs + gs, hs);
    es := fs + gs + hs;
  }

  lemma GoesRuns(s: S, es: seq<Event>, s1: S)
    requires Goes(s, es, s1)
    ensures Typed(s) && Runs(s, es) && Run(s, es) == s1 && NoAccess(es)
  {
  }
}
