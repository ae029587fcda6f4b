/**
 * The demand pager as a state machine: swap pool, page tables, TLB, frames and flash, with one pager at a time going
 * through its phases while the other processes run, fault and end.
 */
module PagerState {
  import opened Sequences

  const PAGE_TABLE_SIZE := 32
  const STACK_PAGE_INDEX := 31
  /** VPN_BASE >> VPNSHIFT and STACK_PAGE_VPN >> VPNSHIFT. */
  const BASE_VPN := 0x80000
  const STACK_VPN := 0xBFFFF
  /** The physical frame number of the first swap pool frame: FRAMEPOOL >> VPNSHIFT. */
  const POOL_PFN := 0x20020
  /** The page that initPageTable makes valid with frame number 0; it is never paged. */
  const DATA_PAGE := 1

  // ----- pages and virtual page numbers -----

  function VpnOf(page: int): int { if page == STACK_PAGE_INDEX then STACK_VPN else BASE_VPN + page }

  /** The page index that the refill handler, the pager and the flash routines compute from a vpn. */
  function PageOf(vpn: int): int { if vpn == STACK_VPN then STACK_PAGE_INDEX else vpn - BASE_VPN }

  predicate IsPage(page: int) { 0 <= page < PAGE_TABLE_SIZE }

  /** The virtual pages a process may use: 31 from VPN_BASE on, and the stack page. */
  predicate IsVpn(vpn: int) { BASE_VPN <= vpn < BASE_VPN + STACK_PAGE_INDEX || vpn == STACK_VPN }

  /** Pages and valid vpns correspond one to one. */
  lemma PageVpn(page: int, vpn: int)
    ensures IsPage(page) ==> IsVpn(VpnOf(page)) && PageOf(VpnOf(page)) == page
    ensures IsVpn(vpn) ==> IsPage(PageOf(vpn)) && VpnOf(PageOf(vpn)) == vpn
  {
  }

  /** A process's pages are the 31 from 0x80000000 on and the one at 0xBFFFF000. */
  lemma PageAddresses(vpn: int)
    ensures IsVpn(vpn) <==> 0x8000_0000 <= vpn * 0x1000 < 0x8001_F000 || vpn * 0x1000 == 0xBFFF_F000
  {
  }

  /** Page indices run in the order of the addresses, the stack page last. */
  lemma PageOrder(vpn: int, other: int)
    requires IsVpn(vpn) && IsVpn(other)
    ensures PageOf(vpn) < PageOf(other) <==> vpn < other
  {
  }

  /**
   * The refill handler's range check admits one vpn too many: the page after the last valid one gets the stack page's
   * index.
   */
  lemma RangeCheck(vpn: int)
    ensures IsPage(PageOf(vpn)) <==> IsVpn(vpn) || vpn == BASE_VPN + STACK_PAGE_INDEX
  {
  }

  // ----- the state -----

  datatype Pte = Pte(valid: bool, pfn: int)

  /** swapPoolEntry_t. */
  datatype Slot = Slot(occupied: bool, asid: int, vpn: int)

  const EMPTY := Slot(false, -1, -1)

  datatype Key = Key(asid: int, page: int)

  /** The three words of a slot, each loaded and stored by itself. */
  datatype Field = Occupied | Asid | Vpn

  /** One of the stores of freeFrame. */
  function Wiped(slot: Slot, field: Field): Slot {
    match field
    case Occupied => slot.(occupied := false)
    case Asid => slot.(asid := -1)
    case Vpn => slot.(vpn := -1)
  }

  /** One of the stores that record page q of process a. */
  function Stored(slot: Slot, field: Field, a: int, q: int): Slot {
    match field
    case Occupied => slot.(occupied := true)
    case Asid => slot.(asid := a)
    case Vpn => slot.(vpn := VpnOf(q))
  }

  /**
   * A process that is ending is about to look at slot i in Dying; in Clearing it has found its asid in that slot and is
   * about to wipe the given word.
   */
  datatype Mode =
    | Running
    | Faulting(page: int)
    | Dying(i: nat)
    | Clearing(i: nat, field: Field)
    | Dead

  /**
   * Where the holder of the swap pool lock stands: a is its asid, page the missing page, f its frame; va and vp are
   * the owner and the page of the frame it evicts. Scanning has found the first i slots occupied. Reading has loaded
   * the owner from the victim's slot and is about to load the page. Recording is about to store the given word of the
   * frame's slot. Lost has read a slot that names no process or no page, and goes on to index asidProcessTable or a
   * page table with it: what happens then is undefined.
   */
  datatype Pager =
    | Unlocked
    | Scanning(a: int, page: int, i: nat)
    | Reading(a: int, page: int, f: int, va: int)
    | Picked(a: int, page: int, f: int, va: int, vp: int)
    | WritingBack(a: int, page: int, f: int, va: int, vp: int)
    | Loading(a: int, page: int, f: int)
    | Recording(a: int, page: int, f: int, field: Field)
    | Recorded(a: int, page: int, f: int)
    | Installed(a: int, page: int, f: int)
    | Lost(a: int, page: int, f: int)

  /**
   * Address spaces are 1 to uprocs; index 0 of the tables is unused, as in asidProcessTable. A page's contents are a
   * sequence of words. ram holds the swap pool frames only.
   */
  datatype S = S(
    uprocs: nat,
    words: nat,
    swap: seq<Slot>,
    swapIndex: int,
    pt: seq<seq<Pte>>,
    tlb: map<Key, Pte>,
    ram: seq<seq<int>>,
    flash: seq<seq<seq<int>>>,
    mode: seq<Mode>,
    pager: Pager)

  predicate IsAsid(s: S, a: int) { 1 <= a <= s.uprocs }

  predicate IsFrame(s: S, f: int) { 0 <= f < |s.swap| }

  ghost predicate Shaped(s: S) {
    && |s.swap| == |s.ram| > 0 && 0 <= s.swapIndex < |s.swap|
    && |s.pt| == |s.flash| == |s.mode| == s.uprocs + 1
    && (forall a {:trigger s.pt[a]} :: IsAsid(s, a) ==> |s.pt[a]| == PAGE_TABLE_SIZE)
    && (forall a {:trigger s.flash[a]} :: IsAsid(s, a) ==> |s.flash[a]| == PAGE_TABLE_SIZE)
    && (forall a, q {:trigger s.flash[a][q]} :: IsAsid(s, a) && IsPage(q) ==> |s.flash[a][q]| == s.words)
    && (forall f {:trigger s.ram[f]} :: IsFrame(s, f) ==> |s.ram[f]| == s.words)
  }

  /** A process that may still use its memory. */
  predicate IsLive(s: S, a: int)
    requires |s.mode| == s.uprocs + 1
  {
    IsAsid(s, a) && (s.mode[a].Running? || s.mode[a].Faulting?)
  }

  function Entry(s: S, a: int, q: int): Pte
    requires Shaped(s) && IsAsid(s, a) && IsPage(q)
  {
    s.pt[a][q]
  }

  function WithEntry(s: S, a: int, q: int, e: Pte): S
    requires Shaped(s) && IsAsid(s, a) && IsPage(q)
  {
    s.(pt := s.pt[a := s.pt[a][q := e]])
  }

  /** The frame a pager has taken away from its owner and not yet given to its new one. */
  function Busy(s: S): int {
    match s.pager
    case WritingBack(_, _, f, _, _) => f
    case Loading(_, _, f) => f
    case Recording(_, _, f, _) => f
    case Recorded(_, _, f) => f
    case _ => NIL
  }

  /** The pager has stored the given word of its frame's slot; the order is asid, vpn, occupied. */
  predicate HasStored(p: Pager, field: Field) {
    match p
    case Recording(_, _, _, next) => (field.Asid? && !next.Asid?) || (field.Vpn? && next.Occupied?)
    case Recorded(_, _, _) => true
    case _ => false
  }

  // ----- what happens -----

  datatype Event =
    | Read(a: int, page: int, off: int, v: int)
    | Write(a: int, page: int, off: int, v: int)
    | Refill(a: int, page: int)
    | Replace(key: Key)
    | Fault(a: int, page: int)
    | Lock(a: int)
    | Scan
    | Pick
    | ReadVpn
    | Evict
    | FinishWrite
    | FinishLoad
    | Record
    | Install
    | Unlock
    | Die(a: int)
    | Check(a: int)
    | Clear(a: int)
    | Exit(a: int)

  /** The hardware lets a running process through to the frame of a valid TLB entry. */
  predicate Maps(s: S, a: int, page: int)
    requires Shaped(s)
  {
    && IsAsid(s, a) && s.mode[a].Running? && IsPage(page) && Key(a, page) in s.tlb && s.tlb[Key(a, page)].valid
  }

  /** Nothing is claimed beyond undefined behaviour, so nothing is enabled there. */
  predicate Enabled(s: S, e: Event)
    requires Shaped(s)
  {
    !s.pager.Lost? &&
    match e
    case Read(a, page, off, v) =>
      && Maps(s, a, page) && page != DATA_PAGE && 0 <= off < s.words
      && IsFrame(s, s.tlb[Key(a, page)].pfn - POOL_PFN) && v == s.ram[s.tlb[Key(a, page)].pfn - POOL_PFN][off]
    case Write(a, page, off, v) =>
      && Maps(s, a, page) && page != DATA_PAGE && 0 <= off < s.words
      && IsFrame(s, s.tlb[Key(a, page)].pfn - POOL_PFN)
    case Refill(a, page) => IsAsid(s, a) && s.mode[a].Running? && IsPage(page) && Key(a, page) !in s.tlb
    case Replace(key) => true
    case Fault(a, page) =>
      IsAsid(s, a) && s.mode[a].Running? && IsPage(page) && Key(a, page) in s.tlb && !s.tlb[Key(a, page)].valid
    case Lock(a) => s.pager.Unlocked? && IsAsid(s, a) && s.mode[a].Faulting?
    case Scan => s.pager.Scanning? && s.pager.i < |s.swap|
    case Pick => s.pager.Scanning? && s.pager.i >= |s.swap|
    case ReadVpn => s.pager.Reading?
    case Evict => s.pager.Picked?
    case FinishWrite => s.pager.WritingBack?
    case FinishLoad => s.pager.Loading?
    case Record => s.pager.Recording?
    case Install => s.pager.Recorded?
    case Unlock => s.pager.Installed?
    case Die(a) => IsAsid(s, a) && s.mode[a].Running?
    case Check(a) => IsAsid(s, a) && s.mode[a].Dying? && s.mode[a].i < |s.swap|
    case Clear(a) => IsAsid(s, a) && s.mode[a].Clearing?
    case Exit(a) => IsAsid(s, a) && s.mode[a].Dying? && s.mode[a].i >= |s.swap|
  }

  /** One round of getFreeFrame. */
  function Scanned(s: S): S
    requires Shaped(s) && s.pager.Scanning? && s.pager.i < |s.swap|
  {
    var p := s.pager;
    s.(pager := if s.swap[p.i].occupied then Scanning(p.a, p.page, p.i + 1) else Loading(p.a, p.page, p.i))
  }

  /** pickVictimFrame, and the load of the victim's owner, whatever the slot holds by now. */
  function Chosen(s: S): S
    requires Shaped(s) && s.pager.Scanning?
  {
    var p, f := s.pager, s.swapIndex;
    s.(swapIndex := (f + 1) % |s.swap|, pager := Reading(p.a, p.page, f, s.swap[f].asid))
  }

  /** The load of the victim's page, whatever the slot holds by now. */
  function VictimRead(s: S): S
    requires Shaped(s) && s.pager.Reading? && IsFrame(s, s.pager.f)
  {
    var p := s.pager;
    var q := PageOf(s.swap[p.f].vpn);
    s.(pager := if IsAsid(s, p.va) && IsPage(q) then Picked(p.a, p.page, p.f, p.va, q) else Lost(p.a, p.page, p.f))
  }

  /** The frame that is picked k picks after frame i. */
  function Victim(i: int, n: int, k: nat): (f: int)
    requires 0 <= i < n
    ensures 0 <= f < n
    decreases k
  {
    if k == 0 then i else Victim((i + 1) % n, n, k - 1)
  }

  lemma WrapsAround(i: int, n: int)
    requires 0 <= i < n
    ensures (i + 1) % n == if i + 1 == n then 0 else i + 1
  {
  }

  /** Any n picks in a row take each of the n frames exactly once. */
  lemma {:induction false} VictimsRotate(i: int, n: int, k: nat)
    requires 0 <= i < n && k < n
    ensures Victim(i, n, k) == if i + k < n then i + k else i + k - n
    decreases k
  {
    if k > 0 {
      WrapsAround(i, n);
      var next := (i + 1) % n;
      VictimsRotate(next, n, k - 1);
    }
  }

  /** Step 8, up to the write: the victim's entry becomes invalid, in the page table and in the TLB if it is there. */
  function Evicted(s: S): S
    requires Shaped(s) && s.pager.Picked? && IsAsid(s, s.pager.va) && IsPage(s.pager.vp)
  {
    var p := s.pager;
    var e := Entry(s, p.va, p.vp).(valid := false);
    WithEntry(s, p.va, p.vp, e).(
      tlb := if Key(p.va, p.vp) in s.tlb then s.tlb[Key(p.va, p.vp) := e] else s.tlb,
      pager := WritingBack(p.a, p.page, p.f, p.va, p.vp))
  }

  /** The pager's next store into its frame's slot. */
  function StoredNext(s: S): S
    requires Shaped(s) && s.pager.Recording? && IsFrame(s, s.pager.f)
  {
    var p := s.pager;
    s.(swap := s.swap[p.f := Stored(s.swap[p.f], p.field, p.a, p.page)],
       pager := match p.field
                case Asid => Recording(p.a, p.page, p.f, Vpn)
                case Vpn => Recording(p.a, p.page, p.f, Occupied)
                case Occupied => Recorded(p.a, p.page, p.f))
  }

  /** The test in supTerminate's loop. */
  function Checked(s: S, a: int): S
    requires Shaped(s) && IsAsid(s, a) && s.mode[a].Dying? && s.mode[a].i < |s.swap|
  {
    var i := s.mode[a].i;
    s.(mode := s.mode[a := if s.swap[i].occupied && s.swap[i].asid == a then Clearing(i, Occupied) else Dying(i + 1)])
  }

  /** The next store of freeFrame. */
  function ClearedNext(s: S, a: int): S
    requires Shaped(s) && IsAsid(s, a) && s.mode[a].Clearing? && s.mode[a].i < |s.swap|
  {
    var m := s.mode[a];
    s.(swap := s.swap[m.i := Wiped(s.swap[m.i], m.field)],
       mode := s.mode[a := match m.field
                           case Occupied => Clearing(m.i, Asid)
                           case Asid => Clearing(m.i, Vpn)
                           case Vpn => Dying(m.i + 1)])
  }

  /** What the phases of the pager and of the processes need to be well defined. */
  predicate Placed(s: S)
    requires Shaped(s)
  {
    AllFit(s) && PagerFits(s, s.pager)
  }

  predicate PagerFits(s: S, p: Pager) {
    match p
    case Unlocked => true
    case Scanning(a, page, i) => IsAsid(s, a) && IsPage(page)
    case Reading(a, page, f, va) => IsAsid(s, a) && IsPage(page) && IsFrame(s, f)
    case Picked(a, page, f, va, vp) => IsAsid(s, a) && IsPage(page) && IsFrame(s, f) && IsAsid(s, va) && IsPage(vp)
    case WritingBack(a, page, f, va, vp) => IsAsid(s, a) && IsPage(page) && IsFrame(s, f) && IsAsid(s, va) && IsPage(vp)
    case Loading(a, page, f) => IsAsid(s, a) && IsPage(page) && IsFrame(s, f)
    case Recording(a, page, f, field) => IsAsid(s, a) && IsPage(page) && IsFrame(s, f)
    case Recorded(a, page, f) => IsAsid(s, a) && IsPage(page) && IsFrame(s, f)
    case Installed(a, page, f) => IsAsid(s, a) && IsPage(page) && IsFrame(s, f)
    case Lost(a, page, f) => IsAsid(s, a) && IsPage(page) && IsFrame(s, f)
  }

  predicate AllFit(s: S)
    requires Shaped(s)
  {
    forall a :: 1 <= a <= s.uprocs ==> Fits(s, s.mode[a])
  }

  predicate Fits(s: S, m: Mode) {
    match m
    case Faulting(page) => IsPage(page)
    case Clearing(i, field) => i < |s.swap|
    case _ => true
  }

  ghost function Step(s: S, e: Event): S
    requires Shaped(s) && Placed(s) && Enabled(s, e)
  {
    var p := s.pager;
    match e
    case Read(a, page, off, v) => s
    case Write(a, page, off, v) =>
      var f := s.tlb[Key(a, page)].pfn - POOL_PFN;
      s.(ram := s.ram[f := s.ram[f][off := v]])
    case Refill(a, page) => s.(tlb := s.tlb[Key(a, page) := Entry(s, a, page)])
    case Replace(key) => s.(tlb := s.tlb - {key})
    case Fault(a, page) => s.(mode := s.mode[a := Faulting(page)])
    case Lock(a) => s.(pager := Scanning(a, s.mode[a].page, 0))
    case Scan => Scanned(s)
    case Pick => Chosen(s)
    case ReadVpn => VictimRead(s)
    case Evict => Evicted(s)
    case FinishWrite =>
      s.(flash := s.flash[p.va := s.flash[p.va][p.vp := s.ram[p.f]]], pager := Loading(p.a, p.page, p.f))
    case FinishLoad => s.(ram := s.ram[p.f := s.flash[p.a][p.page]], pager := Recording(p.a, p.page, p.f, Asid))
    case Record => StoredNext(s)
    case Install =>
      WithEntry(s, p.a, p.page, Pte(true, POOL_PFN + p.f)).(tlb := map[], pager := Installed(p.a, p.page, p.f))
    case Unlock => s.(pager := Unlocked, mode := s.mode[p.a := Running])
    case Die(a) => s.(mode := s.mode[a := Dying(0)])
    case Check(a) => Checked(s, a)
    case Clear(a) => ClearedNext(s, a)
    case Exit(a) => s.(mode := s.mode[a := Dead])
  }

  // ----- invariants -----

  /** Every TLB entry equals the page table entry for its asid and page. */
  ghost predicate Coherent(s: S)
    requires Shaped(s)
  {
    forall key :: key in s.tlb ==> CoherentAt(s, key)
  }

  ghost predicate CoherentAt(s: S, key: Key)
    requires Shaped(s) && key in s.tlb
  {
    IsAsid(s, key.asid) && IsPage(key.page) && s.tlb[key] == Entry(s, key.asid, key.page)
  }

  /** A valid entry of a live process names a pool frame that its slot records for it, and that no pager is filling. */
  ghost predicate OwnsAt(s: S, a: int, q: int)
    requires Shaped(s)
  {
    IsLive(s, a) && IsPage(q) && q != DATA_PAGE && Entry(s, a, q).valid ==>
      var f := Entry(s, a, q).pfn - POOL_PFN;
      IsFrame(s, f) && f != Busy(s) && s.swap[f] == Slot(true, a, VpnOf(q))
  }

  ghost predicate Owned(s: S)
    requires Shaped(s)
  {
    forall a, q :: OwnsAt(s, a, q)
  }

  /** A word of a slot is wiped, or names a process, or a page that can be paged. */
  predicate Worded(s: S, slot: Slot) {
    && (slot.asid == -1 || IsAsid(s, slot.asid))
    && (slot.vpn == -1 || (IsVpn(slot.vpn) && PageOf(slot.vpn) != DATA_PAGE))
  }

  /** Unless a pager is filling it, an occupied slot is whole, and one with a live owner is occupied and points back. */
  ghost predicate SlotAt(s: S, f: int)
    requires Shaped(s) && IsFrame(s, f)
  {
    var slot := s.swap[f];
    && Worded(s, slot)
    && (f != Busy(s) ==>
          && (slot.occupied ==> slot.asid != -1 && slot.vpn != -1)
          && (IsLive(s, slot.asid) ==>
                slot.occupied && slot.vpn != -1 && Entry(s, slot.asid, PageOf(slot.vpn)) == Pte(true, POOL_PFN + f)))
  }

  ghost predicate Slots(s: S)
    requires Shaped(s)
  {
    forall f :: IsFrame(s, f) ==> SlotAt(s, f)
  }

  /** The data page stays mapped; a fault is for a missing page; an ending process has left the slots it has passed. */
  ghost predicate ModeAt(s: S, a: int)
    requires Shaped(s) && Placed(s) && IsAsid(s, a)
  {
    Entry(s, a, DATA_PAGE).valid && ModeIs(s, a, s.mode[a])
  }

  ghost predicate ModeIs(s: S, a: int, m: Mode)
    requires Shaped(s) && IsAsid(s, a) && Fits(s, m)
  {
    match m
    case Running => true
    case Faulting(page) => (s.pager.Installed? && s.pager.a == a) || !Entry(s, a, page).valid
    case Dying(i) => Left(s, a, i)
    case Clearing(i, field) => Left(s, a, i) && (field.Vpn? ==> s.swap[i].asid != a)
    case Dead => Left(s, a, |s.swap|)
  }

  /** None of the first i slots is occupied by process a. */
  ghost predicate Left(s: S, a: int, i: nat) {
    forall j :: 0 <= j < i && j < |s.swap| && s.swap[j].occupied ==> s.swap[j].asid != a
  }

  ghost predicate Modes(s: S)
    requires Shaped(s) && Placed(s)
  {
    forall a :: IsAsid(s, a) ==> ModeAt(s, a)
  }

  /** What the lock holder knows. */
  ghost predicate HolderKnows(s: S)
    requires Shaped(s) && Placed(s)
  {
    && (!s.pager.Unlocked? ==> s.mode[s.pager.a] == Faulting(s.pager.page))
    && match s.pager
       case Reading(a, page, f, va) =>
         (va == -1 || IsAsid(s, va)) && (IsLive(s, va) || s.swap[f].asid != -1 ==> s.swap[f].asid == va)
       case Picked(a, page, f, va, vp) =>
         && vp != DATA_PAGE && (s.swap[f].asid != -1 ==> s.swap[f].asid == va)
         && (IsLive(s, va) ==> s.swap[f] == Slot(true, va, VpnOf(vp)))
       case WritingBack(a, page, f, va, vp) => vp != DATA_PAGE && (IsLive(s, va) ==> !Entry(s, va, vp).valid)
       case Recording(a, page, f, field) => s.ram[f] == s.flash[a][page] && Stands(s)
       case Recorded(a, page, f) => s.ram[f] == s.flash[a][page] && Stands(s)
       case _ => true
  }

  /** The words that the pager has stored are still there. */
  ghost predicate Stands(s: S)
    requires Shaped(s) && (s.pager.Recording? || s.pager.Recorded?) && IsFrame(s, s.pager.f)
  {
    var p := s.pager;
    && (HasStored(p, Asid) ==> s.swap[p.f].asid == p.a)
    && (HasStored(p, Vpn) ==> s.swap[p.f].vpn == VpnOf(p.page))
    && (HasStored(p, Occupied) ==> s.swap[p.f].occupied)
  }

  /** What every event keeps, whatever it does to the slots. */
  ghost predicate Typed(s: S) { Shaped(s) && Placed(s) }

  ghost predicate Inv(s: S) {
    Shaped(s) && Placed(s) && Coherent(s) && Owned(s) && Slots(s) && Modes(s) && HolderKnows(s)
  }

  // ----- stores that land in somebody else's slot -----

  /**
   * A process that is ending is about to wipe a word of a slot that is no longer its own: a pager has stored that word
   * for the next owner, or the slot belongs to a live process, or it has become occupied again.
   */
  predicate Tramples(s: S, a: int)
    requires Shaped(s) && Placed(s) && IsAsid(s, a) && s.mode[a].Clearing?
  {
    var i, field := s.mode[a].i, s.mode[a].field;
    if i == Busy(s) then HasStored(s.pager, field)
    else if field.Occupied? then IsLive(s, s.swap[i].asid)
    else s.swap[i].occupied
  }

  predicate Harms(s: S, e: Event)
    requires Shaped(s) && Placed(s) && Enabled(s, e)
  {
    e.Clear? && Tramples(s, e.a)
  }
}
