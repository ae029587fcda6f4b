/**
 * The pager against processes that are ending. supTerminate takes no lock, so a victim's slot can be wiped after
 * getFreeFrame has found it occupied and before the pager has loaded its two words. When that happens.
 */
module PagerRace {
  import opened PagerState
  import opened PagerRuns

  // ----- one pick -----

  /** The frame whose turn it is, while the pager scans, and the one it has picked, while it reads that slot. */
  function NextVictim(s: S): int { if s.pager.Reading? then s.pager.f else s.swapIndex }

  /** The event wipes a word of slot f that the pager has not loaded yet. */
  predicate Wipes(s: S, e: Event, f: int)
    requires Typed(s) && Enabled(s, e)
  {
    && e.Clear? && s.mode[e.a].i == f
    && (s.mode[e.a].field.Vpn? || (s.mode[e.a].field.Asid? && !s.pager.Reading?))
  }

  /** No event of the run wipes slot f. */
  ghost predicate NoneWipes(s: S, es: seq<Event>, f: int)
    requires Typed(s) && Runs(s, es)
    decreases |es|
  {
    es == [] || (!Wipes(s, es[0], f) && (StepTyped(s, es[0]); NoneWipes(Step(s, es[0]), es[1..], f)))
  }

  ghost predicate NoLock(es: seq<Event>) {
    forall i :: 0 <= i < |es| ==> !es[i].Lock?
  }

  /** What the pager has loaded from slot f, or would load now, names a process and a page. */
  predicate Names(s: S, f: int)
    requires Typed(s) && IsFrame(s, f)
  {
    IsAsid(s, if s.pager.Reading? then s.pager.va else s.swap[f].asid) && IsPage(PageOf(s.swap[f].vpn))
  }

  predicate Watches(s: S) { s.pager.Scanning? || s.pager.Reading? }

  /** While the pager scans and reads, only a wipe changes what it gets from the victim's slot. */
  lemma WatchStep(s: S, e: Event)
    requires Typed(s) && Enabled(s, e) && Watches(s) && Watches(Step(s, e)) && !e.Lock? && IsFrame(s, NextVictim(s))
    ensures Typed(Step(s, e)) && |Step(s, e).swap| == |s.swap| && NextVictim(Step(s, e)) == NextVictim(s)
    ensures Names(Step(s, e), NextVictim(s)) <==> Names(s, NextVictim(s)) && !Wipes(s, e, NextVictim(s))
  {
    StepTyped(s, e);
    hide AllFit;
  }

  lemma {:induction false} NeverAgain(s: S, es: seq<Event>)
    requires Typed(s) && Runs(s, es) && !Watches(s) && NoLock(es)
    ensures !Watches(Run(s, es))
    decreases |es|
  {
    if es != [] {
      StepTyped(s, es[0]);
      assert !Watches(Step(s, es[0]));
      hide Shaped, Placed, Step, Watches;
      NeverAgain(Step(s, es[0]), es[1..]);
    }
  }

  lemma {:induction false} NamesDuring(s: S, es: seq<Event>)
    requires Typed(s) && Runs(s, es) && Watches(s) && NoLock(es) && Watches(Run(s, es)) && IsFrame(s, NextVictim(s))
    requires Names(s, NextVictim(s))
    ensures NextVictim(Run(s, es)) == NextVictim(s)
    ensures Names(Run(s, es), NextVictim(s)) <==> NoneWipes(s, es, NextVictim(s))
    decreases |es|
  {
    if es != [] {
      StepTyped(s, es[0]);
      var s1 := Step(s, es[0]);
      if !Watches(s1) {
        NeverAgain(s1, es[1..]);
      } else {
        WatchStep(s, es[0]);
        hide Shaped, Placed, Step, Watches, NextVictim, Enabled;
        if Names(s1, NextVictim(s)) {
          NamesDuring(s1, es[1..]);
        } else {
          StaysWiped(s1, es[1..]);
        }
      }
    }
  }

  lemma {:induction false} StaysWiped(s: S, es: seq<Event>)
    requires Typed(s) && Runs(s, es) && Watches(s) && NoLock(es) && Watches(Run(s, es)) && IsFrame(s, NextVictim(s))
    requires !Names(s, NextVictim(s))
    ensures NextVictim(Run(s, es)) == NextVictim(s) && !Names(Run(s, es), NextVictim(s))
    decreases |es|
  {
    if es != [] {
      StepTyped(s, es[0]);
      var s1 := Step(s, es[0]);
      if !Watches(s1) {
        NeverAgain(s1, es[1..]);
      } else {
        WatchStep(s, es[0]);
        hide Shaped, Placed, Step, Watches, NextVictim, Enabled, Names;
        StaysWiped(s1, es[1..]);
      }
    }
  }

  /**
   * The scan has just found the slot of the next victim occupied. When the pager comes to load the second word of that
   * slot, it is lost exactly if since then a process has wiped the slot's vpn, or its asid before that was loaded.
   */
  lemma PickExact(s: S, es: seq<Event>)
    requires Inv(s) && s.pager.Scanning? && s.pager.i == s.swapIndex + 1 && s.swap[s.swapIndex].occupied
    requires Runs(s, es) && NoLock(es) && Run(s, es).pager.Reading?
    ensures Step(Run(s, es), ReadVpn).pager.Lost? <==> !NoneWipes(s, es, s.swapIndex)
  {
    WholeNames(s, s.swapIndex);
    hide Inv, NoneWipes, Run, Runs;
    NamesDuring(s, es);
  }

  lemma WholeNames(s: S, f: int)
    requires Inv(s) && s.pager.Scanning? && IsFrame(s, f) && s.swap[f].occupied
    ensures Names(s, f)
  {
    assert SlotAt(s, f);
    PageVpn(0, s.swap[f].vpn);
  }

  // ----- whole runs -----

  /** The scan passes the slot of the next victim. */
  predicate PassesVictim(s: S, e: Event) { e.Scan? && s.pager.Scanning? && s.pager.i == s.swapIndex }

  /** What wiped becomes with one more event. */
  predicate WipedAfter(s: S, e: Event, wiped: bool)
    requires Typed(s) && Enabled(s, e)
  {
    !PassesVictim(s, e) && (wiped || Wipes(s, e, NextVictim(s)))
  }

  /**
   * The run loads the second word of a victim's slot that a process has wiped since the scan passed it; wiped says that
   * this has already been done to the next victim's slot.
   */
  ghost predicate WipedBehind(s: S, es: seq<Event>, wiped: bool)
    requires Typed(s) && Runs(s, es)
    decreases |es|
  {
    es != [] &&
    ((es[0].ReadVpn? && wiped)
     || (StepTyped(s, es[0]); WipedBehind(Step(s, es[0]), es[1..], WipedAfter(s, es[0], wiped))))
  }

  /** The scan has passed the next victim's slot. */
  predicate HasPassed(s: S) { (s.pager.Scanning? && s.pager.i > s.swapIndex) || s.pager.Reading? }

  ghost predicate Tracks(s: S, wiped: bool)
    requires Inv(s)
  {
    HasPassed(s) ==> (wiped <==> !Names(s, NextVictim(s)))
  }

  lemma TracksStep(s: S, e: Event, wiped: bool)
    requires Inv(s) && Enabled(s, e) && Inv(Step(s, e)) && Tracks(s, wiped)
    ensures Tracks(Step(s, e), WipedAfter(s, e, wiped))
  {
    var s1 := Step(s, e);
    if HasPassed(s1) {
      if PassesVictim(s, e) {
        WholeNames(s1, s.swapIndex);
      } else {
        hide Coherent, Owned, Slots, Modes, HolderKnows, AllFit;
        WatchStep(s, e);
      }
    }
  }

  lemma {:induction false} LostTracks(s: S, es: seq<Event>, wiped: bool)
    requires Inv(s) && Runs(s, es) && Harmless(s, es) && !s.pager.Lost? && Tracks(s, wiped)
    ensures Run(s, es).pager.Lost? <==> WipedBehind(s, es, wiped)
    decreases |es|
  {
    if es != [] {
      var s1 := Step(s, es[0]);
      StepInv(s, es[0]);
      StepTyped(s, es[0]);
      TracksStep(s, es[0], wiped);
      LostWhenWiped(s, es[0]);
      hide Shaped, Placed, Coherent, Owned, Slots, Modes, HolderKnows, Step, Harms, Names, NextVictim, WipedAfter;
      if s1.pager.Lost? {
        LostStays(s1, es[1..]);
      } else {
        LostTracks(s1, es[1..], WipedAfter(s, es[0], wiped));
      }
    }
  }

  lemma LostWhenWiped(s: S, e: Event)
    requires Inv(s) && Enabled(s, e)
    ensures IsFrame(s, NextVictim(s))
    ensures Step(s, e).pager.Lost? <==> e.ReadVpn? && !Names(s, NextVictim(s))
  {
    hide Coherent, Owned, Slots, Modes, HolderKnows, AllFit;
  }

  /**
   * A harmless run from boot ends in undefined behaviour exactly if it reads a victim's slot that an ending process has
   * wiped since the scan passed it.
   */
  lemma LostByWipe(s: S, es: seq<Event>)
    requires FromBoot(s, es) && Harmless(s, es)
    ensures Run(s, es).pager.Lost? <==> WipedBehind(s, es, false)
  {
    hide Inv, Step;
    LostTracks(s, es, false);
  }

  /** No process wipes anything between the moment somebody else starts to scan and the end of its pick. */
  ghost predicate QuietScans(s: S, es: seq<Event>)
    requires Typed(s) && Runs(s, es)
    decreases |es|
  {
    es == [] || ((es[0].Clear? ==> !Watches(s)) && (StepTyped(s, es[0]); QuietScans(Step(s, es[0]), es[1..])))
  }

  lemma {:induction false} QuietNotWiped(s: S, es: seq<Event>, wiped: bool)
    requires Inv(s) && Runs(s, es) && Harmless(s, es) && QuietScans(s, es) && (HasPassed(s) ==> !wiped)
    ensures !WipedBehind(s, es, wiped)
    decreases |es|
  {
    if es != [] {
      StepInv(s, es[0]);
      StepTyped(s, es[0]);
      assert HasPassed(Step(s, es[0])) ==> !WipedAfter(s, es[0], wiped);
      hide Shaped, Placed, Coherent, Owned, Slots, Modes, HolderKnows, Step, Harms, WipedAfter;
      QuietNotWiped(Step(s, es[0]), es[1..], WipedAfter(s, es[0], wiped));
    }
  }

  /** So no harmless run is lost in which ending processes give way to the scans of others. */
  lemma QuietNeverLost(s: S, es: seq<Event>)
    requires FromBoot(s, es) && Harmless(s, es) && QuietScans(s, es)
    ensures !Run(s, es).pager.Lost?
  {
    LostByWipe(s, es);
    hide Inv, Step;
    QuietNotWiped(s, es, false);
  }

  // ----- with the lock -----

  predicate IsClearing(s: S, a: int)
    requires Typed(s)
  {
    IsAsid(s, a) && s.mode[a].Clearing?
  }

  /** supTerminate's tests and stores happen while the lock is free; nobody takes it between a test and its stores. */
  predicate OutsideLock(s: S, e: Event)
    requires Typed(s) && Enabled(s, e)
  {
    && (e.Check? || e.Clear? ==> s.pager.Unlocked?)
    && (e.Lock? ==> forall a :: 1 <= a <= s.uprocs ==> !IsClearing(s, a))
  }

  ghost predicate Locked(s: S, es: seq<Event>)
    requires Typed(s) && Runs(s, es)
    decreases |es|
  {
    es == [] || (OutsideLock(s, es[0]) && (StepTyped(s, es[0]); Locked(Step(s, es[0]), es[1..])))
  }

  /** A process that is wiping a slot wipes its own. */
  ghost predicate WipesOwn(s: S)
    requires Typed(s)
  {
    forall a :: IsClearing(s, a) ==> WipesOwnAt(s, a)
  }

  ghost predicate WipesOwnAt(s: S, a: int)
    requires Typed(s) && IsClearing(s, a)
  {
    var slot := s.swap[s.mode[a].i];
    s.pager.Unlocked? && if s.mode[a].field.Occupied? then slot.occupied && slot.asid == a else !slot.occupied
  }

  lemma StepOwn(s: S, e: Event)
    requires Typed(s) && Enabled(s, e) && WipesOwn(s) && OutsideLock(s, e)
    ensures !Harms(s, e) && Typed(Step(s, e)) && WipesOwn(Step(s, e))
  {
    StepTyped(s, e);
    assert e.Clear? ==> IsClearing(s, e.a) && WipesOwnAt(s, e.a);
    forall a | IsClearing(Step(s, e), a) ensures WipesOwnAt(Step(s, e), a) {
      assert IsClearing(s, a) ==> WipesOwnAt(s, a);
    }
  }

  lemma {:induction false} LockedQuiet(s: S, es: seq<Event>)
    requires Typed(s) && WipesOwn(s) && Runs(s, es) && Locked(s, es)
    ensures Harmless(s, es) && QuietScans(s, es)
    decreases |es|
  {
    if es != [] {
      StepOwn(s, es[0]);
      hide Shaped, Placed, Enabled, Step, Harms, WipesOwn;
      LockedQuiet(Step(s, es[0]), es[1..]);
    }
  }

  /** If supTerminate held the swap pool lock for its loop, paging would be transparent in every run from boot. */
  lemma LockedTransparent(s: S, es: seq<Event>)
    requires FromBoot(s, es) && Locked(s, es)
    ensures Plainly(OnFlash(s), es) && !Run(s, es).pager.Lost?
  {
    hide Step, Coherent, Owned, Slots, Modes, HolderKnows;
    LockedQuiet(s, es);
    PlainUntilLost(s, es);
    QuietNeverLost(s, es);
  }
}
