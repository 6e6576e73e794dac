/** Every step of a pre-order frame keeps the ledger. */
module EnginePreSteps {
  import opened Basics
  import opened Places
  import opened Barriers
  import opened Ledger
  import opened Engine
  import opened EngineFrames
  import opened EngineSteps
  import C = Chunking

  lemma PreLoopTurns(bk: Book, fl: Flags, ps: seq<Place>, x: Item)
    requires ps != []
    ensures Turns(bk, PreLoop(ps), Becomes(bk, fl, [PreVisiting(ps[0], ps[1..])]), multiset{}, multiset{}, x)
  {
    hide FrameItems, FreshAll, FreshUnits, FramesItems, BookItems, EachOwes;
    var f, g := PreLoop(ps), PreVisiting(ps[0], ps[1..]);
    One(g, x);
    LoopAt(ps, x);
    FrameAt(g, x);
    NoUnits(x);
    NothingOwed(x);
    FreshFirst(ps, x);
    OnlyFrames(bk, bk, fl, f, [g], multiset{}, multiset{}, x);
  }

  /** f goes on as g and the ledger does not move. */
  lemma GoesOn(w: World, bk: Book, fl: Flags, stopped: bool, r: multiset<Item>, f: Frame, e: Effect)
    requires StepPre(w, bk, fl, f, stopped, r) && Fits(w, fl, e) && e.book == bk
    requires forall x: Item :: Turns(bk, f, e, multiset{}, multiset{}, x)
    ensures StepOk(w, bk, fl, stopped, e, r)
  {
    hide Inv, FrameItems, BookItems, StepPre, StepOk, EffectItems, Turns, Fits;
    Given(w, bk, fl, f, stopped, r);
    Unturned(w, bk, f, e, r);
    Concludes(w, bk, fl, stopped, e, r);
  }

  lemma PreLoopOk(w: World, bk: Book, fl: Flags, stopped: bool, r: multiset<Item>, ps: seq<Place>, c: Choice, e: Effect)
    requires StepPre(w, bk, fl, PreLoop(ps), stopped, r)
    requires StepPreLoop(bk, fl, ps, c) == Some(e)
    ensures StepOk(w, bk, fl, stopped, e, r)
  {
    hide Inv, FrameItems, BookItems, StepPre, StepOk, EffectItems, Turns, Fits;
    var f := PreLoop(ps);
    Given(w, bk, fl, f, stopped, r);
    if ps == [] {
      Vanishes(w, bk, fl, f, stopped, r);
    } else if fl.quit || fl.fatal {
      GivesUp(w, bk, fl, f, stopped, false, r);
    } else {
      FitsOne(w, fl, bk, PreVisiting(ps[0], ps[1..]));
      forall x: Item ensures Turns(bk, f, e, multiset{}, multiset{}, x) { PreLoopTurns(bk, fl, ps, x); }
      GoesOn(w, bk, fl, stopped, r, f, e);
    }
  }

  /** The entry is settled and what is left is to list it. */
  lemma Settles(w: World, bk: Book, fl: Flags, stopped: bool, r: multiset<Item>, f: Frame, g: Frame, x: Item, ev: Event)
    requires StepPre(w, bk, fl, f, stopped, r) && w.order.PreOrder? && FrameOk(w, g) && QuitOk(fl, g)
    requires FrameClaim(f).own == [x] && FrameClaim(g) == FrameClaim(f).(own := [Expand(ev.at, 0)])
    requires (ev.Ended? && x == Active(ev.at)) || (ev.Skipped? && x == Fresh(ev.at) && Depth(ev.at) < w.minDepth)
    ensures StepOk(w, bk, fl, stopped, Becomes(Log(bk, ev), fl, [g]), r)
  {
    hide Inv, FrameItems, BookItems, StepPre, StepOk, EffectItems, Turns, Fits, Traded, FrameClaim, FrameOk;
    var e := Becomes(Log(bk, ev), fl, [g]);
    Given(w, bk, fl, f, stopped, r);
    BookIgnoresLog(bk, ev);
    FitsOne(w, fl, Log(bk, ev), g);
    Swaps(w, bk, Log(bk, ev), fl, f, g, stopped, r, x, [Expand(ev.at, 0)]);
    assert multiset([Expand(ev.at, 0)]) == After(w, ev.at);
    SettleStep(w, bk, r + BookItems(bk) + FrameItems(f), r + EffectItems(e), x, ev);
    Concludes(w, bk, fl, stopped, e, r);
  }

  lemma PreReports(w: World, bk: Book, fl: Flags, stopped: bool, r: multiset<Item>, p: Place, ps: seq<Place>)
    requires StepPre(w, bk, fl, PreVisiting(p, ps), stopped, r) && w.visit(p).Unreadable?
    ensures StepOk(w, bk, fl, stopped, Becomes(Log(bk, Reported(p)), fl, [PreLoop(ps)]), r)
  {
    hide Inv, FrameItems, BookItems, StepPre, StepOk, EffectItems, Turns, Fits, Traded;
    var f, g := PreVisiting(p, ps), PreLoop(ps);
    var e := Becomes(Log(bk, Reported(p)), fl, [g]);
    Given(w, bk, fl, f, stopped, r);
    BookIgnoresLog(bk, Reported(p));
    FitsOne(w, fl, Log(bk, Reported(p)), g);
    var gone: seq<Item> := [];
    assert multiset(gone) == multiset{};
    Swaps(w, bk, Log(bk, Reported(p)), fl, f, g, stopped, r, Fresh(p), gone);
    ReportStep(w, bk, r + BookItems(bk) + FrameItems(f), r + EffectItems(e), p);
    Concludes(w, bk, fl, stopped, e, r);
  }

  lemma PreVisitingOk(w: World, bk: Book, fl: Flags, stopped: bool, r: multiset<Item>, p: Place, ps: seq<Place>, c: Choice, e: Effect)
    requires StepPre(w, bk, fl, PreVisiting(p, ps), stopped, r)
    requires StepPreVisiting(w, bk, fl, p, ps, c) == Some(e)
    ensures StepOk(w, bk, fl, stopped, e, r)
  {
    hide Inv, FrameItems, BookItems, StepPre, StepOk, EffectItems, Turns, Fits;
    var f := PreVisiting(p, ps);
    Given(w, bk, fl, f, stopped, r);
    if c == Fail { GivesUp(w, bk, fl, f, stopped, true, r); }
    else if w.visit(p).Unreadable? { PreReports(w, bk, fl, stopped, r, p, ps); }
    else if Depth(p) >= w.minDepth { BeginsEvaluating(w, bk, fl, f, PreEvaluating(p, ps), stopped, r, p); }
    else { Settles(w, bk, fl, stopped, r, f, PreDescending(p, ps), Fresh(p), Skipped(p)); }
  }

  lemma PreEvaluatingOk(w: World, bk: Book, fl: Flags, stopped: bool, r: multiset<Item>, p: Place, ps: seq<Place>, c: Choice, e: Effect)
    requires StepPre(w, bk, fl, PreEvaluating(p, ps), stopped, r)
    requires StepPreEvaluating(bk, fl, p, ps, c) == Some(e)
    ensures StepOk(w, bk, fl, stopped, e, r)
  {
    hide Inv, FrameItems, BookItems, StepPre, StepOk, EffectItems, Turns, Fits;
    var f := PreEvaluating(p, ps);
    Given(w, bk, fl, f, stopped, r);
    match c
    case Fail => GivesUp(w, bk, fl, f, stopped, true, r);
    case Quit => SameClaim(w, bk, fl, fl.(quit := true), f, PreQuitting(p, ps), stopped, r);
    case _ => Settles(w, bk, fl, stopped, r, f, PreDescending(p, ps), Active(p), Ended(p));
  }

  lemma PreQuittingTurns(bk: Book, fl: Flags, p: Place, ps: seq<Place>, x: Item)
    ensures Turns(bk, PreQuitting(p, ps), StepPreQuitting(bk, fl, p, ps), multiset{Active(p)}, multiset{Expand(p, 0)}, x)
  {
    hide ClaimItems, BookItems, FreshAll;
    BookIgnoresLog(bk, Ended(p));
    EffectAt(StepPreQuitting(bk, fl, p, ps), x);
    FrameAt(PreQuitting(p, ps), x);
  }

  lemma PreQuittingFits(w: World, bk: Book, fl: Flags, p: Place, ps: seq<Place>, stopped: bool, r: multiset<Item>)
    requires StepPre(w, bk, fl, PreQuitting(p, ps), stopped, r)
    ensures Fits(w, fl, StepPreQuitting(bk, fl, p, ps))
  {
    hide Inv, FrameItems, BookItems;
  }

  lemma PreQuittingOk(w: World, bk: Book, fl: Flags, stopped: bool, r: multiset<Item>, p: Place, ps: seq<Place>)
    requires StepPre(w, bk, fl, PreQuitting(p, ps), stopped, r)
    ensures StepOk(w, bk, fl, stopped, StepPreQuitting(bk, fl, p, ps), r)
  {
    hide Inv, FrameItems, FrameClaim, FreshAll, BookItems, StepPre, StepOk, EffectItems, Turns, Fits, Traded;
    var f, e := PreQuitting(p, ps), StepPreQuitting(bk, fl, p, ps);
    Given(w, bk, fl, f, stopped, r);
    PreQuittingFits(w, bk, fl, p, ps, stopped, r);
    forall x: Item ensures Turns(bk, f, e, multiset{Active(p)}, multiset{Expand(p, 0)}, x) { PreQuittingTurns(bk, fl, p, ps, x); }
    Turned(bk, f, e, multiset{Active(p)}, multiset{Expand(p, 0)}, r);
    QuittingHolds(p, ps);
    hide StepPreQuitting;
    SettleStep(w, bk, r + BookItems(bk) + FrameItems(f), r + EffectItems(e), Active(p), Ended(p));
    Concludes(w, bk, fl, stopped, e, r);
  }

  lemma QuittingHolds(p: Place, ps: seq<Place>)
    ensures FrameItems(PreQuitting(p, ps))[Active(p)] > 0
  {
    hide FrameItems, FreshAll, FreshUnits, EachOwes;
    FrameAt(PreQuitting(p, ps), Active(p));
    assert FrameClaim(PreQuitting(p, ps)).own == [Active(p)];
  }

  lemma PreStays(w: World, bk: Book, fl: Flags, stopped: bool, r: multiset<Item>, p: Place, ps: seq<Place>)
    requires StepPre(w, bk, fl, PreDescending(p, ps), stopped, r) && Kids(w, p) == 0 && !BreaksOff(w, p)
    ensures StepOk(w, bk, fl, stopped, Becomes(bk, fl, [PreLoop(ps)]), r)
  {
    hide Inv, FrameItems, BookItems, StepPre, StepOk, EffectItems, Turns, Fits, Traded;
    var f, g := PreDescending(p, ps), PreLoop(ps);
    var e := Becomes(bk, fl, [g]);
    Given(w, bk, fl, f, stopped, r);
    FitsOne(w, fl, bk, g);
    var gone: seq<Item> := [];
    assert multiset(gone) == multiset{};
    Swaps(w, bk, bk, fl, f, g, stopped, r, Expand(p, 0), gone);
    ListedStep(w, bk, r + BookItems(bk) + FrameItems(f), r + EffectItems(e), p, 0);
    Concludes(w, bk, fl, stopped, e, r);
  }

  lemma PreDescendingOk(w: World, bk: Book, fl: Flags, stopped: bool, r: multiset<Item>, p: Place, ps: seq<Place>, c: Choice, e: Effect)
    requires StepPre(w, bk, fl, PreDescending(p, ps), stopped, r)
    requires StepPreDescending(w, bk, fl, p, ps, c) == Some(e)
    ensures StepOk(w, bk, fl, stopped, e, r)
  {
    hide Inv, FrameItems, BookItems, StepPre, StepOk, EffectItems, Turns, Fits;
    var f := PreDescending(p, ps);
    Given(w, bk, fl, f, stopped, r);
    if c == Fail { GivesUp(w, bk, fl, f, stopped, true, r); }
    else if w.visit(p).expansion.Lists? {
      assert [] + [] + ps == ps;
      SameClaim(w, bk, fl, fl, f, PreListing(p, 0, C.Chunks([], [], []), ps), stopped, r);
    } else {
      PreStays(w, bk, fl, stopped, r, p, ps);
    }
  }

  // ----- Listing a directory in pre-order -----

  /** What a listing holds: the rest of the directory, the children found and
      those still to be visited. */
  lemma HeldAt(f: Frame, p: Place, k: nat, acc: Acc, ps: seq<Place>, x: Item)
    requires f == PreListing(p, k, acc, ps) || f == PreOffering(p, k, acc, ps)
    ensures FrameItems(f)[x]
      == multiset{Expand(p, k)}[x] + (FreshAll(acc.local + acc.buffer)[x] + FreshUnits(acc.spilled)[x]) + FreshAll(ps)[x]
  {
    hide FrameItems, FrameClaim, FreshAll, FreshUnits, EachOwes;
    ListingClaim(f, p, k, acc, ps);
    FrameAt(f, x);
    FreshConcat(acc.local + acc.buffer, ps, x);
    NothingOwed(x);
    assert multiset([Expand(p, k)]) == multiset{Expand(p, k)};
  }

  lemma ListingClaim(f: Frame, p: Place, k: nat, acc: Acc, ps: seq<Place>)
    requires f == PreListing(p, k, acc, ps) || f == PreOffering(p, k, acc, ps)
    ensures FrameClaim(f) == Claim([Expand(p, k)], acc.local + acc.buffer + ps, acc.spilled, None, [])
  {
  }

  lemma PreFindsTurns(bk: Book, fl: Flags, p: Place, k: nat, acc: Acc, ps: seq<Place>, maySplit: bool, threshold: nat, size: nat, x: Item)
    ensures Turns(bk, PreListing(p, k, acc, ps),
                  Becomes(HandOut(bk, p, k + 1), fl, [PreOffering(p, k + 1, C.Push(acc, p + [k], maySplit, threshold, size), ps)]),
                  multiset{Expand(p, k)}, multiset{Expand(p, k + 1)} + multiset{Fresh(p + [k])}, x)
  {
    hide FrameItems, BookItems, FramesItems, FreshAll, FreshUnits, C.Push;
    var a := C.Push(acc, p + [k], maySplit, threshold, size);
    var f, g := PreListing(p, k, acc, ps), PreOffering(p, k + 1, a, ps);
    One(g, x);
    HeldAt(f, p, k, acc, ps, x);
    HeldAt(g, p, k + 1, a, ps, x);
    PushedAcc(acc, p + [k], maySplit, threshold, size, x);
    HandOutIsFree(bk, p, k + 1);
    OnlyFrames(bk, HandOut(bk, p, k + 1), fl, f, [g], multiset{Expand(p, k)}, multiset{Expand(p, k + 1)} + multiset{Fresh(p + [k])}, x);
  }

  lemma HandOutIsFree(bk: Book, p: Place, n: nat)
    ensures BookItems(HandOut(bk, p, n)) == BookItems(bk)
  {
  }

  lemma PreFinds(w: World, bk: Book, fl: Flags, stopped: bool, r: multiset<Item>,
                 p: Place, k: nat, acc: Acc, ps: seq<Place>, maySplit: bool, threshold: nat, size: nat)
    requires StepPre(w, bk, fl, PreListing(p, k, acc, ps), stopped, r) && k < w.visit(p).expansion.children
    ensures StepOk(w, bk, fl, stopped,
      Becomes(HandOut(bk, p, k + 1), fl, [PreOffering(p, k + 1, C.Push(acc, p + [k], maySplit, threshold, size), ps)]), r)
  {
    hide Inv, FrameItems, BookItems, StepPre, StepOk, EffectItems, Turns, Fits, Traded, C.Push, OneMoreChild;
    var a := C.Push(acc, p + [k], maySplit, threshold, size);
    var f, g := PreListing(p, k, acc, ps), PreOffering(p, k + 1, a, ps);
    var e := Becomes(HandOut(bk, p, k + 1), fl, [g]);
    Given(w, bk, fl, f, stopped, r);
    ChunksStayOk(acc, p + [k], maySplit, threshold, size);
    FitsOne(w, fl, HandOut(bk, p, k + 1), g);
    hide FrameOk, HandOut;
    PreFindsTrade(bk, fl, r, p, k, acc, ps, maySplit, threshold, size);
    HandOutStep(w, bk, r + BookItems(bk) + FrameItems(f), r + EffectItems(e), p, k);
    Concludes(w, bk, fl, stopped, e, r);
  }

  lemma PreFindsTrade(bk: Book, fl: Flags, r: multiset<Item>, p: Place, k: nat, acc: Acc, ps: seq<Place>,
                      maySplit: bool, threshold: nat, size: nat)
    requires JobFree(BookItems(bk))
    ensures var f, g := PreListing(p, k, acc, ps), PreOffering(p, k + 1, C.Push(acc, p + [k], maySplit, threshold, size), ps);
      var t, e := r + BookItems(bk) + FrameItems(f), Becomes(HandOut(bk, p, k + 1), fl, [g]);
      t[Expand(p, k)] > 0 && OneMoreChild(t, r + EffectItems(e), p, k) && JobFree(EffectItems(e))
  {
    hide FrameItems, BookItems, EffectItems, Turns, Traded, C.Push, OneMoreChild, HandOut;
    var f, g := PreListing(p, k, acc, ps), PreOffering(p, k + 1, C.Push(acc, p + [k], maySplit, threshold, size), ps);
    var t, e := r + BookItems(bk) + FrameItems(f), Becomes(HandOut(bk, p, k + 1), fl, [g]);
    var out, back := multiset{Expand(p, k)}, multiset{Expand(p, k + 1)} + multiset{Fresh(p + [k])};
    forall x: Item ensures Turns(bk, f, e, out, back, x) { PreFindsTurns(bk, fl, p, k, acc, ps, maySplit, threshold, size, x); }
    Turned(bk, f, e, out, back, r);
    HeldAt(f, p, k, acc, ps, Expand(p, k));
    assert back == multiset{Expand(p, k + 1), Fresh(p + [k])};
    HandOutCounts(t, r + EffectItems(e), p, k);
  }

  /** Nothing is lost or doubled when the accumulator is emptied. */
  lemma {:induction false} FlattenAt(us: seq<Unit>, x: Item)
    ensures FreshAll(C.Flatten(us))[x] == FreshUnits(us)[x]
  {
    hide FreshAll;
    if us == [] {
      FreshAllCounts([], x);
    } else {
      var n := |us| - 1;
      FlattenAt(us[..n], x);
      FreshConcat(C.Flatten(us[..n]), us[n], x);
    }
  }

  lemma PlanAt(acc: Acc, quit: bool, x: Item)
    ensures var plan := C.Finish(if quit then C.ObserveQuit(acc) else acc);
      FreshAll(plan.local)[x] + FreshUnits(plan.spilled)[x] == FreshAll(acc.local + acc.buffer)[x] + FreshUnits(acc.spilled)[x]
  {
    hide FreshAll, FreshUnits, C.Flatten;
    FreshConcat(acc.local, acc.buffer, x);
    FreshAllCounts([], x);
    NoUnits(x);
    FlattenAt(acc.spilled, x);
    FreshConcat(acc.local, C.Flatten(acc.spilled), x);
    FreshConcat(acc.local + C.Flatten(acc.spilled), acc.buffer, x);
    FreshUnitsLast(acc.spilled, acc.buffer, x);
  }

  lemma LoopAt(ps: seq<Place>, x: Item)
    ensures FrameItems(PreLoop(ps))[x] == FreshAll(ps)[x]
  {
    hide FrameItems, FreshAll, FreshUnits, EachOwes;
    FrameAt(PreLoop(ps), x);
    NoUnits(x);
    NothingOwed(x);
  }

  lemma PublishedAt(chunks: seq<Unit>, x: Item)
    ensures FrameItems(Publishing(chunks, None))[x] == FreshUnits(chunks)[x]
  {
    hide FrameItems, FreshAll, FreshUnits, EachOwes;
    FrameAt(Publishing(chunks, None), x);
    FreshAllCounts([], x);
    NothingOwed(x);
  }

  lemma PreListedTurns(bk: Book, fl: Flags, p: Place, k: nat, acc: Acc, ps: seq<Place>, plan: C.Plan<Place>, x: Item)
    requires FreshAll(plan.local)[x] + FreshUnits(plan.spilled)[x] == FreshAll(acc.local + acc.buffer)[x] + FreshUnits(acc.spilled)[x]
    ensures Turns(bk, PreListing(p, k, acc, ps), Becomes(bk, fl, [Publishing(plan.spilled, None), PreLoop(plan.local + ps)]),
                  multiset{Expand(p, k)}, multiset{}, x)
  {
    hide FrameItems, BookItems, FramesItems, FreshAll, FreshUnits;
    var f, g, h := PreListing(p, k, acc, ps), Publishing(plan.spilled, None), PreLoop(plan.local + ps);
    Two(g, h, x);
    HeldAt(f, p, k, acc, ps, x);
    PublishedAt(plan.spilled, x);
    LoopAt(plan.local + ps, x);
    FreshConcat(plan.local, ps, x);
    OnlyFrames(bk, bk, fl, f, [g, h], multiset{Expand(p, k)}, multiset{}, x);
  }

  lemma FitsTwo(w: World, fl: Flags, bk: Book, g: Frame, h: Frame)
    requires FrameOk(w, g) && QuitOk(fl, g) && FrameOk(w, h) && QuitOk(fl, h) && (!fl.accepting ==> fl.quit || fl.fatal)
    ensures Fits(w, fl, Becomes(bk, fl, [g, h]))
  {
    hide FrameOk;
  }

  lemma PreListed(w: World, bk: Book, fl: Flags, stopped: bool, r: multiset<Item>, p: Place, k: nat, acc: Acc, ps: seq<Place>)
    requires StepPre(w, bk, fl, PreListing(p, k, acc, ps), stopped, r) && w.visit(p) == Readable(Lists(k, true))
    ensures var plan := C.Finish(if fl.quit then C.ObserveQuit(acc) else acc);
      StepOk(w, bk, fl, stopped, Becomes(bk, fl, [Publishing(plan.spilled, None), PreLoop(plan.local + ps)]), r)
  {
    hide Inv, FrameItems, BookItems, StepPre, StepOk, EffectItems, Turns, Fits, Traded;
    var plan := C.Finish(if fl.quit then C.ObserveQuit(acc) else acc);
    var f, g, h := PreListing(p, k, acc, ps), Publishing(plan.spilled, None), PreLoop(plan.local + ps);
    var e := Becomes(bk, fl, [g, h]);
    Given(w, bk, fl, f, stopped, r);
    FitsTwo(w, fl, bk, g, h);
    hide FrameOk, C.Finish, C.ObserveQuit;
    forall x: Item ensures Turns(bk, f, e, multiset{Expand(p, k)}, multiset{}, x) {
      PlanAt(acc, fl.quit, x);
      PreListedTurns(bk, fl, p, k, acc, ps, plan, x);
    }
    Turned(bk, f, e, multiset{Expand(p, k)}, multiset{}, r);
    HeldAt(f, p, k, acc, ps, Expand(p, k));
    ListedStep(w, bk, r + BookItems(bk) + FrameItems(f), r + EffectItems(e), p, k);
    Concludes(w, bk, fl, stopped, e, r);
  }

  lemma PreListingOk(w: World, bk: Book, fl: Flags, stopped: bool, r: multiset<Item>,
                     p: Place, k: nat, acc: Acc, ps: seq<Place>, c: Choice, e: Effect)
    requires StepPre(w, bk, fl, PreListing(p, k, acc, ps), stopped, r)
    requires StepPreListing(w, bk, fl, p, k, acc, ps, c) == Some(e)
    ensures StepOk(w, bk, fl, stopped, e, r)
  {
    hide Inv, FrameItems, BookItems, StepPre, StepOk, EffectItems, C.Push, C.Finish, C.ObserveQuit;
    var f := PreListing(p, k, acc, ps);
    Given(w, bk, fl, f, stopped, r);
    if k < w.visit(p).expansion.children {
      PreFinds(w, bk, fl, stopped, r, p, k, acc, ps, fl.accepting, C.SPLIT_CHILD_THRESHOLD, C.SPILL_CHUNK_SIZE);
    } else if c == Fail || !w.visit(p).expansion.complete {
      GivesUp(w, bk, fl, f, stopped, true, r);
    } else {
      PreListed(w, bk, fl, stopped, r, p, k, acc, ps);
    }
  }

  lemma PreOfferingTurns(bk: Book, fl: Flags, p: Place, k: nat, acc: Acc, ps: seq<Place>, x: Item)
    ensures Turns(bk, PreOffering(p, k, acc, ps),
                  Becomes(bk, fl, [Publishing(acc.spilled, None), PreListing(p, k, acc.(spilled := []), ps)]),
                  multiset{}, multiset{}, x)
  {
    hide FrameItems, BookItems, FramesItems, FreshAll, FreshUnits;
    var f, g, h := PreOffering(p, k, acc, ps), Publishing(acc.spilled, None), PreListing(p, k, acc.(spilled := []), ps);
    Two(g, h, x);
    HeldAt(f, p, k, acc, ps, x);
    HeldAt(h, p, k, acc.(spilled := []), ps, x);
    PublishedAt(acc.spilled, x);
    NoUnits(x);
    OnlyFrames(bk, bk, fl, f, [g, h], multiset{}, multiset{}, x);
  }

  lemma PreOfferingOk(w: World, bk: Book, fl: Flags, stopped: bool, r: multiset<Item>, p: Place, k: nat, acc: Acc, ps: seq<Place>)
    requires StepPre(w, bk, fl, PreOffering(p, k, acc, ps), stopped, r)
    ensures StepOk(w, bk, fl, stopped, StepPreOffering(bk, fl, p, k, acc, ps), r)
  {
    hide Inv, FrameItems, BookItems, StepPre, StepOk, EffectItems, Turns, Fits;
    var f := PreOffering(p, k, acc, ps);
    Given(w, bk, fl, f, stopped, r);
    if fl.accepting {
      var e := StepPreOffering(bk, fl, p, k, acc, ps);
      FitsTwo(w, fl, bk, Publishing(acc.spilled, None), PreListing(p, k, acc.(spilled := []), ps));
      forall x: Item ensures Turns(bk, f, e, multiset{}, multiset{}, x) { PreOfferingTurns(bk, fl, p, k, acc, ps, x); }
      GoesOn(w, bk, fl, stopped, r, f, e);
    } else {
      SameClaim(w, bk, fl, fl, f, PreListing(p, k, acc, ps), stopped, r);
    }
  }

  // ----- Any frame -----

  /** Whatever frame steps, the ledger is kept. */
  lemma FrameStepOk(w: World, bk: Book, fl: Flags, stopped: bool, r: multiset<Item>, f: Frame, c: Choice, e: Effect)
    requires StepPre(w, bk, fl, f, stopped, r)
    requires FrameStep(w, bk, fl, f, stopped, c) == Some(e)
    ensures StepOk(w, bk, fl, stopped, e, r)
  {
    hide StepPre, StepOk, StepBatchStart, StepBatchLoop, StepVisiting, StepListing, StepSpillCheck,
      StepCompleting, StepEvaluating, StepQuitting, StepNotifying, StepPublishing, StepPreLoop, StepPreVisiting,
      StepPreEvaluating, StepPreQuitting, StepPreDescending, StepPreListing, StepPreOffering, StartBatch;
    match f
    case BatchStart(ps, completion) => BatchStartOk(w, bk, fl, stopped, r, ps, completion);
    case BatchRecord(id, ps, parent) => BatchRecordOk(w, bk, fl, stopped, r, id, ps, parent);
    case BatchLoop(ps, completion) => BatchLoopOk(w, bk, fl, stopped, r, ps, completion, c, e);
    case Visiting(p, notify) => VisitingOk(w, bk, fl, stopped, r, p, notify, c, e);
    case Listing(p, notify, k, acc) => ListingOk(w, bk, fl, stopped, r, p, notify, k, acc, c, e);
    case OpenRecord(id, p, notify, plan) => OpenRecordStepOk(w, bk, fl, stopped, r, id, p, notify, plan);
    case SpillCheck(chunks, b) => SpillCheckOk(w, bk, fl, stopped, r, chunks, b);
    case Completing(p, notify, resumed) => CompletingOk(w, bk, fl, stopped, r, p, notify, resumed);
    case Evaluating(p, notify, resumed) => EvaluatingOk(w, bk, fl, stopped, r, p, notify, resumed, c, e);
    case Quitting(p, notify, true) => QuittingResumed(w, bk, fl, stopped, r, p, notify);
    case Quitting(p, notify, false) => QuittingAtOnce(w, bk, fl, stopped, r, p, notify);
    case Notifying(b, u) => NotifyingOk(w, bk, fl, stopped, r, b, u);
    case Publishing(chunks, completion) => PublishingOk(w, bk, fl, stopped, r, chunks, completion);
    case PreLoop(ps) => PreLoopOk(w, bk, fl, stopped, r, ps, c, e);
    case PreVisiting(p, ps) => PreVisitingOk(w, bk, fl, stopped, r, p, ps, c, e);
    case PreEvaluating(p, ps) => PreEvaluatingOk(w, bk, fl, stopped, r, p, ps, c, e);
    case PreQuitting(p, ps) => PreQuittingOk(w, bk, fl, stopped, r, p, ps);
    case PreDescending(p, ps) => PreDescendingOk(w, bk, fl, stopped, r, p, ps, c, e);
    case PreListing(p, k, acc, ps) => PreListingOk(w, bk, fl, stopped, r, p, k, acc, ps, c, e);
    case PreOffering(p, k, acc, ps) => PreOfferingOk(w, bk, fl, stopped, r, p, k, acc, ps);
  }
}
