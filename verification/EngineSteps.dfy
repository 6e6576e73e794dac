/** Every frame step keeps the ledger. */
module EngineSteps {
  import opened Basics
  import opened Places
  import opened Barriers
  import opened Ledger
  import opened Engine
  import opened EngineFrames
  import C = Chunking

  /** What a step has to respect apart from the ledger. */
  ghost predicate Fits(w: World, fl: Flags, e: Effect) {
    && FramesOk(w, e.flags, e.replace)
    && (e.push.Some? ==> TaskOk(w, e.push.value))
    && (e.dropped != multiset{} ==> e.fail || e.flags.quit || e.flags.fatal)
    && (e.stop ==> e.flags.quit)
    && (fl.quit ==> e.flags.quit) && (fl.fatal ==> e.flags.fatal)
    && (!e.flags.accepting ==> e.flags.quit || e.flags.fatal)
  }

  lemma Concludes(w: World, bk: Book, fl: Flags, stopped: bool, e: Effect, r: multiset<Item>)
    requires Inv(w, e.book, r + EffectItems(e)) && JobFree(EffectItems(e)) && Fits(w, fl, e)
    ensures StepOk(w, bk, fl, stopped, e, r)
  {
    hide Inv, FramesOk, TaskOk, EffectItems;
  }

  lemma FitsOne(w: World, fl: Flags, bk: Book, g: Frame)
    requires FrameOk(w, g) && QuitOk(fl, g) && (!fl.accepting ==> fl.quit || fl.fatal)
    ensures Fits(w, fl, Becomes(bk, fl, [g]))
  {
    hide FrameOk;
  }

  lemma FitsNone(w: World, fl: Flags, bk: Book)
    requires !fl.accepting ==> fl.quit || fl.fatal
    ensures Fits(w, fl, Becomes(bk, fl, []))
  {
    hide FrameOk;
  }

  lemma Given(w: World, bk: Book, fl: Flags, f: Frame, stopped: bool, r: multiset<Item>)
    requires StepPre(w, bk, fl, f, stopped, r)
    ensures Inv(w, bk, r + BookItems(bk) + FrameItems(f)) && JobFree(BookItems(bk))
    ensures FrameOk(w, f) && (stopped ==> fl.quit) && (!fl.accepting ==> fl.quit || fl.fatal)
  {
    hide Inv, BookItems, FrameItems, FrameOk;
  }

  lemma EachOwesAt(n: Option<BarrierId>, u: Unit, x: Item)
    ensures EachOwes(n, [u])[x] == if n.Some? && x == Owe(n.value, u) then 1 else 0
  {
    hide OweAll;
    if n.Some? { OweAllCounts(n.value, [u], x); }
  }

  // ----- Batches -----

  /** f takes a fresh barrier id along. */
  lemma TakesId(w: World, bk: Book, fl: Flags, stopped: bool, r: multiset<Item>, f: Frame, g: Frame)
    requires StepPre(w, bk, fl, f, stopped, r)
    requires FrameClaim(g) == FrameClaim(f).(own := FrameClaim(f).own + [Id(bk.table.nextId)])
    requires FrameOk(w, g) && QuitOk(fl, g)
    ensures StepOk(w, bk, fl, stopped, Becomes(bk.(table := Reserve(bk.table)), fl, [g]), r)
  {
    hide Inv, FrameItems, FrameClaim, FrameOk, BookItems, StepPre, StepOk, EffectItems, Turns, Fits, Traded, Reserve;
    var e := Becomes(bk.(table := Reserve(bk.table)), fl, [g]);
    var t, id := r + BookItems(bk) + FrameItems(f), bk.table.nextId;
    Given(w, bk, fl, f, stopped, r);
    FitsOne(w, fl, e.book, g);
    ReserveItems(w, bk, t);
    forall x: Item ensures Turns(bk, f, e, multiset{}, multiset{Id(id)}, x) { TakesIdTurns(bk, e.book, fl, f, g, id, x); }
    Turned(bk, f, e, multiset{}, multiset{Id(id)}, r);
    ReserveStep(w, bk, t, r + EffectItems(e));
    Concludes(w, bk, fl, stopped, e, r);
  }

  lemma TakesIdTurns(bk: Book, bk': Book, fl: Flags, f: Frame, g: Frame, id: BarrierId, x: Item)
    requires BookItems(bk') == BookItems(bk)
    requires FrameClaim(g) == FrameClaim(f).(own := FrameClaim(f).own + [Id(id)])
    ensures Turns(bk, f, Becomes(bk', fl, [g]), multiset{}, multiset{Id(id)}, x)
  {
    hide FrameItems, FrameClaim, FramesItems, EachOwes, BookItems, FreshAll, FreshUnits;
    One(g, x);
    FrameAt(f, x);
    FrameAt(g, x);
    OnlyFrames(bk, bk', fl, f, [g], multiset{}, multiset{Id(id)}, x);
  }

  /** The barrier a frame will notify exists, so its id is below any new one. */
  lemma NotifiesBelow(w: World, bk: Book, r: multiset<Item>, f: Frame, u: Unit)
    requires Inv(w, bk, r + BookItems(bk) + FrameItems(f))
    requires FrameClaim(f).debtor.Some? && FrameClaim(f).debts == [u]
    ensures FrameClaim(f).debtor.value < bk.table.nextId
  {
    hide Inv, ClaimItems, EachOwes, BookItems, FreshAll;
    var b := FrameClaim(f).debtor.value;
    FrameAt(f, Owe(b, u));
    EachOwesAt(Some(b), u, Owe(b, u));
    ParentKnown(w, bk, r + BookItems(bk) + FrameItems(f), b, u);
  }

  lemma BatchStartTakesId(w: World, bk: Book, fl: Flags, stopped: bool, r: multiset<Item>, ps: seq<Place>, parent: BarrierId)
    requires StepPre(w, bk, fl, BatchStart(ps, Some(parent)), stopped, r) && |ps| > 1
    ensures StepOk(w, bk, fl, stopped, StepBatchStart(bk, fl, ps, Some(parent)), r)
  {
    hide Inv, StepOk;
    NotifiesBelow(w, bk, r, BatchStart(ps, Some(parent)), ps);
    TakesId(w, bk, fl, stopped, r, BatchStart(ps, Some(parent)), BatchRecord(bk.table.nextId, ps, parent));
  }

  lemma BatchStartTurns(bk: Book, fl: Flags, ps: seq<Place>, completion: Option<BarrierId>, x: Item)
    requires completion.Some? ==> |ps| == 1
    ensures Turns(bk, BatchStart(ps, completion), Becomes(bk, fl, [BatchLoop(ps, completion)]), multiset{}, multiset{}, x)
  {
    hide ClaimItems, BookItems, FreshAll, FramesItems;
    var f, g := BatchStart(ps, completion), BatchLoop(ps, completion);
    One(g, x);
    FrameAt(f, x);
    FrameAt(g, x);
    if completion.Some? {
      assert ps == [ps[0]];
      assert Singles(ps) == [ps];
    }
    OnlyFrames(bk, bk, fl, f, [g], multiset{}, multiset{}, x);
  }

  lemma BatchStartAlone(w: World, bk: Book, fl: Flags, stopped: bool, r: multiset<Item>, ps: seq<Place>, completion: Option<BarrierId>)
    requires StepPre(w, bk, fl, BatchStart(ps, completion), stopped, r) && !(completion.Some? && |ps| > 1)
    ensures StepOk(w, bk, fl, stopped, Becomes(bk, fl, [BatchLoop(ps, completion)]), r)
  {
    hide Inv, FrameItems, BookItems, StepPre, StepOk, EffectItems, Turns, Fits;
    var f, g := BatchStart(ps, completion), BatchLoop(ps, completion);
    Given(w, bk, fl, f, stopped, r);
    FitsOne(w, fl, bk, g);
    forall x: Item ensures Turns(bk, f, Becomes(bk, fl, [g]), multiset{}, multiset{}, x) {
      BatchStartTurns(bk, fl, ps, completion, x);
    }
    Unturned(w, bk, f, Becomes(bk, fl, [g]), r);
    Concludes(w, bk, fl, stopped, Becomes(bk, fl, [g]), r);
  }

  lemma BatchStartOk(w: World, bk: Book, fl: Flags, stopped: bool, r: multiset<Item>, ps: seq<Place>, completion: Option<BarrierId>)
    requires StepPre(w, bk, fl, BatchStart(ps, completion), stopped, r)
    ensures StepOk(w, bk, fl, stopped, StepBatchStart(bk, fl, ps, completion), r)
  {
    hide StepPre, StepOk;
    if completion.Some? && |ps| > 1 {
      BatchStartTakesId(w, bk, fl, stopped, r, ps, completion.value);
    } else {
      BatchStartAlone(w, bk, fl, stopped, r, ps, completion);
    }
  }

  /** Putting a record into the table adds its items. */
  lemma InsertItems(bk: Book, bk': Book, id: BarrierId, rec: Record<Place>, x: Item)
    requires id < bk.table.nextId && id !in bk.table.records
    requires bk'.table == Insert(bk.table, id, rec)
    requires forall b :: b in bk.covers && b != id ==> b in bk'.covers && bk'.covers[b] == bk.covers[b]
    requires forall b :: b in bk'.covers && b != id ==> b in bk.covers
    ensures BookItems(bk')[x] == BookItems(bk)[x] + RecordItems(id, rec, bk'.covers)[x]
  {
    hide TableItems, EachOwes;
    TableChange(bk.table, bk'.table, bk.covers, bk'.covers, bk.table.nextId, id, x);
  }

  lemma IdIsNew(w: World, bk: Book, t: multiset<Item>, id: BarrierId)
    requires Inv(w, bk, t) && t[Id(id)] > 0
    ensures id < bk.table.nextId && id !in bk.table.records
  {
    assert BarrierOk(w, bk, t, id);
  }

  lemma CountedTwice(ps: seq<Place>, i: nat, j: nat)
    requires i < j < |ps| && ps[i] == ps[j]
    ensures multiset(ps)[ps[i]] >= 2
  {
    assert ps == ps[..j] + [ps[j]] + ps[j + 1..];
    assert ps[..j][i] == ps[i];
  }

  lemma FreshAtMostOnce(w: World, bk: Book, t: multiset<Item>, p: Place)
    requires Inv(w, bk, t)
    ensures t[Fresh(p)] <= 1
  {
    assert PlaceOk(w, bk, t, p);
  }

  /** Places somebody still has to visit are all different. */
  lemma StockDiffers(w: World, bk: Book, t: multiset<Item>, ps: seq<Place>)
    requires Inv(w, bk, t)
    requires forall x: Item :: FreshAll(ps)[x] <= t[x]
    ensures forall i, j :: 0 <= i < j < |ps| ==> ps[i] != ps[j]
  {
    hide Inv, FreshAll;
    forall i, j | 0 <= i < j < |ps| ensures ps[i] != ps[j] {
      FreshAtMostOnce(w, bk, t, ps[i]);
      assert FreshAll(ps)[Fresh(ps[i])] <= t[Fresh(ps[i])];
      FreshAllCounts(ps, Fresh(ps[i]));
      if ps[i] == ps[j] {
        CountedTwice(ps, i, j);
        assert false;
      }
    }
  }

  lemma BatchRecordTurns(bk: Book, fl: Flags, id: BarrierId, ps: seq<Place>, parent: BarrierId, x: Item)
    requires id < bk.table.nextId && id !in bk.table.records
    ensures Turns(bk, BatchRecord(id, ps, parent), Becomes(StartBatch(bk, id, parent, ps), fl, [BatchLoop(ps, Some(id))]),
                  multiset{Id(id)}, OweAll(id, Singles(ps)), x)
  {
    hide ClaimItems, FreshAll, FramesItems, OweAll, BookItems, Singles;
    var f, g := BatchRecord(id, ps, parent), BatchLoop(ps, Some(id));
    var bk' := StartBatch(bk, id, parent, ps);
    EffectAt(Becomes(bk', fl, [g]), x);
    One(g, x);
    FrameAt(f, x);
    FrameAt(g, x);
    EachOwesAt(Some(parent), ps, x);
    InsertItems(bk, bk', id, Batch(|ps|, parent), x);
  }

  lemma BatchRecordOk(w: World, bk: Book, fl: Flags, stopped: bool, r: multiset<Item>, id: BarrierId, ps: seq<Place>, parent: BarrierId)
    requires StepPre(w, bk, fl, BatchRecord(id, ps, parent), stopped, r)
    ensures StepOk(w, bk, fl, stopped, Becomes(StartBatch(bk, id, parent, ps), fl, [BatchLoop(ps, Some(id))]), r)
  {
    hide Inv, ClaimItems, BookItems, FreshAll, OweAll, StartBatch, StepPre, StepOk, Fits, Turns, Traded, EffectItems, BatchStarted;
    var f := BatchRecord(id, ps, parent);
    var e := Becomes(StartBatch(bk, id, parent, ps), fl, [BatchLoop(ps, Some(id))]);
    var t := r + BookItems(bk) + FrameItems(f);
    Given(w, bk, fl, f, stopped, r);
    FitsOne(w, fl, StartBatch(bk, id, parent, ps), BatchLoop(ps, Some(id)));
    assert t[Id(id)] > 0 by { FrameAt(f, Id(id)); }
    IdIsNew(w, bk, t, id);
    forall x: Item ensures Turns(bk, f, e, multiset{Id(id)}, OweAll(id, Singles(ps)), x) {
      BatchRecordTurns(bk, fl, id, ps, parent, x);
    }
    assert JobFree(OweAll(id, Singles(ps))) by {
      OweAllCounts(id, Singles(ps), Job);
      OweAllCounts(id, Singles(ps), Doom);
    }
    Turned(bk, f, e, multiset{Id(id)}, OweAll(id, Singles(ps)), r);
    forall x: Item ensures FreshAll(ps)[x] <= t[x] { FrameAt(f, x); }
    StockDiffers(w, bk, t, ps);
    SinglesDiffer(ps);
    StartCounts(t, r + EffectItems(e), id, ps);
    BatchStep(w, bk, t, r + EffectItems(e), id, parent, ps);
    Concludes(w, bk, fl, stopped, e, r);
  }

  lemma BatchLoopTurns(bk: Book, fl: Flags, ps: seq<Place>, completion: Option<BarrierId>, x: Item)
    requires ps != []
    ensures Turns(bk, BatchLoop(ps, completion), Becomes(bk, fl, [Visiting(ps[0], completion), BatchLoop(ps[1..], completion)]),
                  multiset{}, multiset{}, x)
  {
    hide ClaimItems, FreshAll, FramesItems, OweAll, BookItems, Singles;
    var f, g, h := BatchLoop(ps, completion), Visiting(ps[0], completion), BatchLoop(ps[1..], completion);
    Two(g, h, x);
    FrameAt(f, x);
    FrameAt(g, x);
    FrameAt(h, x);
    FreshFirst(ps, x);
    EachOwesAt(completion, [ps[0]], x);
    if completion.Some? { SinglesFirst(completion.value, ps, x); }
    FreshAllCounts([], x);
    OnlyFrames(bk, bk, fl, f, [g, h], multiset{}, multiset{}, x);
  }

  lemma SinglesFirst(b: BarrierId, ps: seq<Place>, x: Item)
    requires ps != []
    ensures OweAll(b, Singles(ps))[x] == multiset{Owe(b, [ps[0]])}[x] + OweAll(b, Singles(ps[1..]))[x]
  {
    assert Singles(ps)[1..] == Singles(ps[1..]);
    OweFirst(b, Singles(ps), x);
  }

  lemma Vanishes(w: World, bk: Book, fl: Flags, f: Frame, stopped: bool, r: multiset<Item>)
    requires StepPre(w, bk, fl, f, stopped, r)
    requires var c := FrameClaim(f); c.own == [] && c.stock == [] && c.chunks == [] && c.debts == []
    ensures StepOk(w, bk, fl, stopped, Becomes(bk, fl, []), r)
  {
    hide Inv, BookItems, FrameOk;
    var e := Becomes(bk, fl, []);
    forall x: Item ensures Turns(bk, f, e, multiset{}, multiset{}, x) {
      EffectAt(e, x);
      FrameAt(f, x);
    }
    Unturned(w, bk, f, e, r);
  }

  lemma BatchLoopOk(w: World, bk: Book, fl: Flags, stopped: bool, r: multiset<Item>,
                    ps: seq<Place>, completion: Option<BarrierId>, c: Choice, e: Effect)
    requires StepPre(w, bk, fl, BatchLoop(ps, completion), stopped, r)
    requires StepBatchLoop(bk, fl, ps, completion, stopped, c) == Some(e)
    ensures StepOk(w, bk, fl, stopped, e, r)
  {
    hide Inv, ClaimItems, BookItems, FreshAll, OweAll, StepOk;
    var f := BatchLoop(ps, completion);
    if ps == [] {
      Vanishes(w, bk, fl, f, stopped, r);
    } else if stopped || fl.quit || fl.fatal {
      GivesUp(w, bk, fl, f, stopped, false, r);
    } else {
      forall x: Item ensures Turns(bk, f, e, multiset{}, multiset{}, x) { BatchLoopTurns(bk, fl, ps, completion, x); }
      Unturned(w, bk, f, e, r);
      Concludes(w, bk, fl, stopped, e, r);
    }
  }

  // ----- Visiting -----

  /** f turns into a frame that differs in the items of its own only. */
  lemma SwapsTurns(bk: Book, bk': Book, fl: Flags, f: Frame, g: Frame, a: seq<Item>, x: Item)
    requires BookItems(bk') == BookItems(bk)
    requires FrameClaim(g) == FrameClaim(f).(own := a)
    ensures Turns(bk, f, Becomes(bk', fl, [g]), multiset(FrameClaim(f).own), multiset(a), x)
  {
    hide ClaimItems, BookItems, FramesItems, FreshAll, FreshUnits, EachOwes;
    One(g, x);
    FrameAt(f, x);
    FrameAt(g, x);
    OnlyFrames(bk, bk', fl, f, [g], multiset(FrameClaim(f).own), multiset(a), x);
  }

  lemma Swaps(w: World, bk: Book, bk': Book, fl: Flags, f: Frame, g: Frame, stopped: bool, r: multiset<Item>, x: Item, a: seq<Item>)
    requires StepPre(w, bk, fl, f, stopped, r) && BookItems(bk') == BookItems(bk)
    requires FrameClaim(f).own == [x] && FrameClaim(g) == FrameClaim(f).(own := a)
    requires x != Job && x != Doom && Job !in a && Doom !in a
    ensures var e := Becomes(bk', fl, [g]);
      && Traded(r + BookItems(bk) + FrameItems(f), r + EffectItems(e), multiset{x}, multiset(a))
      && (r + BookItems(bk) + FrameItems(f))[x] > 0
      && JobFree(EffectItems(e))
  {
    hide Inv, ClaimItems, BookItems, StepPre, StepOk, EffectItems, Turns, Traded;
    var e := Becomes(bk', fl, [g]);
    Given(w, bk, fl, f, stopped, r);
    assert multiset(FrameClaim(f).own) == multiset{x};
    forall y: Item ensures Turns(bk, f, e, multiset{x}, multiset(a), y) { SwapsTurns(bk, bk', fl, f, g, a, y); }
    Turned(bk, f, e, multiset{x}, multiset(a), r);
    FrameAt(f, x);
  }

  /** Loading or deciding failed: the entry is reported and the parent told. */
  lemma ReportedTurns(bk: Book, bk': Book, fl: Flags, f: Frame, own: Item, p: Place, notify: Option<BarrierId>, x: Item)
    requires BookItems(bk') == BookItems(bk)
    requires FrameClaim(f) == Claim([own], [], [], notify, [[p]])
    ensures Turns(bk, f, Becomes(bk', fl, TellParent(notify, p)),
                  multiset{own} + EachOwes(notify, [[p]]), Paying(notify, p), x)
  {
    hide ClaimItems, FreshAll, FreshUnits, BookItems, EachOwes, FrameClaim;
    FrameAt(f, x);
    FreshAllCounts([], x);
    NoUnits(x);
    match notify
    case None => NothingOwed(x); OnlyFrames(bk, bk', fl, f, [], multiset{own} + EachOwes(notify, [[p]]), Paying(notify, p), x);
    case Some(b) =>
      var g := Notifying(b, [p]);
      One(g, x);
      NotifyingAt(b, [p], x);
      OnlyFrames(bk, bk', fl, f, [g], multiset{own} + EachOwes(notify, [[p]]), Paying(notify, p), x);
  }

  lemma NoUnits(x: Item)
    ensures FreshUnits([])[x] == 0
  {
  }

  lemma NothingOwed(x: Item)
    ensures EachOwes(None, [])[x] == 0
    ensures forall us :: EachOwes(None, us)[x] == 0
  {
  }

  lemma NotifyingAt(b: BarrierId, u: Unit, x: Item)
    ensures FrameItems(Notifying(b, u))[x] == if x == Pay(b, u) then 1 else 0
  {
    hide FrameItems, ClaimItems, FreshAll, FreshUnits, EachOwes;
    FrameAt(Notifying(b, u), x);
    FreshAllCounts([], x);
    NoUnits(x);
    NothingOwed(x);
  }

  function Paying(notify: Option<BarrierId>, p: Place): multiset<Item> {
    match notify case None => multiset{} case Some(b) => multiset{Pay(b, [p])}
  }

  /** Flags do not weigh anything. */
  lemma FlagsWeighNothing(bk: Book, f: Frame, e: Effect, e': Effect, a: multiset<Item>, c: multiset<Item>, x: Item)
    requires Turns(bk, f, e, a, c, x)
    requires e'.book == e.book && e'.replace == e.replace && e'.push == e.push && e'.dropped == e.dropped
    ensures Turns(bk, f, e', a, c, x)
  {
    hide BookItems, FramesItems, PushItems;
  }

  lemma TellSplit(t: multiset<Item>, t': multiset<Item>, own: Item, notify: Option<BarrierId>, p: Place)
    requires t[own] > 0 && Traded(t, t', multiset{own} + EachOwes(notify, [[p]]), Paying(notify, p))
    ensures Traded(t, t - multiset{own}, multiset{own}, multiset{})
    ensures Traded(t - multiset{own}, t', EachOwes(notify, [[p]]), Paying(notify, p))
  {
    hide EachOwes, Paying;
    var t1, o := t - multiset{own}, EachOwes(notify, [[p]]);
    forall x: Item ensures TradedAt(t, t1, multiset{own}, multiset{}, x) {}
    forall x: Item ensures TradedAt(t1, t', o, Paying(notify, p), x) {
      assert TradedAt(t, t', multiset{own} + o, Paying(notify, p), x);
    }
  }

  lemma Tells(w: World, bk: Book, t: multiset<Item>, t': multiset<Item>, notify: Option<BarrierId>, p: Place)
    requires Inv(w, bk, t) && Settled(bk.log)[p] > 0
    requires Traded(t, t', EachOwes(notify, [[p]]), Paying(notify, p))
    requires notify.Some? ==> t[Owe(notify.value, [p])] > 0
    ensures Inv(w, bk, t')
  {
    hide Inv, OweAll;
    match notify
    case None => SameTally(t, t');
    case Some(b) =>
      forall x: Item ensures TradedAt(t, t', multiset{Owe(b, [p])}, multiset{Pay(b, [p])}, x) {
        assert TradedAt(t, t', EachOwes(notify, [[p]]), Paying(notify, p), x);
        EachOwesAt(notify, [p], x);
      }
      MarkStep(w, bk, t, t', b, [p]);
  }

  /** What changes hands when an entry is settled and its parent told. */
  lemma TellingTrades(bk: Book, f: Frame, e: Effect, r: multiset<Item>, own: Item, ev: Event, notify: Option<BarrierId>)
    requires FrameClaim(f) == Claim([own], [], [], notify, [[ev.at]])
    requires own != Job && own != Doom && JobFree(BookItems(bk))
    requires e.book == Log(bk, ev) && e.replace == TellParent(notify, ev.at) && e.push == None && e.dropped == multiset{}
    ensures var t, t' := r + BookItems(bk) + FrameItems(f), r + EffectItems(e);
      && Traded(t, t', multiset{own} + EachOwes(notify, [[ev.at]]), Paying(notify, ev.at))
      && t[own] > 0 && (notify.Some? ==> t[Owe(notify.value, [ev.at])] > 0)
    ensures JobFree(EffectItems(e))
  {
    hide BookItems, EachOwes, ClaimItems, FreshAll;
    var p := ev.at;
    var a, c := multiset{own} + EachOwes(notify, [[p]]), Paying(notify, p);
    assert BookItems(e.book) == BookItems(bk) by { BookIgnoresLog(bk, ev); }
    forall x: Item ensures Turns(bk, f, e, a, c, x) {
      ReportedTurns(bk, e.book, e.flags, f, own, p, notify, x);
      FlagsWeighNothing(bk, f, Becomes(e.book, e.flags, e.replace), e, a, c, x);
    }
    assert JobFree(a) by { EachOwesAt(notify, [p], Job); EachOwesAt(notify, [p], Doom); }
    Turned(bk, f, e, a, c, r);
    FrameAt(f, own);
    if notify.Some? {
      FrameAt(f, Owe(notify.value, [p]));
      EachOwesAt(notify, [p], Owe(notify.value, [p]));
    }
  }

  /** An entry is settled by the event ev and tells whoever waits for it. */
  lemma SettlesAndTells(w: World, bk: Book, fl: Flags, f: Frame, stopped: bool, e: Effect, r: multiset<Item>,
                        own: Item, ev: Event, notify: Option<BarrierId>)
    requires StepPre(w, bk, fl, f, stopped, r) && w.order.PostOrder?
    requires FrameClaim(f) == Claim([own], [], [], notify, [[ev.at]])
    requires (ev.Reported? && own == Fresh(ev.at) && Kids(w, ev.at) == 0 && !Evaluable(w, ev.at))
             || (ev.Skipped? && own == Ready(ev.at) && Depth(ev.at) < w.minDepth) || (ev.Ended? && own == Active(ev.at))
    requires e.book == Log(bk, ev) && e.replace == TellParent(notify, ev.at) && e.push == None && e.dropped == multiset{}
    requires !e.fail && (e.stop ==> e.flags.quit)
    requires (fl.quit ==> e.flags.quit) && (fl.fatal ==> e.flags.fatal) && (!e.flags.accepting ==> e.flags.quit || e.flags.fatal)
    ensures StepOk(w, bk, fl, stopped, e, r)
  {
    hide Inv, BookItems, EachOwes, FrameItems, FrameOk, FrameClaim, EffectItems, Traded, StepPre, StepOk, Fits, Settled, Paying;
    Given(w, bk, fl, f, stopped, r);
    assert Fits(w, fl, e) by { TellingFits(w, fl, e, notify, ev.at); }
    var t, t', t1 := r + BookItems(bk) + FrameItems(f), r + EffectItems(e), r + BookItems(bk) + FrameItems(f) - multiset{own};
    TellingTrades(bk, f, e, r, own, ev, notify);
    TellSplit(t, t', own, notify, ev.at);
    if ev.Reported? { ReportStep(w, bk, t, t1, ev.at); }
    else { SettleStep(w, bk, t, t1, own, ev); }
    LogAppend(bk.log, ev);
    Tells(w, e.book, t1, t', notify, ev.at);
    Concludes(w, bk, fl, stopped, e, r);
  }

  lemma TellingFits(w: World, fl: Flags, e: Effect, notify: Option<BarrierId>, p: Place)
    requires w.order.PostOrder? && e.replace == TellParent(notify, p) && e.push == None && e.dropped == multiset{}
    requires e.stop ==> e.flags.quit
    requires (fl.quit ==> e.flags.quit) && (fl.fatal ==> e.flags.fatal) && (!e.flags.accepting ==> e.flags.quit || e.flags.fatal)
    ensures Fits(w, fl, e)
  {
  }

  lemma BookIgnoresLog(bk: Book, ev: Event)
    ensures BookItems(Log(bk, ev)) == BookItems(bk)
  {
  }

  lemma EmptyAcc(p: Place)
    ensures AccIs(C.Chunks([], [], []), Children(p, 0))
  {
    assert [] + [] == Children(p, 0);
  }

  lemma VisitingOk(w: World, bk: Book, fl: Flags, stopped: bool, r: multiset<Item>,
                   p: Place, notify: Option<BarrierId>, c: Choice, e: Effect)
    requires StepPre(w, bk, fl, Visiting(p, notify), stopped, r)
    requires StepVisiting(w, bk, fl, p, notify, c) == Some(e)
    ensures StepOk(w, bk, fl, stopped, e, r)
  {
    var f := Visiting(p, notify);
    hide Inv, BookItems, EachOwes, ClaimItems, FreshAll, StepOk;
    if c == Fail {
      GivesUp(w, bk, fl, f, stopped, true, r);
    } else {
      match w.visit(p)
      case Readable(Closed) => ReadyNow(w, bk, fl, f, stopped, r, p, notify);
      case Readable(Lists(_, _)) =>
        var g := Listing(p, notify, 0, C.Chunks([], [], []));
        EmptyAcc(p);
        SameClaim(w, bk, fl, fl, f, g, stopped, r);
      case _ => SettlesAndTells(w, bk, fl, f, stopped, e, r, Fresh(p), Reported(p), notify);
    }
  }

  /** Post-order: nothing to wait for, so the entry is next to be evaluated. */
  lemma ReadyNow(w: World, bk: Book, fl: Flags, f: Frame, stopped: bool, r: multiset<Item>, p: Place, notify: Option<BarrierId>)
    requires StepPre(w, bk, fl, f, stopped, r) && w.order.PostOrder?
    requires FrameClaim(f) == Claim([Fresh(p)], [], [], notify, [[p]])
    requires Kids(w, p) == 0 && Evaluable(w, p)
    ensures StepOk(w, bk, fl, stopped, Becomes(bk, fl, [Completing(p, notify, false)]), r)
  {
    hide Inv, FrameItems, BookItems, StepPre, StepOk, EffectItems, Turns, Fits, Traded;
    var g := Completing(p, notify, false);
    var e := Becomes(bk, fl, [g]);
    Given(w, bk, fl, f, stopped, r);
    FitsOne(w, fl, bk, g);
    hide FrameOk;
    Swaps(w, bk, bk, fl, f, g, stopped, r, Fresh(p), [Ready(p)]);
    assert multiset([Ready(p)]) == multiset{Ready(p)};
    ReadyStep(w, bk, r + BookItems(bk) + FrameItems(f), r + EffectItems(e), p);
    Concludes(w, bk, fl, stopped, e, r);
  }

  // ----- Evaluating -----

  lemma BeginsEvaluating(w: World, bk: Book, fl: Flags, f: Frame, g: Frame, stopped: bool, r: multiset<Item>, p: Place)
    requires StepPre(w, bk, fl, f, stopped, r) && FrameOk(w, g) && QuitOk(fl, g)
    requires FrameClaim(f).own == [Before(w, p)] && FrameClaim(g) == FrameClaim(f).(own := [Active(p)])
    requires Depth(p) >= w.minDepth && (w.order.PreOrder? ==> w.visit(p).Readable?)
    ensures StepOk(w, bk, fl, stopped, Becomes(Log(bk, Began(p)), fl, [g]), r)
  {
    hide Inv, FrameItems, FrameClaim, BookItems, StepPre, StepOk, EffectItems, Turns, Fits, Traded, FrameOk;
    var bk' := Log(bk, Began(p));
    var e := Becomes(bk', fl, [g]);
    Given(w, bk, fl, f, stopped, r);
    FitsOne(w, fl, bk', g);
    BookIgnoresLog(bk, Began(p));
    Swaps(w, bk, bk', fl, f, g, stopped, r, Before(w, p), [Active(p)]);
    assert multiset([Active(p)]) == multiset{Active(p)};
    if w.order.PostOrder? { ReadyIsEvaluable(w, bk, r + BookItems(bk) + FrameItems(f), p); }
    BeginStep(w, bk, r + BookItems(bk) + FrameItems(f), r + EffectItems(e), p);
    Concludes(w, bk, fl, stopped, e, r);
  }

  lemma CompletingOk(w: World, bk: Book, fl: Flags, stopped: bool, r: multiset<Item>,
                     p: Place, notify: Option<BarrierId>, resumed: bool)
    requires StepPre(w, bk, fl, Completing(p, notify, resumed), stopped, r)
    ensures StepOk(w, bk, fl, stopped, StepCompleting(w, bk, fl, p, notify, resumed), r)
  {
    var f := Completing(p, notify, resumed);
    hide Inv, BookItems, EachOwes, ClaimItems, FreshAll, StepOk;
    if Depth(p) >= w.minDepth {
      BeginsEvaluating(w, bk, fl, f, Evaluating(p, notify, resumed), stopped, r, p);
    } else {
      SettlesAndTells(w, bk, fl, f, stopped, StepCompleting(w, bk, fl, p, notify, resumed), r, Ready(p), Skipped(p), notify);
    }
  }

  lemma EvaluatingOk(w: World, bk: Book, fl: Flags, stopped: bool, r: multiset<Item>,
                     p: Place, notify: Option<BarrierId>, resumed: bool, c: Choice, e: Effect)
    requires StepPre(w, bk, fl, Evaluating(p, notify, resumed), stopped, r)
    requires StepEvaluating(bk, fl, p, notify, resumed, c) == Some(e)
    ensures StepOk(w, bk, fl, stopped, e, r)
  {
    var f := Evaluating(p, notify, resumed);
    hide Inv, BookItems, EachOwes, ClaimItems, FreshAll, StepOk;
    match c
    case Fail => GivesUp(w, bk, fl, f, stopped, true, r);
    case Quit => SameClaim(w, bk, fl, fl.(quit := true), f, Quitting(p, notify, resumed), stopped, r);
    case _ => SettlesAndTells(w, bk, fl, f, stopped, e, r, Active(p), Ended(p), notify);
  }

  lemma QuittingResumed(w: World, bk: Book, fl: Flags, stopped: bool, r: multiset<Item>, p: Place, notify: Option<BarrierId>)
    requires StepPre(w, bk, fl, Quitting(p, notify, true), stopped, r)
    ensures StepOk(w, bk, fl, stopped, StepQuitting(bk, fl, p, notify, true), r)
  {
    hide Inv, BookItems, EachOwes, ClaimItems, FreshAll, StepOk;
    SettlesAndTells(w, bk, fl, Quitting(p, notify, true), stopped, StepQuitting(bk, fl, p, notify, true), r,
                    Active(p), Ended(p), notify);
  }

  lemma QuittingAtOnce(w: World, bk: Book, fl: Flags, stopped: bool, r: multiset<Item>, p: Place, notify: Option<BarrierId>)
    requires StepPre(w, bk, fl, Quitting(p, notify, false), stopped, r)
    ensures StepOk(w, bk, fl, stopped, StepQuitting(bk, fl, p, notify, false), r)
  {
    hide Inv, BookItems, EachOwes, ClaimItems, FreshAll;
    var f, e := Quitting(p, notify, false), StepQuitting(bk, fl, p, notify, false);
    var t := r + BookItems(bk) + FrameItems(f);
    BookIgnoresLog(bk, Ended(p));
    forall x: Item ensures Turns(bk, f, e, multiset{Active(p)}, multiset{}, x) {
      EffectAt(e, x);
      FrameAt(f, x);
      FreshAllCounts([], x);
    }
    Turned(bk, f, e, multiset{Active(p)}, multiset{}, r);
    assert t[Active(p)] > 0 by { FrameAt(f, Active(p)); }
    SettleStep(w, bk, t, r + EffectItems(e), Active(p), Ended(p));
    Concludes(w, bk, fl, stopped, e, r);
  }

  // ----- Listing a directory in post-order -----

  lemma PushedAcc(acc: Acc, child: Place, maySplit: bool, threshold: nat, size: nat, x: Item)
    ensures var a := C.Push(acc, child, maySplit, threshold, size);
            FreshAll(a.local + a.buffer)[x] + FreshUnits(a.spilled)[x]
            == FreshAll(acc.local + acc.buffer)[x] + FreshUnits(acc.spilled)[x] + multiset{Fresh(child)}[x]
  {
    hide FreshAll, FreshUnits;
    FreshConcat(acc.local, acc.buffer, x);
    FreshConcat(acc.local + [child], acc.buffer, x);
    FreshConcat(acc.local, acc.buffer + [child], x);
    FreshConcat(acc.local, [child], x);
    FreshConcat(acc.buffer, [child], x);
    FreshConcat(acc.local, [], x);
    FreshAllCounts([child], x);
    FreshAllCounts([], x);
    FreshUnitsLast(acc.spilled, acc.buffer + [child], x);
  }

  lemma ChunksStayOk(acc: Acc, child: Place, maySplit: bool, threshold: nat, size: nat)
    requires ChunksOk(acc.spilled)
    ensures ChunksOk(C.Push(acc, child, maySplit, threshold, size).spilled)
  {
  }

  lemma ListingGrows(acc: Acc, p: Place, k: nat, maySplit: bool, threshold: nat, size: nat)
    requires AccIs(acc, Children(p, k))
    ensures AccIs(C.Push(acc, p + [k], maySplit, threshold, size), Children(p, k + 1))
  {
    hide FreshAll, FreshUnits;
    var a := C.Push(acc, p + [k], maySplit, threshold, size);
    var before, after := FreshAll(acc.local + acc.buffer) + FreshUnits(acc.spilled), FreshAll(a.local + a.buffer) + FreshUnits(a.spilled);
    forall x: Item ensures after[x] == FreshAll(Children(p, k + 1))[x] {
      PushedAcc(acc, p + [k], maySplit, threshold, size, x);
      assert Children(p, k + 1) == Children(p, k) + [p + [k]];
      FreshConcat(Children(p, k), [p + [k]], x);
      FreshAllCounts([p + [k]], x);
      assert before[x] == FreshAll(Children(p, k))[x];
    }
  }

  lemma FinishedAcc(acc: Acc, x: Item)
    ensures FreshUnits(Units(C.Finish(acc)))[x] == FreshAll(acc.local + acc.buffer)[x] + FreshUnits(acc.spilled)[x]
  {
    hide FreshAll;
    var plan := C.Finish(acc);
    FreshConcat(acc.local, acc.buffer, x);
    FreshAllCounts([], x);
    hide FreshUnits;
    if acc.buffer != [] { FreshUnitsLast(acc.spilled, acc.buffer, x); }
    UnitsOf(plan, x);
  }

  lemma UnitsOf(plan: C.Plan<Place>, x: Item)
    ensures FreshUnits(Units(plan))[x] == FreshAll(plan.local)[x] + FreshUnits(plan.spilled)[x]
  {
    hide FreshAll, FreshUnits;
    if plan.local == [] {
      FreshAllCounts([], x);
      assert Units(plan) == plan.spilled;
    } else {
      FreshUnitsFirst(Units(plan), x);
      assert Units(plan)[1..] == plan.spilled;
    }
  }

  lemma OpenRecordOk(w: World, id: BarrierId, p: Place, notify: Option<BarrierId>, acc: Acc)
    requires w.order.PostOrder? && (notify.Some? ==> notify.value < id)
    requires AccIs(acc, Children(p, Kids(w, p))) && ChunksOk(acc.spilled)
    requires Units(C.Finish(acc)) != []
    ensures FrameOk(w, OpenRecord(id, p, notify, C.Finish(acc)))
  {
    hide FreshAll, FreshUnits;
    var us := Units(C.Finish(acc));
    var held := FreshAll(acc.local + acc.buffer) + FreshUnits(acc.spilled);
    forall x: Item ensures FreshUnits(us)[x] == FreshAll(Children(p, Kids(w, p)))[x] {
      FinishedAcc(acc, x);
      assert held[x] == FreshAll(Children(p, Kids(w, p)))[x];
    }
    assert FreshUnits(us) == FreshAll(Children(p, Kids(w, p)));
  }

  lemma ListingTakesId(w: World, bk: Book, fl: Flags, stopped: bool, r: multiset<Item>,
                       p: Place, notify: Option<BarrierId>, k: nat, acc: Acc)
    requires StepPre(w, bk, fl, Listing(p, notify, k, acc), stopped, r)
    requires w.visit(p) == Readable(Lists(k, true)) && Units(C.Finish(acc)) != []
    ensures StepOk(w, bk, fl, stopped,
      Becomes(bk.(table := Reserve(bk.table)), fl, [OpenRecord(bk.table.nextId, p, notify, C.Finish(acc))]), r)
  {
    hide Inv, StepOk, StepPre, FrameItems, BookItems, Units, C.Finish, Children, FreshAll, FreshUnits, ChunksOk, AccIs;
    var f, g := Listing(p, notify, k, acc), OpenRecord(bk.table.nextId, p, notify, C.Finish(acc));
    Given(w, bk, fl, f, stopped, r);
    if notify.Some? { NotifiesBelow(w, bk, r, f, [p]); }
    OpenRecordOk(w, bk.table.nextId, p, notify, acc);
    hide FrameOk;
    TakesId(w, bk, fl, stopped, r, f, g);
  }

  /** A listing that turned up nothing has no children. */
  lemma NothingListed(acc: Acc, p: Place, k: nat)
    requires AccIs(acc, Children(p, k)) && Units(C.Finish(acc)) == []
    ensures k == 0
  {
    hide FreshAll;
    if k > 0 {
      var x := Fresh(Children(p, k)[0]);
      FinishedAcc(acc, x);
      FreshAllCounts(Children(p, k), x);
    }
  }

  lemma ListingOk(w: World, bk: Book, fl: Flags, stopped: bool, r: multiset<Item>,
                  p: Place, notify: Option<BarrierId>, k: nat, acc: Acc, c: Choice, e: Effect)
    requires StepPre(w, bk, fl, Listing(p, notify, k, acc), stopped, r)
    requires StepListing(w, bk, fl, p, notify, k, acc, c) == Some(e)
    ensures StepOk(w, bk, fl, stopped, e, r)
  {
    var f := Listing(p, notify, k, acc);
    hide Inv, BookItems, EachOwes, ClaimItems, FreshAll, StepOk, AccIs;
    var n, complete := w.visit(p).expansion.children, w.visit(p).expansion.complete;
    if k < n {
      ListingGrows(acc, p, k, fl.accepting, C.SPLIT_CHILD_THRESHOLD, C.SPILL_CHUNK_SIZE);
      ChunksStayOk(acc, p + [k], fl.accepting, C.SPLIT_CHILD_THRESHOLD, C.SPILL_CHUNK_SIZE);
      var g := Listing(p, notify, k + 1, C.Push(acc, p + [k], fl.accepting, C.SPLIT_CHILD_THRESHOLD, C.SPILL_CHUNK_SIZE));
      SameClaim(w, bk, fl, fl, f, g, stopped, r);
    } else if c == Fail {
      GivesUp(w, bk, fl, f, stopped, true, r);
    } else if !complete {
      ReadyNow(w, bk, fl, f, stopped, r, p, notify);
    } else if fl.quit || fl.fatal {
      GivesUp(w, bk, fl, f, stopped, false, r);
    } else if Units(C.Finish(acc)) == [] {
      NothingListed(acc, p, k);
      ReadyNow(w, bk, fl, f, stopped, r, p, notify);
    } else {
      ListingTakesId(w, bk, fl, stopped, r, p, notify, k, acc);
    }
  }

  // ----- Opening a directory in post-order -----

  function OpenFrames(id: BarrierId, plan: C.Plan<Place>): seq<Frame> {
    (if plan.local == [] then [] else [BatchStart(plan.local, Some(id))]) + [SpillCheck(plan.spilled, id)]
  }

  lemma OpenFramesAt(id: BarrierId, plan: C.Plan<Place>, x: Item)
    ensures FramesItems(OpenFrames(id, plan))[x] == FreshUnits(Units(plan))[x] + OweAll(id, Units(plan))[x]
  {
    var h := SpillCheck(plan.spilled, id);
    hide ClaimItems, FreshAll, FreshUnits, OweAll, FramesItems;
    UnitsOf(plan, x);
    FrameAt(h, x);
    FreshAllCounts([], x);
    if plan.local == [] {
      One(h, x);
      assert OpenFrames(id, plan) == [h];
      assert Units(plan) == plan.spilled;
    } else {
      var g := BatchStart(plan.local, Some(id));
      Two(g, h, x);
      assert OpenFrames(id, plan) == [g, h];
      FrameAt(g, x);
      NoUnits(x);
      EachOwesAt(Some(id), plan.local, x);
      OweFirst(id, Units(plan), x);
      assert Units(plan)[0] == plan.local && Units(plan)[1..] == plan.spilled;
    }
  }

  lemma OpenRecordTurns(bk: Book, fl: Flags, id: BarrierId, p: Place, n: nat, notify: Option<BarrierId>, plan: C.Plan<Place>, x: Item)
    requires id < bk.table.nextId && id !in bk.table.records
    requires FreshUnits(Units(plan)) == FreshAll(Children(p, n))
    ensures Turns(bk, OpenRecord(id, p, notify, plan),
                  Becomes(OpenDirectory(bk, p, n, id, Units(plan), notify), fl, OpenFrames(id, plan)),
                  multiset{Fresh(p), Id(id)}, multiset{Waiting(p)} + FreshAll(Children(p, n)) + OweAll(id, Units(plan)), x)
  {
    var f := OpenRecord(id, p, notify, plan);
    var bk' := OpenDirectory(bk, p, n, id, Units(plan), notify);
    hide FrameClaim, FrameItems, FreshAll, FreshUnits, OweAll, FramesItems, BookItems, EachOwes, Units, OpenFrames, OpenDirectory;
    OpenRecordClaim(id, p, notify, plan);
    EffectAt(Becomes(bk', fl, OpenFrames(id, plan)), x);
    OpenFramesAt(id, plan, x);
    FrameAt(f, x);
    FreshAllCounts([], x);
    NoUnits(x);
    OpenedBook(bk, p, n, id, Units(plan), notify, x);
    assert multiset([Fresh(p), Id(id)]) == multiset{Fresh(p), Id(id)};
  }

  lemma OpenRecordClaim(id: BarrierId, p: Place, notify: Option<BarrierId>, plan: C.Plan<Place>)
    ensures FrameClaim(OpenRecord(id, p, notify, plan)) == Claim([Fresh(p), Id(id)], [], [], notify, [[p]])
  {
  }

  lemma OpenedBook(bk: Book, p: Place, n: nat, id: BarrierId, units: seq<Unit>, notify: Option<BarrierId>, x: Item)
    requires id < bk.table.nextId && id !in bk.table.records
    ensures BookItems(OpenDirectory(bk, p, n, id, units, notify))[x]
         == BookItems(bk)[x] + multiset{Waiting(p)}[x] + EachOwes(notify, [[p]])[x]
  {
    hide BookItems, EachOwes;
    InsertItems(bk, OpenDirectory(bk, p, n, id, units, notify), id, Directory(p, |units|, notify), x);
  }

  lemma OpenRecordStepOk(w: World, bk: Book, fl: Flags, stopped: bool, r: multiset<Item>,
                         id: BarrierId, p: Place, notify: Option<BarrierId>, plan: C.Plan<Place>)
    requires StepPre(w, bk, fl, OpenRecord(id, p, notify, plan), stopped, r)
    ensures StepOk(w, bk, fl, stopped, StepOpenRecord(w, bk, fl, id, p, notify, plan), r)
  {
    var f, e, n := OpenRecord(id, p, notify, plan), StepOpenRecord(w, bk, fl, id, p, notify, plan), Kids(w, p);
    var us := Units(plan);
    assert w.order.PostOrder? && (notify.Some? ==> notify.value < id) && us != [] && ChunksOk(us);
    assert FreshUnits(us) == FreshAll(Children(p, n));
    OpenFramesOk(w, fl, id, plan);
    assert e.replace == OpenFrames(id, plan);
    UnitsOfPlan(p, n, us);
    hide Inv, ClaimItems, FreshAll, FreshUnits, OweAll, FramesItems, BookItems, EachOwes, Units, OpenFrames, FrameOk;
    var t := r + BookItems(bk) + FrameItems(f);
    var a, c := multiset{Fresh(p), Id(id)}, multiset{Waiting(p)} + FreshAll(Children(p, n)) + OweAll(id, us);
    assert t[Fresh(p)] > 0 && t[Id(id)] > 0 by { FrameAt(f, Fresh(p)); FrameAt(f, Id(id)); }
    IdIsNew(w, bk, t, id);
    forall x: Item ensures Turns(bk, f, e, a, c, x) { OpenRecordTurns(bk, fl, id, p, n, notify, plan, x); }
    OpeningJobFree(p, n, id, us);
    Turned(bk, f, e, a, c, r);
    OpenCounts(t, r + EffectItems(e), p, n, id, us);
    OpenStep(w, bk, t, r + EffectItems(e), p, n, id, us, notify);
    Concludes(w, bk, fl, stopped, e, r);
  }

  lemma OpeningJobFree(p: Place, n: nat, id: BarrierId, us: seq<Unit>)
    ensures JobFree(multiset{Waiting(p)} + FreshAll(Children(p, n)) + OweAll(id, us))
  {
    hide FreshAll, OweAll;
    FreshAllCounts(Children(p, n), Job);
    FreshAllCounts(Children(p, n), Doom);
    OweAllCounts(id, us, Job);
    OweAllCounts(id, us, Doom);
  }

  lemma UnitsOfPlan(p: Place, n: nat, us: seq<Unit>)
    requires us != [] && ChunksOk(us) && FreshUnits(us) == FreshAll(Children(p, n))
    ensures n > 0 && |UnitSet(us)| == |us| > 0
    ensures forall u :: multiset(us)[u] <= 1
  {
    hide FreshAll, FreshUnits;
    FreshUnitsCounts(us, us[0][0]);
    assert us[0][0] in us[0];
    FreshAllCounts(Children(p, n), Fresh(us[0][0]));
    UnitsOfChildren(p, n, us);
  }

  lemma OpenFramesOk(w: World, fl: Flags, id: BarrierId, plan: C.Plan<Place>)
    requires w.order.PostOrder? && ChunksOk(Units(plan))
    ensures FramesOk(w, fl, OpenFrames(id, plan))
  {
    assert ChunksOk(plan.spilled) by {
      forall i | 0 <= i < |plan.spilled| ensures plan.spilled[i] != [] {
        assert plan.spilled[i] == Units(plan)[if plan.local == [] then i else i + 1];
      }
    }
  }

  // ----- Publishing chunks -----

  lemma SpillCheckOk(w: World, bk: Book, fl: Flags, stopped: bool, r: multiset<Item>, chunks: seq<Unit>, b: BarrierId)
    requires StepPre(w, bk, fl, SpillCheck(chunks, b), stopped, r)
    ensures StepOk(w, bk, fl, stopped, StepSpillCheck(bk, fl, chunks, b, stopped), r)
  {
    hide Inv, StepOk, ClaimItems;
    if stopped || !fl.accepting {
      GivesUp(w, bk, fl, SpillCheck(chunks, b), stopped, false, r);
    } else {
      SameClaim(w, bk, fl, fl, SpillCheck(chunks, b), Publishing(chunks, Some(b)), stopped, r);
    }
  }

  lemma ChunkAt(ps: Unit, completion: Option<BarrierId>, x: Item)
    ensures TaskItems(SiblingChunk(ps, completion))[x] == FreshAll(ps)[x] + EachOwes(completion, [ps])[x]
  {
    hide FreshAll, EachOwes, FreshUnits;
    ClaimAt(TaskClaim(SiblingChunk(ps, completion)), x);
    NoUnits(x);
  }

  lemma PublishingAt(chunks: seq<Unit>, completion: Option<BarrierId>, x: Item)
    requires chunks != []
    ensures FrameItems(Publishing(chunks, completion))[x]
            == FrameItems(Publishing(chunks[1..], completion))[x] + TaskItems(SiblingChunk(chunks[0], completion))[x]
  {
    hide FrameClaim, FreshAll, FreshUnits, OweAll, EachOwes, TaskItems, FrameItems;
    PublishingClaim(chunks, completion);
    PublishingClaim(chunks[1..], completion);
    FrameAt(Publishing(chunks, completion), x);
    FrameAt(Publishing(chunks[1..], completion), x);
    FreshUnitsFirst(chunks, x);
    ChunkAt(chunks[0], completion, x);
    OwesFirst(completion, chunks, x);
    NoneFresh(x);
  }

  lemma PublishingClaim(chunks: seq<Unit>, completion: Option<BarrierId>)
    ensures FrameClaim(Publishing(chunks, completion)) == Claim([], [], chunks, completion, chunks)
  {
  }

  lemma OwesFirst(n: Option<BarrierId>, units: seq<Unit>, x: Item)
    requires units != []
    ensures EachOwes(n, units)[x] == EachOwes(n, [units[0]])[x] + EachOwes(n, units[1..])[x]
  {
    EachOwesAt(n, units[0], x);
    hide OweAll;
    if n.Some? { OweFirst(n.value, units, x); }
  }

  lemma NoneFresh(x: Item)
    ensures FreshAll([])[x] == 0
  {
  }

  lemma PublishingTurns(bk: Book, fl: Flags, chunks: seq<Unit>, completion: Option<BarrierId>, x: Item)
    requires chunks != []
    ensures Turns(bk, Publishing(chunks, completion), StepPublishing(bk, fl, chunks, completion), multiset{}, multiset{}, x)
  {
    hide FrameItems, FramesItems, BookItems, TaskItems;
    EffectAt(StepPublishing(bk, fl, chunks, completion), x);
    One(Publishing(chunks[1..], completion), x);
    PublishingAt(chunks, completion, x);
  }

  lemma PublishingOk(w: World, bk: Book, fl: Flags, stopped: bool, r: multiset<Item>, chunks: seq<Unit>, completion: Option<BarrierId>)
    requires StepPre(w, bk, fl, Publishing(chunks, completion), stopped, r)
    ensures StepOk(w, bk, fl, stopped, StepPublishing(bk, fl, chunks, completion), r)
  {
    var f, e := Publishing(chunks, completion), StepPublishing(bk, fl, chunks, completion);
    hide Inv, ClaimItems, BookItems, TaskItems, EachOwes, FreshUnits;
    if chunks == [] {
      Vanishes(w, bk, fl, f, stopped, r);
    } else {
      forall x: Item ensures Turns(bk, f, e, multiset{}, multiset{}, x) { PublishingTurns(bk, fl, chunks, completion, x); }
      Unturned(w, bk, f, e, r);
      Concludes(w, bk, fl, stopped, e, r);
    }
  }

  // ----- Notifying -----

  lemma PaidItems(bk: Book, bk': Book, b: BarrierId, x: Item)
    requires b in bk.table.records && b < bk.table.nextId && bk.table.records[b].remaining > 1
    requires bk'.table == Finish(bk.table, b).0 && bk'.covers == bk.covers
    ensures BookItems(bk')[x] == BookItems(bk)[x]
  {
    TableSame(bk.table, bk'.table, bk.covers, bk.covers, bk.table.nextId, x);
  }

  lemma TakenOutItems(bk: Book, b: BarrierId, x: Item)
    requires b in bk.table.records && b < bk.table.nextId && bk.table.records[b].remaining <= 1
    ensures BookItems(TakeOut(bk, b))[x] + RecordItems(b, bk.table.records[b], bk.covers)[x] == BookItems(bk)[x]
  {
    TableChange(bk.table, TakeOut(bk, b).table, bk.covers, bk.covers, bk.table.nextId, b, x);
  }

  lemma RecordHeld(w: World, bk: Book, t: multiset<Item>, b: BarrierId, u: Unit)
    requires Inv(w, bk, t) && t[Pay(b, u)] > 0
    ensures b in bk.table.records && b in bk.due && b < bk.table.nextId
    ensures bk.table.records[b].Batch? && w.order.PostOrder? ==> b in bk.covers
  {
    PayFindsRecord(w, bk, t, b, u);
    assert BarrierOk(w, bk, t, b);
  }

  lemma PaysOne(w: World, bk: Book, fl: Flags, stopped: bool, r: multiset<Item>, b: BarrierId, u: Unit)
    requires StepPre(w, bk, fl, Notifying(b, u), stopped, r)
    requires b in bk.table.records && b in bk.due && b < bk.table.nextId && bk.table.records[b].remaining > 1
    ensures StepOk(w, bk, fl, stopped, Becomes(PayOne(bk, b, u), fl, []), r)
  {
    hide Inv, FrameItems, BookItems, EffectItems, StepPre, StepOk, Fits, Turns, Traded, Finish;
    var f, e := Notifying(b, u), Becomes(PayOne(bk, b, u), fl, []);
    Given(w, bk, fl, f, stopped, r);
    assert e.book.table == Finish(bk.table, b).0 && e.book.covers == bk.covers;
    hide PayOne;
    forall x: Item ensures Turns(bk, f, e, multiset{Pay(b, u)}, multiset{}, x) { PayTurns(bk, fl, b, u, x); }
    Turned(bk, f, e, multiset{Pay(b, u)}, multiset{}, r);
    NotifyingAt(b, u, Pay(b, u));
    PayStep(w, bk, r + BookItems(bk) + FrameItems(f), r + EffectItems(e), b, u);
    FitsNone(w, fl, e.book);
    Concludes(w, bk, fl, stopped, e, r);
  }

  lemma PayTurns(bk: Book, fl: Flags, b: BarrierId, u: Unit, x: Item)
    requires b in bk.table.records && b < bk.table.nextId && bk.table.records[b].remaining > 1
    ensures Turns(bk, Notifying(b, u), Becomes(PayOne(bk, b, u), fl, []), multiset{Pay(b, u)}, multiset{}, x)
  {
    hide FrameItems, BookItems, EffectItems;
    var e := Becomes(PayOne(bk, b, u), fl, []);
    EffectAt(e, x);
    NotifyingAt(b, u, x);
    PaidItems(bk, e.book, b, x);
  }

  lemma ResumeAt(p: Place, notify: Option<BarrierId>, x: Item)
    ensures TaskItems(PostOrderResume(p, notify))[x] == multiset{Ready(p)}[x] + EachOwes(notify, [[p]])[x]
  {
    hide EachOwes;
    ClaimAt(TaskClaim(PostOrderResume(p, notify)), x);
    FreshAllCounts([], x);
  }

  lemma ResumeTurns(bk: Book, fl: Flags, b: BarrierId, u: Unit, x: Item)
    requires b in bk.table.records && b < bk.table.nextId && bk.table.records[b].remaining <= 1
    requires bk.table.records[b].Directory?
    ensures var rec := bk.table.records[b];
      Turns(bk, Notifying(b, u),
            Effect(TakeOut(bk, b), fl, [], Some(PostOrderResume(rec.entry, rec.notify)), multiset{}, false, false),
            multiset{Pay(b, u), Waiting(rec.entry)}, multiset{Ready(rec.entry)}, x)
  {
    var rec := bk.table.records[b];
    var e := Effect(TakeOut(bk, b), fl, [], Some(PostOrderResume(rec.entry, rec.notify)), multiset{}, false, false);
    hide FrameItems, BookItems, TakeOut, TaskItems, EachOwes;
    EffectAt(e, x);
    NotifyingAt(b, u, x);
    TakenOutItems(bk, b, x);
    ResumeAt(rec.entry, rec.notify, x);
  }

  /** The last notification for a directory sends it on to be evaluated. */
  function Resumption(bk: Book, fl: Flags, b: BarrierId, p: Place, notify: Option<BarrierId>): Effect {
    Effect(TakeOut(bk, b), fl, [], Some(PostOrderResume(p, notify)), multiset{}, false, false)
  }

  lemma ResumesDirectory(w: World, bk: Book, fl: Flags, stopped: bool, r: multiset<Item>, b: BarrierId, u: Unit)
    requires StepPre(w, bk, fl, Notifying(b, u), stopped, r)
    requires b in bk.table.records && b in bk.due && b < bk.table.nextId && bk.table.records[b].remaining <= 1
    requires bk.table.records[b].Directory?
    ensures StepOk(w, bk, fl, stopped, Resumption(bk, fl, b, bk.table.records[b].entry, bk.table.records[b].notify), r)
  {
    hide Inv, FrameItems, BookItems, TakeOut, TaskItems, EffectItems, EachOwes, StepPre, StepOk, Fits, Turns, Traded;
    var f, rec := Notifying(b, u), bk.table.records[b];
    var p := rec.entry;
    var e := Resumption(bk, fl, b, p, rec.notify);
    Given(w, bk, fl, f, stopped, r);
    assert Fits(w, fl, e) by { ResumptionFits(w, fl, bk, b, p, rec.notify); }
    var t, a, c := r + BookItems(bk) + FrameItems(f), multiset{Pay(b, u), Waiting(p)}, multiset{Ready(p)};
    forall x: Item ensures Turns(bk, f, e, a, c, x) { ResumeTurns(bk, fl, b, u, x); }
    Turned(bk, f, e, a, c, r);
    NotifyingAt(b, u, Pay(b, u));
    TakenOutItems(bk, b, Waiting(p));
    ReleaseDirectoryStep(w, bk, t, r + EffectItems(e), b, u);
    Concludes(w, bk, fl, stopped, e, r);
  }

  lemma ResumptionFits(w: World, fl: Flags, bk: Book, b: BarrierId, p: Place, notify: Option<BarrierId>)
    requires w.order.PostOrder? && (!fl.accepting ==> fl.quit || fl.fatal)
    ensures Fits(w, fl, Resumption(bk, fl, b, p, notify))
  {
  }

  lemma ReleaseTurns(bk: Book, fl: Flags, b: BarrierId, u: Unit, x: Item)
    requires b in bk.table.records && b < bk.table.nextId && bk.table.records[b].remaining <= 1
    requires bk.table.records[b].Batch? && b in bk.covers
    ensures var parent, v := bk.table.records[b].parent, bk.covers[b];
      Turns(bk, Notifying(b, u), Becomes(TakeOut(bk, b), fl, [Notifying(parent, v)]),
            multiset{Pay(b, u), Owe(parent, v)}, multiset{Pay(parent, v)}, x)
  {
    var parent, v := bk.table.records[b].parent, bk.covers[b];
    var g := Notifying(parent, v);
    hide FrameItems, FramesItems, BookItems, TakeOut;
    EffectAt(Becomes(TakeOut(bk, b), fl, [g]), x);
    One(g, x);
    NotifyingAt(b, u, x);
    NotifyingAt(parent, v, x);
    TakenOutItems(bk, b, x);
  }

  lemma ReleasesBatch(w: World, bk: Book, fl: Flags, stopped: bool, r: multiset<Item>, b: BarrierId, u: Unit)
    requires StepPre(w, bk, fl, Notifying(b, u), stopped, r)
    requires b in bk.table.records && b in bk.due && b < bk.table.nextId && bk.table.records[b].remaining <= 1
    requires bk.table.records[b].Batch? && b in bk.covers
    ensures StepOk(w, bk, fl, stopped,
                   Becomes(TakeOut(bk, b), fl, [Notifying(bk.table.records[b].parent, bk.covers[b])]), r)
  {
    hide Inv, FrameItems, FramesItems, BookItems, TakeOut, EffectItems, StepPre, StepOk, Fits, Turns, Traded;
    var f, parent, v := Notifying(b, u), bk.table.records[b].parent, bk.covers[b];
    var e := Becomes(TakeOut(bk, b), fl, [Notifying(parent, v)]);
    Given(w, bk, fl, f, stopped, r);
    FitsOne(w, fl, TakeOut(bk, b), Notifying(parent, v));
    var t, a, c := r + BookItems(bk) + FrameItems(f), multiset{Pay(b, u), Owe(parent, v)}, multiset{Pay(parent, v)};
    forall x: Item ensures Turns(bk, f, e, a, c, x) { ReleaseTurns(bk, fl, b, u, x); }
    Turned(bk, f, e, a, c, r);
    NotifyingAt(b, u, Pay(b, u));
    TakenOutItems(bk, b, Owe(parent, v));
    ReleaseBatchStep(w, bk, t, r + EffectItems(e), b, u);
    Concludes(w, bk, fl, stopped, e, r);
  }

  lemma NotifyingOk(w: World, bk: Book, fl: Flags, stopped: bool, r: multiset<Item>, b: BarrierId, u: Unit)
    requires StepPre(w, bk, fl, Notifying(b, u), stopped, r)
    ensures StepOk(w, bk, fl, stopped, StepNotifying(bk, fl, b, u), r)
  {
    hide Inv, ClaimItems, BookItems, TakeOut, PayOne, StepOk;
    NotifyingAt(b, u, Pay(b, u));
    RecordHeld(w, bk, r + BookItems(bk) + FrameItems(Notifying(b, u)), b, u);
    var rec := bk.table.records[b];
    if rec.remaining > 1 { PaysOne(w, bk, fl, stopped, r, b, u); }
    else if rec.Directory? { ResumesDirectory(w, bk, fl, stopped, r, b, u); }
    else { ReleasesBatch(w, bk, fl, stopped, r, b, u); }
  }
}
