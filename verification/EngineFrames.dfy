/** One step of one frame, seen from the ledger. */
module EngineFrames {
  import opened Basics
  import opened Places
  import opened Barriers
  import opened Ledger
  import opened Engine
  import C = Chunking

  // ----- The barrier table as items -----

  function RecordItems(b: BarrierId, r: Record<Place>, covers: map<BarrierId, Unit>): multiset<Item> {
    match r
    case Directory(p, _, notify) => multiset{Waiting(p)} + EachOwes(notify, [[p]])
    case Batch(_, parent) => multiset{Owe(parent, if b in covers then covers[b] else [])}
  }

  function SlotItems(t: Table<Place>, covers: map<BarrierId, Unit>, b: BarrierId): multiset<Item> {
    if b in t.records then RecordItems(b, t.records[b], covers) else multiset{}
  }

  function TableItems(t: Table<Place>, covers: map<BarrierId, Unit>, n: nat): multiset<Item> {
    if n == 0 then multiset{} else TableItems(t, covers, n - 1) + SlotItems(t, covers, n - 1)
  }

  function BookItems(bk: Book): multiset<Item> {
    TableItems(bk.table, bk.covers, bk.table.nextId)
  }

  lemma {:induction false} TableSame(t: Table<Place>, t': Table<Place>, covers: map<BarrierId, Unit>,
                                     covers': map<BarrierId, Unit>, n: nat, x: Item)
    requires forall b: BarrierId :: b < n ==> SlotItems(t', covers', b)[x] == SlotItems(t, covers, b)[x]
    ensures TableItems(t', covers', n)[x] == TableItems(t, covers, n)[x]
  {
    hide SlotItems;
    if n > 0 { TableSame(t, t', covers, covers', n - 1, x); }
  }

  lemma {:induction false} TableChange(t: Table<Place>, t': Table<Place>, covers: map<BarrierId, Unit>,
                                       covers': map<BarrierId, Unit>, n: nat, b: BarrierId, x: Item)
    requires b < n
    requires forall d: BarrierId :: d < n && d != b ==> SlotItems(t', covers', d)[x] == SlotItems(t, covers, d)[x]
    ensures TableItems(t', covers', n)[x] + SlotItems(t, covers, b)[x]
            == TableItems(t, covers, n)[x] + SlotItems(t', covers', b)[x]
  {
    hide SlotItems;
    if b == n - 1 {
      TableSame(t, t', covers, covers', n - 1, x);
    } else {
      TableChange(t, t', covers, covers', n - 1, b, x);
    }
  }

  // ----- What holds of a frame at any time -----

  ghost predicate TaskOk(w: World, t: Task) {
    match t
    case Root(_) => true
    case SiblingChunk(ps, completion) =>
      if completion.Some? then ps != [] && w.order.PostOrder? else w.order.PreOrder?
    case PostOrderResume(_, _) => w.order.PostOrder?
  }

  /** The accumulator holds the places ps, in some order. */
  ghost predicate AccIs(a: Acc, ps: seq<Place>) {
    FreshAll(a.local + a.buffer) + FreshUnits(a.spilled) == FreshAll(ps)
  }

  ghost predicate ChunksOk(chunks: seq<Unit>) {
    forall i :: 0 <= i < |chunks| ==> chunks[i] != []
  }

  ghost predicate FrameOk(w: World, f: Frame) {
    match f
    case BatchStart(ps, completion) => w.order.PostOrder? && (completion.Some? ==> ps != [])
    case BatchRecord(id, ps, parent) => w.order.PostOrder? && ps != [] && parent < id
    case Listing(p, _, k, acc) =>
      && w.order.PostOrder?
      && w.visit(p).Readable? && w.visit(p).expansion.Lists? && k <= w.visit(p).expansion.children
      && AccIs(acc, Children(p, k)) && ChunksOk(acc.spilled)
    case OpenRecord(id, p, notify, plan) =>
      && w.order.PostOrder?
      && (notify.Some? ==> notify.value < id)
      && Units(plan) != [] && ChunksOk(Units(plan))
      && FreshUnits(Units(plan)) == FreshAll(Children(p, Kids(w, p)))
    case SpillCheck(chunks, _) => w.order.PostOrder? && ChunksOk(chunks)
    case Publishing(chunks, completion) =>
      ChunksOk(chunks) && (if completion.Some? then w.order.PostOrder? else w.order.PreOrder?)
    case PreLoop(_) => w.order.PreOrder?
    case PreVisiting(_, _) => w.order.PreOrder?
    case PreEvaluating(p, _) => w.order.PreOrder? && w.visit(p).Readable?
    case PreQuitting(_, _) => w.order.PreOrder?
    case PreDescending(p, _) => w.order.PreOrder? && w.visit(p).Readable?
    case PreListing(p, k, acc, _) =>
      && w.order.PreOrder? && ChunksOk(acc.spilled)
      && w.visit(p).Readable? && w.visit(p).expansion.Lists? && k <= w.visit(p).expansion.children
    case PreOffering(p, k, acc, _) =>
      && w.order.PreOrder? && ChunksOk(acc.spilled)
      && w.visit(p).Readable? && w.visit(p).expansion.Lists? && k <= w.visit(p).expansion.children
    case _ => w.order.PostOrder?
  }

  /** Between the two stores of request_quit the first one is visible. */
  ghost predicate QuitOk(fl: Flags, f: Frame) {
    f.Quitting? || f.PreQuitting? ==> fl.quit
  }

  ghost predicate FramesOk(w: World, fl: Flags, fs: seq<Frame>) {
    forall i :: 0 <= i < |fs| ==> FrameOk(w, fs[i]) && QuitOk(fl, fs[i])
  }

  function PushItems(push: Option<Task>): multiset<Item> {
    match push case None => multiset{} case Some(t) => TaskItems(t)
  }

  function EffectItems(e: Effect): multiset<Item> {
    BookItems(e.book) + FramesItems(e.replace) + PushItems(e.push) + e.dropped
  }

  /** What a frame step owes its surroundings, whatever else (r) is around. */
  ghost predicate StepOk(w: World, bk: Book, fl: Flags, stopped: bool, e: Effect, r: multiset<Item>) {
    && Inv(w, e.book, r + EffectItems(e))
    && FramesOk(w, e.flags, e.replace)
    && (e.push.Some? ==> TaskOk(w, e.push.value))
    && EffectItems(e)[Job] == 0 && EffectItems(e)[Doom] == 0
    && (e.dropped != multiset{} ==> e.fail || e.flags.quit || e.flags.fatal)
    && (e.stop ==> e.flags.quit)
    && (fl.quit ==> e.flags.quit) && (fl.fatal ==> e.flags.fatal)
    && (!e.flags.accepting ==> e.flags.quit || e.flags.fatal)
  }

  /** What is known when a frame is about to step. */
  ghost predicate StepPre(w: World, bk: Book, fl: Flags, f: Frame, stopped: bool, r: multiset<Item>) {
    && FrameOk(w, f) && QuitOk(fl, f)
    && Inv(w, bk, r + BookItems(bk) + FrameItems(f))
    && (stopped ==> fl.quit)
    && (!fl.accepting ==> fl.quit || fl.fatal)
    && BookItems(bk)[Job] == 0 && BookItems(bk)[Doom] == 0
  }

  // ----- Counting inside one frame -----

  predicate JobFree(m: multiset<Item>) {
    m[Job] == 0 && m[Doom] == 0
  }

  predicate IsJob(x: Item) {
    x.Job? || x.Doom?
  }

  lemma {:induction false} UnitsJobFree(units: seq<Unit>, x: Item)
    requires IsJob(x)
    ensures FreshUnits(units)[x] == 0
  {
    if units != [] {
      var rest, u := units[..|units| - 1], units[|units| - 1];
      UnitsJobFree(rest, x);
      FreshAllCounts(u, x);
      assert FreshUnits(units)[x] == FreshUnits(rest)[x] + FreshAll(u)[x];
    }
  }

  lemma ClaimAt(c: Claim, x: Item)
    ensures ClaimItems(c)[x] == multiset(c.own)[x] + FreshAll(c.stock)[x] + FreshUnits(c.chunks)[x] + EachOwes(c.debtor, c.debts)[x]
  {
  }

  lemma ClaimJobFree(c: Claim, x: Item)
    requires IsJob(x) && x !in c.own
    ensures ClaimItems(c)[x] == 0
  {
    hide ClaimItems, FreshAll, FreshUnits, OweAll;
    FreshAllCounts(c.stock, x);
    UnitsJobFree(c.chunks, x);
    if c.debtor.Some? { OweAllCounts(c.debtor.value, c.debts, x); }
    ClaimAt(c, x);
  }

  lemma TaskJobFree(t: Task, x: Item)
    requires IsJob(x)
    ensures TaskItems(t)[x] == 0
  {
    assert x !in TaskClaim(t).own;
    hide TaskClaim, ClaimItems;
    ClaimJobFree(TaskClaim(t), x);
  }

  lemma FrameJobFree(f: Frame, x: Item)
    requires IsJob(x)
    ensures FrameItems(f)[x] == 0
  {
    hide FrameClaim, ClaimItems;
    FrameOwnsNoJob(f, x);
    ClaimJobFree(FrameClaim(f), x);
  }

  lemma FrameOwnsNoJob(f: Frame, x: Item)
    requires IsJob(x)
    ensures x !in FrameClaim(f).own
  {
    hide ClaimItems, FreshAll, FreshUnits, EachOwes, OweAll, FrameItems;
    match f
    case BatchRecord(id, _, _) => assert FrameClaim(f).own == [Id(id)];
    case OpenRecord(id, p, _, _) => assert FrameClaim(f).own == [Fresh(p), Id(id)];
    case _ =>
  }

  /** Inside one frame step the items of a go and those of c come. */
  ghost predicate Turns(bk: Book, f: Frame, e: Effect, a: multiset<Item>, c: multiset<Item>, x: Item) {
    EffectItems(e)[x] + a[x] == BookItems(bk)[x] + FrameItems(f)[x] + c[x]
  }

  lemma TurnedAt(b: multiset<Item>, f: multiset<Item>, e: multiset<Item>, a: multiset<Item>, c: multiset<Item>,
                 r: multiset<Item>, x: Item)
    requires e[x] + a[x] == b[x] + f[x] + c[x]
    ensures TradedAt(r + b + f, r + e, a, c, x)
  {
  }

  lemma Turned(bk: Book, f: Frame, e: Effect, a: multiset<Item>, c: multiset<Item>, r: multiset<Item>)
    requires forall x: Item :: Turns(bk, f, e, a, c, x)
    requires JobFree(a) && JobFree(c) && JobFree(BookItems(bk))
    ensures Traded(r + BookItems(bk) + FrameItems(f), r + EffectItems(e), a, c)
    ensures JobFree(EffectItems(e))
  {
    var b, g, h := BookItems(bk), FrameItems(f), EffectItems(e);
    forall x: Item ensures TradedAt(r + b + g, r + h, a, c, x) {
      assert Turns(bk, f, e, a, c, x);
      TurnedAt(b, g, h, a, c, r, x);
    }
    FrameJobFree(f, Job);
    FrameJobFree(f, Doom);
    assert Turns(bk, f, e, a, c, Job) && Turns(bk, f, e, a, c, Doom);
  }

  lemma SameTally(t: multiset<Item>, t': multiset<Item>)
    requires Traded(t, t', multiset{}, multiset{})
    ensures t == t'
  {
    forall x: Item ensures t[x] == t'[x] { assert TradedAt(t, t', multiset{}, multiset{}, x); }
  }

  /** Nothing of account changes. */
  lemma Unturned(w: World, bk: Book, f: Frame, e: Effect, r: multiset<Item>)
    requires e.book == bk && Inv(w, bk, r + BookItems(bk) + FrameItems(f))
    requires forall x: Item :: Turns(bk, f, e, multiset{}, multiset{}, x)
    requires JobFree(BookItems(bk))
    ensures Inv(w, bk, r + EffectItems(e))
    ensures JobFree(EffectItems(e))
  {
    Turned(bk, f, e, multiset{}, multiset{}, r);
    SameTally(r + BookItems(bk) + FrameItems(f), r + EffectItems(e));
  }

  lemma One(f: Frame, x: Item)
    ensures FramesItems([f])[x] == FrameItems(f)[x]
  {
    var m := FrameItems(f);
    assert FramesItems([f])[x] == m[x] + FramesItems([f][1..])[x];
  }

  lemma Two(f: Frame, g: Frame, x: Item)
    ensures FramesItems([f, g])[x] == FrameItems(f)[x] + FrameItems(g)[x]
  {
    var m := FrameItems(f);
    assert [f, g][1..] == [g];
    assert FramesItems([f, g])[x] == m[x] + FramesItems([g])[x];
    One(g, x);
  }

  lemma FreshFirst(ps: seq<Place>, x: Item)
    requires ps != []
    ensures FreshAll(ps)[x] == multiset{Fresh(ps[0])}[x] + FreshAll(ps[1..])[x]
  {
    hide FreshAll;
    FreshAllCounts(ps, x);
    FreshAllCounts(ps[1..], x);
    assert ps == [ps[0]] + ps[1..];
  }

  lemma OweFirst(b: BarrierId, us: seq<Unit>, x: Item)
    requires us != []
    ensures OweAll(b, us)[x] == multiset{Owe(b, us[0])}[x] + OweAll(b, us[1..])[x]
  {
    hide OweAll;
    OweAllCounts(b, us, x);
    OweAllCounts(b, us[1..], x);
    assert us == [us[0]] + us[1..];
  }

  lemma {:induction false} FreshUnitsFirst(us: seq<Unit>, x: Item)
    requires us != []
    ensures FreshUnits(us)[x] == FreshAll(us[0])[x] + FreshUnits(us[1..])[x]
  {
    var n := |us| - 1;
    var last := FreshAll(us[n]);
    assert FreshUnits(us)[x] == FreshUnits(us[..n])[x] + last[x];
    if n > 0 {
      FreshUnitsFirst(us[..n], x);
      assert us[1..][..n - 1] == us[..n][1..] && us[1..][n - 1] == us[n];
      assert FreshUnits(us[1..])[x] == FreshUnits(us[1..][..n - 1])[x] + last[x];
    }
  }

  lemma FreshConcat(ps: seq<Place>, qs: seq<Place>, x: Item)
    ensures FreshAll(ps + qs)[x] == FreshAll(ps)[x] + FreshAll(qs)[x]
  {
    hide FreshAll;
    FreshAllCounts(ps, x);
    FreshAllCounts(qs, x);
    FreshAllCounts(ps + qs, x);
  }

  lemma FreshUnitsLast(us: seq<Unit>, u: Unit, x: Item)
    ensures FreshUnits(us + [u])[x] == FreshUnits(us)[x] + FreshAll(u)[x]
  {
    hide FreshAll;
    assert (us + [u])[..|us|] == us;
  }

  // ----- Effects -----

  lemma EffectAt(e: Effect, x: Item)
    ensures EffectItems(e)[x] == BookItems(e.book)[x] + FramesItems(e.replace)[x] + PushItems(e.push)[x] + e.dropped[x]
  {
    hide BookItems, FramesItems, PushItems;
  }

  lemma FrameAt(f: Frame, x: Item)
    ensures FrameItems(f)[x] == var c := FrameClaim(f);
      multiset(c.own)[x] + FreshAll(c.stock)[x] + FreshUnits(c.chunks)[x] + EachOwes(c.debtor, c.debts)[x]
  {
    hide FreshAll, FreshUnits, EachOwes, FrameClaim;
  }

  /** f turns into frames of the same weight; the book may have grown. */
  lemma OnlyFrames(bk: Book, bk': Book, fl: Flags, f: Frame, fs: seq<Frame>, a: multiset<Item>, c: multiset<Item>, x: Item)
    requires BookItems(bk') == BookItems(bk)
    requires FramesItems(fs)[x] + a[x] == FrameItems(f)[x] + c[x]
    ensures Turns(bk, f, Becomes(bk', fl, fs), a, c, x)
  {
    hide BookItems, FramesItems, FrameItems;
    EffectAt(Becomes(bk', fl, fs), x);
  }

  /** f turns into a frame with the same responsibilities. */
  lemma SameClaim(w: World, bk: Book, fl: Flags, fl': Flags, f: Frame, g: Frame, stopped: bool, r: multiset<Item>)
    requires StepPre(w, bk, fl, f, stopped, r)
    requires FrameClaim(g) == FrameClaim(f) && FrameOk(w, g) && QuitOk(fl', g)
    requires (fl.quit ==> fl'.quit) && (fl.fatal ==> fl'.fatal) && (!fl'.accepting ==> fl'.quit || fl'.fatal)
    ensures StepOk(w, bk, fl, stopped, Becomes(bk, fl', [g]), r)
  {
    hide Inv, BookItems, ClaimItems, FrameOk;
    forall x: Item ensures Turns(bk, f, Becomes(bk, fl', [g]), multiset{}, multiset{}, x) {
      One(g, x);
      OnlyFrames(bk, bk, fl', f, [g], multiset{}, multiset{}, x);
    }
    Unturned(w, bk, f, Becomes(bk, fl', [g]), r);
  }

  /** The call gives up and its responsibilities are lost. */
  lemma GivesUp(w: World, bk: Book, fl: Flags, f: Frame, stopped: bool, fail: bool, r: multiset<Item>)
    requires StepPre(w, bk, fl, f, stopped, r)
    requires fail || fl.quit || fl.fatal
    ensures StepOk(w, bk, fl, stopped, Effect(bk, fl, [], None, FrameItems(f), false, fail), r)
  {
    hide Inv, BookItems, ClaimItems, FrameOk;
    var e := Effect(bk, fl, [], None, FrameItems(f), false, fail);
    forall x: Item ensures Turns(bk, f, e, multiset{}, multiset{}, x) { EffectAt(e, x); }
    Unturned(w, bk, f, e, r);
  }

  lemma ReserveItems(w: World, bk: Book, t: multiset<Item>)
    requires Inv(w, bk, t)
    ensures BookItems(bk.(table := Reserve(bk.table))) == BookItems(bk)
  {
    assert BarrierOk(w, bk, t, bk.table.nextId);
    var t' := Reserve(bk.table);
    forall x: Item ensures TableItems(t', bk.covers, bk.table.nextId)[x] == BookItems(bk)[x] {
      TableSame(bk.table, t', bk.covers, bk.covers, bk.table.nextId, x);
    }
    assert TableItems(t', bk.covers, bk.table.nextId) == BookItems(bk);
  }

  /** Whoever owes a barrier a notification knows a barrier that exists. */
  lemma ParentKnown(w: World, bk: Book, t: multiset<Item>, b: BarrierId, u: Unit)
    requires Inv(w, bk, t) && t[Owe(b, u)] > 0
    ensures b in bk.table.records && b < bk.table.nextId
  {
    assert SlotOk(w, bk, t, b, u) && BarrierOk(w, bk, t, b);
  }
}
