/** Every schedule of the parallel engine over a tree of bounded height is
    finite: each step lowers a measure that is known at the start. */
module EngineMeasure {
  import opened Basics
  import opened Places
  import opened Barriers
  import opened Ledger
  import opened Engine
  import opened EngineFrames
  import opened EngineRuns
  import C = Chunking

  // ----- The weight of a subtree -----

  ghost predicate Bounded(w: World, height: nat) {
    forall p: Place :: |p| >= height ==> Span(w, p) == 0
  }

  function Weight(w: World, p: Place, fuel: nat): nat
    decreases fuel, 0
  {
    if fuel == 0 then 50 else 50 + Brood(w, p, Span(w, p), fuel - 1)
  }

  /** The first k children of p. */
  function Brood(w: World, p: Place, k: nat, fuel: nat): nat
    decreases fuel, k
  {
    if k == 0 then 0 else Brood(w, p, k - 1, fuel) + Weight(w, p + [k - 1], fuel) + 30
  }

  /** An upper bound of the steps needed for the subtree at p. */
  function Value(w: World, h: nat, p: Place): nat {
    Weight(w, p, if |p| <= h then h - |p| else 0)
  }

  /** The children of p from number k on. */
  function Rest(w: World, h: nat, p: Place, k: nat): nat
    decreases Span(w, p) - k
  {
    if k >= Span(w, p) then 0 else Value(w, h, p + [k]) + 30 + Rest(w, h, p, k + 1)
  }

  lemma {:induction false} BroodIsRest(w: World, h: nat, p: Place, k: nat)
    requires k <= Span(w, p) && |p| < h
    ensures Brood(w, p, k, h - |p| - 1) + Rest(w, h, p, k) == Rest(w, h, p, 0)
    decreases k
  {
    if k > 0 {
      BroodIsRest(w, h, p, k - 1);
      assert |p + [k - 1]| == |p| + 1;
    }
  }

  lemma ValueOf(w: World, h: nat, p: Place)
    requires Bounded(w, h)
    ensures Value(w, h, p) == 50 + Rest(w, h, p, 0)
  {
    if |p| < h {
      BroodIsRest(w, h, p, Span(w, p));
    } else {
      assert Span(w, p) == 0;
    }
  }

  function Load(w: World, h: nat, ps: seq<Place>): nat {
    if ps == [] then 0 else Value(w, h, ps[0]) + Load(w, h, ps[1..])
  }

  lemma {:induction false} LoadConcat(w: World, h: nat, ps: seq<Place>, qs: seq<Place>)
    ensures Load(w, h, ps + qs) == Load(w, h, ps) + Load(w, h, qs)
  {
    if ps == [] {
      assert ps + qs == qs;
    } else {
      assert (ps + qs)[0] == ps[0] && (ps + qs)[1..] == ps[1..] + qs;
      LoadConcat(w, h, ps[1..], qs);
    }
  }

  lemma LoadOne(w: World, h: nat, p: Place)
    ensures Load(w, h, [p]) == Value(w, h, p)
  {
    assert Load(w, h, [p][1..]) == 0;
  }

  // ----- The cost of chunks -----

  /** Children found and not yet made into tasks. */
  function Found(w: World, h: nat, ps: seq<Place>): nat {
    Load(w, h, ps) + 25 * |ps|
  }

  function FoundAll(w: World, h: nat, chunks: seq<Unit>): nat {
    if chunks == [] then 0 else Found(w, h, chunks[0]) + FoundAll(w, h, chunks[1..])
  }

  function AccCost(w: World, h: nat, acc: Acc): nat {
    Found(w, h, acc.local) + Found(w, h, acc.buffer) + FoundAll(w, h, acc.spilled)
  }

  function PlanCost(w: World, h: nat, plan: C.Plan<Place>): nat {
    Found(w, h, plan.local) + FoundAll(w, h, plan.spilled)
  }

  /** Publishing, queueing and entering a chunk. */
  function ChunkCost(w: World, h: nat, chunk: Unit): nat {
    23 + Load(w, h, chunk)
  }

  function ChunksCost(w: World, h: nat, chunks: seq<Unit>): nat {
    if chunks == [] then 0 else ChunkCost(w, h, chunks[0]) + ChunksCost(w, h, chunks[1..])
  }

  lemma {:induction false} ChunksWithin(w: World, h: nat, chunks: seq<Unit>)
    requires ChunksOk(chunks)
    ensures ChunksCost(w, h, chunks) <= FoundAll(w, h, chunks)
  {
    if chunks != [] {
      assert ChunksOk(chunks[1..]);
      ChunksWithin(w, h, chunks[1..]);
      assert chunks[0] != [];
    }
  }

  lemma {:induction false} FoundAllConcat(w: World, h: nat, us: seq<Unit>, vs: seq<Unit>)
    ensures FoundAll(w, h, us + vs) == FoundAll(w, h, us) + FoundAll(w, h, vs)
  {
    hide Found;
    if us == [] {
      assert us + vs == vs;
    } else {
      assert (us + vs)[0] == us[0] && (us + vs)[1..] == us[1..] + vs;
      FoundAllConcat(w, h, us[1..], vs);
    }
  }

  lemma FoundConcat(w: World, h: nat, ps: seq<Place>, qs: seq<Place>)
    ensures Found(w, h, ps + qs) == Found(w, h, ps) + Found(w, h, qs)
  {
    LoadConcat(w, h, ps, qs);
  }

  lemma FoundAllOne(w: World, h: nat, u: Unit)
    ensures FoundAll(w, h, [u]) == Found(w, h, u)
  {
    assert FoundAll(w, h, [u][1..]) == 0;
  }

  lemma FoundNone(w: World, h: nat)
    ensures Found(w, h, []) == 0
  {
  }

  lemma PushCost(w: World, h: nat, acc: Acc, child: Place, maySplit: bool, threshold: nat, size: nat)
    ensures AccCost(w, h, C.Push(acc, child, maySplit, threshold, size)) == AccCost(w, h, acc) + Value(w, h, child) + 25
  {
    LoadOne(w, h, child);
    FoundConcat(w, h, acc.local, [child]);
    FoundConcat(w, h, acc.buffer, [child]);
    FoundAllConcat(w, h, acc.spilled, [acc.buffer + [child]]);
    FoundAllOne(w, h, acc.buffer + [child]);
    FoundNone(w, h);
  }

  lemma {:induction false} FlattenCost(w: World, h: nat, chunks: seq<Unit>)
    ensures Found(w, h, C.Flatten(chunks)) == FoundAll(w, h, chunks)
  {
    hide Found;
    if chunks == [] {
      FoundNone(w, h);
    } else {
      var n := |chunks| - 1;
      FlattenCost(w, h, chunks[..n]);
      FoundConcat(w, h, C.Flatten(chunks[..n]), chunks[n]);
      assert chunks == chunks[..n] + [chunks[n]];
      FoundAllConcat(w, h, chunks[..n], [chunks[n]]);
      FoundAllOne(w, h, chunks[n]);
    }
  }

  lemma DrainCost(w: World, h: nat, acc: Acc)
    ensures AccCost(w, h, C.ObserveQuit(acc)) == AccCost(w, h, acc)
  {
    hide Found, C.Flatten;
    FlattenCost(w, h, acc.spilled);
    FoundConcat(w, h, acc.local, C.Flatten(acc.spilled));
    FoundConcat(w, h, acc.local + C.Flatten(acc.spilled), acc.buffer);
    FoundNone(w, h);
  }

  lemma FinishCost(w: World, h: nat, acc: Acc)
    ensures PlanCost(w, h, C.Finish(acc)) == AccCost(w, h, acc)
  {
    hide Found;
    FoundAllConcat(w, h, acc.spilled, [acc.buffer]);
    FoundAllOne(w, h, acc.buffer);
    FoundNone(w, h);
  }

  // ----- The measure -----

  function FrameCost(w: World, h: nat, f: Frame): nat {
    match f
    case BatchStart(ps, _) => 15 + Load(w, h, ps)
    case BatchRecord(_, ps, _) => 14 + Load(w, h, ps)
    case BatchLoop(ps, _) => 1 + Load(w, h, ps)
    case Visiting(p, _) => 49 + Rest(w, h, p, 0)
    case Listing(p, _, k, acc) => 20 + Rest(w, h, p, k) + AccCost(w, h, acc)
    case OpenRecord(_, _, _, plan) => 19 + PlanCost(w, h, plan)
    case SpillCheck(chunks, _) => 3 + ChunksCost(w, h, chunks)
    case Publishing(chunks, _) => 2 + ChunksCost(w, h, chunks)
    case Completing(_, _, _) => 4
    case Evaluating(_, _, _) => 3
    case Quitting(_, _, _) => 2
    case Notifying(_, _) => 1
    case PreLoop(ps) => 1 + Load(w, h, ps)
    case PreVisiting(p, ps) => 50 + Rest(w, h, p, 0) + Load(w, h, ps)
    case PreEvaluating(p, ps) => 40 + Rest(w, h, p, 0) + Load(w, h, ps)
    case PreQuitting(p, ps) => 39
    case PreDescending(p, ps) => 30 + Rest(w, h, p, 0) + Load(w, h, ps)
    case PreListing(p, k, acc, ps) => 20 + Rest(w, h, p, k) + AccCost(w, h, acc) + Load(w, h, ps)
    case PreOffering(p, k, acc, ps) => 24 + Rest(w, h, p, k) + AccCost(w, h, acc) + Load(w, h, ps)
  }

  function FramesCost(w: World, h: nat, fs: seq<Frame>): nat {
    if fs == [] then 0 else FrameCost(w, h, fs[0]) + FramesCost(w, h, fs[1..])
  }

  function TaskCost(w: World, h: nat, t: Task): nat {
    4 + FrameCost(w, h, Enter(w, t))
  }

  function PublishCost(w: World, h: nat, push: Option<Task>): nat {
    match push case None => 0 case Some(t) => 3 + TaskCost(w, h, t)
  }

  function StackCost(w: World, h: nat, s: Stack): nat {
    match s case Bottom => 0 case On(f, below) => FrameCost(w, h, f) + StackCost(w, h, below)
  }

  function WorkerCost(w: World, h: nat, wk: Worker): nat {
    match wk
    case Polling => 4
    case Holding(t) => 3 + TaskCost(w, h, t)
    case Running(stack, _) => 6 + StackCost(w, h, stack)
    case Pushing(phase, t, stack, _) =>
      6 + StackCost(w, h, stack) + TaskCost(w, h, t) + (match phase case CheckAccept => 3 case CountTask => 2 case StoreTask => 1)
    case Closing(failed) => if failed then 3 else 5
    case Failing => 2
    case FailingStore => 1
    case Flushing => 3
    case Exited => 0
  }

  function WorkersCost(w: World, h: nat, ws: seq<Worker>): nat {
    if ws == [] then 0 else WorkersCost(w, h, ws[..|ws| - 1]) + WorkerCost(w, h, ws[|ws| - 1])
  }

  function QueueCost(w: World, h: nat, q: seq<Task>): nat {
    if q == [] then 0 else QueueCost(w, h, q[..|q| - 1]) + TaskCost(w, h, q[|q| - 1])
  }

  /** A record may still lead to one notification or one queued directory. */
  function TableCost(bk: Book): nat {
    11 * |bk.table.records|
  }

  function Measure(w: World, h: nat, s: State): nat {
    WorkersCost(w, h, s.workers) + QueueCost(w, h, s.queue) + TableCost(s.book)
  }

  // ----- A frame step lowers the measure -----

  ghost predicate Drops(w: World, h: nat, bk: Book, f: Frame, e: Effect) {
    FramesCost(w, h, e.replace) + PublishCost(w, h, e.push) + TableCost(e.book) < FrameCost(w, h, f) + TableCost(bk)
  }

  lemma OneCost(w: World, h: nat, f: Frame)
    ensures FramesCost(w, h, [f]) == FrameCost(w, h, f)
  {
    hide FrameCost;
    assert FramesCost(w, h, [f][1..]) == 0;
  }

  lemma TwoCost(w: World, h: nat, f: Frame, g: Frame)
    ensures FramesCost(w, h, [f, g]) == FrameCost(w, h, f) + FrameCost(w, h, g)
  {
    hide FrameCost;
    assert [f, g][1..] == [g];
    OneCost(w, h, g);
  }

  lemma InsertCost(bk: Book, bk': Book, id: BarrierId, r: Record<Place>)
    requires bk'.table == Insert(bk.table, id, r)
    ensures TableCost(bk') <= TableCost(bk) + 11
  {
    var m := bk.table.records;
    assert m[id := r].Keys == m.Keys + {id};
    assert |m[id := r].Keys| <= |m.Keys| + 1;
  }

  lemma FinishedCost(bk: Book, bk': Book, b: BarrierId)
    requires b in bk.table.records && bk'.table == Finish(bk.table, b).0
    ensures TableCost(bk') == TableCost(bk) - if bk.table.records[b].remaining > 1 then 0 else 11
  {
    var m := bk.table.records;
    if m[b].remaining > 1 {
      assert bk'.table.records.Keys == m.Keys;
    } else {
      assert (m - {b}).Keys == m.Keys - {b};
    }
    assert |m| == |m.Keys| && |bk'.table.records| == |bk'.table.records.Keys|;
  }

  lemma BatchDrops(w: World, h: nat, bk: Book, fl: Flags, f: Frame, stopped: bool, c: Choice, e: Effect)
    requires Bounded(w, h) && (f.BatchStart? || f.BatchRecord? || f.BatchLoop?)
    requires FrameStep(w, bk, fl, f, stopped, c) == Some(e)
    ensures Drops(w, h, bk, f, e)
  {
    hide FrameItems, Rest, Bounded, Singles;
    if e.replace != [] { OneCost(w, h, e.replace[0]); }
    match f
    case BatchRecord(id, ps, parent) => InsertCost(bk, e.book, id, Batch(|ps|, parent));
    case BatchLoop(ps, completion) =>
      if ps != [] {
        ValueOf(w, h, ps[0]);
        TwoCost(w, h, Visiting(ps[0], completion), BatchLoop(ps[1..], completion));
      }
    case _ =>
  }

  lemma ListingDrops(w: World, h: nat, bk: Book, fl: Flags, p: Place, notify: Option<BarrierId>, k: nat, acc: Acc, c: Choice, e: Effect)
    requires StepListing(w, bk, fl, p, notify, k, acc, c) == Some(e)
    ensures Drops(w, h, bk, Listing(p, notify, k, acc), e)
  {
    hide FrameItems, Value, AccCost, PlanCost, C.Push, C.Finish, Units;
    if e.replace != [] { OneCost(w, h, e.replace[0]); }
    if k < Span(w, p) {
      PushCost(w, h, acc, p + [k], fl.accepting, C.SPLIT_CHILD_THRESHOLD, C.SPILL_CHUNK_SIZE);
    }
    FinishCost(w, h, acc);
  }

  lemma VisitingDrops(w: World, h: nat, bk: Book, fl: Flags, p: Place, notify: Option<BarrierId>, c: Choice, e: Effect)
    requires StepVisiting(w, bk, fl, p, notify, c) == Some(e)
    ensures Drops(w, h, bk, Visiting(p, notify), e)
  {
    hide FrameItems, FrameCost, FramesCost, PublishCost, Rest;
    VisitingCost(w, h, p, notify);
    NoneCost(w, h);
    if e.replace != [] {
      var f := e.replace[0];
      OneCost(w, h, f);
      if f.Notifying? { NotifyingCost(w, h, f.barrier, f.unit); }
    }
  }

  lemma VisitingCost(w: World, h: nat, p: Place, notify: Option<BarrierId>)
    ensures FrameCost(w, h, Visiting(p, notify)) == 49 + Rest(w, h, p, 0)
    ensures FrameCost(w, h, Completing(p, notify, false)) == 4
    ensures FrameCost(w, h, Listing(p, notify, 0, C.Chunks([], [], []))) == 20 + Rest(w, h, p, 0)
  {
    hide Rest, AccCost;
    NothingFound(w, h);
  }

  lemma OpenRecordDrops(w: World, h: nat, bk: Book, fl: Flags, id: BarrierId, p: Place, notify: Option<BarrierId>, plan: C.Plan<Place>)
    requires ChunksOk(Units(plan))
    ensures Drops(w, h, bk, OpenRecord(id, p, notify, plan), StepOpenRecord(w, bk, fl, id, p, notify, plan))
  {
    hide Value, Load;
    var e := StepOpenRecord(w, bk, fl, id, p, notify, plan);
    assert ChunksOk(plan.spilled) by {
      forall i | 0 <= i < |plan.spilled| ensures plan.spilled[i] != [] {
        assert plan.spilled[i] == Units(plan)[if plan.local == [] then i else i + 1];
      }
    }
    ChunksWithin(w, h, plan.spilled);
    InsertCost(bk, e.book, id, Directory(p, |Units(plan)|, notify));
    var g := SpillCheck(plan.spilled, id);
    if plan.local == [] {
      assert e.replace == [g];
      OneCost(w, h, g);
    } else {
      assert e.replace == [BatchStart(plan.local, Some(id)), g];
      TwoCost(w, h, BatchStart(plan.local, Some(id)), g);
    }
  }

  lemma PublishingDrops(w: World, h: nat, bk: Book, fl: Flags, chunks: seq<Unit>, completion: Option<BarrierId>)
    ensures Drops(w, h, bk, Publishing(chunks, completion), StepPublishing(bk, fl, chunks, completion))
  {
    hide Value;
    if chunks != [] {
      OneCost(w, h, Publishing(chunks[1..], completion));
    }
  }

  lemma NotifyingDrops(w: World, h: nat, bk: Book, fl: Flags, b: BarrierId, u: Unit)
    ensures Drops(w, h, bk, Notifying(b, u), StepNotifying(bk, fl, b, u))
  {
    hide FrameItems, TableCost, FramesCost, PublishCost, FrameCost;
    NotifyingCost(w, h, b, u);
    NoneCost(w, h);
    if b in bk.table.records {
      var r := bk.table.records[b];
      FinishedCost(bk, StepNotifying(bk, fl, b, u).book, b);
      if r.remaining <= 1 {
        if r.Directory? {
          ResumeCost(w, h, r.entry, r.notify);
        } else {
          var v := if b in bk.covers then bk.covers[b] else [];
          OneCost(w, h, Notifying(r.parent, v));
          NotifyingCost(w, h, r.parent, v);
        }
      }
    }
  }

  lemma NotifyingCost(w: World, h: nat, b: BarrierId, u: Unit)
    ensures FrameCost(w, h, Notifying(b, u)) == 1
  {
  }

  lemma NoneCost(w: World, h: nat)
    ensures FramesCost(w, h, []) == 0 && PublishCost(w, h, None) == 0
  {
  }

  lemma ResumeCost(w: World, h: nat, p: Place, notify: Option<BarrierId>)
    ensures PublishCost(w, h, Some(PostOrderResume(p, notify))) == 11
  {
  }

  lemma EvaluationDrops(w: World, h: nat, bk: Book, fl: Flags, f: Frame, stopped: bool, c: Choice, e: Effect)
    requires f.Completing? || f.Evaluating? || f.Quitting? || f.SpillCheck?
    requires FrameStep(w, bk, fl, f, stopped, c) == Some(e)
    ensures Drops(w, h, bk, f, e)
  {
    hide FrameItems, EachOwes, FrameCost, FramesCost, PublishCost, ChunksCost;
    NoneCost(w, h);
    EvaluationCost(w, h, f);
    if e.replace != [] {
      OneCost(w, h, e.replace[0]);
      EvaluationCost(w, h, e.replace[0]);
    }
  }

  lemma EvaluationCost(w: World, h: nat, f: Frame)
    ensures f.Completing? ==> FrameCost(w, h, f) == 4
    ensures f.Evaluating? ==> FrameCost(w, h, f) == 3
    ensures f.Quitting? ==> FrameCost(w, h, f) == 2
    ensures f.Notifying? ==> FrameCost(w, h, f) == 1
    ensures f.SpillCheck? ==> FrameCost(w, h, f) == 3 + ChunksCost(w, h, f.chunks)
    ensures f.Publishing? ==> FrameCost(w, h, f) == 2 + ChunksCost(w, h, f.chunks)
  {
    hide Load, Rest, AccCost, PlanCost, ChunksCost;
  }

  lemma NothingFound(w: World, h: nat)
    ensures AccCost(w, h, C.Chunks([], [], [])) == 0
  {
  }

  lemma PreLoopDrops(w: World, h: nat, bk: Book, fl: Flags, ps: seq<Place>, c: Choice, e: Effect)
    requires Bounded(w, h) && StepPreLoop(bk, fl, ps, c) == Some(e)
    ensures Drops(w, h, bk, PreLoop(ps), e)
  {
    hide FrameItems, Value, Rest, Bounded;
    if e.replace != [] { OneCost(w, h, e.replace[0]); }
    if ps != [] { ValueOf(w, h, ps[0]); }
  }

  lemma PreVisitingDrops(w: World, h: nat, bk: Book, fl: Flags, p: Place, ps: seq<Place>, c: Choice, e: Effect)
    requires StepPreVisiting(w, bk, fl, p, ps, c) == Some(e)
    ensures Drops(w, h, bk, PreVisiting(p, ps), e)
  {
    hide FrameItems, Rest, Load;
    if e.replace != [] { OneCost(w, h, e.replace[0]); }
  }

  lemma PreEvaluatingDrops(w: World, h: nat, bk: Book, fl: Flags, f: Frame, stopped: bool, c: Choice, e: Effect)
    requires (f.PreEvaluating? || f.PreQuitting?) && FrameStep(w, bk, fl, f, stopped, c) == Some(e)
    ensures Drops(w, h, bk, f, e)
  {
    hide FrameItems, FreshAll, Rest, Load;
    if e.replace != [] { OneCost(w, h, e.replace[0]); }
  }

  lemma PreDescendingDrops(w: World, h: nat, bk: Book, fl: Flags, p: Place, ps: seq<Place>, c: Choice, e: Effect)
    requires StepPreDescending(w, bk, fl, p, ps, c) == Some(e)
    ensures Drops(w, h, bk, PreDescending(p, ps), e)
  {
    hide FrameItems, Rest, Load, AccCost;
    NothingFound(w, h);
    if e.replace != [] { OneCost(w, h, e.replace[0]); }
  }

  lemma PreFindsDrops(w: World, h: nat, bk: Book, fl: Flags, p: Place, k: nat, acc: Acc, ps: seq<Place>)
    requires k < Span(w, p)
    ensures Drops(w, h, bk, PreListing(p, k, acc, ps), StepPreListing(w, bk, fl, p, k, acc, ps, Proceed).value)
  {
    hide FrameItems, Value, C.Push, Load, ChunksOk, AccCost;
    var acc' := C.Push(acc, p + [k], fl.accepting, C.SPLIT_CHILD_THRESHOLD, C.SPILL_CHUNK_SIZE);
    OneCost(w, h, PreOffering(p, k + 1, acc', ps));
    PushCost(w, h, acc, p + [k], fl.accepting, C.SPLIT_CHILD_THRESHOLD, C.SPILL_CHUNK_SIZE);
  }

  lemma PlanWithin(w: World, h: nat, acc: Acc, quit: bool, plan: C.Plan<Place>)
    requires ChunksOk(acc.spilled) && plan == C.Finish(if quit then C.ObserveQuit(acc) else acc)
    ensures Load(w, h, plan.local) + ChunksCost(w, h, plan.spilled) <= AccCost(w, h, acc)
  {
    SpilledOk(acc, quit);
    hide Load, C.Finish, C.ObserveQuit, AccCost, PlanCost, ChunksOk, ChunksCost, FoundAll;
    DrainCost(w, h, acc);
    FinishCost(w, h, if quit then C.ObserveQuit(acc) else acc);
    PlanSplit(w, h, plan);
    ChunksWithin(w, h, plan.spilled);
  }

  lemma PreListedDrops(w: World, h: nat, bk: Book, fl: Flags, p: Place, k: nat, acc: Acc, ps: seq<Place>, plan: C.Plan<Place>)
    requires Load(w, h, plan.local) + ChunksCost(w, h, plan.spilled) <= AccCost(w, h, acc)
    ensures Drops(w, h, bk, PreListing(p, k, acc, ps), Becomes(bk, fl, [Publishing(plan.spilled, None), PreLoop(plan.local + ps)]))
  {
    hide FrameItems, Load, AccCost, Rest, FramesCost, TableCost, ChunksCost;
    LoadConcat(w, h, plan.local, ps);
    TwoCost(w, h, Publishing(plan.spilled, None), PreLoop(plan.local + ps));
  }

  lemma PreListingFails(w: World, h: nat, bk: Book, fl: Flags, f: Frame)
    ensures Drops(w, h, bk, f, Aborts(bk, fl, f))
  {
    FrameCostPositive(w, h, f);
    hide FrameItems, FrameCost;
  }

  lemma PreListingDrops(w: World, h: nat, bk: Book, fl: Flags, p: Place, k: nat, acc: Acc, ps: seq<Place>, c: Choice, e: Effect)
    requires ChunksOk(acc.spilled) && StepPreListing(w, bk, fl, p, k, acc, ps, c) == Some(e)
    ensures Drops(w, h, bk, PreListing(p, k, acc, ps), e)
  {
    hide Drops, C.Finish, C.ObserveQuit, FrameItems, ChunksOk, C.Push, HandOut;
    if k < Span(w, p) {
      PreFindsDrops(w, h, bk, fl, p, k, acc, ps);
    } else if c == Fail || !w.visit(p).expansion.complete {
      PreListingFails(w, h, bk, fl, PreListing(p, k, acc, ps));
    } else {
      var plan := C.Finish(if fl.quit then C.ObserveQuit(acc) else acc);
      PlanWithin(w, h, acc, fl.quit, plan);
      PreListedDrops(w, h, bk, fl, p, k, acc, ps, plan);
    }
  }

  lemma PlanSplit(w: World, h: nat, plan: C.Plan<Place>)
    ensures PlanCost(w, h, plan) >= Load(w, h, plan.local) + FoundAll(w, h, plan.spilled)
  {
    hide Load, FoundAll;
  }

  lemma SpilledOk(acc: Acc, quit: bool)
    requires ChunksOk(acc.spilled)
    ensures ChunksOk(C.Finish(if quit then C.ObserveQuit(acc) else acc).spilled)
  {
  }

  lemma PreOfferingDrops(w: World, h: nat, bk: Book, fl: Flags, p: Place, k: nat, acc: Acc, ps: seq<Place>)
    requires ChunksOk(acc.spilled)
    ensures Drops(w, h, bk, PreOffering(p, k, acc, ps), StepPreOffering(bk, fl, p, k, acc, ps))
  {
    hide FrameItems, Found, Load, Rest, ChunksOk;
    OneCost(w, h, PreListing(p, k, acc, ps));
    ChunksWithin(w, h, acc.spilled);
    TwoCost(w, h, Publishing(acc.spilled, None), PreListing(p, k, acc.(spilled := []), ps));
  }

  lemma FrameDrops(w: World, h: nat, bk: Book, fl: Flags, f: Frame, stopped: bool, c: Choice, e: Effect)
    requires Bounded(w, h) && FrameOk(w, f)
    requires FrameStep(w, bk, fl, f, stopped, c) == Some(e)
    ensures Drops(w, h, bk, f, e)
  {
    hide Drops, Bounded, StepListing, StepVisiting, StepOpenRecord, StepPublishing, StepNotifying, StepPreListing, StepPreOffering,
      FreshAll, FreshUnits, Units, ChunksOk, AccIs, Children, StepPreLoop;
    match f
    case BatchStart(_, _) => BatchDrops(w, h, bk, fl, f, stopped, c, e);
    case BatchRecord(_, _, _) => BatchDrops(w, h, bk, fl, f, stopped, c, e);
    case BatchLoop(_, _) => BatchDrops(w, h, bk, fl, f, stopped, c, e);
    case Visiting(p, notify) => VisitingDrops(w, h, bk, fl, p, notify, c, e);
    case Listing(p, notify, k, acc) => ListingDrops(w, h, bk, fl, p, notify, k, acc, c, e);
    case OpenRecord(id, p, notify, plan) => OpenRecordDrops(w, h, bk, fl, id, p, notify, plan);
    case Publishing(chunks, completion) => PublishingDrops(w, h, bk, fl, chunks, completion);
    case Notifying(b, u) => NotifyingDrops(w, h, bk, fl, b, u);
    case PreListing(p, k, acc, ps) => PreListingDrops(w, h, bk, fl, p, k, acc, ps, c, e);
    case PreOffering(p, k, acc, ps) => PreOfferingDrops(w, h, bk, fl, p, k, acc, ps);
    case PreLoop(ps) => PreLoopDrops(w, h, bk, fl, ps, c, e);
    case PreVisiting(p, ps) => PreVisitingDrops(w, h, bk, fl, p, ps, c, e);
    case PreEvaluating(_, _) => PreEvaluatingDrops(w, h, bk, fl, f, stopped, c, e);
    case PreQuitting(_, _) => PreEvaluatingDrops(w, h, bk, fl, f, stopped, c, e);
    case PreDescending(p, ps) => PreDescendingDrops(w, h, bk, fl, p, ps, c, e);
    case _ => EvaluationDrops(w, h, bk, fl, f, stopped, c, e);
  }

  // ----- Any step lowers the measure -----

  lemma {:induction false} WorkersCostUpdate(w: World, h: nat, ws: seq<Worker>, i: nat, v: Worker)
    requires i < |ws|
    ensures WorkersCost(w, h, ws[i := v]) + WorkerCost(w, h, ws[i]) == WorkersCost(w, h, ws) + WorkerCost(w, h, v)
  {
    hide WorkerCost;
    var n := |ws| - 1;
    if i == n {
      assert ws[i := v][..n] == ws[..n];
    } else {
      assert ws[i := v][..n] == ws[..n][i := v];
      WorkersCostUpdate(w, h, ws[..n], i, v);
    }
  }

  lemma QueueCostPush(w: World, h: nat, q: seq<Task>, t: Task)
    ensures QueueCost(w, h, q + [t]) == QueueCost(w, h, q) + TaskCost(w, h, t)
  {
    hide TaskCost;
    assert (q + [t])[..|q|] == q;
  }

  lemma {:induction false} QueueCostTake(w: World, h: nat, q: seq<Task>, j: nat)
    requires j < |q|
    ensures QueueCost(w, h, q[..j] + q[j + 1..]) + TaskCost(w, h, q[j]) == QueueCost(w, h, q)
  {
    hide TaskCost;
    var n := |q| - 1;
    if j == n {
      assert q[..j] + q[j + 1..] == q[..n];
    } else {
      QueueCostTake(w, h, q[..n], j);
      assert q[..j] + q[j + 1..] == (q[..n][..j] + q[..n][j + 1..]) + [q[n]];
      QueueCostPush(w, h, q[..n][..j] + q[..n][j + 1..], q[n]);
    }
  }

  lemma {:induction false} PushAllCost(w: World, h: nat, fs: seq<Frame>, below: Stack)
    ensures StackCost(w, h, PushAll(fs, below)) == FramesCost(w, h, fs) + StackCost(w, h, below)
  {
    hide FrameCost;
    if fs != [] { PushAllCost(w, h, fs[1..], below); }
  }

  lemma RunningDrops(w: World, h: nat, s: State, i: nat, c: Choice, s': State)
    requires Bounded(w, h) && i < |s.workers| && s.workers[i].Running? && s.workers[i].stack.On?
    requires FrameOk(w, s.workers[i].stack.top)
    requires WorkerStep(w, s, i, c) == Some(s')
    ensures Measure(w, h, s') < Measure(w, h, s)
  {
    hide FrameStep, FrameOk, StackItems, FrameCost, Bounded, TableCost, WorkersCost, QueueCost, TaskCost;
    var f, below, stopped := s.workers[i].stack.top, s.workers[i].stack.below, s.workers[i].stopped;
    var e := FrameStep(w, s.book, s.flags, f, stopped, c).value;
    FrameDrops(w, h, s.book, s.flags, f, stopped, c, e);
    PushAllCost(w, h, e.replace, below);
    assert s'.workers == s.workers[i := s'.workers[i]];
    WorkersCostUpdate(w, h, s.workers, i, s'.workers[i]);
    assert FrameCost(w, h, f) > 0 by { FrameCostPositive(w, h, f); }
    if e.fail {
      assert TableCost(s'.book) == TableCost(s.book) by { FailKeepsTable(w, s.book, s.flags, f, stopped, c, e); }
    }
  }

  lemma FailKeepsTable(w: World, bk: Book, fl: Flags, f: Frame, stopped: bool, c: Choice, e: Effect)
    requires FrameStep(w, bk, fl, f, stopped, c) == Some(e) && e.fail
    ensures e.book == bk
  {
    hide FrameItems, HandOut, OpenDirectory, StartBatch, C.Push, C.Finish, Finish, Log, TakeOut, PayOne, C.ObserveQuit, Reserve;
  }

  lemma FrameCostPositive(w: World, h: nat, f: Frame)
    ensures FrameCost(w, h, f) > 0
  {
    hide Load, Rest, AccCost, PlanCost, ChunksCost;
  }

  lemma OtherDrops(w: World, h: nat, s: State, i: nat, c: Choice, s': State)
    requires i < |s.workers| && !(s.workers[i].Running? && s.workers[i].stack.On?)
    requires WorkerStep(w, s, i, c) == Some(s')
    ensures Measure(w, h, s') < Measure(w, h, s)
  {
    hide FrameStep, FrameCost, TableCost, WorkersCost, QueueCost, TaskItems, Enter;
    assert s'.workers == s.workers[i := s'.workers[i]];
    WorkersCostUpdate(w, h, s.workers, i, s'.workers[i]);
    match s.workers[i]
    case Polling => if c.Pop? { QueueCostTake(w, h, s.queue, c.index); }
    case Holding(t) =>
      FrameCostPositive(w, h, Enter(w, t));
      assert StackCost(w, h, On(Enter(w, t), Bottom)) == FrameCost(w, h, Enter(w, t)) + StackCost(w, h, Bottom);
    case Pushing(_, t, _, _) => QueueCostPush(w, h, s.queue, t);
    case _ =>
  }

  lemma StepDrops(w: World, h: nat, s: State, m: Move, s': State)
    requires Sound(w, s) && Bounded(w, h) && Step(w, s, m) == Some(s')
    ensures Measure(w, h, s') < Measure(w, h, s)
  {
    hide Inv, Total, BookItems, LossOk, WorkerStep, Measure, Bounded, FrameOk, TaskOk;
    assert WorkerOk(w, s.flags, s.workers[m.worker]);
    if s.workers[m.worker].Running? && s.workers[m.worker].stack.On? {
      RunningDrops(w, h, s, m.worker, m.choice, s');
    } else {
      OtherDrops(w, h, s, m.worker, m.choice, s');
    }
  }

  /** No schedule is longer than the measure of the initial state. */
  lemma {:induction false} RunsAreBounded(w: World, h: nat, n: nat, moves: seq<Move>, s: State)
    requires Bounded(w, h) && Run(w, Initial(w, n), moves) == Some(s)
    ensures |moves| + Measure(w, h, s) <= Measure(w, h, Initial(w, n))
  {
    hide Bounded, Measure, Step, Initial, Sound;
    if moves != [] {
      var k := |moves| - 1;
      var mid := Run(w, Initial(w, n), moves[..k]).value;
      RunKeeps(w, n, moves[..k], mid);
      RunsAreBounded(w, h, n, moves[..k], mid);
      StepDrops(w, h, mid, moves[k], s);
    }
  }
}
