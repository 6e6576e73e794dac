/** Which runs of the parallel engine are complete: what can be said about tree and
    moves before the run. */
module EngineCompletion {
  import opened Basics
  import opened Places
  import opened Barriers
  import opened Ledger
  import opened Engine
  import opened EngineFrames
  import opened EnginePreSteps
  import opened EngineRuns
  import opened EngineMeasure
  import opened EngineOutcome
  import opened EngineProgress
  import C = Chunking

  /** No evaluation asks to quit or fails, and every diagnostic can be written. */
  predicate CalmMove(m: Move) {
    m.choice != Quit && m.choice != Fail
  }

  predicate Calm(moves: seq<Move>) {
    forall i :: 0 <= i < |moves| ==> CalmMove(moves[i])
  }

  // ----- Calm moves do not ask to quit -----

  lemma FrameKeepsQuit(w: World, bk: Book, fl: Flags, f: Frame, stopped: bool, c: Choice, e: Effect)
    requires FrameStep(w, bk, fl, f, stopped, c) == Some(e) && c != Quit
    ensures e.flags.quit == fl.quit
  {
    hide FrameItems, C.Push, C.Finish, C.ObserveQuit, EachOwes, FreshAll, Units, Singles, Finish, TellParent,
      HandOut, OpenDirectory, StartBatch, TakeOut, PayOne, Log, Reserve;
  }

  lemma StepKeepsQuit(w: World, s: State, m: Move, s': State)
    requires Step(w, s, m) == Some(s') && CalmMove(m)
    ensures s'.flags.quit == s.flags.quit
  {
    hide FrameStep, StackItems, TaskItems, PushAll, Enter;
    match s.workers[m.worker]
    case Running(On(f, _), stopped) =>
      FrameKeepsQuit(w, s.book, s.flags, f, stopped, m.choice, FrameStep(w, s.book, s.flags, f, stopped, m.choice).value);
    case _ =>
  }

  lemma {:induction false} CalmNeverQuits(w: World, n: nat, moves: seq<Move>, s: State)
    requires Run(w, Initial(w, n), moves) == Some(s) && Calm(moves)
    ensures !s.flags.quit
  {
    hide Step;
    if moves != [] {
      hide Initial;
      var k := |moves| - 1;
      var mid := Run(w, Initial(w, n), moves[..k]).value;
      CalmNeverQuits(w, n, moves[..k], mid);
      StepKeepsQuit(w, mid, moves[k], s);
    }
  }

  // ----- Calm moves fail only where a listing breaks off -----

  /** What has come into being is reachable, unless a listing breaks off. */
  lemma {:induction false} BornIsReachable(w: World, bk: Book, t: multiset<Item>, p: Place)
    requires Inv(w, bk, t) && Unbroken(w) && Born(w, bk.handed, p)
    ensures Reachable(w, p)
    decreases |p|
  {
    if |p| > 1 {
      var up := p[..|p| - 1];
      HandedMeansBorn(w, bk, t, up);
      hide Inv;
      BornIsReachable(w, bk, t, up);
      assert !BreaksOff(w, up);
    }
  }

  lemma HandedMeansBorn(w: World, bk: Book, t: multiset<Item>, p: Place)
    requires Inv(w, bk, t) && p in bk.handed
    ensures Born(w, bk.handed, p) && bk.handed[p] <= Span(w, p)
    ensures w.order.PostOrder? ==> bk.handed[p] == Kids(w, p)
  {
    hide Begins, Ends, Settled, KidsSettled, Born;
    assert PlaceOk(w, bk, t, p);
  }

  /** What is being listed is reachable. */
  lemma ListedIsReachable(w: World, bk: Book, t: multiset<Item>, p: Place, k: nat)
    requires Inv(w, bk, t) && Unbroken(w) && t[Expand(p, k)] > 0
    ensures Reachable(w, p)
  {
    assert ExpandOk(w, bk, t, p, k);
    assert PlaceOk(w, bk, t, p);
    hide Inv, Settled, Born;
    BornIsReachable(w, bk, t, p);
  }

  lemma FrameStaysCalm(w: World, bk: Book, fl: Flags, f: Frame, stopped: bool, c: Choice, e: Effect)
    requires FrameStep(w, bk, fl, f, stopped, c) == Some(e) && c != Quit && c != Fail
    requires !f.Quitting? && !f.PreQuitting? && (f.PreListing? ==> w.order.PreOrder? && !BreaksOff(w, f.at))
    ensures !e.fail && e.flags == fl
  {
    hide FrameItems, C.Push, C.Finish, C.ObserveQuit, EachOwes, FreshAll, Units, Singles, Finish, TellParent,
      HandOut, OpenDirectory, StartBatch, TakeOut, PayOne, Log, Reserve;
  }

  const UP := Flags(false, false, true)

  /** No flag is raised and nobody is about to raise one. */
  ghost predicate Unharmed(s: State) {
    && s.flags == UP
    && forall i :: 0 <= i < |s.workers| ==>
         s.workers[i] != Closing(true) && !s.workers[i].Failing? && !s.workers[i].FailingStore?
  }

  lemma TopIsHeld(w: World, s: State, i: nat, p: Place, k: nat, acc: Acc, ps: seq<Place>)
    requires i < |s.workers| && s.workers[i].Running? && s.workers[i].stack.On?
    requires s.workers[i].stack.top == PreListing(p, k, acc, ps)
    ensures Total(s)[Expand(p, k)] > 0
  {
    hide WorkersItems, QueueItems, BookItems, WorkerItems, FrameItems, StackItems;
    var f, below := s.workers[i].stack.top, s.workers[i].stack.below;
    HeldAt(f, p, k, acc, ps, Expand(p, k));
    OnAt(f, below, Expand(p, k));
    RunningAt(s.workers[i].stack, s.workers[i].stopped, Expand(p, k));
    WorkersHold(s.workers, i, Expand(p, k));
    TotalAt(s, Expand(p, k));
  }

  lemma OnAt(f: Frame, below: Stack, x: Item)
    ensures StackItems(On(f, below))[x] == FrameItems(f)[x] + StackItems(below)[x]
  {
    hide FrameItems;
  }

  lemma UnharmedStep(w: World, s: State, m: Move, s': State)
    requires Sound(w, s) && Unbroken(w) && Unharmed(s) && Step(w, s, m) == Some(s') && CalmMove(m)
    ensures Unharmed(s')
  {
    hide Inv, Total, BookItems, FrameStep, StackItems, TaskItems, PushAll, Enter, TaskOk, LossOk, Unbroken;
    assert WorkerOk(w, s.flags, s.workers[m.worker]);
    match s.workers[m.worker]
    case Running(On(f, _), stopped) =>
      if f.PreListing? {
        TopIsHeld(w, s, m.worker, f.at, f.found, f.acc, f.stack);
        ListedIsReachable(w, s.book, Total(s), f.at, f.found);
        Whole(w, f.at);
      }
      FrameStaysCalm(w, s.book, s.flags, f, stopped, m.choice, FrameStep(w, s.book, s.flags, f, stopped, m.choice).value);
    case _ =>
  }

  lemma Whole(w: World, p: Place)
    requires Unbroken(w) && Reachable(w, p)
    ensures !BreaksOff(w, p)
  {
  }

  lemma {:induction false} CalmRunIsUnharmed(w: World, n: nat, moves: seq<Move>, s: State)
    requires Run(w, Initial(w, n), moves) == Some(s) && Calm(moves) && Unbroken(w)
    ensures Unharmed(s)
  {
    hide Sound, Step, Unbroken;
    if moves != [] {
      hide Initial, Unharmed;
      var k := |moves| - 1;
      var mid := Run(w, Initial(w, n), moves[..k]).value;
      RunKeeps(w, n, moves[..k], mid);
      CalmRunIsUnharmed(w, n, moves[..k], mid);
      UnharmedStep(w, mid, moves[k], s);
    }
  }

  // ----- Any other move leaves its mark -----

  lemma FrameIsHarmed(w: World, bk: Book, fl: Flags, f: Frame, stopped: bool, c: Choice, e: Effect)
    requires FrameStep(w, bk, fl, f, stopped, c) == Some(e)
    ensures c == Quit ==> e.flags.quit
    ensures c == Fail ==> e.fail
  {
    hide FrameItems, C.Push, C.Finish, C.ObserveQuit, EachOwes, FreshAll, Units, Singles, Finish, TellParent,
      HandOut, OpenDirectory, StartBatch, TakeOut, PayOne, Log, Reserve;
  }

  predicate Failed(wk: Worker) {
    wk == Closing(true) || wk.Failing?
  }

  /** A stop has been asked for, or a worker is about to. */
  predicate Harmed(s: State) {
    s.flags.quit || s.flags.fatal || exists i :: 0 <= i < |s.workers| && Failed(s.workers[i])
  }

  lemma HarmStep(w: World, s: State, m: Move, s': State)
    requires Step(w, s, m) == Some(s') && (Harmed(s) || !CalmMove(m))
    ensures Harmed(s')
  {
    hide FrameStep, StackItems, TaskItems, PushAll, Enter;
    var i := m.worker;
    if s.workers[i].Running? && s.workers[i].stack.On? {
      var f, stopped := s.workers[i].stack.top, s.workers[i].stopped;
      FrameIsHarmed(w, s.book, s.flags, f, stopped, m.choice, FrameStep(w, s.book, s.flags, f, stopped, m.choice).value);
      FrameFlags(w, s.book, s.flags, f, stopped, m.choice);
    }
    KeepsFailed(s, i, s');
  }

  /** The other workers are as they were. */
  lemma KeepsFailed(s: State, i: nat, s': State)
    requires i < |s.workers| == |s'.workers| && s'.workers == s.workers[i := s'.workers[i]]
    requires Raised(s.flags, s'.flags)
    requires Failed(s.workers[i]) ==> Failed(s'.workers[i]) || s'.flags.fatal
    ensures Harmed(s) || Failed(s'.workers[i]) ==> Harmed(s')
  {
    if j: nat :| j < |s.workers| && Failed(s.workers[j]) {
      if j != i { assert Failed(s'.workers[j]); }
    }
  }

  lemma {:induction false} HarmLasts(w: World, n: nat, moves: seq<Move>, s: State)
    requires Run(w, Initial(w, n), moves) == Some(s) && !Calm(moves)
    ensures Harmed(s)
  {
    hide Step, Harmed, Initial;
    var k := |moves| - 1;
    var mid := Run(w, Initial(w, n), moves[..k]).value;
    if !Calm(moves[..k]) { HarmLasts(w, n, moves[..k], mid); }
    HarmStep(w, mid, moves[k], s);
  }

  lemma ExitedAreHarmless(s: State)
    requires AllExited(s) && Harmed(s)
    ensures s.flags.quit || s.flags.fatal
  {
  }

  // ----- Every schedule ends -----

  lemma {:induction false} RunOn(w: World, s: State, moves: seq<Move>, m: Move)
    ensures Run(w, s, moves + [m]) == match Run(w, s, moves) case None => None case Some(mid) => Step(w, mid, m)
  {
    hide Step;
    assert (moves + [m])[..|moves|] == moves;
  }

  /** Over a tree of bounded height every calm run can be continued calmly until all
      workers have left, and none is longer than the measure. */
  lemma {:induction false} CanBeCompleted(w: World, h: nat, n: nat, moves: seq<Move>, s: State) returns (all: seq<Move>, end: State)
    requires Bounded(w, h) && Run(w, Initial(w, n), moves) == Some(s) && Calm(moves)
    ensures |moves| <= |all| <= Measure(w, h, Initial(w, n)) && all[..|moves|] == moves && Calm(all)
    ensures Run(w, Initial(w, n), all) == Some(end) && AllExited(end)
    decreases Measure(w, h, s)
  {
    hide Bounded, Measure, Step, Initial, Run, AllExited;
    RunsAreBounded(w, h, n, moves, s);
    if AllExited(s) { return moves, s; }
    var m := NeverStuck(w, n, moves, s);
    var s' := Step(w, s, m).value;
    RunOn(w, Initial(w, n), moves, m);
    RunKeeps(w, n, moves, s);
    StepDrops(w, h, s, m, s');
    all, end := CanBeCompleted(w, h, n, moves + [m], s');
    assert all[..|moves|] == all[..|moves| + 1][..|moves|] == (moves + [m])[..|moves|];
  }

  /** The outcome of a complete run. */
  ghost predicate Complete(w: World, s: State) {
    && s.queue == [] && s.lost == multiset{} && s.book.table.records == map[] && s.outstanding == 0
    && (forall p: Place :: Settled(s.book.log)[p] == if Reachable(w, p) then 1 else 0)
    && (forall p: Place :: Begins(s.book.log)[p] == Ends(s.book.log)[p] == if Reachable(w, p) && Evaluated(w, p) then 1 else 0)
  }

  /** When all workers have left, no stop was asked for if and only if all moves were
      calm and no listing breaks off in pre-order; and then the run is complete. */
  lemma CompletionIsExact(w: World, n: nat, moves: seq<Move>, s: State)
    requires Run(w, Initial(w, n), moves) == Some(s) && n > 0 && AllExited(s)
    ensures !s.flags.quit && !s.flags.fatal <==> Calm(moves) && Unbroken(w)
    ensures Calm(moves) ==> !s.flags.quit
    ensures Calm(moves) && Unbroken(w) ==> Complete(w, s)
  {
    hide Unbroken, Run, Initial, AllExited, Begins, Ends, Settled, Reachable, Evaluated, Harmed, Calm;
    if Calm(moves) {
      CalmNeverQuits(w, n, moves, s);
      if Unbroken(w) { CalmRunIsUnharmed(w, n, moves, s); }
    } else {
      HarmLasts(w, n, moves, s);
      ExitedAreHarmless(s);
    }
    if !s.flags.quit && !s.flags.fatal { CompleteRun(w, n, moves, s); }
  }

  /** Total correctness: over a tree of bounded height in which no listing breaks
      off, a calm run that no calm move can continue is complete. */
  lemma CalmSchedulesComplete(w: World, h: nat, n: nat, moves: seq<Move>, s: State)
    requires Bounded(w, h) && Unbroken(w) && n > 0
    requires Run(w, Initial(w, n), moves) == Some(s) && Calm(moves)
    requires forall m :: CalmMove(m) ==> Step(w, s, m).None?
    ensures |moves| <= Measure(w, h, Initial(w, n)) && AllExited(s) && Complete(w, s)
  {
    hide Bounded, Unbroken, Run, Initial, AllExited, Step, Measure, Complete;
    RunsAreBounded(w, h, n, moves, s);
    if !AllExited(s) {
      var m := NeverStuck(w, n, moves, s);
      assert false;
    }
    CompletionIsExact(w, n, moves, s);
  }

  // ----- A listing that breaks off -----

  /** One start path, a directory whose listing fails at once. */
  const BROKEN := World(PreOrder, 1, 0, (p: Place) => Readable(Lists(0, false)))

  /** Over this tree every calm run ends in a fatal stop, and there is one. */
  lemma BrokenListingIsFatal(n: nat) returns (moves: seq<Move>, s: State)
    requires n > 0
    ensures Run(BROKEN, Initial(BROKEN, n), moves) == Some(s) && Calm(moves) && AllExited(s)
    ensures forall ms, e :: Run(BROKEN, Initial(BROKEN, n), ms) == Some(e) && Calm(ms) && AllExited(e) ==> e.flags.fatal
  {
    assert Reachable(BROKEN, [0]) && BreaksOff(BROKEN, [0]);
    assert Bounded(BROKEN, 0);
    assert !Unbroken(BROKEN);
    moves, s := CanBeCompleted(BROKEN, 0, n, [], Initial(BROKEN, n));
    forall ms, e | Run(BROKEN, Initial(BROKEN, n), ms) == Some(e) && Calm(ms) && AllExited(e) ensures e.flags.fatal {
      CompletionIsExact(BROKEN, n, ms, e);
    }
  }

  /** In post-order the same listing is only reported: the tree is complete. */
  lemma BrokenListingIsReported(n: nat, moves: seq<Move>, s: State)
    requires n > 0 && Run(BROKEN.(order := PostOrder), Initial(BROKEN.(order := PostOrder), n), moves) == Some(s)
    requires Calm(moves) && AllExited(s)
    ensures !s.flags.fatal && Complete(BROKEN.(order := PostOrder), s)
  {
    CompletionIsExact(BROKEN.(order := PostOrder), n, moves, s);
  }
}
