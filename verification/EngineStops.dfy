/** What a stop, by -quit or by a failure, does to the parallel engine. */
module EngineStops {
  import opened Basics
  import opened Places
  import opened Barriers
  import opened Ledger
  import opened Engine
  import opened EngineFrames
  import opened EngineRuns
  import opened EngineOutcome
  import opened EngineProgress
  import opened EngineCompletion
  import C = Chunking

  // ----- A raised flag means that new work is refused -----

  /** Between the two stores of request_quit. */
  predicate MidQuit(wk: Worker) {
    wk.Running? && wk.stack.On? && (wk.stack.top.Quitting? || wk.stack.top.PreQuitting?)
  }

  /** Whoever raised a flag is about to refuse new work, or somebody has. */
  ghost predicate FlagsRefuse(s: State) {
    && (s.flags.quit ==> !s.flags.accepting || exists i :: 0 <= i < |s.workers| && MidQuit(s.workers[i]))
    && (s.flags.fatal ==> !s.flags.accepting || exists i :: 0 <= i < |s.workers| && s.workers[i].FailingStore?)
  }

  predicate Post(f: Frame) {
    !f.PreLoop? && !f.PreVisiting? && !f.PreEvaluating? && !f.PreQuitting? && !f.PreDescending? && !f.PreListing? && !f.PreOffering?
  }

  ghost predicate Raises(fl: Flags, f: Frame, c: Choice, e: Effect) {
    && e.flags.fatal == fl.fatal
    && (e.flags.quit != fl.quit ==> c == Quit)
    && (c == Quit ==> !e.fail && |e.replace| == 1 && (e.replace[0].Quitting? || e.replace[0].PreQuitting?) && e.push.None?)
    && (f.Quitting? || f.PreQuitting? ==> !e.flags.accepting)
    && (!fl.accepting ==> !e.flags.accepting)
  }

  lemma PostRaises(w: World, bk: Book, fl: Flags, f: Frame, stopped: bool, c: Choice, e: Effect)
    requires FrameStep(w, bk, fl, f, stopped, c) == Some(e) && Post(f)
    ensures Raises(fl, f, c, e)
  {
    hide FrameItems, C.Push, C.Finish, EachOwes, FreshAll, Units, Singles, Finish, TellParent,
      OpenDirectory, StartBatch, TakeOut, PayOne, Log, Reserve, Kids,
      StepPreLoop, StepPreVisiting, StepPreEvaluating, StepPreQuitting, StepPreDescending, StepPreListing, StepPreOffering;
  }

  lemma PreRaises(w: World, bk: Book, fl: Flags, f: Frame, stopped: bool, c: Choice, e: Effect)
    requires FrameStep(w, bk, fl, f, stopped, c) == Some(e) && !Post(f)
    ensures Raises(fl, f, c, e)
  {
    hide FrameItems, C.Push, C.Finish, C.ObserveQuit, EachOwes, FreshAll, HandOut, Log, StartBatch,
      StepBatchStart, StepBatchLoop, StepVisiting, StepListing, StepOpenRecord, StepSpillCheck, StepCompleting,
      StepEvaluating, StepQuitting, StepNotifying, StepPublishing;
  }

  lemma FrameRaises(w: World, bk: Book, fl: Flags, f: Frame, stopped: bool, c: Choice, e: Effect)
    requires FrameStep(w, bk, fl, f, stopped, c) == Some(e)
    ensures Raises(fl, f, c, e)
  {
    hide FrameStep, Raises;
    if Post(f) { PostRaises(w, bk, fl, f, stopped, c, e); } else { PreRaises(w, bk, fl, f, stopped, c, e); }
  }

  lemma MidQuitRefuses(w: World, s: State, i: nat, c: Choice, s': State)
    requires i < |s.workers| && MidQuit(s.workers[i]) && WorkerStep(w, s, i, c) == Some(s')
    ensures !s'.flags.accepting
  {
    hide FrameStep, StackItems, PushAll;
    var f, stopped := s.workers[i].stack.top, s.workers[i].stopped;
    FrameRaises(w, s.book, s.flags, f, stopped, c, FrameStep(w, s.book, s.flags, f, stopped, c).value);
  }

  lemma RefusalStays(w: World, s: State, m: Move, s': State)
    requires Step(w, s, m) == Some(s') && !s.flags.accepting
    ensures !s'.flags.accepting
  {
    StoppedStep(w, s, m, s');
  }

  /** The flags of a worker's step, and how it stands afterwards. */
  lemma StepRaises(w: World, s: State, i: nat, c: Choice, s': State)
    requires i < |s.workers| && WorkerStep(w, s, i, c) == Some(s')
    ensures s'.workers == s.workers[i := s'.workers[i]]
    ensures s'.flags.quit && !s.flags.quit ==> MidQuit(s'.workers[i])
    ensures s'.flags.fatal && !s.flags.fatal ==> s'.workers[i].FailingStore?
    ensures s.workers[i].FailingStore? ==> !s'.flags.accepting
    ensures MidQuit(s.workers[i]) ==> !s'.flags.accepting
  {
    hide FrameStep, StackItems, TaskItems, Enter;
    if MidQuit(s.workers[i]) { MidQuitRefuses(w, s, i, c, s'); }
    if s.workers[i].Running? && s.workers[i].stack.On? {
      var f, stopped := s.workers[i].stack.top, s.workers[i].stopped;
      FrameRaises(w, s.book, s.flags, f, stopped, c, FrameStep(w, s.book, s.flags, f, stopped, c).value);
    }
  }

  lemma FlagsRefuseStep(w: World, s: State, m: Move, s': State)
    requires FlagsRefuse(s) && Step(w, s, m) == Some(s')
    ensures FlagsRefuse(s')
  {
    hide WorkerStep, MidQuit;
    var i := m.worker;
    StepRaises(w, s, i, m.choice, s');
    if !s.flags.accepting {
      RefusalStays(w, s, m, s');
    } else {
      if s.flags.quit {
        var j :| 0 <= j < |s.workers| && MidQuit(s.workers[j]);
        if j != i { assert MidQuit(s'.workers[j]); }
      } else if s'.flags.quit {
        assert MidQuit(s'.workers[i]);
      }
      if s.flags.fatal {
        var j :| 0 <= j < |s.workers| && s.workers[j].FailingStore?;
        if j != i { assert s'.workers[j].FailingStore?; }
      } else if s'.flags.fatal {
        assert s'.workers[i].FailingStore?;
      }
    }
  }

  /** In every reachable state: a quit, or a fatal stop, means that new work is
      refused, unless a worker stands between the two stores. */
  lemma {:induction false} RaisedMeansRefused(w: World, n: nat, moves: seq<Move>, s: State)
    requires Run(w, Initial(w, n), moves) == Some(s)
    ensures FlagsRefuse(s)
  {
    hide Step;
    if moves != [] {
      hide FlagsRefuse, Initial;
      var k := |moves| - 1;
      var mid := Run(w, Initial(w, n), moves[..k]).value;
      RaisedMeansRefused(w, n, moves[..k], mid);
      FlagsRefuseStep(w, mid, moves[k], s);
    }
  }

  // ----- From the move that stops to the refusal -----

  /** The worker has quit or failed and has not yet refused new work. */
  predicate StopInHand(wk: Worker) {
    MidQuit(wk) || wk == Closing(true) || wk.Failing? || wk.FailingStore?
  }

  lemma StopIsTaken(w: World, s: State, m: Move, s': State)
    requires Step(w, s, m) == Some(s') && !CalmMove(m)
    ensures m.worker < |s'.workers| && StopInHand(s'.workers[m.worker])
  {
    hide FrameStep, StackItems, TaskItems, Enter;
    var i := m.worker;
    if s.workers[i].Running? && s.workers[i].stack.On? {
      var f, stopped, below := s.workers[i].stack.top, s.workers[i].stopped, s.workers[i].stack.below;
      var e := FrameStep(w, s.book, s.flags, f, stopped, m.choice).value;
      FrameRaises(w, s.book, s.flags, f, stopped, m.choice, e);
      FrameIsHarmed(w, s.book, s.flags, f, stopped, m.choice, e);
      if m.choice == Quit { assert PushAll(e.replace, below) == On(e.replace[0], PushAll(e.replace[1..], below)); }
    }
  }

  lemma StopIsCarried(w: World, s: State, m: Move, s': State, i: nat)
    requires Step(w, s, m) == Some(s') && i < |s.workers|
    requires !s.flags.accepting || StopInHand(s.workers[i])
    ensures |s'.workers| == |s.workers| && (!s'.flags.accepting || StopInHand(s'.workers[i]))
  {
    StepRaises(w, s, m.worker, m.choice, s');
    if !s.flags.accepting {
      RefusalStays(w, s, m, s');
    } else if i == m.worker && !MidQuit(s.workers[i]) {
      hide FrameStep, StackItems, TaskItems, Enter, PushAll;
    }
  }

  /** Once the worker that quit or failed at move number k has let go of the stop, new
      work is refused. */
  lemma {:induction false} StopRefusesWork(w: World, n: nat, moves: seq<Move>, s: State, k: nat)
    requires Run(w, Initial(w, n), moves) == Some(s) && k < |moves| && !CalmMove(moves[k])
    ensures moves[k].worker < |s.workers| && (!s.flags.accepting || StopInHand(s.workers[moves[k].worker]))
  {
    hide Step, StopInHand, Initial;
    var last := |moves| - 1;
    var mid := Run(w, Initial(w, n), moves[..last]).value;
    if k == last {
      StopIsTaken(w, mid, moves[last], s);
    } else {
      StopRefusesWork(w, n, moves[..last], mid, k);
      StopIsCarried(w, mid, moves[last], s, moves[k].worker);
    }
  }

  /** Here a diagnostic is written, or the result channel used: what was refused or could
      not be read, and the end of a listing. */
  predicate MayFail(w: World, f: Frame) {
    match f
    case Visiting(p, _) => !w.visit(p).Readable? || w.visit(p).expansion.Refused?
    case Listing(p, _, k, _) => w.visit(p).Readable? && w.visit(p).expansion.Lists? && k >= w.visit(p).expansion.children
    case PreVisiting(p, _) => !w.visit(p).Readable?
    case PreDescending(p, _) => w.visit(p).Readable? && w.visit(p).expansion.Refused?
    case PreListing(p, k, _, _) => w.visit(p).Readable? && w.visit(p).expansion.Lists? && k >= w.visit(p).expansion.children
    case _ => f.Evaluating? || f.PreEvaluating?
  }

  /** Inside a task exactly the evaluations may ask to quit, and exactly they and what
      writes a diagnostic may fail; every evaluation may end either way, in both orders. */
  lemma WhatMayStop(w: World, s: State, i: nat, f: Frame, below: Stack, stopped: bool)
    requires i < |s.workers| && s.workers[i] == Running(On(f, below), stopped)
    ensures Step(w, s, Move(i, Quit)).Some? <==> f.Evaluating? || f.PreEvaluating?
    ensures Step(w, s, Move(i, Fail)).Some? <==> MayFail(w, f)
    ensures f.Evaluating? || f.PreEvaluating? ==> Step(w, s, Move(i, Proceed)).Some?
  {
    hide StackItems, PushAll, FrameItems, C.Push, C.Finish, C.ObserveQuit, EachOwes, FreshAll, Units, Singles, Finish, TellParent,
      HandOut, OpenDirectory, StartBatch, TakeOut, PayOne, Log, Reserve, Kids, StepBatchStart, StepOpenRecord, StepSpillCheck,
      StepCompleting, StepQuitting, StepNotifying, StepPublishing, StepPreQuitting, StepPreOffering;
  }

  predicate InTask(wk: Worker) {
    wk.Running? || wk.Pushing?
  }

  lemma OutsideTaskIsSilent(w: World, s: State, m: Move, s': State)
    requires Step(w, s, m) == Some(s') && !InTask(s.workers[m.worker])
    ensures s'.book == s.book
  {
    hide FrameStep, StackItems, TaskItems, PushAll, Enter;
  }

  /** The worker that quit or failed at move number k has carried out the stop at s.
      From any later moment (mid) at which some worker is not in the middle of a task,
      that worker never again adds an event to the log, nor touches the barrier table,
      whatever it pops. */
  lemma LaterTasksAreSilent(w: World, n: nat, moves: seq<Move>, s: State, k: nat, more: seq<Move>, mid: State,
                            later: seq<Move>, s': State, m: Move, s'': State)
    requires Run(w, Initial(w, n), moves) == Some(s) && k < |moves| && !CalmMove(moves[k])
    requires moves[k].worker < |s.workers| ==> !StopInHand(s.workers[moves[k].worker])
    requires Run(w, s, more) == Some(mid)
    requires m.worker < |mid.workers| ==> !InTask(mid.workers[m.worker])
    requires Run(w, mid, later) == Some(s') && Step(w, s', m) == Some(s'')
    ensures !s.flags.accepting && s''.book == s'.book
  {
    hide Run, Step, Initial, StopInHand;
    StopRefusesWork(w, n, moves, s, k);
    StopIsFinal(w, s, more, mid);
    StopIsFinal(w, mid, later, s');
    StepMeansWorker(w, s', m, s'');
    OutsideTaskIsSilent(w, s', m, s'');
  }

  lemma StepMeansWorker(w: World, s: State, m: Move, s': State)
    requires Step(w, s, m) == Some(s')
    ensures m.worker < |s.workers|
  {
    hide WorkerStep;
  }

  // ----- What is still evaluated -----

  /** A frame that may still begin an evaluation when new work is refused. */
  predicate MayBegin(f: Frame) {
    f.Visiting? || f.Listing? || f.Completing? || f.PreVisiting?
  }

  function Prospects(s: Stack): nat {
    match s case Bottom => 0 case On(f, below) => (if MayBegin(f) then 1 else 0) + Prospects(below)
  }

  function WorkerProspects(wk: Worker): nat {
    if InTask(wk) then Prospects(wk.stack) else 0
  }

  function AllProspects(ws: seq<Worker>): nat {
    if ws == [] then 0 else AllProspects(ws[..|ws| - 1]) + WorkerProspects(ws[|ws| - 1])
  }

  lemma {:induction false} ProspectsUpdate(ws: seq<Worker>, i: nat, v: Worker)
    requires i < |ws|
    ensures AllProspects(ws[i := v]) + WorkerProspects(ws[i]) == AllProspects(ws) + WorkerProspects(v)
  {
    hide WorkerProspects;
    var n := |ws| - 1;
    if i == n {
      assert ws[i := v][..n] == ws[..n];
    } else {
      assert ws[i := v][..n] == ws[..n][i := v];
      ProspectsUpdate(ws[..n], i, v);
    }
  }

  /** Evaluations begun. */
  function Begun(log: seq<Event>): nat {
    if log == [] then 0 else Begun(log[..|log| - 1]) + if log[|log| - 1].Began? then 1 else 0
  }

  lemma BegunAfter(log: seq<Event>, e: Event)
    ensures Begun(log + [e]) == Begun(log) + if e.Began? then 1 else 0
  {
    assert (log + [e])[..|log|] == log;
  }

  function FramesProspects(fs: seq<Frame>): nat {
    if fs == [] then 0 else (if MayBegin(fs[0]) then 1 else 0) + FramesProspects(fs[1..])
  }

  lemma {:induction false} PushAllProspects(fs: seq<Frame>, below: Stack)
    ensures Prospects(PushAll(fs, below)) == FramesProspects(fs) + Prospects(below)
  {
    hide MayBegin;
    if fs != [] { PushAllProspects(fs[1..], below); }
  }

  lemma OneProspect(f: Frame)
    ensures FramesProspects([f]) == if MayBegin(f) then 1 else 0
  {
    assert [f][1..] == [];
  }

  lemma TwoProspects(f: Frame, g: Frame)
    ensures FramesProspects([f, g]) == (if MayBegin(f) then 1 else 0) + (if MayBegin(g) then 1 else 0)
  {
    assert [f, g][1..] == [g];
    OneProspect(g);
  }

  predicate Halted(fl: Flags) {
    !fl.accepting && (fl.quit || fl.fatal)
  }

  /** A frame spends its prospect on the evaluation it begins. */
  ghost predicate Spends(bk: Book, f: Frame, e: Effect) {
    Begun(e.book.log) + (if e.fail then 0 else FramesProspects(e.replace)) <= Begun(bk.log) + if MayBegin(f) then 1 else 0
  }

  /** Frames whose step may add an event to the log. */
  predicate Logs(f: Frame) {
    f.Visiting? || f.Completing? || f.Evaluating? || f.Quitting? || f.PreVisiting? || f.PreEvaluating? || f.PreQuitting?
  }

  lemma AtMostTwo(fs: seq<Frame>)
    ensures |fs| == 0 ==> FramesProspects(fs) == 0
    ensures |fs| == 1 ==> FramesProspects(fs) == if MayBegin(fs[0]) then 1 else 0
    ensures |fs| == 2 ==> FramesProspects(fs) == (if MayBegin(fs[0]) then 1 else 0) + (if MayBegin(fs[1]) then 1 else 0)
  {
    hide MayBegin;
    if |fs| == 1 { assert fs == [fs[0]]; OneProspect(fs[0]); }
    if |fs| == 2 { assert fs == [fs[0], fs[1]]; TwoProspects(fs[0], fs[1]); }
  }

  lemma LogGrows(bk: Book, e: Event)
    ensures Begun(Log(bk, e).log) == Begun(bk.log) + if e.Began? then 1 else 0
  {
    BegunAfter(bk.log, e);
  }

  lemma LoggingPostSpends(w: World, bk: Book, fl: Flags, f: Frame, stopped: bool, c: Choice, e: Effect)
    requires FrameStep(w, bk, fl, f, stopped, c) == Some(e) && Logs(f) && Post(f)
    ensures Spends(bk, f, e)
  {
    hide FrameItems, EachOwes, FreshAll, Begun, FramesProspects, Log,
      StepBatchStart, StepBatchLoop, StepListing, StepOpenRecord, StepSpillCheck, StepNotifying, StepPublishing, StartBatch,
      StepPreLoop, StepPreVisiting, StepPreEvaluating, StepPreQuitting, StepPreDescending, StepPreListing, StepPreOffering;
    AtMostTwo(e.replace);
    LogGrows(bk, Began(f.at));
    LogGrows(bk, Ended(f.at));
    LogGrows(bk, Skipped(f.at));
    LogGrows(bk, Reported(f.at));
  }

  lemma LoggingPreSpends(w: World, bk: Book, fl: Flags, f: Frame, stopped: bool, c: Choice, e: Effect)
    requires FrameStep(w, bk, fl, f, stopped, c) == Some(e) && Logs(f) && !Post(f)
    ensures Spends(bk, f, e)
  {
    hide FrameItems, EachOwes, FreshAll, Begun, FramesProspects, Log,
      StepBatchStart, StepBatchLoop, StepListing, StepOpenRecord, StepSpillCheck, StepNotifying, StepPublishing, StartBatch,
      StepVisiting, StepCompleting, StepEvaluating, StepQuitting,
      StepPreLoop, StepPreDescending, StepPreListing, StepPreOffering;
    AtMostTwo(e.replace);
    LogGrows(bk, Began(f.at));
    LogGrows(bk, Ended(f.at));
    LogGrows(bk, Skipped(f.at));
    LogGrows(bk, Reported(f.at));
  }

  lemma SilentPostSpends(w: World, bk: Book, fl: Flags, f: Frame, stopped: bool, c: Choice, e: Effect)
    requires FrameStep(w, bk, fl, f, stopped, c) == Some(e) && !Logs(f) && Post(f) && Halted(fl)
    ensures Spends(bk, f, e)
  {
    hide FrameItems, C.Push, C.Finish, EachOwes, FreshAll, Units, Singles, Finish, Begun, FramesProspects, Kids, Reserve,
      StepVisiting, StepCompleting, StepEvaluating, StepQuitting, Log,
      StepPreLoop, StepPreVisiting, StepPreEvaluating, StepPreQuitting, StepPreDescending, StepPreListing, StepPreOffering;
    AtMostTwo(e.replace);
  }

  lemma SilentPreSpends(w: World, bk: Book, fl: Flags, f: Frame, stopped: bool, c: Choice, e: Effect)
    requires FrameStep(w, bk, fl, f, stopped, c) == Some(e) && !Logs(f) && !Post(f) && Halted(fl)
    ensures Spends(bk, f, e)
  {
    hide FrameItems, C.Push, C.Finish, C.ObserveQuit, EachOwes, FreshAll, Begun, FramesProspects, Log,
      StepBatchStart, StepBatchLoop, StepListing, StepOpenRecord, StepSpillCheck, StepNotifying, StepPublishing, StartBatch,
      StepVisiting, StepCompleting, StepEvaluating, StepQuitting, StepPreVisiting, StepPreEvaluating, StepPreQuitting;
    AtMostTwo(e.replace);
  }

  lemma FrameSpends(w: World, bk: Book, fl: Flags, f: Frame, stopped: bool, c: Choice, e: Effect)
    requires FrameStep(w, bk, fl, f, stopped, c) == Some(e) && Halted(fl)
    ensures Spends(bk, f, e)
  {
    hide FrameStep, Spends;
    if Logs(f) {
      if Post(f) { LoggingPostSpends(w, bk, fl, f, stopped, c, e); } else { LoggingPreSpends(w, bk, fl, f, stopped, c, e); }
    } else {
      if Post(f) { SilentPostSpends(w, bk, fl, f, stopped, c, e); } else { SilentPreSpends(w, bk, fl, f, stopped, c, e); }
    }
  }

  lemma WorkerSpends(w: World, s: State, i: nat, c: Choice, s': State)
    requires i < |s.workers| && Halted(s.flags) && WorkerStep(w, s, i, c) == Some(s')
    ensures s'.workers == s.workers[i := s'.workers[i]]
    ensures Begun(s'.book.log) + WorkerProspects(s'.workers[i]) <= Begun(s.book.log) + WorkerProspects(s.workers[i])
  {
    hide FrameStep, StackItems, TaskItems, PushAll, Enter, Begun, Prospects, Spends;
    assert Prospects(Bottom) == 0 by { BottomHasNone(); }
    if s.workers[i].Running? && s.workers[i].stack.On? {
      var f, stopped, below := s.workers[i].stack.top, s.workers[i].stopped, s.workers[i].stack.below;
      var e := FrameStep(w, s.book, s.flags, f, stopped, c).value;
      FrameSpends(w, s.book, s.flags, f, stopped, c, e);
      SpentByWorker(s.book, f, e, below);
      PushAllProspects(e.replace, below);
    }
  }

  lemma HaltedStays(w: World, s: State, m: Move, s': State)
    requires Halted(s.flags) && Step(w, s, m) == Some(s')
    ensures Halted(s'.flags)
  {
    hide FrameStep, StackItems, TaskItems, PushAll, Enter;
    StoppedStep(w, s, m, s');
    var i := m.worker;
    if s.workers[i].Running? && s.workers[i].stack.On? {
      FrameFlags(w, s.book, s.flags, s.workers[i].stack.top, s.workers[i].stopped, m.choice);
    }
  }

  lemma StepSpends(w: World, s: State, m: Move, s': State)
    requires Halted(s.flags) && Step(w, s, m) == Some(s')
    ensures Begun(s'.book.log) + AllProspects(s'.workers) <= Begun(s.book.log) + AllProspects(s.workers)
    ensures Halted(s'.flags)
  {
    hide WorkerStep, Begun, AllProspects, WorkerProspects, Halted;
    HaltedStays(w, s, m, s');
    WorkerSpends(w, s, m.worker, m.choice, s');
    ProspectsUpdate(s.workers, m.worker, s'.workers[m.worker]);
  }

  lemma SpentByWorker(bk: Book, f: Frame, e: Effect, below: Stack)
    requires Spends(bk, f, e)
    ensures Begun(e.book.log) + (if e.fail then 0 else FramesProspects(e.replace) + Prospects(below))
         <= Begun(bk.log) + Prospects(On(f, below))
  {
    hide Begun, FramesProspects, MayBegin;
  }

  lemma {:induction false} RunSpends(w: World, s: State, more: seq<Move>, s': State)
    requires Halted(s.flags) && Run(w, s, more) == Some(s')
    ensures Begun(s'.book.log) + AllProspects(s'.workers) <= Begun(s.book.log) + AllProspects(s.workers)
    ensures Halted(s'.flags)
  {
    hide Step, Begun, AllProspects, Halted;
    if more != [] {
      var k := |more| - 1;
      var mid := Run(w, s, more[..k]).value;
      RunSpends(w, s, more[..k], mid);
      StepSpends(w, mid, more[k], s');
    }
  }

  // ----- A worker has at most one entry in hand -----

  /** Only the frame on top may begin an evaluation. */
  predicate OnlyTop(s: Stack) {
    s.On? ==> Prospects(s.below) == 0
  }

  predicate AllOnlyTop(ws: seq<Worker>) {
    forall i :: 0 <= i < |ws| ==> InTask(ws[i]) ==> OnlyTop(ws[i].stack)
  }

  ghost predicate Shaped(e: Effect) {
    e.replace != [] ==> FramesProspects(e.replace[1..]) == 0
  }

  lemma TailProspects(fs: seq<Frame>)
    requires 0 < |fs| <= 2
    ensures FramesProspects(fs[1..]) == if |fs| == 2 && MayBegin(fs[1]) then 1 else 0
  {
    hide MayBegin;
    AtMostTwo(fs[1..]);
  }

  lemma PostKeepsShape(w: World, bk: Book, fl: Flags, f: Frame, stopped: bool, c: Choice, e: Effect)
    requires FrameStep(w, bk, fl, f, stopped, c) == Some(e) && Post(f)
    ensures Shaped(e)
  {
    hide FrameItems, C.Push, C.Finish, EachOwes, FreshAll, Units, Singles, Finish, FramesProspects,
      OpenDirectory, StartBatch, TakeOut, PayOne, Log, Reserve, Kids,
      StepPreLoop, StepPreVisiting, StepPreEvaluating, StepPreQuitting, StepPreDescending, StepPreListing, StepPreOffering;
    if 0 < |e.replace| <= 2 { TailProspects(e.replace); }
  }

  lemma PreKeepsShape(w: World, bk: Book, fl: Flags, f: Frame, stopped: bool, c: Choice, e: Effect)
    requires FrameStep(w, bk, fl, f, stopped, c) == Some(e) && !Post(f)
    ensures Shaped(e)
  {
    hide FrameItems, C.Push, C.Finish, C.ObserveQuit, EachOwes, FreshAll, FramesProspects, HandOut, Log, StartBatch,
      StepBatchStart, StepBatchLoop, StepVisiting, StepListing, StepOpenRecord, StepSpillCheck, StepCompleting,
      StepEvaluating, StepQuitting, StepNotifying, StepPublishing;
    if 0 < |e.replace| <= 2 { TailProspects(e.replace); }
  }

  lemma FrameKeepsShape(w: World, bk: Book, fl: Flags, f: Frame, stopped: bool, c: Choice, e: Effect)
    requires FrameStep(w, bk, fl, f, stopped, c) == Some(e)
    ensures Shaped(e)
  {
    hide FrameStep, Shaped;
    if Post(f) { PostKeepsShape(w, bk, fl, f, stopped, c, e); } else { PreKeepsShape(w, bk, fl, f, stopped, c, e); }
  }

  lemma PushAllShape(fs: seq<Frame>, below: Stack)
    requires Prospects(below) == 0 && (fs != [] ==> FramesProspects(fs[1..]) == 0)
    ensures OnlyTop(PushAll(fs, below))
  {
    hide Prospects, FramesProspects;
    if fs == [] {
      BelowNone(below);
    } else {
      PushAllProspects(fs[1..], below);
    }
  }

  lemma BelowNone(s: Stack)
    requires Prospects(s) == 0
    ensures OnlyTop(s)
  {
  }

  lemma ShapeStep(w: World, s: State, m: Move, s': State)
    requires AllOnlyTop(s.workers) && Step(w, s, m) == Some(s')
    ensures AllOnlyTop(s'.workers)
  {
    hide FrameStep, StackItems, TaskItems, PushAll, Enter, Prospects;
    var i := m.worker;
    assert s'.workers == s.workers[i := s'.workers[i]];
    assert InTask(s.workers[i]) ==> OnlyTop(s.workers[i].stack);
    if s.workers[i].Running? && s.workers[i].stack.On? {
      var f, stopped, below := s.workers[i].stack.top, s.workers[i].stopped, s.workers[i].stack.below;
      var e := FrameStep(w, s.book, s.flags, f, stopped, m.choice).value;
      FrameKeepsShape(w, s.book, s.flags, f, stopped, m.choice, e);
      PushAllShape(e.replace, below);
    }
    assert Prospects(Bottom) == 0 by { BottomHasNone(); }
  }

  lemma BottomHasNone()
    ensures Prospects(Bottom) == 0
  {
  }

  lemma {:induction false} ShapeRun(w: World, n: nat, moves: seq<Move>, s: State)
    requires Run(w, Initial(w, n), moves) == Some(s)
    ensures AllOnlyTop(s.workers)
  {
    hide Step, OnlyTop;
    if moves != [] {
      hide AllOnlyTop, Initial;
      var k := |moves| - 1;
      var mid := Run(w, Initial(w, n), moves[..k]).value;
      ShapeRun(w, n, moves[..k], mid);
      ShapeStep(w, mid, moves[k], s);
    }
  }

  lemma {:induction false} OneEach(ws: seq<Worker>)
    requires AllOnlyTop(ws)
    ensures AllProspects(ws) <= |ws|
  {
    if ws != [] {
      var rest := ws[..|ws| - 1];
      assert AllOnlyTop(rest);
      OneEach(rest);
      assert WorkerProspects(ws[|ws| - 1]) <= 1;
    }
  }

  /** After a stop has been carried out, every worker begins at most one more
      evaluation, the one of the entry it has in hand, whatever the schedule. */
  lemma OneMoreEach(w: World, n: nat, moves: seq<Move>, s: State, k: nat, more: seq<Move>, s': State)
    requires Run(w, Initial(w, n), moves) == Some(s) && k < |moves| && !CalmMove(moves[k])
    requires moves[k].worker < |s.workers| ==> !StopInHand(s.workers[moves[k].worker])
    requires Run(w, s, more) == Some(s')
    ensures Begun(s'.book.log) <= Begun(s.book.log) + |s.workers|
  {
    hide Run, Initial, StopInHand, Begun, AllProspects, AllOnlyTop, Inv, Total, PartsOk, LossOk, BookItems;
    StopRefusesWork(w, n, moves, s, k);
    RunKeeps(w, n, moves, s);
    RunSpends(w, s, more, s');
    ShapeRun(w, n, moves, s);
    OneEach(s.workers);
  }
}
