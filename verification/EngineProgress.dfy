/** No run of the parallel engine gets stuck, and after a stop nothing new is
    taken up. */
module EngineProgress {
  import opened Basics
  import opened Places
  import opened Barriers
  import opened Ledger
  import opened Engine
  import opened EngineFrames
  import opened EngineRuns
  import opened EngineOutcome
  import C = Chunking

  lemma FrameCanStep(w: World, bk: Book, fl: Flags, f: Frame, stopped: bool)
    requires FrameOk(w, f)
    ensures FrameStep(w, bk, fl, f, stopped, Proceed).Some?
  {
    hide FrameItems, C.Push, C.Finish, C.ObserveQuit, EachOwes, FreshAll, FreshUnits, Units, Singles, Finish, TellParent,
      HandOut, OpenDirectory, StartBatch, TakeOut, PayOne, Log, Reserve, AccIs, ChunksOk, Children;
  }

  /** A worker with a task always has a next step. */
  lemma BusyCanStep(w: World, s: State, i: nat)
    requires i < |s.workers| && WorkerOk(w, s.flags, s.workers[i])
    requires !s.workers[i].Polling? && !s.workers[i].Exited?
    ensures WorkerStep(w, s, i, Proceed).Some?
  {
    hide FrameOk, FrameStep, TaskItems, StackItems, PushAll, Enter, TaskOk;
    match s.workers[i]
    case Running(On(f, below), stopped) => FrameCanStep(w, s.book, s.flags, f, stopped);
    case _ =>
  }

  lemma {:induction false} SomeoneBusy(ws: seq<Worker>) returns (i: nat)
    requires CountedAll(ws) > 0
    ensures i < |ws| && Counted(ws[i]) > 0
  {
    hide Counted;
    if Counted(ws[|ws| - 1]) > 0 { return |ws| - 1; }
    i := SomeoneBusy(ws[..|ws| - 1]);
  }

  /** As long as some worker has not left, some worker can move: a worker waits
      at an empty queue only while another one still has a task. */
  lemma NeverStuck(w: World, n: nat, moves: seq<Move>, s: State) returns (m: Move)
    requires Run(w, Initial(w, n), moves) == Some(s) && !AllExited(s)
    ensures Step(w, s, m).Some? && m.choice != Quit && m.choice != Fail
  {
    hide Inv, Total, BookItems, LossOk, Run, Initial, CountedAll, WorkerOk, TaskOk;
    RunKeeps(w, n, moves, s);
    var i: nat :| i < |s.workers| && !s.workers[i].Exited?;
    if !s.workers[i].Polling? {
      BusyCanStep(w, s, i);
      return Move(i, Proceed);
    }
    if s.queue != [] { return Move(i, Pop(0)); }
    if s.outstanding == 0 { return Move(i, Leave); }
    SoundCount(w, s);
    var j := SomeoneBusy(s.workers);
    BusyCanStep(w, s, j);
    return Move(j, Proceed);
  }

  // ----- After a stop -----

  /** A task that is past the test for the stop and not yet in the queue. */
  function Underway(wk: Worker): nat {
    if wk.Pushing? && !wk.phase.CheckAccept? then 1 else 0
  }

  function UnderwayAll(ws: seq<Worker>): nat {
    if ws == [] then 0 else UnderwayAll(ws[..|ws| - 1]) + Underway(ws[|ws| - 1])
  }

  lemma {:induction false} UnderwayUpdate(ws: seq<Worker>, i: nat, v: Worker)
    requires i < |ws|
    ensures UnderwayAll(ws[i := v]) + Underway(ws[i]) == UnderwayAll(ws) + Underway(v)
  {
    hide Underway;
    var n := |ws| - 1;
    if i == n {
      assert ws[i := v][..n] == ws[..n];
    } else {
      assert ws[i := v][..n] == ws[..n][i := v];
      UnderwayUpdate(ws[..n], i, v);
    }
  }

  /** Tasks that are or will be queued. */
  function Backlog(s: State): nat {
    |s.queue| + UnderwayAll(s.workers)
  }

  lemma StoppedStep(w: World, s: State, m: Move, s': State)
    requires !s.flags.accepting && Step(w, s, m) == Some(s')
    ensures !s'.flags.accepting && Backlog(s') <= Backlog(s)
  {
    hide FrameStep, StackItems, TaskItems, PushAll, Enter, UnderwayAll;
    UnderwayUpdate(s.workers, m.worker, s'.workers[m.worker]);
    assert s'.workers == s.workers[m.worker := s'.workers[m.worker]];
    match s.workers[m.worker]
    case Running(On(f, _), stopped) => FrameFlags(w, s.book, s.flags, f, stopped, m.choice);
    case _ =>
  }

  predicate Underlies(s: State, s': State) {
    && |s'.workers| == |s.workers|
    && forall i :: 0 <= i < |s.workers| && (s'.workers[i].Running? || s'.workers[i].Pushing?)
         ==> s.workers[i].Running? || s.workers[i].Pushing?
  }

  lemma UnderliesStep(w: World, s: State, m: Move, s': State)
    requires !s.flags.accepting && Step(w, s, m) == Some(s')
    ensures Underlies(s, s')
  {
    hide FrameStep, StackItems, TaskItems, PushAll, Enter;
  }

  /** Once new work is refused it stays so; the tasks that are or will be queued
      never become more, and a worker runs a task only if it did so already:
      whatever is popped is thrown away. */
  lemma {:induction false} StopIsFinal(w: World, s: State, more: seq<Move>, s': State)
    requires !s.flags.accepting && Run(w, s, more) == Some(s')
    ensures !s'.flags.accepting && Backlog(s') <= Backlog(s) && Underlies(s, s')
  {
    hide Step, Backlog;
    if more != [] {
      var k := |more| - 1;
      var mid := Run(w, s, more[..k]).value;
      StopIsFinal(w, s, more[..k], mid);
      StoppedStep(w, mid, more[k], s');
      UnderliesStep(w, mid, more[k], s');
    }
  }
}
