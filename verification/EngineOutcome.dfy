/** How runs of the parallel engine end: idle detection, what a complete run has
    done, and that no run gets stuck. */
module EngineOutcome {
  import opened Basics
  import opened Places
  import opened Barriers
  import opened Ledger
  import opened Engine
  import opened EngineFrames
  import opened EngineRuns
  import C = Chunking

  // ----- The outstanding counter -----

  /** Tasks in this worker's hands that are counted as outstanding: the one it
      works on, and one it has counted but not yet stored. */
  function Counted(wk: Worker): nat {
    match wk
    case Holding(_) => 1
    case Running(_, _) => 1
    case Pushing(phase, _, _, _) => if phase.StoreTask? then 2 else 1
    case Closing(_) => 1
    case _ => 0
  }

  function CountedAll(ws: seq<Worker>): nat {
    if ws == [] then 0 else CountedAll(ws[..|ws| - 1]) + Counted(ws[|ws| - 1])
  }

  lemma WorkerJobs(wk: Worker)
    ensures WorkerItems(wk)[Job] == Counted(wk)
  {
    hide TaskItems, StackItems;
    match wk
    case Holding(task) => HoldingAt(task, Job); TaskJobFree(task, Job);
    case Running(stack, stopped) => RunningAt(stack, stopped, Job); StackJobFree(stack, Job);
    case Pushing(phase, task, stack, stopped) =>
      PushingAt(phase, task, stack, stopped, Job);
      TaskJobFree(task, Job);
      StackJobFree(stack, Job);
    case _ =>
  }

  lemma {:induction false} WorkersJobs(ws: seq<Worker>)
    ensures WorkersItems(ws)[Job] == CountedAll(ws)
  {
    hide WorkerItems, Counted;
    if ws != [] {
      WorkersJobs(ws[..|ws| - 1]);
      WorkerJobs(ws[|ws| - 1]);
    }
  }

  lemma {:induction false} QueueJobs(q: seq<Task>)
    ensures QueueItems(q)[Job] == |q|
  {
    hide QueuedItems;
    if q != [] {
      QueueJobs(q[..|q| - 1]);
      QueuedAt(q[|q| - 1], Job);
      TaskJobFree(q[|q| - 1], Job);
    }
  }

  lemma SoundCount(w: World, s: State)
    requires Sound(w, s)
    ensures s.outstanding == |s.queue| + CountedAll(s.workers)
  {
    hide Inv, Total, WorkersItems, QueueItems, BookItems, PartsOk;
    TotalAt(s, Job);
    WorkersJobs(s.workers);
    QueueJobs(s.queue);
  }

  /** In every reachable state the outstanding counter is the number of tasks
      queued, held by a worker, or counted and not yet stored. */
  lemma OutstandingIsExact(w: World, n: nat, moves: seq<Move>, s: State)
    requires Run(w, Initial(w, n), moves) == Some(s)
    ensures s.outstanding == |s.queue| + CountedAll(s.workers)
  {
    hide Sound, Run, Initial;
    RunKeeps(w, n, moves, s);
    SoundCount(w, s);
  }

  lemma {:induction false} CountedAtLeast(ws: seq<Worker>, i: nat)
    requires i < |ws|
    ensures CountedAll(ws) >= Counted(ws[i])
  {
    hide Counted;
    if i < |ws| - 1 { CountedAtLeast(ws[..|ws| - 1], i); }
  }

  // ----- Idle is final -----

  /** No task exists anywhere. */
  predicate Idle(s: State) {
    s.queue == [] && forall i :: 0 <= i < |s.workers| ==> Counted(s.workers[i]) == 0
  }

  lemma ZeroMeansIdle(w: World, s: State)
    requires Sound(w, s) && s.outstanding == 0
    ensures Idle(s)
  {
    hide Sound, Counted;
    SoundCount(w, s);
    forall i | 0 <= i < |s.workers| ensures Counted(s.workers[i]) == 0 { CountedAtLeast(s.workers, i); }
  }

  lemma IdleStays(w: World, s: State, m: Move, s': State)
    requires Idle(s) && Step(w, s, m) == Some(s')
    ensures Idle(s') && s'.book == s.book && s'.outstanding == s.outstanding
  {
    hide FrameStep, StackItems, TaskItems, PushAll, Enter;
    assert Counted(s.workers[m.worker]) == 0;
  }

  /** A worker leaves for good only when the counter is zero, and from then on
      no task exists, none can appear and nothing more is evaluated. */
  lemma {:induction false} IdleIsFinal(w: World, n: nat, moves: seq<Move>, s: State, more: seq<Move>, s': State)
    requires Run(w, Initial(w, n), moves) == Some(s) && s.outstanding == 0
    requires Run(w, s, more) == Some(s')
    ensures s'.queue == [] && CountedAll(s'.workers) == 0 && s'.outstanding == 0 && s'.book == s.book
  {
    hide Sound, Step, Initial;
    RunKeeps(w, n, moves, s);
    ZeroMeansIdle(w, s);
    IdleRuns(w, s, more, s');
    NoneCounted(s'.workers);
  }

  lemma {:induction false} IdleRuns(w: World, s: State, more: seq<Move>, s': State)
    requires Idle(s) && Run(w, s, more) == Some(s')
    ensures Idle(s') && s'.book == s.book && s'.outstanding == s.outstanding
  {
    hide Idle, Step;
    if more != [] {
      var k := |more| - 1;
      var mid := Run(w, s, more[..k]).value;
      IdleRuns(w, s, more[..k], mid);
      IdleStays(w, mid, more[k], s');
    }
  }

  lemma {:induction false} NoneCounted(ws: seq<Worker>)
    requires forall i :: 0 <= i < |ws| ==> Counted(ws[i]) == 0
    ensures CountedAll(ws) == 0
  {
    hide Counted;
    if ws != [] {
      var rest := ws[..|ws| - 1];
      forall i | 0 <= i < |rest| ensures Counted(rest[i]) == 0 { assert rest[i] == ws[i]; }
      NoneCounted(rest);
    }
  }

  /** Whoever is leaving saw the counter at zero, or the run has failed. */
  ghost predicate LeaversOk(s: State) {
    forall i :: 0 <= i < |s.workers| ==>
      (s.workers[i].Flushing? ==> s.outstanding == 0) && (s.workers[i].Exited? ==> s.outstanding == 0 || s.flags.fatal)
  }

  lemma LeaversStep(w: World, s: State, m: Move, s': State)
    requires Sound(w, s) && LeaversOk(s) && Step(w, s, m) == Some(s')
    ensures LeaversOk(s')
  {
    hide Inv, Total, Idle, BookItems, FrameStep, StackItems, TaskItems, PushAll, Enter, TaskOk, StackOk, LossOk;
    assert WorkerOk(w, s.flags, s.workers[m.worker]);
    hide WorkerOk;
    if s.outstanding == 0 {
      ZeroMeansIdle(w, s);
      IdleStays(w, s, m, s');
    } else {
      FlagsStep(w, s, m, s');
    }
  }

  lemma FlagsStep(w: World, s: State, m: Move, s': State)
    requires Sound(w, s) && Step(w, s, m) == Some(s')
    ensures Raised(s.flags, s'.flags)
  {
    hide Inv, Total, BookItems, StackItems, TaskItems, PushAll, Enter, FrameItems, PartsOk, LossOk;
    match s.workers[m.worker]
    case Running(On(f, _), stopped) => FrameFlags(w, s.book, s.flags, f, stopped, m.choice);
    case _ =>
  }

  lemma FrameFlags(w: World, bk: Book, fl: Flags, f: Frame, stopped: bool, c: Choice)
    requires FrameStep(w, bk, fl, f, stopped, c).Some?
    ensures Raised(fl, FrameStep(w, bk, fl, f, stopped, c).value.flags)
    ensures !fl.accepting ==> !FrameStep(w, bk, fl, f, stopped, c).value.flags.accepting
  {
    hide FrameItems, C.Push, C.Finish, C.ObserveQuit, EachOwes, FreshAll, Units, Singles, Finish, TellParent,
      HandOut, OpenDirectory, StartBatch, TakeOut, PayOne, Log, Reserve;
  }

  lemma {:induction false} LeaversRun(w: World, n: nat, moves: seq<Move>, s: State)
    requires Run(w, Initial(w, n), moves) == Some(s)
    ensures LeaversOk(s)
  {
    hide Sound, Step;
    if moves != [] {
      hide LeaversOk, Initial;
      var k := |moves| - 1;
      var mid := Run(w, Initial(w, n), moves[..k]).value;
      RunKeeps(w, n, moves[..k], mid);
      LeaversRun(w, n, moves[..k], mid);
      LeaversStep(w, mid, moves[k], s);
    }
  }

  // ----- A complete run -----

  lemma {:induction false} TableSource(t: Table<Place>, covers: map<BarrierId, Unit>, n: nat, x: Item) returns (d: BarrierId)
    requires TableItems(t, covers, n)[x] > 0
    ensures d < n && SlotItems(t, covers, d)[x] > 0
  {
    hide SlotItems;
    if SlotItems(t, covers, n - 1)[x] > 0 { return n - 1; }
    d := TableSource(t, covers, n - 1, x);
  }

  lemma Highest(s: set<nat>) returns (b: nat)
    requires s != {}
    ensures b in s && forall d :: d in s ==> d <= b
  {
    b :| b in s;
    assert forall d :: d in s ==> d == b || d in s - {b};
    if s - {b} != {} {
      var c := Highest(s - {b});
      if c > b { b := c; }
    }
  }

  lemma ChildAbove(w: World, bk: Book, t: multiset<Item>, b: BarrierId, u: Unit, d: BarrierId)
    requires Inv(w, bk, t) && SlotItems(bk.table, bk.covers, d)[Owe(b, u)] > 0
    ensures d in bk.table.records && b < d
  {
    assert BarrierOk(w, bk, t, d);
    var r := bk.table.records[d];
    if r.Directory? { EachOwesHas(r.notify, r.entry, b, u); }
  }

  lemma EachOwesHas(n: Option<BarrierId>, p: Place, b: BarrierId, u: Unit)
    requires EachOwes(n, [[p]])[Owe(b, u)] > 0
    ensures n == Some(b)
  {
    if n.Some? { OweAllCounts(n.value, [[p]], Owe(b, u)); }
  }

  lemma RecordsOwed(w: World, bk: Book, t: multiset<Item>, b: BarrierId) returns (u: Unit)
    requires Inv(w, bk, t) && b in bk.table.records
    ensures t[Owe(b, u)] + t[Pay(b, u)] == 1
  {
    assert BarrierOk(w, bk, t, b);
    u :| u in bk.due[b];
    assert SlotOk(w, bk, t, b, u);
  }

  lemma {:induction false} TableOwesOnly(t: Table<Place>, covers: map<BarrierId, Unit>, n: nat, x: Item)
    requires !x.Owe? && !x.Waiting?
    ensures TableItems(t, covers, n)[x] == 0
  {
    hide SlotItems;
    if n > 0 {
      TableOwesOnly(t, covers, n - 1, x);
      SlotOwesOnly(t, covers, n - 1, x);
    }
  }

  lemma SlotOwesOnly(t: Table<Place>, covers: map<BarrierId, Unit>, d: nat, x: Item)
    requires !x.Owe? && !x.Waiting?
    ensures SlotItems(t, covers, d)[x] == 0
  {
    if d in t.records && t.records[d].Directory? && t.records[d].notify.Some? {
      OweAllCounts(t.records[d].notify.value, [[t.records[d].entry]], x);
    }
  }

  /** A table whose records are all that is left is empty: the record with the
      highest id is owed a notification by nobody. */
  lemma NoStuckRecord(w: World, bk: Book, t: multiset<Item>)
    requires Inv(w, bk, t) && forall x: Item :: t[x] == BookItems(bk)[x]
    ensures bk.table.records == map[]
  {
    hide Inv, SlotItems;
    if bk.table.records.Keys != {} {
      var b := Highest(bk.table.records.Keys);
      var u := RecordsOwed(w, bk, t, b);
      TableOwesOnly(bk.table, bk.covers, bk.table.nextId, Pay(b, u));
      assert t[Pay(b, u)] == BookItems(bk)[Pay(b, u)] && t[Owe(b, u)] == BookItems(bk)[Owe(b, u)];
      var d := TableSource(bk.table, bk.covers, bk.table.nextId, Owe(b, u));
      ChildAbove(w, bk, t, b, u, d);
      assert false;
    }
  }

  lemma {:induction false} EmptyTable(t: Table<Place>, covers: map<BarrierId, Unit>, n: nat)
    requires t.records == map[]
    ensures TableItems(t, covers, n) == multiset{}
  {
    if n > 0 { EmptyTable(t, covers, n - 1); }
  }

  lemma NothingLeftAt(w: World, bk: Book, p: Place)
    requires PlaceOk(w, bk, multiset{}, p)
    ensures Settled(bk.log)[p] == if Born(w, bk.handed, p) then 1 else 0
    ensures Settled(bk.log)[p] > 0 ==> Handed(bk.handed, p) == Kids(w, p) && !BreaksOff(w, p)
    ensures p in bk.handed ==> Born(w, bk.handed, p)
    ensures Begins(bk.log)[p] == Ends(bk.log)[p]
    ensures Begins(bk.log)[p] > 0 ==> Evaluated(w, p)
    ensures Settled(bk.log)[p] > Ends(bk.log)[p] ==> !Evaluated(w, p)
  {
  }

  /** With nothing left to do, exactly the reachable places have been settled. */
  lemma {:induction false} ReachableBorn(w: World, bk: Book, p: Place)
    requires Inv(w, bk, multiset{})
    ensures Reachable(w, p) <==> Born(w, bk.handed, p)
    decreases |p|
  {
    hide Begins, Ends, Settled, Kids, PlaceOk, BreaksOff;
    if |p| > 1 {
      var up := p[..|p| - 1];
      ReachableBorn(w, bk, up);
      assert PlaceOk(w, bk, multiset{}, up);
      NothingLeftAt(w, bk, up);
    }
  }

  lemma Outcome(w: World, bk: Book, p: Place)
    requires Inv(w, bk, multiset{})
    ensures Reachable(w, p) ==> !BreaksOff(w, p)
    ensures Settled(bk.log)[p] == if Reachable(w, p) then 1 else 0
    ensures Begins(bk.log)[p] == Ends(bk.log)[p] == if Reachable(w, p) && Evaluated(w, p) then 1 else 0
  {
    assert PlaceOk(w, bk, multiset{}, p);
    hide Inv, Settled, Begins, Ends, Evaluated, Reachable, Born, PlaceOk, BreaksOff;
    NothingLeftAt(w, bk, p);
    ReachableBorn(w, bk, p);
    EndsAreSettled(bk.log);
  }

  predicate AllExited(s: State) {
    forall i :: 0 <= i < |s.workers| ==> s.workers[i].Exited?
  }

  lemma {:induction false} ExitedHoldNothing(ws: seq<Worker>, x: Item)
    requires forall i :: 0 <= i < |ws| ==> ws[i].Exited?
    ensures WorkersItems(ws)[x] == 0
  {
    if ws != [] {
      IdleAt(ws[|ws| - 1], x);
      ExitedHoldNothing(ws[..|ws| - 1], x);
    }
  }

  lemma OnlyTheTable(w: World, s: State)
    requires Sound(w, s) && AllExited(s) && s.queue == [] && !s.flags.quit && !s.flags.fatal
    ensures s.lost == multiset{}
    ensures forall x: Item :: Total(s)[x] == BookItems(s.book)[x]
  {
    hide Inv, BookItems, WorkersItems, QueueItems, Total, PartsOk;
    assert QueueItems(s.queue) == multiset{} by { NoQueue(); }
    forall x: Item ensures Total(s)[x] == BookItems(s.book)[x] + s.lost[x] {
      TotalAt(s, x);
      ExitedHoldNothing(s.workers, x);
    }
    assert Total(s)[Doom] == 0;
  }

  lemma NoQueue()
    ensures QueueItems([]) == multiset{}
  {
  }

  /** Both orders: when all workers have left and nobody asked to stop, no
      barrier is stuck, nothing was dropped, every reachable entry was settled
      exactly once, and exactly those to be evaluated were evaluated, once.  In
      pre-order no reachable listing broke off.  EngineCompletion says which runs
      end like this. */
  lemma CompleteRun(w: World, n: nat, moves: seq<Move>, s: State)
    requires Run(w, Initial(w, n), moves) == Some(s)
    requires n > 0 && AllExited(s) && !s.flags.quit && !s.flags.fatal
    ensures s.queue == [] && s.lost == multiset{} && s.book.table.records == map[] && s.outstanding == 0
    ensures forall p: Place :: Settled(s.book.log)[p] == if Reachable(w, p) then 1 else 0
    ensures forall p: Place :: Begins(s.book.log)[p] == Ends(s.book.log)[p] == if Reachable(w, p) && Evaluated(w, p) then 1 else 0
    ensures Unbroken(w)
  {
    hide Inv, BookItems, Total, Initial, PartsOk, LossOk, Reachable, Evaluated, Begins, Ends, Settled, BreaksOff;
    RunKeeps(w, n, moves, s);
    LeaversRun(w, n, moves, s);
    WorkersStay(w, Initial(w, n), moves, s);
    assert |Initial(w, n).workers| == n by { ManyWorkers(w, n); }
    assert s.workers[0].Exited?;
    ZeroMeansIdle(w, s);
    OnlyTheTable(w, s);
    NoStuckRecord(w, s.book, Total(s));
    assert Total(s) == multiset{} by { NothingHeld(s); }
    forall p: Place ensures Settled(s.book.log)[p] == (if Reachable(w, p) then 1 else 0)
      && (Reachable(w, p) ==> !BreaksOff(w, p))
      && Begins(s.book.log)[p] == Ends(s.book.log)[p] == (if Reachable(w, p) && Evaluated(w, p) then 1 else 0)
    {
      Outcome(w, s.book, p);
    }
  }

  lemma NothingHeld(s: State)
    requires s.book.table.records == map[] && forall x: Item :: Total(s)[x] == BookItems(s.book)[x]
    ensures Total(s) == multiset{}
  {
    hide Total;
    EmptyTable(s.book.table, s.book.covers, s.book.table.nextId);
    forall x: Item ensures Total(s)[x] == 0 {}
  }

  lemma ManyWorkers(w: World, n: nat)
    ensures |Initial(w, n).workers| == n
  {
  }

  lemma {:induction false} WorkersStay(w: World, s: State, moves: seq<Move>, s': State)
    requires Run(w, s, moves) == Some(s')
    ensures |s'.workers| == |s.workers|
  {
    hide FrameStep, StackItems, TaskItems, PushAll, Enter;
    if moves != [] { WorkersStay(w, s, moves[..|moves| - 1], Run(w, s, moves[..|moves| - 1]).value); }
  }
}
