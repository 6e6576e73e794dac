/** The invariant of the whole engine and its preservation by every step. */
module EngineRuns {
  import opened Basics
  import opened Places
  import opened Barriers
  import opened Ledger
  import opened Engine
  import opened EngineFrames
  import opened EngineSteps
  import opened EnginePreSteps
  import C = Chunking

  // ----- Who is responsible for what -----

  /** One Job for every task counted as outstanding. */
  function WorkerItems(wk: Worker): multiset<Item> {
    match wk
    case Holding(task) => multiset{Job} + TaskItems(task)
    case Running(stack, _) => multiset{Job} + StackItems(stack)
    case Pushing(phase, task, stack, _) =>
      multiset{Job} + TaskItems(task) + StackItems(stack) + if phase.StoreTask? then multiset{Job} else multiset{}
    case Closing(failed) => multiset{Job} + if failed then multiset{Doom} else multiset{}
    case Failing => multiset{Doom}
    case _ => multiset{}
  }

  function QueuedItems(task: Task): multiset<Item> {
    multiset{Job} + TaskItems(task)
  }

  function WorkersItems(ws: seq<Worker>): multiset<Item> {
    if ws == [] then multiset{} else WorkersItems(ws[..|ws| - 1]) + WorkerItems(ws[|ws| - 1])
  }

  function QueueItems(q: seq<Task>): multiset<Item> {
    if q == [] then multiset{} else QueueItems(q[..|q| - 1]) + QueuedItems(q[|q| - 1])
  }

  function Total(s: State): multiset<Item> {
    WorkersItems(s.workers) + QueueItems(s.queue) + BookItems(s.book) + s.lost
  }

  ghost predicate StackOk(w: World, fl: Flags, s: Stack) {
    match s
    case Bottom => true
    case On(f, below) => FrameOk(w, f) && QuitOk(fl, f) && StackOk(w, fl, below)
  }

  ghost predicate WorkerOk(w: World, fl: Flags, wk: Worker) {
    match wk
    case Holding(task) => TaskOk(w, task)
    case Running(stack, stopped) => StackOk(w, fl, stack) && (stopped ==> fl.quit)
    case Pushing(_, task, stack, stopped) => TaskOk(w, task) && StackOk(w, fl, stack) && (stopped ==> fl.quit)
    case FailingStore => fl.fatal
    case _ => true
  }

  ghost predicate PartsOk(w: World, s: State) {
    && (forall j :: 0 <= j < |s.queue| ==> TaskOk(w, s.queue[j]))
    && (forall i :: 0 <= i < |s.workers| ==> WorkerOk(w, s.flags, s.workers[i]))
  }

  /** Responsibilities are dropped only when the run is being cut short. */
  ghost predicate LossOk(s: State) {
    && s.lost[Job] == 0 && s.lost[Doom] == 0
    && (s.lost != multiset{} ==> s.flags.quit || s.flags.fatal || Total(s)[Doom] > 0)
  }

  ghost predicate Sound(w: World, s: State) {
    && Inv(w, s.book, Total(s))
    && s.outstanding == Total(s)[Job]
    && PartsOk(w, s)
    && LossOk(s)
    && JobFree(BookItems(s.book))
    && (!s.flags.accepting ==> s.flags.quit || s.flags.fatal)
  }

  // ----- Sums over workers and queue -----

  lemma {:induction false} WorkersUpdate(ws: seq<Worker>, i: nat, v: Worker, x: Item)
    requires i < |ws|
    ensures WorkersItems(ws[i := v])[x] + WorkerItems(ws[i])[x] == WorkersItems(ws)[x] + WorkerItems(v)[x]
  {
    hide WorkerItems;
    var n := |ws| - 1;
    if i == n {
      assert ws[i := v][..n] == ws[..n];
    } else {
      assert ws[i := v][..n] == ws[..n][i := v];
      WorkersUpdate(ws[..n], i, v, x);
    }
  }

  lemma {:induction false} WorkersHold(ws: seq<Worker>, i: nat, x: Item)
    requires i < |ws|
    ensures WorkersItems(ws)[x] >= WorkerItems(ws[i])[x]
  {
    hide WorkerItems;
    if i < |ws| - 1 { WorkersHold(ws[..|ws| - 1], i, x); }
  }

  lemma QueuePush(q: seq<Task>, task: Task, x: Item)
    ensures QueueItems(q + [task])[x] == QueueItems(q)[x] + QueuedItems(task)[x]
  {
    hide QueuedItems;
    assert (q + [task])[..|q|] == q;
  }

  lemma {:induction false} QueueTake(q: seq<Task>, j: nat, x: Item)
    requires j < |q|
    ensures QueueItems(q[..j] + q[j + 1..])[x] + QueuedItems(q[j])[x] == QueueItems(q)[x]
  {
    hide QueuedItems, QueueItems;
    var n := |q| - 1;
    LastQueued(q, x);
    if j == n {
      assert q[..j] + q[j + 1..] == q[..n];
    } else {
      var rest := q[..n][..j] + q[..n][j + 1..];
      QueueTake(q[..n], j, x);
      TakenLast(q, j);
      QueuePush(rest, q[n], x);
    }
  }

  lemma LastQueued(q: seq<Task>, x: Item)
    requires q != []
    ensures QueueItems(q)[x] == QueueItems(q[..|q| - 1])[x] + QueuedItems(q[|q| - 1])[x]
  {
    hide QueuedItems;
  }

  lemma TakenLast(q: seq<Task>, j: nat)
    requires j < |q| - 1
    ensures var n := |q| - 1; q[..j] + q[j + 1..] == (q[..n][..j] + q[..n][j + 1..]) + [q[n]]
  {
  }

  lemma TotalAt(s: State, x: Item)
    ensures Total(s)[x] == WorkersItems(s.workers)[x] + QueueItems(s.queue)[x] + BookItems(s.book)[x] + s.lost[x]
  {
    hide WorkersItems, QueueItems, BookItems;
  }

  lemma {:induction false} PushAllAt(fs: seq<Frame>, below: Stack, x: Item)
    ensures StackItems(PushAll(fs, below))[x] == FramesItems(fs)[x] + StackItems(below)[x]
  {
    hide FrameItems;
    if fs != [] {
      PushAllAt(fs[1..], below, x);
      var m, rest := FrameItems(fs[0]), PushAll(fs[1..], below);
      assert StackItems(On(fs[0], rest))[x] == m[x] + StackItems(rest)[x];
      assert FramesItems(fs)[x] == m[x] + FramesItems(fs[1..])[x];
    }
  }

  lemma {:induction false} PushAllOk(w: World, fl: Flags, fs: seq<Frame>, below: Stack)
    requires FramesOk(w, fl, fs) && StackOk(w, fl, below)
    ensures StackOk(w, fl, PushAll(fs, below))
  {
    hide FrameOk;
    if fs != [] {
      assert FrameOk(w, fs[0]) && QuitOk(fl, fs[0]);
      forall i | 0 <= i < |fs[1..]| ensures FrameOk(w, fs[1..][i]) && QuitOk(fl, fs[1..][i]) { assert fs[1..][i] == fs[i + 1]; }
      PushAllOk(w, fl, fs[1..], below);
    }
  }

  // ----- Flags are only ever raised -----

  predicate Raised(fl: Flags, fl': Flags) {
    (fl.quit ==> fl'.quit) && (fl.fatal ==> fl'.fatal)
  }

  lemma {:induction false} StackStaysOk(w: World, fl: Flags, fl': Flags, s: Stack)
    requires StackOk(w, fl, s) && Raised(fl, fl')
    ensures StackOk(w, fl', s)
  {
    hide FrameOk;
    match s
    case Bottom =>
    case On(f, below) => StackStaysOk(w, fl, fl', below);
  }

  lemma WorkerStaysOk(w: World, fl: Flags, fl': Flags, wk: Worker)
    requires WorkerOk(w, fl, wk) && Raised(fl, fl')
    ensures WorkerOk(w, fl', wk)
  {
    hide StackOk, TaskOk;
    match wk
    case Running(stack, _) => StackStaysOk(w, fl, fl', stack);
    case Pushing(_, _, stack, _) => StackStaysOk(w, fl, fl', stack);
    case _ =>
  }

  /** One worker moves on, and the queue keeps well-formed tasks. */
  lemma PartsStayOk(w: World, s: State, s': State, i: nat, v: Worker)
    requires PartsOk(w, s) && i < |s.workers| && s'.workers == s.workers[i := v]
    requires Raised(s.flags, s'.flags) && WorkerOk(w, s'.flags, v)
    requires forall j :: 0 <= j < |s'.queue| ==> TaskOk(w, s'.queue[j])
    ensures PartsOk(w, s')
  {
    hide WorkerOk, TaskOk;
    forall k | 0 <= k < |s'.workers| ensures WorkerOk(w, s'.flags, s'.workers[k]) {
      if k != i {
        assert WorkerOk(w, s.flags, s.workers[k]);
        WorkerStaysOk(w, s.flags, s'.flags, s.workers[k]);
      }
    }
  }

  // ----- Steps that leave the book alone -----

  /** Where worker i and the queue trade items, and what may have been lost. */
  ghost predicate Shifts(s: State, s': State, i: nat, v: Worker, x: Item)
    requires i < |s.workers|
  {
    WorkerItems(v)[x] + QueueItems(s'.queue)[x] + s'.lost[x]
    == WorkerItems(s.workers[i])[x] + QueueItems(s.queue)[x] + s.lost[x]
  }

  lemma ShiftedAt(s: State, s': State, i: nat, v: Worker, x: Item)
    requires i < |s.workers| && s'.workers == s.workers[i := v] && s'.book == s.book
    ensures Total(s')[x] + WorkerItems(s.workers[i])[x] + QueueItems(s.queue)[x] + s.lost[x]
         == Total(s)[x] + WorkerItems(v)[x] + QueueItems(s'.queue)[x] + s'.lost[x]
  {
    hide WorkersItems, WorkerItems, QueueItems, BookItems, Total;
    TotalAt(s, x);
    TotalAt(s', x);
    WorkersUpdate(s.workers, i, v, x);
  }

  lemma QuietStep(w: World, s: State, s': State, i: nat, v: Worker)
    requires Sound(w, s) && i < |s.workers| && s'.workers == s.workers[i := v] && s'.book == s.book
    requires Raised(s.flags, s'.flags) && WorkerOk(w, s'.flags, v)
    requires forall j :: 0 <= j < |s'.queue| ==> TaskOk(w, s'.queue[j])
    requires forall x: Item :: !IsJob(x) ==> Shifts(s, s', i, v, x)
    requires s'.outstanding + WorkerItems(s.workers[i])[Job] + QueueItems(s.queue)[Job]
          == s.outstanding + WorkerItems(v)[Job] + QueueItems(s'.queue)[Job]
    requires QueueItems(s.queue)[Doom] == QueueItems(s'.queue)[Doom]
    requires WorkerItems(v)[Doom] >= WorkerItems(s.workers[i])[Doom] || s'.flags.fatal
    requires s'.lost[Job] == 0 && s'.lost[Doom] == 0
    requires s'.lost == s.lost || s'.flags.quit || s'.flags.fatal
    requires !s'.flags.accepting ==> s'.flags.quit || s'.flags.fatal
    ensures Sound(w, s')
  {
    hide Inv, WorkersItems, WorkerItems, QueueItems, BookItems, Total, PartsOk, WorkerOk, TaskOk;
    forall x: Item | !IsJob(x) ensures Total(s')[x] == Total(s)[x] {
      assert Shifts(s, s', i, v, x);
      ShiftedAt(s, s', i, v, x);
    }
    JobsAreFree(w, s.book, Total(s), Total(s'));
    ShiftedAt(s, s', i, v, Job);
    ShiftedAt(s, s', i, v, Doom);
    PartsStayOk(w, s, s', i, v);
  }

  /** A task weighs one job and its own items. */
  lemma QueuedAt(task: Task, x: Item)
    ensures QueuedItems(task)[x] == TaskItems(task)[x] + if x == Job then 1 else 0
    ensures IsJob(x) ==> TaskItems(task)[x] == 0
  {
    if IsJob(x) { TaskJobFree(task, x); }
  }

  lemma {:induction false} StackJobFree(s: Stack, x: Item)
    requires IsJob(x)
    ensures StackItems(s)[x] == 0
  {
    hide FrameItems;
    match s
    case Bottom =>
    case On(f, below) =>
      var m := FrameItems(f);
      FrameJobFree(f, x);
      StackJobFree(below, x);
      assert StackItems(s)[x] == m[x] + StackItems(below)[x];
  }

  lemma HoldingAt(task: Task, x: Item)
    ensures WorkerItems(Holding(task))[x] == TaskItems(task)[x] + if x == Job then 1 else 0
  {
    hide TaskItems;
  }

  lemma RunningAt(stack: Stack, stopped: bool, x: Item)
    ensures WorkerItems(Running(stack, stopped))[x] == StackItems(stack)[x] + if x == Job then 1 else 0
  {
    hide StackItems;
  }

  lemma PushingAt(phase: PushPhase, task: Task, stack: Stack, stopped: bool, x: Item)
    ensures WorkerItems(Pushing(phase, task, stack, stopped))[x]
         == TaskItems(task)[x] + StackItems(stack)[x] + if x == Job then (if phase.StoreTask? then 2 else 1) else 0
  {
    hide StackItems, TaskItems;
  }

  /** A pop moves a task and its job from the queue to the worker. */
  lemma PopStep(w: World, s: State, i: nat, j: nat)
    requires Sound(w, s) && i < |s.workers| && s.workers[i].Polling? && j < |s.queue|
    ensures Sound(w, s.(queue := s.queue[..j] + s.queue[j + 1..], workers := s.workers[i := Holding(s.queue[j])]))
  {
    hide Inv, WorkersItems, WorkerItems, QueueItems, QueuedItems, BookItems, Total, TaskOk, TaskItems;
    var v, task := Holding(s.queue[j]), s.queue[j];
    var s' := s.(queue := s.queue[..j] + s.queue[j + 1..], workers := s.workers[i := v]);
    assert TaskOk(w, task);
    forall x: Item ensures Shifts(s, s', i, v, x) {
      HoldingAt(task, x);
      QueuedAt(task, x);
      QueueTake(s.queue, j, x);
      IdleAt(Polling, x);
    }
    assert Shifts(s, s', i, v, Job) && Shifts(s, s', i, v, Doom);
    HoldingAt(task, Doom);
    QueuedAt(task, Doom);
    IdleAt(Polling, Doom);
    QuietStep(w, s, s', i, v);
  }

  lemma IdleAt(wk: Worker, x: Item)
    requires wk.Polling? || wk.FailingStore? || wk.Flushing? || wk.Exited?
    ensures WorkerItems(wk)[x] == 0
  {
  }

  /** Between states without a task nothing of account happens. */
  lemma IdleStep(w: World, s: State, i: nat, v: Worker, fl: Flags)
    requires Sound(w, s) && i < |s.workers|
    requires s.workers[i].Polling? || s.workers[i].FailingStore? || s.workers[i].Flushing? || s.workers[i].Exited?
    requires v.Polling? || v.Flushing? || v.Exited?
    requires Raised(s.flags, fl) && (!fl.accepting ==> fl.quit || fl.fatal)
    ensures Sound(w, s.(workers := s.workers[i := v], flags := fl))
  {
    hide Inv, WorkersItems, WorkerItems, QueueItems, BookItems, Total, TaskOk;
    var s' := s.(workers := s.workers[i := v], flags := fl);
    forall x: Item ensures Shifts(s, s', i, v, x) {
      IdleAt(s.workers[i], x);
      IdleAt(v, x);
    }
    IdleAt(v, Doom);
    IdleAt(s.workers[i], Doom);
    IdleAt(v, Job);
    IdleAt(s.workers[i], Job);
    QuietStep(w, s, s', i, v);
  }

  // ----- Taking up and discarding a task -----

  lemma EnterRootAt(w: World, p: Place, x: Item)
    ensures FrameItems(Enter(w, Root(p)))[x] == TaskItems(Root(p))[x]
  {
    hide ClaimItems, FrameItems, TaskItems, FreshAll, FreshUnits, EachOwes;
    FrameAt(Enter(w, Root(p)), x);
    RootItems(p, x);
    FreshAllCounts([p], x);
    NoUnits(x);
    NothingOwed(x);
  }

  lemma RootItems(p: Place, x: Item)
    ensures TaskItems(Root(p))[x] == if x == Fresh(p) then 1 else 0
  {
    hide ClaimItems, TaskItems, FreshAll, FreshUnits, EachOwes;
    TaskAt(Root(p), x);
    FreshAllCounts([], x);
    NoUnits(x);
    NothingOwed(x);
  }

  lemma EnterAt(w: World, task: Task, x: Item)
    requires TaskOk(w, task)
    ensures FrameItems(Enter(w, task))[x] == TaskItems(task)[x]
  {
    hide ClaimItems, FreshAll, FreshUnits, EachOwes;
    if task.Root? {
      EnterRootAt(w, task.at, x);
    } else if task.SiblingChunk? && task.completion.None? {
      hide FrameItems, TaskItems;
      FrameAt(Enter(w, task), x);
      TaskAt(task, x);
      NothingOwed(x);
    } else {
      assert FrameClaim(Enter(w, task)) == TaskClaim(task);
    }
  }

  lemma TaskAt(task: Task, x: Item)
    ensures TaskItems(task)[x] == var c := TaskClaim(task);
      multiset(c.own)[x] + FreshAll(c.stock)[x] + FreshUnits(c.chunks)[x] + EachOwes(c.debtor, c.debts)[x]
  {
    hide ClaimItems, FreshAll, FreshUnits, EachOwes, TaskClaim;
    ClaimAt(TaskClaim(task), x);
  }

  lemma EnterOk(w: World, fl: Flags, task: Task)
    requires TaskOk(w, task)
    ensures StackOk(w, fl, On(Enter(w, task), Bottom))
  {
  }

  lemma SingleAt(f: Frame, x: Item)
    ensures StackItems(On(f, Bottom))[x] == FrameItems(f)[x]
  {
    hide FrameItems;
    var m := FrameItems(f);
    assert StackItems(On(f, Bottom))[x] == m[x] + StackItems(Bottom)[x];
  }

  lemma EnterStep(w: World, s: State, i: nat)
    requires Sound(w, s) && i < |s.workers| && s.workers[i].Holding?
    ensures Sound(w, s.(workers := s.workers[i := Running(On(Enter(w, s.workers[i].task), Bottom), false)]))
  {
    hide Inv, WorkersItems, WorkerItems, QueueItems, BookItems, Total, TaskItems, FrameItems, StackItems, Enter, TaskOk, StackOk;
    var task := s.workers[i].task;
    var stack := On(Enter(w, task), Bottom);
    var v := Running(stack, false);
    var s' := s.(workers := s.workers[i := v]);
    assert WorkerOk(w, s.flags, s.workers[i]);
    EnterOk(w, s.flags, task);
    forall x: Item ensures Shifts(s, s', i, v, x) {
      HoldingAt(task, x);
      RunningAt(stack, false, x);
      SingleAt(Enter(w, task), x);
      EnterAt(w, task, x);
    }
    assert Shifts(s, s', i, v, Job) && Shifts(s, s', i, v, Doom);
    QuietStep(w, s, s', i, v);
  }

  lemma ClosingAt(failed: bool, x: Item)
    ensures WorkerItems(Closing(failed))[x] == if x == Job || (failed && x == Doom) then 1 else 0
  {
  }

  /** After a stop a popped task is thrown away and still counted down. */
  lemma DiscardStep(w: World, s: State, i: nat)
    requires Sound(w, s) && i < |s.workers| && s.workers[i].Holding? && !s.flags.accepting
    ensures Sound(w, s.(workers := s.workers[i := Closing(false)], lost := s.lost + TaskItems(s.workers[i].task)))
  {
    hide Inv, WorkersItems, WorkerItems, QueueItems, BookItems, Total, TaskItems, TaskOk;
    var task, v := s.workers[i].task, Closing(false);
    var s' := s.(workers := s.workers[i := v], lost := s.lost + TaskItems(task));
    forall x: Item ensures Shifts(s, s', i, v, x) {
      HoldingAt(task, x);
      ClosingAt(false, x);
    }
    assert Shifts(s, s', i, v, Job) && Shifts(s, s', i, v, Doom);
    TaskJobFree(task, Job);
    TaskJobFree(task, Doom);
    HoldingAt(task, Doom);
    HoldingAt(task, Job);
    ClosingAt(false, Job);
    QuietStep(w, s, s', i, v);
  }

  lemma DoneStep(w: World, s: State, i: nat)
    requires Sound(w, s) && i < |s.workers| && s.workers[i].Running? && s.workers[i].stack.Bottom?
    ensures Sound(w, s.(workers := s.workers[i := Closing(false)]))
  {
    hide Inv, WorkersItems, WorkerItems, QueueItems, BookItems, Total, TaskOk;
    var v, stopped := Closing(false), s.workers[i].stopped;
    var s' := s.(workers := s.workers[i := v]);
    forall x: Item ensures Shifts(s, s', i, v, x) {
      RunningAt(Bottom, stopped, x);
      ClosingAt(false, x);
    }
    assert Shifts(s, s', i, v, Job) && Shifts(s, s', i, v, Doom);
    QuietStep(w, s, s', i, v);
  }

  /** A finished task is counted down. */
  lemma CountDownStep(w: World, s: State, i: nat)
    requires Sound(w, s) && i < |s.workers| && s.workers[i].Closing?
    ensures Sound(w, s.(outstanding := s.outstanding - 1, workers := s.workers[i := if s.workers[i].failed then Failing else Polling]))
  {
    hide Inv, WorkersItems, QueueItems, BookItems, Total, TaskOk;
    var failed := s.workers[i].failed;
    var v := if failed then Failing else Polling;
    var s' := s.(outstanding := s.outstanding - 1, workers := s.workers[i := v]);
    forall x: Item | !IsJob(x) ensures Shifts(s, s', i, v, x) { ClosingAt(failed, x); }
    ClosingAt(failed, Job);
    ClosingAt(failed, Doom);
    QuietStep(w, s, s', i, v);
  }

  lemma FatalStep(w: World, s: State, i: nat)
    requires Sound(w, s) && i < |s.workers| && s.workers[i].Failing?
    ensures Sound(w, s.(flags := s.flags.(fatal := true), workers := s.workers[i := FailingStore]))
  {
    hide Inv, WorkersItems, QueueItems, BookItems, Total, TaskOk;
    var s' := s.(flags := s.flags.(fatal := true), workers := s.workers[i := FailingStore]);
    forall x: Item | !IsJob(x) ensures Shifts(s, s', i, FailingStore, x) {}
    QuietStep(w, s, s', i, FailingStore);
  }

  lemma FlushFailsStep(w: World, s: State, i: nat)
    requires Sound(w, s) && i < |s.workers| && s.workers[i].Flushing?
    ensures Sound(w, s.(workers := s.workers[i := Failing]))
  {
    hide Inv, WorkersItems, QueueItems, BookItems, Total, TaskOk;
    var s' := s.(workers := s.workers[i := Failing]);
    forall x: Item | !IsJob(x) ensures Shifts(s, s', i, Failing, x) {}
    QuietStep(w, s, s', i, Failing);
  }

  // ----- Publishing a task -----

  lemma PushPhaseStep(w: World, s: State, i: nat, phase: PushPhase)
    requires Sound(w, s) && i < |s.workers| && s.workers[i].Pushing?
    requires (phase == CountTask && s.workers[i].phase == CheckAccept) || (phase == StoreTask && s.workers[i].phase == CountTask)
    ensures Sound(w, s.(workers := s.workers[i := s.workers[i].(phase := phase)],
                        outstanding := if phase.StoreTask? then s.outstanding + 1 else s.outstanding))
  {
    hide Inv, WorkersItems, WorkerItems, QueueItems, BookItems, Total, TaskOk, StackOk;
    var was, v := s.workers[i], s.workers[i].(phase := phase);
    var s' := s.(workers := s.workers[i := v], outstanding := if phase.StoreTask? then s.outstanding + 1 else s.outstanding);
    assert WorkerOk(w, s.flags, s.workers[i]);
    forall x: Item | x != Job ensures Shifts(s, s', i, v, x) {
      PushingAt(was.phase, was.task, was.stack, was.stopped, x);
      PushingAt(phase, was.task, was.stack, was.stopped, x);
    }
    assert Shifts(s, s', i, v, Doom);
    PushingAt(was.phase, was.task, was.stack, was.stopped, Job);
    PushingAt(phase, was.task, was.stack, was.stopped, Job);
    QuietStep(w, s, s', i, v);
  }

  lemma RefusedPushStep(w: World, s: State, i: nat)
    requires Sound(w, s) && i < |s.workers| && s.workers[i].Pushing? && s.workers[i].phase.CheckAccept? && !s.flags.accepting
    ensures Sound(w, s.(workers := s.workers[i := Running(s.workers[i].stack, s.workers[i].stopped)],
                        lost := s.lost + TaskItems(s.workers[i].task)))
  {
    hide Inv, WorkersItems, WorkerItems, QueueItems, BookItems, Total, TaskOk, StackOk, TaskItems;
    var wk := s.workers[i];
    var v := Running(wk.stack, wk.stopped);
    var s' := s.(workers := s.workers[i := v], lost := s.lost + TaskItems(wk.task));
    assert WorkerOk(w, s.flags, s.workers[i]);
    forall x: Item ensures Shifts(s, s', i, v, x) {
      PushingAt(wk.phase, wk.task, wk.stack, wk.stopped, x);
      RunningAt(wk.stack, wk.stopped, x);
    }
    assert Shifts(s, s', i, v, Job) && Shifts(s, s', i, v, Doom);
    TaskJobFree(wk.task, Job);
    TaskJobFree(wk.task, Doom);
    QuietStep(w, s, s', i, v);
  }

  lemma StoredPushStep(w: World, s: State, i: nat)
    requires Sound(w, s) && i < |s.workers| && s.workers[i].Pushing? && s.workers[i].phase.StoreTask?
    ensures Sound(w, s.(workers := s.workers[i := Running(s.workers[i].stack, s.workers[i].stopped)],
                        queue := s.queue + [s.workers[i].task]))
  {
    hide Inv, WorkersItems, WorkerItems, QueueItems, QueuedItems, BookItems, Total, TaskOk, StackOk, TaskItems;
    var wk := s.workers[i];
    var v := Running(wk.stack, wk.stopped);
    var s' := s.(workers := s.workers[i := v], queue := s.queue + [wk.task]);
    assert WorkerOk(w, s.flags, s.workers[i]);
    forall x: Item ensures Shifts(s, s', i, v, x) {
      PushingAt(wk.phase, wk.task, wk.stack, wk.stopped, x);
      RunningAt(wk.stack, wk.stopped, x);
      QueuePush(s.queue, wk.task, x);
      QueuedAt(wk.task, x);
    }
    assert Shifts(s, s', i, v, Job) && Shifts(s, s', i, v, Doom);
    QueuePush(s.queue, wk.task, Doom);
    QueuedAt(wk.task, Doom);
    QuietStep(w, s, s', i, v);
  }

  // ----- A step of the running frame -----

  /** What the rest of the engine holds while the frame f steps. */
  function Around(s: State, f: Frame): multiset<Item> {
    Total(s) - BookItems(s.book) - FrameItems(f)
  }

  lemma OnAt(f: Frame, below: Stack, x: Item)
    ensures StackItems(On(f, below))[x] == FrameItems(f)[x] + StackItems(below)[x]
  {
    var m := FrameItems(f);
    hide FrameItems;
    assert StackItems(On(f, below))[x] == m[x] + StackItems(below)[x];
  }

  lemma AroundAt(s: State, i: nat, f: Frame, below: Stack, stopped: bool, x: Item)
    requires i < |s.workers| && s.workers[i] == Running(On(f, below), stopped)
    ensures Around(s, f)[x] + BookItems(s.book)[x] + FrameItems(f)[x] == Total(s)[x]
  {
    hide WorkersItems, WorkerItems, QueueItems, BookItems, Total, FrameItems, StackItems;
    TotalAt(s, x);
    WorkersHold(s.workers, i, x);
    RunningAt(On(f, below), stopped, x);
    OnAt(f, below, x);
  }

  lemma Prepared(w: World, s: State, i: nat, f: Frame, below: Stack, stopped: bool)
    requires Sound(w, s) && i < |s.workers| && s.workers[i] == Running(On(f, below), stopped)
    ensures StepPre(w, s.book, s.flags, f, stopped, Around(s, f))
    ensures StackOk(w, s.flags, below)
  {
    hide Inv, BookItems, Total, FrameItems, FrameOk, Around;
    forall x: Item ensures (Around(s, f) + BookItems(s.book) + FrameItems(f))[x] == Total(s)[x] { AroundAt(s, i, f, below, stopped, x); }
    assert Around(s, f) + BookItems(s.book) + FrameItems(f) == Total(s);
    assert WorkerOk(w, s.flags, s.workers[i]);
  }

  /** The worker after its frame has stepped. */
  function Onward(e: Effect, below: Stack, stopped: bool): Worker {
    if e.fail then Closing(true)
    else if e.push.Some? then Pushing(CheckAccept, e.push.value, PushAll(e.replace, below), stopped || e.stop)
    else Running(PushAll(e.replace, below), stopped || e.stop)
  }

  function Shed(e: Effect, below: Stack): multiset<Item> {
    if e.fail then e.dropped + StackItems(below) else e.dropped
  }

  lemma OnwardAt(e: Effect, below: Stack, stopped: bool, x: Item)
    requires e.fail ==> e.replace == [] && e.push == None
    ensures WorkerItems(Onward(e, below, stopped))[x] + Shed(e, below)[x]
         == FramesItems(e.replace)[x] + PushItems(e.push)[x] + e.dropped[x] + StackItems(below)[x]
            + (if x == Job then 1 else 0) + (if e.fail && x == Doom then 1 else 0)
  {
    hide StackItems, FramesItems, TaskItems, WorkerItems;
    if e.fail {
      ClosingAt(true, x);
      NoFrames(x);
    } else {
      var stack := PushAll(e.replace, below);
      PushAllAt(e.replace, below, x);
      match e.push
      case None => RunningAt(stack, stopped || e.stop, x);
      case Some(task) => PushingAt(CheckAccept, task, stack, stopped || e.stop, x);
    }
  }

  lemma NoFrames(x: Item)
    ensures FramesItems([])[x] == 0
  {
  }

  lemma TotalAfter(s: State, s': State, i: nat, f: Frame, below: Stack, stopped: bool, e: Effect, x: Item)
    requires i < |s.workers| && s.workers[i] == Running(On(f, below), stopped)
    requires e.fail ==> e.replace == [] && e.push == None
    requires s'.workers == s.workers[i := Onward(e, below, stopped)] && s'.queue == s.queue
    requires s'.book == e.book && s'.lost == s.lost + Shed(e, below)
    ensures Total(s')[x] == Around(s, f)[x] + EffectItems(e)[x] + if e.fail && x == Doom then 1 else 0
  {
    hide WorkersItems, WorkerItems, QueueItems, BookItems, Total, FrameItems, StackItems, EffectItems, Around, Onward, Shed;
    TotalAt(s, x);
    TotalAt(s', x);
    AroundAt(s, i, f, below, stopped, x);
    WorkersUpdate(s.workers, i, Onward(e, below, stopped), x);
    RunningAt(On(f, below), stopped, x);
    OnAt(f, below, x);
    OnwardAt(e, below, stopped, x);
    EffectAt(e, x);
  }

  lemma FailsClean(w: World, bk: Book, fl: Flags, f: Frame, stopped: bool, c: Choice, e: Effect)
    requires FrameStep(w, bk, fl, f, stopped, c) == Some(e) && e.fail
    ensures e.replace == [] && e.push == None
  {
    hide FrameItems, HandOut, OpenDirectory, StartBatch, C.Push, C.Finish, Finish, Log, TakeOut, PayOne, C.ObserveQuit, Reserve;
  }

  lemma OnwardOk(w: World, bk: Book, fl: Flags, e: Effect, below: Stack, stopped: bool, r: multiset<Item>)
    requires StepOk(w, bk, fl, stopped, e, r) && StackOk(w, fl, below) && (stopped ==> fl.quit)
    ensures Raised(fl, e.flags) && WorkerOk(w, e.flags, Onward(e, below, stopped))
  {
    hide Inv, EffectItems, TaskOk, FramesOk;
    StackStaysOk(w, fl, e.flags, below);
    PushAllOk(w, e.flags, e.replace, below);
  }

  lemma LossAfter(s: State, s': State, below: Stack, e: Effect)
    requires LossOk(s) && Raised(s.flags, e.flags) && s'.flags == e.flags
    requires s'.lost == s.lost + Shed(e, below)
    requires JobFree(EffectItems(e)) && (e.dropped != multiset{} ==> e.fail || e.flags.quit || e.flags.fatal)
    requires Total(s')[Doom] == Total(s)[Doom] + if e.fail then 1 else 0
    ensures LossOk(s')
  {
    hide StackItems, Total, EffectItems;
    EffectAt(e, Job);
    EffectAt(e, Doom);
    StackJobFree(below, Job);
    StackJobFree(below, Doom);
  }

  lemma FrameStepKeeps(w: World, s: State, i: nat, f: Frame, below: Stack, stopped: bool, c: Choice, e: Effect, s': State)
    requires Sound(w, s) && i < |s.workers| && s.workers[i] == Running(On(f, below), stopped)
    requires FrameStep(w, s.book, s.flags, f, stopped, c) == Some(e)
    requires s' == s.(book := e.book, flags := e.flags, workers := s.workers[i := Onward(e, below, stopped)],
                      lost := s.lost + Shed(e, below))
    ensures Sound(w, s')
  {
    hide Inv, WorkersItems, WorkerItems, QueueItems, BookItems, Total, FrameItems, StackItems, EffectItems,
      Around, Onward, Shed, FrameStep, StepPre, TaskOk, FramesOk, LossOk, PartsOk;
    var r := Around(s, f);
    Prepared(w, s, i, f, below, stopped);
    FrameStepOk(w, s.book, s.flags, stopped, r, f, c, e);
    assert stopped ==> s.flags.quit by { StoppedQuits(w, s, i); }
    OnwardOk(w, s.book, s.flags, e, below, stopped, r);
    if e.fail { FailsClean(w, s.book, s.flags, f, stopped, c, e); }
    forall x: Item | !IsJob(x) ensures Total(s')[x] == (r + EffectItems(e))[x] { TotalAfter(s, s', i, f, below, stopped, e, x); }
    JobsAreFree(w, e.book, r + EffectItems(e), Total(s'));
    JobsAfter(s, s', i, f, below, stopped, e);
    QueueOk(w, s);
    PartsStayOk(w, s, s', i, Onward(e, below, stopped));
    LossAfter(s, s', below, e);
    assert JobFree(BookItems(e.book)) by { EffectAt(e, Job); EffectAt(e, Doom); }
  }

  lemma QueueOk(w: World, s: State)
    requires PartsOk(w, s)
    ensures forall j :: 0 <= j < |s.queue| ==> TaskOk(w, s.queue[j])
  {
  }

  lemma StoppedQuits(w: World, s: State, i: nat)
    requires PartsOk(w, s) && i < |s.workers| && s.workers[i].Running?
    ensures s.workers[i].stopped ==> s.flags.quit
  {
    assert WorkerOk(w, s.flags, s.workers[i]);
  }

  lemma JobsAfter(s: State, s': State, i: nat, f: Frame, below: Stack, stopped: bool, e: Effect)
    requires i < |s.workers| && s.workers[i] == Running(On(f, below), stopped)
    requires e.fail ==> e.replace == [] && e.push == None
    requires s' == s.(book := e.book, flags := e.flags, workers := s.workers[i := Onward(e, below, stopped)],
                      lost := s.lost + Shed(e, below))
    requires JobFree(EffectItems(e)) && JobFree(BookItems(s.book))
    ensures Total(s')[Job] == Total(s)[Job]
    ensures Total(s')[Doom] == Total(s)[Doom] + if e.fail then 1 else 0
  {
    hide BookItems, Total, FrameItems, StackItems, EffectItems, Around, Onward, Shed;
    forall x | IsJob(x) ensures Total(s')[x] == Total(s)[x] + if e.fail && x == Doom then 1 else 0 {
      TotalAfter(s, s', i, f, below, stopped, e, x);
      AroundAt(s, i, f, below, stopped, x);
      FrameJobFree(f, x);
    }
  }

  // ----- Any step -----

  lemma RunningKeeps(w: World, s: State, i: nat, c: Choice, s': State)
    requires Sound(w, s) && i < |s.workers| && s.workers[i].Running?
    requires WorkerStep(w, s, i, c) == Some(s')
    ensures Sound(w, s')
  {
    hide Sound, FrameStep, StackItems;
    match s.workers[i].stack
    case Bottom => DoneStep(w, s, i);
    case On(f, below) =>
      var stopped := s.workers[i].stopped;
      var e := FrameStep(w, s.book, s.flags, f, stopped, c).value;
      FrameStepKeeps(w, s, i, f, below, stopped, c, e, s');
  }

  lemma PushingKeeps(w: World, s: State, i: nat, c: Choice, s': State)
    requires Sound(w, s) && i < |s.workers| && s.workers[i].Pushing?
    requires WorkerStep(w, s, i, c) == Some(s')
    ensures Sound(w, s')
  {
    hide Sound, FrameStep, TaskItems;
    match s.workers[i].phase
    case CheckAccept =>
      if s.flags.accepting { PushPhaseStep(w, s, i, CountTask); } else { RefusedPushStep(w, s, i); }
    case CountTask => PushPhaseStep(w, s, i, StoreTask);
    case StoreTask => StoredPushStep(w, s, i);
  }

  lemma OtherKeeps(w: World, s: State, i: nat, c: Choice, s': State)
    requires Sound(w, s) && i < |s.workers| && !s.workers[i].Running? && !s.workers[i].Pushing?
    requires WorkerStep(w, s, i, c) == Some(s')
    ensures Sound(w, s')
  {
    hide Inv, WorkersItems, WorkerItems, QueueItems, BookItems, Total, TaskItems, PartsOk, LossOk, FrameStep;
    match s.workers[i]
    case Polling => if c.Pop? { PopStep(w, s, i, c.index); } else { IdleStep(w, s, i, Flushing, s.flags); }
    case Holding(_) => if s.flags.accepting { EnterStep(w, s, i); } else { DiscardStep(w, s, i); }
    case Closing(_) => CountDownStep(w, s, i);
    case Failing => FatalStep(w, s, i);
    case FailingStore => StopStep(w, s, i);
    case Flushing => if c == Fail { FlushFailsStep(w, s, i); } else { IdleStep(w, s, i, Exited, s.flags); }
    case _ =>
  }

  lemma StopStep(w: World, s: State, i: nat)
    requires Sound(w, s) && i < |s.workers| && s.workers[i].FailingStore?
    ensures Sound(w, s.(flags := s.flags.(accepting := false), workers := s.workers[i := Exited]))
  {
    hide Inv, WorkersItems, QueueItems, BookItems, Total, LossOk;
    assert WorkerOk(w, s.flags, s.workers[i]);
    IdleStep(w, s, i, Exited, s.flags.(accepting := false));
  }

  /** Whatever worker moves, the invariant is kept. */
  lemma StepKeeps(w: World, s: State, m: Move, s': State)
    requires Sound(w, s) && Step(w, s, m) == Some(s')
    ensures Sound(w, s')
  {
    hide Sound, WorkerStep;
    var wk := s.workers[m.worker];
    if wk.Running? { RunningKeeps(w, s, m.worker, m.choice, s'); }
    else if wk.Pushing? { PushingKeeps(w, s, m.worker, m.choice, s'); }
    else { OtherKeeps(w, s, m.worker, m.choice, s'); }
  }

  // ----- The start -----

  lemma {:induction false} RootsQueued(n: nat, x: Item)
    ensures var q := seq(n, (i: nat) => Root([i]));
      QueueItems(q)[x] == (if x == Job then n else if x.Fresh? && |x.at| == 1 && x.at[0] < n then 1 else 0)
  {
    hide QueuedItems;
    if n > 0 {
      var q := seq(n, (i: nat) => Root([i]));
      assert q[..n - 1] == seq(n - 1, (i: nat) => Root([i]));
      RootsQueued(n - 1, x);
      RootAt([n - 1], x);
      assert x.Fresh? && |x.at| == 1 && x.at[0] == n - 1 ==> x.at == [n - 1];
    }
  }

  lemma RootAt(p: Place, x: Item)
    ensures QueuedItems(Root(p))[x] == if x == Job || x == Fresh(p) then 1 else 0
  {
    hide TaskItems;
    QueuedAt(Root(p), x);
    RootItems(p, x);
  }

  lemma {:induction false} AllPolling(n: nat, x: Item)
    ensures WorkersItems(seq(n, (i: nat) => Polling))[x] == 0
  {
    if n > 0 {
      var ws := seq(n, (i: nat) => Polling);
      assert ws[..n - 1] == seq(n - 1, (i: nat) => Polling);
      AllPolling(n - 1, x);
    }
  }

  lemma InitialAt(w: World, n: nat, x: Item)
    ensures Total(Initial(w, n))[x]
      == (if x == Job then w.roots else if x.Fresh? && |x.at| == 1 && x.at[0] < w.roots then 1 else 0)
  {
    hide QueueItems, WorkersItems;
    TotalAt(Initial(w, n), x);
    RootsQueued(w.roots, x);
    AllPolling(n, x);
  }

  /** To begin with, the start paths are all there is. */
  lemma StartInv(w: World, bk: Book, t: multiset<Item>)
    requires bk == Book(Table(0, map[]), map[], map[], map[], [])
    requires forall x: Item :: t[x] == (if x == Job then w.roots else if x.Fresh? && |x.at| == 1 && x.at[0] < w.roots then 1 else 0)
    ensures Inv(w, bk, t)
  {
    forall b: BarrierId, u: Unit ensures SlotOk(w, bk, t, b, u) {}
    forall b: BarrierId ensures BarrierOk(w, bk, t, b) {}
    forall p: Place ensures PlaceOk(w, bk, t, p) {}
    forall p: Place, k: nat ensures ExpandOk(w, bk, t, p, k) {}
  }

  lemma InitialSound(w: World, n: nat)
    ensures Sound(w, Initial(w, n))
  {
    hide Inv, Total, Initial, LossOk, PartsOk;
    var s := Initial(w, n);
    forall x: Item ensures Total(s)[x] == (if x == Job then w.roots else if x.Fresh? && |x.at| == 1 && x.at[0] < w.roots then 1 else 0) {
      InitialAt(w, n, x);
    }
    InitialParts(w, n);
    StartInv(w, s.book, Total(s));
  }

  lemma InitialParts(w: World, n: nat)
    ensures var s := Initial(w, n);
      && s.book == Book(Table(0, map[]), map[], map[], map[], []) && s.outstanding == w.roots
      && PartsOk(w, s) && LossOk(s) && s.flags.accepting && JobFree(BookItems(s.book))
  {
    hide Total;
  }

  /** The invariant holds in every state any schedule can reach. */
  lemma {:induction false} RunKeeps(w: World, n: nat, moves: seq<Move>, s: State)
    requires Run(w, Initial(w, n), moves) == Some(s)
    ensures Sound(w, s)
  {
    hide Sound, Step, Initial;
    if moves == [] {
      InitialSound(w, n);
    } else {
      var k := |moves| - 1;
      var mid := Run(w, Initial(w, n), moves[..k]).value;
      RunKeeps(w, n, moves[..k], mid);
      StepKeeps(w, mid, moves[k], s);
    }
  }
}
