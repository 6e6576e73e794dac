/** The parallel engine as a machine of atomic steps.

    Every load or store of a shared flag, every update of the outstanding
    counter, every queue operation and every use of the barrier table is one
    step of one worker.  A worker's control point is a stack of frames, one per
    active call of the engine's functions.  Move says which worker goes next and
    settles what the code leaves to its surroundings: which task a pop returns,
    what an evaluation does, whether a write of a diagnostic fails.  Where the
    code loads the quit flag and then the fatal flag, one step looks at both:
    neither flag is ever lowered, so the two loads come to the same as one.

    The fields due, covers and handed of the book, lost in the state and unit in
    a notification are bookkeeping: steps keep them up to date and what else a
    step does is independent of them. */
module Engine {
  import opened Basics
  import opened Places
  import opened Barriers
  import opened Ledger
  import C = Chunking

  type Acc = C.Chunks<Place>

  datatype Task =
    | Root(at: Place)
    | SiblingChunk(pending: seq<Place>, completion: Option<BarrierId>)
    | PostOrderResume(dir: Place, notify: Option<BarrierId>)

  datatype Frame =
    // post-order
    | BatchStart(initial: seq<Place>, completion: Option<BarrierId>)
    | BatchRecord(id: BarrierId, initial: seq<Place>, parent: BarrierId)
    | BatchLoop(rest: seq<Place>, completion: Option<BarrierId>)
    | Visiting(at: Place, notify: Option<BarrierId>)
    | Listing(at: Place, notify: Option<BarrierId>, found: nat, acc: Acc)
    | OpenRecord(id: BarrierId, at: Place, notify: Option<BarrierId>, plan: C.Plan<Place>)
    | SpillCheck(chunks: seq<Unit>, barrier: BarrierId)
    | Completing(at: Place, notify: Option<BarrierId>, resumed: bool)
    | Evaluating(at: Place, notify: Option<BarrierId>, resumed: bool)
    | Quitting(at: Place, notify: Option<BarrierId>, resumed: bool)
    | Notifying(barrier: BarrierId, unit: Unit)
    // both orders
    | Publishing(chunks: seq<Unit>, completion: Option<BarrierId>)
    // pre-order
    | PreLoop(stack: seq<Place>)
    | PreVisiting(at: Place, stack: seq<Place>)
    | PreEvaluating(at: Place, stack: seq<Place>)
    | PreQuitting(at: Place, stack: seq<Place>)
    | PreDescending(at: Place, stack: seq<Place>)
    | PreListing(at: Place, found: nat, acc: Acc, stack: seq<Place>)
    | PreOffering(at: Place, found: nat, acc: Acc, stack: seq<Place>)

  datatype Stack = Bottom | On(top: Frame, below: Stack)

  datatype PushPhase = CheckAccept | CountTask | StoreTask

  datatype Worker =
    | Polling
    | Holding(task: Task)
    | Running(stack: Stack, stopped: bool)
    | Pushing(phase: PushPhase, task: Task, stack: Stack, stopped: bool)
    | Closing(failed: bool)
    | Failing
    | FailingStore
    | Flushing
    | Exited

  datatype Flags = Flags(quit: bool, fatal: bool, accepting: bool)

  datatype State = State(
    book: Book,
    flags: Flags,
    queue: seq<Task>,
    outstanding: int,
    workers: seq<Worker>,
    lost: multiset<Item>)

  datatype Choice =
    | Proceed        // the ordinary outcome
    | Leave          // the idle test succeeded
    | Quit           // the evaluation runs -quit
    | Fail           // an error that ends the task
    | Pop(index: nat)

  datatype Move = Move(worker: nat, choice: Choice)

  // ----- What frames and tasks are responsible for -----

  /** own: single items; stock and chunks: places still to be visited; debtor
      and debts: notifications that will be due. */
  datatype Claim = Claim(own: seq<Item>, stock: seq<Place>, chunks: seq<Unit>, debtor: Option<BarrierId>, debts: seq<Unit>)

  function EachOwes(n: Option<BarrierId>, units: seq<Unit>): multiset<Item> {
    match n case None => multiset{} case Some(b) => OweAll(b, units)
  }

  function ClaimItems(c: Claim): multiset<Item> {
    multiset(c.own) + FreshAll(c.stock) + FreshUnits(c.chunks) + EachOwes(c.debtor, c.debts)
  }

  function TaskClaim(t: Task): Claim {
    match t
    case Root(p) => Claim([Fresh(p)], [], [], None, [])
    case SiblingChunk(ps, c) => Claim([], ps, [], c, [ps])
    case PostOrderResume(p, n) => Claim([Ready(p)], [], [], n, [[p]])
  }

  function FrameClaim(f: Frame): Claim {
    match f
    case BatchStart(ps, c) => Claim([], ps, [], c, [ps])
    case BatchRecord(id, ps, parent) => Claim([Id(id)], ps, [], Some(parent), [ps])
    case BatchLoop(ps, c) => Claim([], ps, [], c, Singles(ps))
    case Visiting(p, n) => Claim([Fresh(p)], [], [], n, [[p]])
    case Listing(p, n, _, _) => Claim([Fresh(p)], [], [], n, [[p]])
    case OpenRecord(id, p, n, _) => Claim([Fresh(p), Id(id)], [], [], n, [[p]])
    case SpillCheck(chunks, b) => Claim([], [], chunks, Some(b), chunks)
    case Completing(p, n, _) => Claim([Ready(p)], [], [], n, [[p]])
    case Evaluating(p, n, _) => Claim([Active(p)], [], [], n, [[p]])
    case Quitting(p, n, _) => Claim([Active(p)], [], [], n, [[p]])
    case Notifying(b, u) => Claim([Pay(b, u)], [], [], None, [])
    case Publishing(chunks, c) => Claim([], [], chunks, c, chunks)
    case PreLoop(ps) => Claim([], ps, [], None, [])
    case PreVisiting(p, ps) => Claim([Fresh(p)], ps, [], None, [])
    case PreEvaluating(p, ps) => Claim([Active(p)], ps, [], None, [])
    case PreQuitting(p, ps) => Claim([Active(p)], ps, [], None, [])
    case PreDescending(p, ps) => Claim([Expand(p, 0)], ps, [], None, [])
    case PreListing(p, k, acc, ps) => Claim([Expand(p, k)], acc.local + acc.buffer + ps, acc.spilled, None, [])
    case PreOffering(p, k, acc, ps) => Claim([Expand(p, k)], acc.local + acc.buffer + ps, acc.spilled, None, [])
  }

  function TaskItems(t: Task): multiset<Item> {
    ClaimItems(TaskClaim(t))
  }

  function FrameItems(f: Frame): multiset<Item> {
    ClaimItems(FrameClaim(f))
  }

  function FramesItems(fs: seq<Frame>): multiset<Item> {
    if fs == [] then multiset{} else FrameItems(fs[0]) + FramesItems(fs[1..])
  }

  function StackItems(s: Stack): multiset<Item> {
    match s case Bottom => multiset{} case On(f, below) => FrameItems(f) + StackItems(below)
  }

  // ----- One step inside a task -----

  /** What a frame turns into.  replace lists the frames that take its place,
      the one to run next first. */
  datatype Effect = Effect(
    book: Book,
    flags: Flags,
    replace: seq<Frame>,
    push: Option<Task>,
    dropped: multiset<Item>,
    stop: bool,
    fail: bool)

  /** The frame is replaced and nothing else happens. */
  function Becomes(bk: Book, fl: Flags, fs: seq<Frame>): Effect {
    Effect(bk, fl, fs, None, multiset{}, false, false)
  }

  /** The call returns early and forgets what it was responsible for. */
  function Abandons(bk: Book, fl: Flags, items: multiset<Item>): Effect {
    Effect(bk, fl, [], None, items, false, false)
  }

  function Aborts(bk: Book, fl: Flags, f: Frame): Effect {
    Effect(bk, fl, [], None, FrameItems(f), false, true)
  }

  function TellParent(notify: Option<BarrierId>, p: Place): seq<Frame> {
    match notify case None => [] case Some(b) => [Notifying(b, [p])]
  }

  function Units(plan: C.Plan<Place>): seq<Unit> {
    (if plan.local == [] then [] else [plan.local]) + plan.spilled
  }

  // Post-order: run_postorder_pending_batch and what it calls.

  function StepBatchStart(bk: Book, fl: Flags, ps: seq<Place>, completion: Option<BarrierId>): Effect {
    if completion.Some? && |ps| > 1 then
      Becomes(bk.(table := Reserve(bk.table)), fl, [BatchRecord(bk.table.nextId, ps, completion.value)])
    else Becomes(bk, fl, [BatchLoop(ps, completion)])
  }

  function StepBatchLoop(bk: Book, fl: Flags, ps: seq<Place>, completion: Option<BarrierId>, stopped: bool, c: Choice): Option<Effect> {
    if ps == [] then (if c == Proceed then Some(Becomes(bk, fl, [])) else None)
    else if c != Proceed then None
    else if stopped || fl.quit || fl.fatal then Some(Abandons(bk, fl, FrameItems(BatchLoop(ps, completion))))
    else Some(Becomes(bk, fl, [Visiting(ps[0], completion), BatchLoop(ps[1..], completion)]))
  }

  function StepVisiting(w: World, bk: Book, fl: Flags, p: Place, notify: Option<BarrierId>, c: Choice): Option<Effect> {
    match w.visit(p)
    case Readable(Closed) =>
      if c == Proceed then Some(Becomes(bk, fl, [Completing(p, notify, false)])) else None
    case Readable(Lists(_, _)) =>
      if c == Proceed then Some(Becomes(bk, fl, [Listing(p, notify, 0, C.Chunks([], [], []))])) else None
    case _ =>
      if c == Proceed then Some(Becomes(Log(bk, Reported(p)), fl, TellParent(notify, p)))
      else if c == Fail then Some(Aborts(bk, fl, Visiting(p, notify)))
      else None
  }

  function StepListing(w: World, bk: Book, fl: Flags, p: Place, notify: Option<BarrierId>, k: nat, acc: Acc, c: Choice): Option<Effect> {
    match w.visit(p)
    case Readable(Lists(n, complete)) =>
      if k < n then
        if c != Proceed then None
        else Some(Becomes(bk, fl, [Listing(p, notify, k + 1,
          C.Push(acc, p + [k], fl.accepting, C.SPLIT_CHILD_THRESHOLD, C.SPILL_CHUNK_SIZE))]))
      else if c == Fail then Some(Aborts(bk, fl, Listing(p, notify, k, acc)))
      else if !complete then
        if c == Proceed then Some(Becomes(bk, fl, [Completing(p, notify, false)])) else None
      else if c != Proceed then None
      else if fl.quit || fl.fatal then Some(Abandons(bk, fl, FrameItems(Listing(p, notify, k, acc))))
      else
        var plan := C.Finish(acc);
        if Units(plan) == [] then Some(Becomes(bk, fl, [Completing(p, notify, false)]))
        else Some(Becomes(bk.(table := Reserve(bk.table)), fl, [OpenRecord(bk.table.nextId, p, notify, plan)]))
    case _ => None
  }

  function StepOpenRecord(w: World, bk: Book, fl: Flags, id: BarrierId, p: Place, notify: Option<BarrierId>, plan: C.Plan<Place>): Effect {
    Becomes(OpenDirectory(bk, p, Kids(w, p), id, Units(plan), notify), fl,
            (if plan.local == [] then [] else [BatchStart(plan.local, Some(id))]) + [SpillCheck(plan.spilled, id)])
  }

  function StepSpillCheck(bk: Book, fl: Flags, chunks: seq<Unit>, b: BarrierId, stopped: bool): Effect {
    if stopped || !fl.accepting then Abandons(bk, fl, FrameItems(SpillCheck(chunks, b)))
    else Becomes(bk, fl, [Publishing(chunks, Some(b))])
  }

  function StepCompleting(w: World, bk: Book, fl: Flags, p: Place, notify: Option<BarrierId>, resumed: bool): Effect {
    if Depth(p) >= w.minDepth then Becomes(Log(bk, Began(p)), fl, [Evaluating(p, notify, resumed)])
    else Becomes(Log(bk, Skipped(p)), fl, TellParent(notify, p))
  }

  function StepEvaluating(bk: Book, fl: Flags, p: Place, notify: Option<BarrierId>, resumed: bool, c: Choice): Option<Effect> {
    if c == Proceed then Some(Becomes(Log(bk, Ended(p)), fl, TellParent(notify, p)))
    else if c == Quit then Some(Becomes(bk, fl.(quit := true), [Quitting(p, notify, resumed)]))
    else if c == Fail then Some(Aborts(bk, fl, Evaluating(p, notify, resumed)))
    else None
  }

  /** The second store of request_quit.  After it a directory that was resumed
      still notifies its parent; any other entry does not. */
  function StepQuitting(bk: Book, fl: Flags, p: Place, notify: Option<BarrierId>, resumed: bool): Effect {
    if resumed then
      Effect(Log(bk, Ended(p)), fl.(accepting := false), TellParent(notify, p), None, multiset{}, true, false)
    else
      Effect(Log(bk, Ended(p)), fl.(accepting := false), [], None, EachOwes(notify, [[p]]), true, false)
  }

  function StepNotifying(bk: Book, fl: Flags, b: BarrierId, u: Unit): Effect {
    match Finish(bk.table, b).1
    case Nothing =>
      if b in bk.table.records then Becomes(PayOne(bk, b, u), fl, [])
      else Abandons(bk, fl, FrameItems(Notifying(b, u)))
    case Resume(dir, notify) =>
      Effect(TakeOut(bk, b), fl, [], Some(PostOrderResume(dir, notify)), multiset{}, false, false)
    case NotifyParent(parent) =>
      Becomes(TakeOut(bk, b), fl, [Notifying(parent, if b in bk.covers then bk.covers[b] else [])])
  }

  function StepPublishing(bk: Book, fl: Flags, chunks: seq<Unit>, completion: Option<BarrierId>): Effect {
    if chunks == [] then Becomes(bk, fl, [])
    else Effect(bk, fl, [Publishing(chunks[1..], completion)], Some(SiblingChunk(chunks[0], completion)),
                multiset{}, false, false)
  }

  // Pre-order: run_preorder_pending_batch.

  function StepPreLoop(bk: Book, fl: Flags, ps: seq<Place>, c: Choice): Option<Effect> {
    if ps == [] then (if c == Proceed then Some(Becomes(bk, fl, [])) else None)
    else if c != Proceed then None
    else if fl.quit || fl.fatal then Some(Abandons(bk, fl, FrameItems(PreLoop(ps))))
    else Some(Becomes(bk, fl, [PreVisiting(ps[0], ps[1..])]))
  }

  function StepPreVisiting(w: World, bk: Book, fl: Flags, p: Place, ps: seq<Place>, c: Choice): Option<Effect> {
    if w.visit(p).Unreadable? then
      if c == Proceed then Some(Becomes(Log(bk, Reported(p)), fl, [PreLoop(ps)]))
      else if c == Fail then Some(Aborts(bk, fl, PreVisiting(p, ps)))
      else None
    else if c != Proceed then None
    else if Depth(p) >= w.minDepth then Some(Becomes(Log(bk, Began(p)), fl, [PreEvaluating(p, ps)]))
    else Some(Becomes(Log(bk, Skipped(p)), fl, [PreDescending(p, ps)]))
  }

  function StepPreEvaluating(bk: Book, fl: Flags, p: Place, ps: seq<Place>, c: Choice): Option<Effect> {
    if c == Proceed then Some(Becomes(Log(bk, Ended(p)), fl, [PreDescending(p, ps)]))
    else if c == Quit then Some(Becomes(bk, fl.(quit := true), [PreQuitting(p, ps)]))
    else if c == Fail then Some(Aborts(bk, fl, PreEvaluating(p, ps)))
    else None
  }

  function StepPreQuitting(bk: Book, fl: Flags, p: Place, ps: seq<Place>): Effect {
    Effect(Log(bk, Ended(p)), fl.(accepting := false), [], None, multiset{Expand(p, 0)} + FreshAll(ps), true, false)
  }

  function StepPreDescending(w: World, bk: Book, fl: Flags, p: Place, ps: seq<Place>, c: Choice): Option<Effect> {
    match w.visit(p)
    case Readable(Lists(_, _)) =>
      if c == Proceed then Some(Becomes(bk, fl, [PreListing(p, 0, C.Chunks([], [], []), ps)])) else None
    case Readable(Refused) =>
      if c == Proceed then Some(Becomes(bk, fl, [PreLoop(ps)]))
      else if c == Fail then Some(Aborts(bk, fl, PreDescending(p, ps)))
      else None
    case _ =>
      if c == Proceed then Some(Becomes(bk, fl, [PreLoop(ps)])) else None
  }

  function StepPreListing(w: World, bk: Book, fl: Flags, p: Place, k: nat, acc: Acc, ps: seq<Place>, c: Choice): Option<Effect> {
    match w.visit(p)
    case Readable(Lists(n, complete)) =>
      if k < n then
        if c != Proceed then None
        else Some(Becomes(HandOut(bk, p, k + 1), fl, [PreOffering(p, k + 1,
          C.Push(acc, p + [k], fl.accepting, C.SPLIT_CHILD_THRESHOLD, C.SPILL_CHUNK_SIZE), ps)]))
      else if c == Fail || !complete then
        (if c == Fail || c == Proceed then Some(Aborts(bk, fl, PreListing(p, k, acc, ps))) else None)
      else if c != Proceed then None
      else
        var plan := C.Finish(if fl.quit then C.ObserveQuit(acc) else acc);
        Some(Becomes(bk, fl, [Publishing(plan.spilled, None), PreLoop(plan.local + ps)]))
    case _ => None
  }

  function StepPreOffering(bk: Book, fl: Flags, p: Place, k: nat, acc: Acc, ps: seq<Place>): Effect {
    if fl.accepting then
      Becomes(bk, fl, [Publishing(acc.spilled, None), PreListing(p, k, acc.(spilled := []), ps)])
    else Becomes(bk, fl, [PreListing(p, k, acc, ps)])
  }

  /** Most steps leave nothing to choose. */
  function Only(c: Choice, e: Effect): Option<Effect> {
    if c == Proceed then Some(e) else None
  }

  function FrameStep(w: World, bk: Book, fl: Flags, f: Frame, stopped: bool, c: Choice): Option<Effect> {
    match f
    case BatchStart(ps, completion) => Only(c, StepBatchStart(bk, fl, ps, completion))
    case BatchRecord(id, ps, parent) => Only(c, Becomes(StartBatch(bk, id, parent, ps), fl, [BatchLoop(ps, Some(id))]))
    case BatchLoop(ps, completion) => StepBatchLoop(bk, fl, ps, completion, stopped, c)
    case Visiting(p, notify) => StepVisiting(w, bk, fl, p, notify, c)
    case Listing(p, notify, k, acc) => StepListing(w, bk, fl, p, notify, k, acc, c)
    case OpenRecord(id, p, notify, plan) => Only(c, StepOpenRecord(w, bk, fl, id, p, notify, plan))
    case SpillCheck(chunks, b) => Only(c, StepSpillCheck(bk, fl, chunks, b, stopped))
    case Completing(p, notify, resumed) => Only(c, StepCompleting(w, bk, fl, p, notify, resumed))
    case Evaluating(p, notify, resumed) => StepEvaluating(bk, fl, p, notify, resumed, c)
    case Quitting(p, notify, resumed) => Only(c, StepQuitting(bk, fl, p, notify, resumed))
    case Notifying(b, u) => Only(c, StepNotifying(bk, fl, b, u))
    case Publishing(chunks, completion) => Only(c, StepPublishing(bk, fl, chunks, completion))
    case PreLoop(ps) => StepPreLoop(bk, fl, ps, c)
    case PreVisiting(p, ps) => StepPreVisiting(w, bk, fl, p, ps, c)
    case PreEvaluating(p, ps) => StepPreEvaluating(bk, fl, p, ps, c)
    case PreQuitting(p, ps) => Only(c, StepPreQuitting(bk, fl, p, ps))
    case PreDescending(p, ps) => StepPreDescending(w, bk, fl, p, ps, c)
    case PreListing(p, k, acc, ps) => StepPreListing(w, bk, fl, p, k, acc, ps, c)
    case PreOffering(p, k, acc, ps) => Only(c, StepPreOffering(bk, fl, p, k, acc, ps))
  }

  function PushAll(fs: seq<Frame>, s: Stack): Stack {
    if fs == [] then s else On(fs[0], PushAll(fs[1..], s))
  }

  /** The frame a popped task starts with. */
  function Enter(w: World, t: Task): Frame {
    match t
    case Root(p) => if w.order.PostOrder? then BatchStart([p], None) else PreLoop([p])
    case SiblingChunk(ps, completion) => if completion.Some? then BatchStart(ps, completion) else PreLoop(ps)
    case PostOrderResume(p, notify) => Completing(p, notify, true)
  }

  // ----- One step of a worker -----

  function WorkerStep(w: World, s: State, i: nat, c: Choice): Option<State>
    requires i < |s.workers|
  {
    match s.workers[i]
    case Polling =>
      (match c
       case Pop(j) =>
         if j < |s.queue| then
           Some(s.(queue := s.queue[..j] + s.queue[j + 1..], workers := s.workers[i := Holding(s.queue[j])]))
         else None
       case Leave =>
         if s.outstanding == 0 then Some(s.(workers := s.workers[i := Flushing])) else None
       case _ => None)

    case Holding(task) =>
      if c != Proceed then None
      else if !s.flags.accepting then
        Some(s.(workers := s.workers[i := Closing(false)], lost := s.lost + TaskItems(task)))
      else Some(s.(workers := s.workers[i := Running(On(Enter(w, task), Bottom), false)]))

    case Running(Bottom, _) =>
      if c == Proceed then Some(s.(workers := s.workers[i := Closing(false)])) else None

    case Running(On(f, below), stopped) =>
      (match FrameStep(w, s.book, s.flags, f, stopped, c)
       case None => None
       case Some(e) =>
         if e.fail then
           Some(s.(book := e.book, flags := e.flags,
                   workers := s.workers[i := Closing(true)],
                   lost := s.lost + e.dropped + StackItems(below)))
         else
           var stack := PushAll(e.replace, below);
           var next := if e.push.Some? then Pushing(CheckAccept, e.push.value, stack, stopped || e.stop)
                       else Running(stack, stopped || e.stop);
           Some(s.(book := e.book, flags := e.flags,
                   workers := s.workers[i := next], lost := s.lost + e.dropped)))

    case Pushing(CheckAccept, task, stack, stopped) =>
      if c != Proceed then None
      else if s.flags.accepting then Some(s.(workers := s.workers[i := Pushing(CountTask, task, stack, stopped)]))
      else Some(s.(workers := s.workers[i := Running(stack, stopped)], lost := s.lost + TaskItems(task)))

    case Pushing(CountTask, task, stack, stopped) =>
      if c != Proceed then None
      else Some(s.(outstanding := s.outstanding + 1, workers := s.workers[i := Pushing(StoreTask, task, stack, stopped)]))

    case Pushing(StoreTask, task, stack, stopped) =>
      if c != Proceed then None
      else Some(s.(queue := s.queue + [task], workers := s.workers[i := Running(stack, stopped)]))

    case Closing(failed) =>
      if c != Proceed then None
      else Some(s.(outstanding := s.outstanding - 1, workers := s.workers[i := if failed then Failing else Polling]))

    case Failing =>
      if c != Proceed then None
      else Some(s.(flags := s.flags.(fatal := true), workers := s.workers[i := FailingStore]))

    case FailingStore =>
      if c != Proceed then None
      else Some(s.(flags := s.flags.(accepting := false), workers := s.workers[i := Exited]))

    case Flushing =>
      if c == Proceed then Some(s.(workers := s.workers[i := Exited]))
      else if c == Fail then Some(s.(workers := s.workers[i := Failing]))
      else None

    case Exited => None
  }

  function Step(w: World, s: State, m: Move): Option<State> {
    if m.worker < |s.workers| then WorkerStep(w, s, m.worker, m.choice) else None
  }

  function Run(w: World, s: State, moves: seq<Move>): Option<State> {
    if moves == [] then Some(s)
    else match Run(w, s, moves[..|moves| - 1])
         case None => None
         case Some(mid) => Step(w, mid, moves[|moves| - 1])
  }

  /** All start paths are injected before the workers are spawned. */
  function Initial(w: World, workerCount: nat): State {
    State(Book(Table(0, map[]), map[], map[], map[], []),
          Flags(false, false, true),
          seq(w.roots, (i: nat) => Root([i])),
          w.roots,
          seq(workerCount, (i: nat) => Polling),
          multiset{})
  }
}
