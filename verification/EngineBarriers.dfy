/** Barrier accounting: what a record waits for is exactly what somebody alive
    still owes it, plus what a cut-short run has dropped. */
module EngineBarriers {
  import opened Basics
  import opened Places
  import opened Barriers
  import opened Ledger
  import opened Engine
  import opened EngineFrames
  import opened EngineRuns

  // ----- The parties that still owe the barrier b a notification -----

  function PaysTo(own: seq<Item>, b: BarrierId): nat {
    if own == [] then 0 else PaysTo(own[..|own| - 1], b) + if own[|own| - 1].Pay? && own[|own| - 1].to == b then 1 else 0
  }

  function ClaimDebts(c: Claim, b: BarrierId): nat {
    PaysTo(c.own, b) + if c.debtor == Some(b) then |c.debts| else 0
  }

  function StackDebts(s: Stack, b: BarrierId): nat {
    match s case Bottom => 0 case On(f, below) => ClaimDebts(FrameClaim(f), b) + StackDebts(below, b)
  }

  /** A running chunk, unfinished roots of a batch, a notification under way. */
  function WorkerDebts(wk: Worker, b: BarrierId): nat {
    match wk
    case Holding(task) => ClaimDebts(TaskClaim(task), b)
    case Running(stack, _) => StackDebts(stack, b)
    case Pushing(_, task, stack, _) => ClaimDebts(TaskClaim(task), b) + StackDebts(stack, b)
    case _ => 0
  }

  function WorkersDebts(ws: seq<Worker>, b: BarrierId): nat {
    if ws == [] then 0 else WorkersDebts(ws[..|ws| - 1], b) + WorkerDebts(ws[|ws| - 1], b)
  }

  /** Queued chunks and queued resumptions. */
  function QueueDebts(q: seq<Task>, b: BarrierId): nat {
    if q == [] then 0 else QueueDebts(q[..|q| - 1], b) + ClaimDebts(TaskClaim(q[|q| - 1]), b)
  }

  /** Child barriers. */
  function RecordDebts(t: Table<Place>, d: BarrierId, b: BarrierId): nat {
    if d !in t.records then 0
    else match t.records[d]
      case Directory(_, _, notify) => if notify == Some(b) then 1 else 0
      case Batch(_, parent) => if parent == b then 1 else 0
  }

  function TableDebts(t: Table<Place>, n: nat, b: BarrierId): nat {
    if n == 0 then 0 else TableDebts(t, n - 1, b) + RecordDebts(t, n - 1, b)
  }

  function Parties(s: State, b: BarrierId): nat {
    WorkersDebts(s.workers, b) + QueueDebts(s.queue, b) + TableDebts(s.book.table, s.book.table.nextId, b)
  }

  // ----- Counting the items addressed to one barrier -----

  predicate To(x: Item, b: BarrierId) {
    (x.Owe? || x.Pay?) && x.to == b
  }

  ghost function Owing(t: multiset<Item>, b: BarrierId): nat
    decreases |t|
  {
    if t == multiset{} then 0
    else
      var x :| x in t;
      Owing(t - multiset{x}, b) + if To(x, b) then 1 else 0
  }

  /** The item that is counted first. */
  lemma OwingFirst(t: multiset<Item>, b: BarrierId) returns (y: Item)
    requires t != multiset{}
    ensures y in t && Owing(t, b) == Owing(t - multiset{y}, b) + if To(y, b) then 1 else 0
  {
    hide To;
    y :| y in t && Owing(t, b) == Owing(t - multiset{y}, b) + if To(y, b) then 1 else 0;
  }

  lemma {:induction false} OwingTake(t: multiset<Item>, b: BarrierId, x: Item)
    requires x in t
    ensures Owing(t, b) == Owing(t - multiset{x}, b) + if To(x, b) then 1 else 0
    decreases |t|
  {
    hide To, Owing;
    var y := OwingFirst(t, b);
    if y != x {
      OwingTake(t - multiset{y}, b, x);
      OwingTake(t - multiset{x}, b, y);
      assert t - multiset{y} - multiset{x} == t - multiset{x} - multiset{y};
    }
  }

  lemma {:induction false} OwingSum(t: multiset<Item>, r: multiset<Item>, b: BarrierId)
    ensures Owing(t + r, b) == Owing(t, b) + Owing(r, b)
    decreases |r|
  {
    hide To, Owing;
    if r == multiset{} {
      assert t + r == t;
      OwingNone(r, b);
    } else {
      var x :| x in r;
      OwingSum(t, r - multiset{x}, b);
      OwingTake(r, b, x);
      OwingTake(t + r, b, x);
      assert t + r - multiset{x} == t + (r - multiset{x});
    }
  }

  lemma {:induction false} OwingNone(t: multiset<Item>, b: BarrierId)
    requires forall x :: x in t ==> !To(x, b)
    ensures Owing(t, b) == 0
    decreases |t|
  {
    hide To;
    if t != multiset{} {
      var x :| x in t && Owing(t, b) == Owing(t - multiset{x}, b) + if To(x, b) then 1 else 0;
      OwingNone(t - multiset{x}, b);
    }
  }

  lemma OwingOne(x: Item, b: BarrierId)
    ensures Owing(multiset{x}, b) == if To(x, b) then 1 else 0
  {
    OwingTake(multiset{x}, b, x);
    assert multiset{x} - multiset{x} == multiset{};
  }

  /** As many items are addressed to b as there are units in its due set. */
  lemma {:induction false} OwingIsDue(t: multiset<Item>, b: BarrierId, due: set<Unit>)
    requires forall u: Unit :: t[Owe(b, u)] + t[Pay(b, u)] == if u in due then 1 else 0
    ensures Owing(t, b) == |due|
    decreases |due|
  {
    if due == {} {
      OwingNone(t, b);
    } else {
      var u :| u in due;
      var x := if t[Owe(b, u)] > 0 then Owe(b, u) else Pay(b, u);
      assert t[Owe(b, u)] + t[Pay(b, u)] == 1;
      OwingTake(t, b, x);
      OwingIsDue(t - multiset{x}, b, due - {u});
    }
  }

  // ----- The parties hold exactly those items -----

  lemma {:induction false} OwnOwing(own: seq<Item>, b: BarrierId)
    requires forall x :: x in own ==> !x.Owe?
    ensures Owing(multiset(own), b) == PaysTo(own, b)
  {
    hide Owing;
    if own == [] {
      OwingNone(multiset(own), b);
    } else {
      var n := |own| - 1;
      OwnOwing(own[..n], b);
      assert own == own[..n] + [own[n]];
      OwingSum(multiset(own[..n]), multiset{own[n]}, b);
      OwingOne(own[n], b);
    }
  }

  lemma {:induction false} DebtsOwing(to: BarrierId, units: seq<Unit>, b: BarrierId)
    ensures Owing(OweAll(to, units), b) == if to == b then |units| else 0
  {
    hide Owing;
    if units == [] {
      OwingNone(multiset{}, b);
    } else {
      var n := |units| - 1;
      DebtsOwing(to, units[..n], b);
      OwingSum(OweAll(to, units[..n]), multiset{Owe(to, units[n])}, b);
      OwingOne(Owe(to, units[n]), b);
    }
  }

  lemma StockOwing(ps: seq<Place>, units: seq<Unit>, b: BarrierId)
    ensures Owing(FreshAll(ps), b) == 0 && Owing(FreshUnits(units), b) == 0
  {
    hide Owing, FreshAll, FreshUnits;
    forall x | x in FreshAll(ps) ensures !To(x, b) { FreshAllCounts(ps, x); }
    OwingNone(FreshAll(ps), b);
    forall x | x in FreshUnits(units) ensures !To(x, b) { UnitsFresh(units, x); }
    OwingNone(FreshUnits(units), b);
  }

  lemma {:induction false} UnitsFresh(units: seq<Unit>, x: Item)
    ensures !x.Fresh? ==> FreshUnits(units)[x] == 0
  {
    hide FreshAll;
    if units != [] {
      UnitsFresh(units[..|units| - 1], x);
      FreshAllCounts(units[|units| - 1], x);
    }
  }

  lemma ClaimOwing(c: Claim, b: BarrierId)
    requires forall x :: x in c.own ==> !x.Owe?
    ensures Owing(ClaimItems(c), b) == ClaimDebts(c, b)
  {
    hide Owing, FreshAll, FreshUnits, PaysTo, OweAll;
    var o, f, u, e := multiset(c.own), FreshAll(c.stock), FreshUnits(c.chunks), EachOwes(c.debtor, c.debts);
    OwnOwing(c.own, b);
    StockOwing(c.stock, c.chunks, b);
    OwingSum(o, f, b);
    OwingSum(o + f, u, b);
    OwingSum(o + f + u, e, b);
    match c.debtor
    case None => OwingNone(multiset{}, b);
    case Some(to) => DebtsOwing(to, c.debts, b);
  }

  lemma FrameOwing(f: Frame, b: BarrierId)
    ensures Owing(FrameItems(f), b) == ClaimDebts(FrameClaim(f), b)
  {
    hide Owing, ClaimItems, ClaimDebts;
    ClaimOwing(FrameClaim(f), b);
  }

  lemma TaskOwing(t: Task, b: BarrierId)
    ensures Owing(TaskItems(t), b) == ClaimDebts(TaskClaim(t), b)
  {
    hide Owing, ClaimItems, ClaimDebts;
    ClaimOwing(TaskClaim(t), b);
  }

  lemma {:induction false} StackOwing(s: Stack, b: BarrierId)
    ensures Owing(StackItems(s), b) == StackDebts(s, b)
  {
    hide Owing, FrameItems, ClaimDebts;
    match s
    case Bottom => OwingNone(multiset{}, b);
    case On(f, below) =>
      StackOwing(below, b);
      FrameOwing(f, b);
      OwingSum(FrameItems(f), StackItems(below), b);
  }

  lemma WorkerOwing(wk: Worker, b: BarrierId)
    ensures Owing(WorkerItems(wk), b) == WorkerDebts(wk, b)
  {
    hide Owing, ClaimDebts, TaskItems, StackItems, StackDebts;
    OwingOne(Job, b);
    OwingOne(Doom, b);
    OwingNone(multiset{}, b);
    match wk
    case Holding(task) =>
      TaskOwing(task, b);
      OwingSum(multiset{Job}, TaskItems(task), b);
    case Running(stack, _) =>
      StackOwing(stack, b);
      OwingSum(multiset{Job}, StackItems(stack), b);
    case Pushing(phase, task, stack, _) =>
      TaskOwing(task, b);
      StackOwing(stack, b);
      OwingSum(multiset{Job}, TaskItems(task), b);
      OwingSum(multiset{Job} + TaskItems(task), StackItems(stack), b);
      OwingSum(multiset{Job} + TaskItems(task) + StackItems(stack), if phase.StoreTask? then multiset{Job} else multiset{}, b);
    case Closing(failed) => OwingSum(multiset{Job}, if failed then multiset{Doom} else multiset{}, b);
    case _ =>
  }

  lemma {:induction false} WorkersOwing(ws: seq<Worker>, b: BarrierId)
    ensures Owing(WorkersItems(ws), b) == WorkersDebts(ws, b)
  {
    hide Owing, WorkerItems, WorkerDebts;
    if ws == [] {
      OwingNone(multiset{}, b);
    } else {
      var rest, last := ws[..|ws| - 1], ws[|ws| - 1];
      WorkersOwing(rest, b);
      WorkerOwing(last, b);
      OwingSum(WorkersItems(rest), WorkerItems(last), b);
    }
  }

  lemma {:induction false} QueueOwing(q: seq<Task>, b: BarrierId)
    ensures Owing(QueueItems(q), b) == QueueDebts(q, b)
  {
    hide Owing, TaskItems, ClaimDebts;
    if q == [] {
      OwingNone(multiset{}, b);
    } else {
      var rest, last := q[..|q| - 1], q[|q| - 1];
      QueueOwing(rest, b);
      TaskOwing(last, b);
      OwingOne(Job, b);
      OwingSum(multiset{Job}, TaskItems(last), b);
      OwingSum(QueueItems(rest), QueuedItems(last), b);
    }
  }

  lemma SlotOwing(t: Table<Place>, covers: map<BarrierId, Unit>, d: BarrierId, b: BarrierId)
    ensures Owing(SlotItems(t, covers, d), b) == RecordDebts(t, d, b)
  {
    hide Owing, OweAll;
    OwingNone(multiset{}, b);
    if d in t.records {
      match t.records[d]
      case Directory(p, _, notify) =>
        OwingOne(Waiting(p), b);
        OwingSum(multiset{Waiting(p)}, EachOwes(notify, [[p]]), b);
        if notify.Some? { DebtsOwing(notify.value, [[p]], b); }
      case Batch(_, parent) => OwingOne(Owe(parent, if d in covers then covers[d] else []), b);
    }
  }

  lemma {:induction false} TableOwing(t: Table<Place>, covers: map<BarrierId, Unit>, n: nat, b: BarrierId)
    ensures Owing(TableItems(t, covers, n), b) == TableDebts(t, n, b)
  {
    hide Owing, SlotItems, RecordDebts;
    if n == 0 {
      OwingNone(multiset{}, b);
    } else {
      TableOwing(t, covers, n - 1, b);
      SlotOwing(t, covers, n - 1, b);
      OwingSum(TableItems(t, covers, n - 1), SlotItems(t, covers, n - 1), b);
    }
  }

  lemma TotalOwing(s: State, b: BarrierId)
    ensures Owing(Total(s), b) == Parties(s, b) + Owing(s.lost, b)
  {
    hide Owing, WorkersItems, QueueItems, WorkersDebts, QueueDebts, TableItems, TableDebts;
    var ws, q, t := WorkersItems(s.workers), QueueItems(s.queue), BookItems(s.book);
    WorkersOwing(s.workers, b);
    QueueOwing(s.queue, b);
    TableOwing(s.book.table, s.book.covers, s.book.table.nextId, b);
    OwingSum(ws, q, b);
    OwingSum(ws + q, t, b);
    OwingSum(ws + q + t, s.lost, b);
  }

  lemma DueCounts(w: World, bk: Book, t: multiset<Item>, b: BarrierId)
    requires Inv(w, bk, t)
    ensures Owing(t, b) == if b in bk.table.records then bk.table.records[b].remaining else 0
    ensures b in bk.table.records ==> bk.table.records[b].remaining > 0
  {
    var due := if b in bk.due then bk.due[b] else {};
    forall u: Unit ensures t[Owe(b, u)] + t[Pay(b, u)] == if u in due then 1 else 0 { assert SlotOk(w, bk, t, b, u); }
    assert BarrierOk(w, bk, t, b);
    hide Inv;
    OwingIsDue(t, b, due);
  }

  // ----- The theorems -----

  /** Nobody has asked for a stop and no worker is about to. */
  predicate Undisturbed(s: State) {
    && !s.flags.quit && !s.flags.fatal
    && forall i :: 0 <= i < |s.workers| ==> !s.workers[i].Failing? && s.workers[i] != Closing(true)
  }

  lemma {:induction false} WorkersUndisturbed(ws: seq<Worker>)
    requires forall i :: 0 <= i < |ws| ==> !ws[i].Failing? && ws[i] != Closing(true)
    ensures WorkersItems(ws)[Doom] == 0
  {
    hide TaskItems, StackItems;
    if ws != [] {
      var last := ws[|ws| - 1];
      WorkersUndisturbed(ws[..|ws| - 1]);
      if last.Running? || last.Pushing? { StackJobFree(last.stack, Doom); }
      if last.Holding? || last.Pushing? { TaskJobFree(last.task, Doom); }
    }
  }

  lemma {:induction false} QueueUndisturbed(q: seq<Task>)
    ensures QueueItems(q)[Doom] == 0
  {
    hide QueuedItems;
    if q != [] {
      QueueUndisturbed(q[..|q| - 1]);
      QueuedAt(q[|q| - 1], Doom);
    }
  }

  lemma NoDoom(s: State)
    requires Undisturbed(s) && LossOk(s) && JobFree(BookItems(s.book))
    ensures s.lost == multiset{}
  {
    hide Total, WorkersItems, QueueItems, BookItems;
    TotalAt(s, Doom);
    WorkersUndisturbed(s.workers);
    QueueUndisturbed(s.queue);
  }

  /** In every reachable state a record's count is positive and is the number of
      live parties that owe it a notification, plus what was dropped on the way
      to a stop; a barrier that is not in the table is owed none. */
  lemma BarrierAccounting(w: World, n: nat, moves: seq<Move>, s: State, b: BarrierId)
    requires Run(w, Initial(w, n), moves) == Some(s)
    ensures b in s.book.table.records ==>
      && 0 < s.book.table.records[b].remaining
      && s.book.table.records[b].remaining == Parties(s, b) + Owing(s.lost, b)
    ensures b in s.book.table.records && Undisturbed(s) ==> s.book.table.records[b].remaining == Parties(s, b)
    ensures b !in s.book.table.records ==> Parties(s, b) == 0
  {
    hide Inv, Total, Parties, Owing, Run, Initial, PartsOk, BookItems, Undisturbed;
    RunKeeps(w, n, moves, s);
    DueCounts(w, s.book, Total(s), b);
    TotalOwing(s, b);
    if Undisturbed(s) {
      NoDoom(s);
      OwingNone(s.lost, b);
    }
  }

  /** Whenever a worker is about to notify a barrier its record is there, even in
      a run that is being cut short: no notification goes to a dead barrier. */
  lemma NotifiedIsAlive(w: World, n: nat, moves: seq<Move>, s: State, i: nat)
    requires Run(w, Initial(w, n), moves) == Some(s) && i < |s.workers|
    requires s.workers[i].Running? && s.workers[i].stack.On? && s.workers[i].stack.top.Notifying?
    ensures s.workers[i].stack.top.barrier in s.book.table.records
  {
    hide Run, Initial, WorkersDebts, QueueDebts, TableDebts;
    var b := s.workers[i].stack.top.barrier;
    BarrierAccounting(w, n, moves, s, b);
    WorkersDebtsHold(s.workers, i, b);
    NotifyingOwes(s.workers[i], b);
  }

  lemma NotifyingOwes(wk: Worker, b: BarrierId)
    requires wk.Running? && wk.stack.On? && wk.stack.top.Notifying? && wk.stack.top.barrier == b
    ensures WorkerDebts(wk, b) > 0
  {
    var pay := Pay(b, wk.stack.top.unit);
    assert PaysTo([pay], b) == PaysTo([pay][..0], b) + 1;
  }

  lemma {:induction false} WorkersDebtsHold(ws: seq<Worker>, i: nat, b: BarrierId)
    requires i < |ws|
    ensures WorkersDebts(ws, b) >= WorkerDebts(ws[i], b)
  {
    hide WorkerDebts;
    if i < |ws| - 1 { WorkersDebtsHold(ws[..|ws| - 1], i, b); }
  }

  /** A chain of notifications ends: the barrier notified next has a smaller id. */
  lemma ParentsAreSmaller(w: World, n: nat, moves: seq<Move>, s: State, b: BarrierId)
    requires Run(w, Initial(w, n), moves) == Some(s) && b in s.book.table.records
    ensures s.book.table.records[b].Batch? ==> s.book.table.records[b].parent < b
    ensures s.book.table.records[b].Directory? && s.book.table.records[b].notify.Some? ==> s.book.table.records[b].notify.value < b
    ensures b < s.book.table.nextId
  {
    hide Total, Run, Initial, PartsOk, LossOk;
    RunKeeps(w, n, moves, s);
    assert BarrierOk(w, s.book, Total(s), b);
  }
}
