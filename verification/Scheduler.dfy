/** The shared control flags and the stealable task queues, one call at a time.

    The machine in Engine interleaves these calls, each atomic access being a
    step of its own, and sees the queues as one bag of tasks. */
module Scheduler {
  import opened Basics
  import opened Engine

  class GlobalControl {
    var acceptNewWork: bool
    var quitSeen: bool
    var fatalErrorSeen: bool
    var outstandingTasks: int

    constructor ()
      ensures Shown() == Flags(false, false, true) && outstandingTasks == 0
    {
      acceptNewWork := true;
      quitSeen := false;
      fatalErrorSeen := false;
      outstandingTasks := 0;
    }

    ghost function Shown(): Flags
      reads this
    {
      Flags(quitSeen, fatalErrorSeen, acceptNewWork)
    }

    method RequestQuit()
      modifies this
      ensures Shown() == Flags(true, old(fatalErrorSeen), false) && outstandingTasks == old(outstandingTasks)
    {
      quitSeen := true;
      acceptNewWork := false;
    }

    method RequestFatalStop()
      modifies this
      ensures Shown() == Flags(old(quitSeen), true, false) && outstandingTasks == old(outstandingTasks)
    {
      fatalErrorSeen := true;
      acceptNewWork := false;
    }

    method TaskSpawned()
      modifies this
      ensures outstandingTasks == old(outstandingTasks) + 1 && Shown() == old(Shown())
    {
      outstandingTasks := outstandingTasks + 1;
    }

    method TaskFinished()
      modifies this
      ensures outstandingTasks == old(outstandingTasks) - 1 && Shown() == old(Shown())
    {
      outstandingTasks := outstandingTasks - 1;
    }

    method WorkersShouldExit() returns (b: bool)
      ensures b <==> outstandingTasks == 0
    {
      b := outstandingTasks == 0;
    }
  }

  /** How often a task stands in the local queues. */
  function Copies(qs: seq<seq<Task>>, t: Task): nat {
    if qs == [] then 0 else Copies(qs[..|qs| - 1], t) + multiset(qs[|qs| - 1])[t]
  }

  lemma {:induction false} CopiesUpdate(qs: seq<seq<Task>>, i: nat, q: seq<Task>, t: Task)
    requires i < |qs|
    ensures Copies(qs[i := q], t) + multiset(qs[i])[t] == Copies(qs, t) + multiset(q)[t]
  {
    var n := |qs| - 1;
    if i == n {
      assert qs[i := q][..n] == qs[..n];
    } else {
      assert qs[i := q][..n] == qs[..n][i := q];
      CopiesUpdate(qs[..n], i, q, t);
    }
  }

  /** How often a task is queued at all. */
  function Bag(injector: seq<Task>, locals: seq<seq<Task>>, t: Task): nat {
    multiset(injector)[t] + Copies(locals, t)
  }

  /** The machine's one queue holds the same tasks as the injector and the local
      queues together. */
  ghost predicate Reflects(queue: seq<Task>, injector: seq<Task>, locals: seq<seq<Task>>) {
    forall t: Task :: multiset(queue)[t] == Bag(injector, locals, t)
  }

  /** The machine's queue, and what is left of it after a pop of that task. */
  ghost predicate IsPop(queue: seq<Task>, task: Task, injector: seq<Task>, locals: seq<seq<Task>>) {
    exists j :: 0 <= j < |queue| && queue[j] == task && Reflects(queue[..j] + queue[j + 1..], injector, locals)
  }

  /** What takes one task out of the queues is a pop of the machine. */
  lemma PopIsAMove(queue: seq<Task>, injector: seq<Task>, locals: seq<seq<Task>>,
                   injector': seq<Task>, locals': seq<seq<Task>>, task: Task) returns (j: nat)
    requires Reflects(queue, injector, locals)
    requires forall t: Task :: Bag(injector, locals, t) == Bag(injector', locals', t) + if t == task then 1 else 0
    ensures j < |queue| && queue[j] == task
    ensures Reflects(queue[..j] + queue[j + 1..], injector', locals')
  {
    hide Bag;
    assert multiset(queue)[task] > 0;
    j :| 0 <= j < |queue| && queue[j] == task;
    var rest := queue[..j] + queue[j + 1..];
    assert queue == (queue[..j] + [task]) + queue[j + 1..];
    forall t: Task ensures multiset(rest)[t] == Bag(injector', locals', t) {
      SplitCounts(queue[..j] + [task], queue[j + 1..], t);
      SplitCounts(queue[..j], [task], t);
      SplitCounts(queue[..j], queue[j + 1..], t);
      OneCount(task, t);
    }
  }

  /** What adds a task to one of the queues adds it to the machine's queue. */
  lemma InjectIsAMove(queue: seq<Task>, injector: seq<Task>, locals: seq<seq<Task>>, task: Task)
    requires Reflects(queue, injector, locals)
    ensures Reflects(queue + [task], injector + [task], locals)
  {
    hide Copies;
    forall t: Task ensures multiset(queue + [task])[t] == Bag(injector + [task], locals, t) {
      SplitCounts(queue, [task], t);
      SplitCounts(injector, [task], t);
      assert multiset(queue)[t] == Bag(injector, locals, t);
    }
  }

  lemma PushIsAMove(queue: seq<Task>, injector: seq<Task>, locals: seq<seq<Task>>, worker: nat, task: Task)
    requires Reflects(queue, injector, locals) && worker < |locals|
    ensures Reflects(queue + [task], injector, locals[worker := locals[worker] + [task]])
  {
    hide Copies;
    forall t: Task ensures multiset(queue + [task])[t] == Bag(injector, locals[worker := locals[worker] + [task]], t) {
      SplitCounts(queue, [task], t);
      SplitCounts(locals[worker], [task], t);
      CopiesUpdate(locals, worker, locals[worker] + [task], t);
      assert multiset(queue)[t] == Bag(injector, locals, t);
    }
  }

  lemma SplitCounts(a: seq<Task>, b: seq<Task>, t: Task)
    ensures multiset(a + b)[t] == multiset(a)[t] + multiset(b)[t]
  {
  }

  lemma OneCount(x: Task, t: Task)
    ensures multiset([x])[t] == if t == x then 1 else 0
  {
  }

  class Scheduler {
    var injector: seq<Task>
    var locals: seq<seq<Task>>

    constructor (workerCount: nat)
      ensures injector == [] && |locals| == workerCount && forall i :: 0 <= i < workerCount ==> locals[i] == []
    {
      injector := [];
      locals := seq(workerCount, (i: nat) => []);
    }

    /** How often a task is queued. */
    ghost function Queued(t: Task): nat
      reads this
    {
      Bag(injector, locals, t)
    }

    method PushInject(task: Task, control: GlobalControl)
      modifies this, control
      ensures control.Shown() == old(control.Shown()) && locals == old(locals)
      ensures if old(control.acceptNewWork)
        then injector == old(injector) + [task] && control.outstandingTasks == old(control.outstandingTasks) + 1
        else injector == old(injector) && control.outstandingTasks == old(control.outstandingTasks)
      ensures forall queue :: old(Reflects(queue, injector, locals)) ==>
        Reflects(if old(control.acceptNewWork) then queue + [task] else queue, injector, locals)
    {
      if !control.acceptNewWork { return; }
      control.TaskSpawned();
      forall queue | Reflects(queue, injector, locals) ensures Reflects(queue + [task], injector + [task], locals) {
        InjectIsAMove(queue, injector, locals, task);
      }
      injector := injector + [task];
    }

    method PushLocal(worker: nat, task: Task, control: GlobalControl)
      requires worker < |locals|
      modifies this, control
      ensures control.Shown() == old(control.Shown()) && injector == old(injector)
      ensures if old(control.acceptNewWork)
        then locals == old(locals)[worker := old(locals[worker]) + [task]] && control.outstandingTasks == old(control.outstandingTasks) + 1
        else locals == old(locals) && control.outstandingTasks == old(control.outstandingTasks)
      ensures forall queue :: old(Reflects(queue, injector, locals)) ==>
        Reflects(if old(control.acceptNewWork) then queue + [task] else queue, injector, locals)
    {
      if !control.acceptNewWork { return; }
      control.TaskSpawned();
      forall queue | Reflects(queue, injector, locals)
        ensures Reflects(queue + [task], injector, locals[worker := locals[worker] + [task]])
      {
        PushIsAMove(queue, injector, locals, worker, task);
      }
      locals := locals[worker := locals[worker] + [task]];
    }

    /** Whatever a pop takes, the machine can pop from its one queue. */
    method Pop(worker: nat, batch: nat) returns (task: Option<Task>)
      requires worker < |locals|
      modifies this
      ensures |locals| == |old(locals)|
      ensures task.Some? ==> forall queue :: old(Reflects(queue, injector, locals)) ==> IsPop(queue, task.value, injector, locals)
      ensures task.None? ==> forall queue :: old(Reflects(queue, injector, locals)) ==> queue == []
    {
      ghost var before, beforeLocals := injector, locals;
      task := PopNonblocking(worker, batch);
      if task.Some? {
        forall t: Task ensures Bag(before, beforeLocals, t) == Bag(injector, locals, t) + if t == task.value then 1 else 0 {
          assert old(Queued(t)) == Queued(t) + if task == Some(t) then 1 else 0;
        }
        forall queue | Reflects(queue, before, beforeLocals) ensures IsPop(queue, task.value, injector, locals) {
          var j := PopIsAMove(queue, before, beforeLocals, injector, locals, task.value);
        }
      } else {
        forall queue | Reflects(queue, before, beforeLocals) ensures queue == [] { NothingQueued(queue, locals); }
      }
    }

    /** The worker's own queue first, then a batch of injected tasks, then the
        queues of its peers.  No task is lost or doubled; without contention
        nothing comes back only if nothing is queued anywhere.  batch: how many
        more tasks the steal from the injector brings along. */
    method PopNonblocking(worker: nat, batch: nat) returns (task: Option<Task>)
      requires worker < |locals|
      modifies this
      ensures |locals| == |old(locals)|
      ensures forall t: Task :: old(Queued(t)) == Queued(t) + if task == Some(t) then 1 else 0
      ensures task.None? ==> injector == old(injector) == [] && locals == old(locals)
      ensures task.None? ==> forall i :: 0 <= i < |locals| ==> locals[i] == []
      ensures old(locals[worker]) != [] ==> task == Some(old(locals[worker][0]))
      ensures old(locals[worker]) == [] && old(injector) != [] ==> task == Some(old(injector[0]))
    {
      hide Copies;
      ghost var before := locals;
      var own := locals[worker];
      if own != [] {
        locals := locals[worker := own[1..]];
        forall t: Task ensures Copies(before, t) == Copies(locals, t) + if t == own[0] then 1 else 0 {
          TakesFirst(before, worker, t);
        }
        return Some(own[0]);
      }
      if injector != [] {
        task := StealBatch(worker, batch);
        return;
      }
      var peer := 0;
      while peer < |locals|
        invariant peer <= |locals| && injector == old(injector) == [] && locals == old(locals)
        invariant forall j :: 0 <= j < peer ==> locals[j] == []
      {
        var theirs := locals[peer];
        if theirs != [] {
          locals := locals[peer := theirs[1..]];
          forall t: Task ensures Copies(before, t) == Copies(locals, t) + if t == theirs[0] then 1 else 0 {
            TakesFirst(before, peer, t);
          }
          return Some(theirs[0]);
        }
        peer := peer + 1;
      }
      task := None;
    }

    /** The first injected task comes back and some that follow it move to the
        worker's own queue, which is empty. */
    method StealBatch(worker: nat, batch: nat) returns (task: Option<Task>)
      requires worker < |locals| && locals[worker] == [] && injector != []
      modifies this
      ensures |locals| == |old(locals)| && task == Some(old(injector[0]))
      ensures forall t: Task :: old(Queued(t)) == Queued(t) + if task == Some(t) then 1 else 0
    {
      hide Bag;
      var taken := if batch < |injector| then batch else |injector| - 1;
      var first, moved, rest := injector[0], injector[1..taken + 1], injector[taken + 1..];
      assert injector == [first] + (moved + rest);
      forall t: Task ensures Bag(injector, locals, t) == Bag(rest, locals[worker := moved], t) + if t == first then 1 else 0 {
        StealKeepsBag(first, moved, rest, locals, worker, t);
      }
      locals := locals[worker := moved];
      injector := rest;
      task := Some(first);
    }
  }

  lemma StealKeepsBag(first: Task, moved: seq<Task>, rest: seq<Task>, locals: seq<seq<Task>>, worker: nat, t: Task)
    requires worker < |locals| && locals[worker] == []
    ensures Bag([first] + (moved + rest), locals, t) == Bag(rest, locals[worker := moved], t) + if t == first then 1 else 0
  {
    hide Copies;
    SplitCounts([first], moved + rest, t);
    SplitCounts(moved, rest, t);
    OneCount(first, t);
    CopiesUpdate(locals, worker, moved, t);
  }

  lemma TakesFirst(qs: seq<seq<Task>>, i: nat, t: Task)
    requires i < |qs| && qs[i] != []
    ensures Copies(qs, t) == Copies(qs[i := qs[i][1..]], t) + if t == qs[i][0] then 1 else 0
  {
    hide Copies;
    var q := qs[i];
    assert q == [q[0]] + q[1..];
    SplitCounts([q[0]], q[1..], t);
    OneCount(q[0], t);
    CopiesUpdate(qs, i, q[1..], t);
  }

  lemma {:induction false} NoCopies(qs: seq<seq<Task>>, t: Task)
    requires forall i :: 0 <= i < |qs| ==> qs[i] == []
    ensures Copies(qs, t) == 0
  {
    if qs != [] { NoCopies(qs[..|qs| - 1], t); }
  }

  lemma NothingQueued(queue: seq<Task>, locals: seq<seq<Task>>)
    requires Reflects(queue, [], locals) && forall i :: 0 <= i < |locals| ==> locals[i] == []
    ensures queue == []
  {
    if queue != [] {
      assert multiset(queue)[queue[0]] > 0;
      NoCopies(locals, queue[0]);
      assert false;
    }
  }
}
