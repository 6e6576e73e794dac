/** The ordered engine: entries evaluated one by one, or begun out of order by
    several evaluators and committed in order. */
module Pipeline {
  import opened Basics
  import opened Expressions
  import opened Evaluation
  import W = Walker

  // ----- The queue that puts finished evaluations back in order -----

  datatype Queue<T> = Queue(next: nat, buffered: map<nat, T>)

  function Inserted<T>(q: Queue<T>, sequence: nat, item: T): Queue<T> {
    q.(buffered := q.buffered[sequence := item])
  }

  function Popped<T>(q: Queue<T>): (Queue<T>, Option<T>) {
    if q.next in q.buffered then (Queue(q.next + 1, q.buffered - {q.next}), Some(q.buffered[q.next])) else (q, None)
  }

  class OrderedReadyQueue<T> {
    var nextSequence: nat
    var buffered: map<nat, T>

    constructor ()
      ensures Contents() == Queue(0, map[])
    {
      nextSequence := 0;
      buffered := map[];
    }

    ghost function Contents(): Queue<T>
      reads this
    {
      Queue(nextSequence, buffered)
    }

    method Add(sequence: nat, item: T)
      modifies this
      ensures Contents() == Inserted(old(Contents()), sequence, item)
    {
      buffered := buffered[sequence := item];
    }

    method PopNext() returns (item: Option<T>)
      modifies this
      ensures (Contents(), item) == Popped(old(Contents()))
    {
      if nextSequence !in buffered {
        return None;
      }
      item := Some(buffered[nextSequence]);
      buffered := buffered - {nextSequence};
      nextSequence := nextSequence + 1;
    }
  }

  /** arrived: the numbers inserted so far, each with its item. */
  ghost predicate Holds<T>(q: Queue<T>, items: seq<T>, arrived: set<nat>) {
    && (forall i :: i in arrived ==> i < |items|)
    && (forall i: nat :: i < q.next ==> i in arrived)
    && q.buffered.Keys == (set i | i in arrived && i >= q.next)
    && (forall i :: i in q.buffered ==> i < |items| && q.buffered[i] == items[i])
  }

  lemma InsertHolds<T>(q: Queue<T>, items: seq<T>, arrived: set<nat>, i: nat)
    requires Holds(q, items, arrived) && i < |items| && i !in arrived
    ensures Holds(Inserted(q, i, items[i]), items, arrived + {i})
  {
    var q' := Inserted(q, i, items[i]);
    forall j ensures j in q'.buffered.Keys <==> j in (set k | k in arrived + {i} && k >= q'.next) {}
  }

  /** A pop releases the next number in order, if and only if it has arrived. */
  lemma PopHolds<T>(q: Queue<T>, items: seq<T>, arrived: set<nat>)
    requires Holds(q, items, arrived)
    ensures Holds(Popped(q).0, items, arrived)
    ensures Popped(q).1.Some? <==> q.next in arrived
    ensures Popped(q).1.Some? ==> q.next < |items| && Popped(q).1.value == items[q.next] && Popped(q).0.next == q.next + 1
    ensures Popped(q).1.None? ==> Popped(q).0 == q
  {
    var q' := Popped(q).0;
    if q.next in q.buffered {
      forall j ensures j in q'.buffered.Keys <==> j in (set k | k in arrived && k >= q'.next) {}
    } else {
      assert q.next !in (set k | k in arrived && k >= q.next);
    }
  }

  /** Once everything has arrived and nothing more can be popped, everything has
      been released, in order. */
  lemma DrainedIsComplete<T>(q: Queue<T>, items: seq<T>, arrived: set<nat>)
    requires Holds(q, items, arrived) && (forall i: nat :: i < |items| ==> i in arrived) && Popped(q).1.None?
    ensures q.next == |items| && q.buffered == map[]
  {
    PopHolds(q, items, arrived);
    assert |items| !in arrived;
    assert forall i :: i in q.buffered.Keys ==> false;
  }

  lemma StartsEmpty<T>(items: seq<T>)
    ensures Holds(Queue(0, map[]), items, {})
    ensures var q: Queue<T> := Queue(0, map[]); Popped(q).1.None?
  {
  }

  /** Every number below n arrives, and none twice. */
  ghost predicate ArriveOnce(arrivals: seq<nat>, n: nat) {
    && (forall i: nat :: i < n <==> i in arrivals)
    && (forall i, j :: 0 <= i < j < |arrivals| ==> arrivals[i] != arrivals[j])
  }

  ghost function Arrived(arrivals: seq<nat>, i: nat): set<nat>
    requires i <= |arrivals|
  {
    set x | x in arrivals[..i]
  }

  lemma NextArrival(arrivals: seq<nat>, n: nat, i: nat)
    requires ArriveOnce(arrivals, n) && i < |arrivals|
    ensures arrivals[i] < n && arrivals[i] !in Arrived(arrivals, i)
    ensures Arrived(arrivals, i + 1) == Arrived(arrivals, i) + {arrivals[i]}
  {
    assert arrivals[..i + 1] == arrivals[..i] + [arrivals[i]];
    assert arrivals[i] in arrivals;
  }

  lemma AllArrived(arrivals: seq<nat>, n: nat)
    requires ArriveOnce(arrivals, n)
    ensures forall i: nat :: i < n ==> i in Arrived(arrivals, |arrivals|)
  {
    assert arrivals[..|arrivals|] == arrivals;
  }

  /** Feeds the items in the order of arrival and pops all there is after each:
      whatever the order, they come out as 0, 1, 2 and so on. */
  method ReleaseAll<T>(items: seq<T>, arrivals: seq<nat>) returns (released: seq<T>)
    requires ArriveOnce(arrivals, |items|)
    ensures released == items
  {
    hide Holds, Popped, ArriveOnce, Arrived;
    var queue := new OrderedReadyQueue<T>();
    released := [];
    StartsEmpty(items);
    assert Arrived(arrivals, 0) == {} by { NoneArrived(arrivals); }
    var i := 0;
    while i < |arrivals|
      invariant i <= |arrivals|
      invariant Holds(queue.Contents(), items, Arrived(arrivals, i)) && Popped(queue.Contents()).1.None?
      invariant queue.nextSequence <= |items| && released == items[..queue.nextSequence]
    {
      NextArrival(arrivals, |items|, i);
      InsertHolds(queue.Contents(), items, Arrived(arrivals, i), arrivals[i]);
      queue.Add(arrivals[i], items[arrivals[i]]);
      i := i + 1;
      var more := true;
      while more
        invariant Holds(queue.Contents(), items, Arrived(arrivals, i)) && (!more ==> Popped(queue.Contents()).1.None?)
        invariant queue.nextSequence <= |items| && released == items[..queue.nextSequence]
        decreases |items| - queue.nextSequence, more
      {
        PopHolds(queue.Contents(), items, Arrived(arrivals, i));
        var item := queue.PopNext();
        if item.None? {
          more := false;
        } else {
          released := released + [item.value];
        }
      }
    }
    AllArrived(arrivals, |items|);
    DrainedIsComplete(queue.Contents(), items, Arrived(arrivals, i));
  }

  lemma NoneArrived(arrivals: seq<nat>)
    ensures Arrived(arrivals, 0) == {}
  {
  }

  // ----- Both ways of running a plan -----

  /** One dispatched action; what a sink writes to stdout or a file follows from
      the sequence of these. */
  datatype Record = Record(entry: W.Entry, action: Action)

  type Recorder = seq<Record> -> Result<Outcome, Diagnostic>

  datatype Plan = Plan(
    expr: Expr,
    minDepth: nat,
    tests: W.Entry -> Tests,
    sink: Recorder,
    flush: seq<Record> -> Result<Status, Diagnostic>)

  datatype Walked = Reached(entry: W.Entry) | Trouble(error: Diagnostic)

  /** runtimeErrors: the walk reported something; actionFailures: an action failed. */
  datatype Summary = Summary(runtimeErrors: bool, actionFailures: bool)

  datatype Report = Report(records: seq<Record>, result: Result<Summary, Diagnostic>)

  function Tagged(e: W.Entry, h: seq<Action>): (r: seq<Record>)
    ensures |r| == |h|
  {
    if h == [] then [] else Tagged(e, h[..|h| - 1]) + [Record(e, h[|h| - 1])]
  }

  /** The sink as one entry sees it after the records g. */
  function SinkFor(p: Plan, g: seq<Record>, e: W.Entry): Sink {
    h => p.sink(g + Tagged(e, h))
  }

  function EvaluateEntry(p: Plan, g: seq<Record>, e: W.Entry): Verdict {
    Direct(p.expr, p.tests(e), SinkFor(p, g, e), [])
  }

  function Finished(p: Plan, g: seq<Record>, trouble: bool, status: Status): Report {
    match p.flush(g)
    case Err(error) => Report(g, Err(error))
    case Ok(flushed) => Report(g, Ok(Summary(trouble, Merge(status, flushed).failed)))
  }

  /** Each entry is evaluated as the walk reaches it; a stop ends the walk. */
  function Inline(p: Plan, walk: seq<Walked>, g: seq<Record>, trouble: bool): Report
    decreases |walk|
  {
    if walk == [] then Finished(p, g, trouble, CLEAR)
    else match walk[0]
      case Trouble(_) => Inline(p, walk[1..], g, true)
      case Reached(e) =>
        if e.depth < p.minDepth then Inline(p, walk[1..], g, trouble)
        else
          var v := EvaluateEntry(p, g, e);
          var g' := g + Tagged(e, v.history);
          match v.result
          case Err(error) => Report(g', Err(error))
          case Ok(o) => if o.status.stop then Finished(p, g', trouble, CLEAR) else Inline(p, walk[1..], g', trouble)
  }

  method RunInline(p: Plan, walk: seq<Walked>) returns (r: Report)
    ensures r == Inline(p, walk, [], false)
  {
    var g: seq<Record>, trouble := [], false;
    var i := 0;
    assert walk[0..] == walk;
    while i < |walk|
      invariant i <= |walk|
      invariant Inline(p, walk, [], false) == Inline(p, walk[i..], g, trouble)
    {
      assert walk[i..][0] == walk[i] && walk[i..][1..] == walk[i + 1..];
      match walk[i] {
        case Trouble(_) => trouble := true;
        case Reached(e) =>
          if e.depth >= p.minDepth {
            var v := EvaluateOutcome(p.expr, p.tests(e), SinkFor(p, g, e), []);
            g := g + Tagged(e, v.history);
            if v.result.Err? { return Report(g, Err(v.result.error)); }
            if v.result.value.status.stop { return Finished(p, g, trouble, CLEAR); }
          }
      }
      i := i + 1;
    }
    r := Finished(p, g, trouble, CLEAR);
  }

  predicate AnyTrouble(walk: seq<Walked>) {
    walk != [] && (walk[0].Trouble? || AnyTrouble(walk[1..]))
  }

  function Entries(walk: seq<Walked>, minDepth: nat): seq<W.Entry> {
    if walk == [] then []
    else if walk[0].Reached? && walk[0].entry.depth >= minDepth then [walk[0].entry] + Entries(walk[1..], minDepth)
    else Entries(walk[1..], minDepth)
  }

  /** The entries committed one after the other, without looking for a stop. */
  function Committed(p: Plan, entries: seq<W.Entry>, g: seq<Record>, trouble: bool, status: Status): Report
    decreases |entries|
  {
    if entries == [] then Finished(p, g, trouble, status)
    else
      var v := EvaluateEntry(p, g, entries[0]);
      var g' := g + Tagged(entries[0], v.history);
      match v.result
      case Err(error) => Report(g', Err(error))
      case Ok(o) => Committed(p, entries[1..], g', trouble, Merge(status, o.status))
  }

  /** Driving what was begun for entry i commits it. */
  lemma CommitsNext(p: Plan, entries: seq<W.Entry>, i: nat, g: seq<Record>, trouble: bool, status: Status)
    requires i < |entries|
    ensures Meaning(BeginEntryEval(p.expr, p.tests(entries[i])), p.tests(entries[i]), SinkFor(p, g, entries[i]), []) == EvaluateEntry(p, g, entries[i])
    ensures var v := EvaluateEntry(p, g, entries[i]);
      var g' := g + Tagged(entries[i], v.history);
      Committed(p, entries[i..], g, trouble, status)
      == if v.result.Err? then Report(g', Err(v.result.error))
         else Committed(p, entries[i + 1..], g', trouble, Merge(status, v.result.value.status))
  {
    StepMeans(p.expr, Done, p.tests(entries[i]), SinkFor(p, g, entries[i]), []);
    assert entries[i..][0] == entries[i] && entries[i..][1..] == entries[i + 1..];
  }

  /** Evaluations are begun in any order; each is driven to its end when all
      before it have been. */
  method RunPipeline(p: Plan, walk: seq<Walked>, arrivals: seq<nat>) returns (r: Report)
    requires ArriveOnce(arrivals, |Entries(walk, p.minDepth)|)
    ensures r == Committed(p, Entries(walk, p.minDepth), [], AnyTrouble(walk), CLEAR)
  {
    hide Holds, Popped, ArriveOnce, Arrived, Committed, Entries, AnyTrouble, EvaluateEntry, Meaning, StepExpr, BeginEntryEval, Finished, Tagged;
    var entries := Entries(walk, p.minDepth);
    var steps := seq(|entries|, (i: nat) requires i < |entries| => BeginEntryEval(p.expr, p.tests(entries[i])));
    var queue := new OrderedReadyQueue<Result<Step, Diagnostic>>();
    var g: seq<Record>, status, trouble := [], CLEAR, AnyTrouble(walk);
    ghost var whole := Committed(p, entries, [], trouble, CLEAR);
    StartsEmpty(steps);
    assert Arrived(arrivals, 0) == {} by { NoneArrived(arrivals); }
    assert entries[0..] == entries;
    var i := 0;
    while i < |arrivals|
      invariant i <= |arrivals|
      invariant Holds(queue.Contents(), steps, Arrived(arrivals, i)) && Popped(queue.Contents()).1.None?
      invariant queue.nextSequence <= |entries|
      invariant whole == Committed(p, entries[queue.nextSequence..], g, trouble, status)
    {
      NextArrival(arrivals, |entries|, i);
      InsertHolds(queue.Contents(), steps, Arrived(arrivals, i), arrivals[i]);
      queue.Add(arrivals[i], steps[arrivals[i]]);
      i := i + 1;
      var more := true;
      while more
        invariant Holds(queue.Contents(), steps, Arrived(arrivals, i)) && (!more ==> Popped(queue.Contents()).1.None?)
        invariant queue.nextSequence <= |entries|
        invariant whole == Committed(p, entries[queue.nextSequence..], g, trouble, status)
        decreases |entries| - queue.nextSequence, more
      {
        PopHolds(queue.Contents(), steps, Arrived(arrivals, i));
        ghost var k := queue.nextSequence;
        var ready := queue.PopNext();
        if ready.None? {
          more := false;
        } else {
          var e := entries[queue.nextSequence - 1];
          CommitsNext(p, entries, k, g, trouble, status);
          var v := Drive(ready.value, p.tests(e), SinkFor(p, g, e), []);
          g := g + Tagged(e, v.history);
          if v.result.Err? { return Report(g, Err(v.result.error)); }
          status := Merge(status, v.result.value.status);
        }
      }
    }
    AllArrived(arrivals, |entries|);
    DrainedIsComplete(queue.Contents(), steps, Arrived(arrivals, i));
    assert entries[queue.nextSequence..] == [];
    assert Committed(p, [], g, trouble, status) == Finished(p, g, trouble, status) by { CommitsNone(p, g, trouble, status); }
    r := Finished(p, g, trouble, status);
  }

  lemma CommitsNone(p: Plan, g: seq<Record>, trouble: bool, status: Status)
    ensures Committed(p, [], g, trouble, status) == Finished(p, g, trouble, status)
  {
  }

  // ----- They agree on plans without commit-sensitive actions -----

  predicate CommitSensitive(a: Action) {
    match a
    case Output(_) => false
    case Printf(_) => false
    case FilePrint(_, _) => false
    case FilePrintf(_, _) => false
    case _ => true
  }

  predicate ContainsCommitSensitive(e: Expr)
    decreases Nodes(e), 0
  {
    match e
    case And(items) => AnyCommitSensitive(items)
    case Or(l, r) => ContainsCommitSensitive(l) || ContainsCommitSensitive(r)
    case Not(i) => ContainsCommitSensitive(i)
    case Act(a) => CommitSensitive(a)
    case _ => false
  }

  predicate AnyCommitSensitive(items: seq<Expr>)
    decreases NodesOf(items), 1
  {
    items != [] && (ContainsCommitSensitive(items[0]) || AnyCommitSensitive(items[1..]))
  }

  /** An action that only writes a record matches and has a clear status, unless
      the write fails. */
  ghost predicate Renders(sink: Recorder) {
    forall g: seq<Record> :: g != [] && !CommitSensitive(g[|g| - 1].action) && sink(g).Ok? ==> sink(g).value == Outcome(true, CLEAR)
  }

  lemma {:induction false} QuietEvaluation(p: Plan, g: seq<Record>, e: W.Entry, x: Expr, h: seq<Action>)
    requires Renders(p.sink) && !ContainsCommitSensitive(x)
    ensures var v := Direct(x, p.tests(e), SinkFor(p, g, e), h); v.result.Ok? ==> v.result.value.status == CLEAR
    decreases Nodes(x), 0
  {
    var ts, sink := p.tests(e), SinkFor(p, g, e);
    match x
    case Act(a) =>
      var records := g + Tagged(e, h + [a]);
      assert (h + [a])[..|h|] == h;
      assert records[|records| - 1] == Record(e, a);
      assert sink(h + [a]) == p.sink(records);
    case And(items) => QuietItems(p, g, e, items, h);
    case Or(l, r) =>
      QuietEvaluation(p, g, e, l, h);
      QuietEvaluation(p, g, e, r, Direct(l, ts, sink, h).history);
    case Not(i) => QuietEvaluation(p, g, e, i, h);
    case _ =>
  }

  lemma {:induction false} QuietItems(p: Plan, g: seq<Record>, e: W.Entry, items: seq<Expr>, h: seq<Action>)
    requires Renders(p.sink) && !AnyCommitSensitive(items)
    ensures var v := DirectAll(items, p.tests(e), SinkFor(p, g, e), h, CLEAR); v.result.Ok? ==> v.result.value.status == CLEAR
    decreases NodesOf(items), 1
  {
    hide Renders;
    if items != [] {
      QuietEvaluation(p, g, e, items[0], h);
      QuietItems(p, g, e, items[1..], Direct(items[0], p.tests(e), SinkFor(p, g, e), h).history);
    }
  }

  lemma {:induction false} CommitsInline(p: Plan, walk: seq<Walked>, g: seq<Record>, trouble: bool)
    requires Renders(p.sink) && !ContainsCommitSensitive(p.expr)
    ensures Inline(p, walk, g, trouble) == Committed(p, Entries(walk, p.minDepth), g, trouble || AnyTrouble(walk), CLEAR)
    decreases |walk|
  {
    hide Renders, ContainsCommitSensitive, EvaluateEntry, Finished;
    if walk != [] {
      match walk[0]
      case Trouble(_) => CommitsInline(p, walk[1..], g, true);
      case Reached(e) =>
        if e.depth < p.minDepth {
          CommitsInline(p, walk[1..], g, trouble);
        } else {
          var v := EvaluateEntry(p, g, e);
          assert v.result.Ok? ==> v.result.value.status == CLEAR by { QuietEntry(p, g, e); }
          var rest := Entries(walk[1..], p.minDepth);
          assert ([e] + rest)[1..] == rest;
          if v.result.Ok? { CommitsInline(p, walk[1..], g + Tagged(e, v.history), trouble); }
        }
    }
  }

  lemma QuietEntry(p: Plan, g: seq<Record>, e: W.Entry)
    requires Renders(p.sink) && !ContainsCommitSensitive(p.expr)
    ensures EvaluateEntry(p, g, e).result.Ok? ==> EvaluateEntry(p, g, e).result.value.status == CLEAR
  {
    QuietEvaluation(p, g, e, p.expr, []);
  }

  /** For a plan without commit-sensitive actions the pipeline dispatches the same
      records in the same order, and reports the same, as the inline engine,
      whatever order the evaluators finish in. */
  method PipelineIsInline(p: Plan, walk: seq<Walked>, arrivals: seq<nat>) returns (r: Report)
    requires Renders(p.sink) && !ContainsCommitSensitive(p.expr)
    requires ArriveOnce(arrivals, |Entries(walk, p.minDepth)|)
    ensures r == Inline(p, walk, [], false)
  {
    CommitsInline(p, walk, [], false);
    r := RunPipeline(p, walk, arrivals);
  }

  // ----- Exactly when they agree -----

  /** Some action among the records reported a failure. */
  ghost predicate FailedIn(p: Plan, g: seq<Record>) {
    exists k :: 0 < k <= |g| && p.sink(g[..k]).Ok? && p.sink(g[..k]).value.status.failed
  }

  /** A flush that succeeds does not forget a failure. */
  ghost predicate FlushTells(p: Plan) {
    forall g :: FailedIn(p, g) && p.flush(g).Ok? ==> p.flush(g).value.failed
  }

  ghost predicate FlushNeverFails(p: Plan) {
    forall g :: p.flush(g).Ok?
  }

  /** The inline engine comes to an entry whose evaluation asks to stop. */
  predicate Stops(p: Plan, walk: seq<Walked>, g: seq<Record>)
    decreases |walk|
  {
    && walk != []
    && match walk[0]
       case Trouble(_) => Stops(p, walk[1..], g)
       case Reached(e) =>
         if e.depth < p.minDepth then Stops(p, walk[1..], g)
         else
           var v := EvaluateEntry(p, g, e);
           v.result.Ok? && (v.result.value.status.stop || Stops(p, walk[1..], g + Tagged(e, v.history)))
  }

  lemma TaggedPrefix(e: W.Entry, h: seq<Action>, k: nat)
    requires k <= |h|
    ensures Tagged(e, h[..k]) == Tagged(e, h)[..k]
  {
    if k < |h| {
      TaggedPrefix(e, h[..|h| - 1], k);
      assert h[..|h| - 1][..k] == h[..k];
    } else {
      assert h[..k] == h;
    }
  }

  /** A failure among the answers to h was reported by some action of h. */
  lemma {:induction false} AnsweredBy(sink: Sink, h: seq<Action>) returns (k: nat)
    requires Answered(sink, h, 0).failed
    ensures 0 < k <= |h| && sink(h[..k]).Ok? && sink(h[..k]).value.status.failed
    decreases |h|
  {
    if sink(h).Ok? && sink(h).value.status.failed {
      assert h[..|h|] == h;
      return |h|;
    }
    k := AnsweredBy(sink, h[..|h| - 1]);
    assert h[..|h| - 1][..k] == h[..k];
  }

  lemma FailureIsRecorded(p: Plan, g: seq<Record>, e: W.Entry)
    requires EvaluateEntry(p, g, e).result.Ok? && EvaluateEntry(p, g, e).result.value.status.failed
    ensures FailedIn(p, g + Tagged(e, EvaluateEntry(p, g, e).history))
  {
    var v, sink := EvaluateEntry(p, g, e), SinkFor(p, g, e);
    DirectLawful(p.expr, p.tests(e), sink, []);
    var k := AnsweredBy(sink, v.history);
    TaggedPrefix(e, v.history, k);
    assert (g + Tagged(e, v.history))[..|g| + k] == g + Tagged(e, v.history[..k]);
  }

  lemma FailureStays(p: Plan, g: seq<Record>, more: seq<Record>)
    requires FailedIn(p, g)
    ensures FailedIn(p, g + more)
  {
    var k :| 0 < k <= |g| && p.sink(g[..k]).Ok? && p.sink(g[..k]).value.status.failed;
    assert (g + more)[..k] == g[..k];
  }

  /** As long as nobody asks to stop, committing is what the inline engine does. */
  lemma {:induction false} CommitsUnlessStopped(p: Plan, walk: seq<Walked>, g: seq<Record>, trouble: bool, status: Status)
    requires FlushTells(p) && !Stops(p, walk, g) && (status.failed ==> FailedIn(p, g))
    ensures Inline(p, walk, g, trouble) == Committed(p, Entries(walk, p.minDepth), g, trouble || AnyTrouble(walk), status)
    decreases |walk|
  {
    hide EvaluateEntry, FailedIn;
    if walk == [] {
      assert FailedIn(p, g) && p.flush(g).Ok? ==> p.flush(g).value.failed;
    } else {
      hide FlushTells, Finished;
      match walk[0]
      case Trouble(_) => CommitsUnlessStopped(p, walk[1..], g, true, status);
      case Reached(e) =>
        if e.depth < p.minDepth {
          CommitsUnlessStopped(p, walk[1..], g, trouble, status);
        } else {
          var v := EvaluateEntry(p, g, e);
          var rest := Entries(walk[1..], p.minDepth);
          assert ([e] + rest)[1..] == rest;
          if v.result.Ok? {
            if v.result.value.status.failed { FailureIsRecorded(p, g, e); }
            if status.failed { FailureStays(p, g, Tagged(e, v.history)); }
            CommitsUnlessStopped(p, walk[1..], g + Tagged(e, v.history), trouble, Merge(status, v.result.value.status));
          }
        }
    }
  }

  /** Where it stops, the flush succeeds. */
  predicate StopFlushes(p: Plan, walk: seq<Walked>, g: seq<Record>)
    requires Stops(p, walk, g)
    decreases |walk|
  {
    match walk[0]
    case Trouble(_) => StopFlushes(p, walk[1..], g)
    case Reached(e) =>
      if e.depth < p.minDepth then StopFlushes(p, walk[1..], g)
      else
        var v := EvaluateEntry(p, g, e);
        if v.result.value.status.stop then p.flush(g + Tagged(e, v.history)).Ok?
        else StopFlushes(p, walk[1..], g + Tagged(e, v.history))
  }

  function WithoutTrouble(walk: seq<Walked>): seq<Walked> {
    if walk == [] then [] else (if walk[0].Trouble? then [] else [walk[0]]) + WithoutTrouble(walk[1..])
  }

  lemma {:induction false} StopsAnyway(p: Plan, walk: seq<Walked>, g: seq<Record>)
    requires Stops(p, walk, g)
    ensures Stops(p, WithoutTrouble(walk), g) && !AnyTrouble(WithoutTrouble(walk))
    ensures StopFlushes(p, WithoutTrouble(walk), g) == StopFlushes(p, walk, g)
    decreases |walk|
  {
    NoTroubleIn(walk);
    var rest := WithoutTrouble(walk[1..]);
    match walk[0]
    case Trouble(_) =>
      assert [] + rest == rest;
      StopsAnyway(p, walk[1..], g);
    case Reached(e) =>
      assert ([walk[0]] + rest)[1..] == rest;
      if e.depth < p.minDepth {
        StopsAnyway(p, walk[1..], g);
      } else {
        var v := EvaluateEntry(p, g, e);
        if !v.result.value.status.stop { StopsAnyway(p, walk[1..], g + Tagged(e, v.history)); }
      }
  }

  lemma {:induction false} NoTroubleIn(walk: seq<Walked>)
    ensures !AnyTrouble(WithoutTrouble(walk))
  {
    if walk != [] {
      NoTroubleIn(walk[1..]);
      var rest := WithoutTrouble(walk[1..]);
      assert ([walk[0]] + rest)[1..] == rest && [] + rest == rest;
    }
  }

  /** What comes after the stop is not noticed. */
  lemma {:induction false} StopIsDeaf(p: Plan, walk: seq<Walked>, more: seq<Walked>, g: seq<Record>)
    requires Stops(p, walk, g) && StopFlushes(p, walk, g) && !AnyTrouble(walk)
    ensures var r := Inline(p, walk + more, g, false); r.result.Ok? && !r.result.value.runtimeErrors
    decreases |walk|
  {
    hide EvaluateEntry, FailedIn;
    assert (walk + more)[0] == walk[0] && (walk + more)[1..] == walk[1..] + more;
    var e := walk[0].entry;
    if e.depth < p.minDepth {
      StopIsDeaf(p, walk[1..], more, g);
    } else {
      var v := EvaluateEntry(p, g, e);
      var g' := g + Tagged(e, v.history);
      if !v.result.value.status.stop { StopIsDeaf(p, walk[1..], more, g'); }
    }
  }

  lemma {:induction false} TroubleShows(p: Plan, entries: seq<W.Entry>, g: seq<Record>, status: Status)
    ensures var r := Committed(p, entries, g, true, status); r.result.Ok? ==> r.result.value.runtimeErrors
    decreases |entries|
  {
    hide EvaluateEntry;
    if entries != [] {
      var v := EvaluateEntry(p, g, entries[0]);
      if v.result.Ok? { TroubleShows(p, entries[1..], g + Tagged(entries[0], v.history), Merge(status, v.result.value.status)); }
    }
  }

  lemma {:induction false} TroubleAtTheEnd(walk: seq<Walked>, error: Diagnostic)
    ensures AnyTrouble(walk + [Trouble(error)])
    decreases |walk|
  {
    if walk != [] {
      assert (walk + [Trouble(error)])[0] == walk[0] && (walk + [Trouble(error)])[1..] == walk[1..] + [Trouble(error)];
      TroubleAtTheEnd(walk[1..], error);
    }
  }

  ghost predicate SameEither(p: Plan, walk: seq<Walked>) {
    Inline(p, walk, [], false) == Committed(p, Entries(walk, p.minDepth), [], AnyTrouble(walk), CLEAR)
  }

  ghost predicate NeverStops(p: Plan) {
    forall walk :: !Stops(p, walk, [])
  }

  /** No evaluation asks to stop where the flush then succeeds. */
  ghost predicate NeverStopsWell(p: Plan) {
    forall walk :: Stops(p, walk, []) ==> !StopFlushes(p, walk, [])
  }

  ghost predicate AlwaysSame(p: Plan) {
    forall walk :: SameEither(p, walk)
  }

  /** For any plan, commit-sensitive or not, whose flush does not forget failures: the
      two ways of running it agree on every walk if no evaluation ever asks to stop, and
      only if none does where the flush then succeeds. */
  lemma AgreeUnlessStopped(p: Plan)
    requires FlushTells(p)
    ensures NeverStops(p) ==> AlwaysSame(p)
    ensures AlwaysSame(p) ==> NeverStopsWell(p)
    ensures FlushNeverFails(p) ==> (AlwaysSame(p) <==> NeverStops(p))
  {
    if NeverStops(p) {
      forall walk ensures SameEither(p, walk) {
        assert !Stops(p, walk, []);
        NoStopMeansSame(p, walk);
      }
    }
    if AlwaysSame(p) {
      forall walk | Stops(p, walk, []) ensures !StopFlushes(p, walk, []) {
        if StopFlushes(p, walk, []) { StopTellsThemApart(p, walk); }
      }
      if FlushNeverFails(p) {
        forall walk ensures !Stops(p, walk, []) {
          if Stops(p, walk, []) { FlushesAtStop(p, walk, []); }
        }
      }
    }
  }

  lemma NoStopMeansSame(p: Plan, walk: seq<Walked>)
    requires FlushTells(p) && !Stops(p, walk, [])
    ensures SameEither(p, walk)
  {
    hide FlushTells, Stops, Inline, Committed, Entries, AnyTrouble, FailedIn;
    CommitsUnlessStopped(p, walk, [], false, CLEAR);
  }

  lemma StopTellsThemApart(p: Plan, walk: seq<Walked>)
    requires Stops(p, walk, []) && StopFlushes(p, walk, [])
    ensures exists other :: !SameEither(p, other)
  {
    hide Stops, StopFlushes, Inline, Committed, Entries, AnyTrouble;
    StopsAnyway(p, walk, []);
    var quiet, troubled := WithoutTrouble(walk), WithoutTrouble(walk) + [Trouble("")];
    StopIsDeaf(p, quiet, [Trouble("")], []);
    TroubleAtTheEnd(quiet, "");
    TroubleShows(p, Entries(troubled, p.minDepth), [], CLEAR);
    assert !SameEither(p, troubled);
  }

  lemma {:induction false} FlushesAtStop(p: Plan, walk: seq<Walked>, g: seq<Record>)
    requires Stops(p, walk, g) && FlushNeverFails(p)
    ensures StopFlushes(p, walk, g)
    decreases |walk|
  {
    hide EvaluateEntry;
    match walk[0]
    case Trouble(_) => FlushesAtStop(p, walk[1..], g);
    case Reached(e) =>
      if e.depth < p.minDepth {
        FlushesAtStop(p, walk[1..], g);
      } else {
        var v := EvaluateEntry(p, g, e);
        if !v.result.value.status.stop { FlushesAtStop(p, walk[1..], g + Tagged(e, v.history)); }
      }
  }

  // ----- A plan that asks to stop -----

  /** -quit alone. */
  const QUITTING := Plan(
    Act(Quit),
    0,
    (e: W.Entry) => (t: Predicate) => Ok(true),
    (g: seq<Record>) => Ok(Outcome(true, Status(false, true))),
    (g: seq<Record>) => Ok(CLEAR))

  /** Inline it stops at the first entry, piped it goes on to the second. */
  lemma QuitTellsThemApart(a: W.Entry, b: W.Entry)
    ensures Inline(QUITTING, [Reached(a), Reached(b)], [], false).records == [Record(a, Quit)]
    ensures Committed(QUITTING, [a, b], [], false, CLEAR).records == [Record(a, Quit), Record(b, Quit)]
  {
    var p := QUITTING;
    assert Tagged(a, [Quit]) == [Record(a, Quit)] && Tagged(b, [Quit]) == [Record(b, Quit)] by {
      assert [Quit][..0] == [] && Tagged(a, []) == [] && Tagged(b, []) == [];
    }
    var walk := [Reached(a), Reached(b)];
    assert walk[0] == Reached(a);
    assert [a, b][1..] == [b] && [b][1..] == [];
    var one := [] + [Record(a, Quit)];
    assert EvaluateEntry(p, [], a) == Verdict([Quit], Ok(Outcome(true, Status(false, true)))) by { assert [] + [Quit] == [Quit]; }
    assert EvaluateEntry(p, one, b) == Verdict([Quit], Ok(Outcome(true, Status(false, true)))) by { assert [] + [Quit] == [Quit]; }
    assert Committed(p, [b], one, false, Status(false, true)).records == one + [Record(b, Quit)];
  }
}
