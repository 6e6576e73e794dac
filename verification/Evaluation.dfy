/** The resumable evaluator against a direct recursive one.

    Predicates are an abstract function for the entry at hand; whatever performs
    the actions answers from the history of what it has been asked to do. */
module Evaluation {
  import opened Basics
  import opened Expressions

  type Tests = Predicate -> Result<bool, Diagnostic>

  /** The answer to the last action of the history. */
  type Sink = seq<Action> -> Result<Outcome, Diagnostic>

  /** -prune, -true and -false ask nothing about the entry. */
  function Test(ts: Tests, p: Predicate): Result<bool, Diagnostic> {
    if p.Prune? || p.True? then Ok(true) else if p.False? then Ok(false) else ts(p)
  }

  datatype Verdict = Verdict(history: seq<Action>, result: Result<Outcome, Diagnostic>)

  // ----- The reference -----

  function Direct(e: Expr, ts: Tests, sink: Sink, h: seq<Action>): Verdict
    decreases Nodes(e), 0
  {
    match e
    case Pred(p) =>
      (match Test(ts, p)
       case Err(error) => Verdict(h, Err(error))
       case Ok(b) => Verdict(h, Ok(Outcome(b, CLEAR))))
    case Act(a) => Verdict(h + [a], sink(h + [a]))
    case And(items) => DirectAll(items, ts, sink, h, CLEAR)
    case Or(l, r) =>
      var left := Direct(l, ts, sink, h);
      if left.result.Err? || left.result.value.matched || left.result.value.status.stop then left
      else
        var right := Direct(r, ts, sink, left.history);
        if right.result.Err? then right
        else Verdict(right.history, Ok(Outcome(right.result.value.matched, Merge(left.result.value.status, right.result.value.status))))
    case Not(i) =>
      var inner := Direct(i, ts, sink, h);
      if inner.result.Err? then inner
      else Verdict(inner.history, Ok(Outcome(!inner.result.value.matched, inner.result.value.status)))
    case Barrier => Verdict(h, Ok(Outcome(true, CLEAR)))
  }

  /** Items one after the other, as long as they match and nobody asks to stop. */
  function DirectAll(items: seq<Expr>, ts: Tests, sink: Sink, h: seq<Action>, acc: Status): Verdict
    decreases NodesOf(items), 1
  {
    if items == [] then Verdict(h, Ok(Outcome(true, acc)))
    else
      var first := Direct(items[0], ts, sink, h);
      if first.result.Err? then first
      else
        var acc' := Merge(acc, first.result.value.status);
        if !first.result.value.matched || acc'.stop then
          Verdict(first.history, Ok(Outcome(first.result.value.matched, acc')))
        else DirectAll(items[1..], ts, sink, first.history, acc')
  }

  // ----- The machine -----

  datatype Cont =
    | Done
    | AfterAnd(items: seq<Expr>, nextIndex: nat, accumulated: Status, parent: Cont)
    | AfterOrLeft(right: Expr, parent: Cont)
    | AfterOrRight(leftStatus: Status, parent: Cont)
    | AfterNot(parent: Cont)

  datatype Step = Complete(outcome: Outcome) | PendingAction(action: Action, continuation: Cont)

  /** The work a continuation still holds. */
  function Ahead(k: Cont): nat {
    match k
    case Done => 0
    case AfterAnd(items, i, _, parent) => 1 + (if i <= |items| then 2 * NodesOf(items[i..]) else 0) + Ahead(parent)
    case AfterOrLeft(right, parent) => 1 + 2 * Nodes(right) + Ahead(parent)
    case AfterOrRight(_, parent) => 1 + Ahead(parent)
    case AfterNot(parent) => 1 + Ahead(parent)
  }

  function StepExpr(e: Expr, k: Cont, ts: Tests): Result<Step, Diagnostic>
    decreases 2 * Nodes(e) + Ahead(k), 0
  {
    match e
    case Pred(p) =>
      (match Test(ts, p)
       case Err(error) => Err(error)
       case Ok(b) => FinishWith(k, Outcome(b, CLEAR), ts))
    case Act(a) => Ok(PendingAction(a, k))
    case And(items) =>
      if items == [] then FinishWith(k, Outcome(true, CLEAR), ts)
      else (NodesWithin(items, 0); StepExpr(items[0], AfterAnd(items, 1, CLEAR, k), ts))
    case Or(l, r) => StepExpr(l, AfterOrLeft(r, k), ts)
    case Not(i) => StepExpr(i, AfterNot(k), ts)
    case Barrier => FinishWith(k, Outcome(true, CLEAR), ts)
  }

  function FinishWith(k: Cont, o: Outcome, ts: Tests): Result<Step, Diagnostic>
    decreases Ahead(k), 1
  {
    match k
    case Done => Ok(Complete(o))
    case AfterAnd(items, i, accumulated, parent) =>
      var acc := Merge(accumulated, o.status);
      if !o.matched || acc.stop then FinishWith(parent, Outcome(o.matched, acc), ts)
      else if i >= |items| then FinishWith(parent, Outcome(true, acc), ts)
      else (NodesWithin(items, i); StepExpr(items[i], AfterAnd(items, i + 1, acc, parent), ts))
    case AfterOrLeft(right, parent) =>
      if o.matched || o.status.stop then FinishWith(parent, o, ts)
      else StepExpr(right, AfterOrRight(o.status, parent), ts)
    case AfterOrRight(leftStatus, parent) => FinishWith(parent, Outcome(o.matched, Merge(leftStatus, o.status)), ts)
    case AfterNot(parent) => FinishWith(parent, Outcome(!o.matched, o.status), ts)
  }

  function BeginEntryEval(e: Expr, ts: Tests): Result<Step, Diagnostic> {
    StepExpr(e, Done, ts)
  }

  function ResumeEntryEval(k: Cont, o: Outcome, ts: Tests): Result<Step, Diagnostic> {
    FinishWith(k, o, ts)
  }

  // ----- What the machine's states mean -----

  /** What is left to do once the current subexpression has come to o. */
  function Rest(k: Cont, o: Outcome, ts: Tests, sink: Sink, h: seq<Action>): Verdict
    decreases k, 0
  {
    match k
    case Done => Verdict(h, Ok(o))
    case AfterAnd(items, i, accumulated, parent) =>
      var acc := Merge(accumulated, o.status);
      if !o.matched || acc.stop then Rest(parent, Outcome(o.matched, acc), ts, sink, h)
      else Onward(parent, DirectAll(if i <= |items| then items[i..] else [], ts, sink, h, acc), ts, sink)
    case AfterOrLeft(right, parent) =>
      if o.matched || o.status.stop then Rest(parent, o, ts, sink, h)
      else
        var r := Direct(right, ts, sink, h);
        if r.result.Err? then r
        else Rest(parent, Outcome(r.result.value.matched, Merge(o.status, r.result.value.status)), ts, sink, r.history)
    case AfterOrRight(leftStatus, parent) => Rest(parent, Outcome(o.matched, Merge(leftStatus, o.status)), ts, sink, h)
    case AfterNot(parent) => Rest(parent, Outcome(!o.matched, o.status), ts, sink, h)
  }

  function Onward(k: Cont, v: Verdict, ts: Tests, sink: Sink): Verdict
    decreases k, 1
  {
    match v.result case Err(_) => v case Ok(o) => Rest(k, o, ts, sink, v.history)
  }

  /** The verdict a machine state leads to. */
  function Meaning(r: Result<Step, Diagnostic>, ts: Tests, sink: Sink, h: seq<Action>): Verdict {
    match r
    case Err(error) => Verdict(h, Err(error))
    case Ok(Complete(o)) => Verdict(h, Ok(o))
    case Ok(PendingAction(a, k)) => Onward(k, Verdict(h + [a], sink(h + [a])), ts, sink)
  }

  lemma {:induction false} StepMeans(e: Expr, k: Cont, ts: Tests, sink: Sink, h: seq<Action>)
    ensures Meaning(StepExpr(e, k, ts), ts, sink, h) == Onward(k, Direct(e, ts, sink, h), ts, sink)
    decreases 2 * Nodes(e) + Ahead(k), 0
  {
    match e
    case Pred(p) => if Test(ts, p).Ok? { FinishMeans(k, Outcome(Test(ts, p).value, CLEAR), ts, sink, h); }
    case Act(_) =>
    case And(items) =>
      if items == [] {
        FinishMeans(k, Outcome(true, CLEAR), ts, sink, h);
      } else {
        NodesWithin(items, 0);
        StepMeans(items[0], AfterAnd(items, 1, CLEAR, k), ts, sink, h);
      }
    case Or(l, r) => StepMeans(l, AfterOrLeft(r, k), ts, sink, h);
    case Not(i) => StepMeans(i, AfterNot(k), ts, sink, h);
    case Barrier => FinishMeans(k, Outcome(true, CLEAR), ts, sink, h);
  }

  lemma {:induction false} FinishMeans(k: Cont, o: Outcome, ts: Tests, sink: Sink, h: seq<Action>)
    ensures Meaning(FinishWith(k, o, ts), ts, sink, h) == Rest(k, o, ts, sink, h)
    decreases Ahead(k), 1
  {
    match k
    case Done =>
    case AfterAnd(items, i, accumulated, parent) =>
      var acc := Merge(accumulated, o.status);
      if !o.matched || acc.stop {
        FinishMeans(parent, Outcome(o.matched, acc), ts, sink, h);
      } else if i >= |items| {
        FinishMeans(parent, Outcome(true, acc), ts, sink, h);
      } else {
        NodesWithin(items, i);
        StepMeans(items[i], AfterAnd(items, i + 1, acc, parent), ts, sink, h);
      }
    case AfterOrLeft(right, parent) =>
      if o.matched || o.status.stop {
        FinishMeans(parent, o, ts, sink, h);
      } else {
        StepMeans(right, AfterOrRight(o.status, parent), ts, sink, h);
      }
    case AfterOrRight(leftStatus, parent) => FinishMeans(parent, Outcome(o.matched, Merge(leftStatus, o.status)), ts, sink, h);
    case AfterNot(parent) => FinishMeans(parent, Outcome(!o.matched, o.status), ts, sink, h);
  }

  /** A resumed machine has strictly less work ahead. */
  lemma {:induction false} StepShrinks(e: Expr, k: Cont, ts: Tests)
    ensures var r := StepExpr(e, k, ts);
      r.Ok? && r.value.PendingAction? ==> Ahead(r.value.continuation) < 2 * Nodes(e) + Ahead(k)
    decreases 2 * Nodes(e) + Ahead(k), 0
  {
    match e
    case Pred(p) => if Test(ts, p).Ok? { FinishShrinks(k, Outcome(Test(ts, p).value, CLEAR), ts); }
    case Act(_) =>
    case And(items) =>
      if items == [] {
        FinishShrinks(k, Outcome(true, CLEAR), ts);
      } else {
        NodesWithin(items, 0);
        StepShrinks(items[0], AfterAnd(items, 1, CLEAR, k), ts);
      }
    case Or(l, r) => StepShrinks(l, AfterOrLeft(r, k), ts);
    case Not(i) => StepShrinks(i, AfterNot(k), ts);
    case Barrier => FinishShrinks(k, Outcome(true, CLEAR), ts);
  }

  lemma {:induction false} FinishShrinks(k: Cont, o: Outcome, ts: Tests)
    ensures var r := FinishWith(k, o, ts);
      r.Ok? && r.value.PendingAction? ==> Ahead(r.value.continuation) < Ahead(k)
    decreases Ahead(k), 1
  {
    match k
    case Done =>
    case AfterAnd(items, i, accumulated, parent) =>
      var acc := Merge(accumulated, o.status);
      if !o.matched || acc.stop {
        FinishShrinks(parent, Outcome(o.matched, acc), ts);
      } else if i >= |items| {
        FinishShrinks(parent, Outcome(true, acc), ts);
      } else {
        NodesWithin(items, i);
        StepShrinks(items[i], AfterAnd(items, i + 1, acc, parent), ts);
      }
    case AfterOrLeft(right, parent) =>
      if o.matched || o.status.stop {
        FinishShrinks(parent, o, ts);
      } else {
        StepShrinks(right, AfterOrRight(o.status, parent), ts);
      }
    case AfterOrRight(leftStatus, parent) => FinishShrinks(parent, Outcome(o.matched, Merge(leftStatus, o.status)), ts);
    case AfterNot(parent) => FinishShrinks(parent, Outcome(!o.matched, o.status), ts);
  }

  /** Drives the machine from any state: each pending action is dispatched and
      the machine resumed with its outcome. */
  method Drive(first: Result<Step, Diagnostic>, ts: Tests, sink: Sink, before: seq<Action>) returns (v: Verdict)
    ensures v == Meaning(first, ts, sink, before)
  {
    var history := before;
    var state := first;
    while state.Ok? && state.value.PendingAction?
      invariant Meaning(state, ts, sink, history) == Meaning(first, ts, sink, before)
      decreases if state.Ok? && state.value.PendingAction? then 1 + Ahead(state.value.continuation) else 0
    {
      var k := state.value.continuation;
      history := history + [state.value.action];
      var answer := sink(history);
      if answer.Err? { return Verdict(history, Err(answer.error)); }
      FinishMeans(k, answer.value, ts, sink, history);
      FinishShrinks(k, answer.value, ts);
      state := ResumeEntryEval(k, answer.value, ts);
    }
    match state {
      case Err(error) => v := Verdict(history, Err(error));
      case Ok(Complete(o)) => v := Verdict(history, Ok(o));
    }
  }

  /** Pausing at every action and resuming with its outcome dispatches the same
      actions in the same order, and comes to the same result, as evaluating the
      expression directly; and it ends. */
  method EvaluateOutcome(e: Expr, ts: Tests, sink: Sink, before: seq<Action>) returns (v: Verdict)
    ensures v == Direct(e, ts, sink, before)
  {
    StepMeans(e, Done, ts, sink, before);
    v := Drive(BeginEntryEval(e, ts), ts, sink, before);
  }

  // ----- Laws of the reference -----

  /** The join of the answers to the actions number i to |h| - 1. */
  function Answered(sink: Sink, h: seq<Action>, i: nat): Status
    requires i <= |h|
    decreases |h|
  {
    if i == |h| then CLEAR
    else Merge(Answered(sink, h[..|h| - 1], i), match sink(h) case Err(_) => CLEAR case Ok(o) => o.status)
  }

  lemma {:induction false} AnsweredSplits(sink: Sink, h: seq<Action>, i: nat, j: nat)
    requires i <= j <= |h|
    ensures Answered(sink, h, i) == Merge(Answered(sink, h[..j], i), Answered(sink, h, j))
    decreases |h|
  {
    if j < |h| {
      AnsweredSplits(sink, h[..|h| - 1], i, j);
      assert h[..|h| - 1][..j] == h[..j];
    } else {
      assert h[..j] == h;
    }
  }

  /** From h to v, starting with the status acc: the history is extended, the
      statuses are joined, and every dispatch but the last was answered without
      an error and without asking to stop. */
  ghost predicate LawfulFrom(sink: Sink, h: seq<Action>, acc: Status, v: Verdict) {
    && |h| <= |v.history| && v.history[..|h|] == h
    && (v.result.Ok? ==> v.result.value.status == Merge(acc, Answered(sink, v.history, |h|)))
    && (v.result.Ok? && |h| < |v.history| ==> sink(v.history).Ok?)
    && (forall j :: |h| < j < |v.history| ==> Harmless(sink, v.history[..j]))
  }

  predicate Harmless(sink: Sink, h: seq<Action>) {
    sink(h).Ok? && !sink(h).value.status.stop
  }

  lemma {:induction false} NoStopMeansNone(sink: Sink, h: seq<Action>, i: nat, j: nat)
    requires i < j <= |h| && !Answered(sink, h, i).stop
    ensures sink(h[..j]).Ok? ==> Harmless(sink, h[..j])
    decreases |h|
  {
    if j == |h| {
      assert h[..j] == h;
    } else {
      NoStopMeansNone(sink, h[..|h| - 1], i, j);
      assert h[..|h| - 1][..j] == h[..j];
    }
  }

  /** Two lawful stretches, the first without a stop, make one. */
  lemma Chained(sink: Sink, h: seq<Action>, acc: Status, first: Verdict, mid: Status, second: Verdict)
    requires LawfulFrom(sink, h, acc, first) && first.result.Ok? && !first.result.value.status.stop
    requires mid == first.result.value.status && LawfulFrom(sink, first.history, mid, second)
    ensures LawfulFrom(sink, h, acc, second)
  {
    var m := |first.history|;
    assert second.history[..|h|] == second.history[..m][..|h|];
    AnsweredSplits(sink, second.history, |h|, m);
    if |second.history| == m { assert second.history == first.history; }
    forall j | |h| < j < |second.history| ensures Harmless(sink, second.history[..j]) {
      if j <= m {
        assert second.history[..j] == first.history[..j];
        if j == m { assert first.history[..j] == first.history; }
        NoStopMeansNone(sink, first.history, |h|, j);
      }
    }
  }

  /** A stretch that starts afresh, seen with the status before it. */
  lemma Prefixed(sink: Sink, h: seq<Action>, acc: Status, v: Verdict, w: Verdict)
    requires LawfulFrom(sink, h, CLEAR, v) && w.history == v.history
    requires w.result.Ok? ==> v.result.Ok? && w.result.value.status == Merge(acc, v.result.value.status)
    ensures LawfulFrom(sink, h, acc, w)
  {
    hide Answered;
  }

  lemma {:induction false} AllLawful(items: seq<Expr>, ts: Tests, sink: Sink, h: seq<Action>, acc: Status)
    requires !acc.stop
    ensures LawfulFrom(sink, h, acc, DirectAll(items, ts, sink, h, acc))
    decreases NodesOf(items), 1
  {
    hide LawfulFrom;
    if items == [] {
      NothingDone(sink, h, acc, true);
    } else {
      var first := Direct(items[0], ts, sink, h);
      DirectLawful(items[0], ts, sink, h);
      if first.result.Err? {
        Prefixed(sink, h, acc, first, first);
      } else {
        var acc' := Merge(acc, first.result.value.status);
        var v := Verdict(first.history, Ok(Outcome(first.result.value.matched, acc')));
        Prefixed(sink, h, acc, first, v);
        if first.result.value.matched && !acc'.stop {
          AllLawful(items[1..], ts, sink, first.history, acc');
          Chained(sink, h, acc, v, acc', DirectAll(items[1..], ts, sink, first.history, acc'));
        }
      }
    }
  }

  lemma NothingDone(sink: Sink, h: seq<Action>, acc: Status, b: bool)
    ensures LawfulFrom(sink, h, acc, Verdict(h, Ok(Outcome(b, acc))))
  {
    assert Answered(sink, h, |h|) == CLEAR;
  }

  lemma OneDone(sink: Sink, h: seq<Action>, a: Action)
    ensures LawfulFrom(sink, h, CLEAR, Verdict(h + [a], sink(h + [a])))
  {
    assert (h + [a])[..|h|] == h;
  }

  /** The final status is the join of the statuses of all dispatched actions, and
      after an answer that asks to stop nothing more is dispatched. */
  lemma {:induction false} DirectLawful(e: Expr, ts: Tests, sink: Sink, h: seq<Action>)
    ensures LawfulFrom(sink, h, CLEAR, Direct(e, ts, sink, h))
    decreases Nodes(e), 0
  {
    hide LawfulFrom;
    var v := Direct(e, ts, sink, h);
    match e
    case Pred(p) =>
      NothingDone(sink, h, CLEAR, v.result.Ok? && v.result.value.matched);
      if v.result.Err? { Prefixed(sink, h, CLEAR, Verdict(h, Ok(Outcome(false, CLEAR))), v); }
    case Act(a) => OneDone(sink, h, a);
    case And(items) => AllLawful(items, ts, sink, h, CLEAR);
    case Or(l, r) =>
      DirectLawful(l, ts, sink, h);
      var left := Direct(l, ts, sink, h);
      if left.result.Ok? && !left.result.value.matched && !left.result.value.status.stop {
        DirectLawful(r, ts, sink, left.history);
        Prefixed(sink, left.history, left.result.value.status, Direct(r, ts, sink, left.history), v);
        Chained(sink, h, CLEAR, left, left.result.value.status, v);
      }
    case Not(i) =>
      DirectLawful(i, ts, sink, h);
      Prefixed(sink, h, CLEAR, Direct(i, ts, sink, h), v);
    case Barrier => NothingDone(sink, h, CLEAR, true);
  }
}
