/** What an evaluation asks for, in which order, and when it leaves things out. */
module EvaluationLaws {
  import opened Basics
  import opened Expressions
  import opened Evaluation

  // ----- Order -----

  /** The actions of an expression, from left to right. */
  function Actions(e: Expr): seq<Action>
    decreases Nodes(e), 0
  {
    match e
    case Pred(_) => []
    case Act(a) => [a]
    case And(items) => ActionsOf(items)
    case Or(l, r) => Actions(l) + Actions(r)
    case Not(i) => Actions(i)
    case Barrier => []
  }

  function ActionsOf(items: seq<Expr>): seq<Action>
    decreases NodesOf(items), 1
  {
    if items == [] then [] else Actions(items[0]) + ActionsOf(items[1..])
  }

  /** s is what is left of t when some elements are taken out. */
  predicate Subsequence<T(==)>(s: seq<T>, t: seq<T>) {
    if s == [] then true
    else if t == [] then false
    else if s[|s| - 1] == t[|t| - 1] && Subsequence(s[..|s| - 1], t[..|t| - 1]) then true
    else Subsequence(s, t[..|t| - 1])
  }

  lemma {:induction false} MoreAfter<T>(s: seq<T>, t: seq<T>, more: seq<T>)
    requires Subsequence(s, t)
    ensures Subsequence(s, t + more)
    decreases |more|
  {
    var n := |more| - 1;
    if more == [] {
      assert t + more == t;
    } else {
      MoreAfter(s, t, more[..n]);
      assert (t + more)[..|t| + n] == t + more[..n];
    }
  }

  lemma {:induction false} MoreBefore<T>(s: seq<T>, t: seq<T>, more: seq<T>)
    requires Subsequence(s, t)
    ensures Subsequence(s, more + t)
    decreases |t|
  {
    if s != [] {
      var n := |t| - 1;
      assert (more + t)[..|more| + n] == more + t[..n];
      if s[|s| - 1] == t[n] && Subsequence(s[..|s| - 1], t[..n]) {
        MoreBefore(s[..|s| - 1], t[..n], more);
      } else {
        MoreBefore(s, t[..n], more);
      }
    }
  }

  lemma {:induction false} Joined<T>(s: seq<T>, t: seq<T>, s': seq<T>, t': seq<T>)
    requires Subsequence(s, t) && Subsequence(s', t')
    ensures Subsequence(s + s', t + t')
    decreases |t'|
  {
    if s' == [] {
      assert s + s' == s;
      MoreAfter(s, t, t');
    } else {
      var m, n := |s'| - 1, |t'| - 1;
      assert (t + t')[..|t| + n] == t + t'[..n] && (s + s')[..|s| + m] == s + s'[..m];
      if s'[m] == t'[n] && Subsequence(s'[..m], t'[..n]) {
        Joined(s, t, s'[..m], t'[..n]);
      } else {
        Joined(s, t, s', t'[..n]);
      }
    }
  }

  /** After h the history only grows, by actions of acts in their order. */
  predicate Dispatches(h: seq<Action>, acts: seq<Action>, v: Verdict) {
    |h| <= |v.history| && v.history[..|h|] == h && Subsequence(v.history[|h|..], acts)
  }

  lemma DispatchesNone(h: seq<Action>, acts: seq<Action>, v: Verdict)
    requires v.history == h
    ensures Dispatches(h, acts, v)
  {
  }

  lemma DispatchesBoth(h: seq<Action>, acts: seq<Action>, first: Verdict, acts': seq<Action>, second: Verdict)
    requires Dispatches(h, acts, first) && Dispatches(first.history, acts', second)
    ensures Dispatches(h, acts + acts', second)
  {
    hide Subsequence;
    assert second.history[..|h|] == second.history[..|first.history|][..|h|];
    assert second.history[|h|..] == first.history[|h|..] + second.history[|first.history|..];
    Joined(first.history[|h|..], acts, second.history[|first.history|..], acts');
  }

  lemma DispatchesFirst(h: seq<Action>, acts: seq<Action>, v: Verdict, acts': seq<Action>)
    requires Dispatches(h, acts, v)
    ensures Dispatches(h, acts + acts', v)
  {
    hide Subsequence;
    MoreAfter(v.history[|h|..], acts, acts');
  }

  lemma DispatchesOne(h: seq<Action>, a: Action, v: Verdict)
    requires v.history == h + [a]
    ensures Dispatches(h, [a], v)
  {
    assert v.history[|h|..] == [a];
  }

  /** Actions are dispatched in the order in which they are written, each occurrence
      at most once. */
  lemma {:induction false} LeftToRight(e: Expr, ts: Tests, sink: Sink, h: seq<Action>)
    ensures Dispatches(h, Actions(e), Direct(e, ts, sink, h))
    decreases Nodes(e), 0
  {
    hide Dispatches;
    var v := Direct(e, ts, sink, h);
    match e
    case Pred(_) => DispatchesNone(h, Actions(e), v);
    case Act(a) => DispatchesOne(h, a, v);
    case And(items) => AllLeftToRight(items, ts, sink, h, CLEAR);
    case Or(l, r) =>
      var left := Direct(l, ts, sink, h);
      LeftToRight(l, ts, sink, h);
      if left.result.Err? || left.result.value.matched || left.result.value.status.stop {
        DispatchesFirst(h, Actions(l), left, Actions(r));
      } else {
        var right := Direct(r, ts, sink, left.history);
        LeftToRight(r, ts, sink, left.history);
        DispatchesBoth(h, Actions(l), left, Actions(r), right);
        SameHistory(h, Actions(e), right, v);
      }
    case Not(i) =>
      LeftToRight(i, ts, sink, h);
      SameHistory(h, Actions(i), Direct(i, ts, sink, h), v);
    case Barrier => DispatchesNone(h, Actions(e), v);
  }

  lemma SameHistory(h: seq<Action>, acts: seq<Action>, v: Verdict, w: Verdict)
    requires Dispatches(h, acts, v) && w.history == v.history
    ensures Dispatches(h, acts, w)
  {
  }

  lemma {:induction false} AllLeftToRight(items: seq<Expr>, ts: Tests, sink: Sink, h: seq<Action>, acc: Status)
    ensures Dispatches(h, ActionsOf(items), DirectAll(items, ts, sink, h, acc))
    decreases NodesOf(items), 1
  {
    hide Dispatches;
    var v := DirectAll(items, ts, sink, h, acc);
    if items == [] {
      DispatchesNone(h, [], v);
    } else {
      var first := Direct(items[0], ts, sink, h);
      LeftToRight(items[0], ts, sink, h);
      if first.result.Err? || !first.result.value.matched || Merge(acc, first.result.value.status).stop {
        DispatchesFirst(h, Actions(items[0]), first, ActionsOf(items[1..]));
        SameHistory(h, ActionsOf(items), first, v);
      } else {
        AllLeftToRight(items[1..], ts, sink, first.history, Merge(acc, first.result.value.status));
        DispatchesBoth(h, Actions(items[0]), first, ActionsOf(items[1..]), v);
      }
    }
  }

  // ----- What is left out -----

  /** An item after which the next one is evaluated. */
  predicate GoesOn(v: Verdict) {
    v.result.Ok? && v.result.value.matched && !v.result.value.status.stop
  }

  lemma MergeLaws(a: Status, b: Status, c: Status)
    ensures Merge(Merge(a, b), c) == Merge(a, Merge(b, c)) && Merge(CLEAR, a) == a == Merge(a, CLEAR)
  {
  }

  lemma {:induction false} AllInTwo(before: seq<Expr>, after: seq<Expr>, ts: Tests, sink: Sink, h: seq<Action>, acc: Status)
    requires !acc.stop
    ensures var v := DirectAll(before, ts, sink, h, acc);
      DirectAll(before + after, ts, sink, h, acc)
      == if GoesOn(v) then DirectAll(after, ts, sink, v.history, v.result.value.status) else v
    decreases |before|
  {
    if before == [] {
      assert before + after == after;
    } else {
      assert (before + after)[0] == before[0] && (before + after)[1..] == before[1..] + after;
      var first := Direct(before[0], ts, sink, h);
      if first.result.Ok? && first.result.value.matched && !Merge(acc, first.result.value.status).stop {
        AllInTwo(before[1..], after, ts, sink, first.history, Merge(acc, first.result.value.status));
      }
    }
  }

  lemma {:induction false} AllFrom(items: seq<Expr>, ts: Tests, sink: Sink, h: seq<Action>, acc: Status)
    requires !acc.stop
    ensures DirectAll(items, ts, sink, h, acc) == Charged(acc, DirectAll(items, ts, sink, h, CLEAR))
    decreases |items|
  {
    if items != [] {
      var first := Direct(items[0], ts, sink, h);
      if first.result.Ok? && first.result.value.matched && !first.result.value.status.stop {
        var s := first.result.value.status;
        AllFrom(items[1..], ts, sink, first.history, Merge(acc, s));
        AllFrom(items[1..], ts, sink, first.history, s);
        MergeLaws(acc, s, s);
      }
    }
  }

  /** A verdict with an earlier status joined to it. */
  function Charged(s: Status, v: Verdict): Verdict {
    if v.result.Err? then v else Verdict(v.history, Ok(Outcome(v.result.value.matched, Merge(s, v.result.value.status))))
  }

  /** A conjunction in two parts: the second is evaluated, with the history and the
      status of the first, if and only if the first matched and nobody asked to stop.
      Otherwise nothing of it is reached, neither tests nor actions. */
  lemma AndInTwo(before: seq<Expr>, after: seq<Expr>, ts: Tests, sink: Sink, h: seq<Action>)
    ensures var v := Direct(And(before), ts, sink, h);
      Direct(And(before + after), ts, sink, h)
      == if GoesOn(v) then Charged(v.result.value.status, Direct(And(after), ts, sink, v.history)) else v
  {
    AllInTwo(before, after, ts, sink, h, CLEAR);
    var v := DirectAll(before, ts, sink, h, CLEAR);
    if GoesOn(v) { AllFrom(after, ts, sink, v.history, v.result.value.status); }
  }

  lemma AllOfOne(e: Expr, ts: Tests, sink: Sink, h: seq<Action>, acc: Status)
    ensures DirectAll([e], ts, sink, h, acc) == Charged(acc, Direct(e, ts, sink, h))
  {
    assert [e][1..] == [];
    var v := Direct(e, ts, sink, h);
    if v.result.Ok? {
      assert DirectAll([], ts, sink, v.history, Merge(acc, v.result.value.status))
          == Verdict(v.history, Ok(Outcome(true, Merge(acc, v.result.value.status))));
    }
  }

  lemma AndOfFew(e: Expr, ts: Tests, sink: Sink, h: seq<Action>)
    ensures Direct(And([e]), ts, sink, h) == Direct(e, ts, sink, h)
    ensures Direct(And([]), ts, sink, h) == Direct(Barrier, ts, sink, h) == Verdict(h, Ok(Outcome(true, CLEAR)))
  {
    AllOfOne(e, ts, sink, h, CLEAR);
    var v := Direct(e, ts, sink, h);
    assert Direct(And([e]), ts, sink, h) == Charged(CLEAR, v);
    if v.result.Ok? { MergeLaws(v.result.value.status, CLEAR, CLEAR); }
  }

  /** An action that failed to match, an error or a stop ends a conjunction: what
      follows x may be anything. */
  lemma NothingAfter(before: seq<Expr>, x: Expr, after: seq<Expr>, ts: Tests, sink: Sink, h: seq<Action>)
    requires !GoesOn(Direct(And(before + [x]), ts, sink, h))
    ensures Direct(And(before + [x] + after), ts, sink, h) == Direct(And(before + [x]), ts, sink, h)
  {
    hide Direct;
    AndInTwo(before + [x], after, ts, sink, h);
  }

  /** De Morgan: a disjunction is the negated conjunction of the negated operands,
      for every sink, the dispatched actions included. */
  lemma DeMorgan(l: Expr, r: Expr, ts: Tests, sink: Sink, h: seq<Action>)
    ensures Direct(Or(l, r), ts, sink, h) == Direct(Not(And([Not(l), Not(r)])), ts, sink, h)
  {
    var items := [Not(l), Not(r)];
    assert items[0] == Not(l) && items[1..] == [Not(r)];
    var left, turned := Direct(l, ts, sink, h), Direct(Not(l), ts, sink, h);
    assert Direct(And(items), ts, sink, h) == DirectAll(items, ts, sink, h, CLEAR);
    if left.result.Ok? {
      var s := left.result.value.status;
      MergeLaws(s, CLEAR, CLEAR);
      if !left.result.value.matched && !s.stop {
        assert DirectAll(items, ts, sink, h, CLEAR) == DirectAll([Not(r)], ts, sink, left.history, s);
        AllOfOne(Not(r), ts, sink, left.history, s);
      }
    }
  }

  /** Negation turns the match around and leaves everything else. */
  lemma NegationOnlyTurns(e: Expr, ts: Tests, sink: Sink, h: seq<Action>)
    ensures var v, w := Direct(e, ts, sink, h), Direct(Not(e), ts, sink, h);
      && w.history == v.history && (w.result.Ok? <==> v.result.Ok?) && (v.result.Err? ==> w == v)
      && (v.result.Ok? ==> w.result.value.status == v.result.value.status && w.result.value.matched != v.result.value.matched)
    ensures Direct(Not(Not(e)), ts, sink, h) == Direct(e, ts, sink, h)
  {
  }

  /** A test dispatches nothing; -prune, -true and -false do not look at the entry. */
  lemma TestsDispatchNothing(p: Predicate, ts: Tests, sink: Sink, h: seq<Action>)
    ensures Direct(Pred(p), ts, sink, h).history == h
    ensures p.Prune? || p.True? ==> Direct(Pred(p), ts, sink, h).result == Ok(Outcome(true, CLEAR))
    ensures p.False? ==> Direct(Pred(p), ts, sink, h).result == Ok(Outcome(false, CLEAR))
    ensures !p.Prune? && !p.True? && !p.False? && ts(p).Err? ==> Direct(Pred(p), ts, sink, h).result == Err(ts(p).error)
    ensures !p.Prune? && !p.True? && !p.False? && ts(p).Ok? ==> Direct(Pred(p), ts, sink, h).result == Ok(Outcome(ts(p).value, CLEAR))
  {
  }

  // ----- The final status -----

  predicate AnsweredFailed(sink: Sink, h: seq<Action>) {
    sink(h).Ok? && sink(h).value.status.failed
  }

  predicate AnsweredStop(sink: Sink, h: seq<Action>) {
    sink(h).Ok? && sink(h).value.status.stop
  }

  lemma {:induction false} AnsweredMeans(sink: Sink, h: seq<Action>, i: nat)
    requires i <= |h|
    ensures Answered(sink, h, i).failed <==> exists j :: i < j <= |h| && AnsweredFailed(sink, h[..j])
    ensures Answered(sink, h, i).stop <==> exists j :: i < j <= |h| && AnsweredStop(sink, h[..j])
    decreases |h|
  {
    var n := |h| - 1;
    if i < |h| {
      AnsweredMeans(sink, h[..n], i);
      assert h[..|h|] == h;
      assert forall j :: i < j <= n ==> h[..n][..j] == h[..j];
    }
  }

  /** An evaluation that comes to a result has failed if and only if one of the actions
      it dispatched did, and asks to stop if and only if the last of them did. */
  lemma StatusMeans(e: Expr, ts: Tests, sink: Sink, h: seq<Action>)
    requires Direct(e, ts, sink, h).result.Ok?
    ensures var v := Direct(e, ts, sink, h);
      && |h| <= |v.history|
      && (v.result.value.status.failed <==> exists j :: |h| < j <= |v.history| && AnsweredFailed(sink, v.history[..j]))
      && (v.result.value.status.stop <==> |h| < |v.history| && AnsweredStop(sink, v.history))
  {
    hide Direct, Answered;
    DirectLawful(e, ts, sink, h);
    var v := Direct(e, ts, sink, h);
    AnsweredMeans(sink, v.history, |h|);
    MergeLaws(Answered(sink, v.history, |h|), CLEAR, CLEAR);
    assert v.history[..|v.history|] == v.history;
    forall j | |h| < j < |v.history| ensures !AnsweredStop(sink, v.history[..j]) {
      assert Harmless(sink, v.history[..j]);
    }
  }
}
