/** The prune pre-pass: what may be decided about descending before the entry is
    evaluated. */
module Traversal {
  import opened Basics
  import opened Places
  import opened Expressions
  import opened Evaluation
  import O = Optimizer

  datatype Control = Control(matched: bool, prune: bool)

  const ALLOW := Control(true, false)

  /** kind: whether the entry is a directory, if that can be found out. */
  type Kind = Result<bool, Diagnostic>

  function PruneControl(order: Order, kind: Kind): Result<Control, Diagnostic> {
    if order.PostOrder? then Ok(Control(true, false))
    else match kind
      case Err(error) => Err(error)
      case Ok(isDirectory) => Ok(Control(true, isDirectory))
  }

  function ForTraversal(e: Expr, ts: Tests, order: Order, kind: Kind): Result<Control, Diagnostic>
    decreases Nodes(e), 0
  {
    match e
    case And(items) => AllForTraversal(items, ts, order, kind, false)
    case Or(l, r) =>
      (match ForTraversal(l, ts, order, kind)
       case Err(error) => Err(error)
       case Ok(left) =>
         if left.matched then Ok(left)
         else match ForTraversal(r, ts, order, kind)
           case Err(error) => Err(error)
           case Ok(right) => Ok(Control(right.matched, left.prune || right.prune)))
    case Not(i) =>
      (match ForTraversal(i, ts, order, kind)
       case Err(error) => Err(error)
       case Ok(inner) => Ok(Control(!inner.matched, inner.prune)))
    case Pred(p) =>
      if p.Prune? then PruneControl(order, kind)
      else (match Test(ts, p) case Err(error) => Err(error) case Ok(b) => Ok(Control(b, false)))
    case Act(_) => Ok(ALLOW)
    case Barrier => Ok(ALLOW)
  }

  function AllForTraversal(items: seq<Expr>, ts: Tests, order: Order, kind: Kind, prune: bool): Result<Control, Diagnostic>
    decreases NodesOf(items), 1
  {
    if items == [] then Ok(Control(true, prune))
    else match ForTraversal(items[0], ts, order, kind)
      case Err(error) => Err(error)
      case Ok(next) =>
        if !next.matched then Ok(Control(false, prune || next.prune))
        else AllForTraversal(items[1..], ts, order, kind, prune || next.prune)
  }

  /** The verdict of an and-chain is built up in place. */
  method EvaluateForTraversal(e: Expr, ts: Tests, order: Order, kind: Kind) returns (r: Result<Control, Diagnostic>)
    ensures r == ForTraversal(e, ts, order, kind)
    decreases Nodes(e)
  {
    match e {
      case And(items) =>
        var verdict := ALLOW;
        var i := 0;
        assert items[0..] == items;
        while i < |items|
          invariant i <= |items| && verdict.matched
          invariant AllForTraversal(items, ts, order, kind, false) == AllForTraversal(items[i..], ts, order, kind, verdict.prune)
        {
          NodesWithin(items, i);
          assert items[i..][0] == items[i] && items[i..][1..] == items[i + 1..];
          var next := EvaluateForTraversal(items[i], ts, order, kind);
          if next.Err? { return next; }
          verdict := verdict.(prune := verdict.prune || next.value.prune);
          if !next.value.matched { return Ok(verdict.(matched := false)); }
          i := i + 1;
        }
        return Ok(verdict);
      case Or(left, right) =>
        var l := EvaluateForTraversal(left, ts, order, kind);
        if l.Err? || l.value.matched { return l; }
        var r' := EvaluateForTraversal(right, ts, order, kind);
        if r'.Err? { return r'; }
        return Ok(Control(r'.value.matched, l.value.prune || r'.value.prune));
      case Not(inner) =>
        var i := EvaluateForTraversal(inner, ts, order, kind);
        if i.Err? { return i; }
        return Ok(Control(!i.value.matched, i.value.prune));
      case Pred(p) =>
        if p.Prune? { return PruneControl(order, kind); }
        match Test(ts, p) {
          case Err(error) => return Err(error);
          case Ok(b) => return Ok(Control(b, false));
        }
      case _ => return Ok(ALLOW);
    }
  }

  // ----- The plan for the pre-pass -----

  predicate ContainsPrune(e: Expr)
    decreases Nodes(e), 0
  {
    match e
    case And(items) => AnyContainsPrune(items)
    case Or(l, r) => ContainsPrune(l) || ContainsPrune(r)
    case Not(i) => ContainsPrune(i)
    case Pred(p) => p.Prune?
    case _ => false
  }

  predicate AnyContainsPrune(items: seq<Expr>)
    decreases NodesOf(items), 1
  {
    items != [] && (ContainsPrune(items[0]) || AnyContainsPrune(items[1..]))
  }

  function Project(e: Expr): Expr
    decreases Nodes(e), 0
  {
    match e
    case And(items) => And(ProjectEach(items))
    case Or(l, r) => Or(Project(l), Project(r))
    case Not(i) => Not(Project(i))
    case Pred(p) => Pred(p)
    case _ => Barrier
  }

  function ProjectEach(items: seq<Expr>): (r: seq<Expr>)
    ensures |r| == |items|
    decreases NodesOf(items), 1
  {
    if items == [] then [] else [Project(items[0])] + ProjectEach(items[1..])
  }

  function BuildPlan(e: Expr, order: Order): Option<Expr> {
    if !order.PreOrder? || !ContainsPrune(e) then None else Some(Project(e))
  }

  function ControlForEntry(plan: Option<Expr>, ts: Tests, order: Order, kind: Kind): Result<Control, Diagnostic> {
    match plan
    case None => Ok(ALLOW)
    case Some(e) => ForTraversal(e, ts, order, kind)
  }

  // ----- The plan gives the verdict of the expression -----

  lemma {:induction false} ProjectionKeeps(e: Expr, ts: Tests, order: Order, kind: Kind)
    ensures ForTraversal(Project(e), ts, order, kind) == ForTraversal(e, ts, order, kind)
    decreases Nodes(e), 0
  {
    match e
    case And(items) => ProjectionKeepsEach(items, ts, order, kind, false);
    case Or(l, r) => ProjectionKeeps(l, ts, order, kind); ProjectionKeeps(r, ts, order, kind);
    case Not(i) => ProjectionKeeps(i, ts, order, kind);
    case _ =>
  }

  lemma {:induction false} ProjectionKeepsEach(items: seq<Expr>, ts: Tests, order: Order, kind: Kind, prune: bool)
    ensures AllForTraversal(ProjectEach(items), ts, order, kind, prune) == AllForTraversal(items, ts, order, kind, prune)
    decreases NodesOf(items), 1
  {
    if items != [] {
      ProjectionKeeps(items[0], ts, order, kind);
      var next := ForTraversal(items[0], ts, order, kind);
      assert ProjectEach(items)[1..] == ProjectEach(items[1..]);
      if next.Ok? { ProjectionKeepsEach(items[1..], ts, order, kind, prune || next.value.prune); }
    }
  }

  lemma {:induction false} NoPrune(e: Expr, ts: Tests, order: Order, kind: Kind)
    requires order.PostOrder? || !ContainsPrune(e)
    ensures ForTraversal(e, ts, order, kind).Ok? ==> !ForTraversal(e, ts, order, kind).value.prune
    decreases Nodes(e), 0
  {
    match e
    case And(items) => NoPruneInAny(items, ts, order, kind);
    case Or(l, r) => NoPrune(l, ts, order, kind); NoPrune(r, ts, order, kind);
    case Not(i) => NoPrune(i, ts, order, kind);
    case _ =>
  }

  lemma {:induction false} NoPruneInAny(items: seq<Expr>, ts: Tests, order: Order, kind: Kind)
    requires order.PostOrder? || !AnyContainsPrune(items)
    ensures var r := AllForTraversal(items, ts, order, kind, false); r.Ok? ==> !r.value.prune
    decreases NodesOf(items), 1
  {
    if items != [] {
      NoPrune(items[0], ts, order, kind);
      NoPruneInAny(items[1..], ts, order, kind);
    }
  }

  /** The plan, or its absence, prunes exactly when the expression as written
      would; where there is a plan the two agree in every respect. */
  lemma PlanGivesVerdict(e: Expr, ts: Tests, order: Order, kind: Kind)
    ensures BuildPlan(e, order).Some? ==> ControlForEntry(BuildPlan(e, order), ts, order, kind) == ForTraversal(e, ts, order, kind)
    ensures ForTraversal(e, ts, order, kind).Ok? ==>
      ControlForEntry(BuildPlan(e, order), ts, order, kind).Ok?
      && ControlForEntry(BuildPlan(e, order), ts, order, kind).value.prune == ForTraversal(e, ts, order, kind).value.prune
  {
    ProjectionKeeps(e, ts, order, kind);
    if BuildPlan(e, order).None? { NoPrune(e, ts, order, kind); }
  }

  // ----- The plan against the full evaluation -----

  /** The action matched and nobody asks to stop. */
  predicate Willing(answer: Result<Outcome, Diagnostic>) {
    answer.Ok? && answer.value.matched && !answer.value.status.stop
  }

  function ActionsOf(e: Expr): set<Action>
    decreases Nodes(e), 0
  {
    match e
    case And(items) => ActionsIn(items)
    case Or(l, r) => ActionsOf(l) + ActionsOf(r)
    case Not(i) => ActionsOf(i)
    case Act(a) => {a}
    case _ => {}
  }

  function ActionsIn(items: seq<Expr>): set<Action>
    decreases NodesOf(items), 1
  {
    if items == [] then {} else ActionsOf(items[0]) + ActionsIn(items[1..])
  }

  /** The history g continues h with some of these actions. */
  predicate Leads(h: seq<Action>, g: seq<Action>, actions: set<Action>) {
    |h| <= |g| && g[..|h|] == h && forall i :: |h| <= i < |g| ==> g[i] in actions
  }

  /** After h, whatever of these actions is dispatched succeeds. */
  ghost predicate WillingAfter(sink: Sink, h: seq<Action>, actions: set<Action>) {
    forall g :: Leads(h, g, actions) && g != h ==> Willing(sink(g))
  }

  /** Evaluating e comes to a -prune test. */
  predicate MeetsPrune(e: Expr, ts: Tests, sink: Sink, h: seq<Action>)
    decreases Nodes(e), 0
  {
    match e
    case And(items) => AnyMeetsPrune(items, ts, sink, h, CLEAR)
    case Or(l, r) =>
      var left := Direct(l, ts, sink, h);
      MeetsPrune(l, ts, sink, h)
      || (left.result.Ok? && !left.result.value.matched && !left.result.value.status.stop && MeetsPrune(r, ts, sink, left.history))
    case Not(i) => MeetsPrune(i, ts, sink, h)
    case Pred(p) => p.Prune?
    case _ => false
  }

  predicate AnyMeetsPrune(items: seq<Expr>, ts: Tests, sink: Sink, h: seq<Action>, acc: Status)
    decreases NodesOf(items), 1
  {
    && items != []
    && var first := Direct(items[0], ts, sink, h);
       MeetsPrune(items[0], ts, sink, h)
       || (first.result.Ok? && first.result.value.matched && !Merge(acc, first.result.value.status).stop
           && AnyMeetsPrune(items[1..], ts, sink, first.history, Merge(acc, first.result.value.status)))
  }

  /** The pre-pass has the match result of the full evaluation, and prunes exactly
      when the entry is a directory and the full evaluation comes to a -prune. */
  ghost predicate Agrees(e: Expr, ts: Tests, sink: Sink, h: seq<Action>, isDirectory: bool) {
    var v := Direct(e, ts, sink, h);
    && v.result.Ok?
    && ForTraversal(e, ts, PreOrder, Ok(isDirectory)) == Ok(Control(v.result.value.matched, isDirectory && MeetsPrune(e, ts, sink, h)))
  }

  /** The pre-pass prunes the directory exactly when the full evaluation comes to a
      -prune. */
  ghost predicate PrunesAlike(e: Expr, ts: Tests, sink: Sink) {
    var r := ForTraversal(e, ts, PreOrder, Ok(true));
    r.Ok? && r.value.prune == MeetsPrune(e, ts, sink, [])
  }

  /** The expression uses these tests and actions, and they succeed from start on. */
  ghost predicate Smooth(tests: set<Predicate>, actions: set<Action>, ts: Tests, sink: Sink, start: seq<Action>) {
    O.Answers(tests, ts) && WillingAfter(sink, start, actions)
  }

  lemma {:induction false} AgreesWithin(tests: set<Predicate>, actions: set<Action>, start: seq<Action>,
                                        e: Expr, ts: Tests, sink: Sink, h: seq<Action>, isDirectory: bool)
    requires Smooth(tests, actions, ts, sink, start) && Leads(start, h, actions)
    requires O.TestsOf(e) <= tests && ActionsOf(e) <= actions
    ensures Agrees(e, ts, sink, h, isDirectory)
    ensures !Direct(e, ts, sink, h).result.value.status.stop && Leads(start, Direct(e, ts, sink, h).history, actions)
    decreases Nodes(e), 0
  {
    match e
    case And(items) =>
      hide Smooth, Leads;
      AllAgreeWithin(tests, actions, start, items, ts, sink, h, CLEAR, isDirectory, false);
    case Or(l, r) =>
      hide Smooth, Leads;
      AgreesWithin(tests, actions, start, l, ts, sink, h, isDirectory);
      AgreesWithin(tests, actions, start, r, ts, sink, Direct(l, ts, sink, h).history, isDirectory);
    case Not(i) =>
      hide Smooth, Leads;
      AgreesWithin(tests, actions, start, i, ts, sink, h, isDirectory);
    case Pred(p) => assert Test(ts, p).Ok?;
    case Act(a) => assert Leads(start, h + [a], actions) && h + [a] != start;
    case Barrier =>
  }

  lemma {:induction false} AllAgreeWithin(tests: set<Predicate>, actions: set<Action>, start: seq<Action>,
                                          items: seq<Expr>, ts: Tests, sink: Sink, h: seq<Action>, acc: Status, isDirectory: bool, prune: bool)
    requires Smooth(tests, actions, ts, sink, start) && Leads(start, h, actions) && !acc.stop
    requires O.TestsIn(items) <= tests && ActionsIn(items) <= actions
    ensures var v := DirectAll(items, ts, sink, h, acc);
      && v.result.Ok? && !v.result.value.status.stop && Leads(start, v.history, actions)
      && AllForTraversal(items, ts, PreOrder, Ok(isDirectory), prune)
         == Ok(Control(v.result.value.matched, prune || (isDirectory && AnyMeetsPrune(items, ts, sink, h, acc))))
    decreases NodesOf(items), 1
  {
    hide Smooth, Leads;
    if items != [] {
      AgreesWithin(tests, actions, start, items[0], ts, sink, h, isDirectory);
      var first := Direct(items[0], ts, sink, h);
      var met := MeetsPrune(items[0], ts, sink, h);
      AllAgreeWithin(tests, actions, start, items[1..], ts, sink, first.history, Merge(acc, first.result.value.status),
                     isDirectory, prune || (isDirectory && met));
    }
  }

  /** In pre-order, when the tests that occur in e do not fail and the actions that
      occur in it succeed, the pre-pass agrees with the full evaluation. */
  lemma AgreesWithEvaluation(e: Expr, ts: Tests, sink: Sink, h: seq<Action>, isDirectory: bool)
    requires O.Answers(O.TestsOf(e), ts) && WillingAfter(sink, h, ActionsOf(e))
    ensures Agrees(e, ts, sink, h, isDirectory)
  {
    AgreesWithin(O.TestsOf(e), ActionsOf(e), h, e, ts, sink, h, isDirectory);
  }

  // ----- When the pre-pass is right about every expression -----

  /** The actions of a history, and then -prune. */
  function ActsThenPrune(actions: seq<Action>): (items: seq<Expr>)
    ensures |items| == |actions| + 1
  {
    if actions == [] then [Pred(Prune)] else [Act(actions[0])] + ActsThenPrune(actions[1..])
  }

  lemma {:induction false} PrepassPrunes(actions: seq<Action>, ts: Tests)
    ensures AllForTraversal(ActsThenPrune(actions), ts, PreOrder, Ok(true), false) == Ok(Control(true, true))
  {
    var items := ActsThenPrune(actions);
    if actions == [] {
      assert items[1..] == [];
    } else {
      assert items[0] == Act(actions[0]) && items[1..] == ActsThenPrune(actions[1..]);
      PrepassPrunes(actions[1..], ts);
    }
  }

  /** The evaluation dispatches one action after the other and comes to -prune only
      if all of them succeed. */
  lemma {:induction false} EvaluationPrunes(before: seq<Action>, actions: seq<Action>, ts: Tests, sink: Sink, acc: Status)
    requires !acc.stop
    ensures AnyMeetsPrune(ActsThenPrune(actions), ts, sink, before, acc)
       <==> forall i :: 0 < i <= |actions| ==> Willing(sink(before + actions[..i]))
    decreases |actions|
  {
    var items := ActsThenPrune(actions);
    if actions != [] {
      var a, rest := actions[0], actions[1..];
      assert items[0] == Act(a) && items[1..] == ActsThenPrune(rest);
      assert before + actions[..1] == before + [a];
      if Willing(sink(before + [a])) {
        EvaluationPrunes(before + [a], rest, ts, sink, Merge(acc, sink(before + [a]).value.status));
        forall i | 0 < i <= |rest| ensures (before + [a]) + rest[..i] == before + actions[..i + 1] {}
        forall i | 1 < i <= |actions| ensures before + actions[..i] == (before + [a]) + rest[..i - 1] {}
      }
    }
  }

  /** An action that fails, asks to stop or ends in an error, after actions that may
      or may not, keeps the evaluation from -prune but not the pre-pass. */
  lemma FailingActionStillPrunes(actions: seq<Action>, ts: Tests, sink: Sink)
    requires actions != [] && !Willing(sink(actions))
    ensures var e := And(ActsThenPrune(actions));
      !MeetsPrune(e, ts, sink, []) && ForTraversal(e, ts, PreOrder, Ok(true)) == Ok(Control(true, true))
  {
    PrepassPrunes(actions, ts);
    EvaluationPrunes([], actions, ts, sink, CLEAR);
    assert [] + actions[..|actions|] == actions;
  }

  /** For instance -exec of a command that fails, and then -prune. */
  lemma FailingCommandStillPrunes(ts: Tests)
    ensures var sink: Sink := (h: seq<Action>) => Ok(Outcome(false, CLEAR));
      var e := And(ActsThenPrune([ExecImmediate("false")]));
      !MeetsPrune(e, ts, sink, []) && ForTraversal(e, ts, PreOrder, Ok(true)) == Ok(Control(true, true))
  {
    FailingActionStillPrunes([ExecImmediate("false")], ts, (h: seq<Action>) => Ok(Outcome(false, CLEAR)));
  }

  lemma {:induction false} ActsUse(actions: seq<Action>)
    ensures ActionsIn(ActsThenPrune(actions)) == set a | a in actions
  {
    var items := ActsThenPrune(actions);
    if actions == [] {
      assert items[1..] == [];
    } else {
      assert items[0] == Act(actions[0]) && items[1..] == ActsThenPrune(actions[1..]);
      ActsUse(actions[1..]);
      assert actions == [actions[0]] + actions[1..];
    }
  }

  /** Where tests do not fail, for any choice of actions: the pre-pass agrees with the
      evaluation of every expression made of them, or already about pruning
      directories, if and only if they succeed in whatever order they are dispatched. */
  lemma PrepassIsRight(acts: set<Action>, ts: Tests, sink: Sink)
    requires forall p :: Test(ts, p).Ok?
    ensures (forall e: Expr, isDirectory: bool :: ActionsOf(e) <= acts ==> Agrees(e, ts, sink, [], isDirectory))
       <==> WillingAfter(sink, [], acts)
    ensures (forall e: Expr :: ActionsOf(e) <= acts ==> PrunesAlike(e, ts, sink)) <==> WillingAfter(sink, [], acts)
  {
    hide Agrees, ForTraversal, MeetsPrune, Willing;
    if WillingAfter(sink, [], acts) {
      forall e: Expr, isDirectory: bool | ActionsOf(e) <= acts ensures Agrees(e, ts, sink, [], isDirectory) {
        FewerActions(sink, ActionsOf(e), acts);
        AgreesWithEvaluation(e, ts, sink, [], isDirectory);
      }
      forall e: Expr | ActionsOf(e) <= acts ensures PrunesAlike(e, ts, sink) {
        AgreementPrunes(e, ts, sink);
      }
    } else {
      var h :| Leads([], h, acts) && h != [] && !Willing(sink(h));
      FailingActionStillPrunes(h, ts, sink);
      ActsUse(h);
      var e := And(ActsThenPrune(h));
      assert ActionsOf(e) <= acts;
      assert !PrunesAlike(e, ts, sink);
      if Agrees(e, ts, sink, [], true) { AgreementPrunes(e, ts, sink); }
    }
  }

  lemma FewerActions(sink: Sink, some: set<Action>, acts: set<Action>)
    requires WillingAfter(sink, [], acts) && some <= acts
    ensures WillingAfter(sink, [], some)
  {
    hide Willing;
    forall g | Leads([], g, some) && g != [] ensures Willing(sink(g)) {
      assert Leads([], g, acts);
    }
  }

  lemma AgreementPrunes(e: Expr, ts: Tests, sink: Sink)
    requires Agrees(e, ts, sink, [], true)
    ensures PrunesAlike(e, ts, sink)
  {
  }

  // ----- The optimiser and the pre-pass -----

  lemma {:induction false} RunForTraversal(run: seq<Expr>, rest: seq<Expr>, ts: Tests, order: Order, kind: Kind, prune: bool)
    requires forall x :: x in run ==> O.IsLeaf(x)
    ensures AllForTraversal(run + rest, ts, order, kind, prune) ==
      match O.TestRun(run, ts)
      case Err(error) => Err(error)
      case Ok(b) => if b then AllForTraversal(rest, ts, order, kind, prune) else Ok(Control(false, prune))
  {
    if run == [] {
      assert run + rest == rest;
    } else {
      assert O.IsLeaf(run[0]);
      assert (run + rest)[0] == run[0] && (run + rest)[1..] == run[1..] + rest;
      if Test(ts, run[0].test) == Ok(true) { RunForTraversal(run[1..], rest, ts, order, kind, prune); }
    }
  }

  lemma {:induction false} SortedForTraversal(tests: set<Predicate>, run: seq<Expr>, rest: seq<Expr>, ts: Tests, order: Order, kind: Kind, prune: bool)
    requires O.Answers(tests, ts) && O.RunOf(run, tests)
    ensures AllForTraversal(O.Sort(run) + rest, ts, order, kind, prune) == AllForTraversal(run + rest, ts, order, kind, prune)
  {
    hide AllForTraversal, O.TestRun, O.Answers;
    O.SortKeepsRun(run, tests);
    RunForTraversal(run, rest, ts, order, kind, prune);
    RunForTraversal(O.Sort(run), rest, ts, order, kind, prune);
    O.RunHolds(run, tests, ts);
    O.RunHolds(O.Sort(run), tests, ts);
  }

  lemma {:induction false} ItemsForTraversal(tests: set<Predicate>, items: seq<Expr>, segment: seq<Expr>, ts: Tests, order: Order, kind: Kind, prune: bool)
    requires O.Answers(tests, ts) && O.RunOf(segment, tests) && O.TestsIn(items) <= tests
    ensures AllForTraversal(O.Arrange(O.OptimizeEach(items), segment), ts, order, kind, prune)
         == AllForTraversal(segment + items, ts, order, kind, prune)
    decreases NodesOf(items), 2
  {
    hide O.Answers, O.Sort, O.Optimize, O.Arrange, O.OptimizeEach, AllForTraversal;
    if items == [] {
      O.NothingLeft(items, segment);
      SortedForTraversal(tests, segment, [], ts, order, kind, prune);
      assert O.Sort(segment) + [] == O.Sort(segment) && segment + [] == segment;
    } else {
      var x, rest := items[0], items[1..];
      O.EachNext(items, 0);
      assert items[0..] == items;
      O.ArrangeNext(O.Optimize(x), O.OptimizeEach(rest), segment);
      O.LeavesStay(x);
      if O.IsLeaf(x) {
        ItemsForTraversal(tests, rest, segment + [x], ts, order, kind, prune);
        assert segment + [x] + rest == segment + items;
      } else {
        var tail := O.Arrange(O.OptimizeEach(rest), []);
        assert O.Sort(segment) + [O.Optimize(x)] + tail == O.Sort(segment) + ([O.Optimize(x)] + tail);
        SortedForTraversal(tests, segment, [O.Optimize(x)] + tail, ts, order, kind, prune);
        ItemForTraversal(tests, segment, items, tail, ts, order, kind, prune);
      }
    }
  }

  lemma {:induction false} ItemForTraversal(tests: set<Predicate>, segment: seq<Expr>, items: seq<Expr>, tail: seq<Expr>, ts: Tests, order: Order, kind: Kind, prune: bool)
    requires O.Answers(tests, ts) && O.RunOf(segment, tests) && O.TestsIn(items) <= tests
    requires items != [] && tail == O.Arrange(O.OptimizeEach(items[1..]), [])
    ensures AllForTraversal(segment + ([O.Optimize(items[0])] + tail), ts, order, kind, prune)
         == AllForTraversal(segment + items, ts, order, kind, prune)
    decreases NodesOf(items), 1
  {
    hide O.Answers, O.Optimize, O.Arrange;
    var e := O.Optimize(items[0]);
    ControlWithin(tests, items[0], ts, order, kind);
    assert ([e] + tail)[0] == e && ([e] + tail)[1..] == tail;
    var next := ForTraversal(items[0], ts, order, kind);
    if next.Ok? && next.value.matched {
      ItemsForTraversal(tests, items[1..], [], ts, order, kind, prune || next.value.prune);
      assert [] + items[1..] == items[1..];
    }
    RunForTraversal(segment, items, ts, order, kind, prune);
    RunForTraversal(segment, [e] + tail, ts, order, kind, prune);
  }

  lemma {:induction false} ControlWithin(tests: set<Predicate>, e: Expr, ts: Tests, order: Order, kind: Kind)
    requires O.Answers(tests, ts) && O.TestsOf(e) <= tests
    ensures ForTraversal(O.Optimize(e), ts, order, kind) == ForTraversal(e, ts, order, kind)
    decreases Nodes(e), 0
  {
    hide O.Answers;
    match e
    case And(items) =>
      ItemsForTraversal(tests, items, [], ts, order, kind, false);
      assert [] + items == items;
    case Or(l, r) => ControlWithin(tests, l, ts, order, kind); ControlWithin(tests, r, ts, order, kind);
    case Not(i) => ControlWithin(tests, i, ts, order, kind);
    case _ =>
  }

  /** When the tests that occur in e do not fail, the optimiser changes neither the
      prune verdict nor the match. */
  lemma OptimizerKeepsControl(e: Expr, ts: Tests, order: Order, kind: Kind)
    requires O.Answers(O.TestsOf(e), ts)
    ensures ForTraversal(O.Optimize(e), ts, order, kind) == ForTraversal(e, ts, order, kind)
  {
    ControlWithin(O.TestsOf(e), e, ts, order, kind);
  }

  /** The optimiser keeps every verdict of the pre-pass if and only if no test that
      may be moved fails. */
  lemma OptimizerIsSafeForControl(ts: Tests, order: Order, kind: Kind)
    ensures (forall e: Expr :: ForTraversal(O.Optimize(e), ts, order, kind) == ForTraversal(e, ts, order, kind))
       <==> O.AllAnswer(ts)
  {
    hide O.Optimize, ForTraversal;
    if O.AllAnswer(ts) {
      forall e: Expr ensures ForTraversal(O.Optimize(e), ts, order, kind) == ForTraversal(e, ts, order, kind) {
        OptimizerKeepsControl(e, ts, order, kind);
      }
    } else {
      var p: Predicate :| O.Reorderable(p) && Test(ts, p).Err?;
      FailingTestShowsInPrepass(p, ts, order, kind);
      var e := And([Pred(p), Pred(False)]);
      assert ForTraversal(O.Optimize(e), ts, order, kind) != ForTraversal(e, ts, order, kind);
    }
  }

  lemma FailingTestShowsInPrepass(p: Predicate, ts: Tests, order: Order, kind: Kind)
    requires Test(ts, p).Err?
    ensures var e := And([Pred(p), Pred(False)]);
      ForTraversal(e, ts, order, kind).Err? && ForTraversal(O.Optimize(e), ts, order, kind) == Ok(Control(false, false))
  {
    O.SwapsTwo(Pred(p), Pred(False));
    var s, s' := [Pred(p), Pred(False)], [Pred(False), Pred(p)];
    assert ForTraversal(s[0], ts, order, kind).Err?;
    assert ForTraversal(s'[0], ts, order, kind) == Ok(Control(false, false));
    assert AllForTraversal(s, ts, order, kind, false).Err?;
    assert AllForTraversal(s', ts, order, kind, false) == Ok(Control(false, false));
  }

  // ----- When there is a plan -----

  lemma {:induction false} PruneOccurs(e: Expr)
    ensures ContainsPrune(e) <==> Prune in O.TestsOf(e)
    decreases Nodes(e), 0
  {
    match e
    case And(items) => PruneOccursIn(items);
    case Or(l, r) => PruneOccurs(l); PruneOccurs(r);
    case Not(i) => PruneOccurs(i);
    case _ =>
  }

  lemma {:induction false} PruneOccursIn(items: seq<Expr>)
    ensures AnyContainsPrune(items) <==> Prune in O.TestsIn(items)
    decreases NodesOf(items), 1
  {
    if items != [] {
      PruneOccurs(items[0]);
      PruneOccursIn(items[1..]);
    }
  }

  lemma {:induction false} ProjectionTests(e: Expr)
    ensures O.TestsOf(Project(e)) == O.TestsOf(e) && ActionsOf(Project(e)) == {}
    decreases Nodes(e), 0
  {
    match e
    case And(items) => ProjectionTestsIn(items);
    case Or(l, r) => ProjectionTests(l); ProjectionTests(r);
    case Not(i) => ProjectionTests(i);
    case _ =>
  }

  lemma {:induction false} ProjectionTestsIn(items: seq<Expr>)
    ensures O.TestsIn(ProjectEach(items)) == O.TestsIn(items) && ActionsIn(ProjectEach(items)) == {}
    decreases NodesOf(items), 1
  {
    if items != [] {
      ProjectionTests(items[0]);
      ProjectionTestsIn(items[1..]);
    }
  }

  /** There is a pre-pass if and only if the walk is in pre-order and the expression has a
      -prune; it has the tests of the expression and none of its actions. */
  lemma PlanOnlyForPrune(e: Expr, order: Order)
    ensures var plan := BuildPlan(e, order);
      && (plan.Some? <==> order.PreOrder? && Prune in O.TestsOf(e))
      && (plan.Some? ==> O.TestsOf(plan.value) == O.TestsOf(e) && ActionsOf(plan.value) == {})
  {
    PruneOccurs(e);
    ProjectionTests(e);
  }

  // ----- What the pre-pass looks at -----

  /** The same match, and no pruning, whatever the kind of the entry. */
  ghost predicate MatchesLike(r: Result<Control, Diagnostic>, like: Result<Control, Diagnostic>, kept: bool) {
    match like
    case Err(error) => r == Err(error)
    case Ok(c) => r == Ok(Control(c.matched, kept))
  }

  /** In post-order the pre-pass never prunes and never asks for the kind of the entry; it
      matches what it matches in pre-order. */
  lemma {:induction false} PostOrderNeverPrunes(e: Expr, ts: Tests, kind: Kind, isDirectory: bool)
    ensures MatchesLike(ForTraversal(e, ts, PostOrder, kind), ForTraversal(e, ts, PreOrder, Ok(isDirectory)), false)
    decreases Nodes(e), 0
  {
    match e
    case And(items) => PostOrderNeverPrunesEach(items, ts, kind, isDirectory, false);
    case Or(l, r) =>
      PostOrderNeverPrunes(l, ts, kind, isDirectory);
      PostOrderNeverPrunes(r, ts, kind, isDirectory);
    case Not(i) => PostOrderNeverPrunes(i, ts, kind, isDirectory);
    case _ =>
  }

  lemma {:induction false} PostOrderNeverPrunesEach(items: seq<Expr>, ts: Tests, kind: Kind, isDirectory: bool, prune: bool)
    ensures MatchesLike(AllForTraversal(items, ts, PostOrder, kind, false), AllForTraversal(items, ts, PreOrder, Ok(isDirectory), prune), false)
    decreases NodesOf(items), 1
  {
    if items != [] {
      PostOrderNeverPrunes(items[0], ts, kind, isDirectory);
      var next := ForTraversal(items[0], ts, PreOrder, Ok(isDirectory));
      if next.Ok? { PostOrderNeverPrunesEach(items[1..], ts, kind, isDirectory, prune || next.value.prune); }
    }
  }

  /** In pre-order, if the kind of the entry cannot be found out, the pre-pass fails with
      that or comes to what it comes to for a file. */
  lemma {:induction false} UnknownKind(e: Expr, ts: Tests, error: Diagnostic)
    ensures var r := ForTraversal(e, ts, PreOrder, Err(error));
      r == Err(error) || r == ForTraversal(e, ts, PreOrder, Ok(false)) == ForTraversal(e, ts, PreOrder, Ok(true))
    ensures ForTraversal(Pred(Prune), ts, PreOrder, Err(error)) == Err(error)
    decreases Nodes(e), 0
  {
    match e
    case And(items) => UnknownKindEach(items, ts, error, false);
    case Or(l, r) =>
      UnknownKind(l, ts, error);
      UnknownKind(r, ts, error);
    case Not(i) => UnknownKind(i, ts, error);
    case _ =>
  }

  lemma {:induction false} UnknownKindEach(items: seq<Expr>, ts: Tests, error: Diagnostic, prune: bool)
    ensures var r := AllForTraversal(items, ts, PreOrder, Err(error), prune);
      r == Err(error) || r == AllForTraversal(items, ts, PreOrder, Ok(false), prune) == AllForTraversal(items, ts, PreOrder, Ok(true), prune)
    decreases NodesOf(items), 1
  {
    if items != [] {
      UnknownKind(items[0], ts, error);
      var next := ForTraversal(items[0], ts, PreOrder, Err(error));
      if next.Ok? { UnknownKindEach(items[1..], ts, error, prune || next.value.prune); }
    }
  }
}
