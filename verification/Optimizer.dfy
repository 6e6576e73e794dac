/** Reordering of read-only tests inside and-chains. */
module Optimizer {
  import opened Basics
  import opened Expressions
  import opened Evaluation

  // ----- Profiles -----

  datatype CostTier =
    | Constant | StringOnly | RegexString | FileType | ActiveMetadata | PathAccess | BirthTime | DirectoryRead | Expensive

  function Rank(c: CostTier): nat {
    match c
    case Constant => 0
    case StringOnly => 1
    case RegexString => 2
    case FileType => 3
    case ActiveMetadata => 4
    case PathAccess => 5
    case BirthTime => 6
    case DirectoryRead => 7
    case Expensive => 8
  }

  function TierOf(p: Predicate): CostTier {
    match p
    case Prune | True | False => Constant
    case Readable | Writable | Executable => PathAccess
    case Name(_) | Path(_) => StringOnly
    case Regex(_) => RegexString
    case Type(_) | XType(_) => FileType
    case Empty => DirectoryRead
    case Newer(ofBirth, _) => if ofBirth then BirthTime else ActiveMetadata
    case LName(_) | NoUser | NoGroup => Expensive
    case _ => ActiveMetadata
  }

  predicate Reorderable(p: Predicate) {
    !p.Prune?
  }

  predicate IsLeaf(e: Expr) {
    e.Pred? && Reorderable(e.test)
  }

  function ExprCost(e: Expr): nat {
    if e.Pred? then Rank(TierOf(e.test)) else Rank(Expensive)
  }

  // ----- A stable sort by cost -----

  function Insert(sorted: seq<Expr>, e: Expr): (r: seq<Expr>)
    ensures |r| == |sorted| + 1
  {
    if sorted == [] || ExprCost(sorted[|sorted| - 1]) <= ExprCost(e) then sorted + [e]
    else Insert(sorted[..|sorted| - 1], e) + [sorted[|sorted| - 1]]
  }

  function Sort(s: seq<Expr>): (r: seq<Expr>)
    ensures |r| == |s|
  {
    if s == [] then [] else Insert(Sort(s[..|s| - 1]), s[|s| - 1])
  }

  predicate Sorted(s: seq<Expr>) {
    forall i, j :: 0 <= i < j < |s| ==> ExprCost(s[i]) <= ExprCost(s[j])
  }

  function OfCost(s: seq<Expr>, c: nat): seq<Expr> {
    if s == [] then [] else OfCost(s[..|s| - 1], c) + if ExprCost(s[|s| - 1]) == c then [s[|s| - 1]] else []
  }

  lemma OfCostPush(s: seq<Expr>, e: Expr, c: nat)
    ensures OfCost(s + [e], c) == OfCost(s, c) + if ExprCost(e) == c then [e] else []
  {
    assert (s + [e])[..|s|] == s;
  }

  lemma {:induction false} InsertCounts(sorted: seq<Expr>, e: Expr)
    ensures multiset(Insert(sorted, e)) == multiset(sorted) + multiset{e}
  {
    hide ExprCost;
    if sorted != [] && ExprCost(sorted[|sorted| - 1]) > ExprCost(e) {
      var n := |sorted| - 1;
      InsertCounts(sorted[..n], e);
      assert sorted == sorted[..n] + [sorted[n]];
    }
  }

  predicate AtMost(s: seq<Expr>, c: nat) {
    forall i :: 0 <= i < |s| ==> ExprCost(s[i]) <= c
  }

  lemma {:induction false} InsertSorts(sorted: seq<Expr>, e: Expr, c: nat)
    requires Sorted(sorted)
    ensures Sorted(Insert(sorted, e))
    ensures AtMost(sorted, c) && ExprCost(e) <= c ==> AtMost(Insert(sorted, e), c)
  {
    hide ExprCost;
    if sorted != [] && ExprCost(sorted[|sorted| - 1]) > ExprCost(e) {
      var n := |sorted| - 1;
      InsertSorts(sorted[..n], e, ExprCost(sorted[n]));
      InsertSorts(sorted[..n], e, c);
    }
  }

  lemma {:induction false} InsertIsStable(sorted: seq<Expr>, e: Expr, c: nat)
    ensures OfCost(Insert(sorted, e), c) == OfCost(sorted, c) + if ExprCost(e) == c then [e] else []
  {
    hide ExprCost, OfCost;
    OfCostPush(sorted, e, c);
    if sorted != [] && ExprCost(sorted[|sorted| - 1]) > ExprCost(e) {
      var n := |sorted| - 1;
      var rest, last := sorted[..n], sorted[n];
      InsertIsStable(rest, e, c);
      assert sorted == rest + [last];
      OfCostPush(Insert(rest, e), last, c);
      OfCostPush(rest, last, c);
    }
  }

  /** Sorted, the same elements, and those of equal cost in their old order. */
  lemma {:induction false} SortIsStable(s: seq<Expr>)
    ensures Sorted(Sort(s)) && multiset(Sort(s)) == multiset(s)
    ensures forall c: nat :: OfCost(Sort(s), c) == OfCost(s, c)
  {
    hide ExprCost, Insert;
    if s != [] {
      var n := |s| - 1;
      SortIsStable(s[..n]);
      InsertSorts(Sort(s[..n]), s[n], 0);
      InsertCounts(Sort(s[..n]), s[n]);
      assert s == s[..n] + [s[n]];
      forall c: nat ensures OfCost(Sort(s), c) == OfCost(s, c) { InsertIsStable(Sort(s[..n]), s[n], c); }
    }
  }

  lemma {:induction false} SortOfSorted(s: seq<Expr>)
    requires Sorted(s)
    ensures Sort(s) == s
  {
    if s != [] { SortOfSorted(s[..|s| - 1]); }
  }

  // ----- The optimiser -----

  /** The items with every maximal run of leaves sorted; segment is the run that
      has been collected before them. */
  function Arrange(items: seq<Expr>, segment: seq<Expr>): seq<Expr>
    decreases |items|
  {
    if items == [] then Sort(segment)
    else if IsLeaf(items[0]) then Arrange(items[1..], segment + [items[0]])
    else Sort(segment) + [items[0]] + Arrange(items[1..], [])
  }

  function Optimize(e: Expr): Expr
    decreases Nodes(e), 0
  {
    match e
    case And(items) => And(Arrange(OptimizeEach(items), []))
    case Or(l, r) => Or(Optimize(l), Optimize(r))
    case Not(i) => Not(Optimize(i))
    case _ => e
  }

  function OptimizeEach(items: seq<Expr>): (r: seq<Expr>)
    ensures |r| == |items|
    decreases NodesOf(items), 1
  {
    if items == [] then [] else [Optimize(items[0])] + OptimizeEach(items[1..])
  }

  method FlushSegment(output: seq<Expr>, segment: seq<Expr>) returns (r: seq<Expr>)
    ensures r == output + Sort(segment)
  {
    r := output + Sort(segment);
  }

  lemma ArrangeNext(x: Expr, rest: seq<Expr>, segment: seq<Expr>)
    ensures Arrange([x] + rest, segment)
         == if IsLeaf(x) then Arrange(rest, segment + [x]) else Sort(segment) + [x] + Arrange(rest, [])
  {
    assert ([x] + rest)[1..] == rest;
  }

  lemma EachNext(items: seq<Expr>, i: nat)
    requires i < |items|
    ensures OptimizeEach(items[i..]) == [Optimize(items[i])] + OptimizeEach(items[i + 1..])
  {
    assert items[i..][0] == items[i] && items[i..][1..] == items[i + 1..];
  }

  /** One pass over the items, collecting a run and flushing it in front of every
      item that must keep its place. */
  method OptimizeAndItems(items: seq<Expr>) returns (optimized: seq<Expr>)
    ensures optimized == Arrange(OptimizeEach(items), [])
    decreases NodesOf(items), 1
  {
    hide Sort, Optimize, IsLeaf, Arrange, OptimizeEach;
    optimized := [];
    var segment: seq<Expr> := [];
    var i := 0;
    assert items[0..] == items;
    while i < |items|
      invariant i <= |items|
      invariant Arrange(OptimizeEach(items), []) == optimized + Arrange(OptimizeEach(items[i..]), segment)
    {
      NodesWithin(items, i);
      var item := OptimizeReadOnlyAndChains(items[i]);
      EachNext(items, i);
      ArrangeNext(item, OptimizeEach(items[i + 1..]), segment);
      if IsLeaf(item) {
        segment := segment + [item];
      } else {
        optimized := FlushSegment(optimized, segment);
        optimized := optimized + [item];
        segment := [];
      }
      i := i + 1;
    }
    assert OptimizeEach(items[i..]) == [] && Arrange([], segment) == Sort(segment) by { NothingLeft(items, segment); }
    optimized := FlushSegment(optimized, segment);
  }

  lemma NothingLeft(items: seq<Expr>, segment: seq<Expr>)
    ensures OptimizeEach(items[|items|..]) == [] && Arrange([], segment) == Sort(segment)
  {
  }

  method OptimizeReadOnlyAndChains(e: Expr) returns (r: Expr)
    ensures r == Optimize(e)
    decreases Nodes(e), 0
  {
    match e {
      case And(items) =>
        var optimized := OptimizeAndItems(items);
        return And(optimized);
      case Or(left, right) =>
        var l := OptimizeReadOnlyAndChains(left);
        var r' := OptimizeReadOnlyAndChains(right);
        return Or(l, r');
      case Not(inner) =>
        var i := OptimizeReadOnlyAndChains(inner);
        return Not(i);
      case _ => return e;
    }
  }

  // ----- What it does to an and-chain -----

  lemma {:induction false} ArrangeRun(run: seq<Expr>, rest: seq<Expr>, segment: seq<Expr>)
    requires forall x :: x in run ==> IsLeaf(x)
    ensures Arrange(run + rest, segment) == Arrange(rest, segment + run)
    decreases |run|
  {
    if run == [] {
      assert run + rest == rest && segment + run == segment;
    } else {
      assert (run + rest)[0] == run[0] && (run + rest)[1..] == run[1..] + rest;
      assert segment + [run[0]] + run[1..] == segment + run;
      ArrangeRun(run[1..], rest, segment + [run[0]]);
    }
  }

  /** A run of leaves alone is sorted stably; an item that is not a leaf keeps its
      place and separates what is before it from what is after it. */
  lemma {:induction false} EveryRunIsSorted(before: seq<Expr>, item: Expr, after: seq<Expr>)
    requires !IsLeaf(item)
    ensures Arrange(before + [item] + after, []) == Arrange(before, []) + [item] + Arrange(after, [])
    ensures (forall x :: x in before ==> IsLeaf(x)) ==> Arrange(before, []) == Sort(before)
  {
    SplitAtItem(before, item, after, []);
    if forall x :: x in before ==> IsLeaf(x) {
      ArrangeRun(before, [], []);
      assert before + [] == before && [] + before == before;
    }
  }

  lemma {:induction false} SplitAtItem(before: seq<Expr>, item: Expr, after: seq<Expr>, segment: seq<Expr>)
    requires !IsLeaf(item)
    ensures Arrange(before + [item] + after, segment) == Arrange(before, segment) + [item] + Arrange(after, [])
    decreases |before|
  {
    var all := before + [item] + after;
    if before == [] {
      assert all[0] == item && all[1..] == after;
    } else {
      assert all[0] == before[0] && all[1..] == before[1..] + [item] + after;
      SplitAtItem(before[1..], item, after, if IsLeaf(before[0]) then segment + [before[0]] else []);
    }
  }

  lemma {:induction false} ArrangeIsPermutation(items: seq<Expr>, segment: seq<Expr>)
    ensures multiset(Arrange(items, segment)) == multiset(segment + items)
    decreases |items|
  {
    SortIsStable(segment);
    if items == [] {
      assert segment + items == segment;
    } else {
      assert items == [items[0]] + items[1..];
      if IsLeaf(items[0]) {
        ArrangeIsPermutation(items[1..], segment + [items[0]]);
        assert segment + [items[0]] + items[1..] == segment + items;
      } else {
        ArrangeIsPermutation(items[1..], []);
        assert [] + items[1..] == items[1..];
      }
    }
  }

  // ----- Idempotence -----

  lemma LeavesStay(e: Expr)
    ensures IsLeaf(Optimize(e)) <==> IsLeaf(e)
    ensures IsLeaf(e) ==> Optimize(e) == e
  {
  }

  lemma {:induction false} SortKeepsLeaves(s: seq<Expr>)
    requires forall x :: x in s ==> IsLeaf(x)
    ensures forall x :: x in Sort(s) ==> IsLeaf(x)
  {
    SortIsStable(s);
    forall x | x in Sort(s) ensures IsLeaf(x) { assert x in multiset(s); }
  }

  lemma SortTwice(segment: seq<Expr>)
    ensures Sort(Sort(segment)) == Sort(segment)
  {
    SortIsStable(segment);
    SortOfSorted(Sort(segment));
  }

  /** A sorted run in front of what has been arranged stays in front. */
  lemma SortedRunStays(segment: seq<Expr>, rest: seq<Expr>)
    requires forall x :: x in segment ==> IsLeaf(x)
    ensures Arrange(Sort(segment) + rest, []) == Arrange(rest, Sort(segment))
  {
    SortKeepsLeaves(segment);
    ArrangeRun(Sort(segment), rest, []);
    assert [] + Sort(segment) == Sort(segment);
  }

  lemma {:induction false} ArrangeTwice(items: seq<Expr>, segment: seq<Expr>)
    requires forall x :: x in segment ==> IsLeaf(x)
    ensures Arrange(Arrange(items, segment), []) == Arrange(items, segment)
    decreases |items|
  {
    hide Sort, Arrange;
    SortTwice(segment);
    if items == [] {
      NothingLeft(items, segment);
      SortedRunStays(segment, []);
      assert Sort(segment) + [] == Sort(segment);
      NothingLeft([], Sort(segment));
    } else {
      var x, rest := items[0], items[1..];
      assert items == [x] + rest;
      ArrangeNext(x, rest, segment);
      if IsLeaf(x) {
        ArrangeTwice(rest, segment + [x]);
      } else {
        var tail := Arrange(rest, []);
        ArrangeTwice(rest, []);
        assert Sort(segment) + [x] + tail == Sort(segment) + ([x] + tail);
        SortedRunStays(segment, [x] + tail);
        ArrangeNext(x, tail, Sort(segment));
      }
    }
  }

  lemma {:induction false} EachIsOptimized(items: seq<Expr>)
    ensures forall x :: x in OptimizeEach(items) ==> Optimize(x) == x
    decreases NodesOf(items), 1
  {
    if items != [] {
      Idempotent(items[0]);
      EachIsOptimized(items[1..]);
    }
  }

  lemma {:induction false} OptimizeEachOf(items: seq<Expr>)
    requires forall x :: x in items ==> Optimize(x) == x
    ensures OptimizeEach(items) == items
  {
    hide Optimize;
    if items != [] {
      OptimizeEachOf(items[1..]);
    }
  }

  /** Optimising twice is optimising once. */
  lemma {:induction false} Idempotent(e: Expr)
    ensures Optimize(Optimize(e)) == Optimize(e)
    decreases Nodes(e), 0
  {
    match e
    case And(items) =>
      var each := OptimizeEach(items);
      var arranged := Arrange(each, []);
      EachIsOptimized(items);
      ArrangeIsPermutation(each, []);
      forall x | x in arranged ensures Optimize(x) == x {
        assert x in multiset([] + each);
        assert [] + each == each;
      }
      OptimizeEachOf(arranged);
      ArrangeTwice(each, []);
    case Or(l, r) => Idempotent(l); Idempotent(r);
    case Not(i) => Idempotent(i);
    case _ =>
  }

  // ----- The tests of an expression -----

  function TestsOf(e: Expr): set<Predicate>
    decreases Nodes(e), 0
  {
    match e
    case And(items) => TestsIn(items)
    case Or(l, r) => TestsOf(l) + TestsOf(r)
    case Not(i) => TestsOf(i)
    case Pred(p) => {p}
    case _ => {}
  }

  function TestsIn(items: seq<Expr>): set<Predicate>
    decreases NodesOf(items), 1
  {
    if items == [] then {} else TestsOf(items[0]) + TestsIn(items[1..])
  }

  /** None of these tests fails for the entry at hand. */
  ghost predicate Answers(tests: set<Predicate>, ts: Tests) {
    forall p :: p in tests ==> Test(ts, p).Ok?
  }

  /** A run of leaves that draws on these tests only. */
  ghost predicate RunOf(run: seq<Expr>, tests: set<Predicate>) {
    forall x :: x in run ==> IsLeaf(x) && x.test in tests
  }

  lemma SortKeepsRun(run: seq<Expr>, tests: set<Predicate>)
    requires RunOf(run, tests)
    ensures RunOf(Sort(run), tests) && forall x :: x in run <==> x in Sort(run)
  {
    SortIsStable(run);
    assert forall x :: x in run <==> x in multiset(run);
    assert forall x :: x in Sort(run) <==> x in multiset(Sort(run));
  }

  // ----- Meaning -----

  /** The same verdict, unless one of the tests can fail and one of the two has
      failed. */
  ghost predicate Alike(tests: set<Predicate>, ts: Tests, v: Verdict, v': Verdict) {
    v == v' || (!Answers(tests, ts) && (v.result.Err? || v'.result.Err?))
  }

  /** What a run of leaves comes to. */
  function TestRun(run: seq<Expr>, ts: Tests): Result<bool, Diagnostic>
    requires forall x :: x in run ==> IsLeaf(x)
  {
    if run == [] then Ok(true)
    else assert IsLeaf(run[0]); match Test(ts, run[0].test)
      case Err(error) => Err(error)
      case Ok(b) => if b then TestRun(run[1..], ts) else Ok(false)
  }

  lemma {:induction false} RunThenRest(run: seq<Expr>, rest: seq<Expr>, ts: Tests, sink: Sink, h: seq<Action>, acc: Status)
    requires !acc.stop && forall x :: x in run ==> IsLeaf(x)
    ensures DirectAll(run + rest, ts, sink, h, acc) ==
      match TestRun(run, ts)
      case Err(error) => Verdict(h, Err(error))
      case Ok(b) => if b then DirectAll(rest, ts, sink, h, acc) else Verdict(h, Ok(Outcome(false, acc)))
  {
    if run == [] {
      assert run + rest == rest;
    } else {
      assert IsLeaf(run[0]);
      assert (run + rest)[0] == run[0] && (run + rest)[1..] == run[1..] + rest;
      if Test(ts, run[0].test) == Ok(true) { RunThenRest(run[1..], rest, ts, sink, h, acc); }
    }
  }

  lemma {:induction false} RunHolds(run: seq<Expr>, tests: set<Predicate>, ts: Tests)
    requires RunOf(run, tests)
    ensures TestRun(run, ts) == Ok(true) <==> forall x :: x in run ==> Test(ts, x.test) == Ok(true)
    ensures Answers(tests, ts) ==> TestRun(run, ts).Ok?
  {
    if run != [] {
      assert IsLeaf(run[0]) && run[0].test in tests;
      if Test(ts, run[0].test) == Ok(true) {
        RunHolds(run[1..], tests, ts);
        assert forall x :: x in run <==> x == run[0] || x in run[1..];
      }
    }
  }

  /** Sorting a run of leaves, and what follows it, into something alike. */
  lemma RunsAlike(tests: set<Predicate>, run: seq<Expr>, rest: seq<Expr>, rest': seq<Expr>, ts: Tests, sink: Sink, h: seq<Action>, acc: Status)
    requires !acc.stop && RunOf(run, tests)
    requires Alike(tests, ts, DirectAll(rest', ts, sink, h, acc), DirectAll(rest, ts, sink, h, acc))
    ensures Alike(tests, ts, DirectAll(Sort(run) + rest', ts, sink, h, acc), DirectAll(run + rest, ts, sink, h, acc))
  {
    hide DirectAll, TestRun, Answers;
    SortKeepsRun(run, tests);
    RunThenRest(run, rest, ts, sink, h, acc);
    RunThenRest(Sort(run), rest', ts, sink, h, acc);
    RunHolds(run, tests, ts);
    RunHolds(Sort(run), tests, ts);
  }

  lemma {:induction false} ItemsAlike(tests: set<Predicate>, items: seq<Expr>, segment: seq<Expr>, ts: Tests, sink: Sink, h: seq<Action>, acc: Status)
    requires !acc.stop && RunOf(segment, tests) && TestsIn(items) <= tests
    ensures Alike(tests, ts, DirectAll(Arrange(OptimizeEach(items), segment), ts, sink, h, acc), DirectAll(segment + items, ts, sink, h, acc))
    decreases NodesOf(items), 2
  {
    hide Answers, DirectAll, Direct, Sort, Arrange, Optimize, OptimizeEach, Alike;
    if items == [] {
      NothingLeft(items, segment);
      Unchanged(tests, ts, DirectAll([], ts, sink, h, acc));
      RunsAlike(tests, segment, [], [], ts, sink, h, acc);
      assert Sort(segment) + [] == Sort(segment) && segment + [] == segment;
    } else {
      var x, rest := items[0], items[1..];
      EachNext(items, 0);
      assert items[0..] == items;
      LeavesStay(x);
      ArrangeNext(Optimize(x), OptimizeEach(rest), segment);
      if IsLeaf(x) {
        assert x.test in TestsOf(x);
        ItemsAlike(tests, rest, segment + [x], ts, sink, h, acc);
        assert segment + [x] + rest == segment + items;
      } else {
        var tail := Arrange(OptimizeEach(rest), []);
        ItemThenAlike(tests, items, tail, ts, sink, h, acc);
        RunsAlike(tests, segment, items, [Optimize(x)] + tail, ts, sink, h, acc);
        assert Sort(segment) + [Optimize(x)] + tail == Sort(segment) + ([Optimize(x)] + tail);
      }
    }
  }

  lemma Unchanged(tests: set<Predicate>, ts: Tests, v: Verdict)
    ensures Alike(tests, ts, v, v)
  {
  }

  lemma {:induction false} ItemThenAlike(tests: set<Predicate>, items: seq<Expr>, tail: seq<Expr>, ts: Tests, sink: Sink, h: seq<Action>, acc: Status)
    requires !acc.stop && items != [] && TestsIn(items) <= tests && tail == Arrange(OptimizeEach(items[1..]), [])
    ensures Alike(tests, ts, DirectAll([Optimize(items[0])] + tail, ts, sink, h, acc), DirectAll(items, ts, sink, h, acc))
    decreases NodesOf(items), 1
  {
    hide Answers, Optimize, Arrange;
    MeaningWithin(tests, items[0], ts, sink, h);
    var e := Optimize(items[0]);
    assert ([e] + tail)[0] == e && ([e] + tail)[1..] == tail;
    var v := Direct(items[0], ts, sink, h);
    if v.result.Ok? && v.result.value.matched && !Merge(acc, v.result.value.status).stop {
      ItemsAlike(tests, items[1..], [], ts, sink, v.history, Merge(acc, v.result.value.status));
      assert [] + items[1..] == items[1..];
    }
  }

  lemma {:induction false} MeaningWithin(tests: set<Predicate>, e: Expr, ts: Tests, sink: Sink, h: seq<Action>)
    requires TestsOf(e) <= tests
    ensures Alike(tests, ts, Direct(Optimize(e), ts, sink, h), Direct(e, ts, sink, h))
    decreases Nodes(e), 0
  {
    hide Answers;
    match e
    case And(items) =>
      ItemsAlike(tests, items, [], ts, sink, h, CLEAR);
      assert [] + items == items;
    case Or(l, r) =>
      MeaningWithin(tests, l, ts, sink, h);
      var left := Direct(l, ts, sink, h);
      if left.result.Ok? { MeaningWithin(tests, r, ts, sink, left.history); }
    case Not(i) => MeaningWithin(tests, i, ts, sink, h);
    case _ =>
  }

  /** The optimised expression dispatches the same actions and has the same
      outcome, unless a test that occurs in it fails and with it one of the two
      evaluations. */
  lemma PreservesMeaning(e: Expr, ts: Tests, sink: Sink, h: seq<Action>)
    ensures Alike(TestsOf(e), ts, Direct(Optimize(e), ts, sink, h), Direct(e, ts, sink, h))
  {
    MeaningWithin(TestsOf(e), e, ts, sink, h);
  }

  /** When the tests that occur in e do not fail, the verdict is the same in every
      respect. */
  lemma PreservesVerdict(e: Expr, ts: Tests, sink: Sink, h: seq<Action>)
    requires Answers(TestsOf(e), ts)
    ensures Direct(Optimize(e), ts, sink, h) == Direct(e, ts, sink, h)
  {
    PreservesMeaning(e, ts, sink, h);
  }

  lemma SwapsTwo(a: Expr, b: Expr)
    requires IsLeaf(a) && IsLeaf(b) && ExprCost(b) < ExprCost(a)
    ensures Optimize(And([a, b])) == And([b, a])
  {
    var s := [a, b];
    assert OptimizeEach(s) == s by {
      assert s[1..] == [b] && OptimizeEach([b]) == [b];
    }
    ArrangeRun(s, [], []);
    assert s + [] == s && [] + s == s;
    assert s[..1] == [a] && [a][..0] == [] && Sort([a]) == [a];
    assert Insert([a], b) == [b, a];
  }

  /** Any test that fails shows the order: -false moves in front of it. */
  lemma FailingTestShows(p: Predicate, ts: Tests, sink: Sink, h: seq<Action>)
    requires Test(ts, p).Err?
    ensures var e := And([Pred(p), Pred(False)]);
      Direct(e, ts, sink, h).result.Err? && Direct(Optimize(e), ts, sink, h) == Verdict(h, Ok(Outcome(false, CLEAR)))
  {
    SwapsTwo(Pred(p), Pred(False));
    var s, s' := [Pred(p), Pred(False)], [Pred(False), Pred(p)];
    assert Direct(s[0], ts, sink, h).result.Err?;
    assert Direct(s'[0], ts, sink, h) == Verdict(h, Ok(Outcome(false, CLEAR)));
    assert DirectAll(s, ts, sink, h, CLEAR).result.Err?;
    assert DirectAll(s', ts, sink, h, CLEAR) == Verdict(h, Ok(Outcome(false, CLEAR)));
  }

  /** For instance -empty on a directory that cannot be read. */
  lemma UnreadableDirectoryShows(sink: Sink)
    ensures var ts: Tests := (p: Predicate) => if p.Empty? then Err("permission denied") else Ok(true);
      var e := And([Pred(Empty), Pred(False)]);
      Direct(e, ts, sink, []).result.Err? && Direct(Optimize(e), ts, sink, []).result == Ok(Outcome(false, CLEAR))
  {
    var ts: Tests := (p: Predicate) => if p.Empty? then Err("permission denied") else Ok(true);
    FailingTestShows(Empty, ts, sink, []);
  }

  /** No test that may be moved fails. */
  ghost predicate AllAnswer(ts: Tests) {
    forall p: Predicate :: Reorderable(p) ==> Test(ts, p).Ok?
  }

  /** Reordering keeps every verdict if and only if no test that may be moved
      fails. */
  lemma ReorderingIsSafe(ts: Tests)
    ensures (forall e: Expr, sink: Sink, h: seq<Action> :: Direct(Optimize(e), ts, sink, h) == Direct(e, ts, sink, h))
       <==> AllAnswer(ts)
  {
    hide Optimize, Direct;
    if AllAnswer(ts) {
      forall e: Expr, sink: Sink, h: seq<Action> ensures Direct(Optimize(e), ts, sink, h) == Direct(e, ts, sink, h) {
        PreservesVerdict(e, ts, sink, h);
      }
    } else {
      var p: Predicate :| Reorderable(p) && Test(ts, p).Err?;
      var sink: Sink := (g: seq<Action>) => Err("");
      FailingTestShows(p, ts, sink, []);
      var e := And([Pred(p), Pred(False)]);
      assert Direct(Optimize(e), ts, sink, []) != Direct(e, ts, sink, []);
    }
  }

  // ----- Which tests come first -----

  /** Written in this order, the two tests are swapped. */
  predicate Swaps(x: Predicate, y: Predicate) {
    Optimize(And([Pred(x), Pred(y)])) == And([Pred(y), Pred(x)])
  }

  predicate Stays(x: Predicate, y: Predicate) {
    Optimize(And([Pred(x), Pred(y)])) == And([Pred(x), Pred(y)])
  }

  lemma SortTwo(a: Expr, b: Expr)
    ensures Sort([a]) == [a] && Sort([a, b]) == if ExprCost(b) < ExprCost(a) then [b, a] else [a, b]
  {
    hide ExprCost;
    assert [a][..0] == [] && Insert([], a) == [a] && Insert([], b) == [b];
    assert [a, b][..1] == [a];
  }

  lemma ArrangeTwo(a: Expr, b: Expr)
    ensures Arrange([a, b], []) == if IsLeaf(a) && IsLeaf(b) then Sort([a, b]) else [a, b]
  {
    hide Sort, IsLeaf;
    assert [a, b] == [a] + [b] && [b] == [b] + [] && [] + [a] == [a] && [a] + [b] == [a, b] && [] + [b] == [b];
    ArrangeNext(a, [b], []);
    ArrangeNext(b, [], [a]);
    ArrangeNext(b, [], []);
    assert Sort([]) == [] by { SortNone(); }
    SortTwo(a, a);
    SortTwo(b, b);
  }

  lemma SortNone()
    ensures Sort([]) == []
  {
  }

  lemma OptimizeTwo(x: Predicate, y: Predicate)
    ensures Optimize(And([Pred(x), Pred(y)])) == And(Arrange([Pred(x), Pred(y)], []))
  {
    hide Arrange;
    var a, b := Pred(x), Pred(y);
    assert [a, b][1..] == [b] && [b][1..] == [];
    assert OptimizeEach([b]) == [b] by { assert OptimizeEach([]) == []; }
    assert OptimizeEach([a, b]) == [a, b];
  }

  lemma TwoTests(x: Predicate, y: Predicate)
    ensures Reorderable(x) && Reorderable(y) && ExprCost(Pred(y)) < ExprCost(Pred(x)) ==> Swaps(x, y)
    ensures !Reorderable(x) || !Reorderable(y) || ExprCost(Pred(x)) <= ExprCost(Pred(y)) ==> Stays(x, y)
  {
    hide ExprCost, Sort, Arrange, Optimize;
    OptimizeTwo(x, y);
    ArrangeTwo(Pred(x), Pred(y));
    SortTwo(Pred(x), Pred(y));
  }

  /** Tests that only compare strings. */
  predicate ReadsName(p: Predicate) {
    p.Name? || p.Path?
  }

  /** Tests that a stat of the entry decides. */
  predicate ByStat(p: Predicate) {
    || p.FsType? || p.Inum? || p.Links? || p.SameFile? || p.Uid? || p.Gid? || p.User? || p.Group? || p.Perm? || p.Flags?
    || p.ReparseType? || p.Size? || p.Used? || p.RelativeTime? || (p.Newer? && !p.ofBirth)
  }

  /** Tests that need more than a look at the entry itself. */
  predicate ReadsElsewhere(p: Predicate) {
    p.LName? || p.NoUser? || p.NoGroup?
  }

  /** Constants are decided first, then names, then regular expressions, then types; -prune
      keeps its place. */
  lemma StringsFirst(arg: string, x: Predicate, y: Predicate)
    ensures ReadsName(x) && ReadsName(y) ==> Stays(x, y)
    ensures ReadsName(x) ==> Swaps(x, True) && Swaps(x, False) && Stays(True, x) && Swaps(Regex(arg), x) && Stays(x, Regex(arg))
    ensures Swaps(Type(arg), Regex(arg)) && Swaps(XType(arg), Regex(arg))
    ensures Stays(x, Prune) && Stays(Prune, x)
  {
    hide Optimize, Swaps, Stays;
    TwoTests(x, y);
    TwoTests(x, True);
    TwoTests(x, False);
    TwoTests(True, x);
    TwoTests(Regex(arg), x);
    TwoTests(x, Regex(arg));
    TwoTests(Type(arg), Regex(arg));
    TwoTests(XType(arg), Regex(arg));
    TwoTests(x, Prune);
    TwoTests(Prune, x);
  }

  /** After types comes what a stat tells, then access checks, then the time of birth. */
  lemma StatAfterType(arg: string, x: Predicate)
    ensures Stays(Type(arg), XType(arg)) && Stays(XType(arg), Type(arg))
    ensures ByStat(x) ==> Swaps(x, Type(arg)) && Stays(Type(arg), x) && Swaps(Readable, x) && Stays(x, Readable)
    ensures Stays(Readable, Writable) && Stays(Writable, Executable) && Stays(Executable, Readable)
    ensures Swaps(Newer(true, arg), Executable)
  {
    hide Optimize, Swaps, Stays;
    TwoTests(Type(arg), XType(arg));
    TwoTests(XType(arg), Type(arg));
    TwoTests(x, Type(arg));
    TwoTests(Type(arg), x);
    TwoTests(Readable, x);
    TwoTests(x, Readable);
    TwoTests(Readable, Writable);
    TwoTests(Writable, Executable);
    TwoTests(Executable, Readable);
    TwoTests(Newer(true, arg), Executable);
  }

  /** Then the emptiness of a directory, and last what has to be looked up elsewhere. */
  lemma LookupsLast(arg: string, x: Predicate, y: Predicate)
    ensures Swaps(Empty, Newer(true, arg))
    ensures ReadsElsewhere(x) ==> Swaps(x, Empty) && Stays(Empty, x)
    ensures ReadsElsewhere(x) && ReadsElsewhere(y) ==> Stays(x, y)
  {
    hide Optimize, Swaps, Stays;
    TwoTests(Empty, Newer(true, arg));
    TwoTests(x, Empty);
    TwoTests(Empty, x);
    TwoTests(x, y);
  }
}
