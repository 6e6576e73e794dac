/** The token parser of the GNU regular expression dialects. */
module GnuRegex {
  import opened Basics
  import C = GnuClasses

  datatype Repetition = ZeroOrMore | OneOrMore | ZeroOrOne | Bounded(min: nat, max: Option<nat>)

  datatype Assertion = WordBoundary | NotWordBoundary | WordStart | WordEnd | BufferStart | BufferEnd

  datatype Token =
    | Literal(byte: C.Byte) | Dot | AnchorStart | AnchorEnd | Class(brackets: C.Brackets)
    | GroupOpen | GroupClose | Alternation
    | Quantifier(kind: Repetition) | Backreference(index: nat) | Assert(assertion: Assertion) | WordByteClass(negated: bool)

  datatype Expr =
    | Empty
    | Leaf(token: Token)
    | Concat(items: seq<Expr>)
    | Choice(branches: seq<Expr>)
    | Group(captureIndex: nat, inner: Expr)
    | Repeat(operand: Expr, kind: Repetition)

  datatype RegexError = MissingOperand | UnclosedGroup | UnmatchedClose | TrailingInput | BadBackreference | BadBound

  // ----- Brackets -----

  predicate IsBracketFree(t: Token) {
    !t.GroupOpen? && !t.GroupClose?
  }

  /** From i on, with depth groups open, every bracket has its partner. */
  predicate Balanced(ts: seq<Token>, i: nat, depth: nat)
    decreases |ts| - i
  {
    if i >= |ts| then depth == 0
    else if ts[i].GroupOpen? then Balanced(ts, i + 1, depth + 1)
    else if ts[i].GroupClose? then depth > 0 && Balanced(ts, i + 1, depth - 1)
    else Balanced(ts, i + 1, depth)
  }

  lemma {:induction false} BalancedShift(t: Token, ts: seq<Token>, i: nat, depth: nat)
    ensures Balanced([t] + ts, i + 1, depth) == Balanced(ts, i, depth)
    decreases |ts| - i
  {
    if i < |ts| {
      assert ([t] + ts)[i + 1] == ts[i];
      BalancedShift(t, ts, i + 1, depth + 1);
      BalancedShift(t, ts, i + 1, depth);
      if depth > 0 { BalancedShift(t, ts, i + 1, depth - 1); }
    }
  }

  // ----- The grammar as functions -----

  datatype Parsed = Parsed(expr: Expr, next: nat, captures: nat)

  type Parse = Result<Parsed, RegexError>

  function Bundle(items: seq<Expr>): Expr {
    if items == [] then Empty else if |items| == 1 then items[0] else Concat(items)
  }

  function Choose(branches: seq<Expr>): Expr
    requires branches != []
  {
    if |branches| == 1 then branches[0] else Choice(branches)
  }

  function ParseSequence(ts: seq<Token>, i: nat, n: nat, items: seq<Expr>): (p: Parse)
    requires i <= |ts|
    ensures p.Ok? ==> i <= p.value.next <= |ts|
    decreases |ts| - i, 0
  {
    if i == |ts| || ts[i].GroupClose? || ts[i].Alternation? then Ok(Parsed(Bundle(items), i, n))
    else if ts[i].Quantifier? then
      if items == [] then Err(MissingOperand)
      else ParseSequence(ts, i + 1, n, items[..|items| - 1] + [Repeat(items[|items| - 1], ts[i].kind)])
    else if ts[i].GroupOpen? then
      match ParseAlternation(ts, i + 1, n + 1)
      case Err(e) => Err(e)
      case Ok(Parsed(inner, j, m)) =>
        if j < |ts| && ts[j].GroupClose? then ParseSequence(ts, j + 1, m, items + [Group(n + 1, inner)])
        else Err(UnclosedGroup)
    else ParseSequence(ts, i + 1, n, items + [Leaf(ts[i])])
  }

  function ParseAlternation(ts: seq<Token>, i: nat, n: nat): (p: Parse)
    requires i <= |ts|
    ensures p.Ok? ==> i <= p.value.next <= |ts|
    decreases |ts| - i, 2
  {
    match ParseSequence(ts, i, n, [])
    case Err(e) => Err(e)
    case Ok(Parsed(first, j, m)) => MoreBranches(ts, j, m, [first])
  }

  function MoreBranches(ts: seq<Token>, i: nat, n: nat, branches: seq<Expr>): (p: Parse)
    requires i <= |ts| && branches != []
    ensures p.Ok? ==> i <= p.value.next <= |ts|
    decreases |ts| - i, 1
  {
    if i < |ts| && ts[i].Alternation? then
      match ParseSequence(ts, i + 1, n, [])
      case Err(e) => Err(e)
      case Ok(Parsed(next, j, m)) => MoreBranches(ts, j, m, branches + [next])
    else Ok(Parsed(Choose(branches), i, n))
  }

  function ParseWhole(ts: seq<Token>): Result<(Expr, nat), RegexError> {
    match ParseAlternation(ts, 0, 0)
    case Err(e) => Err(e)
    case Ok(Parsed(expr, j, n)) => if j != |ts| then Err(TrailingInput) else Ok((expr, n))
  }

  // ----- Nothing is lost: the tree flattens to the tokens -----

  function Size(e: Expr): (n: nat)
    ensures n > 0
  {
    match e
    case Concat(items) => 1 + SizeOf(items)
    case Choice(branches) => 1 + SizeOf(branches)
    case Group(_, inner) => 1 + Size(inner)
    case Repeat(operand, _) => 1 + Size(operand)
    case _ => 1
  }

  function SizeOf(es: seq<Expr>): nat {
    if es == [] then 0 else SizeOf(es[..|es| - 1]) + Size(es[|es| - 1])
  }

  function Flatten(e: Expr): seq<Token>
    decreases Size(e), 0
  {
    match e
    case Empty => []
    case Leaf(t) => [t]
    case Concat(items) => FlattenAll(items)
    case Choice(branches) => FlattenBranches(branches)
    case Group(_, inner) => [GroupOpen] + Flatten(inner) + [GroupClose]
    case Repeat(operand, kind) => Flatten(operand) + [Quantifier(kind)]
  }

  function FlattenAll(items: seq<Expr>): seq<Token>
    decreases SizeOf(items), 1
  {
    if items == [] then [] else FlattenAll(items[..|items| - 1]) + Flatten(items[|items| - 1])
  }

  function FlattenBranches(branches: seq<Expr>): seq<Token>
    decreases SizeOf(branches), 1
  {
    if branches == [] then []
    else if |branches| == 1 then Flatten(branches[0])
    else FlattenBranches(branches[..|branches| - 1]) + [Alternation] + Flatten(branches[|branches| - 1])
  }

  lemma FlattenPush(items: seq<Expr>, e: Expr)
    ensures FlattenAll(items + [e]) == FlattenAll(items) + Flatten(e)
  {
    assert (items + [e])[..|items|] == items;
  }

  lemma BranchPush(branches: seq<Expr>, e: Expr)
    requires branches != []
    ensures FlattenBranches(branches + [e]) == FlattenBranches(branches) + [Alternation] + Flatten(e)
  {
    assert (branches + [e])[..|branches|] == branches;
  }

  lemma BundleFlattens(items: seq<Expr>)
    ensures Flatten(Bundle(items)) == FlattenAll(items)
  {
    if |items| == 1 {
      assert items[..0] == [] && FlattenAll(items[..0]) == [];
    }
  }

  lemma ChooseFlattens(branches: seq<Expr>)
    requires branches != []
    ensures Flatten(Choose(branches)) == FlattenBranches(branches)
  {
  }

  lemma FlattenLast(items: seq<Expr>)
    requires items != []
    ensures FlattenAll(items) == FlattenAll(items[..|items| - 1]) + Flatten(items[|items| - 1])
  {
  }

  lemma RepeatIs(e: Expr, kind: Repetition)
    ensures Flatten(Repeat(e, kind)) == Flatten(e) + [Quantifier(kind)]
  {
  }

  lemma RepeatFlattens(items: seq<Expr>, kind: Repetition)
    requires items != []
    ensures FlattenAll(items[..|items| - 1] + [Repeat(items[|items| - 1], kind)]) == FlattenAll(items) + [Quantifier(kind)]
  {
    hide Flatten, FlattenAll;
    var before, last := items[..|items| - 1], items[|items| - 1];
    FlattenPush(before, Repeat(last, kind));
    FlattenLast(items);
    RepeatIs(last, kind);
  }

  /** The tokens of ts from i up to but not including j. */
  function Slice(ts: seq<Token>, i: nat, j: nat): seq<Token>
    requires i <= j <= |ts|
  {
    ts[i..j]
  }

  lemma SliceFirst(ts: seq<Token>, i: nat, j: nat)
    requires i < j <= |ts|
    ensures Slice(ts, i, j) == [ts[i]] + Slice(ts, i + 1, j)
  {
  }

  lemma SliceJoin(ts: seq<Token>, i: nat, j: nat, k: nat)
    requires i <= j <= k <= |ts|
    ensures Slice(ts, i, k) == Slice(ts, i, j) + Slice(ts, j, k)
  {
  }

  lemma {:induction false} SequenceFlattens(ts: seq<Token>, i: nat, n: nat, items: seq<Expr>)
    requires i <= |ts|
    ensures var p := ParseSequence(ts, i, n, items);
      p.Ok? ==> Flatten(p.value.expr) == FlattenAll(items) + Slice(ts, i, p.value.next)
    decreases |ts| - i, 0
  {
    hide Flatten, FlattenAll, Slice, ParseAlternation, Bundle;
    var p := ParseSequence(ts, i, n, items);
    if p.Ok? {
      if i == |ts| || ts[i].GroupClose? || ts[i].Alternation? {
        BundleFlattens(items);
        NoSlice(ts, i);
      } else if ts[i].Quantifier? {
        SequenceFlattens(ts, i + 1, n, items[..|items| - 1] + [Repeat(items[|items| - 1], ts[i].kind)]);
        RepeatFlattens(items, ts[i].kind);
        SliceFirst(ts, i, p.value.next);
      } else if ts[i].GroupOpen? {
        AlternationFlattens(ts, i + 1, n + 1);
        var inner := ParseAlternation(ts, i + 1, n + 1).value;
        SequenceFlattens(ts, inner.next + 1, inner.captures, items + [Group(n + 1, inner.expr)]);
        GroupFlattens(ts, i, inner, n + 1, items, p.value.next);
      } else {
        SequenceFlattens(ts, i + 1, n, items + [Leaf(ts[i])]);
        FlattenPush(items, Leaf(ts[i]));
        LeafFlattens(ts[i]);
        SliceFirst(ts, i, p.value.next);
      }
    }
  }

  lemma NoSlice(ts: seq<Token>, i: nat)
    requires i <= |ts|
    ensures Slice(ts, i, i) == []
  {
  }

  lemma LeafFlattens(t: Token)
    ensures Flatten(Leaf(t)) == [t]
  {
  }

  lemma GroupFlattens(ts: seq<Token>, i: nat, inner: Parsed, k: nat, items: seq<Expr>, end: nat)
    requires i < inner.next < end <= |ts| && ts[i].GroupOpen? && ts[inner.next].GroupClose?
    requires Flatten(inner.expr) == Slice(ts, i + 1, inner.next)
    ensures FlattenAll(items + [Group(k, inner.expr)]) + Slice(ts, inner.next + 1, end) == FlattenAll(items) + Slice(ts, i, end)
  {
    FlattenPush(items, Group(k, inner.expr));
    hide FlattenAll;
    assert Flatten(Group(k, inner.expr)) == [GroupOpen] + Slice(ts, i + 1, inner.next) + [GroupClose];
    assert Slice(ts, i, end) == [ts[i]] + Slice(ts, i + 1, inner.next) + [ts[inner.next]] + Slice(ts, inner.next + 1, end);
  }

  lemma {:induction false} AlternationFlattens(ts: seq<Token>, i: nat, n: nat)
    requires i <= |ts|
    ensures var p := ParseAlternation(ts, i, n); p.Ok? ==> Flatten(p.value.expr) == Slice(ts, i, p.value.next)
    decreases |ts| - i, 2
  {
    hide Flatten, FlattenAll, FlattenBranches, Slice, ParseSequence, MoreBranches;
    var p := ParseAlternation(ts, i, n);
    if p.Ok? {
      SequenceFlattens(ts, i, n, []);
      var first := ParseSequence(ts, i, n, []).value;
      MoreFlattens(ts, first.next, first.captures, [first.expr]);
      assert FlattenBranches([first.expr]) == Flatten(first.expr) by { OneBranch(first.expr); }
      assert FlattenAll([]) == [] by { NoItems(); }
      SliceJoin(ts, i, first.next, p.value.next);
    }
  }

  lemma OneBranch(e: Expr)
    ensures FlattenBranches([e]) == Flatten(e)
  {
  }

  lemma NoItems()
    ensures FlattenAll([]) == []
  {
  }

  lemma {:induction false} MoreFlattens(ts: seq<Token>, i: nat, n: nat, branches: seq<Expr>)
    requires i <= |ts| && branches != []
    ensures var p := MoreBranches(ts, i, n, branches);
      p.Ok? ==> Flatten(p.value.expr) == FlattenBranches(branches) + Slice(ts, i, p.value.next)
    decreases |ts| - i, 1
  {
    hide Flatten, FlattenAll, FlattenBranches, Slice, ParseSequence, Choose;
    var p := MoreBranches(ts, i, n, branches);
    if p.Ok? {
      if i < |ts| && ts[i].Alternation? {
        SequenceFlattens(ts, i + 1, n, []);
        var next := ParseSequence(ts, i + 1, n, []).value;
        MoreFlattens(ts, next.next, next.captures, branches + [next.expr]);
        BranchPush(branches, next.expr);
        NoItems();
        SliceFirst(ts, i, p.value.next);
        SliceJoin(ts, i + 1, next.next, p.value.next);
      } else {
        ChooseFlattens(branches);
        NoSlice(ts, i);
      }
    }
  }

  /** Whenever the parser succeeds, flattening its tree returns the token list. */
  lemma ParseIsLossless(ts: seq<Token>)
    ensures ParseWhole(ts).Ok? ==> Flatten(ParseWhole(ts).value.0) == ts
  {
    hide Flatten, ParseAlternation;
    AlternationFlattens(ts, 0, 0);
    assert Slice(ts, 0, |ts|) == ts;
  }

  // ----- Captures are numbered by opening order -----

  /** The capture numbers in e, in the order the groups open. */
  function Captures(e: Expr): seq<nat>
    decreases Size(e), 0
  {
    match e
    case Concat(items) => CapturesOf(items)
    case Choice(branches) => CapturesOf(branches)
    case Group(k, inner) => [k] + Captures(inner)
    case Repeat(operand, _) => Captures(operand)
    case _ => []
  }

  function CapturesOf(es: seq<Expr>): seq<nat>
    decreases SizeOf(es), 1
  {
    if es == [] then [] else CapturesOf(es[..|es| - 1]) + Captures(es[|es| - 1])
  }

  /** n + 1, ..., m */
  function From(n: nat, m: nat): seq<nat>
    decreases m - n
  {
    if m <= n then [] else From(n, m - 1) + [m]
  }

  lemma {:induction false} FromJoins(a: nat, b: nat, c: nat)
    requires a <= b <= c
    ensures From(a, b) + From(b, c) == From(a, c)
    decreases c
  {
    if b < c { FromJoins(a, b, c - 1); }
  }

  lemma CapturesPush(es: seq<Expr>, e: Expr)
    ensures CapturesOf(es + [e]) == CapturesOf(es) + Captures(e)
  {
    assert (es + [e])[..|es|] == es;
  }

  lemma OneOf(es: seq<Expr>)
    requires |es| == 1
    ensures CapturesOf(es) == Captures(es[0])
  {
    assert es[..0] == [] && CapturesOf(es[..0]) == [];
  }

  lemma {:induction false} SequenceNumbers(ts: seq<Token>, i: nat, n: nat, items: seq<Expr>)
    requires i <= |ts|
    ensures var p := ParseSequence(ts, i, n, items);
      p.Ok? ==> n <= p.value.captures && Captures(p.value.expr) == CapturesOf(items) + From(n, p.value.captures)
    decreases |ts| - i, 0
  {
    hide From, CapturesOf, ParseAlternation;
    var p := ParseSequence(ts, i, n, items);
    if p.Ok? {
      if i == |ts| || ts[i].GroupClose? || ts[i].Alternation? {
        if |items| == 1 { OneOf(items); }
        NoneFrom(n);
        if items == [] { NoCaptures(); }
      } else if ts[i].Quantifier? {
        hide Captures, Bundle;
        var k := |items| - 1;
        SequenceNumbers(ts, i + 1, n, items[..k] + [Repeat(items[k], ts[i].kind)]);
        RepeatCaptures(items, ts[i].kind);
      } else if ts[i].GroupOpen? {
        hide Captures, Bundle;
        AlternationNumbers(ts, i + 1, n + 1);
        var inner := ParseAlternation(ts, i + 1, n + 1).value;
        var g := Group(n + 1, inner.expr);
        SequenceNumbers(ts, inner.next + 1, inner.captures, items + [g]);
        CapturesPush(items, g);
        GroupCaptures(n, inner.expr, inner.captures, p.value.captures);
      } else {
        hide Captures, Bundle;
        SequenceNumbers(ts, i + 1, n, items + [Leaf(ts[i])]);
        CapturesPush(items, Leaf(ts[i]));
        LeafCaptures(ts[i]);
      }
    }
  }

  lemma NoneFrom(n: nat)
    ensures From(n, n) == []
  {
  }

  lemma NoCaptures()
    ensures CapturesOf([]) == []
  {
  }

  lemma RepeatCaptures(items: seq<Expr>, kind: Repetition)
    requires items != []
    ensures CapturesOf(items[..|items| - 1] + [Repeat(items[|items| - 1], kind)]) == CapturesOf(items)
  {
    var n := |items| - 1;
    CapturesPush(items[..n], Repeat(items[n], kind));
  }

  lemma LeafCaptures(t: Token)
    ensures Captures(Leaf(t)) == []
  {
  }

  lemma GroupCaptures(n: nat, inner: Expr, m: nat, k: nat)
    requires n + 1 <= m <= k && Captures(inner) == From(n + 1, m)
    ensures Captures(Group(n + 1, inner)) + From(m, k) == From(n, k)
  {
    assert From(n, n + 1) == [n + 1] by { NoneFrom(n); }
    FromJoins(n, n + 1, m);
    FromJoins(n, m, k);
  }

  lemma {:induction false} AlternationNumbers(ts: seq<Token>, i: nat, n: nat)
    requires i <= |ts|
    ensures var p := ParseAlternation(ts, i, n); p.Ok? ==> n <= p.value.captures && Captures(p.value.expr) == From(n, p.value.captures)
    decreases |ts| - i, 2
  {
    hide From, Captures, CapturesOf, ParseSequence, MoreBranches;
    var p := ParseAlternation(ts, i, n);
    if p.Ok? {
      SequenceNumbers(ts, i, n, []);
      NoCaptures();
      var first := ParseSequence(ts, i, n, []).value;
      OneOf([first.expr]);
      MoreNumbers(ts, first.next, first.captures, [first.expr]);
      FromJoins(n, first.captures, p.value.captures);
    }
  }

  lemma {:induction false} MoreNumbers(ts: seq<Token>, i: nat, n: nat, branches: seq<Expr>)
    requires i <= |ts| && branches != []
    ensures var p := MoreBranches(ts, i, n, branches);
      p.Ok? ==> n <= p.value.captures && Captures(p.value.expr) == CapturesOf(branches) + From(n, p.value.captures)
    decreases |ts| - i, 1
  {
    hide From, CapturesOf, ParseSequence;
    var p := MoreBranches(ts, i, n, branches);
    if p.Ok? {
      if i < |ts| && ts[i].Alternation? {
        hide Captures, Choose;
        SequenceNumbers(ts, i + 1, n, []);
        NoCaptures();
        var next := ParseSequence(ts, i + 1, n, []).value;
        MoreNumbers(ts, next.next, next.captures, branches + [next.expr]);
        CapturesPush(branches, next.expr);
        FromJoins(n, next.captures, p.value.captures);
      } else {
        NoneFrom(n);
        if |branches| == 1 { OneOf(branches); }
      }
    }
  }

  /** The groups are numbered 1, 2, ... up to the capture count, in the order in
      which they open. */
  lemma CapturesInOrder(ts: seq<Token>)
    ensures ParseWhole(ts).Ok? ==> Captures(ParseWhole(ts).value.0) == From(0, ParseWhole(ts).value.1)
  {
    hide Captures, ParseAlternation, From;
    AlternationNumbers(ts, 0, 0);
  }

  // ----- Balanced tokens rule out bracket errors -----

  /** Where a sub-parser stops in a balanced list. */
  ghost predicate StopsWell(ts: seq<Token>, depth: nat, p: Parse, atBar: bool) {
    match p
    case Err(e) => e == MissingOperand
    case Ok(Parsed(_, j, _)) =>
      && j <= |ts| && Balanced(ts, j, depth)
      && (j < |ts| ==> ts[j].GroupClose? || (atBar && ts[j].Alternation?))
  }

  lemma {:induction false} SequenceStops(ts: seq<Token>, i: nat, n: nat, items: seq<Expr>, depth: nat)
    requires i <= |ts| && Balanced(ts, i, depth)
    ensures StopsWell(ts, depth, ParseSequence(ts, i, n, items), true)
    decreases |ts| - i, 0
  {
    if i < |ts| && !ts[i].GroupClose? && !ts[i].Alternation? {
      if ts[i].Quantifier? {
        if items != [] { SequenceStops(ts, i + 1, n, items[..|items| - 1] + [Repeat(items[|items| - 1], ts[i].kind)], depth); }
      } else if ts[i].GroupOpen? {
        AlternationStops(ts, i + 1, n + 1, depth + 1);
        var inner := ParseAlternation(ts, i + 1, n + 1);
        if inner.Ok? { SequenceStops(ts, inner.value.next + 1, inner.value.captures, items + [Group(n + 1, inner.value.expr)], depth); }
      } else {
        SequenceStops(ts, i + 1, n, items + [Leaf(ts[i])], depth);
      }
    }
  }

  lemma {:induction false} AlternationStops(ts: seq<Token>, i: nat, n: nat, depth: nat)
    requires i <= |ts| && Balanced(ts, i, depth)
    ensures StopsWell(ts, depth, ParseAlternation(ts, i, n), false)
    decreases |ts| - i, 2
  {
    hide ParseSequence, MoreBranches, Balanced;
    SequenceStops(ts, i, n, [], depth);
    var first := ParseSequence(ts, i, n, []);
    if first.Ok? { MoreStops(ts, first.value.next, first.value.captures, [first.value.expr], depth); }
  }

  lemma {:induction false} MoreStops(ts: seq<Token>, i: nat, n: nat, branches: seq<Expr>, depth: nat)
    requires i <= |ts| && branches != [] && Balanced(ts, i, depth)
    requires i < |ts| ==> ts[i].GroupClose? || ts[i].Alternation?
    ensures StopsWell(ts, depth, MoreBranches(ts, i, n, branches), false)
    decreases |ts| - i, 1
  {
    hide ParseSequence;
    if i < |ts| && ts[i].Alternation? {
      SequenceStops(ts, i + 1, n, [], depth);
      var next := ParseSequence(ts, i + 1, n, []);
      if next.Ok? { MoreStops(ts, next.value.next, next.value.captures, branches + [next.value.expr], depth); }
    }
  }

  /** On balanced tokens the only error left is a quantifier with nothing before
      it: no group is unclosed and no input trails. */
  lemma BalancedParses(ts: seq<Token>)
    requires Balanced(ts, 0, 0)
    ensures ParseWhole(ts).Err? ==> ParseWhole(ts).error == MissingOperand
  {
    hide ParseAlternation;
    AlternationStops(ts, 0, 0, 0);
  }

  // ----- Exactly which balanced tokens parse -----

  /** A sequence starts at i. */
  predicate AtStart(ts: seq<Token>, i: nat)
    requires i <= |ts|
  {
    i == 0 || ts[i - 1].GroupOpen? || ts[i - 1].Alternation?
  }

  /** A quantifier with nothing before it. */
  predicate Starved(ts: seq<Token>, j: nat)
    requires j < |ts|
  {
    ts[j].Quantifier? && AtStart(ts, j)
  }

  predicate FedBetween(ts: seq<Token>, i: nat, j: nat)
    requires i <= j <= |ts|
  {
    forall k :: i <= k < j ==> !Starved(ts, k)
  }

  /** The sub-parser fails where a quantifier starves, and only there. */
  ghost predicate FailsForWant(ts: seq<Token>, i: nat, p: Parse)
    requires i <= |ts|
  {
    match p
    case Ok(Parsed(_, j, _)) => i <= j <= |ts| && FedBetween(ts, i, j)
    case Err(_) => !FedBetween(ts, i, |ts|)
  }

  lemma FedJoins(ts: seq<Token>, i: nat, j: nat, k: nat)
    requires i <= j <= k <= |ts|
    ensures FedBetween(ts, i, k) <==> FedBetween(ts, i, j) && FedBetween(ts, j, k)
  {
  }

  lemma OneFed(ts: seq<Token>, i: nat)
    requires i < |ts|
    ensures FedBetween(ts, i, i + 1) <==> !Starved(ts, i)
  {
  }

  lemma {:induction false} SequenceDecides(ts: seq<Token>, i: nat, n: nat, items: seq<Expr>, depth: nat)
    requires i <= |ts| && Balanced(ts, i, depth) && (items == [] <==> AtStart(ts, i))
    ensures FailsForWant(ts, i, ParseSequence(ts, i, n, items))
    decreases |ts| - i, 0
  {
    hide FedBetween, ParseAlternation, Bundle;
    var p := ParseSequence(ts, i, n, items);
    if i == |ts| || ts[i].GroupClose? || ts[i].Alternation? {
      NoneFed(ts, i);
    } else {
      OneFed(ts, i);
      if ts[i].Quantifier? {
        if items == [] {
          FedJoins(ts, i, i + 1, |ts|);
        } else {
          var items' := items[..|items| - 1] + [Repeat(items[|items| - 1], ts[i].kind)];
          SequenceDecides(ts, i + 1, n, items', depth);
          JoinFirst(ts, i, p);
        }
      } else if ts[i].GroupOpen? {
        AlternationDecides(ts, i + 1, n + 1, depth + 1);
        AlternationStops(ts, i + 1, n + 1, depth + 1);
        var inner := ParseAlternation(ts, i + 1, n + 1);
        if inner.Ok? {
          var j := inner.value.next;
          SequenceDecides(ts, j + 1, inner.value.captures, items + [Group(n + 1, inner.value.expr)], depth);
          OneFed(ts, j);
          JoinGroup(ts, i, j, p);
        } else {
          JoinFirst(ts, i, p);
        }
      } else {
        SequenceDecides(ts, i + 1, n, items + [Leaf(ts[i])], depth);
        JoinFirst(ts, i, p);
      }
    }
  }

  lemma NoneFed(ts: seq<Token>, i: nat)
    requires i <= |ts|
    ensures FedBetween(ts, i, i)
  {
  }

  /** One token that is fed, and then the rest. */
  lemma JoinFirst(ts: seq<Token>, i: nat, p: Parse)
    requires i < |ts| && FedBetween(ts, i, i + 1) && FailsForWant(ts, i + 1, p)
    ensures FailsForWant(ts, i, p)
  {
    hide FedBetween;
    FedJoins(ts, i, i + 1, |ts|);
    if p.Ok? { FedJoins(ts, i, i + 1, p.value.next); }
  }

  /** An opening bracket, what is inside, a closing one, and then the rest. */
  lemma JoinGroup(ts: seq<Token>, i: nat, j: nat, p: Parse)
    requires i < j < |ts| && FedBetween(ts, i, i + 1) && FedBetween(ts, i + 1, j) && FedBetween(ts, j, j + 1)
    requires FailsForWant(ts, j + 1, p)
    ensures FailsForWant(ts, i, p)
  {
    hide FedBetween;
    FedJoins(ts, i, i + 1, j);
    FedJoins(ts, i, j, j + 1);
    FedJoins(ts, i, j + 1, |ts|);
    if p.Ok? { FedJoins(ts, i, j + 1, p.value.next); }
  }

  lemma {:induction false} AlternationDecides(ts: seq<Token>, i: nat, n: nat, depth: nat)
    requires i <= |ts| && Balanced(ts, i, depth) && AtStart(ts, i)
    ensures FailsForWant(ts, i, ParseAlternation(ts, i, n))
    decreases |ts| - i, 2
  {
    hide FedBetween, ParseSequence, MoreBranches, Balanced, AtStart;
    SequenceDecides(ts, i, n, [], depth);
    SequenceStops(ts, i, n, [], depth);
    var first := ParseSequence(ts, i, n, []);
    if first.Ok? {
      var j := first.value.next;
      MoreDecide(ts, j, first.value.captures, [first.value.expr], depth);
      var p := ParseAlternation(ts, i, n);
      FedJoins(ts, i, j, |ts|);
      if p.Ok? { FedJoins(ts, i, j, p.value.next); }
    }
  }

  lemma {:induction false} MoreDecide(ts: seq<Token>, i: nat, n: nat, branches: seq<Expr>, depth: nat)
    requires i <= |ts| && branches != [] && Balanced(ts, i, depth)
    requires i < |ts| ==> ts[i].GroupClose? || ts[i].Alternation?
    ensures FailsForWant(ts, i, MoreBranches(ts, i, n, branches))
    decreases |ts| - i, 1
  {
    hide FedBetween, ParseSequence, Choose;
    if i < |ts| && ts[i].Alternation? {
      OneFed(ts, i);
      SequenceDecides(ts, i + 1, n, [], depth);
      SequenceStops(ts, i + 1, n, [], depth);
      var next := ParseSequence(ts, i + 1, n, []);
      var p := MoreBranches(ts, i, n, branches);
      if next.Ok? {
        var j := next.value.next;
        MoreDecide(ts, j, next.value.captures, branches + [next.value.expr], depth);
        FedJoins(ts, i + 1, j, |ts|);
        if p.Ok? { FedJoins(ts, i + 1, j, p.value.next); }
      }
      JoinFirst(ts, i, p);
    } else {
      NoneFed(ts, i);
    }
  }

  /** Balanced tokens parse if and only if no quantifier stands at the start of a
      sequence. */
  lemma ParsesUnlessStarved(ts: seq<Token>)
    requires Balanced(ts, 0, 0)
    ensures ParseWhole(ts).Ok? <==> forall j :: 0 <= j < |ts| ==> !Starved(ts, j)
  {
    hide ParseAlternation, Starved;
    AlternationDecides(ts, 0, 0, 0);
    AlternationStops(ts, 0, 0, 0);
  }

  // ----- Validation -----

  /** closed: the highest capture number known to be usable. */
  function Walk(e: Expr, closed: nat): Result<nat, RegexError>
    decreases Size(e), 0
  {
    match e
    case Leaf(Backreference(k)) => if k == 0 || k > closed then Err(BadBackreference) else Ok(closed)
    case Concat(items) => WalkAll(items, closed)
    case Choice(branches) => WalkBranches(branches, closed)
    case Group(k, inner) =>
      (match Walk(inner, closed)
       case Err(error) => Err(error)
       case Ok(c) => Ok(if c > k then c else k))
    case Repeat(operand, kind) =>
      if kind.Bounded? && kind.max.Some? && kind.min > kind.max.value then Err(BadBound) else Walk(operand, closed)
    case _ => Ok(closed)
  }

  function WalkAll(items: seq<Expr>, closed: nat): Result<nat, RegexError>
    decreases SizeOf(items), 1
  {
    if items == [] then Ok(closed)
    else match WalkAll(items[..|items| - 1], closed)
      case Err(error) => Err(error)
      case Ok(c) => Walk(items[|items| - 1], c)
  }

  function WalkBranches(branches: seq<Expr>, closed: nat): Result<nat, RegexError>
    decreases SizeOf(branches), 1
  {
    if branches == [] then Ok(closed)
    else match WalkBranches(branches[..|branches| - 1], closed)
      case Err(error) => Err(error)
      case Ok(c) =>
        match Walk(branches[|branches| - 1], closed)
        case Err(error) => Err(error)
        case Ok(d) => Ok(if c > d then c else d)
  }

  predicate BadBack(t: Token, before: nat) {
    t.Backreference? && (t.index == 0 || t.index > before)
  }

  function Opens(ts: seq<Token>): nat {
    if ts == [] then 0 else Opens(ts[..|ts| - 1]) + if ts[|ts| - 1].GroupOpen? then 1 else 0
  }

  /** Every back reference names a group that opens to its left, given that `before`
      groups open earlier. */
  ghost predicate RefersLeft(ts: seq<Token>, before: nat) {
    ts != [] ==>
      var n := |ts| - 1;
      RefersLeft(ts[..n], before) && !BadBack(ts[n], before + Opens(ts[..n]))
  }

  lemma {:induction false} RefersAt(ts: seq<Token>, before: nat, i: nat)
    requires RefersLeft(ts, before) && i < |ts|
    ensures !BadBack(ts[i], before + Opens(ts[..i]))
    decreases |ts|
  {
    var n := |ts| - 1;
    if i < n {
      RefersAt(ts[..n], before, i);
      assert ts[..n][..i] == ts[..i];
    }
  }

  lemma {:induction false} OpensJoin(a: seq<Token>, b: seq<Token>)
    ensures Opens(a + b) == Opens(a) + Opens(b)
  {
    if b == [] {
      assert a + b == a;
    } else {
      var n := |b| - 1;
      OpensJoin(a, b[..n]);
      assert (a + b)[..|a| + n] == a + b[..n];
    }
  }

  lemma {:induction false} RefersJoin(a: seq<Token>, b: seq<Token>, before: nat)
    requires RefersLeft(a, before) && RefersLeft(b, before + Opens(a))
    ensures RefersLeft(a + b, before)
    decreases |b|
  {
    hide Opens, BadBack;
    if b == [] {
      assert a + b == a;
    } else {
      var n := |b| - 1;
      RefersJoin(a, b[..n], before);
      assert (a + b)[..|a| + n] == a + b[..n];
      OpensJoin(a, b[..n]);
    }
  }

  lemma OneRefers(t: Token, before: nat)
    requires !BadBack(t, before)
    ensures RefersLeft([t], before)
    ensures Opens([t]) == if t.GroupOpen? then 1 else 0
  {
    assert [t][..0] == [] && Opens([t][..0]) == 0;
  }

  lemma NoneRefers(before: nat)
    ensures RefersLeft([], before) && Opens([]) == 0
  {
  }

  /** The captures of e are numbered from before + 1 on. */
  ghost predicate Numbered(e: Expr, before: nat)
    decreases Size(e), 0
  {
    match e
    case Concat(items) => NumberedAll(items, before)
    case Choice(branches) => NumberedAll(branches, before)
    case Group(k, inner) => k == before + 1 && Numbered(inner, before + 1)
    case Repeat(operand, _) => Numbered(operand, before)
    case _ => true
  }

  ghost predicate NumberedAll(es: seq<Expr>, before: nat)
    decreases SizeOf(es), 1
  {
    es != [] ==>
      NumberedAll(es[..|es| - 1], before)
      && Numbered(es[|es| - 1], before + |CapturesOf(es[..|es| - 1])|)
  }

  lemma {:induction false} FromAt(n: nat, m: nat, k: nat)
    requires n <= m && k < m - n
    ensures |From(n, m)| == m - n && From(n, m)[k] == n + k + 1
    decreases m
  {
    if k < m - n - 1 { FromAt(n, m - 1, k); }
    else if n < m - 1 { FromAt(n, m - 1, 0); }
  }

  lemma FromSize(n: nat, m: nat)
    requires n <= m
    ensures |From(n, m)| == m - n
  {
    if n < m { FromAt(n, m, 0); }
  }

  lemma FromSplits(n: nat, m: nat, a: seq<nat>, b: seq<nat>)
    requires n <= m && a + b == From(n, m)
    ensures n + |a| <= m && a == From(n, n + |a|) && b == From(n + |a|, m)
  {
    FromSize(n, m);
    FromJoins(n, n + |a|, m);
    FromSize(n, n + |a|);
    FromSize(n + |a|, m);
    assert (a + b)[..|a|] == a && (a + b)[|a|..] == b;
    var x, y := From(n, n + |a|), From(n + |a|, m);
    assert (x + y)[..|a|] == x && (x + y)[|a|..] == y;
  }

  lemma {:induction false} InOrderIsNumbered(e: Expr, n: nat, m: nat)
    requires n <= m && Captures(e) == From(n, m)
    ensures Numbered(e, n)
    decreases Size(e), 0
  {
    match e
    case Concat(items) => InOrderAreNumbered(items, n, m);
    case Choice(branches) => InOrderAreNumbered(branches, n, m);
    case Group(k, inner) =>
      FromSplits(n, m, [k], Captures(inner));
      NoneFrom(n);
      assert From(n, n + 1) == [n + 1];
      InOrderIsNumbered(inner, n + 1, m);
    case Repeat(operand, _) => InOrderIsNumbered(operand, n, m);
    case _ =>
  }

  lemma {:induction false} InOrderAreNumbered(es: seq<Expr>, n: nat, m: nat)
    requires n <= m && CapturesOf(es) == From(n, m)
    ensures NumberedAll(es, n)
    decreases SizeOf(es), 1
  {
    if es != [] {
      var rest, last := es[..|es| - 1], es[|es| - 1];
      FromSplits(n, m, CapturesOf(rest), Captures(last));
      InOrderAreNumbered(rest, n, n + |CapturesOf(rest)|);
      InOrderIsNumbered(last, n + |CapturesOf(rest)|, m);
    }
  }

  /** What a walk over part of the tree shows about its tokens. */
  ghost predicate Shown(ts: seq<Token>, captures: nat, closed: nat, before: nat, c: nat) {
    && RefersLeft(ts, before) && Opens(ts) == captures
    && c == if captures == 0 then closed else before + captures
  }

  lemma {:induction false} WalkShows(e: Expr, closed: nat, before: nat)
    requires closed <= before && Numbered(e, before) && Walk(e, closed).Ok? && Plain(e)
    ensures Shown(Flatten(e), |Captures(e)|, closed, before, Walk(e, closed).value)
    decreases Size(e), 0
  {
    hide RefersLeft, Opens, From;
    match e
    case Empty => NoneRefers(before);
    case Leaf(t) => OneRefers(t, before);
    case Concat(items) => WalkShowsAll(items, closed, before);
    case Choice(branches) => WalkShowsBranches(branches, closed, before);
    case Group(k, inner) =>
      WalkShows(inner, closed, before + 1);
      var body := Flatten(inner);
      OneRefers(GroupOpen, before);
      RefersJoin([GroupOpen], body, before);
      OpensJoin([GroupOpen], body);
      OneRefers(GroupClose, before + Opens([GroupOpen] + body));
      RefersJoin([GroupOpen] + body, [GroupClose], before);
      OpensJoin([GroupOpen] + body, [GroupClose]);
    case Repeat(operand, kind) =>
      WalkShows(operand, closed, before);
      var body := Flatten(operand);
      OneRefers(Quantifier(kind), before + Opens(body));
      RefersJoin(body, [Quantifier(kind)], before);
      OpensJoin(body, [Quantifier(kind)]);
  }

  /** Leaves stand for single tokens that are no brackets. */
  predicate Plain(e: Expr)
    decreases Size(e), 0
  {
    match e
    case Leaf(t) => IsBracketFree(t)
    case Concat(items) => AllPlain(items)
    case Choice(branches) => branches != [] && AllPlain(branches)
    case Group(_, inner) => Plain(inner)
    case Repeat(operand, _) => Plain(operand)
    case Empty => true
  }

  predicate AllPlain(es: seq<Expr>)
    decreases SizeOf(es), 1
  {
    es != [] ==> AllPlain(es[..|es| - 1]) && Plain(es[|es| - 1])
  }

  lemma {:induction false} WalkShowsAll(items: seq<Expr>, closed: nat, before: nat)
    requires closed <= before && NumberedAll(items, before) && WalkAll(items, closed).Ok? && AllPlain(items)
    ensures Shown(FlattenAll(items), |CapturesOf(items)|, closed, before, WalkAll(items, closed).value)
    decreases SizeOf(items), 1
  {
    hide RefersLeft, Opens, Flatten, Walk, Numbered, Plain, Captures;
    NoneRefers(before);
    if items != [] {
      var rest, last := items[..|items| - 1], items[|items| - 1];
      WalkShowsAll(rest, closed, before);
      var c := WalkAll(rest, closed).value;
      WalkShows(last, c, before + |CapturesOf(rest)|);
      RefersJoin(FlattenAll(rest), Flatten(last), before);
      OpensJoin(FlattenAll(rest), Flatten(last));
    }
  }

  lemma {:induction false} WalkShowsBranches(branches: seq<Expr>, closed: nat, before: nat)
    requires closed <= before && NumberedAll(branches, before) && WalkBranches(branches, closed).Ok? && AllPlain(branches)
    ensures Shown(FlattenBranches(branches), |CapturesOf(branches)|, closed, before, WalkBranches(branches, closed).value)
    decreases SizeOf(branches), 1
  {
    hide RefersLeft, Opens, Flatten, Walk, Numbered, Plain, Captures;
    NoneRefers(before);
    if branches != [] {
      var rest, last := branches[..|branches| - 1], branches[|branches| - 1];
      WalkShowsBranches(rest, closed, before);
      WalkShows(last, closed, before + |CapturesOf(rest)|);
      if rest == [] {
        assert CapturesOf(rest) == [] && branches[0] == last;
      } else {
        var body := FlattenBranches(rest);
        OneRefers(Alternation, before + Opens(body));
        RefersJoin(body, [Alternation], before);
        OpensJoin(body, [Alternation]);
        RefersJoin(body + [Alternation], Flatten(last), before);
        OpensJoin(body + [Alternation], Flatten(last));
      }
    }
  }

  // ----- What the parser builds is plain -----

  lemma PlainPush(es: seq<Expr>, e: Expr)
    requires AllPlain(es) && Plain(e)
    ensures AllPlain(es + [e])
  {
    assert (es + [e])[..|es|] == es;
  }

  lemma PlainRepeat(es: seq<Expr>, kind: Repetition)
    requires es != [] && AllPlain(es)
    ensures AllPlain(es[..|es| - 1] + [Repeat(es[|es| - 1], kind)])
  {
    PlainPush(es[..|es| - 1], Repeat(es[|es| - 1], kind));
  }

  lemma {:induction false} SequenceIsPlain(ts: seq<Token>, i: nat, n: nat, items: seq<Expr>)
    requires i <= |ts| && AllPlain(items)
    ensures var p := ParseSequence(ts, i, n, items); p.Ok? ==> Plain(p.value.expr)
    decreases |ts| - i, 0
  {
    hide AllPlain, ParseAlternation;
    var p := ParseSequence(ts, i, n, items);
    if p.Ok? {
      if i == |ts| || ts[i].GroupClose? || ts[i].Alternation? {
        if |items| == 1 { OnePlain(items); }
      } else if ts[i].Quantifier? {
        PlainRepeat(items, ts[i].kind);
        SequenceIsPlain(ts, i + 1, n, items[..|items| - 1] + [Repeat(items[|items| - 1], ts[i].kind)]);
      } else if ts[i].GroupOpen? {
        AlternationIsPlain(ts, i + 1, n + 1);
        var inner := ParseAlternation(ts, i + 1, n + 1).value;
        PlainPush(items, Group(n + 1, inner.expr));
        SequenceIsPlain(ts, inner.next + 1, inner.captures, items + [Group(n + 1, inner.expr)]);
      } else {
        PlainPush(items, Leaf(ts[i]));
        SequenceIsPlain(ts, i + 1, n, items + [Leaf(ts[i])]);
      }
    }
  }

  lemma OnePlain(es: seq<Expr>)
    requires |es| == 1
    ensures AllPlain(es) == Plain(es[0])
  {
    assert es[..0] == [] && AllPlain(es[..0]);
  }

  lemma NonePlain()
    ensures AllPlain([])
  {
  }

  lemma {:induction false} AlternationIsPlain(ts: seq<Token>, i: nat, n: nat)
    requires i <= |ts|
    ensures var p := ParseAlternation(ts, i, n); p.Ok? ==> Plain(p.value.expr)
    decreases |ts| - i, 2
  {
    hide AllPlain, Plain, ParseSequence, MoreBranches;
    if ParseAlternation(ts, i, n).Ok? {
      NonePlain();
      SequenceIsPlain(ts, i, n, []);
      var first := ParseSequence(ts, i, n, []).value;
      OnePlain([first.expr]);
      MoreArePlain(ts, first.next, first.captures, [first.expr]);
    }
  }

  lemma {:induction false} MoreArePlain(ts: seq<Token>, i: nat, n: nat, branches: seq<Expr>)
    requires i <= |ts| && branches != [] && AllPlain(branches)
    ensures var p := MoreBranches(ts, i, n, branches); p.Ok? ==> Plain(p.value.expr)
    decreases |ts| - i, 1
  {
    hide AllPlain, ParseSequence;
    if MoreBranches(ts, i, n, branches).Ok? {
      if i < |ts| && ts[i].Alternation? {
        NonePlain();
        SequenceIsPlain(ts, i + 1, n, []);
        var next := ParseSequence(ts, i + 1, n, []).value;
        PlainPush(branches, next.expr);
        MoreArePlain(ts, next.next, next.captures, branches + [next.expr]);
      } else if |branches| == 1 {
        OnePlain(branches);
      }
    }
  }

  function Validate(e: Expr): Option<RegexError> {
    match Walk(e, 0)
    case Ok(_) => None
    case Err(error) => Some(error)
  }

  /** Every back reference that validation accepts names a group opened to its
      left (which may still be open), and never number 0. */
  lemma AcceptedReferencesPointLeft(ts: seq<Token>)
    requires ParseWhole(ts).Ok? && Validate(ParseWhole(ts).value.0).None?
    ensures forall i :: 0 <= i < |ts| && ts[i].Backreference? ==> 1 <= ts[i].index <= Opens(ts[..i])
  {
    hide Walk, Numbered, Plain, Flatten, Captures, Opens, RefersLeft, ParseAlternation;
    var (e, n) := ParseWhole(ts).value;
    ParseIsLossless(ts);
    CapturesInOrder(ts);
    InOrderIsNumbered(e, 0, n);
    AlternationIsPlain(ts, 0, 0);
    WalkShows(e, 0, 0);
    forall i | 0 <= i < |ts| && ts[i].Backreference? ensures 1 <= ts[i].index <= Opens(ts[..i]) {
      RefersAt(ts, 0, i);
    }
  }

  /** The capture count is the number of opening brackets. */
  lemma CapturesAreOpenings(ts: seq<Token>)
    ensures ParseWhole(ts).Ok? ==> ParseWhole(ts).value.1 == Opens(ts)
  {
    hide ParseAlternation, Opens, Slice;
    AlternationCounts(ts, 0, 0);
    assert Slice(ts, 0, |ts|) == ts by { WholeSlice(ts); }
  }

  lemma WholeSlice(ts: seq<Token>)
    ensures Slice(ts, 0, |ts|) == ts
  {
  }

  lemma {:induction false} SequenceCounts(ts: seq<Token>, i: nat, n: nat, items: seq<Expr>)
    requires i <= |ts|
    ensures var p := ParseSequence(ts, i, n, items); p.Ok? ==> p.value.captures == n + Opens(Slice(ts, i, p.value.next))
    decreases |ts| - i, 0
  {
    hide ParseAlternation, Opens, Slice, Bundle;
    var p := ParseSequence(ts, i, n, items);
    if p.Ok? {
      if i == |ts| || ts[i].GroupClose? || ts[i].Alternation? {
        NoneOpens(ts, i);
      } else if ts[i].Quantifier? {
        SequenceCounts(ts, i + 1, n, items[..|items| - 1] + [Repeat(items[|items| - 1], ts[i].kind)]);
        FirstOpens(ts, i, p.value.next);
      } else if ts[i].GroupOpen? {
        AlternationCounts(ts, i + 1, n + 1);
        var inner := ParseAlternation(ts, i + 1, n + 1).value;
        SequenceCounts(ts, inner.next + 1, inner.captures, items + [Group(n + 1, inner.expr)]);
        FirstOpens(ts, i, p.value.next);
        FirstOpens(ts, inner.next, p.value.next);
        SliceOpens(ts, i + 1, inner.next, p.value.next);
      } else {
        SequenceCounts(ts, i + 1, n, items + [Leaf(ts[i])]);
        FirstOpens(ts, i, p.value.next);
      }
    }
  }

  lemma NoneOpens(ts: seq<Token>, i: nat)
    requires i <= |ts|
    ensures Opens(Slice(ts, i, i)) == 0
  {
  }

  lemma SliceOpens(ts: seq<Token>, i: nat, j: nat, k: nat)
    requires i <= j <= k <= |ts|
    ensures Opens(Slice(ts, i, k)) == Opens(Slice(ts, i, j)) + Opens(Slice(ts, j, k))
  {
    SliceJoin(ts, i, j, k);
    OpensJoin(Slice(ts, i, j), Slice(ts, j, k));
  }

  lemma FirstOpens(ts: seq<Token>, i: nat, j: nat)
    requires i < j <= |ts|
    ensures Opens(Slice(ts, i, j)) == (if ts[i].GroupOpen? then 1 else 0) + Opens(Slice(ts, i + 1, j))
  {
    SliceFirst(ts, i, j);
    OpensJoin([ts[i]], Slice(ts, i + 1, j));
    assert [ts[i]][..0] == [] && Opens([ts[i]][..0]) == 0;
  }

  lemma {:induction false} AlternationCounts(ts: seq<Token>, i: nat, n: nat)
    requires i <= |ts|
    ensures var p := ParseAlternation(ts, i, n); p.Ok? ==> p.value.captures == n + Opens(Slice(ts, i, p.value.next))
    decreases |ts| - i, 2
  {
    hide ParseSequence, MoreBranches, Opens, Slice;
    var p := ParseAlternation(ts, i, n);
    if p.Ok? {
      SequenceCounts(ts, i, n, []);
      var first := ParseSequence(ts, i, n, []).value;
      MoreCounts(ts, first.next, first.captures, [first.expr]);
      SliceOpens(ts, i, first.next, p.value.next);
    }
  }

  lemma {:induction false} MoreCounts(ts: seq<Token>, i: nat, n: nat, branches: seq<Expr>)
    requires i <= |ts| && branches != []
    ensures var p := MoreBranches(ts, i, n, branches); p.Ok? ==> p.value.captures == n + Opens(Slice(ts, i, p.value.next))
    decreases |ts| - i, 1
  {
    hide ParseSequence, Opens, Slice, Choose;
    var p := MoreBranches(ts, i, n, branches);
    if p.Ok? {
      if i < |ts| && ts[i].Alternation? {
        SequenceCounts(ts, i + 1, n, []);
        var next := ParseSequence(ts, i + 1, n, []).value;
        MoreCounts(ts, next.next, next.captures, branches + [next.expr]);
        FirstOpens(ts, i, p.value.next);
        SliceOpens(ts, i + 1, next.next, p.value.next);
      } else {
        NoneOpens(ts, i);
      }
    }
  }

  // ----- Which engine runs the pattern -----

  predicate NeedsBacktracking(t: Token) {
    t.Backreference? || t.Assert?
  }

  datatype Backend = Automaton | Backtracking

  function ChooseBackend(e: Expr): Backend
    decreases Size(e), 0
  {
    match e
    case Leaf(t) => if NeedsBacktracking(t) then Backtracking else Automaton
    case Concat(items) => FirstBacktracking(items)
    case Choice(branches) => FirstBacktracking(branches)
    case Group(_, inner) => ChooseBackend(inner)
    case Repeat(operand, _) => ChooseBackend(operand)
    case Empty => Automaton
  }

  function FirstBacktracking(es: seq<Expr>): Backend
    decreases SizeOf(es), 1
  {
    if es == [] then Automaton
    else if FirstBacktracking(es[..|es| - 1]).Backtracking? then Backtracking
    else ChooseBackend(es[|es| - 1])
  }

  predicate AnyBacktracking(ts: seq<Token>) {
    exists i :: 0 <= i < |ts| && NeedsBacktracking(ts[i])
  }

  lemma AnyJoin(a: seq<Token>, b: seq<Token>)
    ensures AnyBacktracking(a + b) == (AnyBacktracking(a) || AnyBacktracking(b))
  {
    if AnyBacktracking(a) {
      var i :| 0 <= i < |a| && NeedsBacktracking(a[i]);
      assert (a + b)[i] == a[i];
    } else if AnyBacktracking(b) {
      var i :| 0 <= i < |b| && NeedsBacktracking(b[i]);
      assert (a + b)[|a| + i] == b[i];
    }
  }

  lemma AnyOne(t: Token)
    ensures AnyBacktracking([t]) == NeedsBacktracking(t)
  {
    assert [t][0] == t;
  }

  lemma {:induction false} BackendOf(e: Expr)
    ensures ChooseBackend(e).Backtracking? == AnyBacktracking(Flatten(e))
    decreases Size(e), 0
  {
    hide AnyBacktracking;
    match e
    case Empty => assert !AnyBacktracking([]) by { NoneBacktracks(); }
    case Leaf(t) => AnyOne(t);
    case Concat(items) => BackendOfAll(items);
    case Choice(branches) => BackendOfBranches(branches);
    case Group(_, inner) =>
      BackendOf(inner);
      AnyOne(GroupOpen);
      AnyOne(GroupClose);
      AnyJoin([GroupOpen], Flatten(inner));
      AnyJoin([GroupOpen] + Flatten(inner), [GroupClose]);
    case Repeat(operand, kind) =>
      BackendOf(operand);
      AnyOne(Quantifier(kind));
      AnyJoin(Flatten(operand), [Quantifier(kind)]);
  }

  lemma NoneBacktracks()
    ensures !AnyBacktracking([])
  {
  }

  lemma {:induction false} BackendOfAll(es: seq<Expr>)
    ensures FirstBacktracking(es).Backtracking? == AnyBacktracking(FlattenAll(es))
    decreases SizeOf(es), 1
  {
    hide AnyBacktracking, Flatten, ChooseBackend;
    NoneBacktracks();
    if es != [] {
      var n := |es| - 1;
      BackendOfAll(es[..n]);
      BackendOf(es[n]);
      AnyJoin(FlattenAll(es[..n]), Flatten(es[n]));
    }
  }

  lemma {:induction false} BackendOfBranches(es: seq<Expr>)
    ensures FirstBacktracking(es).Backtracking? == AnyBacktracking(FlattenBranches(es))
    decreases SizeOf(es), 1
  {
    hide AnyBacktracking, Flatten, ChooseBackend;
    NoneBacktracks();
    if es != [] {
      var n := |es| - 1;
      BackendOfBranches(es[..n]);
      BackendOf(es[n]);
      if n == 0 {
        assert es[..0] == [];
      } else {
        AnyOne(Alternation);
        AnyJoin(FlattenBranches(es[..n]), [Alternation]);
        AnyJoin(FlattenBranches(es[..n]) + [Alternation], Flatten(es[n]));
      }
    }
  }

  /** The backtracking engine is chosen exactly when the pattern holds a back
      reference or an assertion. */
  lemma BackendByTokens(ts: seq<Token>)
    requires ParseWhole(ts).Ok?
    ensures ChooseBackend(ParseWhole(ts).value.0).Backtracking? <==>
      exists i :: 0 <= i < |ts| && (ts[i].Backreference? || ts[i].Assert?)
  {
    hide ParseWhole, Flatten, ChooseBackend;
    ParseIsLossless(ts);
    BackendOf(ParseWhole(ts).value.0);
    if AnyBacktracking(ts) {
      var i :| 0 <= i < |ts| && NeedsBacktracking(ts[i]);
      assert ts[i].Backreference? || ts[i].Assert?;
    } else {
      forall i | 0 <= i < |ts| ensures !ts[i].Backreference? && !ts[i].Assert? {
        assert !NeedsBacktracking(ts[i]);
      }
    }
  }

  // ----- The 16-bit counter -----

  const SHORTS: nat := 0x1_0000

  type Short = x: nat | x < SHORTS

  /** The tree with its capture numbers as 16 bits hold them. */
  function Wrap(e: Expr): Expr
    decreases Size(e), 0
  {
    match e
    case Concat(items) => Concat(WrapAll(items))
    case Choice(branches) => Choice(WrapAll(branches))
    case Group(k, inner) => Group(k % SHORTS, Wrap(inner))
    case Repeat(operand, kind) => Repeat(Wrap(operand), kind)
    case _ => e
  }

  function WrapAll(es: seq<Expr>): (r: seq<Expr>)
    ensures |r| == |es|
    decreases SizeOf(es), 1
  {
    if es == [] then [] else WrapAll(es[..|es| - 1]) + [Wrap(es[|es| - 1])]
  }

  lemma WrapPush(es: seq<Expr>, e: Expr)
    ensures WrapAll(es + [e]) == WrapAll(es) + [Wrap(e)]
  {
    assert (es + [e])[..|es|] == es;
  }

  lemma WrapRepeat(es: seq<Expr>, kind: Repetition)
    requires es != []
    ensures var n, w := |es| - 1, WrapAll(es);
      WrapAll(es[..n] + [Repeat(es[n], kind)]) == w[..n] + [Repeat(w[n], kind)]
  {
    WrapPush(es[..|es| - 1], Repeat(es[|es| - 1], kind));
  }

  lemma WrapBundle(es: seq<Expr>)
    ensures Wrap(Bundle(es)) == Bundle(WrapAll(es))
  {
    if |es| == 1 { assert es[..0] == [] && WrapAll(es[..0]) == []; }
  }

  lemma WrapChoose(es: seq<Expr>)
    requires es != []
    ensures Wrap(Choose(es)) == Choose(WrapAll(es))
  {
    if |es| == 1 { assert es[..0] == [] && WrapAll(es[..0]) == []; }
  }

  /** Wrapped numbers or not, the tree stands for the same tokens. */
  lemma {:induction false} WrappedFlattens(e: Expr)
    ensures Flatten(Wrap(e)) == Flatten(e)
    decreases Size(e), 0
  {
    match e
    case Concat(items) => WrappedFlattensAll(items);
    case Choice(branches) => WrappedFlattensBranches(branches);
    case Group(_, inner) => WrappedFlattens(inner);
    case Repeat(operand, _) => WrappedFlattens(operand);
    case _ =>
  }

  lemma {:induction false} WrappedFlattensAll(es: seq<Expr>)
    ensures FlattenAll(WrapAll(es)) == FlattenAll(es)
    decreases SizeOf(es), 1
  {
    if es != [] {
      var n := |es| - 1;
      WrappedFlattensAll(es[..n]);
      WrappedFlattens(es[n]);
      hide Flatten, Wrap;
      assert WrapAll(es)[..n] == WrapAll(es[..n]);
    }
  }

  lemma {:induction false} WrappedFlattensBranches(es: seq<Expr>)
    ensures FlattenBranches(WrapAll(es)) == FlattenBranches(es)
    decreases SizeOf(es), 1
  {
    if es != [] {
      var n := |es| - 1;
      WrappedFlattensBranches(es[..n]);
      WrappedFlattens(es[n]);
      hide Flatten, Wrap;
      assert WrapAll(es)[..n] == WrapAll(es[..n]);
    }
  }

  predicate AllShort(ks: seq<nat>) {
    forall i :: 0 <= i < |ks| ==> ks[i] < SHORTS
  }

  lemma ShortJoin(a: seq<nat>, b: seq<nat>)
    requires AllShort(a + b)
    ensures AllShort(a) && AllShort(b)
  {
    assert forall i :: 0 <= i < |a| ==> (a + b)[i] == a[i];
    assert forall i :: 0 <= i < |b| ==> (a + b)[|a| + i] == b[i];
  }

  lemma {:induction false} SmallNumbersStay(e: Expr)
    requires AllShort(Captures(e))
    ensures Wrap(e) == e
    decreases Size(e), 0
  {
    hide AllShort;
    match e
    case Concat(items) => AllSmallStay(items);
    case Choice(branches) => AllSmallStay(branches);
    case Group(k, inner) =>
      ShortJoin([k], Captures(inner));
      assert k < SHORTS by { OneShort(k); }
      SmallNumbersStay(inner);
    case Repeat(operand, _) => SmallNumbersStay(operand);
    case _ =>
  }

  lemma OneShort(k: nat)
    requires AllShort([k])
    ensures k < SHORTS
  {
    assert [k][0] == k;
  }

  lemma {:induction false} AllSmallStay(es: seq<Expr>)
    requires AllShort(CapturesOf(es))
    ensures WrapAll(es) == es
    decreases SizeOf(es), 1
  {
    hide AllShort, Captures, Wrap;
    if es != [] {
      var n := |es| - 1;
      ShortJoin(CapturesOf(es[..n]), Captures(es[n]));
      AllSmallStay(es[..n]);
      SmallNumbersStay(es[n]);
      assert es == es[..n] + [es[n]];
    }
  }

  /** The numbers as 16 bits hold them. */
  function WrapNumbers(ks: seq<nat>): (r: seq<nat>)
    ensures |r| == |ks| && forall i :: 0 <= i < |ks| ==> r[i] == ks[i] % SHORTS
  {
    seq(|ks|, (i: nat) requires i < |ks| => ks[i] % SHORTS)
  }

  lemma WrapNumbersJoin(a: seq<nat>, b: seq<nat>)
    ensures WrapNumbers(a + b) == WrapNumbers(a) + WrapNumbers(b)
  {
  }

  /** Wrapping the tree wraps its capture numbers. */
  lemma {:induction false} WrappedCaptures(e: Expr)
    ensures Captures(Wrap(e)) == WrapNumbers(Captures(e))
    decreases Size(e), 0
  {
    hide WrapNumbers;
    match e
    case Concat(items) => AllWrappedCaptures(items);
    case Choice(branches) => AllWrappedCaptures(branches);
    case Group(k, inner) =>
      WrappedCaptures(inner);
      WrapNumbersJoin([k], Captures(inner));
      assert WrapNumbers([k]) == [k % SHORTS];
    case Repeat(operand, _) => WrappedCaptures(operand);
    case _ => assert WrapNumbers([]) == [];
  }

  lemma {:induction false} AllWrappedCaptures(es: seq<Expr>)
    ensures CapturesOf(WrapAll(es)) == WrapNumbers(CapturesOf(es))
    decreases SizeOf(es), 1
  {
    hide WrapNumbers, Captures, Wrap;
    if es == [] {
      assert WrapNumbers([]) == [];
    } else {
      var n := |es| - 1;
      AllWrappedCaptures(es[..n]);
      WrappedCaptures(es[n]);
      WrapNumbersJoin(CapturesOf(es[..n]), Captures(es[n]));
      CapturesPush(WrapAll(es[..n]), Wrap(es[n]));
    }
  }

  /** The counter keeps the true numbers if and only if there are fewer than 65536
      groups. */
  lemma FewGroupsStay(ts: seq<Token>)
    requires ParseWhole(ts).Ok?
    ensures Wrap(ParseWhole(ts).value.0) == ParseWhole(ts).value.0 <==> Opens(ts) < SHORTS
    ensures ParseWhole(ts).value.1 % SHORTS == ParseWhole(ts).value.1 <==> Opens(ts) < SHORTS
  {
    hide ParseAlternation, Captures, Wrap, Opens, From, WrapNumbers;
    var (e, n) := ParseWhole(ts).value;
    CapturesInOrder(ts);
    CapturesAreOpenings(ts);
    FromSize(0, n);
    if n < SHORTS {
      forall i | 0 <= i < |From(0, n)| ensures From(0, n)[i] < SHORTS { FromAt(0, n, i); }
      SmallNumbersStay(e);
    } else {
      WrappedCaptures(e);
      FromAt(0, n, SHORTS - 1);
      assert Captures(Wrap(e))[SHORTS - 1] == 0;
    }
  }

  // ----- A pattern with 65536 groups -----

  /** n empty groups, one after the other. */
  function EmptyGroups(n: nat): (ts: seq<Token>)
    ensures |ts| == 2 * n
    ensures forall i :: 0 <= i < |ts| ==> ts[i] == if i % 2 == 0 then GroupOpen else GroupClose
  {
    if n == 0 then [] else EmptyGroups(n - 1) + [GroupOpen, GroupClose]
  }

  lemma {:induction false} EmptyGroupsBalance(n: nat, i: nat)
    requires i <= n
    ensures Balanced(EmptyGroups(n), 2 * i, 0)
    decreases n - i
  {
    hide EmptyGroups;
    if i < n {
      EmptyGroupsBalance(n, i + 1);
      assert Balanced(EmptyGroups(n), 2 * i + 1, 1);
    }
  }

  lemma {:induction false} EmptyGroupsOpen(n: nat)
    ensures Opens(EmptyGroups(n)) == n
  {
    if n > 0 {
      EmptyGroupsOpen(n - 1);
      OpensJoin(EmptyGroups(n - 1), [GroupOpen, GroupClose]);
      assert [GroupOpen, GroupClose][..1] == [GroupOpen] && [GroupOpen][..0] == [];
      assert Opens([GroupOpen, GroupClose]) == 1;
    }
  }

  /** With 65536 groups the last one gets the number 0 and none are reported. */
  lemma TooManyGroupsWrap()
    ensures var ts := EmptyGroups(SHORTS);
      && Opens(ts) == SHORTS && ParseWhole(ts).Ok?
      && var (e, n) := ParseWhole(ts).value;
         && |Captures(e)| == SHORTS && Captures(e)[SHORTS - 1] == SHORTS
         && |Captures(Wrap(e))| == SHORTS && Captures(Wrap(e))[SHORTS - 1] == 0 && n % SHORTS == 0
  {
    hide ParseWhole, EmptyGroups, Opens, Balanced, Captures, Wrap, From, WrapNumbers;
    var ts := EmptyGroups(SHORTS);
    EmptyGroupsOpen(SHORTS);
    EmptyGroupsBalance(SHORTS, 0);
    forall j | 0 <= j < |ts| ensures !Starved(ts, j) { assert !ts[j].Quantifier?; }
    ParsesUnlessStarved(ts);
    CapturesInOrder(ts);
    CapturesAreOpenings(ts);
    FromAt(0, SHORTS, SHORTS - 1);
    WrappedCaptures(ParseWhole(ts).value.0);
  }

  // ----- The parser over its cursor -----

  /** What stands before i opens this many groups. */
  ghost function OpenedAt(ts: seq<Token>, i: nat): nat
    requires i <= |ts|
  {
    Opens(ts[..i])
  }

  lemma OpenedNext(ts: seq<Token>, i: nat)
    requires i < |ts|
    ensures OpenedAt(ts, i + 1) == OpenedAt(ts, i) + if ts[i].GroupOpen? then 1 else 0
  {
    assert ts[..i + 1][..i] == ts[..i];
  }

  lemma OpenedThen(ts: seq<Token>, i: nat, j: nat)
    requires i <= j <= |ts|
    ensures OpenedAt(ts, j) == OpenedAt(ts, i) + Opens(Slice(ts, i, j))
  {
    OpensJoin(ts[..i], ts[i..j]);
    assert ts[..i] + ts[i..j] == ts[..j];
  }

  /** A sub-parser that starts with the right count ends with it. */
  lemma CountsStayRight(ts: seq<Token>, i: nat)
    requires i <= |ts|
    ensures var p := ParseSequence(ts, i, OpenedAt(ts, i), []); p.Ok? ==> p.value.captures == OpenedAt(ts, p.value.next)
    ensures var p := ParseAlternation(ts, i, OpenedAt(ts, i)); p.Ok? ==> p.value.captures == OpenedAt(ts, p.value.next)
  {
    hide ParseSequence, ParseAlternation, Opens, OpenedAt, Slice;
    SequenceCounts(ts, i, OpenedAt(ts, i), []);
    AlternationCounts(ts, i, OpenedAt(ts, i));
    var p, q := ParseSequence(ts, i, OpenedAt(ts, i), []), ParseAlternation(ts, i, OpenedAt(ts, i));
    if p.Ok? { OpenedThen(ts, i, p.value.next); }
    if q.Ok? { OpenedThen(ts, i, q.value.next); }
  }

  class TokenParser {
    const tokens: seq<Token>
    var index: nat
    var nextCapture: Short

    constructor (tokens: seq<Token>)
      ensures this.tokens == tokens && index == 0 && nextCapture == 0 && Valid()
    {
      this.tokens := tokens;
      index := 0;
      nextCapture := 0;
    }

    /** The counter holds the number of groups opened so far, as far as 16 bits
        can. */
    ghost predicate Valid()
      reads this
    {
      index <= |tokens| && nextCapture == OpenedAt(tokens, index) % SHORTS
    }

    ghost predicate Follows(r: Result<Expr, RegexError>, p: Parse)
      reads this
    {
      && (p.Ok? ==> r == Ok(Wrap(p.value.expr)) && index == p.value.next)
      && (p.Err? ==> r == Err(p.error))
    }

    method Skip()
      requires Valid() && index < |tokens|
      modifies this
      ensures Valid() && index == old(index) + 1
    {
      hide OpenedAt;
      OpenedNext(tokens, index);
      if tokens[index].GroupOpen? { nextCapture := (nextCapture + 1) % SHORTS; }
      index := index + 1;
    }

    method ParseGroup() returns (r: Result<Expr, RegexError>)
      requires Valid() && index < |tokens| && tokens[index].GroupOpen?
      modifies this
      ensures r.Ok? ==> Valid()
      ensures Follows(r, GroupFrom(tokens, old(index), OpenedAt(tokens, old(index))))
      decreases |tokens| - index, 0
    {
      hide OpenedAt, ParseAlternation;
      OpenedNext(tokens, index);
      Skip();
      var captureIndex := nextCapture;
      var inner := ParseBranches();
      if inner.Err? { return inner; }
      if index == |tokens| || !tokens[index].GroupClose? { return Err(UnclosedGroup); }
      Skip();
      r := Ok(Group(captureIndex, inner.value));
    }

    method ParseItems() returns (r: Result<Expr, RegexError>)
      requires Valid()
      modifies this
      ensures r.Ok? ==> Valid()
      ensures Follows(r, ParseSequence(tokens, old(index), OpenedAt(tokens, old(index)), []))
      decreases |tokens| - index, 1
    {
      hide OpenedAt, Wrap, WrapAll, Bundle, ParseAlternation;
      var items: seq<Expr> := [];
      ghost var numbered: seq<Expr> := [];
      NoneWrapped();
      while index < |tokens| && !tokens[index].GroupClose? && !tokens[index].Alternation?
        invariant Valid() && old(index) <= index && items == WrapAll(numbered)
        invariant ParseSequence(tokens, index, OpenedAt(tokens, index), numbered)
               == ParseSequence(tokens, old(index), OpenedAt(tokens, old(index)), [])
        decreases |tokens| - index
      {
        var token := tokens[index];
        OpenedNext(tokens, index);
        if token.Quantifier? {
          Skip();
          if items == [] { return Err(MissingOperand); }
          WrapRepeat(numbered, token.kind);
          items := items[..|items| - 1] + [Repeat(items[|items| - 1], token.kind)];
          numbered := numbered[..|numbered| - 1] + [Repeat(numbered[|numbered| - 1], token.kind)];
        } else if token.GroupOpen? {
          ghost var g := GroupFrom(tokens, index, OpenedAt(tokens, index));
          GroupCountsRight(tokens, index);
          var group := ParseGroup();
          if group.Err? { return group; }
          WrapPush(numbered, g.value.expr);
          items := items + [group.value];
          numbered := numbered + [g.value.expr];
        } else {
          Skip();
          WrapPush(numbered, Leaf(token));
          LeafStays(token);
          items := items + [Leaf(token)];
          numbered := numbered + [Leaf(token)];
        }
      }
      WrapBundle(numbered);
      r := Ok(Bundle(items));
    }

    method ParseBranches() returns (r: Result<Expr, RegexError>)
      requires Valid()
      modifies this
      ensures r.Ok? ==> Valid()
      ensures Follows(r, ParseAlternation(tokens, old(index), OpenedAt(tokens, old(index))))
      decreases |tokens| - index, 2
    {
      hide OpenedAt, Wrap, WrapAll, Choose, ParseSequence;
      CountsStayRight(tokens, index);
      ghost var p := ParseSequence(tokens, index, OpenedAt(tokens, index), []);
      var first := ParseItems();
      if first.Err? { return first; }
      var branches := [first.value];
      ghost var numbered := [p.value.expr];
      NoneWrapped();
      WrapPush([], p.value.expr);
      assert [] + numbered == numbered && [] + branches == branches;
      while index < |tokens| && tokens[index].Alternation?
        invariant Valid() && old(index) <= index && numbered != [] && branches == WrapAll(numbered)
        invariant MoreBranches(tokens, index, OpenedAt(tokens, index), numbered)
               == ParseAlternation(tokens, old(index), OpenedAt(tokens, old(index)))
        decreases |tokens| - index
      {
        OpenedNext(tokens, index);
        Skip();
        CountsStayRight(tokens, index);
        ghost var q := ParseSequence(tokens, index, OpenedAt(tokens, index), []);
        var next := ParseItems();
        if next.Err? { return next; }
        WrapPush(numbered, q.value.expr);
        branches := branches + [next.value];
        numbered := numbered + [q.value.expr];
      }
      WrapChoose(numbered);
      r := Ok(Choose(branches));
    }

    /** The tree and the capture count, both as far as 16 bits can tell. */
    method Parse() returns (r: Result<(Expr, nat), RegexError>)
      requires Valid() && index == 0
      modifies this
      ensures r == match ParseWhole(tokens)
        case Err(error) => Err(error)
        case Ok((e, n)) => Ok((Wrap(e), n % SHORTS))
    {
      hide Wrap, ParseAlternation;
      assert OpenedAt(tokens, 0) == 0;
      CountsStayRight(tokens, 0);
      var expr := ParseBranches();
      if expr.Err? { return Err(expr.error); }
      if index != |tokens| { return Err(TrailingInput); }
      r := Ok((expr.value, nextCapture));
    }
  }

  lemma NoneWrapped()
    ensures WrapAll([]) == []
  {
  }

  lemma LeafStays(t: Token)
    ensures Wrap(Leaf(t)) == Leaf(t)
  {
  }

  lemma GroupCountsRight(ts: seq<Token>, i: nat)
    requires i < |ts| && ts[i].GroupOpen?
    ensures var g := GroupFrom(ts, i, OpenedAt(ts, i));
      g.Ok? ==> i < g.value.next <= |ts| && g.value.captures == OpenedAt(ts, g.value.next)
  {
    hide OpenedAt, ParseAlternation;
    OpenedNext(ts, i);
    CountsStayRight(ts, i + 1);
    var g := GroupFrom(ts, i, OpenedAt(ts, i));
    if g.Ok? { OpenedNext(ts, g.value.next - 1); }
  }

  function GroupFrom(ts: seq<Token>, i: nat, n: nat): Parse
    requires i < |ts|
  {
    match ParseAlternation(ts, i + 1, n + 1)
    case Err(e) => Err(e)
    case Ok(Parsed(inner, j, m)) => if j < |ts| && ts[j].GroupClose? then Ok(Parsed(Group(n + 1, inner), j + 1, m)) else Err(UnclosedGroup)
  }
}
