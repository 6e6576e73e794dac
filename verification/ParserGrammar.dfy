/** The expression grammar, and that the parser accepts exactly what it derives.

      or      ::=  and  |  or  -o  and
      and     ::=  not  |  and  [-a]  not
      not     ::=  primary  |  !  not
      primary ::=  atom  |  (  or  )                                              */
module ParserGrammar {
  import opened Basics
  import opened Parser

  // ----- The grammar -----

  /** The tokens from i up to j are an atom with its arguments. */
  ghost predicate AtomAt(ts: seq<string>, i: nat, j: nat, a: Atom, accepts: Accepts) {
    i < j <= |ts| && ShapeOf(ts[i]).Some? &&
    var (shape, flag) := ShapeOf(ts[i]).value;
    match shape
    case NoArgs => j == i + 1 && a == Bare(flag)
    case ArgsOne => j == i + 2 && a == OneArg(flag, ts[i + 1]) && accepts(flag, ts[i + 1])
    case ArgsTwo => j == i + 3 && a == TwoArgs(flag, ts[i + 1], ts[i + 2])
    case ExecLike =>
      && j >= i + 2 && (ts[j - 1] == ";" || ts[j - 1] == "+") && (forall k :: i < k < j - 1 ==> ts[k] != ";" && ts[k] != "+")
      && a == Exec(flag, ts[i + 1..j - 1], ts[j - 1] == "+")
  }

  ghost predicate DerivesPrimary(ts: seq<string>, i: nat, j: nat, e: Expr, accepts: Accepts)
    decreases j - i, 0
  {
    || (e.Leaf? && AtomAt(ts, i, j, e.atom, accepts))
    || (i + 2 < j <= |ts| && ts[i] == "(" && ts[j - 1] == ")" && DerivesOr(ts, i + 1, j - 1, e, accepts))
  }

  ghost predicate DerivesNot(ts: seq<string>, i: nat, j: nat, e: Expr, accepts: Accepts)
    decreases j - i, 1
  {
    || DerivesPrimary(ts, i, j, e, accepts)
    || (i < j <= |ts| && (ts[i] == "!" || ts[i] == "-not") && e.Not? && DerivesNot(ts, i + 1, j, e.inner, accepts))
  }

  /** Where the operand after an optional and-token begins. */
  function AfterAnd(ts: seq<string>, i: nat): nat {
    if i < |ts| && (ts[i] == "-a" || ts[i] == "-and") then i + 1 else i
  }

  /** More operands of a conjunction. */
  ghost predicate DerivesMore(ts: seq<string>, i: nat, j: nat, items: seq<Expr>, accepts: Accepts)
    decreases j - i, 2
  {
    if items == [] then i == j
    else exists k ::
      && AfterAnd(ts, i) < k <= j <= |ts|
      && DerivesNot(ts, AfterAnd(ts, i), k, items[0], accepts) && DerivesMore(ts, k, j, items[1..], accepts)
  }

  /** One operand stands for itself, several are one conjunction. */
  ghost predicate DerivesAnd(ts: seq<string>, i: nat, j: nat, e: Expr, accepts: Accepts)
    decreases j - i, 3
  {
    exists items: seq<Expr>, k: nat :: Conjoins(ts, i, j, k, items, e, accepts)
  }

  ghost predicate Conjoins(ts: seq<string>, i: nat, j: nat, k: nat, items: seq<Expr>, e: Expr, accepts: Accepts)
    decreases j - i, 2
  {
    && items != [] && (if |items| == 1 then e == items[0] else e == And(items))
    && i < k <= j <= |ts| && DerivesNot(ts, i, k, items[0], accepts) && DerivesMore(ts, k, j, items[1..], accepts)
  }

  ghost predicate DerivesOr(ts: seq<string>, i: nat, j: nat, e: Expr, accepts: Accepts)
    decreases j - i, 4
  {
    || DerivesAnd(ts, i, j, e, accepts)
    || exists k :: i < k < j <= |ts| && Disjoins(ts, i, j, k, e, accepts)
  }

  ghost predicate Disjoins(ts: seq<string>, i: nat, j: nat, k: nat, e: Expr, accepts: Accepts)
    requires i < k < j <= |ts|
    decreases j - i, 3
  {
    && e.Or? && (ts[k] == "-o" || ts[k] == "-or")
    && DerivesOr(ts, i, k, e.left, accepts) && DerivesAnd(ts, k + 1, j, e.right, accepts)
  }

  // ----- Everything parsed is derived -----

  lemma {:induction false} ExecIsDerived(ts: seq<string>, i: nat, k: nat, flag: string)
    requires i < k <= |ts| && (forall n :: i < n < k ==> ts[n] != ";" && ts[n] != "+")
    ensures var p := TakeExec(ts, k, flag, ts[i + 1..k]);
      p.Ok? ==> var j := p.value.next;
        && i + 2 <= j <= |ts| && (ts[j - 1] == ";" || ts[j - 1] == "+") && (forall n :: i < n < j - 1 ==> ts[n] != ";" && ts[n] != "+")
        && p.value.expr == Leaf(Exec(flag, ts[i + 1..j - 1], ts[j - 1] == "+"))
    decreases |ts| - k
  {
    if k < |ts| && ts[k] != ";" && ts[k] != "+" {
      assert ts[i + 1..k] + [ts[k]] == ts[i + 1..k + 1];
      ExecIsDerived(ts, i, k + 1, flag);
    }
  }

  lemma AtomIsDerived(ts: seq<string>, i: nat, accepts: Accepts)
    requires i <= |ts| && ParseAtom(ts, i, accepts).Ok?
    ensures var p := ParseAtom(ts, i, accepts).value; p.expr.Leaf? && AtomAt(ts, i, p.next, p.expr.atom, accepts)
  {
    hide ShapeOf;
    if ShapeOf(ts[i]).value.0.ExecLike? {
      assert ts[i + 1..i + 1] == [];
      ExecIsDerived(ts, i, i + 1, ShapeOf(ts[i]).value.1);
    }
  }

  lemma {:induction false} PrimaryIsDerived(ts: seq<string>, i: nat, accepts: Accepts)
    requires i <= |ts| && ParsePrimary(ts, i, accepts).Ok?
    ensures var p := ParsePrimary(ts, i, accepts).value; DerivesPrimary(ts, i, p.next, p.expr, accepts)
    decreases |ts| - i, 1
  {
    hide ShapeOf, ParseAtom, ParseOr, AtomAt, DerivesOr;
    if ts[i] == "(" {
      OrIsDerived(ts, i + 1, accepts);
    } else {
      AtomIsDerived(ts, i, accepts);
    }
  }

  lemma {:induction false} NotIsDerived(ts: seq<string>, i: nat, accepts: Accepts)
    requires i <= |ts| && ParseNot(ts, i, accepts).Ok?
    ensures var p := ParseNot(ts, i, accepts).value; DerivesNot(ts, i, p.next, p.expr, accepts)
    decreases |ts| - i, 2
  {
    hide ParsePrimary, DerivesPrimary;
    if At(ts, i, IsNot) { NotIsDerived(ts, i + 1, accepts); } else { PrimaryIsDerived(ts, i, accepts); }
  }

  /** items: those before i; the rest are derived from i on. */
  lemma {:induction false} AndRestIsDerived(ts: seq<string>, i: nat, items: seq<Expr>, accepts: Accepts) returns (more: seq<Expr>)
    requires i <= |ts| && items != [] && AndRest(ts, i, items, accepts).Ok?
    ensures var p := AndRest(ts, i, items, accepts).value;
      p.expr == Conjunction(items + more) && DerivesMore(ts, i, p.next, more, accepts)
    decreases |ts| - i, 3
  {
    hide ParseNot, DerivesNot, Conjunction;
    more := [];
    if StartsPrimary(ts, i) {
      var j := AfterAnd(ts, i);
      var p := ParseNot(ts, j, accepts).value;
      NotIsDerived(ts, j, accepts);
      var rest := AndRestIsDerived(ts, p.next, items + [p.expr], accepts);
      more := [p.expr] + rest;
      assert items + more == items + [p.expr] + rest && more[1..] == rest;
    } else {
      assert items + more == items;
    }
  }

  lemma {:induction false} AndIsDerived(ts: seq<string>, i: nat, accepts: Accepts)
    requires i <= |ts| && ParseAnd(ts, i, accepts).Ok?
    ensures var p := ParseAnd(ts, i, accepts).value; DerivesAnd(ts, i, p.next, p.expr, accepts)
    decreases |ts| - i, 4
  {
    hide ParseNot, AndRest, DerivesNot, DerivesMore;
    var first := ParseNot(ts, i, accepts).value;
    NotIsDerived(ts, i, accepts);
    var more := AndRestIsDerived(ts, first.next, [first.expr], accepts);
    var p := ParseAnd(ts, i, accepts).value;
    assert Conjoins(ts, i, p.next, first.next, [first.expr] + more, p.expr, accepts);
  }

  lemma {:induction false} OrRestIsDerived(ts: seq<string>, from: nat, i: nat, left: Expr, accepts: Accepts)
    requires from < i <= |ts| && DerivesOr(ts, from, i, left, accepts) && OrRest(ts, i, left, accepts).Ok?
    ensures var p := OrRest(ts, i, left, accepts).value; DerivesOr(ts, from, p.next, p.expr, accepts)
    decreases |ts| - i, 5
  {
    hide ParseAnd, DerivesAnd;
    if At(ts, i, IsOr) {
      var p := ParseAnd(ts, i + 1, accepts).value;
      AndIsDerived(ts, i + 1, accepts);
      assert Disjoins(ts, from, p.next, i, Or(left, p.expr), accepts);
      OrRestIsDerived(ts, from, p.next, Or(left, p.expr), accepts);
    }
  }

  lemma {:induction false} OrIsDerived(ts: seq<string>, i: nat, accepts: Accepts)
    requires i <= |ts| && ParseOr(ts, i, accepts).Ok?
    ensures var p := ParseOr(ts, i, accepts).value; i < p.next <= |ts| && DerivesOr(ts, i, p.next, p.expr, accepts)
    decreases |ts| - i, 6
  {
    hide ParseAnd, DerivesAnd, OrRest;
    var p := ParseAnd(ts, i, accepts).value;
    AndIsDerived(ts, i, accepts);
    OrRestIsDerived(ts, i, p.next, p.expr, accepts);
  }

  // ----- Everything derived is parsed -----

  lemma {:induction false} ExecParses(ts: seq<string>, i: nat, k: nat, j: nat, flag: string)
    requires i < k < j <= |ts| && (ts[j - 1] == ";" || ts[j - 1] == "+") && forall n :: i < n < j - 1 ==> ts[n] != ";" && ts[n] != "+"
    ensures TakeExec(ts, k, flag, ts[i + 1..k]) == Ok(Parsed(Leaf(Exec(flag, ts[i + 1..j - 1], ts[j - 1] == "+")), j))
    decreases j - k
  {
    if k < j - 1 {
      assert ts[i + 1..k] + [ts[k]] == ts[i + 1..k + 1];
      ExecParses(ts, i, k + 1, j, flag);
    }
  }

  lemma AtomParses(ts: seq<string>, i: nat, j: nat, a: Atom, accepts: Accepts)
    requires AtomAt(ts, i, j, a, accepts)
    ensures ParseAtom(ts, i, accepts) == Ok(Parsed(Leaf(a), j))
    ensures !Operator(ts[i])
  {
    if Operator(ts[i]) { OperatorsAreNoAtoms(ts[i]); }
    hide ShapeOf, Operator;
    if a.Exec? {
      assert ts[i + 1..i + 1] == [];
      ExecParses(ts, i, i + 1, j, a.flag);
    }
  }

  lemma {:induction false} PrimaryParses(ts: seq<string>, i: nat, j: nat, e: Expr, accepts: Accepts)
    requires DerivesPrimary(ts, i, j, e, accepts)
    ensures i < j <= |ts| && ts[i] != ")" && !IsOr(ts[i]) && !IsAnd(ts[i]) && !IsNot(ts[i])
    ensures ParsePrimary(ts, i, accepts) == Ok(Parsed(e, j))
    decreases j - i, 0
  {
    hide ShapeOf, ParseAtom, ParseOr, AtomAt, DerivesOr;
    if e.Leaf? && AtomAt(ts, i, j, e.atom, accepts) {
      assert i < j <= |ts| by { AtomWithin(ts, i, j, e.atom, accepts); }
      AtomParses(ts, i, j, e.atom, accepts);
    } else {
      OrParses(ts, i + 1, j - 1, e, accepts);
      OrEnds(ts, j - 1, e, accepts);
    }
  }

  lemma AtomWithin(ts: seq<string>, i: nat, j: nat, a: Atom, accepts: Accepts)
    requires AtomAt(ts, i, j, a, accepts)
    ensures i < j <= |ts|
  {
  }

  lemma {:induction false} NotParses(ts: seq<string>, i: nat, j: nat, e: Expr, accepts: Accepts)
    requires DerivesNot(ts, i, j, e, accepts)
    ensures i < j <= |ts| && ts[i] != ")" && !IsOr(ts[i]) && !IsAnd(ts[i])
    ensures ParseNot(ts, i, accepts) == Ok(Parsed(e, j))
    decreases j - i, 1
  {
    hide ParsePrimary, DerivesPrimary;
    if DerivesPrimary(ts, i, j, e, accepts) {
      PrimaryParses(ts, i, j, e, accepts);
    } else {
      NotParses(ts, i + 1, j, e.inner, accepts);
    }
  }

  lemma {:induction false} MoreParse(ts: seq<string>, i: nat, j: nat, seen: seq<Expr>, items: seq<Expr>, accepts: Accepts)
    requires seen != [] && i <= |ts| && DerivesMore(ts, i, j, items, accepts) && !StartsPrimary(ts, j)
    ensures AndRest(ts, i, seen, accepts) == Ok(Parsed(Conjunction(seen + items), j))
    decreases j - i, 2
  {
    hide ParseNot, DerivesNot, Conjunction;
    if items == [] {
      assert seen + items == seen;
    } else {
      var k :| AfterAnd(ts, i) < k <= j <= |ts|
        && DerivesNot(ts, AfterAnd(ts, i), k, items[0], accepts) && DerivesMore(ts, k, j, items[1..], accepts);
      NotParses(ts, AfterAnd(ts, i), k, items[0], accepts);
      MoreParse(ts, k, j, seen + [items[0]], items[1..], accepts);
      assert seen + [items[0]] + items[1..] == seen + items;
    }
  }

  lemma {:induction false} AndParses(ts: seq<string>, i: nat, j: nat, e: Expr, accepts: Accepts)
    requires DerivesAnd(ts, i, j, e, accepts) && !StartsPrimary(ts, j)
    ensures i < j <= |ts| && ParseAnd(ts, i, accepts) == Ok(Parsed(e, j))
    decreases j - i, 3
  {
    hide ParseNot, AndRest, DerivesNot, DerivesMore, StartsPrimary;
    var items: seq<Expr>, k: nat :| Conjoins(ts, i, j, k, items, e, accepts);
    NotParses(ts, i, k, items[0], accepts);
    MoreParse(ts, k, j, [items[0]], items[1..], accepts);
    assert [items[0]] + items[1..] == items;
  }

  /** A disjunction is the left operand of whatever follows it. */
  lemma {:induction false} OrParses(ts: seq<string>, i: nat, j: nat, e: Expr, accepts: Accepts)
    requires DerivesOr(ts, i, j, e, accepts) && !StartsPrimary(ts, j)
    ensures i < j <= |ts| && ParseOr(ts, i, accepts) == OrRest(ts, j, e, accepts)
    decreases j - i, 4
  {
    hide ParseAnd, DerivesAnd, StartsPrimary, ParseOr;
    if DerivesAnd(ts, i, j, e, accepts) {
      AndParses(ts, i, j, e, accepts);
      OrStarts(ts, i, e, j, accepts);
    } else {
      var k :| i < k < j <= |ts| && Disjoins(ts, i, j, k, e, accepts);
      OrIsNoStart(ts, k);
      OrParses(ts, i, k, e.left, accepts);
      AndParses(ts, k + 1, j, e.right, accepts);
    }
  }

  /** The parser accepts a list of tokens, and returns a tree, if and only if the grammar
      derives the tokens with that tree: redundant parentheses, mixed spellings of the
      operators and any arguments included. */
  lemma ParsesExactlyTheGrammar(ts: seq<string>, e: Expr, accepts: Accepts)
    ensures ParseWhole(ts, accepts) == Ok(e) <==> DerivesOr(ts, 0, |ts|, e, accepts)
  {
    hide ParseOr, OrRest, DerivesOr;
    if ParseWhole(ts, accepts) == Ok(e) { OrIsDerived(ts, 0, accepts); }
    if DerivesOr(ts, 0, |ts|, e, accepts) {
      OrParses(ts, 0, |ts|, e, accepts);
      OrEnds(ts, |ts|, e, accepts);
    }
  }

  // ----- Errors -----

  /** An operand that cannot be parsed fails the whole expression. */
  lemma FailsThroughout(ts: seq<string>, i: nat, error: ParseError, accepts: Accepts)
    requires i <= |ts| && ParsePrimary(ts, i, accepts) == Err(error) && !At(ts, i, IsNot)
    ensures ParseAnd(ts, i, accepts) == Err(error) && ParseOr(ts, i, accepts) == Err(error)
  {
    hide ParsePrimary;
    assert ParseNot(ts, i, accepts) == Err(error);
    hide ParseNot;
  }

  /** An expression that is complete at j, with something left that does not continue it,
      leaves the rest over. */
  lemma LeftOver(ts: seq<string>, j: nat, e: Expr, accepts: Accepts)
    requires j < |ts| && DerivesOr(ts, 0, j, e, accepts) && ts[j] == ")"
    ensures ParseWhole(ts, accepts) == Err(Trailing(")"))
  {
    hide ParseOr, OrRest, DerivesOr;
    OrParses(ts, 0, j, e, accepts);
    OrEnds(ts, j, e, accepts);
  }

  /** A group that is not closed; a closing parenthesis where an operand is expected; an
      operator at the end. */
  lemma Unclosed(ts: seq<string>, e: Expr, accepts: Accepts)
    requires ts != [] && ts[0] == "(" && DerivesOr(ts, 1, |ts|, e, accepts)
    ensures ParseWhole(ts, accepts) == Err(ExpectedClose)
  {
    OrEnds(ts, |ts|, e, accepts);
    hide DerivesOr, OrRest, ParseOr, ShapeOf, ParseAtom;
    OrParses(ts, 1, |ts|, e, accepts);
    FailsThroughout(ts, 0, ExpectedClose, accepts);
  }

  lemma OperandMissing(ts: seq<string>, accepts: Accepts)
    ensures ts == [] ==> ParseWhole(ts, accepts) == Err(ExpectedAtom)
    ensures ts != [] && ts[0] == ")" ==> ParseWhole(ts, accepts) == Err(UnexpectedClose)
    ensures ts != [] && Operator(ts[0]) && !IsNot(ts[0]) && ts[0] != "(" && ts[0] != ")"
        ==> ParseWhole(ts, accepts) == Err(Unsupported(ts[0]))
  {
    if ts != [] && Operator(ts[0]) { OperatorsAreNoAtoms(ts[0]); }
    hide ShapeOf, ParseOr;
    if ts == [] { FailsThroughout(ts, 0, ExpectedAtom, accepts); }
    if ts != [] && ts[0] == ")" { FailsThroughout(ts, 0, UnexpectedClose, accepts); }
    if ts != [] && Operator(ts[0]) && !IsNot(ts[0]) && ts[0] != "(" && ts[0] != ")" {
      FailsThroughout(ts, 0, Unsupported(ts[0]), accepts);
    }
  }

  lemma OperatorAtTheEnd(ts: seq<string>, e: Expr, accepts: Accepts)
    requires ts != [] && DerivesOr(ts, 0, |ts| - 1, e, accepts) && IsOr(ts[|ts| - 1])
    ensures ParseWhole(ts, accepts) == Err(ExpectedAtom)
  {
    hide DerivesOr, ShapeOf, ParseOr, ParseAnd;
    OrIsNoStart(ts, |ts| - 1);
    OrParses(ts, 0, |ts| - 1, e, accepts);
    FailsThroughout(ts, |ts|, ExpectedAtom, accepts);
  }

  /** What can be wrong with an atom. */
  lemma AtomErrors(ts: seq<string>, i: nat, accepts: Accepts)
    requires i < |ts|
    ensures ShapeOf(ts[i]).None? ==> ParseAtom(ts, i, accepts) == Err(Unsupported(ts[i]))
    ensures ShapeOf(ts[i]).Some? ==>
      var (shape, flag) := ShapeOf(ts[i]).value; var p := ParseAtom(ts, i, accepts);
      && (p == Err(MissingArgument(flag)) <==> (shape.ArgsOne? && i + 1 == |ts|) || (shape.ArgsTwo? && i + 2 >= |ts|))
      && (p.Err? && p.error.BadArgument? <==> shape.ArgsOne? && i + 1 < |ts| && !accepts(flag, ts[i + 1]))
      && (p == Err(Unterminated) <==> shape.ExecLike? && forall k :: i < k < |ts| ==> ts[k] != ";" && ts[k] != "+")
  {
    hide ShapeOf;
    if ShapeOf(ts[i]).Some? && ShapeOf(ts[i]).value.0.ExecLike? { ExecErrors(ts, i + 1, ShapeOf(ts[i]).value.1, []); }
  }

  lemma {:induction false} ExecErrors(ts: seq<string>, i: nat, flag: string, argv: seq<string>)
    requires i <= |ts|
    ensures var p := TakeExec(ts, i, flag, argv);
      && (p.Err? ==> p.error.Unterminated?)
      && (p.Err? <==> forall k :: i <= k < |ts| ==> ts[k] != ";" && ts[k] != "+")
    decreases |ts| - i
  {
    if i < |ts| && ts[i] != ";" && ts[i] != "+" { ExecErrors(ts, i + 1, flag, argv + [ts[i]]); }
  }

  predicate LooksLikeNewer(t: string) {
    |t| == 8 && t[1] == 'n' && t[2] == 'e'
  }

  lemma BareIsNotNewer(t: string)
    requires t in BARE_FLAGS
    ensures !LooksLikeNewer(t)
  {
  }

  lemma ArgIsNotNewer(t: string)
    requires t in ARG_FLAGS
    ensures !LooksLikeNewer(t)
  {
  }

  lemma NamesOnce()
    ensures forall t :: t in {"-xdev", "-mount", "-path", "-wholename", "-ipath", "-iwholename"} ==> t !in BARE_FLAGS && t !in ARG_FLAGS
  {
  }

  lemma CommandsOnce()
    ensures forall t :: t in {"-exec", "-execdir", "-ok", "-okdir", "-fprintf"} ==> t !in BARE_FLAGS && t !in ARG_FLAGS
  {
  }

  /** Flags that take a command up to its terminator, and the one with two arguments. */
  lemma Commands()
    ensures ShapeOf("-exec") == Some((ExecLike, "-exec")) && ShapeOf("-execdir") == Some((ExecLike, "-execdir"))
    ensures ShapeOf("-ok") == Some((ExecLike, "-ok")) && ShapeOf("-okdir") == Some((ExecLike, "-okdir"))
    ensures ShapeOf("-fprintf") == Some((ArgsTwo, "-fprintf"))
  {
    CommandsOnce();
    assert "-execdir"[..6] == "-execd" && "-fprintf"[..6] == "-fprin";
    hide BARE_FLAGS, ARG_FLAGS;
  }

  /** Flags with two names, and the tests that name two times. */
  lemma OtherNames(x: char, y: char)
    ensures ShapeOf("-mount") == ShapeOf("-xdev") == Some((NoArgs, "-xdev"))
    ensures ShapeOf("-wholename") == ShapeOf("-path") == Some((ArgsOne, "-path"))
    ensures ShapeOf("-iwholename") == ShapeOf("-ipath") == Some((ArgsOne, "-ipath"))
    ensures ShapeOf("-newer" + [x, y]) == Some((ArgsOne, "-newer" + [x, y]))
  {
    var t := "-newer" + [x, y];
    assert t[..6] == "-newer" && LooksLikeNewer(t);
    if t in BARE_FLAGS { BareIsNotNewer(t); }
    if t in ARG_FLAGS { ArgIsNotNewer(t); }
    NamesOnce();
    hide BARE_FLAGS, ARG_FLAGS;
  }
}
