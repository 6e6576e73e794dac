/** The expression parser: operators, groups and atoms with their arguments. */
module Parser {
  import opened Basics

  // ----- Syntax -----

  /** flag is the canonical spelling. */
  datatype Atom =
    | Bare(flag: string)
    | OneArg(flag: string, arg: string)
    | TwoArgs(flag: string, first: string, second: string)
    | Exec(flag: string, argv: seq<string>, batch: bool)

  datatype Expr = And(items: seq<Expr>) | Or(left: Expr, right: Expr) | Not(inner: Expr) | Leaf(atom: Atom)

  datatype ParseError =
    | ExpectedClose | UnexpectedClose | ExpectedAtom | Unterminated
    | Unsupported(token: string) | MissingArgument(flag: string) | BadArgument(flag: string, arg: string) | Trailing(token: string)

  datatype Shape = NoArgs | ArgsOne | ArgsTwo | ExecLike

  const BARE_FLAGS: set<string> := {
    "-depth", "-prune", "-readable", "-writable", "-executable", "-nouser", "-nogroup", "-empty", "-daystart",
    "-true", "-false", "-print", "-print0", "-ls", "-quit", "-delete"}

  const ARG_FLAGS: set<string> := {
    "-maxdepth", "-mindepth", "-name", "-iname", "-regex", "-iregex", "-regextype", "-fstype", "-lname", "-ilname",
    "-uid", "-gid", "-user", "-group", "-owner", "-owner-sid", "-group-sid", "-perm", "-flags", "-reparse-type", "-size",
    "-used", "-inum", "-links", "-samefile", "-atime", "-ctime", "-mtime", "-amin", "-cmin", "-mmin",
    "-newer", "-anewer", "-cnewer", "-type", "-xtype", "-printf", "-fprint", "-fprint0", "-fls"}

  const EXEC_FLAGS: set<string> := {"-exec", "-execdir", "-ok", "-okdir"}

  predicate IsNewerXY(token: string) {
    |token| == 8 && token[..6] == "-newer"
  }

  /** What a token starts, and the flag it stands for. */
  function ShapeOf(token: string): Option<(Shape, string)> {
    if token in BARE_FLAGS then Some((NoArgs, token))
    else if token == "-xdev" || token == "-mount" then Some((NoArgs, "-xdev"))
    else if token in ARG_FLAGS then Some((ArgsOne, token))
    else if token == "-path" || token == "-wholename" then Some((ArgsOne, "-path"))
    else if token == "-ipath" || token == "-iwholename" then Some((ArgsOne, "-ipath"))
    else if IsNewerXY(token) then Some((ArgsOne, token))
    else if token == "-fprintf" then Some((ArgsTwo, token))
    else if token in EXEC_FLAGS then Some((ExecLike, token))
    else None
  }

  predicate IsOr(token: string) {
    token == "-o" || token == "-or"
  }

  predicate IsAnd(token: string) {
    token == "-a" || token == "-and"
  }

  predicate IsNot(token: string) {
    token == "!" || token == "-not"
  }

  predicate At(ts: seq<string>, i: nat, test: string -> bool) {
    i < |ts| && test(ts[i])
  }

  /** Whether an argument is acceptable to its flag. */
  type Accepts = (string, string) -> bool

  // ----- The grammar as functions -----

  datatype Parsed = Parsed(expr: Expr, next: nat)

  type Parse = Result<Parsed, ParseError>

  predicate Moves(ts: seq<string>, i: nat, p: Parse) {
    p.Ok? ==> i < p.value.next <= |ts|
  }

  function TakeExec(ts: seq<string>, i: nat, flag: string, argv: seq<string>): Parse
    requires i <= |ts|
    decreases |ts| - i
  {
    if i == |ts| then Err(Unterminated)
    else if ts[i] == ";" then Ok(Parsed(Leaf(Exec(flag, argv, false)), i + 1))
    else if ts[i] == "+" then Ok(Parsed(Leaf(Exec(flag, argv, true)), i + 1))
    else TakeExec(ts, i + 1, flag, argv + [ts[i]])
  }

  function ParseAtom(ts: seq<string>, i: nat, accepts: Accepts): Parse
    requires i <= |ts|
  {
    if i == |ts| then Err(ExpectedAtom)
    else match ShapeOf(ts[i])
      case None => Err(Unsupported(ts[i]))
      case Some((NoArgs, flag)) => Ok(Parsed(Leaf(Bare(flag)), i + 1))
      case Some((ArgsOne, flag)) =>
        if i + 1 >= |ts| then Err(MissingArgument(flag))
        else if !accepts(flag, ts[i + 1]) then Err(BadArgument(flag, ts[i + 1]))
        else Ok(Parsed(Leaf(OneArg(flag, ts[i + 1])), i + 2))
      case Some((ArgsTwo, flag)) =>
        if i + 2 >= |ts| then Err(MissingArgument(flag))
        else Ok(Parsed(Leaf(TwoArgs(flag, ts[i + 1], ts[i + 2])), i + 3))
      case Some((ExecLike, flag)) => TakeExec(ts, i + 1, flag, [])
  }

  lemma {:induction false} ExecMoves(ts: seq<string>, i: nat, flag: string, argv: seq<string>)
    requires i <= |ts|
    ensures Moves(ts, i, TakeExec(ts, i, flag, argv))
    decreases |ts| - i
  {
    if i < |ts| && ts[i] != ";" && ts[i] != "+" { ExecMoves(ts, i + 1, flag, argv + [ts[i]]); }
  }

  function ParsePrimary(ts: seq<string>, i: nat, accepts: Accepts): (p: Parse)
    requires i <= |ts|
    ensures Moves(ts, i, p)
    decreases |ts| - i, 1
  {
    if i < |ts| && ts[i] == "(" then
      match ParseOr(ts, i + 1, accepts)
      case Err(error) => Err(error)
      case Ok(Parsed(e, j)) => if j < |ts| && ts[j] == ")" then Ok(Parsed(e, j + 1)) else Err(ExpectedClose)
    else if i < |ts| && ts[i] == ")" then Err(UnexpectedClose)
    else (if i < |ts| && ShapeOf(ts[i]).Some? then ExecMoves(ts, i + 1, ShapeOf(ts[i]).value.1, []); ParseAtom(ts, i, accepts)
          else ParseAtom(ts, i, accepts))
  }

  function ParseNot(ts: seq<string>, i: nat, accepts: Accepts): (p: Parse)
    requires i <= |ts|
    ensures Moves(ts, i, p)
    decreases |ts| - i, 2
  {
    if At(ts, i, IsNot) then
      match ParseNot(ts, i + 1, accepts)
      case Err(error) => Err(error)
      case Ok(Parsed(e, j)) => Ok(Parsed(Not(e), j))
    else ParsePrimary(ts, i, accepts)
  }

  predicate StartsPrimary(ts: seq<string>, i: nat) {
    i < |ts| && ts[i] != ")" && !IsOr(ts[i])
  }

  function Conjunction(items: seq<Expr>): Expr
    requires items != []
  {
    if |items| == 1 then items[0] else And(items)
  }

  /** After at least one item. */
  function AndRest(ts: seq<string>, i: nat, items: seq<Expr>, accepts: Accepts): (p: Parse)
    requires i <= |ts| && items != []
    ensures p.Ok? ==> i <= p.value.next <= |ts|
    decreases |ts| - i, 3
  {
    if StartsPrimary(ts, i) then
      var j := if IsAnd(ts[i]) then i + 1 else i;
      match ParseNot(ts, j, accepts)
      case Err(error) => Err(error)
      case Ok(Parsed(e, k)) => AndRest(ts, k, items + [e], accepts)
    else Ok(Parsed(Conjunction(items), i))
  }

  function ParseAnd(ts: seq<string>, i: nat, accepts: Accepts): (p: Parse)
    requires i <= |ts|
    ensures Moves(ts, i, p)
    decreases |ts| - i, 4
  {
    match ParseNot(ts, i, accepts)
    case Err(error) => Err(error)
    case Ok(Parsed(e, j)) => AndRest(ts, j, [e], accepts)
  }

  function OrRest(ts: seq<string>, i: nat, left: Expr, accepts: Accepts): (p: Parse)
    requires i <= |ts|
    ensures p.Ok? ==> i <= p.value.next <= |ts|
    decreases |ts| - i, 5
  {
    if At(ts, i, IsOr) then
      match ParseAnd(ts, i + 1, accepts)
      case Err(error) => Err(error)
      case Ok(Parsed(right, j)) => OrRest(ts, j, Or(left, right), accepts)
    else Ok(Parsed(left, i))
  }

  function ParseOr(ts: seq<string>, i: nat, accepts: Accepts): (p: Parse)
    requires i <= |ts|
    ensures Moves(ts, i, p)
    decreases |ts| - i, 6
  {
    match ParseAnd(ts, i, accepts)
    case Err(error) => Err(error)
    case Ok(Parsed(left, j)) => OrRest(ts, j, left, accepts)
  }

  function ParseWhole(ts: seq<string>, accepts: Accepts): Result<Expr, ParseError> {
    match ParseOr(ts, 0, accepts)
    case Err(error) => Err(error)
    case Ok(Parsed(e, j)) => if j < |ts| then Err(Trailing(ts[j])) else Ok(e)
  }

  // ----- Printing -----

  datatype Style = Style(explicitAnd: bool, longAnd: bool, wordNot: bool, longOr: bool)

  function OrToken(y: Style): string {
    if y.longOr then "-or" else "-o"
  }

  function AndTokens(y: Style): seq<string> {
    if !y.explicitAnd then [] else if y.longAnd then ["-and"] else ["-a"]
  }

  function NotToken(y: Style): string {
    if y.wordNot then "-not" else "!"
  }

  function AtomTokens(a: Atom): seq<string> {
    match a
    case Bare(flag) => [flag]
    case OneArg(flag, arg) => [flag, arg]
    case TwoArgs(flag, first, second) => [flag, first, second]
    case Exec(flag, argv, batch) => [flag] + argv + [if batch then "+" else ";"]
  }

  predicate AtomOk(a: Atom, accepts: Accepts) {
    match a
    case Bare(flag) => ShapeOf(flag) == Some((NoArgs, flag))
    case OneArg(flag, arg) => ShapeOf(flag) == Some((ArgsOne, flag)) && accepts(flag, arg)
    case TwoArgs(flag, _, _) => ShapeOf(flag) == Some((ArgsTwo, flag))
    case Exec(flag, argv, _) => ShapeOf(flag) == Some((ExecLike, flag)) && ";" !in argv && "+" !in argv
  }

  function Size(e: Expr): (n: nat)
    ensures n > 0
  {
    match e
    case And(items) => 1 + SizeOf(items)
    case Or(l, r) => 1 + Size(l) + Size(r)
    case Not(i) => 1 + Size(i)
    case Leaf(_) => 1
  }

  function SizeOf(items: seq<Expr>): nat {
    if items == [] then 0 else Size(items[0]) + SizeOf(items[1..])
  }

  predicate WellFormed(e: Expr, accepts: Accepts)
    decreases Size(e), 0
  {
    match e
    case And(items) => |items| >= 2 && AllWellFormed(items, accepts)
    case Or(l, r) => WellFormed(l, accepts) && WellFormed(r, accepts)
    case Not(i) => WellFormed(i, accepts)
    case Leaf(a) => AtomOk(a, accepts)
  }

  predicate AllWellFormed(items: seq<Expr>, accepts: Accepts)
    decreases SizeOf(items), 1
  {
    items != [] ==> WellFormed(items[0], accepts) && AllWellFormed(items[1..], accepts)
  }

  function PrintOr(e: Expr, y: Style): seq<string>
    decreases Size(e), 3
  {
    match e
    case Or(l, r) => PrintOr(l, y) + [OrToken(y)] + PrintAnd(r, y)
    case _ => PrintAnd(e, y)
  }

  function PrintAnd(e: Expr, y: Style): seq<string>
    decreases Size(e), 2
  {
    match e
    case And(items) =>
      if items == [] then []
      else assert Size(e) == 1 + SizeOf(items); PrintNot(items[0], y) + PrintMore(items[1..], y)
    case _ => PrintNot(e, y)
  }

  function PrintMore(items: seq<Expr>, y: Style): seq<string>
    decreases SizeOf(items), 2
  {
    if items == [] then [] else AndTokens(y) + PrintNot(items[0], y) + PrintMore(items[1..], y)
  }

  /** With parentheses only where the operators need them. */
  function PrintNot(e: Expr, y: Style): seq<string>
    decreases Size(e), 1
  {
    match e
    case Not(i) => [NotToken(y)] + PrintNot(i, y)
    case Leaf(a) => AtomTokens(a)
    case Or(l, r) => ["("] + (PrintOr(l, y) + [OrToken(y)] + PrintAnd(r, y)) + [")"]
    case And(items) =>
      assert Size(e) == 1 + SizeOf(items);
      ["("] + (if items == [] then [] else PrintNot(items[0], y) + PrintMore(items[1..], y)) + [")"]
  }

  // ----- Reading back what was printed -----

  predicate Operator(t: string) {
    IsOr(t) || IsAnd(t) || IsNot(t) || t == "(" || t == ")"
  }

  lemma OperatorsAreNoAtoms(t: string)
    requires Operator(t)
    ensures ShapeOf(t).None?
  {
  }

  /** A printed operand can be told from an operator that might stand there. */
  lemma {:induction false} PrintedStart(e: Expr, y: Style, accepts: Accepts)
    requires WellFormed(e, accepts)
    ensures var part := PrintNot(e, y); part != [] && part[0] != ")" && !IsOr(part[0]) && !IsAnd(part[0])
  {
    if e.Leaf? {
      var flag := AtomTokens(e.atom)[0];
      assert ShapeOf(flag).Some?;
      if Operator(flag) { OperatorsAreNoAtoms(flag); }
    }
  }

  lemma {:induction false} ExecReads(ts: seq<string>, i: nat, flag: string, seen: seq<string>, argv: seq<string>, batch: bool)
    requires ";" !in argv && "+" !in argv && Here(ts, i, argv + [if batch then "+" else ";"])
    ensures TakeExec(ts, i, flag, seen) == Ok(Parsed(Leaf(Exec(flag, seen + argv, batch)), i + |argv| + 1))
    decreases |argv|
  {
    var last := [if batch then "+" else ";"];
    HereAt(ts, i, argv + last, 0);
    if argv == [] {
      assert seen + argv == seen;
    } else {
      assert argv + last == [argv[0]] + (argv[1..] + last);
      HereSplits(ts, i, [argv[0]], argv[1..] + last);
      assert argv[0] in argv;
      ExecReads(ts, i + 1, flag, seen + [argv[0]], argv[1..], batch);
      assert seen + [argv[0]] + argv[1..] == seen + argv;
    }
  }

  lemma AtomReads(ts: seq<string>, i: nat, a: Atom, accepts: Accepts)
    requires AtomOk(a, accepts) && Here(ts, i, AtomTokens(a))
    ensures ParseAtom(ts, i, accepts) == Ok(Parsed(Leaf(a), i + |AtomTokens(a)|))
  {
    hide ShapeOf, Here;
    var part := AtomTokens(a);
    HereAt(ts, i, part, 0);
    match a
    case Bare(_) =>
    case OneArg(_, _) => HereAt(ts, i, part, 1);
    case TwoArgs(_, _, _) =>
      HereAt(ts, i, part, 1);
      HereAt(ts, i, part, 2);
    case Exec(flag, argv, batch) =>
      var last := [if batch then "+" else ";"];
      assert part == [flag] + (argv + last);
      HereSplits(ts, i, [flag], argv + last);
      ExecReads(ts, i + 1, flag, [], argv, batch);
      assert [] + argv == argv;
  }

  lemma AtomIsNotRead(ts: seq<string>, i: nat, a: Atom, y: Style, accepts: Accepts)
    requires AtomOk(a, accepts) && Here(ts, i, AtomTokens(a))
    ensures ParseNot(ts, i, accepts) == Ok(Parsed(Leaf(a), i + |AtomTokens(a)|))
  {
    AtomReads(ts, i, a, accepts);
    HereAt(ts, i, AtomTokens(a), 0);
    var flag := AtomTokens(a)[0];
    assert ShapeOf(flag).Some?;
    if Operator(flag) { OperatorsAreNoAtoms(flag); }
    hide ShapeOf, ParseAtom, AtomOk, AtomTokens, Here;
  }

  lemma {:induction false} NotReads(ts: seq<string>, i: nat, e: Expr, y: Style, accepts: Accepts)
    requires WellFormed(e, accepts) && Here(ts, i, PrintNot(e, y))
    ensures ParseNot(ts, i, accepts) == Ok(Parsed(e, i + |PrintNot(e, y)|))
    decreases Size(e), if e.Or? || e.And? then 10 else 1
  {
    hide ShapeOf, Here, AtomOk, AtomTokens, ParsePrimary;
    match e
    case Not(inner) =>
      HereSplits(ts, i, [NotToken(y)], PrintNot(inner, y));
      HereAt(ts, i, [NotToken(y)], 0);
      NotReads(ts, i + 1, inner, y, accepts);
    case Leaf(a) => AtomIsNotRead(ts, i, a, y, accepts);
    case _ => GroupReads(ts, i, e, PrintOr(e, y), y, accepts);
  }

  lemma GroupParses(ts: seq<string>, i: nat, e: Expr, j: nat, accepts: Accepts)
    requires i < j < |ts| && ts[i] == "(" && ts[j] == ")" && ParseOr(ts, i + 1, accepts) == Ok(Parsed(e, j))
    ensures ParseNot(ts, i, accepts) == Ok(Parsed(e, j + 1))
  {
    hide ParseOr, ShapeOf;
  }

  lemma {:induction false} GroupReads(ts: seq<string>, i: nat, e: Expr, body: seq<string>, y: Style, accepts: Accepts)
    requires WellFormed(e, accepts) && (e.Or? || e.And?) && body == PrintOr(e, y)
    requires Here(ts, i, ["("] + body + [")"])
    ensures ParseNot(ts, i, accepts) == Ok(Parsed(e, i + |body| + 2))
    decreases Size(e), 9
  {
    hide Here, ShapeOf, ParseOr, OrRest, ParseNot, WellFormed, PrintOr;
    assert ["("] + body + [")"] == ["("] + (body + [")"]);
    HereSplits(ts, i, ["("], body + [")"]);
    HereAt(ts, i, ["("], 0);
    HereSplits(ts, i + 1, body, [")"]);
    HereAt(ts, i + 1 + |body|, [")"], 0);
    OrReads(ts, i + 1, e, y, accepts);
    OrEnds(ts, i + 1 + |body|, e, accepts);
    GroupParses(ts, i, e, i + 1 + |body|, accepts);
  }

  lemma OrEnds(ts: seq<string>, i: nat, e: Expr, accepts: Accepts)
    requires i == |ts| || (i < |ts| && !IsOr(ts[i]))
    ensures OrRest(ts, i, e, accepts) == Ok(Parsed(e, i))
  {
  }

  /** One more operand, after an and-token or without one. */
  lemma OneMore(ts: seq<string>, i: nat, j: nat, seen: seq<Expr>, x: Expr, k: nat, accepts: Accepts)
    requires seen != [] && i <= j < |ts| && k <= |ts|
    requires ts[j] != ")" && !IsOr(ts[j]) && !IsAnd(ts[j]) && (j == i || (j == i + 1 && IsAnd(ts[i])))
    requires ParseNot(ts, j, accepts) == Ok(Parsed(x, k))
    ensures AndRest(ts, i, seen, accepts) == AndRest(ts, k, seen + [x], accepts)
  {
    hide ParseNot;
  }

  lemma NoMore(ts: seq<string>, i: nat, seen: seq<Expr>, accepts: Accepts)
    requires seen != [] && i <= |ts| && !StartsPrimary(ts, i)
    ensures AndRest(ts, i, seen, accepts) == Ok(Parsed(Conjunction(seen), i))
  {
  }

  lemma {:induction false} MoreReads(ts: seq<string>, i: nat, seen: seq<Expr>, items: seq<Expr>, y: Style, accepts: Accepts)
    requires seen != [] && AllWellFormed(items, accepts) && Here(ts, i, PrintMore(items, y)) && i <= |ts|
    requires !StartsPrimary(ts, i + |PrintMore(items, y)|)
    ensures AndRest(ts, i, seen, accepts) == Ok(Parsed(Conjunction(seen + items), i + |PrintMore(items, y)|))
    decreases SizeOf(items), 12
  {
    hide Here, ParseNot, AndRest, WellFormed, PrintNot, StartsPrimary, Conjunction;
    if items == [] {
      assert seen + items == seen;
      NoMore(ts, i, seen, accepts);
    } else {
      var x, rest := items[0], items[1..];
      var part, more := PrintNot(x, y), PrintMore(rest, y);
      assert AndTokens(y) + part + more == AndTokens(y) + (part + more);
      HereSplits(ts, i, AndTokens(y), part + more);
      var j := i + |AndTokens(y)|;
      HereSplits(ts, j, part, more);
      PrintedStart(x, y, accepts);
      HereAt(ts, j, part, 0);
      if AndTokens(y) != [] { HereAt(ts, i, AndTokens(y), 0); }
      NotReads(ts, j, x, y, accepts);
      HereWithin(ts, j, part);
      OneMore(ts, i, j, seen, x, j + |part|, accepts);
      MoreReads(ts, j + |part|, seen + [x], rest, y, accepts);
      assert seen + [x] + rest == seen + items;
    }
  }

  lemma HereWithin(ts: seq<string>, i: nat, part: seq<string>)
    requires Here(ts, i, part)
    ensures i + |part| <= |ts|
  {
  }

  lemma {:induction false} AndReads(ts: seq<string>, i: nat, e: Expr, y: Style, accepts: Accepts)
    requires WellFormed(e, accepts) && Here(ts, i, PrintAnd(e, y)) && i <= |ts|
    requires !StartsPrimary(ts, i + |PrintAnd(e, y)|)
    ensures ParseAnd(ts, i, accepts) == Ok(Parsed(e, i + |PrintAnd(e, y)|))
    decreases Size(e), if e.Or? then 11 else 2
  {
    hide Here, ParseNot, PrintNot, PrintAnd, PrintMore, AndRest, StartsPrimary, WellFormed;
    match e
    case And(items) =>
      AndParts(items, y, accepts);
      var first, rest := items[0], items[1..];
      HereSplits(ts, i, PrintNot(first, y), PrintMore(rest, y));
      NotReads(ts, i, first, y, accepts);
      HereWithin(ts, i, PrintNot(first, y));
      MoreReads(ts, i + |PrintNot(first, y)|, [first], rest, y, accepts);
      assert [first] + rest == items;
    case _ =>
      NoAnd(e, y);
      NotReads(ts, i, e, y, accepts);
      HereWithin(ts, i, PrintNot(e, y));
      NoMore(ts, i + |PrintNot(e, y)|, [e], accepts);
  }

  lemma AndParts(items: seq<Expr>, y: Style, accepts: Accepts)
    requires WellFormed(And(items), accepts)
    ensures |items| >= 2 && WellFormed(items[0], accepts) && AllWellFormed(items[1..], accepts)
    ensures PrintAnd(And(items), y) == PrintNot(items[0], y) + PrintMore(items[1..], y)
    ensures Size(And(items)) == 1 + SizeOf(items) && SizeOf(items) == Size(items[0]) + SizeOf(items[1..])
  {
    hide PrintNot, PrintMore;
  }

  lemma NoAnd(e: Expr, y: Style)
    requires !e.And?
    ensures PrintAnd(e, y) == PrintNot(e, y)
  {
    hide PrintNot;
  }

  lemma OrNext(ts: seq<string>, i: nat, l: Expr, r: Expr, k: nat, accepts: Accepts)
    requires i < |ts| && k <= |ts| && IsOr(ts[i]) && ParseAnd(ts, i + 1, accepts) == Ok(Parsed(r, k))
    ensures OrRest(ts, i, l, accepts) == OrRest(ts, k, Or(l, r), accepts)
  {
    hide ParseAnd;
  }

  lemma OrStarts(ts: seq<string>, i: nat, e: Expr, k: nat, accepts: Accepts)
    requires i <= |ts| && k <= |ts| && ParseAnd(ts, i, accepts) == Ok(Parsed(e, k))
    ensures ParseOr(ts, i, accepts) == OrRest(ts, k, e, accepts)
  {
    hide ParseAnd, OrRest;
  }

  /** A printed disjunction is the left operand of whatever follows it. */
  lemma {:induction false} OrReads(ts: seq<string>, i: nat, e: Expr, y: Style, accepts: Accepts)
    requires WellFormed(e, accepts) && Here(ts, i, PrintOr(e, y)) && i <= |ts|
    requires !StartsPrimary(ts, i + |PrintOr(e, y)|)
    ensures i + |PrintOr(e, y)| <= |ts|
    ensures ParseOr(ts, i, accepts) == OrRest(ts, i + |PrintOr(e, y)|, e, accepts)
    decreases Size(e), 3
  {
    hide Here, ParseOr, ParseAnd, PrintOr, PrintAnd, OrRest, StartsPrimary, WellFormed;
    HereWithin(ts, i, PrintOr(e, y));
    match e
    case Or(l, r) =>
      OrParts(l, r, y, accepts);
      var left, right := PrintOr(l, y), PrintAnd(r, y);
      DisjunctionSplits(ts, i, left, OrToken(y), right);
      OrIsNoStart(ts, i + |left|);
      OrReads(ts, i, l, y, accepts);
      HereWithin(ts, i + |left| + 1, right);
      AndReads(ts, i + |left| + 1, r, y, accepts);
      OrNext(ts, i + |left|, l, r, i + |left| + 1 + |right|, accepts);
    case _ =>
      NoOr(e, y);
      AndReads(ts, i, e, y, accepts);
      OrStarts(ts, i, e, i + |PrintAnd(e, y)|, accepts);
  }

  lemma OrParts(l: Expr, r: Expr, y: Style, accepts: Accepts)
    requires WellFormed(Or(l, r), accepts)
    ensures WellFormed(l, accepts) && WellFormed(r, accepts)
    ensures PrintOr(Or(l, r), y) == PrintOr(l, y) + [OrToken(y)] + PrintAnd(r, y)
    ensures Size(l) < Size(Or(l, r)) && Size(r) < Size(Or(l, r))
  {
    hide PrintAnd;
  }

  lemma NoOr(e: Expr, y: Style)
    requires !e.Or?
    ensures PrintOr(e, y) == PrintAnd(e, y)
  {
    hide PrintAnd;
  }

  lemma DisjunctionSplits(ts: seq<string>, i: nat, left: seq<string>, t: string, right: seq<string>)
    requires Here(ts, i, left + [t] + right)
    ensures Here(ts, i, left) && i + |left| < |ts| && ts[i + |left|] == t && Here(ts, i + |left| + 1, right)
  {
    assert left + [t] + right == left + ([t] + right);
    HereSplits(ts, i, left, [t] + right);
    HereSplits(ts, i + |left|, [t], right);
    HereAt(ts, i + |left|, [t], 0);
  }

  lemma OrIsNoStart(ts: seq<string>, i: nat)
    requires i < |ts| && IsOr(ts[i])
    ensures !StartsPrimary(ts, i)
  {
  }

  /** Printing with minimal parentheses and reading back gives the same tree and
      uses up all tokens: not binds tightest, then explicit or implicit and, then
      or, which groups to the left; groups keep their shape. */
  lemma PrintThenParse(e: Expr, y: Style, accepts: Accepts)
    requires WellFormed(e, accepts)
    ensures ParseWhole(PrintOr(e, y), accepts) == Ok(e)
  {
    hide ParseOr, OrRest, PrintOr;
    var ts := PrintOr(e, y);
    assert ts[0..0 + |ts|] == ts;
    OrReads(ts, 0, e, y, accepts);
    OrEnds(ts, |ts|, e, accepts);
  }

  // ----- What the parser returns -----

  lemma FlagsAreCanonical(token: string)
    requires ShapeOf(token).Some?
    ensures ShapeOf(ShapeOf(token).value.1) == ShapeOf(token)
  {
  }

  lemma {:induction false} ExecIsWellFormed(ts: seq<string>, i: nat, flag: string, argv: seq<string>, accepts: Accepts)
    requires i <= |ts| && ShapeOf(flag) == Some((ExecLike, flag)) && ";" !in argv && "+" !in argv
    ensures var p := TakeExec(ts, i, flag, argv); p.Ok? ==> WellFormed(p.value.expr, accepts)
    decreases |ts| - i
  {
    hide ShapeOf;
    if i < |ts| && ts[i] != ";" && ts[i] != "+" { ExecIsWellFormed(ts, i + 1, flag, argv + [ts[i]], accepts); }
  }

  lemma AtomIsWellFormed(ts: seq<string>, i: nat, accepts: Accepts)
    requires i <= |ts|
    ensures var p := ParseAtom(ts, i, accepts); p.Ok? ==> WellFormed(p.value.expr, accepts)
  {
    if i < |ts| && ShapeOf(ts[i]).Some? {
      FlagsAreCanonical(ts[i]);
      var flag := ShapeOf(ts[i]).value.1;
      hide ShapeOf;
      if ShapeOf(ts[i]).value.0 == ExecLike { ExecIsWellFormed(ts, i + 1, flag, [], accepts); }
    }
  }

  lemma {:induction false} PrimaryIsWellFormed(ts: seq<string>, i: nat, accepts: Accepts)
    requires i <= |ts|
    ensures var p := ParsePrimary(ts, i, accepts); p.Ok? ==> WellFormed(p.value.expr, accepts)
    decreases |ts| - i, 1
  {
    AtomIsWellFormed(ts, i, accepts);
    hide ParseOr, ParseAtom, WellFormed, ShapeOf;
    if i < |ts| && ts[i] == "(" { OrIsWellFormed(ts, i + 1, accepts); }
  }

  lemma {:induction false} NotIsWellFormed(ts: seq<string>, i: nat, accepts: Accepts)
    requires i <= |ts|
    ensures var p := ParseNot(ts, i, accepts); p.Ok? ==> WellFormed(p.value.expr, accepts)
    decreases |ts| - i, 2
  {
    hide ParsePrimary;
    if At(ts, i, IsNot) { NotIsWellFormed(ts, i + 1, accepts); } else { PrimaryIsWellFormed(ts, i, accepts); }
  }

  lemma {:induction false} AllWellFormedPush(items: seq<Expr>, e: Expr, accepts: Accepts)
    requires AllWellFormed(items, accepts) && WellFormed(e, accepts)
    ensures AllWellFormed(items + [e], accepts)
    decreases |items|
  {
    hide WellFormed;
    if items == [] {
      assert AllWellFormed([e][1..], accepts);
    } else {
      AllWellFormedPush(items[1..], e, accepts);
      assert (items + [e])[1..] == items[1..] + [e];
    }
  }

  lemma {:induction false} AndRestIsWellFormed(ts: seq<string>, i: nat, items: seq<Expr>, accepts: Accepts)
    requires i <= |ts| && items != [] && AllWellFormed(items, accepts)
    ensures var p := AndRest(ts, i, items, accepts); p.Ok? ==> WellFormed(p.value.expr, accepts)
    decreases |ts| - i, 3
  {
    hide ParseNot, AllWellFormed;
    if StartsPrimary(ts, i) {
      var j := if IsAnd(ts[i]) then i + 1 else i;
      NotIsWellFormed(ts, j, accepts);
      var p := ParseNot(ts, j, accepts);
      if p.Ok? {
        AllWellFormedPush(items, p.value.expr, accepts);
        AndRestIsWellFormed(ts, p.value.next, items + [p.value.expr], accepts);
      }
    } else if |items| == 1 {
      OnlyItem(items, accepts);
    }
  }

  lemma OnlyItem(items: seq<Expr>, accepts: Accepts)
    requires |items| == 1 && AllWellFormed(items, accepts)
    ensures WellFormed(items[0], accepts)
  {
  }

  lemma {:induction false} AndIsWellFormed(ts: seq<string>, i: nat, accepts: Accepts)
    requires i <= |ts|
    ensures var p := ParseAnd(ts, i, accepts); p.Ok? ==> WellFormed(p.value.expr, accepts)
    decreases |ts| - i, 4
  {
    NotIsWellFormed(ts, i, accepts);
    var p := ParseNot(ts, i, accepts);
    hide ParseNot, AndRest, WellFormed;
    if p.Ok? {
      AllWellFormedPush([], p.value.expr, accepts);
      assert [] + [p.value.expr] == [p.value.expr];
      AndRestIsWellFormed(ts, p.value.next, [p.value.expr], accepts);
    }
  }

  lemma {:induction false} OrRestIsWellFormed(ts: seq<string>, i: nat, left: Expr, accepts: Accepts)
    requires i <= |ts| && WellFormed(left, accepts)
    ensures var p := OrRest(ts, i, left, accepts); p.Ok? ==> WellFormed(p.value.expr, accepts)
    decreases |ts| - i, 5
  {
    hide ParseAnd;
    if At(ts, i, IsOr) {
      AndIsWellFormed(ts, i + 1, accepts);
      var p := ParseAnd(ts, i + 1, accepts);
      if p.Ok? { OrRestIsWellFormed(ts, p.value.next, Or(left, p.value.expr), accepts); }
    }
  }

  lemma {:induction false} OrIsWellFormed(ts: seq<string>, i: nat, accepts: Accepts)
    requires i <= |ts|
    ensures var p := ParseOr(ts, i, accepts); p.Ok? ==> WellFormed(p.value.expr, accepts)
    decreases |ts| - i, 6
  {
    hide ParseAnd, OrRest, WellFormed;
    AndIsWellFormed(ts, i, accepts);
    var p := ParseAnd(ts, i, accepts);
    if p.Ok? { OrRestIsWellFormed(ts, p.value.next, p.value.expr, accepts); }
  }

  /** Whatever token list is accepted, printing its tree gives a token list with
      the same tree. */
  lemma ParseThenPrint(ts: seq<string>, y: Style, accepts: Accepts)
    requires ParseWhole(ts, accepts).Ok?
    ensures WellFormed(ParseWhole(ts, accepts).value, accepts)
    ensures ParseWhole(PrintOr(ParseWhole(ts, accepts).value, y), accepts) == ParseWhole(ts, accepts)
  {
    hide ParseOr, PrintOr, WellFormed;
    OrIsWellFormed(ts, 0, accepts);
    PrintThenParse(ParseWhole(ts, accepts).value, y, accepts);
  }

  // ----- The parser as it runs: a cursor moving over the tokens -----

  class Cursor {
    const tokens: seq<string>
    const accepts: Accepts
    var index: nat

    constructor (tokens: seq<string>, accepts: Accepts)
      ensures this.tokens == tokens && this.accepts == accepts && index == 0
    {
      this.tokens := tokens;
      this.accepts := accepts;
      index := 0;
    }

    ghost predicate Valid()
      reads this
    {
      index <= |tokens|
    }

    /** The outcome of a sub-parser: the cursor stands behind what was parsed. */
    ghost predicate Follows(r: Result<Expr, ParseError>, p: Parse)
      reads this
    {
      && Valid()
      && (p.Ok? ==> r == Ok(p.value.expr) && index == p.value.next)
      && (p.Err? ==> r == Err(p.error))
    }

    method Peek() returns (t: Option<string>)
      requires Valid()
      ensures t == if index < |tokens| then Some(tokens[index]) else None
    {
      t := if index < |tokens| then Some(tokens[index]) else None;
    }

    method Bump() returns (t: Option<string>)
      requires Valid()
      modifies this
      ensures Valid()
      ensures t == if old(index) < |tokens| then Some(tokens[old(index)]) else None
      ensures index == if old(index) < |tokens| then old(index) + 1 else old(index)
    {
      t := Peek();
      if t.Some? { index := index + 1; }
    }

    method ExpectEnd() returns (r: Option<ParseError>)
      requires Valid()
      ensures r == if index < |tokens| then Some(Trailing(tokens[index])) else None
    {
      r := if index < |tokens| then Some(Trailing(tokens[index])) else None;
    }

    method TakeExecAction(flag: string) returns (r: Result<Expr, ParseError>)
      requires Valid()
      modifies this
      ensures Follows(r, TakeExec(tokens, old(index), flag, []))
    {
      var argv: seq<string> := [];
      ghost var whole := TakeExec(tokens, index, flag, []);
      while true
        invariant Valid() && whole == TakeExec(tokens, index, flag, argv)
        decreases |tokens| - index
      {
        var token := Bump();
        if token.None? { return Err(Unterminated); }
        if token.value == ";" { return Ok(Leaf(Exec(flag, argv, false))); }
        if token.value == "+" { return Ok(Leaf(Exec(flag, argv, true))); }
        argv := argv + [token.value];
      }
    }

    method Atom() returns (r: Result<Expr, ParseError>)
      requires Valid()
      modifies this
      ensures Follows(r, ParseAtom(tokens, old(index), accepts))
    {
      var token := Bump();
      if token.None? { return Err(ExpectedAtom); }
      var shape := ShapeOf(token.value);
      hide ShapeOf, TakeExec;
      match shape {
        case None => return Err(Unsupported(token.value));
        case Some((NoArgs, flag)) => return Ok(Leaf(Bare(flag)));
        case Some((ArgsOne, flag)) =>
          var arg := Bump();
          if arg.None? { return Err(MissingArgument(flag)); }
          if !accepts(flag, arg.value) { return Err(BadArgument(flag, arg.value)); }
          return Ok(Leaf(OneArg(flag, arg.value)));
        case Some((ArgsTwo, flag)) =>
          var first := Bump();
          if first.None? { return Err(MissingArgument(flag)); }
          var second := Bump();
          if second.None? { return Err(MissingArgument(flag)); }
          return Ok(Leaf(TwoArgs(flag, first.value, second.value)));
        case Some((ExecLike, flag)) =>
          ExecMoves(tokens, index, flag, []);
          r := TakeExecAction(flag);
      }
    }

    method Primary() returns (r: Result<Expr, ParseError>)
      requires Valid()
      modifies this
      ensures Follows(r, ParsePrimary(tokens, old(index), accepts))
      decreases |tokens| - index, 1
    {
      hide ParseAtom, ParseOr, ShapeOf;
      var token := Peek();
      if token == Some("(") {
        var _ := Bump();
        r := OrExpression();
        if r.Err? { return; }
        var close := Bump();
        if close != Some(")") { return Err(ExpectedClose); }
      } else if token == Some(")") {
        return Err(UnexpectedClose);
      } else {
        r := Atom();
      }
    }

    method NotExpression() returns (r: Result<Expr, ParseError>)
      requires Valid()
      modifies this
      ensures Follows(r, ParseNot(tokens, old(index), accepts))
      decreases |tokens| - index, 2
    {
      hide ParsePrimary;
      var token := Peek();
      if token.Some? && IsNot(token.value) {
        var _ := Bump();
        var inner := NotExpression();
        return if inner.Ok? then Ok(Not(inner.value)) else inner;
      }
      r := Primary();
    }

    method AndExpression() returns (r: Result<Expr, ParseError>)
      requires Valid()
      modifies this
      ensures Follows(r, ParseAnd(tokens, old(index), accepts))
      decreases |tokens| - index, 4
    {
      hide ParseNot;
      ghost var start := index;
      r := NotExpression();
      if r.Err? { return; }
      var items := [r.value];
      while true
        invariant Valid() && items != [] && start < index
        invariant ParseAnd(tokens, start, accepts) == AndRest(tokens, index, items, accepts)
        decreases |tokens| - index
      {
        var token := Peek();
        if token.Some? && IsAnd(token.value) {
          var _ := Bump();
          r := NotExpression();
          if r.Err? { return; }
          items := items + [r.value];
        } else if token.Some? && token.value != ")" && !IsOr(token.value) {
          r := NotExpression();
          if r.Err? { return; }
          items := items + [r.value];
        } else {
          return Ok(Conjunction(items));
        }
      }
    }

    method OrExpression() returns (r: Result<Expr, ParseError>)
      requires Valid()
      modifies this
      ensures Follows(r, ParseOr(tokens, old(index), accepts))
      decreases |tokens| - index, 6
    {
      hide ParseAnd;
      ghost var start := index;
      r := AndExpression();
      if r.Err? { return; }
      var left := r.value;
      var token := Peek();
      while token.Some? && IsOr(token.value)
        invariant Valid() && start < index && token == (if index < |tokens| then Some(tokens[index]) else None)
        invariant ParseOr(tokens, start, accepts) == OrRest(tokens, index, left, accepts)
        decreases |tokens| - index
      {
        var _ := Bump();
        r := AndExpression();
        if r.Err? { return; }
        left := Or(left, r.value);
        token := Peek();
      }
      r := Ok(left);
    }
  }

  method ParseTokens(ts: seq<string>, accepts: Accepts) returns (r: Result<Expr, ParseError>)
    ensures r == ParseWhole(ts, accepts)
  {
    hide ParseOr;
    var cursor := new Cursor(ts, accepts);
    r := cursor.OrExpression();
    if r.Err? { return; }
    var trailing := cursor.ExpectEnd();
    if trailing.Some? { return Err(trailing.value); }
  }
}
