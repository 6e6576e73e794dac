/** The lexer of the GNU regular expression dialects. */
module GnuLexer {
  import opened Basics
  import opened GnuClasses
  import R = GnuRegex

  datatype Dialect = PosixExtended | PosixBasic | Emacs

  // ----- Bounds -----

  predicate IsDigit(b: Byte) {
    '0' <= b <= '9'
  }

  predicate AllDigits(s: seq<Byte>) {
    forall i :: 0 <= i < |s| ==> IsDigit(s[i])
  }

  function Number(s: seq<Byte>): nat
    requires AllDigits(s)
  {
    if s == [] then 0 else assert IsDigit(s[|s| - 1]); 10 * Number(s[..|s| - 1]) + (s[|s| - 1] as int - '0' as int)
  }

  const U32_LIMIT: nat := 0x1_0000_0000

  function Comma(s: seq<Byte>): (c: Option<nat>)
    ensures c.Some? ==> c.value < |s|
  {
    if s == [] then None
    else if s[0] == ',' then Some(0)
    else match Comma(s[1..]) case None => None case Some(c) => Some(c + 1)
  }

  /** {n}, {n,}, {,m} and {n,m}, with numbers of 32 bits. */
  function ParseBody(body: seq<Byte>): Result<R.Repetition, LexError> {
    match Comma(body)
    case Some(c) =>
      var left, right := body[..c], body[c + 1..];
      if !AllDigits(left) || !AllDigits(right) || Number(left) >= U32_LIMIT || Number(right) >= U32_LIMIT then Err(MalformedBound)
      else Ok(R.Bounded(Number(left), if right == [] then None else Some(Number(right))))
    case None =>
      if body == [] || !AllDigits(body) || Number(body) >= U32_LIMIT then Err(MalformedBound)
      else Ok(R.Bounded(Number(body), Some(Number(body))))
  }

  /** The first closing brace from i on. */
  function BraceFrom(s: seq<Byte>, i: nat): (e: Option<nat>)
    ensures e.Some? ==> i <= e.value < |s|
    decreases |s| - i
  {
    if i >= |s| then None else if s[i] == '}' then Some(i) else BraceFrom(s, i + 1)
  }

  /** The first closing brace behind a backslash from i on. */
  function QuotedBraceFrom(s: seq<Byte>, i: nat): (e: Option<nat>)
    ensures e.Some? ==> i <= e.value < |s| - 1
    decreases |s| - i
  {
    if i + 1 >= |s| then None
    else if s[i] == '\\' && s[i + 1] == '}' then Some(i)
    else QuotedBraceFrom(s, i + 1)
  }

  // ----- One token -----

  datatype Lexed = Lexed(token: R.Token, next: nat, depth: nat)

  type LexResult = Result<Lexed, LexError>

  function ExtendedBound(s: seq<Byte>, i: nat, depth: nat): LexResult {
    match BraceFrom(s, i)
    case None => Err(UnterminatedBound)
    case Some(e) => match ParseBody(s[i..e]) case Err(error) => Err(error) case Ok(kind) => Ok(Lexed(R.Quantifier(kind), e + 1, depth))
  }

  function BasicBound(s: seq<Byte>, i: nat, depth: nat): LexResult {
    match QuotedBraceFrom(s, i)
    case None => Err(UnterminatedBound)
    case Some(e) => match ParseBody(s[i..e]) case Err(error) => Err(error) case Ok(kind) => Ok(Lexed(R.Quantifier(kind), e + 2, depth))
  }

  /** Word classes and assertions, which two dialects share. */
  function WordEscape(e: Byte): Option<R.Token> {
    if e == 'w' then Some(R.WordByteClass(false))
    else if e == 'W' then Some(R.WordByteClass(true))
    else if e == 'b' then Some(R.Assert(R.WordBoundary))
    else if e == 'B' then Some(R.Assert(R.NotWordBoundary))
    else if e == '<' then Some(R.Assert(R.WordStart))
    else if e == '>' then Some(R.Assert(R.WordEnd))
    else if e == '`' then Some(R.Assert(R.BufferStart))
    else if e == '\'' then Some(R.Assert(R.BufferEnd))
    else None
  }

  function ExtendedEscape(s: seq<Byte>, i: nat, depth: nat): LexResult {
    if i >= |s| then Err(TrailingBackslash)
    else
      var e := s[i];
      if '1' <= e <= '9' then Ok(Lexed(R.Backreference(e as int - '0' as int), i + 1, depth))
      else if WordEscape(e).Some? then Ok(Lexed(WordEscape(e).value, i + 1, depth))
      else if e in "\\.^$*+?()|{}[]" then Ok(Lexed(R.Literal(e), i + 1, depth))
      else Err(UnsupportedEscape(e))
  }

  function BasicEscape(s: seq<Byte>, i: nat, d: Dialect, depth: nat, canRepeat: bool): LexResult {
    if i >= |s| then Err(TrailingBackslash)
    else
      var e := s[i];
      if '1' <= e <= '9' then Ok(Lexed(R.Backreference(e as int - '0' as int), i + 1, depth))
      else if e == '(' then Ok(Lexed(R.GroupOpen, i + 1, depth + 1))
      else if e == ')' then (if depth == 0 then Err(UnmatchedClose) else Ok(Lexed(R.GroupClose, i + 1, depth - 1)))
      else if e == '|' then Ok(Lexed(R.Alternation, i + 1, depth))
      else if e == '{' && canRepeat then BasicBound(s, i + 1, depth)
      else if d.Emacs? then Ok(Lexed(R.Literal(e), i + 1, depth))
      else if e == '+' then Ok(Lexed(if canRepeat then R.Quantifier(R.OneOrMore) else R.Literal(e), i + 1, depth))
      else if e == '?' then Ok(Lexed(if canRepeat then R.Quantifier(R.ZeroOrOne) else R.Literal(e), i + 1, depth))
      else if WordEscape(e).Some? then Ok(Lexed(WordEscape(e).value, i + 1, depth))
      else if e in "{\\.^$*[]}" then Ok(Lexed(R.Literal(e), i + 1, depth))
      else Err(UnsupportedEscape(e))
  }

  /** A dollar ends a pattern, a group or a branch. */
  predicate DollarIsAnchor(s: seq<Byte>, i: nat) {
    i >= |s| || (s[i] == '\\' && i + 1 < |s| && s[i + 1] in ")|")
  }

  function ClassToken(s: seq<Byte>, i: nat, depth: nat): LexResult
    requires i <= |s|
  {
    match LexClass(s, i) case Err(error) => Err(error) case Ok((brackets, next)) => Ok(Lexed(R.Class(brackets), next, depth))
  }

  function ExtendedToken(s: seq<Byte>, i: nat, depth: nat, canRepeat: bool): LexResult
    requires i < |s|
  {
    var b := s[i];
    if b == '\\' then ExtendedEscape(s, i + 1, depth)
    else if b == '(' then Ok(Lexed(R.GroupOpen, i + 1, depth + 1))
    else if b == ')' then (if depth == 0 then Ok(Lexed(R.Literal(b), i + 1, 0)) else Ok(Lexed(R.GroupClose, i + 1, depth - 1)))
    else if b == '|' then Ok(Lexed(R.Alternation, i + 1, depth))
    else if b == '*' then Ok(Lexed(R.Quantifier(R.ZeroOrMore), i + 1, depth))
    else if b == '+' then Ok(Lexed(R.Quantifier(R.OneOrMore), i + 1, depth))
    else if b == '?' then Ok(Lexed(R.Quantifier(R.ZeroOrOne), i + 1, depth))
    else if b == '{' && canRepeat then ExtendedBound(s, i + 1, depth)
    else if b == '[' then ClassToken(s, i + 1, depth)
    else if b == '.' then Ok(Lexed(R.Dot, i + 1, depth))
    else if b == '^' then Ok(Lexed(R.AnchorStart, i + 1, depth))
    else if b == '$' then Ok(Lexed(R.AnchorEnd, i + 1, depth))
    else Ok(Lexed(R.Literal(b), i + 1, depth))
  }

  function BasicToken(s: seq<Byte>, i: nat, depth: nat, canRepeat: bool): LexResult
    requires i < |s|
  {
    var b := s[i];
    if b == '\\' then BasicEscape(s, i + 1, PosixBasic, depth, canRepeat)
    else if b == '*' && canRepeat then Ok(Lexed(R.Quantifier(R.ZeroOrMore), i + 1, depth))
    else if b == '[' then ClassToken(s, i + 1, depth)
    else if b == '.' then Ok(Lexed(R.Dot, i + 1, depth))
    else if b == '^' then Ok(Lexed(R.AnchorStart, i + 1, depth))
    else if b == '$' then Ok(Lexed(R.AnchorEnd, i + 1, depth))
    else Ok(Lexed(R.Literal(b), i + 1, depth))
  }

  function EmacsToken(s: seq<Byte>, i: nat, depth: nat, canRepeat: bool, branchStart: bool): LexResult
    requires i < |s|
  {
    var b := s[i];
    if b == '\\' then BasicEscape(s, i + 1, Emacs, depth, canRepeat)
    else if b == '^' && branchStart then Ok(Lexed(R.AnchorStart, i + 1, depth))
    else if b == '$' && DollarIsAnchor(s, i + 1) then Ok(Lexed(R.AnchorEnd, i + 1, depth))
    else if b == '*' && canRepeat then Ok(Lexed(R.Quantifier(R.ZeroOrMore), i + 1, depth))
    else if b == '+' && canRepeat then Ok(Lexed(R.Quantifier(R.OneOrMore), i + 1, depth))
    else if b == '?' && canRepeat then Ok(Lexed(R.Quantifier(R.ZeroOrOne), i + 1, depth))
    else if b == '[' then ClassToken(s, i + 1, depth)
    else if b == '.' then Ok(Lexed(R.Dot, i + 1, depth))
    else Ok(Lexed(R.Literal(b), i + 1, depth))
  }

  function LexOne(s: seq<Byte>, i: nat, d: Dialect, depth: nat, canRepeat: bool, branchStart: bool): LexResult
    requires i < |s|
  {
    match d
    case PosixExtended => ExtendedToken(s, i, depth, canRepeat)
    case PosixBasic => BasicToken(s, i, depth, canRepeat)
    case Emacs => EmacsToken(s, i, depth, canRepeat, branchStart)
  }

  /** A quantifier in a dialect that asks may follow this token. */
  predicate Repeatable(t: R.Token) {
    t.Literal? || t.Dot? || t.Class? || t.GroupClose? || t.WordByteClass?
  }

  predicate StartsBranch(t: R.Token) {
    t.GroupOpen? || t.Alternation?
  }

  // ----- All tokens -----

  type Tokens = Result<seq<R.Token>, LexError>

  ghost function LexFrom(s: seq<Byte>, i: nat, d: Dialect, depth: nat, canRepeat: bool, branchStart: bool): Tokens
    decreases |s| - i
  {
    if i >= |s| then (if depth == 0 then Ok([]) else Err(UnclosedGroup))
    else
      TokenMoves(s, i, d, depth, canRepeat, branchStart);
      match LexOne(s, i, d, depth, canRepeat, branchStart)
      case Err(error) => Err(error)
      case Ok(l) => After([l.token], LexFrom(s, l.next, d, l.depth, Repeatable(l.token), StartsBranch(l.token)))
  }

  function After(ts: seq<R.Token>, r: Tokens): Tokens {
    match r case Err(error) => Err(error) case Ok(rest) => Ok(ts + rest)
  }

  lemma AfterNothing(r: Tokens)
    ensures After([], r) == r
  {
    if r.Ok? { assert [] + r.value == r.value; }
  }

  /** What one token does to the brackets, and how it stands to the one before. */
  predicate Orderly(d: Dialect, depth: nat, canRepeat: bool, l: Lexed) {
    && (if l.token.GroupOpen? then l.depth == depth + 1
        else if l.token.GroupClose? then depth > 0 && l.depth == depth - 1
        else l.depth == depth)
    && (l.token.Quantifier? && !d.PosixExtended? ==> canRepeat)
  }

  lemma TokenMoves(s: seq<Byte>, i: nat, d: Dialect, depth: nat, canRepeat: bool, branchStart: bool)
    requires i < |s|
    ensures var r := LexOne(s, i, d, depth, canRepeat, branchStart);
      r.Ok? ==> i < r.value.next <= |s| && Orderly(d, depth, canRepeat, r.value)
  {
    hide ExtendedToken, BasicToken, EmacsToken, Orderly;
    match d
    case PosixExtended => ExtendedMoves(s, i, depth, canRepeat);
    case PosixBasic => BasicMoves(s, i, depth, canRepeat);
    case Emacs => EmacsMoves(s, i, depth, canRepeat, branchStart);
  }

  ghost predicate Moves(s: seq<Byte>, i: nat, d: Dialect, depth: nat, canRepeat: bool, r: LexResult) {
    r.Ok? ==> i < r.value.next <= |s| && Orderly(d, depth, canRepeat, r.value)
  }

  lemma ClassMoves(s: seq<Byte>, i: nat, d: Dialect, depth: nat, canRepeat: bool)
    requires i < |s|
    ensures Moves(s, i, d, depth, canRepeat, ClassToken(s, i + 1, depth))
  {
  }

  lemma ExtendedMoves(s: seq<Byte>, i: nat, depth: nat, canRepeat: bool)
    requires i < |s|
    ensures Moves(s, i, PosixExtended, depth, canRepeat, ExtendedToken(s, i, depth, canRepeat))
  {
    ClassMoves(s, i, PosixExtended, depth, canRepeat);
    hide ParseBody, ClassToken, WordEscape;
    if i + 1 < |s| { WordsAreNoBrackets(s[i + 1]); }
  }

  lemma BasicEscapeMoves(s: seq<Byte>, i: nat, d: Dialect, depth: nat, canRepeat: bool)
    requires i < |s|
    ensures Moves(s, i, d, depth, canRepeat, BasicEscape(s, i + 1, d, depth, canRepeat))
  {
    hide ParseBody, WordEscape;
    if i + 1 < |s| { WordsAreNoBrackets(s[i + 1]); }
  }

  lemma BasicMoves(s: seq<Byte>, i: nat, depth: nat, canRepeat: bool)
    requires i < |s|
    ensures Moves(s, i, PosixBasic, depth, canRepeat, BasicToken(s, i, depth, canRepeat))
  {
    ClassMoves(s, i, PosixBasic, depth, canRepeat);
    BasicEscapeMoves(s, i, PosixBasic, depth, canRepeat);
    hide ClassToken, BasicEscape;
  }

  lemma EmacsMoves(s: seq<Byte>, i: nat, depth: nat, canRepeat: bool, branchStart: bool)
    requires i < |s|
    ensures Moves(s, i, Emacs, depth, canRepeat, EmacsToken(s, i, depth, canRepeat, branchStart))
  {
    ClassMoves(s, i, Emacs, depth, canRepeat);
    BasicEscapeMoves(s, i, Emacs, depth, canRepeat);
    hide ClassToken, BasicEscape, DollarIsAnchor;
  }

  lemma WordsAreNoBrackets(e: Byte)
    ensures WordEscape(e).Some? ==> R.IsBracketFree(WordEscape(e).value) && !WordEscape(e).value.Quantifier?
  {
  }

  /** Lexing from i on, after the tokens so far. */
  lemma LexStep(tokens: seq<R.Token>, s: seq<Byte>, i: nat, d: Dialect, depth: nat, canRepeat: bool, branchStart: bool)
    ensures var whole := After(tokens, LexFrom(s, i, d, depth, canRepeat, branchStart));
      if i >= |s| then whole == (if depth == 0 then Ok(tokens) else Err(UnclosedGroup))
      else match LexOne(s, i, d, depth, canRepeat, branchStart)
        case Err(error) => whole == Err(error)
        case Ok(l) =>
          whole == After(tokens + [l.token], LexFrom(s, l.next, d, l.depth, Repeatable(l.token), StartsBranch(l.token)))
  {
    hide LexOne, Repeatable, StartsBranch;
    if i < |s| {
      var one := LexOne(s, i, d, depth, canRepeat, branchStart);
      if one.Ok? {
        var l := one.value;
        AfterTwice(tokens, l.token, LexFrom(s, l.next, d, l.depth, Repeatable(l.token), StartsBranch(l.token)));
      }
    } else {
      assert tokens + [] == tokens;
    }
  }

  lemma AfterTwice(tokens: seq<R.Token>, t: R.Token, r: Tokens)
    ensures After(tokens, After([t], r)) == After(tokens + [t], r)
  {
    if r.Ok? { assert tokens + ([t] + r.value) == (tokens + [t]) + r.value; }
  }

  /** Token by token, with the depth, the possible operand and the start of a branch
      carried along. */
  method LexTokens(pattern: seq<Byte>, d: Dialect) returns (r: Tokens)
    ensures r == LexFrom(pattern, 0, d, 0, false, true)
  {
    hide LexOne, LexFrom, After, Repeatable, StartsBranch;
    var tokens: seq<R.Token> := [];
    AfterNothing(LexFrom(pattern, 0, d, 0, false, true));
    var index, depth, canRepeat, branchStart := 0, 0, false, true;
    while index < |pattern|
      invariant index <= |pattern|
      invariant After(tokens, LexFrom(pattern, index, d, depth, canRepeat, branchStart))
             == LexFrom(pattern, 0, d, 0, false, true)
      decreases |pattern| - index
    {
      TokenMoves(pattern, index, d, depth, canRepeat, branchStart);
      LexStep(tokens, pattern, index, d, depth, canRepeat, branchStart);
      var one := LexOne(pattern, index, d, depth, canRepeat, branchStart);
      if one.Err? { return Err(one.error); }
      var l := one.value;
      tokens := tokens + [l.token];
      index, depth, canRepeat, branchStart := l.next, l.depth, Repeatable(l.token), StartsBranch(l.token);
    }
    LexStep(tokens, pattern, index, d, depth, canRepeat, branchStart);
    if depth != 0 { return Err(UnclosedGroup); }
    r := Ok(tokens);
  }

  // ----- What lexing promises the parser -----

  /** What the lexer lets through is balanced. */
  lemma {:induction false} LexedIsBalanced(s: seq<Byte>, i: nat, d: Dialect, depth: nat, canRepeat: bool, branchStart: bool)
    ensures var r := LexFrom(s, i, d, depth, canRepeat, branchStart); r.Ok? ==> R.Balanced(r.value, 0, depth)
    decreases |s| - i
  {
    hide LexOne;
    if i < |s| && LexFrom(s, i, d, depth, canRepeat, branchStart).Ok? {
      TokenMoves(s, i, d, depth, canRepeat, branchStart);
      var l := LexOne(s, i, d, depth, canRepeat, branchStart).value;
      LexedIsBalanced(s, l.next, d, l.depth, Repeatable(l.token), StartsBranch(l.token));
      var rest := LexFrom(s, l.next, d, l.depth, Repeatable(l.token), StartsBranch(l.token)).value;
      R.BalancedShift(l.token, rest, 0, l.depth);
    }
  }

  /** Every quantifier follows a token that can be repeated. */
  predicate Follows(ts: seq<R.Token>, canRepeat: bool) {
    forall j :: 0 <= j < |ts| ==> FollowsAt(ts, j, canRepeat)
  }

  predicate FollowsAt(ts: seq<R.Token>, j: nat, canRepeat: bool)
    requires j < |ts|
  {
    ts[j].Quantifier? ==> if j == 0 then canRepeat else Repeatable(ts[j - 1])
  }

  lemma {:induction false} QuantifiersFollow(s: seq<Byte>, i: nat, d: Dialect, depth: nat, canRepeat: bool, branchStart: bool)
    requires !d.PosixExtended?
    ensures var r := LexFrom(s, i, d, depth, canRepeat, branchStart); r.Ok? ==> Follows(r.value, canRepeat)
    decreases |s| - i
  {
    hide LexOne;
    if i < |s| && LexFrom(s, i, d, depth, canRepeat, branchStart).Ok? {
      TokenMoves(s, i, d, depth, canRepeat, branchStart);
      var l := LexOne(s, i, d, depth, canRepeat, branchStart).value;
      QuantifiersFollow(s, l.next, d, l.depth, Repeatable(l.token), StartsBranch(l.token));
      var rest := LexFrom(s, l.next, d, l.depth, Repeatable(l.token), StartsBranch(l.token)).value;
      var ts := [l.token] + rest;
      forall j | 0 <= j < |ts| ensures FollowsAt(ts, j, canRepeat) {
        if j > 0 { assert FollowsAt(rest, j - 1, Repeatable(l.token)); }
      }
    }
  }

  /** What the lexer lets through parses, in the basic and Emacs dialects always, and
      in the extended dialect if and only if no quantifier stands at the start of a
      sequence; no group is unclosed and no input trails. */
  lemma LexedParses(s: seq<Byte>, d: Dialect)
    requires LexFrom(s, 0, d, 0, false, true).Ok?
    ensures var ts := LexFrom(s, 0, d, 0, false, true).value;
      && (R.ParseWhole(ts).Err? ==> R.ParseWhole(ts).error == R.MissingOperand)
      && (R.ParseWhole(ts).Ok? <==> forall j :: 0 <= j < |ts| ==> !R.Starved(ts, j))
      && (!d.PosixExtended? ==> R.ParseWhole(ts).Ok?)
  {
    hide LexFrom, R.ParseWhole, R.Balanced;
    var ts := LexFrom(s, 0, d, 0, false, true).value;
    LexedIsBalanced(s, 0, d, 0, false, true);
    R.BalancedParses(ts);
    R.ParsesUnlessStarved(ts);
    if !d.PosixExtended? {
      QuantifiersFollow(s, 0, d, 0, false, true);
      forall j | 0 <= j < |ts| ensures !R.Starved(ts, j) {
        assert FollowsAt(ts, j, false);
      }
    }
  }
}
