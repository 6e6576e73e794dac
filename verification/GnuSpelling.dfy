/** How tokens are written in the GNU regular expression dialects, and that the lexer
    reads exactly what is so written. */
module GnuSpelling {
  import opened Basics
  import opened GnuClasses
  import opened GnuLexer
  import R = GnuRegex

  // ----- What a token looks like -----

  /** What a token depends on: the groups that are open, whether the token before it can
      be repeated, and whether it opens a branch. */
  datatype Context = Context(depth: nat, canRepeat: bool, branchStart: bool)

  const START := Context(0, false, true)

  function Next(c: Context, t: R.Token): Context {
    Context(if t.GroupOpen? then c.depth + 1 else if t.GroupClose? && c.depth > 0 then c.depth - 1 else c.depth,
            t.Literal? || t.Dot? || t.Class? || t.GroupClose? || t.WordByteClass?,
            t.GroupOpen? || t.Alternation?)
  }

  /** A byte that stands for itself.  closes: the branch ends behind it. */
  predicate Raw(d: Dialect, c: Context, closes: bool, b: Byte) {
    match d
    case PosixExtended => b !in "\\(|*+?[.^$" && (b == ')' ==> c.depth == 0) && (b == '{' ==> !c.canRepeat)
    case PosixBasic => b !in "\\[.^$" && (b == '*' ==> !c.canRepeat)
    case Emacs => b !in "\\[." && (b in "*+?" ==> !c.canRepeat) && (b == '^' ==> !c.branchStart) && (b == '$' ==> !closes)
  }

  /** A byte that stands for itself behind a backslash. */
  predicate Quoted(d: Dialect, c: Context, b: Byte) {
    match d
    case PosixExtended => b in "\\.^$*+?()|{}[]"
    case PosixBasic => b in "\\.^$*[]}" || (b in "+?{" && !c.canRepeat)
    case Emacs => b !in "()|123456789" && (b == '{' ==> !c.canRepeat)
  }

  /** An operator that two dialects write with a backslash. */
  function Operator(d: Dialect, b: Byte): seq<Byte> {
    if d.PosixExtended? then [b] else ['\\', b]
  }

  /** The extended and the Emacs dialect write + and ? as they are. */
  function Repeater(d: Dialect, b: Byte): seq<Byte> {
    if d.PosixBasic? then ['\\', b] else [b]
  }

  function Digit(n: nat): Byte
    requires n < 10
  {
    "0123456789"[n]
  }

  function AssertionByte(a: R.Assertion): Byte {
    match a
    case WordBoundary => 'b'
    case NotWordBoundary => 'B'
    case WordStart => '<'
    case WordEnd => '>'
    case BufferStart => '`'
    case BufferEnd => '\''
  }

  /** {n} or {left,right}, without the braces. */
  ghost predicate Body(body: seq<Byte>, min: nat, max: Option<nat>) {
    || (body != [] && AllDigits(body) && Number(body) == min < U32_LIMIT && max == Some(min))
    || exists comma :: 0 <= comma < |body| && BodyWithComma(body, comma, min, max)
  }

  predicate BodyWithComma(body: seq<Byte>, comma: nat, min: nat, max: Option<nat>)
    requires comma < |body|
  {
    var left, right := body[..comma], body[comma + 1..];
    && body[comma] == ',' && AllDigits(left) && AllDigits(right)
    && Number(left) == min < U32_LIMIT && Number(right) < U32_LIMIT
    && max == if right == [] then None else Some(Number(right))
  }

  /** What stands between the braces of a bound. */
  function Between(d: Dialect, text: seq<Byte>): seq<Byte> {
    var n := if d.PosixExtended? then 1 else 2;
    if |text| < 2 * n then [] else text[n..|text| - n]
  }

  ghost predicate Spells(d: Dialect, c: Context, closes: bool, t: R.Token, text: seq<Byte>) {
    match t
    case Literal(b) => (text == [b] && Raw(d, c, closes, b)) || (text == ['\\', b] && Quoted(d, c, b))
    case Dot => text == "."
    case AnchorStart => text == "^" && (d.Emacs? ==> c.branchStart)
    case AnchorEnd => text == "$" && (d.Emacs? ==> closes)
    case Class(brackets) => text == "[" + BracketsText(brackets) && Readable(brackets)
    case GroupOpen => text == Operator(d, '(')
    case GroupClose => text == Operator(d, ')') && c.depth > 0
    case Alternation => text == Operator(d, '|')
    case Quantifier(ZeroOrMore) => text == "*" && (d.PosixExtended? || c.canRepeat)
    case Quantifier(OneOrMore) => text == Repeater(d, '+') && (d.PosixExtended? || c.canRepeat)
    case Quantifier(ZeroOrOne) => text == Repeater(d, '?') && (d.PosixExtended? || c.canRepeat)
    case Quantifier(Bounded(min, max)) =>
      c.canRepeat && text == Operator(d, '{') + Between(d, text) + Operator(d, '}') && Body(Between(d, text), min, max)
    case Backreference(n) => 0 < n < 10 && text == ['\\', Digit(n)]
    case Assert(a) => text == ['\\', AssertionByte(a)] && !d.Emacs?
    case WordByteClass(negated) => text == ['\\', if negated then 'W' else 'w'] && !d.Emacs?
  }

  /** Behind i the pattern, a group or a branch ends. */
  ghost predicate ClosesAt(s: seq<Byte>, i: nat) {
    i >= |s| || Here(s, i, "\\)") || Here(s, i, "\\|")
  }

  /** From i on the tokens are written one behind the other, and every group is closed. */
  ghost predicate Written(d: Dialect, s: seq<Byte>, i: nat, c: Context, ts: seq<R.Token>)
    decreases |ts|
  {
    if ts == [] then i == |s| && c.depth == 0
    else exists j :: i < j <= |s| && Spells(d, c, ClosesAt(s, j), ts[0], s[i..j]) && Written(d, s, j, Next(c, ts[0]), ts[1..])
  }

  // ----- One token -----

  lemma ClosesMeans(s: seq<Byte>, i: nat)
    ensures ClosesAt(s, i) <==> DollarIsAnchor(s, i)
  {
    if i + 1 < |s| { assert s[i..i + 2] == [s[i], s[i + 1]]; }
  }

  /** One byte, and two. */
  lemma Short(s: seq<Byte>, i: nat, j: nat)
    requires i < j <= |s|
    ensures |s[i..j]| == j - i && s[i..j][0] == s[i]
    ensures j == i + 1 ==> s[i..j] == [s[i]]
    ensures j == i + 2 ==> s[i..j] == [s[i], s[i + 1]]
  {
  }

  lemma {:induction false} NoCommaInDigits(s: seq<Byte>)
    requires AllDigits(s)
    ensures Comma(s) == None
  {
    if s != [] {
      assert IsDigit(s[0]);
      assert forall k :: 0 <= k < |s[1..]| ==> s[1..][k] == s[k + 1];
      NoCommaInDigits(s[1..]);
    }
  }

  lemma {:induction false} FirstComma(s: seq<Byte>, c: nat)
    requires c < |s| && s[c] == ',' && AllDigits(s[..c])
    ensures Comma(s) == Some(c)
  {
    if c > 0 {
      assert IsDigit(s[..c][0]);
      assert s[1..][..c - 1] == s[..c][1..];
      assert forall k :: 0 <= k < c - 1 ==> s[..c][1..][k] == s[..c][k + 1];
      FirstComma(s[1..], c - 1);
    }
  }

  lemma {:induction false} CommaIsThere(s: seq<Byte>)
    requires Comma(s).Some?
    ensures s[Comma(s).value] == ','
  {
    if s[0] != ',' { CommaIsThere(s[1..]); }
  }

  /** A bound is read if and only if it is written. */
  lemma BodyReads(body: seq<Byte>, min: nat, max: Option<nat>)
    ensures ParseBody(body) == Ok(R.Bounded(min, max)) <==> Body(body, min, max)
  {
    if ParseBody(body) == Ok(R.Bounded(min, max)) {
      if Comma(body).Some? {
        CommaIsThere(body);
        assert BodyWithComma(body, Comma(body).value, min, max);
      }
    }
    if Body(body, min, max) {
      if AllDigits(body) {
        NoCommaInDigits(body);
        if comma :| 0 <= comma < |body| && BodyWithComma(body, comma, min, max) { assert IsDigit(body[comma]); }
      } else {
        var comma :| 0 <= comma < |body| && BodyWithComma(body, comma, min, max);
        FirstComma(body, comma);
      }
    }
  }

  lemma BoundsOnly(body: seq<Byte>)
    ensures ParseBody(body).Ok? ==> ParseBody(body).value.Bounded?
  {
  }

  /** No byte of a bound closes it. */
  lemma BodyIsOpen(body: seq<Byte>, min: nat, max: Option<nat>, k: nat)
    requires Body(body, min, max) && k < |body|
    ensures IsDigit(body[k]) || body[k] == ','
  {
    if !AllDigits(body) {
      var comma :| 0 <= comma < |body| && BodyWithComma(body, comma, min, max);
      if k < comma { assert IsDigit(body[..comma][k]); }
      if k > comma { assert IsDigit(body[comma + 1..][k - comma - 1]); }
    }
  }

  lemma {:induction false} BraceIs(s: seq<Byte>, i: nat, e: nat)
    requires i <= e < |s| && s[e] == '}' && forall k :: i <= k < e ==> s[k] != '}'
    ensures BraceFrom(s, i) == Some(e)
    decreases e - i
  {
    if i < e { BraceIs(s, i + 1, e); }
  }

  lemma {:induction false} BraceIsThere(s: seq<Byte>, i: nat)
    requires BraceFrom(s, i).Some?
    ensures s[BraceFrom(s, i).value] == '}'
    decreases |s| - i
  {
    if s[i] != '}' { BraceIsThere(s, i + 1); }
  }

  lemma {:induction false} QuotedBraceIs(s: seq<Byte>, i: nat, e: nat)
    requires i <= e < |s| - 1 && s[e] == '\\' && s[e + 1] == '}' && forall k :: i <= k < e ==> s[k] != '\\'
    ensures QuotedBraceFrom(s, i) == Some(e)
    decreases e - i
  {
    if i < e { QuotedBraceIs(s, i + 1, e); }
  }

  lemma {:induction false} QuotedBraceIsThere(s: seq<Byte>, i: nat)
    requires QuotedBraceFrom(s, i).Some?
    ensures var e := QuotedBraceFrom(s, i).value; s[e] == '\\' && s[e + 1] == '}'
    decreases |s| - i
  {
    if !(s[i] == '\\' && s[i + 1] == '}') { QuotedBraceIsThere(s, i + 1); }
  }

  lemma SliceOfSlice(s: seq<Byte>, i: nat, j: nat, a: nat, b: nat)
    requires i <= j <= |s| && a <= b <= j - i
    ensures s[i..j][a..b] == s[i + a..i + b]
  {
    var t, u := s[i..j][a..b], s[i + a..i + b];
    assert |t| == |u| && forall k :: 0 <= k < |t| ==> t[k] == s[i..j][a + k] == s[i + (a + k)] == u[k];
  }

  ghost predicate IsBound(d: Dialect, text: seq<Byte>, min: nat, max: Option<nat>) {
    text == Operator(d, '{') + Between(d, text) + Operator(d, '}') && Body(Between(d, text), min, max)
  }

  lemma BoundText(d: Dialect, text: seq<Byte>, min: nat, max: Option<nat>)
    requires IsBound(d, text, min, max)
    ensures var n := if d.PosixExtended? then 1 else 2; |text| >= 2 * n && Between(d, text) == text[n..|text| - n]
    ensures d.PosixExtended? ==> text[0] == '{' && text[|text| - 1] == '}'
    ensures !d.PosixExtended? ==> text[0] == '\\' && text[1] == '{' && text[|text| - 2] == '\\' && text[|text| - 1] == '}'
  {
    hide Body;
    var body := Between(d, text);
    if d.PosixExtended? {
      assert text == ['{'] + body + ['}'];
    } else {
      assert text == ['\\', '{'] + body + ['\\', '}'];
    }
  }

  lemma ExtendedBoundReads(s: seq<Byte>, i: nat, j: nat, depth: nat, min: nat, max: Option<nat>)
    requires i < j <= |s| && IsBound(PosixExtended, s[i..j], min, max)
    ensures s[i] == '{' && ExtendedBound(s, i + 1, depth) == Ok(Lexed(R.Quantifier(R.Bounded(min, max)), j, depth))
  {
    hide Body, ParseBody;
    var text := s[i..j];
    var body := Between(PosixExtended, text);
    BoundText(PosixExtended, text, min, max);
    SliceOfSlice(s, i, j, 1, j - i - 1);
    forall k | i + 1 <= k < j - 1 ensures s[k] != '}' {
      BodyIsOpen(body, min, max, k - i - 1);
    }
    BraceIs(s, i + 1, j - 1);
    BodyReads(body, min, max);
  }

  lemma ExtendedBoundIsRead(s: seq<Byte>, i: nat, depth: nat)
    requires i < |s| && s[i] == '{' && ExtendedBound(s, i + 1, depth).Ok?
    ensures var l := ExtendedBound(s, i + 1, depth).value;
      && i < l.next <= |s| && l.token.Quantifier? && l.token.kind.Bounded?
      && IsBound(PosixExtended, s[i..l.next], l.token.kind.min, l.token.kind.max)
  {
    hide Body, ParseBody;
    var e := BraceFrom(s, i + 1).value;
    BraceIsThere(s, i + 1);
    var body, text := s[i + 1..e], s[i..e + 1];
    BoundsOnly(body);
    var kind := ParseBody(body).value;
    BodyReads(body, kind.min, kind.max);
    assert text == ['{'] + body + ['}'];
    assert Between(PosixExtended, text) == body;
  }

  lemma BasicBoundReads(d: Dialect, s: seq<Byte>, i: nat, j: nat, depth: nat, min: nat, max: Option<nat>)
    requires i < j <= |s| && !d.PosixExtended? && IsBound(d, s[i..j], min, max)
    ensures i + 1 < |s| && s[i] == '\\' && s[i + 1] == '{'
    ensures BasicBound(s, i + 2, depth) == Ok(Lexed(R.Quantifier(R.Bounded(min, max)), j, depth))
  {
    hide Body, ParseBody;
    var text := s[i..j];
    var body := Between(d, text);
    BoundText(d, text, min, max);
    SliceOfSlice(s, i, j, 2, j - i - 2);
    forall k | i + 2 <= k < j - 2 ensures s[k] != '\\' {
      BodyIsOpen(body, min, max, k - i - 2);
    }
    QuotedBraceIs(s, i + 2, j - 2);
    BodyReads(body, min, max);
  }

  lemma BasicBoundIsRead(d: Dialect, s: seq<Byte>, i: nat, depth: nat)
    requires i + 1 < |s| && !d.PosixExtended? && s[i] == '\\' && s[i + 1] == '{' && BasicBound(s, i + 2, depth).Ok?
    ensures var l := BasicBound(s, i + 2, depth).value;
      && i < l.next <= |s| && l.token.Quantifier? && l.token.kind.Bounded?
      && IsBound(d, s[i..l.next], l.token.kind.min, l.token.kind.max)
  {
    hide Body, ParseBody;
    var e := QuotedBraceFrom(s, i + 2).value;
    QuotedBraceIsThere(s, i + 2);
    var body, text := s[i + 2..e], s[i..e + 2];
    BoundsOnly(body);
    var kind := ParseBody(body).value;
    BodyReads(body, kind.min, kind.max);
    assert text == ['\\', '{'] + body + ['\\', '}'];
    assert Between(d, text) == body;
  }

  ghost predicate IsClass(text: seq<Byte>, brackets: Brackets) {
    text == "[" + BracketsText(brackets) && Readable(brackets)
  }

  lemma ClassTextReads(s: seq<Byte>, i: nat, j: nat, depth: nat, brackets: Brackets)
    requires i < j <= |s| && IsClass(s[i..j], brackets)
    ensures s[i] == '[' && ClassToken(s, i + 1, depth) == Ok(Lexed(R.Class(brackets), j, depth))
  {
    hide LexClass, Readable, BracketsText;
    var text := s[i..j];
    assert text[0] == '[' && text[1..] == BracketsText(brackets) && s[i + 1..j] == text[1..];
    ClassReadsExactly(s, i + 1, brackets, j);
  }

  lemma ClassTextIsRead(s: seq<Byte>, i: nat, depth: nat)
    requires i < |s| && s[i] == '[' && ClassToken(s, i + 1, depth).Ok?
    ensures var l := ClassToken(s, i + 1, depth).value; i < l.next <= |s| && l.token.Class? && IsClass(s[i..l.next], l.token.brackets)
  {
    hide LexClass, Readable, BracketsText;
    var (brackets, j) := LexClass(s, i + 1).value;
    ClassReadsExactly(s, i + 1, brackets, j);
    assert s[i..j] == ['['] + s[i + 1..j];
  }

  lemma WordReads(e: Byte, t: R.Token)
    ensures WordEscape(e) == Some(t)
       <==> (t.Assert? && e == AssertionByte(t.assertion)) || (t.WordByteClass? && e == if t.negated then 'W' else 'w')
  {
  }

  /** Word escapes are written with other bytes than everything else. */
  lemma WordsAreApart(e: Byte)
    ensures WordEscape(e).Some? ==> e !in "\\.^$*+?()|{}[]" && !('1' <= e <= '9')
  {
    if WordEscape(e).Some? {
      assert e == 'w' || e == 'W' || e == 'b' || e == 'B' || e == '<' || e == '>' || e == '`' || e == '\'';
      hide WordEscape;
    }
  }

  lemma DigitReads(e: Byte, n: nat)
    ensures 0 < n < 10 ==> ('1' <= Digit(n) <= '9' && Digit(n) as int - '0' as int == n)
    ensures '1' <= e <= '9' ==> e == Digit(e as int - '0' as int) && e in "123456789"
  {
  }

  // ----- The extended dialect -----

  lemma ExtendedEscapeIsSpelled(s: seq<Byte>, i: nat, c: Context)
    requires i < |s| && s[i] == '\\' && ExtendedEscape(s, i + 1, c.depth).Ok?
    ensures var l := ExtendedEscape(s, i + 1, c.depth).value;
      l.next == i + 2 <= |s| && Spells(PosixExtended, c, ClosesAt(s, l.next), l.token, s[i..l.next])
  {
    hide Body, Readable, BracketsText, WordEscape, ClosesAt;
    Short(s, i, i + 2);
    WordReads(s[i + 1], ExtendedEscape(s, i + 1, c.depth).value.token);
    DigitReads(s[i + 1], 0);
  }

  lemma ExtendedIsSpelled(s: seq<Byte>, i: nat, c: Context)
    requires i < |s| && ExtendedToken(s, i, c.depth, c.canRepeat).Ok?
    ensures var l := ExtendedToken(s, i, c.depth, c.canRepeat).value;
      i < l.next <= |s| && Spells(PosixExtended, c, ClosesAt(s, l.next), l.token, s[i..l.next])
  {
    hide Body, Readable, BracketsText, ClosesAt, ExtendedBound, ClassToken, ExtendedEscape;
    if s[i] == '\\' {
      ExtendedEscapeIsSpelled(s, i, c);
    } else if s[i] == '{' && c.canRepeat {
      ExtendedBoundIsRead(s, i, c.depth);
    } else if s[i] == '[' {
      ClassTextIsRead(s, i, c.depth);
    } else {
      Short(s, i, i + 1);
    }
  }

  lemma ExtendedReads(s: seq<Byte>, i: nat, j: nat, c: Context, t: R.Token)
    requires i < j <= |s| && Spells(PosixExtended, c, ClosesAt(s, j), t, s[i..j])
    ensures ExtendedToken(s, i, c.depth, c.canRepeat) == Ok(Lexed(t, j, Next(c, t).depth))
  {
    hide Body, Readable, BracketsText, WordEscape, ClosesAt, ExtendedBound, ClassToken;
    Short(s, i, j);
    match t
    case Quantifier(Bounded(min, max)) => ExtendedBoundReads(s, i, j, c.depth, min, max);
    case Class(brackets) => ClassTextReads(s, i, j, c.depth, brackets);
    case Backreference(n) => DigitReads(s[i + 1], n);
    case Assert(_) => WordReads(s[i + 1], t); WordsAreApart(s[i + 1]);
    case WordByteClass(_) => WordReads(s[i + 1], t); WordsAreApart(s[i + 1]);
    case Literal(b) => WordsAreApart(b);
    case _ =>
  }

  // ----- The basic and the Emacs dialect -----

  lemma BasicEscapeIsSpelled(d: Dialect, s: seq<Byte>, i: nat, c: Context)
    requires i < |s| && s[i] == '\\' && !d.PosixExtended? && BasicEscape(s, i + 1, d, c.depth, c.canRepeat).Ok?
    ensures var l := BasicEscape(s, i + 1, d, c.depth, c.canRepeat).value;
      i < l.next <= |s| && Spells(d, c, ClosesAt(s, l.next), l.token, s[i..l.next])
  {
    hide Body, Readable, BracketsText, WordEscape, ClosesAt, BasicBound;
    if s[i + 1] == '{' && c.canRepeat {
      BasicBoundIsRead(d, s, i, c.depth);
    } else {
      Short(s, i, i + 2);
      WordReads(s[i + 1], BasicEscape(s, i + 1, d, c.depth, c.canRepeat).value.token);
      DigitReads(s[i + 1], 0);
    }
  }

  lemma QuotedReads(d: Dialect, s: seq<Byte>, i: nat, c: Context)
    requires i + 1 < |s| && !d.PosixExtended? && Quoted(d, c, s[i + 1])
    ensures BasicEscape(s, i + 1, d, c.depth, c.canRepeat) == Ok(Lexed(R.Literal(s[i + 1]), i + 2, c.depth))
  {
    hide WordEscape, BasicBound;
    WordsAreApart(s[i + 1]);
    DigitReads(s[i + 1], 0);
  }

  lemma BasicEscapeReads(d: Dialect, s: seq<Byte>, i: nat, j: nat, c: Context, t: R.Token)
    requires i < j <= |s| && !d.PosixExtended? && s[i] == '\\' && Spells(d, c, ClosesAt(s, j), t, s[i..j])
    ensures BasicEscape(s, i + 1, d, c.depth, c.canRepeat) == Ok(Lexed(t, j, Next(c, t).depth))
  {
    hide Body, Readable, BracketsText, WordEscape, ClosesAt, BasicBound, Quoted;
    Short(s, i, j);
    if t.Literal? {
      hide BasicEscape;
      QuotedReads(d, s, i, c);
    } else if t.Quantifier? && t.kind.Bounded? {
      BasicBoundReads(d, s, i, j, c.depth, t.kind.min, t.kind.max);
    } else {
      if t.Backreference? { DigitReads(s[i + 1], t.index); }
      if t.Assert? || t.WordByteClass? { WordReads(s[i + 1], t); WordsAreApart(s[i + 1]); }
    }
  }

  lemma BasicIsSpelled(s: seq<Byte>, i: nat, c: Context)
    requires i < |s| && BasicToken(s, i, c.depth, c.canRepeat).Ok?
    ensures var l := BasicToken(s, i, c.depth, c.canRepeat).value;
      i < l.next <= |s| && Spells(PosixBasic, c, ClosesAt(s, l.next), l.token, s[i..l.next])
  {
    hide Body, Readable, BracketsText, ClosesAt, BasicEscape, ClassToken;
    if s[i] == '\\' {
      BasicEscapeIsSpelled(PosixBasic, s, i, c);
    } else if s[i] == '[' {
      ClassTextIsRead(s, i, c.depth);
    } else {
      Short(s, i, i + 1);
    }
  }

  /** What does not begin with a backslash is a class or one byte. */
  lemma Unescaped(d: Dialect, s: seq<Byte>, i: nat, j: nat, c: Context, t: R.Token)
    requires i < j <= |s| && !d.PosixExtended? && s[i] != '\\' && Spells(d, c, ClosesAt(s, j), t, s[i..j])
    ensures t.Class? || (j == i + 1 && s[i..j] == [s[i]])
  {
    hide Body, Readable, BracketsText, ClosesAt, Raw, Quoted;
    Short(s, i, j);
    if t.Quantifier? && t.kind.Bounded? { BoundText(d, s[i..j], t.kind.min, t.kind.max); }
  }

  lemma BasicReads(s: seq<Byte>, i: nat, j: nat, c: Context, t: R.Token)
    requires i < j <= |s| && Spells(PosixBasic, c, ClosesAt(s, j), t, s[i..j])
    ensures BasicToken(s, i, c.depth, c.canRepeat) == Ok(Lexed(t, j, Next(c, t).depth))
  {
    hide Body, Readable, BracketsText, ClosesAt, BasicEscape, ClassToken;
    if s[i] == '\\' {
      BasicEscapeReads(PosixBasic, s, i, j, c, t);
    } else {
      Unescaped(PosixBasic, s, i, j, c, t);
      if t.Class? { ClassTextReads(s, i, j, c.depth, t.brackets); }
    }
  }

  lemma EmacsIsSpelled(s: seq<Byte>, i: nat, c: Context)
    requires i < |s| && EmacsToken(s, i, c.depth, c.canRepeat, c.branchStart).Ok?
    ensures var l := EmacsToken(s, i, c.depth, c.canRepeat, c.branchStart).value;
      i < l.next <= |s| && Spells(Emacs, c, ClosesAt(s, l.next), l.token, s[i..l.next])
  {
    hide Body, Readable, BracketsText, ClosesAt, DollarIsAnchor, BasicEscape, ClassToken;
    if s[i] == '\\' {
      BasicEscapeIsSpelled(Emacs, s, i, c);
    } else if s[i] == '[' {
      ClassTextIsRead(s, i, c.depth);
    } else {
      Short(s, i, i + 1);
      ClosesMeans(s, i + 1);
    }
  }

  lemma EmacsReads(s: seq<Byte>, i: nat, j: nat, c: Context, t: R.Token)
    requires i < j <= |s| && Spells(Emacs, c, ClosesAt(s, j), t, s[i..j])
    ensures EmacsToken(s, i, c.depth, c.canRepeat, c.branchStart) == Ok(Lexed(t, j, Next(c, t).depth))
  {
    hide Body, Readable, BracketsText, ClosesAt, DollarIsAnchor, BasicEscape, ClassToken;
    if s[i] == '\\' {
      BasicEscapeReads(Emacs, s, i, j, c, t);
    } else {
      Unescaped(Emacs, s, i, j, c, t);
      ClosesMeans(s, i + 1);
      if t.Class? { ClassTextReads(s, i, j, c.depth, t.brackets); }
    }
  }

  // ----- All tokens -----

  lemma TokenIsSpelled(d: Dialect, s: seq<Byte>, i: nat, c: Context)
    requires i < |s| && LexOne(s, i, d, c.depth, c.canRepeat, c.branchStart).Ok?
    ensures var l := LexOne(s, i, d, c.depth, c.canRepeat, c.branchStart).value;
      && i < l.next <= |s| && Spells(d, c, ClosesAt(s, l.next), l.token, s[i..l.next])
      && Next(c, l.token) == Context(l.depth, Repeatable(l.token), StartsBranch(l.token))
  {
    hide Spells, ExtendedToken, BasicToken, EmacsToken, ClosesAt;
    TokenMoves(s, i, d, c.depth, c.canRepeat, c.branchStart);
    match d
    case PosixExtended => ExtendedIsSpelled(s, i, c);
    case PosixBasic => BasicIsSpelled(s, i, c);
    case Emacs => EmacsIsSpelled(s, i, c);
  }

  lemma TokenReads(d: Dialect, s: seq<Byte>, i: nat, j: nat, c: Context, t: R.Token)
    requires i < j <= |s| && Spells(d, c, ClosesAt(s, j), t, s[i..j])
    ensures LexOne(s, i, d, c.depth, c.canRepeat, c.branchStart) == Ok(Lexed(t, j, Next(c, t).depth))
  {
    hide Spells, ExtendedToken, BasicToken, EmacsToken, ClosesAt, Next;
    match d
    case PosixExtended => ExtendedReads(s, i, j, c, t);
    case PosixBasic => BasicReads(s, i, j, c, t);
    case Emacs => EmacsReads(s, i, j, c, t);
  }

  ghost function LexIn(d: Dialect, s: seq<Byte>, i: nat, c: Context): Tokens {
    LexFrom(s, i, d, c.depth, c.canRepeat, c.branchStart)
  }

  lemma LexNext(d: Dialect, s: seq<Byte>, i: nat, c: Context)
    requires i < |s|
    ensures var one := LexOne(s, i, d, c.depth, c.canRepeat, c.branchStart);
      && (one.Err? ==> LexIn(d, s, i, c) == Err(one.error))
      && (one.Ok? && Next(c, one.value.token) == Context(one.value.depth, Repeatable(one.value.token), StartsBranch(one.value.token))
          ==> LexIn(d, s, i, c) == After([one.value.token], LexIn(d, s, one.value.next, Next(c, one.value.token))))
  {
    hide LexOne, Next, Repeatable, StartsBranch;
  }

  lemma {:induction false} LexedIsWritten(d: Dialect, s: seq<Byte>, i: nat, c: Context)
    requires i <= |s| && LexIn(d, s, i, c).Ok?
    ensures Written(d, s, i, c, LexIn(d, s, i, c).value)
    decreases |s| - i
  {
    hide LexOne, Spells, Next, ClosesAt, Repeatable, StartsBranch;
    if i < |s| {
      LexNext(d, s, i, c);
      TokenIsSpelled(d, s, i, c);
      hide LexIn;
      var l := LexOne(s, i, d, c.depth, c.canRepeat, c.branchStart).value;
      LexedIsWritten(d, s, l.next, Next(c, l.token));
      var ts := LexIn(d, s, i, c).value;
      assert ts[0] == l.token && ts[1..] == LexIn(d, s, l.next, Next(c, l.token)).value;
    }
  }

  lemma {:induction false} WrittenLexes(d: Dialect, s: seq<Byte>, i: nat, c: Context, ts: seq<R.Token>)
    requires Written(d, s, i, c, ts)
    ensures LexIn(d, s, i, c) == Ok(ts)
    decreases |ts|
  {
    hide LexOne, Spells, Next, ClosesAt, Repeatable, StartsBranch;
    if ts != [] {
      var j :| i < j <= |s| && Spells(d, c, ClosesAt(s, j), ts[0], s[i..j]) && Written(d, s, j, Next(c, ts[0]), ts[1..]);
      TokenReads(d, s, i, j, c, ts[0]);
      TokenIsSpelled(d, s, i, c);
      LexNext(d, s, i, c);
      hide LexIn;
      WrittenLexes(d, s, j, Next(c, ts[0]), ts[1..]);
      assert [ts[0]] + ts[1..] == ts;
    }
  }

  /** The lexer accepts a pattern with certain tokens if and only if the pattern is made
      of the texts of these tokens, each in its context, with every group closed. */
  lemma LexesExactlyTheWritten(d: Dialect, s: seq<Byte>, ts: seq<R.Token>)
    ensures LexFrom(s, 0, d, 0, false, true) == Ok(ts) <==> Written(d, s, 0, START, ts)
  {
    hide Written, LexFrom;
    if LexIn(d, s, 0, START) == Ok(ts) { LexedIsWritten(d, s, 0, START); }
    if Written(d, s, 0, START, ts) { WrittenLexes(d, s, 0, START, ts); }
  }
}
