/** Printing tokens of the GNU regular expression dialects so that they are read back. */
module GnuPrinter {
  import opened Basics
  import opened GnuClasses
  import opened GnuLexer
  import opened GnuSpelling
  import R = GnuRegex

  // ----- Numbers -----

  function Decimal(n: nat): seq<Byte> {
    if n < 10 then [Digit(n)] else Decimal(n / 10) + [Digit(n % 10)]
  }

  lemma DigitMeans(n: nat)
    requires n < 10
    ensures IsDigit(Digit(n)) && Digit(n) as int - '0' as int == n
  {
  }

  lemma {:induction false} DecimalReads(n: nat)
    ensures Decimal(n) != [] && AllDigits(Decimal(n)) && Number(Decimal(n)) == n
  {
    hide Digit;
    DigitMeans(n % 10);
    if n < 10 {
      assert [Digit(n)][..0] == [];
    } else {
      DecimalReads(n / 10);
      assert Decimal(n)[..|Decimal(n)| - 1] == Decimal(n / 10);
    }
  }

  /** Zeros in front do not count. */
  lemma {:induction false} LeadingZero(s: seq<Byte>)
    requires AllDigits(s)
    ensures AllDigits(['0'] + s) && Number(['0'] + s) == Number(s)
  {
    var t := ['0'] + s;
    if s == [] {
      assert t == ['0'] && t[..0] == [];
    } else {
      var n := |s| - 1;
      LeadingZero(s[..n]);
      assert t[..|t| - 1] == ['0'] + s[..n] && t[|t| - 1] == s[n];
      assert IsDigit(s[n]);
    }
  }

  // ----- Tokens -----

  predicate Special(d: Dialect, b: Byte) {
    match d
    case PosixExtended => b in "\\.^$*+?()|{}[]"
    case PosixBasic => b in "\\.^$*[]}"
    case Emacs => b in "\\.^$*+?["
  }

  function BoundText(min: nat, max: Option<nat>): seq<Byte> {
    Decimal(min) + "," + if max.Some? then Decimal(max.value) else ""
  }

  function Text(d: Dialect, t: R.Token): seq<Byte>
    requires t.Backreference? ==> 0 < t.index < 10
  {
    match t
    case Literal(b) => if Special(d, b) then ['\\', b] else [b]
    case Dot => "."
    case AnchorStart => "^"
    case AnchorEnd => "$"
    case Class(brackets) => "[" + BracketsText(brackets)
    case GroupOpen => Operator(d, '(')
    case GroupClose => Operator(d, ')')
    case Alternation => Operator(d, '|')
    case Quantifier(ZeroOrMore) => "*"
    case Quantifier(OneOrMore) => Repeater(d, '+')
    case Quantifier(ZeroOrOne) => Repeater(d, '?')
    case Quantifier(Bounded(min, max)) => Operator(d, '{') + BoundText(min, max) + Operator(d, '}')
    case Backreference(n) => ['\\', Digit(n)]
    case Assert(a) => ['\\', AssertionByte(a)]
    case WordByteClass(negated) => ['\\', if negated then 'W' else 'w']
  }

  /** A token the dialect can express in its context.  closes: it ends its branch. */
  predicate Expressible(d: Dialect, c: Context, closes: bool, t: R.Token) {
    match t
    case AnchorStart => d.Emacs? ==> c.branchStart
    case AnchorEnd => d.Emacs? ==> closes
    case Class(brackets) => Readable(brackets)
    case GroupClose => c.depth > 0
    case Quantifier(Bounded(min, max)) => c.canRepeat && min < U32_LIMIT && (max.Some? ==> max.value < U32_LIMIT)
    case Quantifier(_) => d.PosixExtended? || c.canRepeat
    case Backreference(n) => 0 < n < 10
    case Assert(_) => !d.Emacs?
    case WordByteClass(_) => !d.Emacs?
    case _ => true
  }

  predicate BranchEnds(ts: seq<R.Token>) {
    ts == [] || ts[0].GroupClose? || ts[0].Alternation?
  }

  predicate PrintableFrom(d: Dialect, c: Context, ts: seq<R.Token>)
    decreases |ts|
  {
    if ts == [] then c.depth == 0
    else Expressible(d, c, BranchEnds(ts[1..]), ts[0]) && PrintableFrom(d, Next(c, ts[0]), ts[1..])
  }

  predicate Numbered(ts: seq<R.Token>) {
    forall k :: 0 <= k < |ts| ==> ts[k].Backreference? ==> 0 < ts[k].index < 10
  }

  function Print(d: Dialect, ts: seq<R.Token>): seq<Byte>
    requires Numbered(ts)
  {
    if ts == [] then [] else Text(d, ts[0]) + Print(d, ts[1..])
  }

  lemma {:induction false} PrintableIsNumbered(d: Dialect, c: Context, ts: seq<R.Token>)
    requires PrintableFrom(d, c, ts)
    ensures Numbered(ts)
    decreases |ts|
  {
    if ts != [] {
      PrintableIsNumbered(d, Next(c, ts[0]), ts[1..]);
      assert forall k :: 0 < k < |ts| ==> ts[k] == ts[1..][k - 1];
    }
  }

  // ----- Printed tokens are read -----

  lemma BoundTextReads(min: nat, max: Option<nat>)
    requires min < U32_LIMIT && (max.Some? ==> max.value < U32_LIMIT)
    ensures Body(BoundText(min, max), min, max)
  {
    hide Decimal;
    DecimalReads(min);
    if max.Some? { DecimalReads(max.value); }
    var body, comma := BoundText(min, max), |Decimal(min)|;
    assert body[..comma] == Decimal(min) && body[comma] == ',';
    assert body[comma + 1..] == if max.Some? then Decimal(max.value) else "";
    assert BodyWithComma(body, comma, min, max);
  }

  lemma BoundIsBetween(d: Dialect, body: seq<Byte>)
    ensures Between(d, Operator(d, '{') + body + Operator(d, '}')) == body
  {
    var text := Operator(d, '{') + body + Operator(d, '}');
    var n := |Operator(d, '{')|;
    assert text[n..|text| - n] == body;
  }

  lemma TextSpells(d: Dialect, c: Context, closes: bool, t: R.Token)
    requires Expressible(d, c, closes, t)
    ensures t.Backreference? ==> 0 < t.index < 10
    ensures Text(d, t) != [] && Spells(d, c, closes, t, Text(d, t))
  {
    hide Body, Readable, BracketsText, BoundText, Between, Decimal;
    if t.Quantifier? && t.kind.Bounded? {
      BoundTextReads(t.kind.min, t.kind.max);
      BoundIsBetween(d, BoundText(t.kind.min, t.kind.max));
    }
  }

  /** In the Emacs dialect no other token looks like the end of a branch. */
  lemma EndIsSeen(ts: seq<R.Token>, s: seq<Byte>, i: nat)
    requires Numbered(ts) && i <= |s| && s[i..] == Print(Emacs, ts)
    ensures ClosesAt(s, i) <==> BranchEnds(ts)
  {
    hide Decimal, BracketsText;
    if ts != [] {
      var text := Text(Emacs, ts[0]);
      if i + 1 < |s| { assert s[i] == s[i..][0] && s[i + 1] == s[i..][1] && s[i..i + 2] == [s[i], s[i + 1]]; }
      if |text| >= 2 { assert s[i..][0] == text[0] && s[i..][1] == text[1]; }
      if |text| == 1 { assert s[i..][0] == text[0]; }
    }
  }

  lemma {:induction false} PrintedIsWritten(d: Dialect, s: seq<Byte>, i: nat, c: Context, ts: seq<R.Token>)
    requires Numbered(ts) && PrintableFrom(d, c, ts) && i <= |s| && s[i..] == Print(d, ts)
    ensures Written(d, s, i, c, ts)
    decreases |ts|
  {
    hide Spells, Expressible, Text, Next, ClosesAt, BranchEnds;
    if ts != [] {
      var text, rest := Text(d, ts[0]), ts[1..];
      assert forall k :: 0 <= k < |rest| ==> rest[k] == ts[k + 1];
      var j := i + |text|;
      assert s[i..j] == s[i..][..|text|] == text;
      assert s[j..] == s[i..][|text|..] == Print(d, rest);
      if d.Emacs? { EndIsSeen(rest, s, j); }
      AnyEnd(d, c, BranchEnds(rest), ClosesAt(s, j), ts[0]);
      TextSpells(d, c, ClosesAt(s, j), ts[0]);
      PrintedIsWritten(d, s, j, Next(c, ts[0]), rest);
    }
  }

  lemma AnyEnd(d: Dialect, c: Context, closes: bool, closes': bool, t: R.Token)
    requires Expressible(d, c, closes, t) && (d.Emacs? ==> closes == closes')
    ensures Expressible(d, c, closes', t)
  {
  }

  // ----- What is read can be printed -----

  lemma SpelledIsExpressible(d: Dialect, c: Context, closes: bool, t: R.Token, text: seq<Byte>)
    requires Spells(d, c, closes, t, text)
    ensures Expressible(d, c, closes, t)
  {
    hide Readable, BracketsText, Between, Raw, Quoted;
  }

  /** A branch that ends is closed by the next token. */
  lemma EndIsRead(s: seq<Byte>, i: nat, c: Context, ts: seq<R.Token>)
    requires Written(Emacs, s, i, c, ts) && ClosesAt(s, i)
    ensures BranchEnds(ts)
  {
    hide Spells;
    if ts != [] {
      var j :| i < j <= |s| && Spells(Emacs, c, ClosesAt(s, j), ts[0], s[i..j]) && Written(Emacs, s, j, Next(c, ts[0]), ts[1..]);
      TokenReads(Emacs, s, i, j, c, ts[0]);
      ClosesMeans(s, i);
    }
  }

  lemma {:induction false} WrittenIsPrintable(d: Dialect, s: seq<Byte>, i: nat, c: Context, ts: seq<R.Token>)
    requires Written(d, s, i, c, ts)
    ensures PrintableFrom(d, c, ts)
    decreases |ts|
  {
    hide Spells, Expressible, Next, ClosesAt, BranchEnds;
    if ts != [] {
      var j :| i < j <= |s| && Spells(d, c, ClosesAt(s, j), ts[0], s[i..j]) && Written(d, s, j, Next(c, ts[0]), ts[1..]);
      SpelledIsExpressible(d, c, ClosesAt(s, j), ts[0], s[i..j]);
      if d.Emacs? && ClosesAt(s, j) { EndIsRead(s, j, Next(c, ts[0]), ts[1..]); }
      MoreEnds(d, c, ClosesAt(s, j), BranchEnds(ts[1..]), ts[0]);
      WrittenIsPrintable(d, s, j, Next(c, ts[0]), ts[1..]);
    }
  }

  lemma MoreEnds(d: Dialect, c: Context, closes: bool, closes': bool, t: R.Token)
    requires Expressible(d, c, closes, t) && (d.Emacs? ==> closes ==> closes')
    ensures Expressible(d, c, closes', t)
  {
  }

  // ----- Round trips -----

  ghost predicate Lexes(d: Dialect, s: seq<Byte>, ts: seq<R.Token>) {
    LexFrom(s, 0, d, 0, false, true) == Ok(ts)
  }

  /** Tokens that can be expressed, printed and lexed, come back. */
  lemma PrintThenLex(d: Dialect, ts: seq<R.Token>)
    requires PrintableFrom(d, START, ts)
    ensures Numbered(ts) && Lexes(d, Print(d, ts), ts)
  {
    hide PrintableFrom, Written, Print, Numbered;
    PrintableIsNumbered(d, START, ts);
    var s: seq<Byte> := Print(d, ts);
    assert s[0..] == s;
    PrintedIsWritten(d, s, 0, START, ts);
    LexesExactlyTheWritten(d, s, ts);
  }

  /** What the lexer returns can be expressed, and lexes to the same when it is printed. */
  lemma LexThenPrint(d: Dialect, s: seq<Byte>, ts: seq<R.Token>)
    requires Lexes(d, s, ts)
    ensures PrintableFrom(d, START, ts)
    ensures Numbered(ts) && Lexes(d, Print(d, ts), ts)
  {
    hide PrintableFrom, Written, Print, Numbered;
    LexesExactlyTheWritten(d, s, ts);
    WrittenIsPrintable(d, s, 0, START, ts);
    PrintThenLex(d, ts);
  }
}
