/** Glob patterns over bytes: matching against a declarative meaning, and
    compiling. */
module Glob {
  import opened Basics

  type Byte = b: nat | b < 256

  const SLASH: Byte := '/' as int
  const BACKSLASH: Byte := '\\' as int
  const STAR: Byte := '*' as int
  const QUESTION: Byte := '?' as int
  const OPEN: Byte := '[' as int
  const CLOSE: Byte := ']' as int
  const BANG: Byte := '!' as int
  const CARET: Byte := '^' as int
  const DASH: Byte := '-' as int
  const DOT: Byte := '.' as int
  const EQUALS: Byte := '=' as int

  datatype ClassItem = One(byte: Byte) | Range(first: Byte, last: Byte)

  datatype Atom = Literal(byte: Byte) | AnyByte | AnySequence | Class(negated: bool, items: seq<ClassItem>)

  type Program = seq<Atom>

  /** insensitive: ASCII case is ignored; pathname: wildcards do not match a slash. */
  datatype Mode = Mode(insensitive: bool, pathname: bool)

  function Fold(b: Byte, m: Mode): Byte {
    if m.insensitive && 'A' as int <= b <= 'Z' as int then b + 32 else b
  }

  predicate ItemMatches(i: ClassItem, b: Byte, m: Mode) {
    match i
    case One(x) => Fold(x, m) == Fold(b, m)
    case Range(x, y) => Fold(x, m) <= Fold(b, m) <= Fold(y, m)
  }

  predicate ClassMatches(negated: bool, items: seq<ClassItem>, b: Byte, m: Mode) {
    (exists i :: 0 <= i < |items| && ItemMatches(items[i], b, m)) != negated
  }

  // ----- The meaning: a text is cut into one piece per atom -----

  predicate Wild(b: Byte, m: Mode) {
    m.pathname ==> b != SLASH
  }

  predicate AtomAccepts(a: Atom, piece: seq<Byte>, m: Mode) {
    match a
    case Literal(b) => |piece| == 1 && Fold(b, m) == Fold(piece[0], m)
    case AnyByte => |piece| == 1 && Wild(piece[0], m)
    case AnySequence => forall i :: 0 <= i < |piece| ==> Wild(piece[i], m)
    case Class(negated, items) => |piece| == 1 && Wild(piece[0], m) && ClassMatches(negated, items, piece[0], m)
  }

  function Joined(pieces: seq<seq<Byte>>): seq<Byte> {
    if pieces == [] then [] else pieces[0] + Joined(pieces[1..])
  }

  ghost predicate Cuts(p: Program, pieces: seq<seq<Byte>>, m: Mode) {
    |pieces| == |p| && forall i :: 0 <= i < |p| ==> AtomAccepts(p[i], pieces[i], m)
  }

  ghost predicate Accepts(p: Program, text: seq<Byte>, m: Mode) {
    exists pieces: seq<seq<Byte>> :: Cuts(p, pieces, m) && Joined(pieces) == text
  }

  /** The first atom takes some first part of the text. */
  ghost predicate TakesFirst(p: Program, text: seq<Byte>, m: Mode, n: nat)
    requires p != []
  {
    n <= |text| && AtomAccepts(p[0], text[..n], m) && Accepts(p[1..], text[n..], m)
  }

  lemma NothingAccepts(text: seq<Byte>, m: Mode)
    ensures Accepts([], text, m) <==> text == []
  {
    if text == [] { assert Cuts([], [], m) && Joined([]) == text; }
  }

  lemma FirstTaken(p: Program, text: seq<Byte>, m: Mode) returns (n: nat)
    requires p != [] && Accepts(p, text, m)
    ensures TakesFirst(p, text, m, n)
  {
    var pieces :| Cuts(p, pieces, m) && Joined(pieces) == text;
    n := |pieces[0]|;
    assert text[..n] == pieces[0] && text[n..] == Joined(pieces[1..]);
    assert AtomAccepts(p[0], pieces[0], m);
    assert Cuts(p[1..], pieces[1..], m);
  }

  lemma TakenFirst(p: Program, text: seq<Byte>, m: Mode, n: nat)
    requires p != [] && TakesFirst(p, text, m, n)
    ensures Accepts(p, text, m)
  {
    var rest :| Cuts(p[1..], rest, m) && Joined(rest) == text[n..];
    var pieces := [text[..n]] + rest;
    assert pieces[1..] == rest;
    assert Joined(pieces) == text;
    forall i | 0 <= i < |p| ensures AtomAccepts(p[i], pieces[i], m) {
      if i > 0 { assert AtomAccepts(p[1..][i - 1], rest[i - 1], m); }
    }
    assert Cuts(p, pieces, m);
  }

  // ----- Matching -----

  lemma ByteFirst(p: Program, text: seq<Byte>, m: Mode)
    requires p != [] && !p[0].AnySequence?
    ensures Accepts(p, text, m) <==> text != [] && AtomAccepts(p[0], text[..1], m) && Accepts(p[1..], text[1..], m)
  {
    hide Accepts;
    if Accepts(p, text, m) {
      var n := FirstTaken(p, text, m);
    }
    if text != [] && AtomAccepts(p[0], text[..1], m) && Accepts(p[1..], text[1..], m) {
      TakenFirst(p, text, m, 1);
    }
  }

  method ByteMatches(a: Atom, b: Byte, m: Mode) returns (r: bool)
    requires !a.AnySequence?
    ensures r == AtomAccepts(a, [b], m)
  {
    match a {
      case Literal(x) => r := Fold(x, m) == Fold(b, m);
      case AnyByte => r := b != SLASH || !m.pathname;
      case Class(negated, items) => r := (b != SLASH || !m.pathname) && ClassMatches(negated, items, b, m);
    }
  }

  /** Backtracking from atom number a and byte number c decides the meaning of
      what is left. */
  method MatchesFrom(p: Program, m: Mode, text: seq<Byte>, a: nat, c: nat) returns (r: bool)
    requires a <= |p| && c <= |text|
    ensures r <==> Accepts(p[a..], text[c..], m)
    decreases |p| - a
  {
    hide Accepts, AtomAccepts;
    if a == |p| {
      NothingAccepts(text[c..], m);
      return c == |text|;
    }
    assert p[a..][0] == p[a] && p[a..][1..] == p[a + 1..];
    if !p[a].AnySequence? {
      ByteFirst(p[a..], text[c..], m);
      if c == |text| { return false; }
      assert text[c..][..1] == [text[c]] && text[c..][1..] == text[c + 1..];
      var here := ByteMatches(p[a], text[c], m);
      if !here { return false; }
      r := MatchesFrom(p, m, text, a + 1, c + 1);
      return;
    }
    r := MatchStar(p, m, text, a, c);
  }

  lemma StarTakes(piece: seq<Byte>, m: Mode)
    ensures AtomAccepts(AnySequence, piece, m) <==> forall i :: 0 <= i < |piece| ==> Wild(piece[i], m)
  {
  }

  /** Neither a shorter nor a longer first part will do. */
  lemma StarFails(p: Program, m: Mode, text: seq<Byte>, a: nat, c: nat, idx: nat)
    requires a < |p| && c <= idx <= |text| && p[a].AnySequence?
    requires idx == |text| || !Wild(text[idx], m)
    requires forall j :: c <= j <= idx ==> !Accepts(p[a + 1..], text[j..], m)
    ensures !Accepts(p[a..], text[c..], m)
  {
    hide Accepts, AtomAccepts;
    assert p[a..][0] == p[a] && p[a..][1..] == p[a + 1..];
    forall n: nat ensures !TakesFirst(p[a..], text[c..], m, n) {
      if c + n <= idx {
        assert text[c..][n..] == text[c + n..];
      } else if c + n <= |text| {
        StarTakes(text[c..][..n], m);
        assert text[c..][..n][idx - c] == text[idx];
      }
    }
    SomeFirst(p[a..], text[c..], m);
  }

  lemma SomeFirst(p: Program, text: seq<Byte>, m: Mode)
    requires p != []
    ensures Accepts(p, text, m) ==> exists n: nat :: TakesFirst(p, text, m, n)
  {
    hide Accepts, AtomAccepts;
    if Accepts(p, text, m) {
      var n := FirstTaken(p, text, m);
    }
  }

  method MatchStar(p: Program, m: Mode, text: seq<Byte>, a: nat, c: nat) returns (r: bool)
    requires a < |p| && c <= |text| && p[a].AnySequence?
    ensures r <==> Accepts(p[a..], text[c..], m)
    decreases |p| - a, 0
  {
    hide Accepts, AtomAccepts;
    assert p[a..][0] == p[a] && p[a..][1..] == p[a + 1..];
    var idx := c;
    r := MatchesFrom(p, m, text, a + 1, idx);
    if r {
      StarTakes([], m);
      assert text[c..][..0] == [] && text[c..][0..] == text[c..];
      TakenFirst(p[a..], text[c..], m, 0);
      return;
    }
    while idx < |text|
      invariant c <= idx <= |text|
      invariant forall j :: c <= j < idx ==> Wild(text[j], m)
      invariant forall j :: c <= j <= idx ==> !Accepts(p[a + 1..], text[j..], m)
    {
      if m.pathname && text[idx] == SLASH { break; }
      idx := idx + 1;
      r := MatchesFrom(p, m, text, a + 1, idx);
      if r {
        StarTakes(text[c..][..idx - c], m);
        assert text[c..][idx - c..] == text[idx..];
        TakenFirst(p[a..], text[c..], m, idx - c);
        return;
      }
    }
    r := false;
    StarFails(p, m, text, a, c, idx);
  }

  method Matches(p: Program, m: Mode, text: seq<Byte>) returns (r: bool)
    ensures r <==> Accepts(p, text, m)
  {
    assert p[0..] == p && text[0..] == text;
    r := MatchesFrom(p, m, text, 0, 0);
  }

  // ----- Adjacent stars -----

  /** Every run of stars becomes one star. */
  function Collapse(p: Program): Program {
    if |p| >= 2 && p[0].AnySequence? && p[1].AnySequence? then Collapse(p[1..])
    else if p == [] then [] else [p[0]] + Collapse(p[1..])
  }

  lemma {:induction false} TwoStars(p: Program, text: seq<Byte>, m: Mode)
    requires |p| >= 2 && p[0].AnySequence? && p[1].AnySequence?
    ensures Accepts(p, text, m) <==> Accepts(p[1..], text, m)
  {
    hide Accepts, AtomAccepts;
    if Accepts(p, text, m) {
      var n := FirstTaken(p, text, m);
      var k := FirstTaken(p[1..], text[n..], m);
      StarTakes(text[..n], m);
      StarTakes(text[n..][..k], m);
      var both := text[..n + k];
      StarTakes(both, m);
      forall i | 0 <= i < |both| ensures Wild(both[i], m) {
        if i < n { assert text[..n][i] == both[i]; } else { assert text[n..][..k][i - n] == both[i]; }
      }
      assert text[n..][k..] == text[n + k..];
      TakenFirst(p[1..], text, m, n + k);
    }
    if Accepts(p[1..], text, m) {
      StarTakes([], m);
      assert text[..0] == [] && text[0..] == text;
      TakenFirst(p, text, m, 0);
    }
  }

  /** Collapsing runs of stars does not change what is accepted. */
  lemma {:induction false} CollapseKeepsMeaning(p: Program, text: seq<Byte>, m: Mode)
    ensures Accepts(Collapse(p), text, m) <==> Accepts(p, text, m)
    decreases |p|
  {
    hide Accepts, AtomAccepts;
    if |p| >= 2 && p[0].AnySequence? && p[1].AnySequence? {
      TwoStars(p, text, m);
      CollapseKeepsMeaning(p[1..], text, m);
    } else if p != [] {
      var q := [p[0]] + Collapse(p[1..]);
      assert q[0] == p[0] && q[1..] == Collapse(p[1..]);
      if Accepts(p, text, m) {
        var n := FirstTaken(p, text, m);
        CollapseKeepsMeaning(p[1..], text[n..], m);
        TakenFirst(q, text, m, n);
      }
      if Accepts(q, text, m) {
        var n := FirstTaken(q, text, m);
        CollapseKeepsMeaning(p[1..], text[n..], m);
        TakenFirst(p, text, m, n);
      }
    }
  }

  // ----- Compiling -----

  datatype Unsupported = CollatingSymbol | EquivalenceClass

  datatype Taken = Taken(byte: Byte, next: nat)

  /** One byte of a class, unquoted. */
  function ConsumeClassByte(s: seq<Byte>, i: nat): (r: Result<Option<Taken>, Unsupported>)
    ensures r.Ok? && r.value.Some? ==> i < r.value.value.next <= |s|
  {
    if i >= |s| then Ok(None)
    else if s[i] == OPEN && i + 1 < |s| && s[i + 1] == DOT then Err(CollatingSymbol)
    else if s[i] == OPEN && i + 1 < |s| && s[i + 1] == EQUALS then Err(EquivalenceClass)
    else if s[i] == BACKSLASH && i + 1 < |s| then Ok(Some(Taken(s[i + 1], i + 2)))
    else Ok(Some(Taken(s[i], i + 1)))
  }

  datatype ClassEnd = ClassEnd(items: seq<ClassItem>, next: nat)

  /** closable: a closing bracket ends the class here. */
  function ClassItems(s: seq<Byte>, i: nat, items: seq<ClassItem>, closable: bool): Result<Option<ClassEnd>, Unsupported>
    decreases |s| - i
  {
    if i >= |s| then Ok(None)
    else if s[i] == CLOSE && closable then Ok(Some(ClassEnd(items, i + 1)))
    else match ConsumeClassByte(s, i)
      case Err(e) => Err(e)
      case Ok(None) => Ok(None)
      case Ok(Some(Taken(first, j))) =>
        if j < |s| && s[j] == DASH && j + 1 < |s| && s[j + 1] != CLOSE then
          match ConsumeClassByte(s, j + 1)
          case Err(e) => Err(e)
          case Ok(None) => Ok(None)
          case Ok(Some(Taken(last, k))) => ClassItems(s, k, items + [Range(first, last)], true)
        else ClassItems(s, j, items + [One(first)], true)
  }

  datatype ClassParse = ClassParse(negated: bool, items: seq<ClassItem>, next: nat)

  /** From behind the opening bracket; None if it is not a class after all. */
  function TryParseClass(s: seq<Byte>, i: nat): Result<Option<ClassParse>, Unsupported> {
    var negated := i < |s| && (s[i] == BANG || s[i] == CARET);
    var j := if negated then i + 1 else i;
    var first := j < |s| && s[j] == CLOSE;
    match ClassItems(s, if first then j + 1 else j, if first then [One(CLOSE)] else [], first)
    case Err(e) => Err(e)
    case Ok(None) => Ok(None)
    case Ok(Some(ClassEnd(items, next))) => Ok(Some(ClassParse(negated, items, next)))
  }

  lemma {:induction false} ClassItemsMove(s: seq<Byte>, i: nat, items: seq<ClassItem>, closable: bool)
    ensures var r := ClassItems(s, i, items, closable); r.Ok? && r.value.Some? ==> i < r.value.value.next <= |s|
    decreases |s| - i
  {
    if i < |s| && !(s[i] == CLOSE && closable) {
      var c := ConsumeClassByte(s, i);
      if c.Ok? && c.value.Some? {
        var j := c.value.value.next;
        if j < |s| && s[j] == DASH && j + 1 < |s| && s[j + 1] != CLOSE {
          var d := ConsumeClassByte(s, j + 1);
          if d.Ok? && d.value.Some? {
            ClassItemsMove(s, d.value.value.next, items + [Range(c.value.value.byte, d.value.value.byte)], true);
          }
        } else {
          ClassItemsMove(s, j, items + [One(c.value.value.byte)], true);
        }
      }
    }
  }

  lemma ClassMoves(s: seq<Byte>, i: nat)
    ensures var r := TryParseClass(s, i); r.Ok? && r.value.Some? ==> i < r.value.value.next <= |s|
  {
    var negated := i < |s| && (s[i] == BANG || s[i] == CARET);
    var j := if negated then i + 1 else i;
    var first := j < |s| && s[j] == CLOSE;
    ClassItemsMove(s, if first then j + 1 else j, if first then [One(CLOSE)] else [], first);
  }

  /** What has been compiled so far is done. */
  function CompileFrom(s: seq<Byte>, i: nat, done: Program): Result<Program, Unsupported>
    decreases |s| - i
  {
    if i >= |s| then Ok(done)
    else if s[i] == BACKSLASH then
      if i + 1 < |s| then CompileFrom(s, i + 2, done + [Literal(s[i + 1])]) else Ok(done + [Literal(BACKSLASH)])
    else if s[i] == STAR then
      CompileFrom(s, i + 1, if done != [] && done[|done| - 1].AnySequence? then done else done + [AnySequence])
    else if s[i] == QUESTION then CompileFrom(s, i + 1, done + [AnyByte])
    else if s[i] == OPEN then
      (ClassMoves(s, i + 1);
       match TryParseClass(s, i + 1)
       case Err(e) => Err(e)
       case Ok(None) => CompileFrom(s, i + 1, done + [Literal(OPEN)])
       case Ok(Some(ClassParse(negated, items, next))) => CompileFrom(s, next, done + [Class(negated, items)]))
    else CompileFrom(s, i + 1, done + [Literal(s[i])])
  }

  // ----- Compiling as the source does it: with an index that moves -----

  method ParseClass(s: seq<Byte>, start: nat) returns (r: Result<Option<ClassParse>, Unsupported>)
    ensures r == TryParseClass(s, start)
  {
    hide ConsumeClassByte;
    var idx := start;
    var negated := false;
    if idx < |s| && (s[idx] == BANG || s[idx] == CARET) {
      negated := true;
      idx := idx + 1;
    }
    var items: seq<ClassItem> := [];
    var closable := false;
    if idx < |s| && s[idx] == CLOSE {
      items := [One(CLOSE)];
      idx := idx + 1;
      closable := true;
    }
    ghost var whole := ClassItems(s, idx, items, closable);
    assert TryParseClass(s, start) == match whole
      case Err(e) => Err(e)
      case Ok(None) => Ok(None)
      case Ok(Some(ClassEnd(all, next))) => Ok(Some(ClassParse(negated, all, next)));
    hide TryParseClass;
    while idx < |s|
      invariant whole == ClassItems(s, idx, items, closable)
      decreases |s| - idx
    {
      if s[idx] == CLOSE && closable { return Ok(Some(ClassParse(negated, items, idx + 1))); }
      var first := ConsumeClassByte(s, idx);
      if first.Err? { return Err(first.error); }
      if first.value.None? { return Ok(None); }
      var begin := idx;
      idx := first.value.value.next;
      closable := true;
      if idx < |s| && s[idx] == DASH && idx + 1 < |s| && s[idx + 1] != CLOSE {
        var last := ConsumeClassByte(s, idx + 1);
        if last.Err? { return Err(last.error); }
        if last.value.None? { return Ok(None); }
        idx := last.value.value.next;
        items := items + [Range(first.value.value.byte, last.value.value.byte)];
      } else {
        items := items + [One(first.value.value.byte)];
      }
    }
    return Ok(None);
  }

  method CompilePattern(s: seq<Byte>) returns (r: Result<Program, Unsupported>)
    ensures r == CompileFrom(s, 0, [])
  {
    hide TryParseClass;
    var program: Program := [];
    var idx := 0;
    while idx < |s|
      invariant CompileFrom(s, 0, []) == CompileFrom(s, idx, program)
      decreases |s| - idx
    {
      var byte := s[idx];
      idx := idx + 1;
      if byte == BACKSLASH {
        var literal := if idx < |s| then s[idx] else byte;
        if idx < |s| { idx := idx + 1; }
        program := program + [Literal(literal)];
      } else if byte == STAR {
        if program == [] || !program[|program| - 1].AnySequence? {
          program := program + [AnySequence];
        }
      } else if byte == QUESTION {
        program := program + [AnyByte];
      } else if byte == OPEN {
        ClassMoves(s, idx);
        var class_ := ParseClass(s, idx);
        match class_ {
          case Err(e) => return Err(e);
          case Ok(None) => program := program + [Literal(byte)];
          case Ok(Some(ClassParse(negated, items, next))) =>
            idx := next;
            program := program + [Class(negated, items)];
        }
      } else {
        program := program + [Literal(byte)];
      }
    }
    return Ok(program);
  }

  // ----- Printing and compiling back -----

  function PrintItem(i: ClassItem): seq<Byte> {
    match i
    case One(b) => [BACKSLASH, b]
    case Range(x, y) => [BACKSLASH, x, DASH, BACKSLASH, y]
  }

  function PrintItems(items: seq<ClassItem>): seq<Byte> {
    if items == [] then [] else PrintItem(items[0]) + PrintItems(items[1..])
  }

  /** Every literal byte is quoted. */
  function PrintAtom(a: Atom): seq<Byte> {
    match a
    case Literal(b) => [BACKSLASH, b]
    case AnyByte => [QUESTION]
    case AnySequence => [STAR]
    case Class(negated, items) => [OPEN] + (Sign(negated) + (PrintItems(items) + [CLOSE]))
  }

  function Print(p: Program): seq<Byte> {
    if p == [] then [] else PrintAtom(p[0]) + Print(p[1..])
  }

  predicate Printable(p: Program) {
    && (forall i :: 0 <= i < |p| && p[i].Class? ==> p[i].items != [])
    && (forall i :: 0 <= i < |p| - 1 ==> !(p[i].AnySequence? && p[i + 1].AnySequence?))
  }

  lemma ItemsStart(s: seq<Byte>, i: nat, items: seq<ClassItem>)
    requires Here(s, i, PrintItems(items) + [CLOSE])
    ensures i < |s| && s[i] == if items == [] then CLOSE else BACKSLASH
  {
    HereAt(s, i, PrintItems(items) + [CLOSE], 0);
  }

  lemma OneReads(s: seq<Byte>, i: nat, seen: seq<ClassItem>, b: Byte, closable: bool)
    requires i + 2 < |s| && s[i] == BACKSLASH && s[i + 1] == b && s[i + 2] != DASH
    ensures ClassItems(s, i, seen, closable) == ClassItems(s, i + 2, seen + [One(b)], true)
  {
  }

  lemma RangeReads(s: seq<Byte>, i: nat, seen: seq<ClassItem>, x: Byte, y: Byte, closable: bool)
    requires i + 4 < |s| && s[i] == BACKSLASH && s[i + 1] == x && s[i + 2] == DASH && s[i + 3] == BACKSLASH && s[i + 4] == y
    ensures ClassItems(s, i, seen, closable) == ClassItems(s, i + 5, seen + [Range(x, y)], true)
  {
  }

  lemma ItemReads(s: seq<Byte>, i: nat, seen: seq<ClassItem>, item: ClassItem, closable: bool)
    requires Here(s, i, PrintItem(item)) && i + |PrintItem(item)| < |s| && s[i + |PrintItem(item)|] != DASH
    ensures ClassItems(s, i, seen, closable) == ClassItems(s, i + |PrintItem(item)|, seen + [item], true)
  {
    hide ClassItems, Here;
    var part := PrintItem(item);
    HereAt(s, i, part, 0);
    HereAt(s, i, part, 1);
    match item
    case One(b) => OneReads(s, i, seen, b, closable);
    case Range(x, y) =>
      HereAt(s, i, part, 2);
      HereAt(s, i, part, 3);
      HereAt(s, i, part, 4);
      RangeReads(s, i, seen, x, y, closable);
  }

  lemma ItemsSplit(items: seq<ClassItem>)
    requires items != []
    ensures PrintItems(items) + [CLOSE] == PrintItem(items[0]) + (PrintItems(items[1..]) + [CLOSE])
    ensures |PrintItems(items)| == |PrintItem(items[0])| + |PrintItems(items[1..])|
  {
    hide PrintItem;
  }

  lemma ClassEnds(s: seq<Byte>, i: nat, seen: seq<ClassItem>)
    requires i < |s| && s[i] == CLOSE
    ensures ClassItems(s, i, seen, true) == Ok(Some(ClassEnd(seen, i + 1)))
  {
  }

  lemma {:induction false} ItemsRead(s: seq<Byte>, i: nat, seen: seq<ClassItem>, items: seq<ClassItem>, closable: bool)
    requires Here(s, i, PrintItems(items) + [CLOSE]) && (items == [] ==> closable)
    ensures ClassItems(s, i, seen, closable) == Ok(Some(ClassEnd(seen + items, i + |PrintItems(items)| + 1)))
    decreases |items|
  {
    hide ClassItems, Here, PrintItem;
    ItemsStart(s, i, items);
    if items == [] {
      assert seen + items == seen;
      ClassEnds(s, i, seen);
    } else {
      var part, rest := PrintItem(items[0]), items[1..];
      ItemsSplit(items);
      hide PrintItems;
      HereSplits(s, i, part, PrintItems(rest) + [CLOSE]);
      ItemsStart(s, i + |part|, rest);
      ItemReads(s, i, seen, items[0], closable);
      ItemsRead(s, i + |part|, seen + [items[0]], rest, true);
      assert seen + [items[0]] + rest == seen + items;
    }
  }

  function Sign(negated: bool): seq<Byte> {
    if negated then [BANG] else []
  }

  lemma ClassReads(s: seq<Byte>, i: nat, negated: bool, items: seq<ClassItem>)
    requires items != [] && Here(s, i, Sign(negated) + (PrintItems(items) + [CLOSE]))
    ensures TryParseClass(s, i) == Ok(Some(ClassParse(negated, items, i + |Sign(negated)| + |PrintItems(items)| + 1)))
  {
    hide ClassItems, Here, PrintItems;
    HereSplits(s, i, Sign(negated), PrintItems(items) + [CLOSE]);
    if negated { HereAt(s, i, Sign(negated), 0); }
    var j := i + |Sign(negated)|;
    ItemsStart(s, j, items);
    ItemsRead(s, j, [], items, false);
    assert [] + items == items;
  }

  lemma ClassCompiles(s: seq<Byte>, i: nat, c: ClassParse, done: Program)
    requires i < |s| && s[i] == OPEN && TryParseClass(s, i + 1) == Ok(Some(c))
    ensures CompileFrom(s, i, done) == CompileFrom(s, c.next, done + [Class(c.negated, c.items)])
  {
    hide TryParseClass;
    ClassMoves(s, i + 1);
  }

  lemma ClassPrint(negated: bool, items: seq<ClassItem>)
    ensures PrintAtom(Class(negated, items)) == [OPEN] + (Sign(negated) + (PrintItems(items) + [CLOSE]))
    ensures |PrintAtom(Class(negated, items))| == 2 + |Sign(negated)| + |PrintItems(items)|
  {
    hide PrintItems;
  }

  lemma ClassAtomReads(s: seq<Byte>, i: nat, negated: bool, items: seq<ClassItem>, done: Program)
    requires items != [] && Here(s, i, PrintAtom(Class(negated, items)))
    ensures CompileFrom(s, i, done) == CompileFrom(s, i + |PrintAtom(Class(negated, items))|, done + [Class(negated, items)])
  {
    hide CompileFrom, TryParseClass, Here, PrintItems, PrintAtom, Sign;
    var body := Sign(negated) + (PrintItems(items) + [CLOSE]);
    ClassPrint(negated, items);
    HereSplits(s, i, [OPEN], body);
    HereAt(s, i, [OPEN], 0);
    ClassReads(s, i + 1, negated, items);
    ClassCompiles(s, i, TryParseClass(s, i + 1).value.value, done);
  }

  lemma LiteralReads(s: seq<Byte>, i: nat, b: Byte, done: Program)
    requires i + 1 < |s| && s[i] == BACKSLASH && s[i + 1] == b
    ensures CompileFrom(s, i, done) == CompileFrom(s, i + 2, done + [Literal(b)])
  {
    hide TryParseClass;
  }

  lemma WildcardReads(s: seq<Byte>, i: nat, a: Atom, done: Program)
    requires i < |s| && ((a.AnyByte? && s[i] == QUESTION) || (a.AnySequence? && s[i] == STAR))
    requires a.AnySequence? && done != [] ==> !done[|done| - 1].AnySequence?
    ensures CompileFrom(s, i, done) == CompileFrom(s, i + 1, done + [a])
  {
    hide TryParseClass;
  }

  lemma AtomReads(s: seq<Byte>, i: nat, a: Atom, done: Program)
    requires Here(s, i, PrintAtom(a))
    requires a.Class? ==> a.items != []
    requires a.AnySequence? && done != [] ==> !done[|done| - 1].AnySequence?
    ensures CompileFrom(s, i, done) == CompileFrom(s, i + |PrintAtom(a)|, done + [a])
  {
    hide Here, CompileFrom;
    match a
    case Class(negated, items) => ClassAtomReads(s, i, negated, items, done);
    case Literal(b) =>
      HereAt(s, i, PrintAtom(a), 0);
      HereAt(s, i, PrintAtom(a), 1);
      LiteralReads(s, i, b, done);
    case _ =>
      HereAt(s, i, PrintAtom(a), 0);
      WildcardReads(s, i, a, done);
  }

  lemma PrintsFirst(p: Program)
    requires p != []
    ensures Print(p) == PrintAtom(p[0]) + Print(p[1..])
  {
  }

  lemma FirstIsReadable(done: Program, p: Program)
    requires p != [] && Printable(done + p)
    ensures p[0].Class? ==> p[0].items != []
    ensures p[0].AnySequence? && done != [] ==> !done[|done| - 1].AnySequence?
    ensures Printable(done + [p[0]] + p[1..])
  {
    var all := done + p;
    assert all[|done|] == p[0];
    if done != [] { assert all[|done| - 1] == done[|done| - 1]; }
    assert done + [p[0]] + p[1..] == all;
  }

  lemma {:induction false} ProgramReads(s: seq<Byte>, i: nat, done: Program, p: Program)
    requires i + |Print(p)| == |s| && Here(s, i, Print(p)) && Printable(done + p)
    ensures CompileFrom(s, i, done) == Ok(done + p)
    decreases |p|
  {
    hide Here, CompileFrom, Printable, Print, PrintAtom;
    if p == [] {
      NothingReads(s, i, done);
    } else {
      PrintsFirst(p);
      FirstIsReadable(done, p);
      var part, rest := PrintAtom(p[0]), p[1..];
      HereSplits(s, i, part, Print(rest));
      AtomReads(s, i, p[0], done);
      ProgramReads(s, i + |part|, done + [p[0]], rest);
      Regroup(done, p);
    }
  }

  lemma NothingReads(s: seq<Byte>, i: nat, done: Program)
    requires i + |Print([])| == |s|
    ensures CompileFrom(s, i, done) == Ok(done + []) && |Print([])| == 0
  {
    assert done + [] == done;
  }

  lemma Regroup(done: Program, p: Program)
    requires p != []
    ensures done + [p[0]] + p[1..] == done + p
  {
  }

  /** Compiling a printed program gives the program back, if it has no adjacent
      stars and no empty class. */
  lemma PrintThenCompile(p: Program)
    requires Printable(p)
    ensures CompileFrom(Print(p), 0, []) == Ok(p)
  {
    assert Print(p)[0..|Print(p)|] == Print(p) && [] + p == p;
    ProgramReads(Print(p), 0, [], p);
  }

  lemma {:induction false} ItemsNotEmpty(s: seq<Byte>, i: nat, items: seq<ClassItem>, closable: bool)
    requires closable ==> items != []
    ensures var r := ClassItems(s, i, items, closable); r.Ok? && r.value.Some? ==> r.value.value.items != []
    decreases |s| - i
  {
    if i < |s| && !(s[i] == CLOSE && closable) {
      var c := ConsumeClassByte(s, i);
      if c.Ok? && c.value.Some? {
        var j := c.value.value.next;
        if j < |s| && s[j] == DASH && j + 1 < |s| && s[j + 1] != CLOSE {
          var d := ConsumeClassByte(s, j + 1);
          if d.Ok? && d.value.Some? {
            ItemsNotEmpty(s, d.value.value.next, items + [Range(c.value.value.byte, d.value.value.byte)], true);
          }
        } else {
          ItemsNotEmpty(s, j, items + [One(c.value.value.byte)], true);
        }
      }
    }
  }

  lemma ClassNotEmpty(s: seq<Byte>, i: nat)
    ensures var r := TryParseClass(s, i); r.Ok? && r.value.Some? ==> r.value.value.items != []
  {
    var negated := i < |s| && (s[i] == BANG || s[i] == CARET);
    var j := if negated then i + 1 else i;
    var first := j < |s| && s[j] == CLOSE;
    ItemsNotEmpty(s, if first then j + 1 else j, if first then [One(CLOSE)] else [], first);
  }

  lemma PrintablePush(done: Program, a: Atom)
    requires Printable(done) && (a.Class? ==> a.items != [])
    requires a.AnySequence? && done != [] ==> !done[|done| - 1].AnySequence?
    ensures Printable(done + [a])
  {
  }

  /** Whatever compiles has no adjacent stars and no empty class. */
  lemma {:induction false} CompiledIsPrintable(s: seq<Byte>, i: nat, done: Program)
    requires Printable(done)
    ensures CompileFrom(s, i, done).Ok? ==> Printable(CompileFrom(s, i, done).value)
    decreases |s| - i
  {
    hide TryParseClass, Printable;
    if i < |s| {
      if s[i] == BACKSLASH {
        var b := if i + 1 < |s| then s[i + 1] else BACKSLASH;
        PrintablePush(done, Literal(b));
        if i + 1 < |s| { CompiledIsPrintable(s, i + 2, done + [Literal(b)]); }
      } else if s[i] == STAR {
        if done == [] || !done[|done| - 1].AnySequence? {
          PrintablePush(done, AnySequence);
          CompiledIsPrintable(s, i + 1, done + [AnySequence]);
        } else {
          CompiledIsPrintable(s, i + 1, done);
        }
      } else if s[i] == QUESTION {
        PrintablePush(done, AnyByte);
        CompiledIsPrintable(s, i + 1, done + [AnyByte]);
      } else if s[i] == OPEN {
        CompiledClass(s, i, done);
      } else {
        PrintablePush(done, Literal(s[i]));
        CompiledIsPrintable(s, i + 1, done + [Literal(s[i])]);
      }
    }
  }

  lemma {:induction false} CompiledClass(s: seq<Byte>, i: nat, done: Program)
    requires Printable(done) && i < |s| && s[i] == OPEN
    ensures CompileFrom(s, i, done).Ok? ==> Printable(CompileFrom(s, i, done).value)
    decreases |s| - i, 0
  {
    hide TryParseClass, Printable;
    ClassMoves(s, i + 1);
    ClassNotEmpty(s, i + 1);
    match TryParseClass(s, i + 1)
    case Err(_) =>
    case Ok(None) =>
      PrintablePush(done, Literal(OPEN));
      CompiledIsPrintable(s, i + 1, done + [Literal(OPEN)]);
    case Ok(Some(ClassParse(negated, items, next))) =>
      PrintablePush(done, Class(negated, items));
      CompiledIsPrintable(s, next, done + [Class(negated, items)]);
  }

  /** Printing is a normal form: a pattern that compiles and its quoted printout
      compile to the same program. */
  lemma CompileThenPrint(s: seq<Byte>)
    requires CompileFrom(s, 0, []).Ok?
    ensures CompileFrom(Print(CompileFrom(s, 0, []).value), 0, []) == CompileFrom(s, 0, [])
  {
    CompiledIsPrintable(s, 0, []);
    PrintThenCompile(CompileFrom(s, 0, []).value);
  }
}
