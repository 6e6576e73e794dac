/** How the atoms of a glob program are written, and that compiling reads exactly what
    is so written. */
module GlobSpelling {
  import opened Basics
  import opened Glob

  // ----- Letters -----

  predicate IsUpper(b: Byte) {
    'A' as int <= b <= 'Z' as int
  }

  /** x is a capital letter and y the same letter in lower case. */
  predicate IsCapitalOf(x: Byte, y: Byte) {
    IsUpper(x) && y - x == 'a' as int - 'A' as int
  }

  /** Without regard to case two bytes are the same if they are equal or one letter in
      two cases; what is compared is never a capital. */
  lemma FoldMeans(x: Byte, y: Byte, m: Mode)
    ensures Fold(x, m) == Fold(y, m) <==> x == y || (m.insensitive && (IsCapitalOf(x, y) || IsCapitalOf(y, x)))
    ensures m.insensitive ==> !IsUpper(Fold(x, m)) && Fold(Fold(x, m), m) == Fold(x, m)
  {
  }

  /** A class item with regard to case is a byte or an interval.  Without regard to case
      it does not tell a letter's two cases apart, and of other bytes and of small letters
      accepts what the item with its own ends in small letters accepts. */
  lemma ItemsMean(x: Byte, y: Byte, b: Byte, small: Byte, m: Mode)
    ensures !m.insensitive ==> (ItemMatches(One(x), b, m) <==> b == x) && (ItemMatches(Range(x, y), b, m) <==> x <= b <= y)
    ensures m.insensitive && IsCapitalOf(b, small) ==>
      && (ItemMatches(One(x), b, m) <==> ItemMatches(One(x), small, m))
      && (ItemMatches(Range(x, y), b, m) <==> ItemMatches(Range(x, y), small, m))
    ensures m.insensitive && IsCapitalOf(x, small) ==>
      && (ItemMatches(One(x), b, m) <==> ItemMatches(One(small), b, m))
      && (ItemMatches(Range(x, y), b, m) <==> ItemMatches(Range(small, y), b, m))
      && (ItemMatches(Range(y, x), b, m) <==> ItemMatches(Range(y, small), b, m))
    ensures m.insensitive && !IsUpper(x) && !IsUpper(y) && !IsUpper(b) ==>
      && (ItemMatches(One(x), b, m) <==> b == x) && (ItemMatches(Range(x, y), b, m) <==> x <= b <= y)
  {
  }

  /** A class accepts what one of its items accepts, a negated class everything else. */
  lemma ClassMeans(items: seq<ClassItem>, b: Byte, m: Mode)
    ensures ClassMatches(false, items, b, m) <==> exists x :: x in items && ItemMatches(x, b, m)
    ensures ClassMatches(true, items, b, m) <==> !ClassMatches(false, items, b, m)
  {
    hide ItemMatches;
    if ClassMatches(false, items, b, m) {
      var i :| 0 <= i < |items| && ItemMatches(items[i], b, m);
      assert items[i] in items;
    }
  }

  /** Where a slash has to be matched by a slash, no wildcard takes one; nothing else is
      ever out of reach of a question mark or a star. */
  lemma WildcardsAndSlashes(b: Byte, m: Mode)
    ensures AtomAccepts(AnyByte, [b], m) <==> AtomAccepts(AnySequence, [b], m)
    ensures AtomAccepts(AnyByte, [b], m) <==> !(m.pathname && b == '/' as int)
    ensures m.pathname ==> forall negated, items :: !AtomAccepts(Class(negated, items), ['/' as int], m)
  {
  }

  // ----- Bracket expressions -----

  /** s[i..k] writes the byte b. */
  predicate WritesByte(s: seq<Byte>, i: nat, k: nat, b: Byte) {
    || (k == i + 2 <= |s| && s[i] == '\\' as int && s[i + 1] == b)
    || (k == i + 1 <= |s| && s[i] == b && (b == '\\' as int ==> k == |s|) && !(b == '[' as int && k < |s| && s[k] in {'.' as int, '=' as int}))
  }

  /** At k stands a dash between two bytes. */
  predicate RangeDash(s: seq<Byte>, k: nat) {
    k + 1 < |s| && s[k] == '-' as int && s[k + 1] != ']' as int
  }

  ghost predicate WritesItem(s: seq<Byte>, i: nat, k: nat, x: ClassItem) {
    match x
    case One(b) => WritesByte(s, i, k, b) && !RangeDash(s, k)
    case Range(a, b) => exists d :: i < d < k && WritesByte(s, i, d, a) && RangeDash(s, d) && WritesByte(s, d + 1, k, b)
  }

  /** The items and the closing bracket; none of them begins with a closing bracket. */
  ghost predicate WritesItems(s: seq<Byte>, i: nat, j: nat, items: seq<ClassItem>)
    decreases |items|
  {
    if items == [] then i < |s| && s[i] == ']' as int && j == i + 1
    else i < |s| && s[i] != ']' as int && exists k :: i < k <= |s| && WritesItem(s, i, k, items[0]) && WritesItems(s, k, j, items[1..])
  }

  /** Behind the opening bracket: the sign, and items; a closing bracket may come first. */
  ghost predicate WritesClass(s: seq<Byte>, i: nat, j: nat, negated: bool, items: seq<ClassItem>) {
    var from := if negated then i + 1 else i;
    && i < |s| && (s[i] in {'!' as int, '^' as int} <==> negated) && items != []
    && if from < |s| && s[from] == ']' as int then items[0] == One(']' as int) && WritesItems(s, from + 1, j, items[1..])
       else WritesItems(s, from, j, items)
  }

  lemma ByteReads(s: seq<Byte>, i: nat, b: Byte, k: nat)
    ensures ConsumeClassByte(s, i) == Ok(Some(Taken(b, k))) <==> WritesByte(s, i, k, b)
  {
  }

  lemma {:induction false} ItemsAreRead(s: seq<Byte>, i: nat, j: nat, seen: seq<ClassItem>, items: seq<ClassItem>, closable: bool)
    requires WritesItems(s, i, j, items) && (!closable ==> items != [])
    ensures ClassItems(s, i, seen, closable) == Ok(Some(ClassEnd(seen + items, j)))
    decreases |items|
  {
    hide ConsumeClassByte, WritesByte, RangeDash;
    if items == [] {
      assert seen + items == seen;
    } else {
      var k :| i < k <= |s| && WritesItem(s, i, k, items[0]) && WritesItems(s, k, j, items[1..]);
      assert seen + [items[0]] + items[1..] == seen + items;
      ItemsAreRead(s, k, j, seen + [items[0]], items[1..], true);
      OneItem(s, i, k, seen, items[0], closable);
    }
  }

  lemma OneItem(s: seq<Byte>, i: nat, k: nat, seen: seq<ClassItem>, x: ClassItem, closable: bool)
    requires i < |s| && s[i] != CLOSE && WritesItem(s, i, k, x)
    ensures ClassItems(s, i, seen, closable) == ClassItems(s, k, seen + [x], true)
  {
    hide ConsumeClassByte, WritesByte;
    match x
    case One(b) => ByteReads(s, i, b, k);
    case Range(a, b) =>
      var d :| i < d < k && WritesByte(s, i, d, a) && RangeDash(s, d) && WritesByte(s, d + 1, k, b);
      ByteReads(s, i, a, d);
      ByteReads(s, d + 1, b, k);
  }

  lemma NextItem(s: seq<Byte>, i: nat, seen: seq<ClassItem>, closable: bool) returns (x: ClassItem, k: nat)
    requires ClassItems(s, i, seen, closable).Ok? && ClassItems(s, i, seen, closable).value.Some?
    requires i < |s| && s[i] != CLOSE
    ensures i < k < |s| && WritesItem(s, i, k, x) && ClassItems(s, i, seen, closable) == ClassItems(s, k, seen + [x], true)
  {
    hide ConsumeClassByte, WritesByte;
    var first := ConsumeClassByte(s, i).value.value;
    ByteReads(s, i, first.byte, first.next);
    if RangeDash(s, first.next) {
      var last := ConsumeClassByte(s, first.next + 1).value.value;
      ByteReads(s, first.next + 1, last.byte, last.next);
      x, k := Range(first.byte, last.byte), last.next;
    } else {
      x, k := One(first.byte), first.next;
    }
  }

  lemma {:induction false} ReadItemsAreWritten(s: seq<Byte>, i: nat, seen: seq<ClassItem>, closable: bool)
    requires ClassItems(s, i, seen, closable).Ok? && ClassItems(s, i, seen, closable).value.Some?
    requires i < |s| && (s[i] == CLOSE ==> closable)
    ensures var end := ClassItems(s, i, seen, closable).value.value;
      && |seen| <= |end.items| && end.items[..|seen|] == seen && WritesItems(s, i, end.next, end.items[|seen|..])
    decreases |s| - i
  {
    hide ConsumeClassByte, WritesByte, WritesItem;
    var end := ClassItems(s, i, seen, closable).value.value;
    if s[i] == CLOSE {
      assert end.items[|seen|..] == [];
    } else {
      var x, k := NextItem(s, i, seen, closable);
      hide ClassItems;
      ReadItemsAreWritten(s, k, seen + [x], true);
      var items := end.items[|seen|..];
      assert end.items[|seen|] == end.items[..|seen| + 1][|seen|];
      assert end.items[..|seen|] == end.items[..|seen| + 1][..|seen|];
      assert items[0] == x && items[1..] == end.items[|seen| + 1..];
    }
  }

  ghost predicate IsClass(s: seq<Byte>, i: nat, negated: bool, items: seq<ClassItem>, j: nat) {
    TryParseClass(s, i) == Ok(Some(ClassParse(negated, items, j)))
  }

  /** A bracket expression is read if and only if it is written. */
  lemma ClassReadsExactly(s: seq<Byte>, i: nat, negated: bool, items: seq<ClassItem>, j: nat)
    ensures IsClass(s, i, negated, items, j) <==> WritesClass(s, i, j, negated, items)
  {
    hide ClassItems, WritesItems;
    if WritesClass(s, i, j, negated, items) {
      var from := if negated then i + 1 else i;
      if from < |s| && s[from] == CLOSE {
        assert [One(CLOSE)] + items[1..] == items;
        ItemsAreRead(s, from + 1, j, [One(CLOSE)], items[1..], true);
      } else {
        assert [] + items == items;
        ItemsAreRead(s, from, j, [], items, false);
      }
    }
    if IsClass(s, i, negated, items, j) { ClassIsWritten(s, i, negated, items, j); }
  }

  lemma ClassIsWritten(s: seq<Byte>, i: nat, negated: bool, items: seq<ClassItem>, j: nat)
    requires IsClass(s, i, negated, items, j)
    ensures WritesClass(s, i, j, negated, items)
  {
    hide WritesItems, ClassItems;
    ClassNotEmpty(s, i);
    var from := if negated then i + 1 else i;
    if from < |s| && s[from] == CLOSE {
      NoEnd(s, from + 1, [One(CLOSE)], true);
      ReadItemsAreWritten(s, from + 1, [One(CLOSE)], true);
      assert items[0] == items[..1][0];
    } else {
      NoEnd(s, from, [], false);
      ReadItemsAreWritten(s, from, [], false);
      assert items[0..] == items;
    }
  }

  lemma NoEnd(s: seq<Byte>, i: nat, seen: seq<ClassItem>, closable: bool)
    ensures i >= |s| ==> ClassItems(s, i, seen, closable) == Ok(None)
  {
  }

  // ----- Programs -----

  /** s[i..j] writes the atom a. */
  ghost predicate Writes(s: seq<Byte>, i: nat, j: nat, a: Atom) {
    i < j <= |s| &&
    match a
    case Literal(b) =>
      || (j == i + 2 && s[i] == '\\' as int && s[i + 1] == b)
      || (j == i + 1 && s[i] == b && b !in {'*' as int, '?' as int}
          && (b == '\\' as int ==> j == |s|) && (b == '[' as int ==> TryParseClass(s, j) == Ok(None)))
    case AnyByte => j == i + 1 && s[i] == '?' as int
    case AnySequence => (forall k :: i <= k < j ==> s[k] == '*' as int) && (j < |s| ==> s[j] != '*' as int)
    case Class(negated, items) => s[i] == '[' as int && WritesClass(s, i + 1, j, negated, items)
  }

  /** From i on stand the atoms of p one behind the other. */
  ghost predicate Written(s: seq<Byte>, i: nat, p: Program)
    decreases |p|
  {
    if p == [] then i == |s| else exists j :: i < j <= |s| && Writes(s, i, j, p[0]) && Written(s, j, p[1..])
  }

  /** The last atom so far is no star, or no star follows. */
  predicate Apart(s: seq<Byte>, i: nat, done: Program) {
    done != [] && done[|done| - 1].AnySequence? ==> i >= |s| || s[i] != STAR
  }

  lemma {:induction false} StarsSkipped(s: seq<Byte>, i: nat, j: nat, done: Program)
    requires i <= j <= |s| && (forall k :: i <= k < j ==> s[k] == STAR)
    requires done != [] && done[|done| - 1].AnySequence?
    ensures CompileFrom(s, i, done) == CompileFrom(s, j, done)
    decreases j - i
  {
    hide TryParseClass;
    if i < j { StarsSkipped(s, i + 1, j, done); }
  }

  function StarsEnd(s: seq<Byte>, i: nat): (j: nat)
    requires i <= |s|
    ensures i <= j <= |s| && (forall k :: i <= k < j ==> s[k] == STAR) && (j < |s| ==> s[j] != STAR)
    decreases |s| - i
  {
    if i < |s| && s[i] == STAR then StarsEnd(s, i + 1) else i
  }

  lemma AtomCompiles(s: seq<Byte>, i: nat, j: nat, a: Atom, done: Program)
    requires Writes(s, i, j, a) && Apart(s, i, done)
    ensures CompileFrom(s, i, done) == CompileFrom(s, j, done + [a]) && Apart(s, j, done + [a])
  {
    hide TryParseClass, WritesClass;
    match a
    case AnySequence => StarsSkipped(s, i + 1, j, done + [a]);
    case Class(negated, items) =>
      ClassReadsExactly(s, i + 1, negated, items, j);
      ClassCompiles(s, i, ClassParse(negated, items, j), done);
    case Literal(b) => PlainEnd(s, j, done + [a]);
    case AnyByte =>
  }

  lemma PlainEnd(s: seq<Byte>, j: nat, done: Program)
    ensures j == |s| ==> CompileFrom(s, j, done) == Ok(done)
  {
  }

  lemma {:induction false} WrittenCompiles(s: seq<Byte>, i: nat, done: Program, p: Program)
    requires Written(s, i, p) && Apart(s, i, done)
    ensures CompileFrom(s, i, done) == Ok(done + p)
    decreases |p|
  {
    hide Writes, CompileFrom, Apart;
    if p == [] {
      assert done + p == done;
      PlainEnd(s, i, done);
    } else {
      var j :| i < j <= |s| && Writes(s, i, j, p[0]) && Written(s, j, p[1..]);
      AtomCompiles(s, i, j, p[0], done);
      WrittenCompiles(s, j, done + [p[0]], p[1..]);
      assert done + [p[0]] + p[1..] == done + p;
    }
  }

  /** The next atom that is compiled. */
  lemma NextAtom(s: seq<Byte>, i: nat, done: Program) returns (a: Atom, j: nat)
    requires i < |s| && CompileFrom(s, i, done).Ok?
    ensures Writes(s, i, j, a)
  {
    hide WritesClass, TryParseClass;
    if s[i] == BACKSLASH {
      j := if i + 1 < |s| then i + 2 else i + 1;
      a := Literal(if i + 1 < |s| then s[i + 1] else BACKSLASH);
    } else if s[i] == STAR {
      a, j := AnySequence, StarsEnd(s, i);
    } else if s[i] == QUESTION {
      a, j := AnyByte, i + 1;
    } else if s[i] == OPEN && TryParseClass(s, i + 1).value.Some? {
      ClassMoves(s, i + 1);
      var c := TryParseClass(s, i + 1).value.value;
      ClassReadsExactly(s, i + 1, c.negated, c.items, c.next);
      a, j := Class(c.negated, c.items), c.next;
    } else {
      a, j := Literal(s[i]), i + 1;
    }
  }

  lemma {:induction false} CompiledIsWritten(s: seq<Byte>, i: nat, done: Program)
    requires i <= |s| && CompileFrom(s, i, done).Ok? && Apart(s, i, done)
    ensures var q := CompileFrom(s, i, done).value; |done| <= |q| && q[..|done|] == done && Written(s, i, q[|done|..])
    decreases |s| - i
  {
    hide Writes, CompileFrom, Apart;
    var q := CompileFrom(s, i, done).value;
    if i == |s| {
      PlainEnd(s, i, done);
      assert q[|done|..] == [];
    } else {
      var a, j := NextAtom(s, i, done);
      assert i < j <= |s| by { WritesForward(s, i, j, a); }
      AtomCompiles(s, i, j, a, done);
      CompiledIsWritten(s, j, done + [a]);
      var p := q[|done|..];
      assert q[|done|] == q[..|done| + 1][|done|] && q[..|done|] == q[..|done| + 1][..|done|];
      assert p[0] == a && p[1..] == q[|done| + 1..];
    }
  }

  lemma WritesForward(s: seq<Byte>, i: nat, j: nat, a: Atom)
    requires Writes(s, i, j, a)
    ensures i < j <= |s|
  {
  }

  /** A pattern compiles to a program if and only if it is made of texts of its atoms:
      bytes quoted or, where they mean nothing else, unquoted, runs of stars, and bracket
      expressions. */
  lemma CompilesExactlyTheWritten(s: seq<Byte>, p: Program)
    ensures CompileFrom(s, 0, []) == Ok(p) <==> Written(s, 0, p)
  {
    hide CompileFrom, Written;
    if Written(s, 0, p) {
      WrittenCompiles(s, 0, [], p);
      assert [] + p == p;
    }
    if CompileFrom(s, 0, []) == Ok(p) {
      CompiledIsWritten(s, 0, []);
      assert p[0..] == p;
    }
  }
}
