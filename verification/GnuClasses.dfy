/** Bracket expressions of the GNU regular expression dialects. */
module GnuClasses {
  import opened Basics

  type Byte = c: char | c < 256 as char

  datatype LexError =
    | TrailingBackslash | UnmatchedClose | UnclosedGroup | UnsupportedEscape(byte: Byte)
    | UnterminatedBound | MalformedBound
    | UnterminatedClass | UnterminatedClassName | UnsupportedClass | CollatingSymbol | EquivalenceClass | InvalidRange

  datatype Item = One(byte: Byte) | Range(start: Byte, end: Byte) | Posix(name: seq<Byte>)

  datatype Brackets = Brackets(negated: bool, items: seq<Item>)

  const NAMES: seq<seq<Byte>> := ["alnum", "alpha", "blank", "cntrl", "digit", "graph", "lower", "print", "punct", "space", "upper", "xdigit"]

  // ----- Reading -----

  /** The rest of a class name that begins at start, from i on. */
  function ClassName(s: seq<Byte>, start: nat, i: nat): (r: Result<(Item, nat), LexError>)
    requires start <= i <= |s|
    ensures r.Ok? ==> i < r.value.1 <= |s|
    decreases |s| - i
  {
    if i + 1 >= |s| then Err(UnterminatedClassName)
    else if s[i] == ':' && s[i + 1] == ']' then (if s[start..i] in NAMES then Ok((Posix(s[start..i]), i + 2)) else Err(UnsupportedClass))
    else if s[i] >= 128 as char then Err(UnsupportedClass)
    else ClassName(s, start, i + 1)
  }

  function ClassItem(s: seq<Byte>, i: nat): (r: Result<(Item, nat), LexError>)
    requires i <= |s|
    ensures r.Ok? ==> i < r.value.1 <= |s|
  {
    if i == |s| then Err(UnterminatedClass)
    else if s[i] == '[' && i + 1 < |s| && s[i + 1] == ':' then ClassName(s, i + 2, i + 2)
    else if s[i] == '[' && i + 1 < |s| && s[i + 1] == '.' then Err(CollatingSymbol)
    else if s[i] == '[' && i + 1 < |s| && s[i + 1] == '=' then Err(EquivalenceClass)
    else Ok((One(s[i]), i + 1))
  }

  /** The items from i on, after those read so far. */
  function ItemsFrom(s: seq<Byte>, i: nat, items: seq<Item>): (r: Result<(seq<Item>, nat), LexError>)
    requires i <= |s|
    ensures r.Ok? ==> i < r.value.1 <= |s|
    decreases |s| - i
  {
    if i == |s| then Err(UnterminatedClass)
    else if s[i] == ']' then Ok((items, i + 1))
    else match ClassItem(s, i)
      case Err(error) => Err(error)
      case Ok((item, j)) =>
        if item == One('-') && items != [] && !(j < |s| && s[j] == ']') then
          match ClassItem(s, j)
          case Err(error) => Err(error)
          case Ok((end, k)) =>
            var start := items[|items| - 1];
            if start.One? && end.One? then
              if start.byte > end.byte then Err(InvalidRange)
              else ItemsFrom(s, k, items[..|items| - 1] + [Range(start.byte, end.byte)])
            else ItemsFrom(s, k, items + [item, end])
        else ItemsFrom(s, j, items + [item])
  }

  /** A bracket expression, i being behind its opening bracket. */
  function LexClass(s: seq<Byte>, i: nat): (r: Result<(Brackets, nat), LexError>)
    requires i <= |s|
    ensures r.Ok? ==> i < r.value.1 <= |s|
  {
    var negated := i < |s| && s[i] == '^';
    var from := if negated then i + 1 else i;
    match if from < |s| && s[from] == ']' then ItemsFrom(s, from + 1, [One(']')]) else ItemsFrom(s, from, [])
    case Err(error) => Err(error)
    case Ok((items, next)) => Ok((Brackets(negated, items), next))
  }

  /** Item by item; a dash takes the last item back if it makes a range. */
  method ReadClass(s: seq<Byte>, i: nat) returns (r: Result<(Brackets, nat), LexError>)
    requires i <= |s|
    ensures r == LexClass(s, i)
  {
    hide ClassItem;
    var index, negated, items: seq<Item> := i, false, [];
    if index < |s| && s[index] == '^' {
      index, negated := index + 1, true;
    }
    if index < |s| && s[index] == ']' {
      index, items := index + 1, [One(']')];
    }
    ghost var whole := ItemsFrom(s, index, items);
    while index < |s|
      invariant index <= |s| && ItemsFrom(s, index, items) == whole
      decreases |s| - index
    {
      if s[index] == ']' { return Ok((Brackets(negated, items), index + 1)); }
      var item := ClassItem(s, index);
      if item.Err? { return Err(item.error); }
      if item.value.0 == One('-') && items != [] && !(item.value.1 < |s| && s[item.value.1] == ']') {
        var end := ClassItem(s, item.value.1);
        if end.Err? { return Err(end.error); }
        var start := items[|items| - 1];
        if start.One? && end.value.0.One? {
          if start.byte > end.value.0.byte { return Err(InvalidRange); }
          items := items[..|items| - 1] + [Range(start.byte, end.value.0.byte)];
        } else {
          items := items + [item.value.0, end.value.0];
        }
        index := end.value.1;
      } else {
        items := items + [item.value.0];
        index := item.value.1;
      }
    }
    r := Err(UnterminatedClass);
  }

  // ----- Writing -----

  function ItemText(x: Item): (t: seq<Byte>)
    ensures t != []
  {
    match x
    case One(b) => [b]
    case Range(start, end) => [start, '-', end]
    case Posix(name) => "[:" + name + ":]"
  }

  /** The items from k on and the closing bracket. */
  function ItemsText(items: seq<Item>, k: nat): (t: seq<Byte>)
    requires k <= |items|
    ensures t != []
    decreases |items| - k
  {
    if k == |items| then "]" else ItemText(items[k]) + ItemsText(items, k + 1)
  }

  function BracketsText(c: Brackets): seq<Byte> {
    (if c.negated then "^" else "") + ItemsText(c.items, 0)
  }

  /** The byte the text of the items from k on begins with. */
  function First(items: seq<Item>, k: nat): Byte
    requires k <= |items|
  {
    ItemsText(items, k)[0]
  }

  /** An opening bracket can stand for itself before next. */
  predicate Bare(b: Byte, next: Byte) {
    b == '[' ==> next != ':' && next != '.' && next != '='
  }

  /** An item that reads as itself when it is followed by next. */
  predicate Sound(x: Item, next: Byte) {
    match x
    case One(b) => Bare(b, next)
    case Range(start, end) => start <= end && end != ']' && Bare(end, next)
    case Posix(name) => name in NAMES
  }

  /** The items from k on read as themselves.  A dash between two items stands for
      itself only if they do not make a range, and then takes the next item with it. */
  predicate ReadableFrom(items: seq<Item>, k: nat)
    requires k <= |items|
    decreases |items| - k
  {
    if k == |items| then true
    else if items[k] == One('-') && 0 < k < |items| - 1 then
      && (items[k - 1].One? ==> items[k + 1].Posix?)
      && First(items, k + 1) != ']' && Sound(items[k + 1], First(items, k + 2)) && ReadableFrom(items, k + 2)
    else
      && First(items, k) != ']' && !(k > 0 && items[k].Range? && items[k].start == '-')
      && Sound(items[k], First(items, k + 1)) && ReadableFrom(items, k + 1)
  }

  /** A closing bracket may come first; a circumflex may not, unless it negates. */
  predicate Readable(c: Brackets) {
    && c.items != []
    && (!c.negated ==> First(c.items, 0) != '^')
    && if First(c.items, 0) == ']' then Sound(c.items[0], First(c.items, 1)) && ReadableFrom(c.items, 1)
       else ReadableFrom(c.items, 0)
  }

  // ----- Reading and writing are inverse to each other -----

  lemma HereBoth(s: seq<Byte>, i: nat, a: seq<Byte>, b: seq<Byte>)
    ensures Here(s, i, a + b) <==> Here(s, i, a) && Here(s, i + |a|, b)
  {
    if Here(s, i, a + b) {
      assert s[i..i + |a|] == (a + b)[..|a|] == a;
      assert s[i + |a|..i + |a| + |b|] == (a + b)[|a|..] == b;
    }
    if Here(s, i, a) && Here(s, i + |a|, b) {
      assert s[i..i + |a + b|] == s[i..i + |a|] + s[i + |a|..i + |a| + |b|];
    }
  }

  lemma HereFirst(s: seq<Byte>, i: nat, t: seq<Byte>)
    requires Here(s, i, t) && t != []
    ensures i < |s| && s[i] == t[0]
  {
    assert s[i..i + |t|][0] == s[i];
  }

  lemma HereOne(s: seq<Byte>, i: nat, b: Byte)
    ensures Here(s, i, [b]) <==> i < |s| && s[i] == b
  {
    if i < |s| { assert s[i..i + 1] == [s[i]]; }
  }

  lemma NamesArePlain(name: seq<Byte>)
    requires name in NAMES
    ensures forall k :: 0 <= k < |name| ==> name[k] != ':' && name[k] < 128 as char
  {
  }

  lemma {:induction false} NameReads(s: seq<Byte>, start: nat, i: nat, name: seq<Byte>)
    requires start <= i && Here(s, start, name + ":]") && i <= start + |name| && name in NAMES
    ensures ClassName(s, start, i) == Ok((Posix(name), start + |name| + 2))
    decreases start + |name| - i
  {
    hide Here;
    NamesArePlain(name);
    HereBoth(s, start, name, ":]");
    HereName(s, start, name);
    if i < start + |name| {
      NameReads(s, start, i + 1, name);
    }
  }

  lemma HereName(s: seq<Byte>, start: nat, name: seq<Byte>)
    requires Here(s, start, name + ":]")
    ensures start + |name| + 2 <= |s| && s[start..start + |name|] == name
    ensures s[start + |name|] == ':' && s[start + |name| + 1] == ']'
    ensures forall i :: start <= i < start + |name| ==> s[i] == name[i - start]
  {
    HereBoth(s, start, name, ":]");
    assert s[start + |name|..start + |name| + 2] == [s[start + |name|], s[start + |name| + 1]];
    assert forall i :: start <= i < start + |name| ==> s[i] == s[start..start + |name|][i - start];
  }

  lemma {:induction false} NameIsRead(s: seq<Byte>, start: nat, i: nat)
    requires start <= i <= |s| && ClassName(s, start, i).Ok?
    ensures var r := ClassName(s, start, i).value;
      r.0.Posix? && r.0.name in NAMES && Here(s, start, r.0.name + ":]") && r.1 == start + |r.0.name| + 2
    decreases |s| - i
  {
    if s[i] == ':' && s[i + 1] == ']' {
      var name := s[start..i];
      assert s[start..start + |name + ":]"|] == name + ":]";
    } else {
      NameIsRead(s, start, i + 1);
    }
  }

  /** A single byte or a class name, written out and followed by next, is read as itself. */
  lemma ItemReads(s: seq<Byte>, i: nat, x: Item, next: Byte)
    requires !x.Range? && Sound(x, next) && Here(s, i, ItemText(x) + [next])
    ensures ClassItem(s, i) == Ok((x, i + |ItemText(x)|))
  {
    HereBoth(s, i, ItemText(x), [next]);
    HereOne(s, i + |ItemText(x)|, next);
    match x
    case One(b) => HereOne(s, i, b);
    case Posix(name) =>
      assert ItemText(x) == "[:" + (name + ":]");
      HereBoth(s, i, "[:", name + ":]");
      assert "[:" == ['['] + [':'];
      HereBoth(s, i, ['['], [':']);
      HereOne(s, i, '[');
      HereOne(s, i + 1, ':');
      NameReads(s, i + 2, i + 2, name);
  }

  lemma ItemIsRead(s: seq<Byte>, i: nat)
    requires i <= |s| && ClassItem(s, i).Ok?
    ensures var r := ClassItem(s, i).value;
      && !r.0.Range? && Here(s, i, ItemText(r.0)) && r.1 == i + |ItemText(r.0)|
      && (r.1 < |s| ==> Sound(r.0, s[r.1]))
      && (r.0.One? ==> r.0.byte == s[i])
  {
    HereOne(s, i, s[i]);
    var x := ClassItem(s, i).value.0;
    if s[i] == '[' && i + 1 < |s| && s[i + 1] == ':' {
      NameIsRead(s, i + 2, i + 2);
      assert ItemText(x) == "[:" + (x.name + ":]");
      assert "[:" == ['['] + [':'];
      HereBoth(s, i, ['['], [':']);
      HereOne(s, i + 1, ':');
      HereBoth(s, i, "[:", x.name + ":]");
    }
  }

  lemma TextSplits(items: seq<Item>, k: nat)
    requires k < |items|
    ensures ItemsText(items, k) == ItemText(items[k]) + ItemsText(items, k + 1)
    ensures ItemsText(items, k + 1)[0] == First(items, k + 1) && First(items, k) == ItemText(items[k])[0]
  {
  }

  /** From i on stand the items from k on and the closing bracket. */
  ghost predicate Stand(s: seq<Byte>, i: nat, items: seq<Item>, k: nat) {
    k <= |items| && Here(s, i, ItemsText(items, k))
  }

  lemma StandNext(s: seq<Byte>, i: nat, items: seq<Item>, k: nat)
    requires k < |items|
    ensures Stand(s, i, items, k) <==> Here(s, i, ItemText(items[k])) && Stand(s, i + |ItemText(items[k])|, items, k + 1)
  {
    hide Here, ItemsText, ItemText;
    TextSplits(items, k);
    HereBoth(s, i, ItemText(items[k]), ItemsText(items, k + 1));
  }

  lemma StandFirst(s: seq<Byte>, i: nat, items: seq<Item>, k: nat)
    requires Stand(s, i, items, k)
    ensures i < |s| && s[i] == First(items, k)
  {
    hide Here, ItemsText;
    HereFirst(s, i, ItemsText(items, k));
  }

  lemma RangeText(s: seq<Byte>, i: nat, start: Byte, end: Byte)
    ensures Here(s, i, ItemText(Range(start, end))) <==> i + 2 < |s| && s[i] == start && s[i + 1] == '-' && s[i + 2] == end
  {
    if i + 2 < |s| { assert s[i..i + 3] == [s[i], s[i + 1], s[i + 2]]; }
    if Here(s, i, ItemText(Range(start, end))) {
      assert s[i..i + 3][0] == s[i] && s[i..i + 3][1] == s[i + 1] && s[i..i + 3][2] == s[i + 2];
    }
  }

  lemma OneReads(s: seq<Byte>, i: nat)
    requires i + 1 < |s| && Bare(s[i], s[i + 1])
    ensures ClassItem(s, i) == Ok((One(s[i]), i + 1))
  {
  }

  lemma ShortText(items: seq<Item>)
    ensures ItemsText(items, |items|) == "]"
  {
  }

  lemma PlainStep(s: seq<Byte>, i: nat, done: seq<Item>)
    requires i < |s| && s[i] != ']' && ClassItem(s, i).Ok?
    requires var (x, j) := ClassItem(s, i).value; x == One('-') && done != [] ==> j < |s| && s[j] == ']'
    ensures var (x, j) := ClassItem(s, i).value; ItemsFrom(s, i, done) == ItemsFrom(s, j, done + [x])
  {
    hide ClassItem;
  }

  /** A dash that belongs to what comes before it and to what comes after it. */
  lemma DashStep(s: seq<Byte>, i: nat, done: seq<Item>, y: Item, k: nat)
    requires i + 1 < |s| && s[i] == '-' && s[i + 1] != ']' && done != [] && ClassItem(s, i + 1) == Ok((y, k))
    requires done[|done| - 1].One? && y.One? ==> done[|done| - 1].byte <= y.byte
    ensures var start := done[|done| - 1];
      ItemsFrom(s, i, done)
      == ItemsFrom(s, k, if start.One? && y.One? then done[..|done| - 1] + [Range(start.byte, y.byte)] else done + [One('-'), y])
  {
  }

  lemma FinishRange(s: seq<Byte>, i: nat, done: seq<Item>, start: Byte, end: Byte)
    requires i + 2 < |s| && s[i] == '-' && s[i + 1] == end && end != ']' && Bare(end, s[i + 2]) && start <= end
    ensures ItemsFrom(s, i, done + [One(start)]) == ItemsFrom(s, i + 2, done + [Range(start, end)])
  {
    hide ItemsFrom, ClassItem;
    var all := done + [One(start)];
    OneReads(s, i + 1);
    DashStep(s, i, all, One(end), i + 2);
    assert all[..|all| - 1] == done;
  }

  lemma RangeSteps(s: seq<Byte>, i: nat, done: seq<Item>, start: Byte, end: Byte)
    requires Here(s, i, ItemText(Range(start, end))) && i + 3 < |s| && Bare(end, s[i + 3])
    requires start != ']' && end != ']' && start <= end && (start == '-' ==> done == [])
    ensures ItemsFrom(s, i, done) == ItemsFrom(s, i + 3, done + [Range(start, end)])
  {
    hide ItemsFrom, ClassItem, Here;
    RangeText(s, i, start, end);
    OneReads(s, i);
    PlainStep(s, i, done);
    FinishRange(s, i + 1, done, start, end);
  }

  /** A dash that stands for itself, with the item behind it. */
  lemma DashSteps(s: seq<Byte>, i: nat, done: seq<Item>, y: Item, next: Byte)
    requires i < |s| && s[i] == '-' && done != [] && Here(s, i + 1, ItemText(y) + [next]) && Sound(y, next)
    requires ItemText(y)[0] != ']' && (done[|done| - 1].One? ==> y.Posix?)
    ensures ItemsFrom(s, i, done) == ItemsFrom(s, i + 1 + |ItemText(y)|, done + [One('-'), y])
  {
    hide ItemsFrom, ClassItem, Here;
    HereFirst(s, i + 1, ItemText(y) + [next]);
    if y.Range? {
      HereBoth(s, i + 1, ItemText(y), [next]);
      HereOne(s, i + 4, next);
      RangeText(s, i + 1, y.start, y.end);
      OneReads(s, i + 1);
      DashStep(s, i, done, One(y.start), i + 2);
      FinishRange(s, i + 2, done + [One('-')], y.start, y.end);
      assert done + [One('-'), One(y.start)] == (done + [One('-')]) + [One(y.start)];
      assert done + [One('-'), y] == (done + [One('-')]) + [y];
    } else {
      ItemReads(s, i + 1, y, next);
      DashStep(s, i, done, y, i + 1 + |ItemText(y)|);
    }
  }

  /** An item and the first byte behind it. */
  lemma StandItem(s: seq<Byte>, i: nat, items: seq<Item>, k: nat)
    requires Stand(s, i, items, k) && k < |items|
    ensures i < |s| && s[i] == First(items, k) && First(items, k) == ItemText(items[k])[0]
    ensures i + |ItemText(items[k])| < |s| && s[i + |ItemText(items[k])|] == First(items, k + 1)
    ensures Stand(s, i + |ItemText(items[k])|, items, k + 1)
    ensures Here(s, i, ItemText(items[k]) + [First(items, k + 1)])
  {
    hide Here, ItemsText;
    StandNext(s, i, items, k);
    TextSplits(items, k);
    var j := i + |ItemText(items[k])|;
    StandFirst(s, i, items, k);
    StandFirst(s, j, items, k + 1);
    HereOne(s, j, s[j]);
    HereBoth(s, i, ItemText(items[k]), [s[j]]);
  }

  /** A dash between two items that do not make a range. */
  predicate DashStands(items: seq<Item>, k: nat)
    requires k < |items|
  {
    items[k] == One('-') && 0 < k < |items| - 1
  }

  lemma ReadableHere(items: seq<Item>, k: nat)
    requires k < |items| && !DashStands(items, k) && ReadableFrom(items, k)
    ensures First(items, k) != ']' && Sound(items[k], First(items, k + 1))
    ensures items[k].Range? && items[k].start == '-' ==> k == 0
    ensures items[k] == One('-') && k > 0 ==> First(items, k + 1) == ']'
  {
    hide ItemsText, Sound;
    if k + 1 == |items| { FirstLast(items); }
  }

  lemma ReadOne(s: seq<Byte>, i: nat, items: seq<Item>, k: nat)
    requires Stand(s, i, items, k) && k < |items| && !DashStands(items, k) && ReadableFrom(items, k)
    ensures ItemsFrom(s, i, items[..k]) == ItemsFrom(s, i + |ItemText(items[k])|, items[..k + 1])
  {
    hide Here, Stand, ItemsText, First, ClassItem, ItemsFrom, ReadableFrom, DashStands;
    StandItem(s, i, items, k);
    ReadableHere(items, k);
    var x, j := items[k], i + |ItemText(items[k])|;
    assert items[..k] + [x] == items[..k + 1];
    if x.Range? {
      StandNext(s, i, items, k);
      RangeSteps(s, i, items[..k], x.start, x.end);
    } else {
      ItemReads(s, i, x, s[j]);
      PlainStep(s, i, items[..k]);
    }
  }

  lemma ReadDash(s: seq<Byte>, i: nat, items: seq<Item>, k: nat)
    requires Stand(s, i, items, k) && k < |items| && DashStands(items, k) && ReadableFrom(items, k)
    ensures ItemsFrom(s, i, items[..k]) == ItemsFrom(s, i + 1 + |ItemText(items[k + 1])|, items[..k + 2])
    ensures Stand(s, i + 1 + |ItemText(items[k + 1])|, items, k + 2)
  {
    hide Here, Stand, ItemsText, First, ClassItem, ItemsFrom;
    StandItem(s, i, items, k);
    StandItem(s, i + 1, items, k + 1);
    DashSteps(s, i, items[..k], items[k + 1], s[i + 1 + |ItemText(items[k + 1])|]);
    assert items[..k] + [One('-'), items[k + 1]] == items[..k + 2];
  }

  lemma ReadableNext(items: seq<Item>, k: nat)
    requires k < |items| && ReadableFrom(items, k)
    ensures if DashStands(items, k) then ReadableFrom(items, k + 2) else ReadableFrom(items, k + 1)
  {
    hide ItemsText, First, Sound;
  }

  lemma ReadEnd(s: seq<Byte>, i: nat, items: seq<Item>)
    requires Stand(s, i, items, |items|)
    ensures ItemsFrom(s, i, items) == Ok((items, i + |ItemsText(items, |items|)|))
  {
    hide Here, Stand, ItemsText, First, ClassItem;
    StandFirst(s, i, items, |items|);
    ShortText(items);
    FirstLast(items);
  }

  lemma TextLength(items: seq<Item>, k: nat)
    requires k < |items|
    ensures |ItemsText(items, k)| == |ItemText(items[k])| + |ItemsText(items, k + 1)|
    ensures DashStands(items, k) ==> k + 1 < |items| && |ItemText(items[k])| == 1
  {
    TextSplits(items, k);
  }

  /** The items from k on are read when those before have been. */
  lemma {:induction false} ItemsRead(s: seq<Byte>, i: nat, items: seq<Item>, k: nat)
    requires k <= |items| && Stand(s, i, items, k) && ReadableFrom(items, k)
    ensures ItemsFrom(s, i, items[..k]) == Ok((items, i + |ItemsText(items, k)|))
    decreases |items| - k
  {
    hide Here, Stand, ItemsText, ItemText, First, ClassItem, ReadableFrom, DashStands, ItemsFrom;
    if k == |items| {
      assert items[..k] == items;
      ReadEnd(s, i, items);
    } else {
      ReadableNext(items, k);
      TextLength(items, k);
      if DashStands(items, k) {
        TextLength(items, k + 1);
        ReadDash(s, i, items, k);
        ItemsRead(s, i + 1 + |ItemText(items[k + 1])|, items, k + 2);
      } else {
        StandNext(s, i, items, k);
        ReadOne(s, i, items, k);
        ItemsRead(s, i + |ItemText(items[k])|, items, k + 1);
      }
    }
  }

  lemma FirstLast(items: seq<Item>)
    ensures First(items, |items|) == ']'
  {
  }

  /** Reading from i on leaves what was read before and adds what stands in s. */
  ghost predicate Continues(s: seq<Byte>, i: nat, done: seq<Item>, items: seq<Item>, j: nat) {
    && |done| <= |items| && items[..|done|] == done
    && Stand(s, i, items, |done|) && ReadableFrom(items, |done|) && j == i + |ItemsText(items, |done|)|
  }

  /** Reading from i on turns the last byte read before into a range. */
  ghost predicate Converts(s: seq<Byte>, i: nat, done: seq<Item>, items: seq<Item>, j: nat) {
    var m := |done|;
    && 0 < m <= |items| && items[..m - 1] == done[..m - 1] && done[m - 1].One?
    && items[m - 1].Range? && items[m - 1].start == done[m - 1].byte && Sound(items[m - 1], First(items, m))
    && i + 1 < |s| && s[i] == '-' && s[i + 1] == items[m - 1].end
    && Stand(s, i + 2, items, m) && ReadableFrom(items, m) && j == i + 2 + |ItemsText(items, m)|
  }

  /** What is needed of an item to have been read on its own after done. */
  ghost predicate ReadAlone(s: seq<Byte>, i: nat, done: seq<Item>, x: Item) {
    && i < |s| && s[i] != ']' && !x.Range? && Here(s, i, ItemText(x)) && (x.One? ==> x.byte == s[i])
    && var j := i + |ItemText(x)|;
    && (j < |s| ==> Sound(x, s[j]))
    && (x == One('-') && done != [] ==> j < |s| && s[j] == ']')
  }

  lemma PlainContinues(s: seq<Byte>, i: nat, done: seq<Item>, x: Item, items: seq<Item>, j: nat)
    requires ReadAlone(s, i, done, x) && Continues(s, i + |ItemText(x)|, done + [x], items, j)
    ensures Continues(s, i, done, items, j)
  {
    hide Here, ItemsText, Stand, First, ReadableFrom;
    var m := |done|;
    assert items[m] == items[..m + 1][m] == x;
    assert items[..m] == items[..m + 1][..m] == done;
    StandNext(s, i, items, m);
    StandFirst(s, i, items, m);
    StandFirst(s, i + |ItemText(x)|, items, m + 1);
    TextLength(items, m);
    if x == One('-') && done != [] { ClosedIsLast(items, m + 1); }
    ReadableBefore(items, m);
  }

  /** No item but the first begins with a closing bracket. */
  lemma ClosedIsLast(items: seq<Item>, k: nat)
    requires k <= |items| && ReadableFrom(items, k) && First(items, k) == ']'
    ensures k == |items|
  {
    if k < |items| { TextSplits(items, k); }
  }

  lemma ReadableBefore(items: seq<Item>, k: nat)
    requires k < |items| && !DashStands(items, k) && ReadableFrom(items, k + 1)
    requires First(items, k) != ']' && !(k > 0 && items[k].Range? && items[k].start == '-')
    requires Sound(items[k], First(items, k + 1))
    ensures ReadableFrom(items, k)
  {
    hide ItemsText, First, Sound;
  }

  lemma PlainConverts(s: seq<Byte>, i: nat, done: seq<Item>, x: Item, items: seq<Item>, j: nat)
    requires ReadAlone(s, i, done, x) && Converts(s, i + |ItemText(x)|, done + [x], items, j)
    ensures Continues(s, i, done, items, j)
  {
    hide ItemsText, Stand, First, ReadableFrom;
    var m := |done|;
    assert items[..m] == (done + [x])[..m] == done;
    RangeText(s, i, x.byte, items[m].end) by { StandFirst(s, i + 3, items, m + 1); }
    hide Here;
    StandFirst(s, i + 3, items, m + 1);
    StandNext(s, i, items, m);
    StandFirst(s, i, items, m);
    TextLength(items, m);
    ReadableBefore(items, m);
  }

  lemma RangeConverts(s: seq<Byte>, i: nat, done: seq<Item>, end: Byte, items: seq<Item>, j: nat)
    requires i + 2 < |s| && s[i] == '-' && s[i + 1] == end && end != ']' && Bare(end, s[i + 2])
    requires done != [] && done[|done| - 1].One? && done[|done| - 1].byte <= end
    requires Continues(s, i + 2, done[..|done| - 1] + [Range(done[|done| - 1].byte, end)], items, j)
    ensures Converts(s, i, done, items, j)
  {
    hide Here, ItemsText, Stand, First, ReadableFrom;
    var m := |done|;
    var done' := done[..m - 1] + [Range(done[m - 1].byte, end)];
    assert items[m - 1] == items[..m][m - 1] && items[..m - 1] == items[..m][..m - 1] == done'[..m - 1];
    StandFirst(s, i + 2, items, m);
  }

  lemma ReadableDash(items: seq<Item>, k: nat)
    requires k < |items| && DashStands(items, k) && (items[k - 1].One? ==> items[k + 1].Posix?)
    requires First(items, k + 1) != ']' && Sound(items[k + 1], First(items, k + 2)) && ReadableFrom(items, k + 2)
    ensures ReadableFrom(items, k)
  {
    hide ItemsText, First, Sound;
  }

  lemma DashContinues(s: seq<Byte>, i: nat, done: seq<Item>, y: Item, items: seq<Item>, j: nat)
    requires i < |s| && s[i] == '-' && done != [] && (done[|done| - 1].One? ==> y.Posix?)
    requires ReadAlone(s, i + 1, [], y)
    requires Continues(s, i + 1 + |ItemText(y)|, done + [One('-'), y], items, j)
    ensures Continues(s, i, done, items, j)
  {
    hide ItemsText, Stand, First, ReadableFrom;
    var m := |done|;
    assert items[m] == items[..m + 2][m] == One('-') && items[m + 1] == items[..m + 2][m + 1] == y;
    assert items[..m] == items[..m + 2][..m] == done;
    HereOne(s, i, '-');
    hide Here;
    StandNext(s, i + 1, items, m + 1);
    StandNext(s, i, items, m);
    StandFirst(s, i + 1, items, m + 1);
    StandFirst(s, i + 1 + |ItemText(y)|, items, m + 2);
    TextLength(items, m + 1);
    TextLength(items, m);
    ReadableDash(items, m);
  }

  lemma DashConverts(s: seq<Byte>, i: nat, done: seq<Item>, y: Item, items: seq<Item>, j: nat)
    requires i < |s| && s[i] == '-' && done != [] && (done[|done| - 1].One? ==> y.Posix?)
    requires ReadAlone(s, i + 1, [], y)
    requires Converts(s, i + 1 + |ItemText(y)|, done + [One('-'), y], items, j)
    ensures Continues(s, i, done, items, j)
  {
    hide ItemsText, Stand, First, ReadableFrom;
    var m := |done|;
    var done' := done + [One('-'), y];
    assert items[m] == items[..m + 1][m] == done'[..m + 1][m] == One('-');
    assert items[..m] == items[..m + 1][..m] == done'[..m + 1][..m] == done;
    HereOne(s, i, '-');
    StandFirst(s, i + 4, items, m + 2);
    RangeText(s, i + 1, y.byte, items[m + 1].end);
    hide Here;
    StandNext(s, i + 1, items, m + 1);
    StandNext(s, i, items, m);
    StandFirst(s, i + 1, items, m + 1);
    TextLength(items, m + 1);
    TextLength(items, m);
    ReadableDash(items, m);
  }

  ghost predicate IsRead(s: seq<Byte>, i: nat, done: seq<Item>, items: seq<Item>, j: nat) {
    Continues(s, i, done, items, j) || Converts(s, i, done, items, j)
  }

  lemma PlainCase(s: seq<Byte>, i: nat, done: seq<Item>, x: Item, k: nat, items: seq<Item>, j: nat)
    requires i < |s| && s[i] != ']' && ClassItem(s, i) == Ok((x, k))
    requires x == One('-') && done != [] ==> k < |s| && s[k] == ']'
    requires IsRead(s, k, done + [x], items, j)
    ensures IsRead(s, i, done, items, j)
  {
    hide Continues, Converts, ClassItem, ReadAlone;
    ReadsAlone(s, i, done, x);
    if Continues(s, k, done + [x], items, j) {
      PlainContinues(s, i, done, x, items, j);
    } else {
      PlainConverts(s, i, done, x, items, j);
    }
  }

  lemma RangeCase(s: seq<Byte>, i: nat, done: seq<Item>, end: Byte, k: nat, items: seq<Item>, j: nat)
    requires i + 1 < |s| && s[i] == '-' && s[i + 1] != ']' && ClassItem(s, i + 1) == Ok((One(end), k)) && k < |s|
    requires done != [] && done[|done| - 1].One? && done[|done| - 1].byte <= end
    requires IsRead(s, k, done[..|done| - 1] + [Range(done[|done| - 1].byte, end)], items, j)
    ensures IsRead(s, i, done, items, j)
  {
    hide Continues, Converts, ClassItem;
    ItemIsRead(s, i + 1);
    NotConverted(s, k, done[..|done| - 1] + [Range(done[|done| - 1].byte, end)], items, j);
    RangeConverts(s, i, done, end, items, j);
  }

  lemma DashCase(s: seq<Byte>, i: nat, done: seq<Item>, y: Item, k: nat, items: seq<Item>, j: nat)
    requires i + 1 < |s| && s[i] == '-' && s[i + 1] != ']' && ClassItem(s, i + 1) == Ok((y, k))
    requires done != [] && (done[|done| - 1].One? ==> y.Posix?)
    requires IsRead(s, k, done + [One('-'), y], items, j)
    ensures IsRead(s, i, done, items, j)
  {
    hide Continues, Converts, ClassItem, ReadAlone;
    AloneAgain(s, i + 1, y);
    if Continues(s, k, done + [One('-'), y], items, j) {
      DashContinues(s, i, done, y, items, j);
    } else {
      DashConverts(s, i, done, y, items, j);
    }
  }

  /** Whatever is read stands there in readable form. */
  lemma {:induction false} ItemsAreRead(s: seq<Byte>, i: nat, done: seq<Item>)
    requires i <= |s| && ItemsFrom(s, i, done).Ok?
    ensures IsRead(s, i, done, ItemsFrom(s, i, done).value.0, ItemsFrom(s, i, done).value.1)
    decreases |s| - i
  {
    hide Continues, Converts, ClassItem, ReadAlone, IsRead, Here, ItemText, Sound;
    var (items, j) := ItemsFrom(s, i, done).value;
    if s[i] == ']' {
      NothingMore(s, i, done);
    } else {
      var (x, k) := ClassItem(s, i).value;
      ItemIsRead(s, i);
      if x == One('-') && done != [] && !(k < |s| && s[k] == ']') {
        assert k == i + 1 by { OneIsShort(x); }
        var (y, l) := ClassItem(s, k).value;
        ItemIsRead(s, k);
        if done[|done| - 1].One? && y.One? {
          ItemsAreRead(s, l, done[..|done| - 1] + [Range(done[|done| - 1].byte, y.byte)]);
          RangeCase(s, i, done, y.byte, l, items, j);
        } else {
          ItemsAreRead(s, l, done + [x, y]);
          DashCase(s, i, done, y, l, items, j);
        }
      } else {
        ItemsAreRead(s, k, done + [x]);
        PlainCase(s, i, done, x, k, items, j);
      }
    }
  }

  lemma OneIsShort(x: Item)
    requires x.One?
    ensures |ItemText(x)| == 1
  {
  }

  lemma NothingMore(s: seq<Byte>, i: nat, done: seq<Item>)
    requires i < |s| && s[i] == ']'
    ensures IsRead(s, i, done, done, i + 1)
  {
    ShortText(done);
    HereOne(s, i, ']');
  }

  lemma NotConverted(s: seq<Byte>, i: nat, done: seq<Item>, items: seq<Item>, j: nat)
    requires done != [] && done[|done| - 1].Range?
    ensures !Converts(s, i, done, items, j)
  {
  }

  lemma ReadsAlone(s: seq<Byte>, i: nat, done: seq<Item>, x: Item)
    requires i < |s| && s[i] != ']' && ClassItem(s, i).Ok? && ClassItem(s, i).value.0 == x
    requires x == One('-') && done != [] ==> ClassItem(s, i).value.1 < |s| && s[ClassItem(s, i).value.1] == ']'
    ensures ReadAlone(s, i, done, x) && ClassItem(s, i).value.1 == i + |ItemText(x)|
  {
    hide ClassItem, Here;
    ItemIsRead(s, i);
  }

  lemma AloneAgain(s: seq<Byte>, i: nat, x: Item)
    requires i < |s| && s[i] != ']' && ClassItem(s, i).Ok? && ClassItem(s, i).value.0 == x
    ensures ReadAlone(s, i, [], x) && ClassItem(s, i).value.1 == i + |ItemText(x)|
  {
    hide ClassItem, ReadAlone;
    ReadsAlone(s, i, [], x);
  }

  lemma OpeningReads(s: seq<Byte>, i: nat, items: seq<Item>)
    requires items != [] && First(items, 0) == ']' && Stand(s, i, items, 0)
    requires Sound(items[0], First(items, 1)) && ReadableFrom(items, 1)
    ensures i < |s| && s[i] == ']'
    ensures ItemsFrom(s, i + 1, [One(']')]) == Ok((items, i + |ItemsText(items, 0)|))
  {
    hide Here, Stand, ItemsText, First, ReadableFrom, ItemsFrom;
    StandItem(s, i, items, 0);
    TextLength(items, 0);
    assert items[..1] == [items[0]];
    if items[0].Range? {
      StandNext(s, i, items, 0);
      RangeText(s, i, items[0].start, items[0].end);
      FinishRange(s, i + 1, [], ']', items[0].end);
      assert [] + [One(']')] == [One(']')] && [] + [items[0]] == [items[0]];
      ItemsRead(s, i + 3, items, 1);
    } else {
      StandNext(s, i, items, 0);
      ItemsRead(s, i + 1, items, 1);
    }
  }

  lemma OpeningIsRead(s: seq<Byte>, i: nat, items: seq<Item>, j: nat)
    requires i < |s| && s[i] == ']' && IsRead(s, i + 1, [One(']')], items, j)
    ensures items != [] && First(items, 0) == ']' && Stand(s, i, items, 0) && j == i + |ItemsText(items, 0)|
    ensures Sound(items[0], First(items, 1)) && ReadableFrom(items, 1)
  {
    hide Stand, ItemsText, First, ReadableFrom;
    if Continues(s, i + 1, [One(']')], items, j) {
      assert items[0] == items[..1][0] == One(']');
      HereOne(s, i, ']');
    } else {
      StandFirst(s, i + 3, items, 1);
      RangeText(s, i, ']', items[0].end);
    }
    StandNext(s, i, items, 0);
    StandFirst(s, i, items, 0);
    TextLength(items, 0);
  }

  lemma BracketsSplit(s: seq<Byte>, i: nat, c: Brackets)
    ensures Here(s, i, BracketsText(c))
       <==> if c.negated then i < |s| && s[i] == '^' && Stand(s, i + 1, c.items, 0) else Stand(s, i, c.items, 0)
    ensures |BracketsText(c)| == (if c.negated then 1 else 0) + |ItemsText(c.items, 0)|
  {
    hide Here, ItemsText;
    if c.negated {
      HereBoth(s, i, "^", ItemsText(c.items, 0));
      HereOne(s, i, '^');
    } else {
      assert BracketsText(c) == ItemsText(c.items, 0);
    }
  }

  lemma ClassReads(s: seq<Byte>, i: nat, c: Brackets)
    requires Readable(c) && Here(s, i, BracketsText(c))
    ensures LexClass(s, i) == Ok((c, i + |BracketsText(c)|))
  {
    hide Here, Stand, ItemsText, First, ReadableFrom, ItemsFrom, Sound;
    BracketsSplit(s, i, c);
    var from := if c.negated then i + 1 else i;
    StandFirst(s, from, c.items, 0);
    if First(c.items, 0) == ']' {
      OpeningReads(s, from, c.items);
    } else {
      assert c.items[..0] == [];
      ItemsRead(s, from, c.items, 0);
    }
  }

  lemma ClassIsRead(s: seq<Byte>, i: nat)
    requires i <= |s| && LexClass(s, i).Ok?
    ensures var (c, j) := LexClass(s, i).value; Readable(c) && Here(s, i, BracketsText(c)) && j == i + |BracketsText(c)|
  {
    hide Here, Stand, ItemsText, First, ReadableFrom, ItemsFrom, Sound, IsRead;
    var (c, j) := LexClass(s, i).value;
    var from := if c.negated then i + 1 else i;
    BracketsSplit(s, i, c);
    if s[from] == ']' {
      ItemsAreRead(s, from + 1, [One(']')]);
      OpeningIsRead(s, from, c.items, j);
    } else {
      ItemsAreRead(s, from, []);
      StartIsRead(s, from, c.items, j);
    }
    StandFirst(s, from, c.items, 0);
    FirstLast(c.items);
  }

  lemma StartIsRead(s: seq<Byte>, i: nat, items: seq<Item>, j: nat)
    requires IsRead(s, i, [], items, j)
    ensures Stand(s, i, items, 0) && ReadableFrom(items, 0) && j == i + |ItemsText(items, 0)|
  {
  }

  /** A bracket expression is read at i, up to j, if and only if it can be read at all
      and its text stands there. */
  lemma ClassReadsExactly(s: seq<Byte>, i: nat, c: Brackets, j: nat)
    requires i <= |s|
    ensures LexClass(s, i) == Ok((c, j)) <==> Readable(c) && Here(s, i, BracketsText(c)) && j == i + |BracketsText(c)|
  {
    hide LexClass, Readable, Here, BracketsText;
    if LexClass(s, i).Ok? { ClassIsRead(s, i); }
    if Readable(c) && Here(s, i, BracketsText(c)) { ClassReads(s, i, c); }
  }
}
