/** Which back references of a regular expression the validation accepts. */
module GnuReferences {
  import opened Basics
  import opened GnuRegex

  // ----- Positions in the tree -----

  type Path = seq<nat>

  function Parts(e: Expr): seq<Expr> {
    match e
    case Concat(items) => items
    case Choice(branches) => branches
    case Group(_, inner) => [inner]
    case Repeat(operand, _) => [operand]
    case _ => []
  }

  function At(e: Expr, p: Path): Option<Expr>
    decreases |p|
  {
    if p == [] then Some(e)
    else if p[0] < |Parts(e)| then At(Parts(e)[p[0]], p[1..])
    else None
  }

  /** The number of the group that stands at g. */
  function GroupAt(e: Expr, g: Path): Option<nat> {
    match At(e, g)
    case Some(Group(k, _)) => Some(k)
    case _ => None
  }

  /** The number that the back reference at r refers to. */
  function ReferenceAt(e: Expr, r: Path): Option<nat> {
    match At(e, r)
    case Some(Leaf(Backreference(k))) => Some(k)
    case _ => None
  }

  predicate BadBoundAt(e: Expr, p: Path) {
    match At(e, p)
    case Some(Repeat(_, Bounded(min, Some(max)))) => min > max
    case _ => false
  }

  /** The part at g is over before the part at r begins, and lies on every way to
      it: where the two ways part they are members of one sequence, not branches of
      one alternation. */
  ghost predicate ClosedBefore(e: Expr, g: Path, r: Path)
    decreases |g|
  {
    && g != [] && r != [] && g[0] < |Parts(e)| && r[0] < |Parts(e)|
    && if g[0] == r[0] then ClosedBefore(Parts(e)[g[0]], g[1..], r[1..]) else e.Concat? && g[0] < r[0]
  }

  ghost predicate HasGroup(e: Expr, k: nat) {
    exists g :: GroupAt(e, g).Some? && k <= GroupAt(e, g).value
  }

  /** Some group with number k or higher is closed on the way to r; closed counts
      as the highest number closed before e. */
  ghost predicate Usable(e: Expr, closed: nat, r: Path, k: nat) {
    k <= closed || exists g :: GroupAt(e, g).Some? && k <= GroupAt(e, g).value && ClosedBefore(e, g, r)
  }

  ghost predicate ReferenceOk(e: Expr, closed: nat, r: Path) {
    ReferenceAt(e, r).Some? ==> 1 <= ReferenceAt(e, r).value && Usable(e, closed, r, ReferenceAt(e, r).value)
  }

  ghost predicate ReferencesOk(e: Expr, closed: nat) {
    forall r :: ReferenceOk(e, closed, r)
  }

  ghost predicate BoundsOk(e: Expr) {
    forall p :: !BadBoundAt(e, p)
  }

  // ----- From a tree to its parts -----

  lemma Down(e: Expr, i: nat, p: Path)
    requires i < |Parts(e)|
    ensures At(e, [i] + p) == At(Parts(e)[i], p)
  {
    assert ([i] + p)[1..] == p;
  }

  lemma DownBoth(e: Expr, i: nat, g: Path, r: Path)
    requires i < |Parts(e)|
    ensures ClosedBefore(e, [i] + g, [i] + r) == ClosedBefore(Parts(e)[i], g, r)
  {
    assert ([i] + g)[1..] == g && ([i] + r)[1..] == r;
  }

  lemma Split(p: Path)
    requires p != []
    ensures p == [p[0]] + p[1..]
  {
  }

  lemma Outside(e: Expr, p: Path)
    requires p != [] && p[0] >= |Parts(e)|
    ensures At(e, p).None?
  {
  }

  /** What holds of part number i of e, seen from e. */
  ghost predicate PartOk(e: Expr, closed: nat, i: nat) {
    forall r: Path :: ReferenceOk(e, closed, [i] + r)
  }

  /** The first n parts of e contain a group with number k or higher. */
  ghost predicate EarlierGroup(e: Expr, n: nat, k: nat)
    requires n <= |Parts(e)|
  {
    exists j :: 0 <= j < n && HasGroup(Parts(e)[j], k)
  }

  /** c is the highest number closed before part number i of e. */
  ghost predicate ClosedUpTo(e: Expr, closed: nat, i: nat, c: nat)
    requires i < |Parts(e)|
  {
    forall k: nat :: k <= c <==> k <= closed || (e.Concat? && EarlierGroup(e, i, k))
  }

  lemma UsableFromPart(e: Expr, closed: nat, i: nat, c: nat, r: Path, k: nat)
    requires i < |Parts(e)| && ClosedUpTo(e, closed, i, c)
    requires Usable(Parts(e)[i], c, r, k)
    ensures Usable(e, closed, [i] + r, k)
  {
    hide At, HasGroup, Parts, ClosedUpTo;
    UpTo(e, closed, i, c, k);
    if k <= c {
      if k > closed {
        var j :| 0 <= j < i && HasGroup(Parts(e)[j], k);
        var g := GroupWitness(Parts(e)[j], k);
        Down(e, j, g);
        assert ([j] + g)[0] == j && ([i] + r)[0] == i;
        assert GroupAt(e, [j] + g).Some? && ClosedBefore(e, [j] + g, [i] + r);
      }
    } else {
      var g :| GroupAt(Parts(e)[i], g).Some? && k <= GroupAt(Parts(e)[i], g).value && ClosedBefore(Parts(e)[i], g, r);
      Down(e, i, g);
      DownBoth(e, i, g, r);
      assert GroupAt(e, [i] + g).Some?;
    }
  }

  lemma GroupWitness(e: Expr, k: nat) returns (g: Path)
    requires HasGroup(e, k)
    ensures GroupAt(e, g).Some? && k <= GroupAt(e, g).value
  {
    g :| GroupAt(e, g).Some? && k <= GroupAt(e, g).value;
  }

  lemma UsableInPart(e: Expr, closed: nat, i: nat, c: nat, r: Path, k: nat)
    requires i < |Parts(e)| && ClosedUpTo(e, closed, i, c)
    requires Usable(e, closed, [i] + r, k)
    ensures Usable(Parts(e)[i], c, r, k)
  {
    hide At, Parts, ClosedUpTo;
    UpTo(e, closed, i, c, k);
    if k > closed {
      var g :| GroupAt(e, g).Some? && k <= GroupAt(e, g).value && ClosedBefore(e, g, [i] + r);
      Split(g);
      Down(e, g[0], g[1..]);
      if g[0] == i {
        DownBoth(e, i, g[1..], r);
        assert GroupAt(Parts(e)[i], g[1..]).Some?;
      } else {
        assert GroupAt(Parts(e)[g[0]], g[1..]).Some?;
        assert HasGroup(Parts(e)[g[0]], k);
        assert EarlierGroup(e, i, k);
      }
    }
  }

  lemma PartIs(e: Expr, closed: nat, i: nat, c: nat)
    requires i < |Parts(e)| && ClosedUpTo(e, closed, i, c)
    ensures PartOk(e, closed, i) <==> ReferencesOk(Parts(e)[i], c)
  {
    hide At, Usable, ClosedUpTo, Parts;
    forall r: Path ensures ReferenceOk(e, closed, [i] + r) <==> ReferenceOk(Parts(e)[i], c, r) {
      Down(e, i, r);
      assert ReferenceAt(e, [i] + r) == ReferenceAt(Parts(e)[i], r);
      if ReferenceAt(e, [i] + r).Some? {
        var k := ReferenceAt(e, [i] + r).value;
        if Usable(e, closed, [i] + r, k) { UsableInPart(e, closed, i, c, r, k); }
        if Usable(Parts(e)[i], c, r, k) { UsableFromPart(e, closed, i, c, r, k); }
      }
    }
    hide ReferenceOk;
    if PartOk(e, closed, i) {
      forall r: Path ensures ReferenceOk(Parts(e)[i], c, r) { assert ReferenceOk(e, closed, [i] + r); }
    }
  }

  lemma ReferencesOfParts(e: Expr, closed: nat)
    requires !e.Leaf?
    ensures ReferencesOk(e, closed) <==> forall i :: 0 <= i < |Parts(e)| ==> PartOk(e, closed, i)
  {
    hide Usable, Parts;
    if forall i :: 0 <= i < |Parts(e)| ==> PartOk(e, closed, i) {
      forall r ensures ReferenceOk(e, closed, r) {
        if r != [] {
          if r[0] < |Parts(e)| {
            assert PartOk(e, closed, r[0]);
            Split(r);
          } else {
            Outside(e, r);
          }
        }
      }
    }
  }

  lemma BoundsOfParts(e: Expr)
    ensures BoundsOk(e) <==> !BadBoundAt(e, []) && forall i :: 0 <= i < |Parts(e)| ==> BoundsOk(Parts(e)[i])
  {
    hide Parts, At;
    if BoundsOk(e) {
      forall i, p: Path | 0 <= i < |Parts(e)| ensures !BadBoundAt(Parts(e)[i], p) {
        Down(e, i, p);
        assert !BadBoundAt(e, [i] + p);
      }
    } else if !BadBoundAt(e, []) {
      var p :| BadBoundAt(e, p);
      if p[0] < |Parts(e)| {
        Split(p);
        Down(e, p[0], p[1..]);
        assert BadBoundAt(Parts(e)[p[0]], p[1..]);
      } else {
        Outside(e, p);
      }
    }
  }

  lemma GroupsOfParts(e: Expr, k: nat)
    ensures HasGroup(e, k) <==> (e.Group? && k <= e.captureIndex) || EarlierGroup(e, |Parts(e)|, k)
  {
    hide Parts;
    if HasGroup(e, k) {
      var g := GroupWitness(e, k);
      if g != [] {
        if g[0] >= |Parts(e)| { Outside(e, g); }
        Split(g);
        Down(e, g[0], g[1..]);
        assert GroupAt(Parts(e)[g[0]], g[1..]).Some?;
      }
    }
    if e.Group? && k <= e.captureIndex { assert GroupAt(e, []).Some?; }
    if EarlierGroup(e, |Parts(e)|, k) {
      var j :| 0 <= j < |Parts(e)| && HasGroup(Parts(e)[j], k);
      var g := GroupWitness(Parts(e)[j], k);
      Down(e, j, g);
      assert GroupAt(e, [j] + g).Some?;
    }
  }

  // ----- The walk decides it -----

  /** The outcome r of walking something that has the given references, bounds and
      groups. */
  ghost predicate Decides(r: Result<nat, RegexError>, references: bool, bounds: bool) {
    match r
    case Ok(_) => references && bounds
    case Err(error) => (error == BadBackreference && !references) || (error == BadBound && !bounds)
  }

  /** v is the highest number closed behind e. */
  ghost predicate HighestIs(e: Expr, closed: nat, v: nat) {
    forall k: nat :: k <= v <==> k <= closed || HasGroup(e, k)
  }

  ghost predicate Walked(e: Expr, closed: nat, r: Result<nat, RegexError>) {
    && Decides(r, ReferencesOk(e, closed), BoundsOk(e))
    && (r.Ok? ==> HighestIs(e, closed, r.value))
  }

  /** v is the highest number closed behind the first n parts of e. */
  ghost predicate TopIs(e: Expr, n: nat, closed: nat, v: nat)
    requires n <= |Parts(e)|
  {
    forall k: nat :: k <= v <==> k <= closed || EarlierGroup(e, n, k)
  }

  /** The same for the first n parts of e. */
  ghost predicate WalkedParts(e: Expr, n: nat, closed: nat, r: Result<nat, RegexError>)
    requires n <= |Parts(e)|
  {
    && Decides(r, forall i :: 0 <= i < n ==> PartOk(e, closed, i), forall i :: 0 <= i < n ==> BoundsOk(Parts(e)[i]))
    && (r.Ok? ==> TopIs(e, n, closed, r.value))
  }

  lemma NoneWalked(e: Expr, closed: nat)
    ensures WalkedParts(e, 0, closed, Ok(closed))
  {
  }

  /** One part more: r for those before it, s for the part itself and, if it is
      reached, t for all of them. */
  lemma OneMoreWalked(e: Expr, n: nat, closed: nat, c: nat, r: Result<nat, RegexError>, s: Result<nat, RegexError>, t: Result<nat, RegexError>)
    requires n < |Parts(e)| && WalkedParts(e, n, closed, r)
    requires r.Err? ==> t == r
    requires r.Ok? ==> ClosedUpTo(e, closed, n, c) && Walked(Parts(e)[n], c, s)
    requires r.Ok? && s.Err? ==> t == s
    requires r.Ok? && s.Ok? ==> t == Ok(if r.value > s.value then r.value else s.value)
    ensures WalkedParts(e, n + 1, closed, t)
  {
    hide Parts, PartOk, BoundsOk, ReferencesOk, HasGroup, ClosedUpTo, TopIs;
    if r.Ok? {
      PartIs(e, closed, n, c);
      if s.Ok? { OneMoreTop(e, n, closed, c, r.value, s.value); }
    }
  }

  lemma OneMoreTop(e: Expr, n: nat, closed: nat, c: nat, v: nat, u: nat)
    requires n < |Parts(e)| && TopIs(e, n, closed, v) && ClosedUpTo(e, closed, n, c)
    requires HighestIs(Parts(e)[n], c, u)
    ensures TopIs(e, n + 1, closed, if v > u then v else u)
  {
    hide HasGroup, ClosedUpTo, EarlierGroup, TopIs;
    var m, part, top := n + 1, Parts(e)[n], if v > u then v else u;
    forall k: nat ensures k <= top <==> k <= closed || EarlierGroup(e, m, k) {
      OneMoreGroup(e, n, k);
      UpTo(e, closed, n, c, k);
      TopAt(e, n, closed, v, k);
      var here := HasGroup(part, k);
    }
    MakeTop(e, m, closed, top);
  }

  lemma TopAt(e: Expr, n: nat, closed: nat, v: nat, k: nat)
    requires n <= |Parts(e)| && TopIs(e, n, closed, v)
    ensures k <= v <==> k <= closed || EarlierGroup(e, n, k)
  {
    hide EarlierGroup;
    var earlier := EarlierGroup(e, n, k);
  }

  lemma MakeTop(e: Expr, n: nat, closed: nat, v: nat)
    requires n <= |Parts(e)| && forall k: nat :: k <= v <==> k <= closed || EarlierGroup(e, n, k)
    ensures TopIs(e, n, closed, v)
  {
    hide EarlierGroup;
  }

  lemma UpTo(e: Expr, closed: nat, i: nat, c: nat, k: nat)
    requires i < |Parts(e)| && ClosedUpTo(e, closed, i, c)
    ensures k <= c <==> k <= closed || (e.Concat? && EarlierGroup(e, i, k))
  {
    hide EarlierGroup;
    var earlier := EarlierGroup(e, i, k);
  }

  lemma OneMoreGroup(e: Expr, n: nat, k: nat)
    requires n < |Parts(e)|
    ensures EarlierGroup(e, n + 1, k) <==> EarlierGroup(e, n, k) || HasGroup(Parts(e)[n], k)
  {
    hide HasGroup, Parts;
  }

  lemma {:induction false} WalkAllDecides(items: seq<Expr>, n: nat, closed: nat)
    requires n <= |items|
    ensures WalkedParts(Concat(items), n, closed, WalkAll(items[..n], closed))
    decreases SizeOf(items[..n]), 1
  {
    var e := Concat(items);
    hide WalkedParts, Walked, Walk, WalkAll;
    if n == 0 {
      WalkAllEmpty(closed);
      NoneWalked(e, closed);
    } else {
      Last(items, n);
      WalkAllLast(items, n, closed);
      WalkAllDecides(items, n - 1, closed);
      var r := WalkAll(items[..n - 1], closed);
      if r.Ok? {
        WalkDecides(items[n - 1], r.value);
        var s := Walk(items[n - 1], r.value);
        ConcatCloses(items, n - 1, closed, r.value);
        if s.Ok? { WalkGrows(items[n - 1], r.value, s); }
        OneMoreWalked(e, n - 1, closed, r.value, r, s, s);
      } else {
        OneMoreWalked(e, n - 1, closed, 0, r, r, r);
      }
    }
  }

  lemma WalkGrows(e: Expr, closed: nat, r: Result<nat, RegexError>)
    requires Walked(e, closed, r) && r.Ok?
    ensures closed <= r.value
  {
    hide HasGroup;
    var found := HasGroup(e, closed);
  }

  lemma ConcatCloses(items: seq<Expr>, n: nat, closed: nat, c: nat)
    requires n < |items| && WalkedParts(Concat(items), n, closed, Ok(c))
    ensures ClosedUpTo(Concat(items), closed, n, c)
  {
    hide EarlierGroup;
  }

  lemma ChoiceCloses(branches: seq<Expr>, n: nat, closed: nat)
    requires n < |branches|
    ensures ClosedUpTo(Choice(branches), closed, n, closed)
  {
    hide EarlierGroup;
  }

  lemma Last(items: seq<Expr>, n: nat)
    requires 0 < n <= |items|
    ensures SizeOf(items[..n]) == SizeOf(items[..n - 1]) + Size(items[n - 1]) > SizeOf(items[..n - 1])
  {
    assert items[..n][..n - 1] == items[..n - 1];
  }

  lemma WalkAllEmpty(closed: nat)
    ensures WalkAll([], closed) == Ok(closed) && WalkBranches([], closed) == Ok(closed)
  {
  }

  lemma WalkAllLast(items: seq<Expr>, n: nat, closed: nat)
    requires 0 < n <= |items|
    ensures var r := WalkAll(items[..n - 1], closed);
      WalkAll(items[..n], closed) == if r.Err? then r else Walk(items[n - 1], r.value)
  {
    assert items[..n][..n - 1] == items[..n - 1];
  }

  lemma WalkBranchesLast(branches: seq<Expr>, n: nat, closed: nat)
    requires 0 < n <= |branches|
    ensures var r, s := WalkBranches(branches[..n - 1], closed), Walk(branches[n - 1], closed);
      WalkBranches(branches[..n], closed)
      == if r.Err? then r else if s.Err? then s else Ok(if r.value > s.value then r.value else s.value)
  {
    assert branches[..n][..n - 1] == branches[..n - 1];
  }

  lemma {:induction false} WalkBranchesDecides(branches: seq<Expr>, n: nat, closed: nat)
    requires n <= |branches|
    ensures WalkedParts(Choice(branches), n, closed, WalkBranches(branches[..n], closed))
    decreases SizeOf(branches[..n]), 1
  {
    var e := Choice(branches);
    hide WalkedParts, Walked, Walk, WalkBranches;
    if n == 0 {
      WalkAllEmpty(closed);
      NoneWalked(e, closed);
    } else {
      Last(branches, n);
      WalkBranchesLast(branches, n, closed);
      WalkBranchesDecides(branches, n - 1, closed);
      WalkDecides(branches[n - 1], closed);
      ChoiceCloses(branches, n - 1, closed);
      OneMoreWalked(e, n - 1, closed, closed, WalkBranches(branches[..n - 1], closed), Walk(branches[n - 1], closed),
                    WalkBranches(branches[..n], closed));
    }
  }

  /** From all parts to the whole, where the whole adds no reference, no bound and
      no group. */
  lemma AllWalked(e: Expr, closed: nat, r: Result<nat, RegexError>)
    requires (e.Concat? || e.Choice?) && WalkedParts(e, |Parts(e)|, closed, r)
    ensures Walked(e, closed, r)
  {
    hide Parts, PartOk, BoundsOk, ReferencesOk, HasGroup, EarlierGroup;
    ReferencesOfParts(e, closed);
    BoundsOfParts(e);
    forall k: nat ensures HasGroup(e, k) <==> EarlierGroup(e, |Parts(e)|, k) { GroupsOfParts(e, k); }
  }

  lemma OnlyPart(e: Expr, inner: Expr, closed: nat)
    requires Parts(e) == [inner] && !e.Concat?
    ensures ReferencesOk(e, closed) <==> ReferencesOk(inner, closed)
    ensures BoundsOk(e) <==> !BadBoundAt(e, []) && BoundsOk(inner)
    ensures forall k: nat :: HasGroup(e, k) <==> (e.Group? && k <= e.captureIndex) || HasGroup(inner, k)
  {
    hide PartOk, BoundsOk, ReferencesOk, HasGroup;
    assert ClosedUpTo(e, closed, 0, closed);
    PartIs(e, closed, 0, closed);
    ReferencesOfParts(e, closed);
    BoundsOfParts(e);
    assert Parts(e)[0] == inner;
    forall k: nat ensures HasGroup(e, k) <==> (e.Group? && k <= e.captureIndex) || HasGroup(inner, k) {
      GroupsOfParts(e, k);
      assert EarlierGroup(e, 1, k) <==> HasGroup(inner, k);
    }
  }

  lemma LeafWalked(e: Expr, closed: nat)
    requires e.Leaf? || e.Empty?
    ensures Walked(e, closed, Walk(e, closed))
  {
    BoundsOfParts(e);
    forall k: nat ensures !HasGroup(e, k) {
      GroupsOfParts(e, k);
    }
    forall r ensures r != [] ==> ReferenceOk(e, closed, r) {
      if r != [] { Outside(e, r); }
    }
    var nowhere: Path := [];
    assert forall g :: !ClosedBefore(e, g, nowhere);
    assert ReferencesOk(e, closed) <==> ReferenceOk(e, closed, nowhere);
  }

  lemma {:induction false} WalkDecides(e: Expr, closed: nat)
    ensures Walked(e, closed, Walk(e, closed))
    decreases Size(e), 0
  {
    hide ReferencesOk, BoundsOk, HasGroup, WalkedParts;
    match e
    case Concat(items) =>
      hide Walked;
      assert items[..|items|] == items;
      WalkAllDecides(items, |items|, closed);
      AllWalked(e, closed, Walk(e, closed));
    case Choice(branches) =>
      hide Walked;
      assert branches[..|branches|] == branches;
      WalkBranchesDecides(branches, |branches|, closed);
      AllWalked(e, closed, Walk(e, closed));
    case Group(k, inner) =>
      WalkDecides(inner, closed);
      OnlyPart(e, inner, closed);
    case Repeat(operand, _) =>
      WalkDecides(operand, closed);
      OnlyPart(e, operand, closed);
    case _ =>
      hide Walked;
      LeafWalked(e, closed);
  }

  /** Validation accepts a tree if and only if its bounds are in order and every
      back reference is at least 1 and at most the highest number of a group that is
      closed before it along its own way.  The error it reports is there. */
  lemma ValidationIsExact(e: Expr)
    ensures Validate(e).None? <==>
      && (forall p :: !BadBoundAt(e, p))
      && forall r :: ReferenceAt(e, r).Some? ==>
           && 1 <= ReferenceAt(e, r).value
           && exists g :: GroupAt(e, g).Some? && ReferenceAt(e, r).value <= GroupAt(e, g).value && ClosedBefore(e, g, r)
    ensures Validate(e) == Some(BadBackreference) ==> exists r :: !ReferenceOk(e, 0, r)
    ensures Validate(e) == Some(BadBound) ==> exists p :: BadBoundAt(e, p)
    ensures Validate(e).Some? ==> Validate(e).value in {BadBackreference, BadBound}
  {
    hide Walk, At, ClosedBefore, HasGroup;
    WalkDecides(e, 0);
    forall r ensures ReferenceOk(e, 0, r) <==>
      (ReferenceAt(e, r).Some? ==>
           && 1 <= ReferenceAt(e, r).value
           && exists g :: GroupAt(e, g).Some? && ReferenceAt(e, r).value <= GroupAt(e, g).value && ClosedBefore(e, g, r)) {
    }
  }

  // ----- Witnesses -----

  /** What the condition comes to: in ((a)\1) the reference is accepted though its
      group is still open, in (a\1) it is refused; in (a)|\1 it is refused though
      its group is to the left, in (a)|(b)\1 it is accepted although its group
      belongs to an earlier branch. */
  lemma OpenGroupsAndEarlierBranches()
    ensures var a, back := Leaf(Literal('a')), Leaf(Backreference(1));
      && Validate(Group(1, Concat([Group(2, a), back]))).None?
      && Validate(Group(1, Concat([a, back]))) == Some(BadBackreference)
      && Validate(Choice([Group(1, a), back])) == Some(BadBackreference)
      && Validate(Choice([Group(1, a), Concat([Group(2, a), back])])).None?
  {
    var a, back := Leaf(Literal('a')), Leaf(Backreference(1));
    assert Walk(Group(2, a), 0) == Ok(2);
    TwoItems(Group(2, a), back, 0);
    TwoItems(a, back, 0);
    TwoBranches(Group(1, a), back, 0);
    TwoBranches(Group(1, a), Concat([Group(2, a), back]), 0);
  }

  lemma TwoItems(x: Expr, y: Expr, closed: nat)
    ensures var r := Walk(x, closed);
      Walk(Concat([x, y]), closed) == if r.Err? then r else Walk(y, r.value)
  {
    var items := [x, y];
    assert items[..2] == items && items[..0] == [];
    WalkAllEmpty(closed);
    WalkAllLast(items, 1, closed);
    WalkAllLast(items, 2, closed);
  }

  lemma TwoBranches(x: Expr, y: Expr, closed: nat)
    ensures var r, s := Walk(x, closed), Walk(y, closed);
      Walk(Choice([x, y]), closed) == if r.Err? then r else if s.Err? then s else Ok(if r.value > s.value then r.value else s.value)
  {
    var branches := [x, y];
    assert branches[..2] == branches && branches[..0] == [];
    WalkAllEmpty(closed);
    WalkBranchesLast(branches, 1, closed);
    WalkBranchesLast(branches, 2, closed);
    if Walk(x, closed).Ok? && Walk(y, closed).Ok? { WalkDecides(x, closed); WalkGrows(x, closed, Walk(x, closed)); }
  }
}
