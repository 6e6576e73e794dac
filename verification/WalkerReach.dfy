/** What the ordered walk hands out and where it goes, told by the answers of the
    backend alone. */
module WalkerReach {
  import opened Basics
  import opened Places
  import opened Walker
  import opened WalkerLaws

  // ----- The answers -----

  function At(p: Pending): Entry {
    Entry(p.path, p.depth, p.isRoot, p.rootPath, p.hint)
  }

  /** Loading the entry, deciding about it and reading its identity all succeed. */
  predicate Known(b: Backend, p: Pending) {
    && (p.isRoot ==> b.physicalKind(p.path).None?)
    && b.control(At(p)).Ok? && b.identity(At(p)).Ok?
  }

  /** The first of the three questions that fails. */
  function Trouble(b: Backend, p: Pending): Diagnostic
    requires !Known(b, p)
  {
    if p.isRoot && b.physicalKind(p.path).Some? then b.physicalKind(p.path).value
    else if b.control(At(p)).Err? then b.control(At(p)).error
    else b.identity(At(p)).error
  }

  predicate IsDirectory(b: Backend, p: Pending) {
    Known(b, p) && b.identity(At(p)).value.Some?
  }

  function Id(b: Backend, p: Pending): FileId
    requires IsDirectory(b, p)
  {
    b.identity(At(p)).value.value
  }

  /** A directory above the maximum depth that is not pruned. */
  predicate Wanted(b: Backend, o: Options, p: Pending) {
    && IsDirectory(b, p)
    && !b.control(At(p)).value.prune
    && (o.maxDepth == None || p.depth + 1 <= o.maxDepth.value)
  }

  predicate Loops(b: Backend, o: Options, p: Pending) {
    Wanted(b, o, p) && Id(b, p) in p.ancestry
  }

  predicate Opens(b: Backend, o: Options, p: Pending) {
    && Wanted(b, o, p)
    && Id(b, p) !in p.ancestry
    && (o.sameFileSystem ==> p.rootDevice in {None, Some(Id(b, p).dev)})
  }

  /** The device of the start path, which is the directory's own if it is one. */
  function Device(b: Backend, p: Pending): nat
    requires IsDirectory(b, p)
  {
    if p.rootDevice.Some? then p.rootDevice.value else Id(b, p).dev
  }

  function Below(b: Backend, p: Pending, c: Child): Pending
    requires IsDirectory(b, p)
  {
    Pending(c.path, p.rootPath, p.depth + 1, false, c.hint, p.ancestry + [Id(b, p)], Some(Device(b, p)))
  }

  // ----- One entry -----

  ghost function TraverseEach(b: Backend, o: Options, ids: set<FileId>, ps: seq<Pending>): seq<Happening>
    requires Finite(b, ids)
  {
    if ps == [] then [] else Traverse(b, o, ids, ps[0]) + TraverseEach(b, o, ids, ps[1..])
  }

  ghost predicate Around(o: Options, hs: seq<Happening>, e: Entry, inside: seq<Happening>) {
    hs == if o.order.PreOrder? then [Visited(e)] + inside else inside + [Done(e)]
  }

  function BelowAll(b: Backend, p: Pending, cs: seq<Child>): (ps: seq<Pending>)
    requires IsDirectory(b, p)
    ensures |ps| == |cs|
  {
    seq(|cs|, (k: nat) requires k < |cs| => Below(b, p, cs[k]))
  }

  lemma Looking(b: Backend, o: Options, p: Pending)
    ensures Known(b, p) <==> Looked(b, o, p).Seen?
    ensures !Known(b, p) ==> Looked(b, o, p) == Unseen(Trouble(b, p))
    ensures Known(b, p) ==> Looked(b, o, p).entry == At(p) && (Looked(b, o, p).isDirectory <==> IsDirectory(b, p))
    ensures Loops(b, o, p) ==> Looked(b, o, p).descent == Err(p.path + ": filesystem loop detected")
    ensures Opens(b, o, p) ==> Looked(b, o, p).descent == Ok(Some(Descent(p.ancestry + [Id(b, p)], Some(Device(b, p)))))
    ensures Known(b, p) && !Loops(b, o, p) && !Opens(b, o, p) ==> Looked(b, o, p).descent == Ok(None)
  {
  }

  lemma {:induction false} EachIsAll(b: Backend, o: Options, ids: set<FileId>, p: Pending, d: Descent, cs: seq<Child>)
    requires Finite(b, ids) && Opens(b, o, p) && Looked(b, o, p).Seen? && Looked(b, o, p).descent == Ok(Some(d))
    ensures TraverseAll(b, o, ids, p, d, cs) == TraverseEach(b, o, ids, BelowAll(b, p, cs))
  {
    hide Traverse;
    Looking(b, o, p);
    if cs != [] {
      EachIsAll(b, o, ids, p, d, cs[1..]);
      assert BelowAll(b, p, cs)[1..] == BelowAll(b, p, cs[1..]);
      assert BelowAll(b, p, cs)[0] == ChildPending(p, cs[0], d.ancestry, d.device);
    }
  }

  lemma {:induction false} ErrorsInOrder(ds: seq<Diagnostic>)
    ensures Errors(ds) == seq(|ds|, (k: nat) requires k < |ds| => Error(ds[k]))
  {
    if ds != [] { ErrorsInOrder(ds[1..]); }
  }

  /** Visiting a path, case by case. */
  lemma VisitIsDecided(b: Backend, o: Options, ids: set<FileId>, p: Pending)
    requires Finite(b, ids)
    ensures var hs := Traverse(b, o, ids, p);
      && (!Known(b, p) ==> hs == [Error(Trouble(b, p))])
      && (Known(b, p) && !IsDirectory(b, p) ==> hs == [Visited(At(p))])
      && (Loops(b, o, p) ==>
          hs == (if o.order.PreOrder? then [Visited(At(p))] else []) + [Error(p.path + ": filesystem loop detected")])
      && (IsDirectory(b, p) && !Loops(b, o, p) && !Opens(b, o, p) ==> Around(o, hs, At(p), []))
      && (Opens(b, o, p) && b.children(p.path).Err? ==> Around(o, hs, At(p), [Error(b.children(p.path).error)]))
      && (Opens(b, o, p) && b.children(p.path).Ok? ==>
          var listing := b.children(p.path).value;
          Around(o, hs, At(p), seq(|listing.errors|, (k: nat) requires k < |listing.errors| => Error(listing.errors[k]))
                               + TraverseEach(b, o, ids, BelowAll(b, p, listing.children))))
  {
    hide TraverseEach, TraverseAll, Errors, Looked, ShouldDescendDirectory, BelowAll;
    Looking(b, o, p);
    if Opens(b, o, p) && b.children(p.path).Ok? {
      EachIsAll(b, o, ids, p, Looked(b, o, p).descent.value.value, b.children(p.path).value.children);
      ErrorsInOrder(b.children(p.path).value.errors);
    }
  }

  // ----- All entries -----

  /** The walk visits the k-th child of a path if and only if it opens the path and
      the backend lists a k-th child: so nothing below a pruned entry, and every child
      of a directory above the maximum depth that is not pruned, on the right device and
      not among its own ancestors. */
  lemma ChildrenAreVisited(b: Backend, o: Options, starts: seq<string>, a: Place, k: nat)
    requires |a| > 0
    ensures var up := PendingAt(b, o, starts, a);
      PendingAt(b, o, starts, a + [k])
      == if up.Some? && Opens(b, o, up.value) && b.children(up.value.path).Ok? && k < |b.children(up.value.path).value.children|
         then Some(Below(b, up.value, b.children(up.value.path).value.children[k])) else None
  {
    hide Looked, Opens, Below, Known;
    assert (a + [k])[..|a|] == a;
    if PendingAt(b, o, starts, a).Some? { BranchesAre(b, o, PendingAt(b, o, starts, a).value); }
  }

  lemma BranchesAre(b: Backend, o: Options, p: Pending)
    ensures Branches(b, o, p)
         == if Opens(b, o, p) && b.children(p.path).Ok? then BelowAll(b, p, b.children(p.path).value.children) else []
  {
    hide Looked;
    Looking(b, o, p);
  }

  /** Visiting a path comes as one piece of the walk. */
  ghost predicate PartOf<T>(piece: seq<T>, whole: seq<T>) {
    exists i, j :: 0 <= i <= j <= |whole| && whole[i..j] == piece
  }

  lemma PartGrows<T>(piece: seq<T>, before: seq<T>, whole: seq<T>, after: seq<T>)
    requires PartOf(piece, whole)
    ensures PartOf(piece, before + whole + after)
  {
    var i, j :| 0 <= i <= j <= |whole| && whole[i..j] == piece;
    assert (before + whole + after)[|before| + i..|before| + j] == piece;
  }

  lemma PartOfPart<T>(piece: seq<T>, mid: seq<T>, whole: seq<T>)
    requires PartOf(piece, mid) && PartOf(mid, whole)
    ensures PartOf(piece, whole)
  {
    var i, j :| 0 <= i <= j <= |whole| && whole[i..j] == mid;
    assert whole == whole[..i] + mid + whole[j..];
    PartGrows(piece, whole[..i], mid, whole[j..]);
  }

  lemma Whole<T>(piece: seq<T>)
    ensures PartOf(piece, piece)
  {
    assert piece[0..|piece|] == piece;
  }

  lemma {:induction false} EachIsPart(b: Backend, o: Options, ids: set<FileId>, ps: seq<Pending>, k: nat)
    requires Finite(b, ids) && k < |ps|
    ensures PartOf(Traverse(b, o, ids, ps[k]), TraverseEach(b, o, ids, ps))
  {
    hide Traverse, PartOf;
    var first, rest := Traverse(b, o, ids, ps[0]), TraverseEach(b, o, ids, ps[1..]);
    if k == 0 {
      Whole(first);
      PartGrows(first, [], first, rest);
      assert [] + first + rest == first + rest;
    } else {
      EachIsPart(b, o, ids, ps[1..], k - 1);
      PartGrows(Traverse(b, o, ids, ps[k]), first, rest, []);
      assert first + rest + [] == first + rest;
    }
  }

  lemma {:induction false} StartIsPart(b: Backend, o: Options, ids: set<FileId>, starts: seq<string>, k: nat)
    requires Finite(b, ids) && k < |starts|
    ensures PartOf(Traverse(b, o, ids, StartPending(starts[k])), TraverseStarts(b, o, ids, starts))
  {
    hide Traverse, PartOf;
    var first, rest := Traverse(b, o, ids, StartPending(starts[0])), TraverseStarts(b, o, ids, starts[1..]);
    if k == 0 {
      Whole(first);
      PartGrows(first, [], first, rest);
      assert [] + first + rest == first + rest;
    } else {
      StartIsPart(b, o, ids, starts[1..], k - 1);
      PartGrows(Traverse(b, o, ids, StartPending(starts[k])), first, rest, []);
      assert first + rest + [] == first + rest;
    }
  }

  lemma InsideIsPart(o: Options, piece: seq<Happening>, errors: seq<Happening>, inside: seq<Happening>, e: Entry, hs: seq<Happening>)
    requires PartOf(piece, inside) && Around(o, hs, e, errors + inside)
    ensures PartOf(piece, hs)
  {
    hide PartOf;
    if o.order.PreOrder? {
      PartGrows(piece, [Visited(e)] + errors, inside, []);
      assert ([Visited(e)] + errors) + inside + [] == hs;
    } else {
      PartGrows(piece, errors, inside, [Done(e)]);
    }
  }

  lemma OpenedListing(b: Backend, o: Options, p: Pending)
    requires Branches(b, o, p) != []
    ensures Opens(b, o, p) && b.children(p.path).Ok?
    ensures Branches(b, o, p) == BelowAll(b, p, b.children(p.path).value.children)
  {
    hide Branches;
    BranchesAre(b, o, p);
  }

  lemma BranchIsPart(b: Backend, o: Options, ids: set<FileId>, p: Pending, k: nat)
    requires Finite(b, ids) && k < |Branches(b, o, p)|
    ensures PartOf(Traverse(b, o, ids, Branches(b, o, p)[k]), Traverse(b, o, ids, p))
  {
    hide Traverse, PartOf, TraverseEach, BelowAll, Branches, Known, Around;
    OpenedListing(b, o, p);
    VisitIsDecided(b, o, ids, p);
    var listing := b.children(p.path).value;
    var ps := BelowAll(b, p, listing.children);
    EachIsPart(b, o, ids, ps, k);
    InsideIsPart(o, Traverse(b, o, ids, ps[k]), seq(|listing.errors|, (k: nat) requires k < |listing.errors| => Error(listing.errors[k])),
      TraverseEach(b, o, ids, ps), At(p), Traverse(b, o, ids, p));
  }

  lemma {:induction false} VisitIsPart(b: Backend, o: Options, ids: set<FileId>, starts: seq<string>, a: Place)
    requires Finite(b, ids) && PendingAt(b, o, starts, a).Some?
    ensures PartOf(Traverse(b, o, ids, PendingAt(b, o, starts, a).value), TraverseStarts(b, o, ids, starts))
    decreases |a|
  {
    hide Traverse, PartOf, Branches;
    if |a| == 1 {
      StartIsPart(b, o, ids, starts, a[0]);
    } else {
      var up := PendingAt(b, o, starts, a[..|a| - 1]).value;
      VisitIsPart(b, o, ids, starts, a[..|a| - 1]);
      BranchIsPart(b, o, ids, up, a[|a| - 1]);
      PartOfPart(Traverse(b, o, ids, Branches(b, o, up)[a[|a| - 1]]), Traverse(b, o, ids, up), TraverseStarts(b, o, ids, starts));
    }
  }

  // ----- Which entries are handed out -----

  /** h hands out the entry of p itself. */
  predicate HandsOut(b: Backend, o: Options, p: Pending, h: Happening) {
    && Known(b, p)
    && if o.order.PreOrder? || !IsDirectory(b, p) then h == Visited(At(p)) else h == Done(At(p)) && !Loops(b, o, p)
  }

  ghost predicate HandedOutBelow(b: Backend, o: Options, starts: seq<string>, a: Place, h: Happening) {
    exists more: Place :: PendingAt(b, o, starts, a + more).Some? && HandsOut(b, o, PendingAt(b, o, starts, a + more).value, h)
  }

  lemma HandedOutDeeper(b: Backend, o: Options, starts: seq<string>, a: Place, k: nat, h: Happening)
    requires HandedOutBelow(b, o, starts, a + [k], h)
    ensures HandedOutBelow(b, o, starts, a, h)
  {
    hide PendingAt, HandsOut;
    var more: Place :| PendingAt(b, o, starts, a + [k] + more).Some? && HandsOut(b, o, PendingAt(b, o, starts, a + [k] + more).value, h);
    assert a + [k] + more == a + ([k] + more);
  }

  lemma HandedOutHere(b: Backend, o: Options, starts: seq<string>, a: Place, p: Pending, h: Happening)
    requires PendingAt(b, o, starts, a) == Some(p) && HandsOut(b, o, p, h)
    ensures HandedOutBelow(b, o, starts, a, h)
  {
    assert a + [] == a;
  }

  lemma {:induction false} EachHas(b: Backend, o: Options, ids: set<FileId>, ps: seq<Pending>, h: Happening) returns (k: nat)
    requires Finite(b, ids) && h in TraverseEach(b, o, ids, ps)
    ensures k < |ps| && h in Traverse(b, o, ids, ps[k])
  {
    hide Traverse;
    if h in Traverse(b, o, ids, ps[0]) {
      k := 0;
    } else {
      k := EachHas(b, o, ids, ps[1..], h);
      k := k + 1;
    }
  }

  lemma {:induction false} WalkedIsAt(b: Backend, o: Options, ids: set<FileId>, starts: seq<string>, a: Place, p: Pending, h: Happening)
    requires Finite(b, ids) && PendingAt(b, o, starts, a) == Some(p)
    requires h in Traverse(b, o, ids, p) && !h.Error?
    ensures HandedOutBelow(b, o, starts, a, h)
    decreases Room(ids, p.ancestry)
  {
    hide Traverse, HandedOutBelow, TraverseEach, BelowAll, PendingAt;
    VisitIsDecided(b, o, ids, p);
    if HandsOut(b, o, p, h) {
      HandedOutHere(b, o, starts, a, p, h);
    } else if Opens(b, o, p) && b.children(p.path).Ok? {
      var cs := b.children(p.path).value.children;
      var ps := BelowAll(b, p, cs);
      assert h in TraverseEach(b, o, ids, ps);
      var k := EachHas(b, o, ids, ps, h);
      StartsAreAddresses(b, o, starts, a);
      ChildrenAreVisited(b, o, starts, a, k);
      BelowHasLessRoom(b, o, ids, p, cs, k);
      WalkedIsAt(b, o, ids, starts, a + [k], ps[k], h);
      HandedOutDeeper(b, o, starts, a, k, h);
    }
  }

  lemma StartsAreAddresses(b: Backend, o: Options, starts: seq<string>, a: Place)
    ensures PendingAt(b, o, starts, a).Some? ==> |a| > 0
  {
  }

  lemma BelowHasLessRoom(b: Backend, o: Options, ids: set<FileId>, p: Pending, cs: seq<Child>, k: nat)
    requires Finite(b, ids) && Opens(b, o, p) && k < |cs|
    ensures BelowAll(b, p, cs)[k] == Below(b, p, cs[k])
    ensures Room(ids, Below(b, p, cs[k]).ancestry) < Room(ids, p.ancestry)
  {
    var id := Id(b, p);
    assert id in Room(ids, p.ancestry) && id !in Room(ids, p.ancestry + [id]);
  }

  lemma {:induction false} StartsHave(b: Backend, o: Options, ids: set<FileId>, starts: seq<string>, h: Happening) returns (k: nat)
    requires Finite(b, ids) && h in TraverseStarts(b, o, ids, starts)
    ensures k < |starts| && h in Traverse(b, o, ids, StartPending(starts[k]))
  {
    hide Traverse;
    if h in Traverse(b, o, ids, StartPending(starts[0])) {
      k := 0;
    } else {
      k := StartsHave(b, o, ids, starts[1..], h);
      k := k + 1;
    }
  }

  lemma HandsOutItself(b: Backend, o: Options, ids: set<FileId>, p: Pending, h: Happening)
    requires Finite(b, ids) && HandsOut(b, o, p, h)
    ensures h in Traverse(b, o, ids, p)
  {
    hide Traverse, TraverseEach, BelowAll;
    VisitIsDecided(b, o, ids, p);
  }

  /** The walk hands out exactly the entries it reaches whose kind, control answer and
      identity are known, a directory in post-order only if it is not a loop. */
  lemma HandedOutExactly(b: Backend, o: Options, ids: set<FileId>, starts: seq<string>, h: Happening)
    requires Finite(b, ids) && !h.Error?
    ensures h in TraverseStarts(b, o, ids, starts)
       <==> exists a: Place :: PendingAt(b, o, starts, a).Some? && HandsOut(b, o, PendingAt(b, o, starts, a).value, h)
  {
    hide Traverse, HandsOut, TraverseStarts, PendingAt;
    if h in TraverseStarts(b, o, ids, starts) {
      var k := StartsHave(b, o, ids, starts, h);
      StartAt(b, o, starts, k);
      WalkedIsAt(b, o, ids, starts, [k], StartPending(starts[k]), h);
    }
    if a: Place :| PendingAt(b, o, starts, a).Some? && HandsOut(b, o, PendingAt(b, o, starts, a).value, h) {
      HandsOutItself(b, o, ids, PendingAt(b, o, starts, a).value, h);
      VisitIsPart(b, o, ids, starts, a);
    }
  }

  lemma StartAt(b: Backend, o: Options, starts: seq<string>, k: nat)
    requires k < |starts|
    ensures PendingAt(b, o, starts, [k]) == Some(StartPending(starts[k]))
    ensures StartPending(starts[k]) == Pending(starts[k], starts[k], 0, true, None, [], None)
  {
  }

  /** Nothing deeper than the maximum depth is handed out, nor is anything there visited. */
  lemma {:induction false} MaxDepthHolds(b: Backend, o: Options, ids: set<FileId>, starts: seq<string>, h: Happening)
    requires Finite(b, ids) && o.maxDepth.Some? && !h.Error? && h in TraverseStarts(b, o, ids, starts)
    ensures h.entry.depth <= o.maxDepth.value
  {
    hide Traverse, TraverseStarts, PendingAt;
    HandedOutExactly(b, o, ids, starts, h);
    var a: Place :| PendingAt(b, o, starts, a).Some? && HandsOut(b, o, PendingAt(b, o, starts, a).value, h);
    VisitedAboveMaxDepth(b, o, starts, a);
  }

  lemma {:induction false} VisitedAboveMaxDepth(b: Backend, o: Options, starts: seq<string>, a: Place)
    requires o.maxDepth.Some? && PendingAt(b, o, starts, a).Some?
    ensures PendingAt(b, o, starts, a).value.depth <= o.maxDepth.value
    decreases |a|
  {
    if |a| == 1 {
      StartAt(b, o, starts, a[0]);
      assert a == [a[0]];
    } else {
      hide PendingAt;
      var up, k := a[..|a| - 1], a[|a| - 1];
      StartsAreAddresses(b, o, starts, a);
      assert a == up + [k];
      ChildrenAreVisited(b, o, starts, up, k);
    }
  }

  /** A pruned entry is all that its visit hands out. */
  lemma PrunedStandsAlone(b: Backend, o: Options, ids: set<FileId>, p: Pending)
    requires Finite(b, ids) && Known(b, p) && b.control(At(p)).value.prune
    ensures Traverse(b, o, ids, p) == [if o.order.PreOrder? || !IsDirectory(b, p) then Visited(At(p)) else Done(At(p))]
  {
    hide Traverse, TraverseEach, BelowAll;
    VisitIsDecided(b, o, ids, p);
  }

  /** Nothing is visited below a pruned entry. */
  lemma {:induction false} NothingBelowPruned(b: Backend, o: Options, starts: seq<string>, a: Place, p: Pending, more: Place)
    requires PendingAt(b, o, starts, a) == Some(p) && Known(b, p) && b.control(At(p)).value.prune && more != []
    ensures PendingAt(b, o, starts, a + more) == None
    decreases |more|
  {
    hide PendingAt;
    var n := |more| - 1;
    StartsAreAddresses(b, o, starts, a);
    assert a + more == a + more[..n] + [more[n]];
    if n == 0 {
      assert a + more[..n] == a;
    } else {
      NothingBelowPruned(b, o, starts, a, p, more[..n]);
    }
    ChildrenAreVisited(b, o, starts, a + more[..n], more[n]);
  }

  /** A directory above the maximum depth that is not pruned, whose identity is known and
      is not among its ancestors, on the device of its start path if that is asked for: it
      is listed, and the visit of each of its children is part of the walk. */
  lemma ListedChildrenAreWalked(b: Backend, o: Options, ids: set<FileId>, starts: seq<string>, a: Place, p: Pending, cs: seq<Child>, k: nat)
    requires Finite(b, ids) && PendingAt(b, o, starts, a) == Some(p)
    requires IsDirectory(b, p) && !b.control(At(p)).value.prune
    requires o.maxDepth.Some? ==> p.depth < o.maxDepth.value
    requires Id(b, p) !in p.ancestry
    requires o.sameFileSystem && p.rootDevice.Some? ==> Id(b, p).dev == p.rootDevice.value
    requires b.children(p.path).Ok? && b.children(p.path).value.children == cs && k < |cs|
    ensures PendingAt(b, o, starts, a + [k])
         == Some(Pending(cs[k].path, p.rootPath, p.depth + 1, false, cs[k].hint, p.ancestry + [Id(b, p)], Some(Device(b, p))))
    ensures PartOf(Traverse(b, o, ids, PendingAt(b, o, starts, a + [k]).value), TraverseStarts(b, o, ids, starts))
  {
    hide PendingAt, Traverse, TraverseStarts, PartOf;
    StartsAreAddresses(b, o, starts, a);
    assert p.rootDevice == None || p.rootDevice == Some(p.rootDevice.value);
    assert Opens(b, o, p);
    ChildrenAreVisited(b, o, starts, a, k);
    VisitIsPart(b, o, ids, starts, a + [k]);
  }
}
