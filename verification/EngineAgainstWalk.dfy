/** The parallel engine against the ordered walk: over the same file system a
    complete parallel run evaluates the entries the ordered walk hands out. */
module EngineAgainstWalk {
  import opened Basics
  import opened Places
  import W = Walker
  import L = WalkerLaws
  import Ledger
  import E = Engine
  import EngineOutcome
  import EngineCompletion
  import EngineTheorems
  import EngineMeasure
  import EngineRuns

  // ----- The tree the parallel engine sees -----

  function ExpansionOf(descent: Result<Option<W.Descent>, W.Diagnostic>, listing: Result<W.Listing, W.Diagnostic>): Expansion {
    match descent
    case Err(_) => Refused
    case Ok(None) => Closed
    case Ok(Some(_)) =>
      match listing
      case Err(_) => Lists(0, false)
      case Ok(l) => Lists(|l.children|, true)
  }

  /** Pre-order asks for the identity only after the evaluation, post-order before. */
  function VisitOf(b: W.Backend, o: W.Options, p: W.Pending): Visit {
    match W.LoadEntry(b, p)
    case Err(_) => Unreadable
    case Ok(e) =>
      match b.control(e)
      case Err(_) => Unreadable
      case Ok(c) =>
        if o.order.PostOrder? && b.identity(e).Err? then Unreadable
        else Readable(ExpansionOf(W.ShouldDescendDirectory(b, o, p, e, c), b.children(p.path)))
  }

  function WorldOf(b: W.Backend, o: W.Options, starts: seq<string>): World {
    World(o.order, |starts|, o.minDepth, (a: Place) =>
      match L.PendingAt(b, o, starts, a) case None => Unreadable case Some(p) => VisitOf(b, o, p))
  }

  lemma KidsAreBranches(b: W.Backend, o: W.Options, starts: seq<string>, a: Place)
    requires L.PendingAt(b, o, starts, a).Some?
    ensures Kids(WorldOf(b, o, starts), a) == |L.Branches(b, o, L.PendingAt(b, o, starts, a).value)|
  {
    hide L.PendingAt;
    assert WorldOf(b, o, starts).visit(a) == VisitOf(b, o, L.PendingAt(b, o, starts, a).value);
  }

  lemma {:induction false} ReachableIsPending(b: W.Backend, o: W.Options, starts: seq<string>, a: Place)
    ensures Reachable(WorldOf(b, o, starts), a) <==> L.PendingAt(b, o, starts, a).Some?
    decreases |a|
  {
    hide WorldOf, Kids, L.Branches;
    assert WorldOf(b, o, starts).roots == |starts| by { Roots(b, o, starts); }
    if |a| > 1 {
      var up := a[..|a| - 1];
      ReachableIsPending(b, o, starts, up);
      if L.PendingAt(b, o, starts, up).Some? { KidsAreBranches(b, o, starts, up); }
    }
  }

  lemma Roots(b: W.Backend, o: W.Options, starts: seq<string>)
    ensures var w := WorldOf(b, o, starts); w.roots == |starts| && w.order == o.order && w.minDepth == o.minDepth
  {
  }

  /** A file graph with finitely many directory identities unfolds to a tree of
      bounded height, so every parallel schedule over it is finite. */
  lemma ParallelRunsAreFinite(b: W.Backend, o: W.Options, ids: set<W.FileId>, starts: seq<string>, n: nat, moves: seq<E.Move>, s: E.State)
    requires W.Finite(b, ids)
    requires E.Run(WorldOf(b, o, starts), E.Initial(WorldOf(b, o, starts), n), moves) == Some(s)
    ensures |moves| <= EngineMeasure.Measure(WorldOf(b, o, starts), |ids| + 2, E.Initial(WorldOf(b, o, starts), n))
  {
    var w := WorldOf(b, o, starts);
    forall a: Place | |a| >= |ids| + 2 ensures Span(w, a) == 0 {
      if L.PendingAt(b, o, starts, a).Some? { L.DepthIsBounded(b, o, ids, starts, a); }
    }
    hide WorldOf, E.Run, E.Initial, EngineMeasure.Measure;
    EngineMeasure.RunsAreBounded(w, |ids| + 2, n, moves, s);
  }

  // ----- The addresses the ordered walk hands out, in its order -----

  /** p itself is handed out, before or after its children. */
  predicate HandedOut(b: W.Backend, o: W.Options, p: W.Pending) {
    match W.Looked(b, o, p)
    case Unseen(_) => false
    case Seen(_, isDirectory, descent) => o.order.PostOrder? && isDirectory ==> descent.Ok?
  }

  predicate HandedOutFirst(b: W.Backend, o: W.Options, p: W.Pending) {
    HandedOut(b, o, p) && (o.order.PreOrder? || !W.Looked(b, o, p).isDirectory)
  }

  ghost function Tour(b: W.Backend, o: W.Options, ids: set<W.FileId>, p: W.Pending, a: Place): seq<Place>
    requires W.Finite(b, ids)
    decreases W.Room(ids, p.ancestry), 0
  {
    var self := if HandedOut(b, o, p) then [a] else [];
    var kids := if L.Branches(b, o, p) == [] then [] else
      (assert W.Room(ids, L.Branches(b, o, p)[0].ancestry) < W.Room(ids, p.ancestry) by { BranchRoom(b, o, ids, p); }
       TourFrom(b, o, ids, L.Branches(b, o, p)[0].ancestry, L.Branches(b, o, p), a, 0));
    if HandedOutFirst(b, o, p) then self + kids else kids + self
  }

  ghost function TourFrom(b: W.Backend, o: W.Options, ids: set<W.FileId>, anc: seq<W.FileId>, ps: seq<W.Pending>, a: Place, k: nat): seq<Place>
    requires W.Finite(b, ids) && k <= |ps|
    requires forall i :: 0 <= i < |ps| ==> ps[i].ancestry == anc
    decreases W.Room(ids, anc), |ps| - k + 1
  {
    if k == |ps| then []
    else Tour(b, o, ids, ps[k], a + [k]) + TourFrom(b, o, ids, anc, ps, a, k + 1)
  }

  lemma BranchRoom(b: W.Backend, o: W.Options, ids: set<W.FileId>, p: W.Pending)
    requires W.Finite(b, ids) && L.Branches(b, o, p) != []
    ensures W.Room(ids, L.Branches(b, o, p)[0].ancestry) < W.Room(ids, p.ancestry)
  {
    var e := W.EntryOf(p);
    W.RoomShrinks(b, o, p, e, b.control(e).value, ids);
  }

  ghost function TourStarts(b: W.Backend, o: W.Options, ids: set<W.FileId>, starts: seq<string>, i: nat): seq<Place>
    requires W.Finite(b, ids) && i <= |starts|
    decreases |starts| - i
  {
    if i == |starts| then [] else Tour(b, o, ids, W.StartPending(starts[i]), [i]) + TourStarts(b, o, ids, starts, i + 1)
  }

  // ----- The tour is the order of the walk's entries -----

  function EntriesOf(hs: seq<W.Happening>): seq<W.Entry> {
    if hs == [] then []
    else (if hs[0].Error? then [] else [hs[0].entry]) + EntriesOf(hs[1..])
  }

  lemma {:induction false} EntriesConcat(hs: seq<W.Happening>, gs: seq<W.Happening>)
    ensures EntriesOf(hs + gs) == EntriesOf(hs) + EntriesOf(gs)
  {
    if hs == [] {
      assert hs + gs == gs;
    } else {
      assert (hs + gs)[1..] == hs[1..] + gs;
      EntriesConcat(hs[1..], gs);
    }
  }

  lemma {:induction false} EntriesOfErrors(ds: seq<W.Diagnostic>)
    ensures EntriesOf(W.Errors(ds)) == []
  {
    if ds != [] {
      EntriesOfErrors(ds[1..]);
      assert W.Errors(ds)[1..] == W.Errors(ds[1..]);
    }
  }

  function EntryAt(b: W.Backend, o: W.Options, starts: seq<string>, a: Place): W.Entry {
    match L.PendingAt(b, o, starts, a)
    case None => W.Entry("", 0, false, "", None)
    case Some(p) => W.EntryOf(p)
  }

  function EntriesAt(b: W.Backend, o: W.Options, starts: seq<string>, ps: seq<Place>): seq<W.Entry> {
    if ps == [] then [] else [EntryAt(b, o, starts, ps[0])] + EntriesAt(b, o, starts, ps[1..])
  }

  lemma {:induction false} EntriesAtConcat(b: W.Backend, o: W.Options, starts: seq<string>, ps: seq<Place>, qs: seq<Place>)
    ensures EntriesAt(b, o, starts, ps + qs) == EntriesAt(b, o, starts, ps) + EntriesAt(b, o, starts, qs)
  {
    hide EntryAt;
    if ps == [] {
      assert ps + qs == qs;
    } else {
      assert (ps + qs)[1..] == ps[1..] + qs;
      EntriesAtConcat(b, o, starts, ps[1..], qs);
    }
  }

  lemma One(b: W.Backend, o: W.Options, starts: seq<string>, a: Place)
    ensures EntriesAt(b, o, starts, [a]) == [EntryAt(b, o, starts, a)]
  {
    assert EntriesAt(b, o, starts, [a][1..]) == [];
  }

  lemma OneEntry(h: W.Happening)
    ensures EntriesOf([h]) == if h.Error? then [] else [h.entry]
  {
    assert EntriesOf([h][1..]) == [];
  }

  lemma ChildPlace(b: W.Backend, o: W.Options, starts: seq<string>, a: Place, p: W.Pending, k: nat)
    requires L.PendingAt(b, o, starts, a) == Some(p) && k < |L.Branches(b, o, p)| && |a| > 0
    ensures L.PendingAt(b, o, starts, a + [k]) == Some(L.Branches(b, o, p)[k])
  {
    ChildOf(a, k);
  }

  lemma BranchesAre(b: W.Backend, o: W.Options, p: W.Pending, d: W.Descent)
    requires W.Looked(b, o, p).Seen? && W.Looked(b, o, p).descent == Ok(Some(d)) && b.children(p.path).Ok?
    ensures var cs, ps := b.children(p.path).value.children, L.Branches(b, o, p);
      |ps| == |cs| && forall i :: 0 <= i < |ps| ==> ps[i] == W.ChildPending(p, cs[i], d.ancestry, d.device)
    ensures forall i :: 0 <= i < |L.Branches(b, o, p)| ==> L.Branches(b, o, p)[i].ancestry == d.ancestry
  {
    hide W.Looked;
  }

  /** The children of a directory, in the order of their listing. */
  lemma {:induction false} ChildrenTour(b: W.Backend, o: W.Options, ids: set<W.FileId>, starts: seq<string>, a: Place, p: W.Pending,
                                        d: W.Descent, cs: seq<W.Child>, ps: seq<W.Pending>, k: nat)
    requires W.Finite(b, ids) && |a| > 0 && L.PendingAt(b, o, starts, a) == Some(p) && ps == L.Branches(b, o, p)
    requires |ps| == |cs| && forall i :: 0 <= i < |ps| ==> ps[i] == W.ChildPending(p, cs[i], d.ancestry, d.device)
    requires k <= |cs| && forall i :: 0 <= i < |ps| ==> ps[i].ancestry == d.ancestry
    ensures EntriesOf(W.TraverseAll(b, o, ids, p, d, cs[k..])) == EntriesAt(b, o, starts, TourFrom(b, o, ids, d.ancestry, ps, a, k))
    decreases W.Room(ids, d.ancestry), |cs| - k + 2
  {
    hide W.Looked, EntryAt, Tour, W.Traverse, L.PendingAt, L.Branches;
    if k < |cs| {
      ChildPlace(b, o, starts, a, p, k);
      TourOfEntry(b, o, ids, starts, a + [k], ps[k]);
      ChildrenTour(b, o, ids, starts, a, p, d, cs, ps, k + 1);
      assert cs[k..][0] == cs[k] && cs[k..][1..] == cs[k + 1..];
      EntriesConcat(W.Traverse(b, o, ids, ps[k]), W.TraverseAll(b, o, ids, p, d, cs[k + 1..]));
      EntriesAtConcat(b, o, starts, Tour(b, o, ids, ps[k], a + [k]), TourFrom(b, o, ids, d.ancestry, ps, a, k + 1));
    }
  }

  lemma {:induction false} TourOfEntry(b: W.Backend, o: W.Options, ids: set<W.FileId>, starts: seq<string>, a: Place, p: W.Pending)
    requires W.Finite(b, ids) && |a| > 0 && L.PendingAt(b, o, starts, a) == Some(p)
    ensures EntriesOf(W.Traverse(b, o, ids, p)) == EntriesAt(b, o, starts, Tour(b, o, ids, p, a))
    decreases W.Room(ids, p.ancestry), 1
  {
    var e := W.EntryOf(p);
    if W.Looked(b, o, p).Seen? && W.Looked(b, o, p).descent.Ok? && W.Looked(b, o, p).descent.value.Some? {
      W.RoomShrinks(b, o, p, e, b.control(e).value, ids);
    }
    match W.Looked(b, o, p)
    case Unseen(error) => OneEntry(W.Error(error));
    case Seen(_, isDirectory, descent) =>
      One(b, o, starts, a);
      OneEntry(W.Visited(e));
      OneEntry(W.Done(e));
      match descent {
        case Err(error) => OneEntry(W.Error(error)); EntriesConcat([W.Visited(e)], [W.Error(error)]);
        case Ok(None) =>
        case Ok(Some(d)) => ListedTour(b, o, ids, starts, a, p, d);
      }
  }

  /** The entry itself, wherever it stands among the happenings of its subtree. */
  lemma Framed(before: seq<W.Happening>, mid: seq<W.Happening>, after: seq<W.Happening>)
    ensures EntriesOf(before + mid + after) == EntriesOf(before) + EntriesOf(mid) + EntriesOf(after)
  {
    EntriesConcat(before, mid);
    EntriesConcat(before + mid, after);
  }

  lemma {:induction false} ListedTour(b: W.Backend, o: W.Options, ids: set<W.FileId>, starts: seq<string>, a: Place, p: W.Pending, d: W.Descent)
    requires W.Finite(b, ids) && |a| > 0 && L.PendingAt(b, o, starts, a) == Some(p)
    requires W.Looked(b, o, p).Seen? && W.Looked(b, o, p).descent == Ok(Some(d))
    requires W.Room(ids, d.ancestry) < W.Room(ids, p.ancestry)
    ensures EntriesOf(W.Traverse(b, o, ids, p)) == EntriesAt(b, o, starts, Tour(b, o, ids, p, a))
    decreases W.Room(ids, p.ancestry), 0
  {
    hide W.Looked, EntryAt, W.TraverseAll, TourFrom, W.Errors, L.PendingAt, L.Branches, W.Traverse, Tour, EntriesOf, EntriesAt, W.Room;
    var e, isDirectory := W.Looked(b, o, p).entry, W.Looked(b, o, p).isDirectory;
    var before := if o.order.PreOrder? || !isDirectory then [W.Visited(e)] else [];
    var after := if o.order.PostOrder? && isDirectory then [W.Done(e)] else [];
    W.GoodLook(b, o, ids, p);
    assert EntryAt(b, o, starts, a) == e by { SeenEntry(b, o, starts, a, p); }
    One(b, o, starts, a);
    SelfEntry(o, e, isDirectory);
    match b.children(p.path)
    case Err(error) =>
      Framed(before, [W.Error(error)], after);
      OneEntry(W.Error(error));
      assert before + ([W.Error(error)] + after) == before + [W.Error(error)] + after;
      LonelyTour(b, o, ids, p, a);
    case Ok(Listing(cs, errors)) =>
      var kids := W.TraverseAll(b, o, ids, p, d, cs);
      Framed(before, W.Errors(errors) + kids, after);
      EntriesConcat(W.Errors(errors), kids);
      EntriesOfErrors(errors);
      assert before + (W.Errors(errors) + kids + after) == before + (W.Errors(errors) + kids) + after;
      BranchesAre(b, o, p, d);
      ChildrenTour(b, o, ids, starts, a, p, d, cs, L.Branches(b, o, p), 0);
      assert cs[0..] == cs;
      ToursJoin(b, o, ids, starts, a, p, d);
  }

  lemma SelfEntry(o: W.Options, e: W.Entry, isDirectory: bool)
    ensures EntriesOf(if o.order.PreOrder? || !isDirectory then [W.Visited(e)] else [])
         == if o.order.PreOrder? || !isDirectory then [e] else []
    ensures EntriesOf(if o.order.PostOrder? && isDirectory then [W.Done(e)] else [])
         == if o.order.PostOrder? && isDirectory then [e] else []
  {
    OneEntry(W.Visited(e));
    OneEntry(W.Done(e));
  }

  lemma LonelyTour(b: W.Backend, o: W.Options, ids: set<W.FileId>, p: W.Pending, a: Place)
    requires W.Finite(b, ids) && b.children(p.path).Err?
    requires W.Looked(b, o, p).Seen? && W.Looked(b, o, p).descent.Ok?
    ensures Tour(b, o, ids, p, a) == [a]
  {
    hide W.Looked;
  }

  lemma SeenEntry(b: W.Backend, o: W.Options, starts: seq<string>, a: Place, p: W.Pending)
    requires L.PendingAt(b, o, starts, a) == Some(p) && W.Looked(b, o, p).Seen?
    ensures EntryAt(b, o, starts, a) == W.Looked(b, o, p).entry
  {
  }

  /** The tour of a listed directory in terms of the tour of its children. */
  lemma ToursJoin(b: W.Backend, o: W.Options, ids: set<W.FileId>, starts: seq<string>, a: Place, p: W.Pending, d: W.Descent)
    requires W.Finite(b, ids)
    requires W.Looked(b, o, p).Seen? && W.Looked(b, o, p).descent == Ok(Some(d))
    requires forall i :: 0 <= i < |L.Branches(b, o, p)| ==> L.Branches(b, o, p)[i].ancestry == d.ancestry
    ensures var kids, self := EntriesAt(b, o, starts, TourFrom(b, o, ids, d.ancestry, L.Branches(b, o, p), a, 0)), EntriesAt(b, o, starts, [a]);
      EntriesAt(b, o, starts, Tour(b, o, ids, p, a)) == if HandedOutFirst(b, o, p) then self + kids else kids + self
  {
    hide W.Looked, EntryAt;
    var tour := TourFrom(b, o, ids, d.ancestry, L.Branches(b, o, p), a, 0);
    EntriesAtConcat(b, o, starts, [a], tour);
    EntriesAtConcat(b, o, starts, tour, [a]);
  }

  lemma {:induction false} TourOfStarts(b: W.Backend, o: W.Options, ids: set<W.FileId>, starts: seq<string>, i: nat)
    requires W.Finite(b, ids) && i <= |starts|
    ensures EntriesOf(W.TraverseStarts(b, o, ids, starts[i..])) == EntriesAt(b, o, starts, TourStarts(b, o, ids, starts, i))
    decreases |starts| - i
  {
    hide W.Traverse, Tour, EntryAt;
    if i < |starts| {
      var p := W.StartPending(starts[i]);
      assert L.PendingAt(b, o, starts, [i]) == Some(p);
      TourOfEntry(b, o, ids, starts, [i], p);
      TourOfStarts(b, o, ids, starts, i + 1);
      assert starts[i..][0] == starts[i] && starts[i..][1..] == starts[i + 1..];
      EntriesConcat(W.Traverse(b, o, ids, p), W.TraverseStarts(b, o, ids, starts[i + 1..]));
      EntriesAtConcat(b, o, starts, Tour(b, o, ids, p, [i]), TourStarts(b, o, ids, starts, i + 1));
    }
  }

  // ----- Each address once -----

  predicate Within(a: Place, q: Place) {
    |a| <= |q| && q[..|a|] == a
  }

  predicate HandedOutAt(b: W.Backend, o: W.Options, starts: seq<string>, q: Place) {
    L.PendingAt(b, o, starts, q).Some? && HandedOut(b, o, L.PendingAt(b, o, starts, q).value)
  }

  lemma {:induction false} PrefixIsPending(b: W.Backend, o: W.Options, starts: seq<string>, a: Place, q: Place)
    requires |a| > 0 && Within(a, q) && L.PendingAt(b, o, starts, q).Some?
    ensures L.PendingAt(b, o, starts, a).Some?
    decreases |q|
  {
    if |a| < |q| {
      var up := q[..|q| - 1];
      assert up[..|a|] == a;
      PrefixIsPending(b, o, starts, a, up);
    } else {
      assert q == a;
    }
  }

  lemma BelowChild(b: W.Backend, o: W.Options, starts: seq<string>, a: Place, p: W.Pending, q: Place)
    requires |a| > 0 && L.PendingAt(b, o, starts, a) == Some(p) && Within(a, q) && |a| < |q|
    requires L.PendingAt(b, o, starts, q).Some?
    ensures q[|a|] < |L.Branches(b, o, p)|
  {
    hide L.Branches;
    var c := a + [q[|a|]];
    assert q[..|c|] == c;
    PrefixIsPending(b, o, starts, c, q);
    ChildOf(a, q[|a|]);
  }

  lemma WithinChild(a: Place, k: nat, q: Place)
    ensures Within(a + [k], q) <==> Within(a, q) && |a| < |q| && q[|a|] == k
  {
    if Within(a + [k], q) { assert q[..|a|] == q[..|a| + 1][..|a|]; assert (a + [k])[..|a|] == a; assert q[..|a| + 1][|a|] == k; }
    if Within(a, q) && |a| < |q| && q[|a|] == k { assert q[..|a| + 1] == q[..|a|] + [k]; }
  }

  lemma {:induction false} TourFromCounts(b: W.Backend, o: W.Options, ids: set<W.FileId>, starts: seq<string>, a: Place, p: W.Pending,
                                          anc: seq<W.FileId>, ps: seq<W.Pending>, k: nat, q: Place)
    requires W.Finite(b, ids) && |a| > 0 && L.PendingAt(b, o, starts, a) == Some(p) && ps == L.Branches(b, o, p)
    requires k <= |ps| && forall i :: 0 <= i < |ps| ==> ps[i].ancestry == anc
    ensures multiset(TourFrom(b, o, ids, anc, ps, a, k))[q]
         == if |a| < |q| && Within(a, q) && q[|a|] >= k && HandedOutAt(b, o, starts, q) then 1 else 0
    decreases W.Room(ids, anc), |ps| - k + 2
  {
    hide W.Looked, Tour, L.PendingAt, L.Branches, HandedOut;
    if k < |ps| {
      ChildPlace(b, o, starts, a, p, k);
      TourCounts(b, o, ids, starts, a + [k], ps[k], q);
      TourFromCounts(b, o, ids, starts, a, p, anc, ps, k + 1, q);
      WithinChild(a, k, q);
    } else if |a| < |q| && Within(a, q) && L.PendingAt(b, o, starts, q).Some? {
      BelowChild(b, o, starts, a, p, q);
    }
  }

  /** Every address of the subtree that is handed out occurs exactly once. */
  lemma {:induction false} TourCounts(b: W.Backend, o: W.Options, ids: set<W.FileId>, starts: seq<string>, a: Place, p: W.Pending, q: Place)
    requires W.Finite(b, ids) && |a| > 0 && L.PendingAt(b, o, starts, a) == Some(p)
    ensures multiset(Tour(b, o, ids, p, a))[q] == if Within(a, q) && HandedOutAt(b, o, starts, q) then 1 else 0
    decreases W.Room(ids, p.ancestry), 1
  {
    hide W.Looked, TourFrom, L.PendingAt, HandedOut;
    var ps := L.Branches(b, o, p);
    if ps == [] {
      if |a| < |q| && Within(a, q) && L.PendingAt(b, o, starts, q).Some? { BelowChild(b, o, starts, a, p, q); }
    } else {
      BranchRoom(b, o, ids, p);
      TourFromCounts(b, o, ids, starts, a, p, ps[0].ancestry, ps, 0, q);
    }
    if Within(a, q) && |q| == |a| { assert q == a; }
  }

  lemma {:induction false} TourStartsCounts(b: W.Backend, o: W.Options, ids: set<W.FileId>, starts: seq<string>, i: nat, q: Place)
    requires W.Finite(b, ids) && i <= |starts|
    ensures multiset(TourStarts(b, o, ids, starts, i))[q] == if |q| > 0 && q[0] >= i && HandedOutAt(b, o, starts, q) then 1 else 0
    decreases |starts| - i
  {
    hide W.Looked, Tour, HandedOut;
    if i < |starts| {
      TourCounts(b, o, ids, starts, [i], W.StartPending(starts[i]), q);
      TourStartsCounts(b, o, ids, starts, i + 1, q);
      WithinChild([], i, q);
      assert [] + [i] == [i];
      assert |q| > 0 ==> q[..0] == [];
    } else if |q| > 0 && L.PendingAt(b, o, starts, q).Some? {
      assert Within(q[..1], q);
      PrefixIsPending(b, o, starts, q[..1], q);
    }
  }

  // ----- Both engines evaluate the same -----

  function DeepEnough(ps: seq<Place>, minDepth: nat): seq<Place> {
    if ps == [] then [] else (if Depth(ps[0]) >= minDepth then [ps[0]] else []) + DeepEnough(ps[1..], minDepth)
  }

  function EvaluatedEntries(es: seq<W.Entry>, minDepth: nat): seq<W.Entry> {
    if es == [] then [] else (if es[0].depth >= minDepth then [es[0]] else []) + EvaluatedEntries(es[1..], minDepth)
  }

  lemma {:induction false} DeepCounts(ps: seq<Place>, minDepth: nat, q: Place)
    ensures multiset(DeepEnough(ps, minDepth))[q] == if Depth(q) >= minDepth then multiset(ps)[q] else 0
  {
    if ps != [] {
      DeepCounts(ps[1..], minDepth, q);
      assert ps == [ps[0]] + ps[1..];
    }
  }

  lemma {:induction false} DeepEntries(b: W.Backend, o: W.Options, ids: set<W.FileId>, starts: seq<string>, ps: seq<Place>, minDepth: nat)
    requires W.Finite(b, ids) && forall q :: q in ps ==> L.PendingAt(b, o, starts, q).Some?
    ensures EvaluatedEntries(EntriesAt(b, o, starts, ps), minDepth) == EntriesAt(b, o, starts, DeepEnough(ps, minDepth))
  {
    hide L.PendingAt, L.Lineage;
    if ps != [] {
      DeepEntries(b, o, ids, starts, ps[1..], minDepth);
      L.AncestryIsDistinct(b, o, ids, starts, ps[0]);
      PendingIsBelow(b, o, starts, ps[0]);
      var rest := EntriesAt(b, o, starts, ps);
      assert rest[1..] == EntriesAt(b, o, starts, ps[1..]);
      EntriesAtConcat(b, o, starts, [ps[0]], DeepEnough(ps[1..], minDepth));
      One(b, o, starts, ps[0]);
      assert EntryAt(b, o, starts, ps[0]).depth == Depth(ps[0]);
      assert [] + DeepEnough(ps[1..], minDepth) == DeepEnough(ps[1..], minDepth);
    }
  }

  lemma PendingIsBelow(b: W.Backend, o: W.Options, starts: seq<string>, a: Place)
    requires L.PendingAt(b, o, starts, a).Some?
    ensures |a| > 0
  {
  }

  /** The places whose evaluation has begun, in the order of the log. */
  function BeganAt(log: seq<Ledger.Event>): seq<Place> {
    if log == [] then []
    else BeganAt(log[..|log| - 1]) + if log[|log| - 1].Began? then [log[|log| - 1].at] else []
  }

  lemma {:induction false} BeganCounts(log: seq<Ledger.Event>)
    ensures multiset(BeganAt(log)) == Ledger.Begins(log)
  {
    if log != [] { BeganCounts(log[..|log| - 1]); }
  }

  /** Place number i and the others, apart. */
  lemma WithoutOne(ps: seq<Place>, i: nat)
    requires i < |ps|
    ensures multiset(ps) == multiset{ps[i]} + multiset(ps[..i] + ps[i + 1..])
  {
    assert ps == ps[..i] + ([ps[i]] + ps[i + 1..]);
  }

  lemma Cancel(x: Place, a: multiset<Place>, c: multiset<Place>)
    requires multiset{x} + a == multiset{x} + c
    ensures a == c
  {
    assert (multiset{x} + a) - multiset{x} == a && (multiset{x} + c) - multiset{x} == c;
  }

  lemma ImageWithoutOne(b: W.Backend, o: W.Options, starts: seq<string>, ps: seq<Place>, i: nat)
    requires i < |ps|
    ensures multiset(EntriesAt(b, o, starts, ps))
         == multiset{EntryAt(b, o, starts, ps[i])} + multiset(EntriesAt(b, o, starts, ps[..i] + ps[i + 1..]))
  {
    hide EntryAt, EntriesAt;
    assert ps == ps[..i] + ([ps[i]] + ps[i + 1..]);
    EntriesAtConcat(b, o, starts, ps[..i], [ps[i]] + ps[i + 1..]);
    EntriesAtConcat(b, o, starts, [ps[i]], ps[i + 1..]);
    EntriesAtConcat(b, o, starts, ps[..i], ps[i + 1..]);
    One(b, o, starts, ps[i]);
  }

  lemma {:induction false} SameImage(b: W.Backend, o: W.Options, starts: seq<string>, ps: seq<Place>, qs: seq<Place>)
    requires multiset(ps) == multiset(qs)
    ensures multiset(EntriesAt(b, o, starts, ps)) == multiset(EntriesAt(b, o, starts, qs))
    decreases |ps|
  {
    hide EntryAt, EntriesAt;
    if ps == [] {
      assert |multiset(qs)| == 0;
    } else {
      assert ps[0] in multiset(ps);
      var i :| 0 <= i < |qs| && qs[i] == ps[0];
      var rest, rest' := ps[..0] + ps[1..], qs[..i] + qs[i + 1..];
      WithoutOne(ps, 0);
      WithoutOne(qs, i);
      Cancel(ps[0], multiset(rest), multiset(rest'));
      SameImage(b, o, starts, rest, rest');
      ImageWithoutOne(b, o, starts, ps, 0);
      ImageWithoutOne(b, o, starts, qs, i);
    }
  }

  /** In pre-order the ordered walk asks for the identity of an entry before it
      hands the entry out, the parallel engine only afterwards. */
  predicate IdentityReadAt(b: W.Backend, o: W.Options, starts: seq<string>, q: Place) {
    o.order.PreOrder? ==> b.identity(EntryAt(b, o, starts, q)).Ok?
  }

  lemma EvaluableIsHandedOut(b: W.Backend, o: W.Options, starts: seq<string>, q: Place)
    requires L.PendingAt(b, o, starts, q).Some?
    ensures HandedOutAt(b, o, starts, q) <==> Evaluable(WorldOf(b, o, starts), q) && IdentityReadAt(b, o, starts, q)
  {
    hide L.PendingAt;
    var p := L.PendingAt(b, o, starts, q).value;
    assert WorldOf(b, o, starts).visit(q) == VisitOf(b, o, p);
  }

  /** The two engines agree about an address, unless its identity read matters
      and fails. */
  lemma SameAt(b: W.Backend, o: W.Options, ids: set<W.FileId>, starts: seq<string>, q: Place)
    requires W.Finite(b, ids)
    ensures var w := WorldOf(b, o, starts);
      multiset(DeepEnough(TourStarts(b, o, ids, starts, 0), o.minDepth))[q]
      == if Reachable(w, q) && Evaluated(w, q) && IdentityReadAt(b, o, starts, q) then 1 else 0
  {
    hide L.PendingAt, TourStarts, WorldOf, HandedOut, IdentityReadAt, Evaluable;
    ReachableIsPending(b, o, starts, q);
    TourStartsCounts(b, o, ids, starts, 0, q);
    DeepCounts(TourStarts(b, o, ids, starts, 0), o.minDepth, q);
    Roots(b, o, starts);
    if L.PendingAt(b, o, starts, q).Some? {
      PendingIsBelow(b, o, starts, q);
      EvaluableIsHandedOut(b, o, starts, q);
    }
  }

  /** A run over a tree in which no listing breaks off in pre-order, without -quit
      and without failures, that every worker has left. */
  ghost predicate CompletedRun(w: World, n: nat, moves: seq<E.Move>, s: E.State) {
    && n > 0 && Unbroken(w) && EngineCompletion.Calm(moves)
    && E.Run(w, E.Initial(w, n), moves) == Some(s) && EngineOutcome.AllExited(s)
  }

  lemma BegunAt(w: World, n: nat, moves: seq<E.Move>, s: E.State, q: Place)
    requires CompletedRun(w, n, moves, s)
    ensures multiset(BeganAt(s.book.log))[q] == if Reachable(w, q) && Evaluated(w, q) then 1 else 0
  {
    hide E.Run, E.Initial, Reachable, Evaluated, Ledger.Begins, Unbroken, EngineCompletion.Calm, EngineOutcome.AllExited;
    EngineCompletion.CompletionIsExact(w, n, moves, s);
    BeganCounts(s.book.log);
    assert Ledger.Begins(s.book.log)[q] == if Reachable(w, q) && Evaluated(w, q) then 1 else 0;
  }

  /** The identity of every entry that has to be evaluated can be read, where the
      order matters. */
  ghost predicate IdentitiesRead(b: W.Backend, o: W.Options, starts: seq<string>) {
    forall q :: Reachable(WorldOf(b, o, starts), q) && Evaluated(WorldOf(b, o, starts), q) ==> IdentityReadAt(b, o, starts, q)
  }

  /** Exactly when both engines evaluate the same addresses: when no entry that
      has to be evaluated in pre-order fails its identity read. */
  lemma SameAddresses(b: W.Backend, o: W.Options, ids: set<W.FileId>, starts: seq<string>, n: nat, moves: seq<E.Move>, s: E.State)
    requires W.Finite(b, ids) && CompletedRun(WorldOf(b, o, starts), n, moves, s)
    ensures multiset(BeganAt(s.book.log)) == multiset(DeepEnough(TourStarts(b, o, ids, starts, 0), o.minDepth))
       <==> IdentitiesRead(b, o, starts)
  {
    hide CompletedRun, BeganAt, DeepEnough, TourStarts, WorldOf, IdentityReadAt, Reachable, Evaluated;
    var w, begun, toured := WorldOf(b, o, starts), BeganAt(s.book.log), DeepEnough(TourStarts(b, o, ids, starts, 0), o.minDepth);
    forall q: Place ensures multiset(begun)[q] == (if Reachable(w, q) && Evaluated(w, q) then 1 else 0)
      && multiset(toured)[q] == (if Reachable(w, q) && Evaluated(w, q) && IdentityReadAt(b, o, starts, q) then 1 else 0)
    {
      BegunAt(w, n, moves, s, q);
      SameAt(b, o, ids, starts, q);
    }
    if multiset(begun) == multiset(toured) {
      forall q | Reachable(w, q) && Evaluated(w, q) ensures IdentityReadAt(b, o, starts, q) {
        assert multiset(begun)[q] == multiset(toured)[q];
      }
    }
  }

  lemma TouredIsPending(b: W.Backend, o: W.Options, ids: set<W.FileId>, starts: seq<string>)
    requires W.Finite(b, ids)
    ensures forall q :: q in TourStarts(b, o, ids, starts, 0) ==> L.PendingAt(b, o, starts, q).Some?
  {
    hide TourStarts, L.PendingAt, HandedOut;
    forall q | q in TourStarts(b, o, ids, starts, 0) ensures L.PendingAt(b, o, starts, q).Some? {
      TourStartsCounts(b, o, ids, starts, 0, q);
      assert q in multiset(TourStarts(b, o, ids, starts, 0));
    }
  }

  /** Whatever the schedule, the splitting and the stealing, a complete parallel
      run evaluates the multiset of entries the ordered walk hands out at or
      below the minimum depth, provided identity reads succeed in pre-order. */
  lemma ParallelEvaluatesWhatIsWalked(b: W.Backend, o: W.Options, ids: set<W.FileId>, starts: seq<string>, n: nat, moves: seq<E.Move>, s: E.State)
    requires W.Finite(b, ids) && CompletedRun(WorldOf(b, o, starts), n, moves, s)
    requires o.order.PostOrder? || IdentitiesRead(b, o, starts)
    ensures multiset(EntriesAt(b, o, starts, BeganAt(s.book.log)))
         == multiset(EvaluatedEntries(EntriesOf(W.TraverseStarts(b, o, ids, starts)), o.minDepth))
  {
    hide CompletedRun, BeganAt, TourStarts, WorldOf, EntryAt, EntriesAt, L.PendingAt;
    var tour := TourStarts(b, o, ids, starts, 0);
    SameAddresses(b, o, ids, starts, n, moves, s);
    SameImage(b, o, starts, BeganAt(s.book.log), DeepEnough(tour, o.minDepth));
    TouredIsPending(b, o, ids, starts);
    DeepEntries(b, o, ids, starts, tour, o.minDepth);
    TourOfStarts(b, o, ids, starts, 0);
    assert starts[0..] == starts;
  }

  /** The directory at a is to be listed and its children cannot be read. */
  predicate ListingFails(b: W.Backend, o: W.Options, starts: seq<string>, a: Place) {
    L.IsListed(b, o, starts, a) && b.children(L.PendingAt(b, o, starts, a).value.path).Err?
  }

  /** In terms of the file system: a listing breaks off in pre-order if and only if
      the children of some directory that is to be listed cannot be read. */
  lemma UnbrokenMeansListable(b: W.Backend, o: W.Options, starts: seq<string>)
    ensures Unbroken(WorldOf(b, o, starts)) <==> (o.order.PreOrder? ==> forall a :: !ListingFails(b, o, starts, a))
  {
    hide ListingFails, Reachable, BreaksOff;
    var w := WorldOf(b, o, starts);
    forall a ensures Reachable(w, a) && BreaksOff(w, a) <==> o.order.PreOrder? && ListingFails(b, o, starts, a) {
      ReachableIsPending(b, o, starts, a);
      BreaksOffAt(b, o, starts, a);
    }
    if o.order.PreOrder? && Unbroken(w) {
      forall a ensures !ListingFails(b, o, starts, a) { assert !(Reachable(w, a) && BreaksOff(w, a)); }
    }
  }

  lemma BreaksOffAt(b: W.Backend, o: W.Options, starts: seq<string>, a: Place)
    ensures ListingFails(b, o, starts, a) ==> L.PendingAt(b, o, starts, a).Some?
    ensures L.PendingAt(b, o, starts, a).Some? ==>
      (BreaksOff(WorldOf(b, o, starts), a) <==> o.order.PreOrder? && ListingFails(b, o, starts, a))
  {
    hide L.PendingAt;
    if L.PendingAt(b, o, starts, a).Some? {
      assert WorldOf(b, o, starts).visit(a) == VisitOf(b, o, L.PendingAt(b, o, starts, a).value);
    }
  }

  // ----- A file system on which the two differ -----

  /** One file whose identity cannot be read. */
  const UNREADABLE := W.Backend(
    (path: string) => None,
    (e: W.Entry) => Err("identity"),
    (path: string) => Ok(W.Listing([], [])),
    (e: W.Entry) => Ok(W.Control(true, false)))

  const PLAIN := W.Options(PreOrder, 0, None, false)

  /** The ordered walk reports the file; every parallel run evaluates it. */
  lemma UnreadableIdentityShows(n: nat, moves: seq<E.Move>, s: E.State)
    requires CompletedRun(WorldOf(UNREADABLE, PLAIN, ["f"]), n, moves, s)
    ensures W.Finite(UNREADABLE, {}) && TourStarts(UNREADABLE, PLAIN, {}, ["f"], 0) == []
    ensures [0] in BeganAt(s.book.log)
  {
    var b, o, starts := UNREADABLE, PLAIN, ["f"];
    var w := WorldOf(b, o, starts);
    var p := W.StartPending("f");
    assert L.PendingAt(b, o, starts, [0]) == Some(p);
    assert w.visit([0]) == VisitOf(b, o, p);
    assert Reachable(w, [0]) && Evaluated(w, [0]);
    assert W.Looked(b, o, p).Unseen?;
    assert TourStarts(b, o, {}, starts, 1) == [];
    hide CompletedRun;
    BegunAt(w, n, moves, s, [0]);
  }

  /** Such runs exist. */
  lemma UnreadableIdentityRuns(n: nat) returns (moves: seq<E.Move>, s: E.State)
    requires n > 0
    ensures CompletedRun(WorldOf(UNREADABLE, PLAIN, ["f"]), n, moves, s)
  {
    var w := WorldOf(UNREADABLE, PLAIN, ["f"]);
    forall a: Place ensures Span(w, a) == 0 && !BreaksOff(w, a) {
      var p := L.PendingAt(UNREADABLE, PLAIN, ["f"], a);
      if p.Some? { assert w.visit(a) == VisitOf(UNREADABLE, PLAIN, p.value); }
    }
    hide WorldOf, E.Run, E.Initial;
    NoMoves(w, n);
    moves, s := EngineCompletion.CanBeCompleted(w, 0, n, [], E.Initial(w, n));
  }

  lemma NoMoves(w: World, n: nat)
    ensures E.Run(w, E.Initial(w, n), []) == Some(E.Initial(w, n))
  {
  }
}
