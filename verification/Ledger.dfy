/** Bookkeeping behind the parallel engine.

    Whatever a worker, a queued task or a barrier record is responsible for is
    written as a multiset of items.  The engine only moves items around by the
    few transitions below, and the invariant Inv ties the items to the barrier
    table and to the log of what has been evaluated. */
module Ledger {
  import opened Basics
  import opened Places
  import opened Barriers

  /** The places one notification speaks for: a chunk of siblings or one entry. */
  type Unit = seq<Place>

  datatype Item =
    | Job                              // one counted task
    | Doom                             // a fatal stop that is still to be announced
    | Id(id: BarrierId)                // a barrier id taken and not yet in the table
    | Fresh(at: Place)                 // to be visited
    | Ready(at: Place)                 // visited, to be evaluated
    | Active(at: Place)                // being evaluated
    | Waiting(at: Place)               // a directory held by a barrier record
    | Expand(at: Place, found: nat)    // being listed, found children so far
    | Owe(to: BarrierId, unit: Unit)   // a notification that will be due
    | Pay(to: BarrierId, unit: Unit)   // a notification that is due now

  datatype Event = Began(at: Place) | Ended(at: Place) | Skipped(at: Place) | Reported(at: Place)

  datatype Book = Book(
    table: Table<Place>,
    due: map<BarrierId, set<Unit>>,    // the units each record still waits for
    covers: map<BarrierId, Unit>,      // what a batch record speaks for
    handed: map<Place, nat>,           // children handed out so far
    log: seq<Event>)

  function Begins(log: seq<Event>): multiset<Place> {
    if log == [] then multiset{}
    else
      var e := log[|log| - 1];
      Begins(log[..|log| - 1]) + if e.Began? then multiset{e.at} else multiset{}
  }

  function Ends(log: seq<Event>): multiset<Place> {
    if log == [] then multiset{}
    else
      var e := log[|log| - 1];
      Ends(log[..|log| - 1]) + if e.Ended? then multiset{e.at} else multiset{}
  }

  /** An entry is settled once it is evaluated, passed over for being too
      shallow, or reported as an error. */
  function Settled(log: seq<Event>): multiset<Place> {
    if log == [] then multiset{}
    else
      var e := log[|log| - 1];
      Settled(log[..|log| - 1]) + if e.Began? then multiset{} else multiset{e.at}
  }

  lemma LogAppend(log: seq<Event>, e: Event)
    ensures Begins(log + [e]) == Begins(log) + if e.Began? then multiset{e.at} else multiset{}
    ensures Ends(log + [e]) == Ends(log) + if e.Ended? then multiset{e.at} else multiset{}
    ensures Settled(log + [e]) == Settled(log) + if e.Began? then multiset{} else multiset{e.at}
  {
    assert (log + [e])[..|log|] == log;
  }

  lemma CountsAfter(log: seq<Event>, e: Event)
    ensures Begins(log + [e])[e.at] == Begins(log)[e.at] + if e.Began? then 1 else 0
    ensures Ends(log + [e])[e.at] == Ends(log)[e.at] + if e.Ended? then 1 else 0
    ensures Settled(log + [e])[e.at] == Settled(log)[e.at] + if e.Began? then 0 else 1
  {
    hide Begins, Ends, Settled;
    LogAppend(log, e);
  }

  lemma {:induction false} EventCounts(log: seq<Event>, i: nat)
    requires i < |log|
    ensures Begins(log)[log[i].at] + Settled(log)[log[i].at] > 0
  {
    if i < |log| - 1 {
      EventCounts(log[..|log| - 1], i);
    }
  }

  lemma {:induction false} EndsAreSettled(log: seq<Event>)
    ensures Ends(log) <= Settled(log)
  {
    if log != [] {
      EndsAreSettled(log[..|log| - 1]);
    }
  }

  lemma {:induction false} PrefixSettled(log: seq<Event>, i: nat)
    requires i <= |log|
    ensures Settled(log[..i]) <= Settled(log)
  {
    hide Settled;
    if i == |log| {
      assert log[..i] == log;
    } else {
      var rest := log[..|log| - 1];
      PrefixSettled(rest, i);
      assert rest[..i] == log[..i];
      SettledGrows(log);
    }
  }

  lemma SettledGrows(log: seq<Event>)
    requires log != []
    ensures Settled(log[..|log| - 1]) <= Settled(log)
  {
  }

  // ----- The invariant -----

  ghost predicate AllSettled(log: seq<Event>, unit: Unit) {
    forall c :: c in unit ==> Settled(log)[c] > 0
  }

  ghost predicate KidsSettled(handed: map<Place, nat>, log: seq<Event>, p: Place) {
    forall k: nat :: k < Handed(handed, p) ==> Settled(log)[p + [k]] > 0
  }

  /** Every event at a directory comes after its children were settled. */
  ghost predicate ChildrenFirst(handed: map<Place, nat>, log: seq<Event>) {
    forall i :: 0 <= i < |log| ==> KidsSettled(handed, log[..i], log[i].at)
  }

  /** A record waits for exactly the units somebody still owes it. */
  ghost predicate SlotOk(w: World, bk: Book, t: multiset<Item>, b: BarrierId, u: Unit) {
    && t[Owe(b, u)] + t[Pay(b, u)] == (if b in bk.due && u in bk.due[b] then 1 else 0)
    && (w.order.PostOrder? && t[Pay(b, u)] > 0 ==> AllSettled(bk.log, u))
  }

  ghost predicate Pending(bk: Book, b: BarrierId, c: Place)
    requires b in bk.due
  {
    exists u :: u in bk.due[b] && c in u
  }

  ghost predicate CoverOk(w: World, bk: Book, b: BarrierId)
    requires b in bk.table.records && b in bk.due
  {
    match bk.table.records[b]
    case Directory(p, _, _) =>
      && p in bk.handed && bk.handed[p] == Kids(w, p)
      && forall k: nat :: k < bk.handed[p] ==> Settled(bk.log)[p + [k]] > 0 || Pending(bk, b, p + [k])
    case Batch(_, _) =>
      b in bk.covers && forall c :: c in bk.covers[b] ==> Settled(bk.log)[c] > 0 || Pending(bk, b, c)
  }

  ghost predicate BarrierOk(w: World, bk: Book, t: multiset<Item>, b: BarrierId) {
    && (b in bk.table.records <==> b in bk.due)
    && (t[Id(b)] > 0 ==> t[Id(b)] == 1 && b < bk.table.nextId && b !in bk.due)
    && (b in bk.table.records ==>
          var r := bk.table.records[b];
          && b < bk.table.nextId
          && r.remaining == |bk.due[b]| > 0
          && (r.Directory? && r.notify.Some? ==> r.notify.value < b)
          && (r.Batch? ==> r.parent < b)
          && (w.order.PostOrder? ==> CoverOk(w, bk, b)))
  }

  function Whereabouts(bk: Book, t: multiset<Item>, p: Place): nat {
    t[Fresh(p)] + t[Ready(p)] + t[Active(p)] + t[Waiting(p)] + Settled(bk.log)[p]
  }

  /** Only what has to be evaluated is, and nothing that has to be is passed over. */
  ghost predicate Judged(w: World, bk: Book, t: multiset<Item>, p: Place) {
    && (t[Ready(p)] + t[Active(p)] + t[Waiting(p)] > 0 ==> Evaluable(w, p))
    && (Begins(bk.log)[p] > 0 ==> Evaluated(w, p))
    && (Settled(bk.log)[p] > Ends(bk.log)[p] ==> !Evaluated(w, p))
  }

  /** Every place that has come into being is in exactly one hand or settled. */
  ghost predicate PlaceOk(w: World, bk: Book, t: multiset<Item>, p: Place) {
    && Whereabouts(bk, t, p) == (if Born(w, bk.handed, p) then 1 else 0)
    && Begins(bk.log)[p] == t[Active(p)] + Ends(bk.log)[p]
    && (p in bk.handed ==>
          && Born(w, bk.handed, p)
          && bk.handed[p] <= Span(w, p)
          && t[Fresh(p)] == 0
          && (w.order.PostOrder? ==> bk.handed[p] == Kids(w, p))
          && (w.order.PreOrder? ==> Settled(bk.log)[p] > 0))
    && (Settled(bk.log)[p] > 0 ==>
          (Handed(bk.handed, p) == Kids(w, p) && !BreaksOff(w, p)) || t[Expand(p, Handed(bk.handed, p))] > 0)
    && (w.order.PostOrder? && t[Ready(p)] + t[Active(p)] > 0 ==>
          Handed(bk.handed, p) == Kids(w, p) && KidsSettled(bk.handed, bk.log, p))
    && Judged(w, bk, t, p)
  }

  ghost predicate ExpandOk(w: World, bk: Book, t: multiset<Item>, p: Place, k: nat) {
    t[Expand(p, k)] > 0 ==>
      && w.order.PreOrder?
      && t[Expand(p, k)] == 1
      && Settled(bk.log)[p] > 0
      && Handed(bk.handed, p) == k
  }

  ghost predicate Inv(w: World, bk: Book, t: multiset<Item>) {
    && (forall b: BarrierId, u: Unit :: SlotOk(w, bk, t, b, u))
    && (forall b: BarrierId :: BarrierOk(w, bk, t, b))
    && (forall p: Place :: PlaceOk(w, bk, t, p))
    && (forall p: Place, k: nat :: ExpandOk(w, bk, t, p, k))
    && (w.order.PostOrder? ==> ChildrenFirst(bk.handed, bk.log))
  }

  // ----- Bundles of items -----

  function UnitSet(units: seq<Unit>): set<Unit> {
    set u | u in units
  }

  function FreshAll(ps: seq<Place>): multiset<Item> {
    if ps == [] then multiset{} else FreshAll(ps[..|ps| - 1]) + multiset{Fresh(ps[|ps| - 1])}
  }

  function FreshUnits(units: seq<Unit>): multiset<Item> {
    if units == [] then multiset{} else FreshUnits(units[..|units| - 1]) + FreshAll(units[|units| - 1])
  }

  function OweAll(b: BarrierId, units: seq<Unit>): multiset<Item> {
    if units == [] then multiset{} else OweAll(b, units[..|units| - 1]) + multiset{Owe(b, units[|units| - 1])}
  }

  lemma {:induction false} FreshAllCounts(ps: seq<Place>, x: Item)
    ensures FreshAll(ps)[x] == if x.Fresh? then multiset(ps)[x.at] else 0
  {
    if ps != [] {
      FreshAllCounts(ps[..|ps| - 1], x);
      assert ps == ps[..|ps| - 1] + [ps[|ps| - 1]];
    }
  }

  lemma {:induction false} OweAllCounts(b: BarrierId, units: seq<Unit>, x: Item)
    ensures OweAll(b, units)[x] == if x.Owe? && x.to == b then multiset(units)[x.unit] else 0
  {
    if units != [] {
      OweAllCounts(b, units[..|units| - 1], x);
      assert units == units[..|units| - 1] + [units[|units| - 1]];
    }
  }

  ghost predicate Mentioned(units: seq<Unit>, c: Place) {
    exists i :: 0 <= i < |units| && c in units[i]
  }

  lemma {:induction false} FreshUnitsCounts(units: seq<Unit>, c: Place)
    ensures FreshUnits(units)[Fresh(c)] > 0 <==> Mentioned(units, c)
  {
    if units != [] {
      var n := |units| - 1;
      FreshUnitsCounts(units[..n], c);
      FreshAllCounts(units[n], Fresh(c));
      if Mentioned(units, c) && c !in units[n] {
        var i :| 0 <= i < |units| && c in units[i];
        assert units[..n][i] == units[i];
      }
      if Mentioned(units[..n], c) {
        var i :| 0 <= i < n && c in units[..n][i];
        assert c in units[i];
      }
    }
  }

  /** Nonempty units with no place in common are different. */
  lemma FreshUnit(units: seq<Unit>, last: Unit)
    requires last != []
    requires FreshUnits(units)[Fresh(last[0])] + FreshAll(last)[Fresh(last[0])] <= 1
    ensures last !in units
  {
    hide FreshUnits, FreshAll;
    if last in units {
      var i :| 0 <= i < |units| && units[i] == last;
      assert last[0] in units[i];
      FreshUnitsCounts(units, last[0]);
      FreshAllCounts(last, Fresh(last[0]));
      assert false;
    }
  }

  lemma {:induction false} UnitsDiffer(units: seq<Unit>)
    requires forall i :: 0 <= i < |units| ==> units[i] != []
    requires forall c: Place :: FreshUnits(units)[Fresh(c)] <= 1
    ensures forall u :: multiset(units)[u] <= 1
    ensures |UnitSet(units)| == |units|
  {
    if units != [] {
      hide FreshAll;
      var n := |units| - 1;
      var rest, last := units[..n], units[n];
      assert units == rest + [last];
      UnitsDiffer(rest);
      FreshUnit(rest, last);
      assert UnitSet(units) == UnitSet(rest) + {last};
    }
  }

  predicate IsChild(p: Place, n: nat, c: Place) {
    |c| == |p| + 1 && c[..|p|] == p && c[|p|] < n
  }

  lemma ChildStep(p: Place, n: nat, c: Place)
    requires n > 0
    ensures IsChild(p, n, c) <==> IsChild(p, n - 1, c) || c == p + [n - 1]
    ensures !IsChild(p, n - 1, p + [n - 1])
  {
    if IsChild(p, n, c) { assert c == p + [c[|p|]]; }
  }

  lemma ChildrenPush(p: Place, n: nat)
    ensures Children(p, n) == if n == 0 then [] else Children(p, n - 1) + [p + [n - 1]]
  {
  }

  lemma NoChild(p: Place, c: Place)
    ensures !IsChild(p, 0, c)
  {
  }

  lemma {:induction false} ChildrenDiffer(p: Place, n: nat, c: Place)
    ensures multiset(Children(p, n))[c] == if IsChild(p, n, c) then 1 else 0
  {
    hide IsChild, Children;
    ChildrenPush(p, n);
    if n > 0 {
      ChildrenDiffer(p, n - 1, c);
      ChildStep(p, n, c);
      CountPush(Children(p, n - 1), p + [n - 1], c);
    } else {
      NoChild(p, c);
    }
  }

  // ----- Transitions -----

  /** The items of a go and those of c come. */
  ghost predicate TradedAt(t: multiset<Item>, t': multiset<Item>, a: multiset<Item>, c: multiset<Item>, x: Item) {
    t'[x] + a[x] == t[x] + c[x]
  }

  ghost predicate Traded(t: multiset<Item>, t': multiset<Item>, a: multiset<Item>, c: multiset<Item>) {
    forall x: Item :: TradedAt(t, t', a, c, x)
  }

  lemma TradeIs(t: multiset<Item>, t': multiset<Item>, a: multiset<Item>, c: multiset<Item>)
    requires Traded(t, t', a, c) && a <= t
    ensures t' == t - a + c
  {
    forall x: Item ensures t'[x] == (t - a + c)[x] { assert TradedAt(t, t', a, c, x); }
  }

  lemma SlotsAfterTrade(t: multiset<Item>, t': multiset<Item>, a: multiset<Item>, c: multiset<Item>, b: BarrierId, u: Unit)
    requires Traded(t, t', a, c)
    ensures t'[Owe(b, u)] + a[Owe(b, u)] == t[Owe(b, u)] + c[Owe(b, u)]
    ensures t'[Pay(b, u)] + a[Pay(b, u)] == t[Pay(b, u)] + c[Pay(b, u)]
    ensures t'[Id(b)] + a[Id(b)] == t[Id(b)] + c[Id(b)]
  {
    assert TradedAt(t, t', a, c, Owe(b, u)) && TradedAt(t, t', a, c, Pay(b, u)) && TradedAt(t, t', a, c, Id(b));
  }

  lemma PlaceAfterTrade(t: multiset<Item>, t': multiset<Item>, a: multiset<Item>, c: multiset<Item>, p: Place, k: nat)
    requires Traded(t, t', a, c)
    ensures t'[Fresh(p)] + a[Fresh(p)] == t[Fresh(p)] + c[Fresh(p)]
    ensures t'[Ready(p)] + a[Ready(p)] == t[Ready(p)] + c[Ready(p)]
    ensures t'[Active(p)] + a[Active(p)] == t[Active(p)] + c[Active(p)]
    ensures t'[Waiting(p)] + a[Waiting(p)] == t[Waiting(p)] + c[Waiting(p)]
    ensures t'[Expand(p, k)] + a[Expand(p, k)] == t[Expand(p, k)] + c[Expand(p, k)]
  {
    assert TradedAt(t, t', a, c, Fresh(p)) && TradedAt(t, t', a, c, Ready(p));
    assert TradedAt(t, t', a, c, Active(p)) && TradedAt(t, t', a, c, Waiting(p));
    assert TradedAt(t, t', a, c, Expand(p, k));
  }

  function Log(bk: Book, e: Event): Book {
    bk.(log := bk.log + [e])
  }

  lemma JobsAreFree(w: World, bk: Book, t: multiset<Item>, t': multiset<Item>)
    requires Inv(w, bk, t)
    requires forall x: Item :: x != Job && x != Doom ==> t'[x] == t[x]
    ensures Inv(w, bk, t')
  {
    forall b: BarrierId, u: Unit ensures SlotOk(w, bk, t', b, u) { assert SlotOk(w, bk, t, b, u); }
    forall b: BarrierId ensures BarrierOk(w, bk, t', b) { assert BarrierOk(w, bk, t, b); }
    forall p: Place ensures PlaceOk(w, bk, t', p) { assert PlaceOk(w, bk, t, p); }
    forall p: Place, k: nat ensures ExpandOk(w, bk, t', p, k) { assert ExpandOk(w, bk, t, p, k); }
  }

  /** An event at p that is not yet settled, in post-order: its children are. */
  lemma AppendKeepsChildrenFirst(handed: map<Place, nat>, log: seq<Event>, e: Event)
    requires ChildrenFirst(handed, log) && KidsSettled(handed, log, e.at)
    ensures ChildrenFirst(handed, log + [e])
  {
    var log' := log + [e];
    forall i | 0 <= i < |log'| ensures KidsSettled(handed, log'[..i], log'[i].at) {
      if i < |log| {
        assert log'[..i] == log[..i] && log'[i] == log[i];
      } else {
        assert log'[..i] == log;
      }
    }
  }

  /** More settled places never hurt the barriers. */
  lemma CoverGrows(w: World, bk: Book, bk': Book, b: BarrierId)
    requires bk'.table == bk.table && bk'.due == bk.due && bk'.covers == bk.covers && bk'.handed == bk.handed
    requires Settled(bk.log) <= Settled(bk'.log)
    requires b in bk.table.records && b in bk.due && CoverOk(w, bk, b)
    ensures CoverOk(w, bk', b)
  {
    forall c ensures Pending(bk', b, c) == Pending(bk, b, c) {}
  }

  /** The items of barriers and of places other than p are as before. */
  ghost predicate OnlyPlace(t: multiset<Item>, t': multiset<Item>, p: Place) {
    && SameTokens(t, t')
    && (forall q: Place :: q != p ==> SamePlace(t, t', q))
  }

  ghost predicate SameTokens(t: multiset<Item>, t': multiset<Item>) {
    && (forall b: BarrierId, u: Unit :: t'[Owe(b, u)] == t[Owe(b, u)] && t'[Pay(b, u)] == t[Pay(b, u)])
    && (forall b: BarrierId :: t'[Id(b)] == t[Id(b)])
  }

  ghost predicate SamePlace(t: multiset<Item>, t': multiset<Item>, q: Place) {
    && t'[Fresh(q)] == t[Fresh(q)] && t'[Ready(q)] == t[Ready(q)]
    && t'[Active(q)] == t[Active(q)] && t'[Waiting(q)] == t[Waiting(q)]
    && forall k: nat :: t'[Expand(q, k)] == t[Expand(q, k)]
  }

  lemma OtherPlaceAfterEvent(w: World, bk: Book, t: multiset<Item>, t': multiset<Item>, e: Event, p: Place)
    requires PlaceOk(w, bk, t, p) && SamePlace(t, t', p) && p != e.at
    ensures PlaceOk(w, Log(bk, e), t', p)
  {
    LogAppend(bk.log, e);
  }

  lemma OtherExpandAfterEvent(w: World, bk: Book, t: multiset<Item>, t': multiset<Item>, e: Event, p: Place, k: nat)
    requires ExpandOk(w, bk, t, p, k) && SamePlace(t, t', p) && p != e.at
    ensures ExpandOk(w, Log(bk, e), t', p, k)
  {
    LogAppend(bk.log, e);
  }

  lemma TokensAfterEvent(w: World, bk: Book, t: multiset<Item>, t': multiset<Item>, e: Event, b: BarrierId)
    requires BarrierOk(w, bk, t, b) && SameTokens(t, t')
    ensures BarrierOk(w, Log(bk, e), t', b)
  {
    LogAppend(bk.log, e);
    if b in bk.due && w.order.PostOrder? { CoverGrows(w, bk, Log(bk, e), b); }
  }

  /** One event, with the items of its place moved along: what is left to show
      concerns that place alone. */
  lemma EventStep(w: World, bk: Book, t: multiset<Item>, t': multiset<Item>, e: Event)
    requires Inv(w, bk, t) && OnlyPlace(t, t', e.at)
    requires LocalOk(w, Log(bk, e), t', e.at)
    requires w.order.PostOrder? ==> KidsSettled(bk.handed, bk.log, e.at)
    ensures Inv(w, Log(bk, e), t')
  {
    var bk' := Log(bk, e);
    forall b: BarrierId, u: Unit ensures SlotOk(w, bk', t', b, u) {
      assert SlotOk(w, bk, t, b, u);
      LogAppend(bk.log, e);
    }
    forall b: BarrierId ensures BarrierOk(w, bk', t', b) {
      TokensAfterEvent(w, bk, t, t', e, b);
    }
    forall p: Place ensures PlaceOk(w, bk', t', p) {
      if p != e.at { OtherPlaceAfterEvent(w, bk, t, t', e, p); }
    }
    forall p: Place, k: nat ensures ExpandOk(w, bk', t', p, k) {
      if p != e.at { OtherExpandAfterEvent(w, bk, t, t', e, p, k); }
    }
    if w.order.PostOrder? { AppendKeepsChildrenFirst(bk.handed, bk.log, e); }
  }

  ghost predicate LocalOk(w: World, bk: Book, t: multiset<Item>, p: Place) {
    PlaceOk(w, bk, t, p) && forall k: nat :: ExpandOk(w, bk, t, p, k)
  }

  lemma At(w: World, bk: Book, t: multiset<Item>, p: Place)
    requires Inv(w, bk, t)
    ensures LocalOk(w, bk, t, p)
  {
  }

  predicate Concerns(x: Item, p: Place) {
    match x
    case Fresh(q) => q == p
    case Ready(q) => q == p
    case Active(q) => q == p
    case Waiting(q) => q == p
    case Expand(q, _) => q == p
    case _ => false
  }

  /** Trading items about p leaves everything else alone. */
  lemma TradedAtPlace(t: multiset<Item>, t': multiset<Item>, a: multiset<Item>, c: multiset<Item>, p: Place)
    requires Traded(t, t', a, c)
    requires forall x :: x in a || x in c ==> Concerns(x, p)
    ensures OnlyPlace(t, t', p)
  {
    forall b: BarrierId, u: Unit ensures t'[Owe(b, u)] == t[Owe(b, u)] && t'[Pay(b, u)] == t[Pay(b, u)] {
      SlotsAfterTrade(t, t', a, c, b, u);
    }
    forall b: BarrierId ensures t'[Id(b)] == t[Id(b)] { SlotsAfterTrade(t, t', a, c, b, []); }
    forall q: Place | q != p ensures SamePlace(t, t', q) {
      forall k: nat ensures t'[Expand(q, k)] == t[Expand(q, k)] { PlaceAfterTrade(t, t', a, c, q, k); }
      PlaceAfterTrade(t, t', a, c, q, 0);
    }
  }

  /** Nothing but the items of p changes. */
  lemma LocalStep(w: World, bk: Book, t: multiset<Item>, t': multiset<Item>, p: Place)
    requires Inv(w, bk, t) && OnlyPlace(t, t', p)
    requires LocalOk(w, bk, t', p)
    ensures Inv(w, bk, t')
  {
    forall b: BarrierId, u: Unit ensures SlotOk(w, bk, t', b, u) { assert SlotOk(w, bk, t, b, u); }
    forall b: BarrierId ensures BarrierOk(w, bk, t', b) { assert BarrierOk(w, bk, t, b); }
    forall q: Place ensures PlaceOk(w, bk, t', q) {
      if q != p { assert PlaceOk(w, bk, t, q) && SamePlace(t, t', q); }
    }
    forall q: Place, k: nat ensures ExpandOk(w, bk, t', q, k) {
      if q != p { assert ExpandOk(w, bk, t, q, k) && SamePlace(t, t', q); }
    }
  }

  // ----- Visiting and evaluating one place -----

  lemma ReportAt(w: World, bk: Book, t: multiset<Item>, t': multiset<Item>, p: Place)
    requires LocalOk(w, bk, t, p) && t[Fresh(p)] > 0 && !Evaluable(w, p)
    requires Kids(w, p) == 0
    requires Traded(t, t', multiset{Fresh(p)}, multiset{})
    ensures LocalOk(w, Log(bk, Reported(p)), t', p)
    ensures KidsSettled(bk.handed, bk.log, p)
  {
    hide Begins, Ends, Settled, Traded, Born;
    CountsAfter(bk.log, Reported(p));
    forall k: nat ensures ExpandOk(w, Log(bk, Reported(p)), t', p, k) {
      assert ExpandOk(w, bk, t, p, k);
      PlaceAfterTrade(t, t', multiset{Fresh(p)}, multiset{}, p, k);
    }
    PlaceAfterTrade(t, t', multiset{Fresh(p)}, multiset{}, p, 0);
  }

  /** Loading the entry or deciding about it failed. */
  lemma ReportStep(w: World, bk: Book, t: multiset<Item>, t': multiset<Item>, p: Place)
    requires Inv(w, bk, t) && t[Fresh(p)] > 0 && !Evaluable(w, p)
    requires Kids(w, p) == 0
    requires Traded(t, t', multiset{Fresh(p)}, multiset{})
    ensures Inv(w, Log(bk, Reported(p)), t')
  {
    hide PlaceOk, ExpandOk, SlotOk, BarrierOk, Traded;
    At(w, bk, t, p);
    ReportAt(w, bk, t, t', p);
    TradedAtPlace(t, t', multiset{Fresh(p)}, multiset{}, p);
    EventStep(w, bk, t, t', Reported(p));
  }

  /** Where an entry waits for its evaluation: in post-order after its
      children, in pre-order as soon as it is taken up. */
  function Before(w: World, p: Place): Item {
    if w.order.PostOrder? then Ready(p) else Fresh(p)
  }

  /** What is left of an entry once it is settled. */
  function After(w: World, p: Place): multiset<Item> {
    if w.order.PostOrder? then multiset{} else multiset{Expand(p, 0)}
  }

  lemma BeginAt(w: World, bk: Book, t: multiset<Item>, t': multiset<Item>, p: Place)
    requires LocalOk(w, bk, t, p) && t[Before(w, p)] > 0 && Evaluated(w, p)
    requires Traded(t, t', multiset{Before(w, p)}, multiset{Active(p)})
    ensures LocalOk(w, Log(bk, Began(p)), t', p)
    ensures KidsSettled(bk.handed, bk.log, p)
  {
    var a, c := multiset{Before(w, p)}, multiset{Active(p)};
    hide Begins, Ends, Settled, Traded, Born;
    CountsAfter(bk.log, Began(p));
    LogAppend(bk.log, Began(p));
    forall k: nat ensures ExpandOk(w, Log(bk, Began(p)), t', p, k) {
      assert ExpandOk(w, bk, t, p, k);
      PlaceAfterTrade(t, t', a, c, p, k);
    }
    PlaceAfterTrade(t, t', a, c, p, Handed(bk.handed, p));
  }

  lemma ReadyIsEvaluable(w: World, bk: Book, t: multiset<Item>, p: Place)
    requires Inv(w, bk, t) && t[Ready(p)] > 0
    ensures Evaluable(w, p)
  {
    assert PlaceOk(w, bk, t, p);
  }

  /** The evaluation of p starts. */
  lemma BeginStep(w: World, bk: Book, t: multiset<Item>, t': multiset<Item>, p: Place)
    requires Inv(w, bk, t) && t[Before(w, p)] > 0 && Evaluated(w, p)
    requires Traded(t, t', multiset{Before(w, p)}, multiset{Active(p)})
    ensures Inv(w, Log(bk, Began(p)), t')
  {
    hide PlaceOk, ExpandOk, SlotOk, BarrierOk, Traded;
    At(w, bk, t, p);
    BeginAt(w, bk, t, t', p);
    TradedAtPlace(t, t', multiset{Before(w, p)}, multiset{Active(p)}, p);
    EventStep(w, bk, t, t', Began(p));
  }

  lemma ExpandsAfterSettling(w: World, bk: Book, t: multiset<Item>, t': multiset<Item>, x: Item, e: Event, k: nat)
    requires LocalOk(w, bk, t, e.at) && t[x] > 0
    requires (e.Ended? && x == Active(e.at)) || (e.Skipped? && x == Before(w, e.at) && Depth(e.at) < w.minDepth)
    requires Traded(t, t', multiset{x}, After(w, e.at))
    ensures ExpandOk(w, Log(bk, e), t', e.at, k)
  {
    hide Begins, Ends, Settled, Traded, Born, KidsSettled, Judged;
    CountsAfter(bk.log, e);
    assert ExpandOk(w, bk, t, e.at, k);
    PlaceAfterTrade(t, t', multiset{x}, After(w, e.at), e.at, k);
  }

  lemma SettleAt(w: World, bk: Book, t: multiset<Item>, t': multiset<Item>, x: Item, e: Event)
    requires LocalOk(w, bk, t, e.at) && t[x] > 0
    requires (e.Ended? && x == Active(e.at)) || (e.Skipped? && x == Before(w, e.at) && Depth(e.at) < w.minDepth)
    requires Traded(t, t', multiset{x}, After(w, e.at))
    ensures PlaceOk(w, Log(bk, e), t', e.at)
    ensures KidsSettled(bk.handed, bk.log, e.at) || w.order.PreOrder?
  {
    hide Begins, Ends, Settled, Traded, ExpandOk, Born;
    CountsAfter(bk.log, e);
    PlaceAfterTrade(t, t', multiset{x}, After(w, e.at), e.at, Handed(bk.handed, e.at));
    if w.order.PreOrder? { assert e.at !in bk.handed; }
  }

  /** The evaluation of an entry ends, or the entry is too shallow for one. */
  lemma SettleStep(w: World, bk: Book, t: multiset<Item>, t': multiset<Item>, x: Item, e: Event)
    requires Inv(w, bk, t) && t[x] > 0
    requires (e.Ended? && x == Active(e.at)) || (e.Skipped? && x == Before(w, e.at) && Depth(e.at) < w.minDepth)
    requires Traded(t, t', multiset{x}, After(w, e.at))
    ensures Inv(w, Log(bk, e), t')
  {
    hide PlaceOk, ExpandOk, SlotOk, BarrierOk, Traded;
    At(w, bk, t, e.at);
    SettleAt(w, bk, t, t', x, e);
    forall k: nat ensures ExpandOk(w, Log(bk, e), t', e.at, k) { ExpandsAfterSettling(w, bk, t, t', x, e, k); }
    TradedAtPlace(t, t', multiset{x}, After(w, e.at), e.at);
    EventStep(w, bk, t, t', e);
  }

  lemma ReadyAt(w: World, bk: Book, t: multiset<Item>, t': multiset<Item>, p: Place)
    requires LocalOk(w, bk, t, p) && t[Fresh(p)] > 0 && Kids(w, p) == 0 && Evaluable(w, p)
    requires Traded(t, t', multiset{Fresh(p)}, multiset{Ready(p)})
    ensures LocalOk(w, bk, t', p)
  {
    forall k: nat ensures ExpandOk(w, bk, t', p, k) {
      assert ExpandOk(w, bk, t, p, k);
      PlaceAfterTrade(t, t', multiset{Fresh(p)}, multiset{Ready(p)}, p, k);
    }
    PlaceAfterTrade(t, t', multiset{Fresh(p)}, multiset{Ready(p)}, p, Handed(bk.handed, p));
  }

  /** Post-order: an entry that hands out no children is ready at once. */
  lemma ReadyStep(w: World, bk: Book, t: multiset<Item>, t': multiset<Item>, p: Place)
    requires Inv(w, bk, t) && t[Fresh(p)] > 0
    requires Kids(w, p) == 0 && Evaluable(w, p)
    requires Traded(t, t', multiset{Fresh(p)}, multiset{Ready(p)})
    ensures Inv(w, bk, t')
  {
    hide PlaceOk, ExpandOk, SlotOk, BarrierOk, Traded;
    At(w, bk, t, p);
    ReadyAt(w, bk, t, t', p);
    TradedAtPlace(t, t', multiset{Fresh(p)}, multiset{Ready(p)}, p);
    LocalStep(w, bk, t, t', p);
  }

  // ----- Pre-order listing -----

  /** All children have been handed out. */
  lemma ListedAt(w: World, bk: Book, t: multiset<Item>, t': multiset<Item>, p: Place, k: nat)
    requires LocalOk(w, bk, t, p) && t[Expand(p, k)] > 0 && Kids(w, p) == k && !BreaksOff(w, p)
    requires Traded(t, t', multiset{Expand(p, k)}, multiset{})
    ensures LocalOk(w, bk, t', p)
  {
    assert ExpandOk(w, bk, t, p, k);
    forall j: nat ensures ExpandOk(w, bk, t', p, j) {
      assert ExpandOk(w, bk, t, p, j);
      PlaceAfterTrade(t, t', multiset{Expand(p, k)}, multiset{}, p, j);
    }
    PlaceAfterTrade(t, t', multiset{Expand(p, k)}, multiset{}, p, k);
  }

  lemma ListedStep(w: World, bk: Book, t: multiset<Item>, t': multiset<Item>, p: Place, k: nat)
    requires Inv(w, bk, t) && t[Expand(p, k)] > 0
    requires Kids(w, p) == k && !BreaksOff(w, p)
    requires Traded(t, t', multiset{Expand(p, k)}, multiset{})
    ensures Inv(w, bk, t')
  {
    hide PlaceOk, ExpandOk, SlotOk, BarrierOk, Traded;
    At(w, bk, t, p);
    ListedAt(w, bk, t, t', p, k);
    TradedAtPlace(t, t', multiset{Expand(p, k)}, multiset{}, p);
    LocalStep(w, bk, t, t', p);
  }

  /** p hands out its child number k. */
  function HandOut(bk: Book, p: Place, n: nat): Book {
    bk.(handed := bk.handed[p := n])
  }

  lemma BornAfter(w: World, handed: map<Place, nat>, p: Place, n: nat, q: Place)
    requires Handed(handed, p) <= n
    ensures Born(w, handed[p := n], q) <==>
            Born(w, handed, q) || exists k: nat :: Handed(handed, p) <= k < n && |p| > 0 && q == p + [k]
  {
    if |q| > 1 && q[..|q| - 1] == p {
      assert q == p + [q[|q| - 1]];
    }
    forall k: nat | Handed(handed, p) <= k < n && |p| > 0 && q == p + [k] ensures Born(w, handed[p := n], q) {
      ChildOf(p, k);
    }
  }

  /** A place other than p and its new children is as it was. */
  lemma PlaceAfterHandOut(w: World, bk: Book, t: multiset<Item>, t': multiset<Item>, p: Place, n: nat, q: Place)
    requires PlaceOk(w, bk, t, q) && SamePlace(t, t', q)
    requires Handed(bk.handed, p) <= n && q != p
    requires forall k: nat :: Handed(bk.handed, p) <= k < n ==> q != p + [k]
    ensures PlaceOk(w, HandOut(bk, p, n), t', q)
  {
    BornAfter(w, bk.handed, p, n, q);
  }

  lemma NewChild(w: World, bk: Book, t: multiset<Item>, t': multiset<Item>, p: Place, n: nat, k: nat)
    requires |p| > 0
    requires Handed(bk.handed, p) <= k < n
    requires PlaceOk(w, bk, t, p + [k])
    requires t'[Fresh(p + [k])] == t[Fresh(p + [k])] + 1
    requires forall x :: Concerns(x, p + [k]) && !x.Fresh? ==> t'[x] == t[x]
    ensures PlaceOk(w, HandOut(bk, p, n), t', p + [k])
  {
    var c := p + [k];
    ChildOf(p, k);
    assert !Born(w, bk.handed, c);
    BornAfter(w, bk.handed, p, n, c);
  }

  /** Between t and t' the listing of p went one child further. */
  ghost predicate OneMoreChild(t: multiset<Item>, t': multiset<Item>, p: Place, k: nat) {
    var more := k + 1;
    && SameTokens(t, t')
    && (forall q: Place :: q != p && q != p + [k] ==> SamePlace(t, t', q))
    && t'[Expand(p, k)] + 1 == t[Expand(p, k)] && t'[Expand(p, more)] == t[Expand(p, more)] + 1
    && (forall x :: Concerns(x, p) && x != Expand(p, k) && x != Expand(p, more) ==> t'[x] == t[x])
    && t'[Fresh(p + [k])] == t[Fresh(p + [k])] + 1
    && (forall x :: Concerns(x, p + [k]) && !x.Fresh? ==> t'[x] == t[x])
  }

  lemma HandOutCounts(t: multiset<Item>, t': multiset<Item>, p: Place, k: nat)
    requires t[Expand(p, k)] > 0
    requires Traded(t, t', multiset{Expand(p, k)}, multiset{Expand(p, k + 1), Fresh(p + [k])})
    ensures OneMoreChild(t, t', p, k)
  {
    TradeIs(t, t', multiset{Expand(p, k)}, multiset{Expand(p, k + 1), Fresh(p + [k])});
    assert p + [k] != p by { ChildOf(p, k); }
  }

  lemma HandOutAt(w: World, bk: Book, t: multiset<Item>, t': multiset<Item>, p: Place, k: nat)
    requires LocalOk(w, bk, t, p) && t[Expand(p, k)] > 0 && OneMoreChild(t, t', p, k) && k < Span(w, p)
    ensures LocalOk(w, HandOut(bk, p, k + 1), t', p)
  {
    var bk' := HandOut(bk, p, k + 1);
    assert ExpandOk(w, bk, t, p, k);
    BornAfter(w, bk.handed, p, k + 1, p);
    assert forall j: nat :: |p + [j]| != |p|;
    forall j: nat ensures ExpandOk(w, bk', t', p, j) {
      assert ExpandOk(w, bk, t, p, j);
    }
  }

  lemma PlacesAfterHandOut(w: World, bk: Book, t: multiset<Item>, t': multiset<Item>, p: Place, k: nat, q: Place)
    requires PlaceOk(w, bk, t, q) && OneMoreChild(t, t', p, k)
    requires q != p && |p| > 0 && Handed(bk.handed, p) == k
    ensures PlaceOk(w, HandOut(bk, p, k + 1), t', q)
  {
    if q == p + [k] { NewChild(w, bk, t, t', p, k + 1, k); }
    else { PlaceAfterHandOut(w, bk, t, t', p, k + 1, q); }
  }

  lemma ExpandsAfterHandOut(w: World, bk: Book, t: multiset<Item>, t': multiset<Item>, p: Place, k: nat, q: Place, j: nat)
    requires ExpandOk(w, bk, t, q, j) && OneMoreChild(t, t', p, k) && q != p
    ensures ExpandOk(w, HandOut(bk, p, k + 1), t', q, j)
  {
    assert t'[Expand(q, j)] == t[Expand(q, j)] by {
      if q != p + [k] { assert SamePlace(t, t', q); }
    }
  }

  /** Barriers do not notice children handed out in pre-order. */
  lemma TokensAfterHandOut(w: World, bk: Book, bk': Book, t: multiset<Item>, t': multiset<Item>)
    requires Inv(w, bk, t) && SameTokens(t, t') && w.order.PreOrder?
    requires bk' == bk.(handed := bk'.handed)
    ensures forall b: BarrierId, u: Unit :: SlotOk(w, bk', t', b, u)
    ensures forall b: BarrierId :: BarrierOk(w, bk', t', b)
  {
    forall b: BarrierId, u: Unit ensures SlotOk(w, bk', t', b, u) { assert SlotOk(w, bk, t, b, u); }
    forall b: BarrierId ensures BarrierOk(w, bk', t', b) { assert BarrierOk(w, bk, t, b); }
  }

  /** Pre-order: the listing of p turns up its next child. */
  lemma HandOutStep(w: World, bk: Book, t: multiset<Item>, t': multiset<Item>, p: Place, k: nat)
    requires Inv(w, bk, t) && t[Expand(p, k)] > 0 && OneMoreChild(t, t', p, k) && k < Span(w, p)
    ensures Inv(w, HandOut(bk, p, k + 1), t')
  {
    var bk' := HandOut(bk, p, k + 1);
    At(w, bk, t, p);
    assert ExpandOk(w, bk, t, p, k);
    HandOutAt(w, bk, t, t', p, k);
    TokensAfterHandOut(w, bk, bk', t, t');
    forall q: Place ensures PlaceOk(w, bk', t', q) {
      if q != p { PlacesAfterHandOut(w, bk, t, t', p, k, q); }
    }
    forall q: Place, j: nat ensures ExpandOk(w, bk', t', q, j) {
      if q != p { ExpandsAfterHandOut(w, bk, t, t', p, k, q, j); }
    }
  }

  // ----- Barriers -----

  /** A worker takes a barrier id. */
  lemma ReserveStep(w: World, bk: Book, t: multiset<Item>, t': multiset<Item>)
    requires Inv(w, bk, t)
    requires Traded(t, t', multiset{}, multiset{Id(bk.table.nextId)})
    ensures Inv(w, bk.(table := Reserve(bk.table)), t')
  {
    TradeIs(t, t', multiset{}, multiset{Id(bk.table.nextId)});
    var bk' := bk.(table := Reserve(bk.table));
    forall b: BarrierId, u: Unit ensures SlotOk(w, bk', t', b, u) { assert SlotOk(w, bk, t, b, u); }
    forall b: BarrierId ensures BarrierOk(w, bk', t', b) {
      assert BarrierOk(w, bk, t, b);
      if b in bk.due && w.order.PostOrder? { SameCover(w, bk, bk', b); }
    }
    forall p: Place ensures PlaceOk(w, bk', t', p) { assert PlaceOk(w, bk, t, p); }
    forall p: Place, k: nat ensures ExpandOk(w, bk', t', p, k) { assert ExpandOk(w, bk, t, p, k); }
  }

  /** A record keeps its cover when it, its units, and the log stay. */
  lemma SameCover(w: World, bk: Book, bk': Book, b: BarrierId)
    requires b in bk.table.records && b in bk.due && CoverOk(w, bk, b)
    requires b in bk'.table.records && bk'.table.records[b] == bk.table.records[b]
    requires b in bk'.due && bk'.due[b] == bk.due[b]
    requires b in bk.covers ==> b in bk'.covers && bk'.covers[b] == bk.covers[b]
    requires forall p :: p in bk.handed ==> p in bk'.handed && bk'.handed[p] == bk.handed[p]
    requires bk'.log == bk.log
    ensures CoverOk(w, bk', b)
  {
    forall c ensures Pending(bk', b, c) == Pending(bk, b, c) {}
  }

  // Opening a directory.

  function OpenDirectory(bk: Book, p: Place, n: nat, b: BarrierId, units: seq<Unit>, notify: Option<BarrierId>): Book {
    bk.(table := Insert(bk.table, b, Directory(p, |units|, notify)),
        due := bk.due[b := UnitSet(units)],
        handed := bk.handed[p := n])
  }

  ghost predicate OpenedAt(t: multiset<Item>, t': multiset<Item>, p: Place, n: nat, b: BarrierId, units: seq<Unit>, x: Item) {
    t'[x] + (if x == Fresh(p) || x == Id(b) then 1 else 0)
    == t[x] + (if x == Waiting(p) then 1 else 0)
       + (if x.Fresh? && IsChild(p, n, x.at) then 1 else 0)
       + (if x.Owe? && x.to == b && x.unit in units then 1 else 0)
  }

  ghost predicate DirectoryOpened(t: multiset<Item>, t': multiset<Item>, p: Place, n: nat, b: BarrierId, units: seq<Unit>) {
    forall x: Item :: OpenedAt(t, t', p, n, b, units, x)
  }

  lemma PlaceAfterOpening(w: World, bk: Book, t: multiset<Item>, t': multiset<Item>, p: Place, n: nat,
                          b: BarrierId, units: seq<Unit>, notify: Option<BarrierId>, q: Place)
    requires w.order.PostOrder? && p !in bk.handed && Kids(w, p) == n > 0
    requires PlaceOk(w, bk, t, p) && PlaceOk(w, bk, t, q) && t[Fresh(p)] > 0
    requires DirectoryOpened(t, t', p, n, b, units)
    ensures PlaceOk(w, OpenDirectory(bk, p, n, b, units, notify), t', q)
  {
    hide Begins, Ends, Settled;
    BornAfterAll(w, bk.handed, p, n, q);
    assert OpenedAt(t, t', p, n, b, units, Fresh(q)) && OpenedAt(t, t', p, n, b, units, Ready(q));
    assert OpenedAt(t, t', p, n, b, units, Active(q)) && OpenedAt(t, t', p, n, b, units, Waiting(q));
    var found := Handed(bk.handed, q);
    assert OpenedAt(t, t', p, n, b, units, Expand(q, found));
  }

  lemma BornAfterAll(w: World, handed: map<Place, nat>, p: Place, n: nat, q: Place)
    requires p !in handed && |p| > 0
    ensures Born(w, handed[p := n], q) <==> Born(w, handed, q) || IsChild(p, n, q)
    ensures IsChild(p, n, q) ==> !Born(w, handed, q)
  {
    if |q| > 0 && q[..|q| - 1] == p { assert |q| == |p| + 1; }
  }

  lemma CoverAfterOpening(w: World, bk: Book, p: Place, n: nat, b: BarrierId, units: seq<Unit>, notify: Option<BarrierId>)
    requires Kids(w, p) == n
    requires FreshUnits(units) == FreshAll(Children(p, n))
    ensures CoverOk(w, OpenDirectory(bk, p, n, b, units, notify), b)
  {
    var bk' := OpenDirectory(bk, p, n, b, units, notify);
    forall k: nat | k < n ensures Pending(bk', b, p + [k]) {
      FreshAllCounts(Children(p, n), Fresh(p + [k]));
      assert Children(p, n)[k] == p + [k];
      FreshUnitsCounts(units, p + [k]);
      var i :| 0 <= i < |units| && p + [k] in units[i];
      assert units[i] in bk'.due[b];
    }
  }

  lemma BarrierAfterOpening(w: World, bk: Book, t: multiset<Item>, t': multiset<Item>, p: Place, n: nat,
                            b: BarrierId, units: seq<Unit>, notify: Option<BarrierId>, c: BarrierId)
    requires w.order.PostOrder? && p !in bk.handed && Kids(w, p) == n
    requires BarrierOk(w, bk, t, b) && BarrierOk(w, bk, t, c) && t[Id(b)] > 0
    requires notify.Some? ==> notify.value < b
    requires |UnitSet(units)| == |units| > 0
    requires FreshUnits(units) == FreshAll(Children(p, n))
    requires DirectoryOpened(t, t', p, n, b, units)
    ensures BarrierOk(w, OpenDirectory(bk, p, n, b, units, notify), t', c)
  {
    var bk' := OpenDirectory(bk, p, n, b, units, notify);
    assert OpenedAt(t, t', p, n, b, units, Id(c));
    if c == b {
      CoverAfterOpening(w, bk, p, n, b, units, notify);
    } else if c in bk.due {
      SameCover(w, bk, bk', c);
    }
  }

  lemma NoEventsYet(w: World, bk: Book, t: multiset<Item>, p: Place)
    requires PlaceOk(w, bk, t, p) && t[Fresh(p)] > 0
    ensures forall i :: 0 <= i < |bk.log| ==> bk.log[i].at != p
  {
    EndsAreSettled(bk.log);
    forall i | 0 <= i < |bk.log| ensures bk.log[i].at != p { EventCounts(bk.log, i); }
  }

  lemma UnitsOfChildren(p: Place, n: nat, units: seq<Unit>)
    requires n > 0
    requires forall i :: 0 <= i < |units| ==> units[i] != []
    requires FreshUnits(units) == FreshAll(Children(p, n))
    ensures |UnitSet(units)| == |units| > 0
    ensures forall u :: multiset(units)[u] <= 1
  {
    hide FreshAll;
    forall c: Place ensures FreshUnits(units)[Fresh(c)] <= 1 {
      FreshAllCounts(Children(p, n), Fresh(c));
      ChildrenDiffer(p, n, c);
    }
    UnitsDiffer(units);
    FreshAllCounts(Children(p, n), Fresh(Children(p, n)[0]));
  }

  lemma SlotAfterOpening(w: World, bk: Book, t: multiset<Item>, t': multiset<Item>, p: Place, n: nat,
                         b: BarrierId, units: seq<Unit>, notify: Option<BarrierId>, c: BarrierId, u: Unit)
    requires SlotOk(w, bk, t, c, u) && BarrierOk(w, bk, t, b) && t[Id(b)] > 0
    requires DirectoryOpened(t, t', p, n, b, units)
    ensures SlotOk(w, OpenDirectory(bk, p, n, b, units, notify), t', c, u)
  {
    assert OpenedAt(t, t', p, n, b, units, Owe(c, u)) && OpenedAt(t, t', p, n, b, units, Pay(c, u));
  }

  lemma LogAfterOpening(bk: Book, p: Place, n: nat)
    requires ChildrenFirst(bk.handed, bk.log)
    requires forall i :: 0 <= i < |bk.log| ==> bk.log[i].at != p
    ensures ChildrenFirst(bk.handed[p := n], bk.log)
  {
    forall i | 0 <= i < |bk.log| ensures KidsSettled(bk.handed[p := n], bk.log[..i], bk.log[i].at) {
      assert KidsSettled(bk.handed, bk.log[..i], bk.log[i].at);
    }
  }

  /** Post-order: the directory at p hands out its children, one notification
      per unit, and waits in the barrier table. */
  lemma OpenStep(w: World, bk: Book, t: multiset<Item>, t': multiset<Item>, p: Place, n: nat,
                 b: BarrierId, units: seq<Unit>, notify: Option<BarrierId>)
    requires Inv(w, bk, t) && w.order.PostOrder? && Kids(w, p) == n > 0
    requires t[Fresh(p)] > 0 && t[Id(b)] > 0 && (notify.Some? ==> notify.value < b)
    requires |UnitSet(units)| == |units| > 0
    requires FreshUnits(units) == FreshAll(Children(p, n))
    requires DirectoryOpened(t, t', p, n, b, units)
    ensures Inv(w, OpenDirectory(bk, p, n, b, units, notify), t')
  {
    var bk' := OpenDirectory(bk, p, n, b, units, notify);
    assert bk'.handed == bk.handed[p := n] && bk'.log == bk.log;
    assert PlaceOk(w, bk, t, p) && BarrierOk(w, bk, t, b);
    NoEventsYet(w, bk, t, p);
    LogAfterOpening(bk, p, n);
    assert p !in bk.handed;
    hide OpenDirectory, DirectoryOpened, PlaceOk, BarrierOk, SlotOk, ExpandOk, KidsSettled;
    forall c: BarrierId, u: Unit ensures SlotOk(w, bk', t', c, u) {
      assert SlotOk(w, bk, t, c, u);
      SlotAfterOpening(w, bk, t, t', p, n, b, units, notify, c, u);
    }
    forall c: BarrierId ensures BarrierOk(w, bk', t', c) {
      assert BarrierOk(w, bk, t, c);
      BarrierAfterOpening(w, bk, t, t', p, n, b, units, notify, c);
    }
    forall q: Place ensures PlaceOk(w, bk', t', q) {
      assert PlaceOk(w, bk, t, q);
      PlaceAfterOpening(w, bk, t, t', p, n, b, units, notify, q);
    }
    forall q: Place, k: nat ensures ExpandOk(w, bk', t', q, k) {
      assert ExpandOk(w, bk, t, q, k);
      ExpandAfterOpening(w, bk, t, t', p, n, b, units, notify, q, k);
    }
  }

  lemma ExpandAfterOpening(w: World, bk: Book, t: multiset<Item>, t': multiset<Item>, p: Place, n: nat,
                           b: BarrierId, units: seq<Unit>, notify: Option<BarrierId>, q: Place, k: nat)
    requires w.order.PostOrder? && ExpandOk(w, bk, t, q, k) && DirectoryOpened(t, t', p, n, b, units)
    ensures ExpandOk(w, OpenDirectory(bk, p, n, b, units, notify), t', q, k)
  {
    assert OpenedAt(t, t', p, n, b, units, Expand(q, k));
  }

  lemma OpenCountsAt(t: multiset<Item>, t': multiset<Item>, p: Place, n: nat, b: BarrierId, units: seq<Unit>, x: Item)
    requires Traded(t, t', multiset{Fresh(p), Id(b)}, multiset{Waiting(p)} + FreshAll(Children(p, n)) + OweAll(b, units))
    requires forall u :: multiset(units)[u] <= 1
    ensures OpenedAt(t, t', p, n, b, units, x)
  {
    assert TradedAt(t, t', multiset{Fresh(p), Id(b)}, multiset{Waiting(p)} + FreshAll(Children(p, n)) + OweAll(b, units), x);
    FreshAllCounts(Children(p, n), x);
    OweAllCounts(b, units, x);
    if x.Fresh? { ChildrenDiffer(p, n, x.at); }
  }

  lemma OpenCounts(t: multiset<Item>, t': multiset<Item>, p: Place, n: nat, b: BarrierId, units: seq<Unit>)
    requires Traded(t, t', multiset{Fresh(p), Id(b)}, multiset{Waiting(p)} + FreshAll(Children(p, n)) + OweAll(b, units))
    requires forall u :: multiset(units)[u] <= 1
    ensures DirectoryOpened(t, t', p, n, b, units)
  {
    forall x: Item ensures OpenedAt(t, t', p, n, b, units, x)
    {
      OpenCountsAt(t, t', p, n, b, units, x);
    }
  }

  // Starting a batch.

  function Singles(ps: seq<Place>): (us: seq<Unit>)
    ensures |us| == |ps|
    ensures forall i :: 0 <= i < |ps| ==> us[i] == [ps[i]]
  {
    if ps == [] then [] else Singles(ps[..|ps| - 1]) + [[ps[|ps| - 1]]]
  }

  function StartBatch(bk: Book, b: BarrierId, parent: BarrierId, ps: seq<Place>): Book {
    bk.(table := Insert(bk.table, b, Batch(|ps|, parent)),
        due := bk.due[b := UnitSet(Singles(ps))],
        covers := bk.covers[b := ps])
  }

  ghost predicate StartedAt(t: multiset<Item>, t': multiset<Item>, b: BarrierId, ps: seq<Place>, x: Item) {
    t'[x] + (if x == Id(b) then 1 else 0)
    == t[x] + (if x.Owe? && x.to == b && x.unit in Singles(ps) then 1 else 0)
  }

  ghost predicate BatchStarted(t: multiset<Item>, t': multiset<Item>, b: BarrierId, ps: seq<Place>) {
    forall x: Item :: StartedAt(t, t', b, ps, x)
  }

  lemma SlotAfterStart(w: World, bk: Book, t: multiset<Item>, t': multiset<Item>,
                       b: BarrierId, parent: BarrierId, ps: seq<Place>, c: BarrierId, u: Unit)
    requires SlotOk(w, bk, t, c, u) && BarrierOk(w, bk, t, b) && t[Id(b)] > 0
    requires BatchStarted(t, t', b, ps)
    ensures SlotOk(w, StartBatch(bk, b, parent, ps), t', c, u)
  {
    assert StartedAt(t, t', b, ps, Owe(c, u)) && StartedAt(t, t', b, ps, Pay(c, u));
  }

  lemma CoverAfterStart(w: World, bk: Book, b: BarrierId, parent: BarrierId, ps: seq<Place>)
    ensures CoverOk(w, StartBatch(bk, b, parent, ps), b)
  {
    var bk' := StartBatch(bk, b, parent, ps);
    forall q | q in ps ensures Pending(bk', b, q) {
      var i :| 0 <= i < |ps| && ps[i] == q;
      assert Singles(ps)[i] in bk'.due[b];
    }
  }

  lemma BarrierAfterStart(w: World, bk: Book, t: multiset<Item>, t': multiset<Item>,
                          b: BarrierId, parent: BarrierId, ps: seq<Place>, c: BarrierId)
    requires BarrierOk(w, bk, t, b) && BarrierOk(w, bk, t, c) && t[Id(b)] > 0
    requires parent < b && |UnitSet(Singles(ps))| == |ps| > 0
    requires BatchStarted(t, t', b, ps)
    ensures BarrierOk(w, StartBatch(bk, b, parent, ps), t', c)
  {
    hide UnitSet, Singles, CoverOk, Pending;
    var bk' := StartBatch(bk, b, parent, ps);
    assert StartedAt(t, t', b, ps, Id(c));
    if c == b {
      CoverAfterStart(w, bk, b, parent, ps);
    } else if c in bk.due && w.order.PostOrder? {
      SameCover(w, bk, bk', c);
    }
  }

  /** A batch of several roots puts its own record between them and the
      barrier it was started for. */
  lemma BatchStep(w: World, bk: Book, t: multiset<Item>, t': multiset<Item>,
                  b: BarrierId, parent: BarrierId, ps: seq<Place>)
    requires Inv(w, bk, t) && t[Id(b)] > 0
    requires parent < b && |UnitSet(Singles(ps))| == |ps| > 0
    requires BatchStarted(t, t', b, ps)
    ensures Inv(w, StartBatch(bk, b, parent, ps), t')
  {
    hide Inv, StartBatch, BatchStarted, UnitSet, Singles, SlotOk, BarrierOk, PlaceOk, ExpandOk, ChildrenFirst;
    InvGives(w, bk, t);
    TokensAfterStart(w, bk, t, t', b, parent, ps);
    PlacesAfterStart(w, bk, t, t', b, parent, ps);
    StartKeepsLog(bk, b, parent, ps);
    MakesInv(w, StartBatch(bk, b, parent, ps), t');
  }

  lemma InvGives(w: World, bk: Book, t: multiset<Item>)
    requires Inv(w, bk, t)
    ensures forall b: BarrierId, u: Unit :: SlotOk(w, bk, t, b, u)
    ensures forall b: BarrierId :: BarrierOk(w, bk, t, b)
    ensures forall p: Place :: PlaceOk(w, bk, t, p)
    ensures forall p: Place, k: nat :: ExpandOk(w, bk, t, p, k)
    ensures w.order.PostOrder? ==> ChildrenFirst(bk.handed, bk.log)
  {
    hide SlotOk, BarrierOk, PlaceOk, ExpandOk, ChildrenFirst;
  }

  lemma MakesInv(w: World, bk: Book, t: multiset<Item>)
    requires forall b: BarrierId, u: Unit :: SlotOk(w, bk, t, b, u)
    requires forall b: BarrierId :: BarrierOk(w, bk, t, b)
    requires forall p: Place :: PlaceOk(w, bk, t, p)
    requires forall p: Place, k: nat :: ExpandOk(w, bk, t, p, k)
    requires w.order.PostOrder? ==> ChildrenFirst(bk.handed, bk.log)
    ensures Inv(w, bk, t)
  {
    hide SlotOk, BarrierOk, PlaceOk, ExpandOk, ChildrenFirst;
  }

  lemma StartKeepsLog(bk: Book, b: BarrierId, parent: BarrierId, ps: seq<Place>)
    ensures var bk' := StartBatch(bk, b, parent, ps); bk'.handed == bk.handed && bk'.log == bk.log
  {
  }

  lemma PlacesAfterStart(w: World, bk: Book, t: multiset<Item>, t': multiset<Item>,
                         b: BarrierId, parent: BarrierId, ps: seq<Place>)
    requires forall q: Place :: PlaceOk(w, bk, t, q)
    requires forall q: Place, k: nat :: ExpandOk(w, bk, t, q, k)
    requires BatchStarted(t, t', b, ps)
    ensures forall q: Place :: PlaceOk(w, StartBatch(bk, b, parent, ps), t', q)
    ensures forall q: Place, k: nat :: ExpandOk(w, StartBatch(bk, b, parent, ps), t', q, k)
  {
    hide StartBatch, BatchStarted, PlaceOk, ExpandOk, Singles;
    forall q: Place ensures PlaceOk(w, StartBatch(bk, b, parent, ps), t', q) {
      PlaceAfterStart(w, bk, t, t', b, parent, ps, q);
    }
    forall q: Place, k: nat ensures ExpandOk(w, StartBatch(bk, b, parent, ps), t', q, k) {
      ExpandAfterStart(w, bk, t, t', b, parent, ps, q, k);
    }
  }

  lemma TokensAfterStart(w: World, bk: Book, t: multiset<Item>, t': multiset<Item>,
                         b: BarrierId, parent: BarrierId, ps: seq<Place>)
    requires forall c: BarrierId, u: Unit :: SlotOk(w, bk, t, c, u)
    requires forall c: BarrierId :: BarrierOk(w, bk, t, c)
    requires t[Id(b)] > 0 && parent < b && |UnitSet(Singles(ps))| == |ps| > 0
    requires BatchStarted(t, t', b, ps)
    ensures forall c: BarrierId, u: Unit :: SlotOk(w, StartBatch(bk, b, parent, ps), t', c, u)
    ensures forall c: BarrierId :: BarrierOk(w, StartBatch(bk, b, parent, ps), t', c)
  {
    hide StartBatch, BatchStarted, BarrierOk, SlotOk, UnitSet, Singles;
    forall c: BarrierId, u: Unit ensures SlotOk(w, StartBatch(bk, b, parent, ps), t', c, u) {
      SlotAfterStart(w, bk, t, t', b, parent, ps, c, u);
    }
    forall c: BarrierId ensures BarrierOk(w, StartBatch(bk, b, parent, ps), t', c) {
      BarrierAfterStart(w, bk, t, t', b, parent, ps, c);
    }
  }

  lemma ExpandAfterStart(w: World, bk: Book, t: multiset<Item>, t': multiset<Item>,
                         b: BarrierId, parent: BarrierId, ps: seq<Place>, q: Place, k: nat)
    requires ExpandOk(w, bk, t, q, k) && BatchStarted(t, t', b, ps)
    ensures ExpandOk(w, StartBatch(bk, b, parent, ps), t', q, k)
  {
    assert StartedAt(t, t', b, ps, Expand(q, k));
  }

  lemma PlaceAfterStart(w: World, bk: Book, t: multiset<Item>, t': multiset<Item>,
                        b: BarrierId, parent: BarrierId, ps: seq<Place>, q: Place)
    requires PlaceOk(w, bk, t, q) && BatchStarted(t, t', b, ps)
    ensures PlaceOk(w, StartBatch(bk, b, parent, ps), t', q)
  {
    assert StartedAt(t, t', b, ps, Fresh(q)) && StartedAt(t, t', b, ps, Ready(q));
    assert StartedAt(t, t', b, ps, Active(q)) && StartedAt(t, t', b, ps, Waiting(q));
    var found := Handed(bk.handed, q);
    assert StartedAt(t, t', b, ps, Expand(q, found));
  }

  lemma {:induction false} SinglesDiffer(ps: seq<Place>)
    requires forall i, j :: 0 <= i < j < |ps| ==> ps[i] != ps[j]
    ensures forall u :: multiset(Singles(ps))[u] <= 1
    ensures |UnitSet(Singles(ps))| == |ps|
  {
    hide Singles, UnitSet;
    if ps == [] {
      assert Singles(ps) == [] && UnitSet([]) == {} by { NoUnitSet(); }
    } else {
      var n := |ps| - 1;
      var rest, last := ps[..n], ps[n];
      SinglesDiffer(rest);
      SinglesPush(ps);
      forall i | 0 <= i < |rest| ensures Singles(rest)[i] != [last] {
        assert Singles(rest)[i][0] == ps[i];
      }
      UnitSetPush(Singles(rest), [last]);
      forall u ensures multiset(Singles(ps))[u] <= 1 {
        CountPush(Singles(rest), [last], u);
        if u == [last] { NotThere(Singles(rest), u); }
      }
    }
  }

  lemma SinglesPush(ps: seq<Place>)
    requires ps != []
    ensures Singles(ps) == Singles(ps[..|ps| - 1]) + [[ps[|ps| - 1]]]
  {
  }

  lemma NoUnitSet()
    ensures UnitSet([]) == {}
  {
  }

  lemma UnitSetPush(units: seq<Unit>, u: Unit)
    requires u !in units
    ensures |UnitSet(units + [u])| == |UnitSet(units)| + 1
  {
    assert UnitSet(units + [u]) == UnitSet(units) + {u};
  }

  lemma NotThere(units: seq<Unit>, u: Unit)
    requires u !in units
    ensures multiset(units)[u] == 0
  {
  }

  lemma StartCountsAt(t: multiset<Item>, t': multiset<Item>, b: BarrierId, ps: seq<Place>, x: Item)
    requires Traded(t, t', multiset{Id(b)}, OweAll(b, Singles(ps)))
    requires forall u :: multiset(Singles(ps))[u] <= 1
    ensures StartedAt(t, t', b, ps, x)
  {
    assert TradedAt(t, t', multiset{Id(b)}, OweAll(b, Singles(ps)), x);
    OweAllCounts(b, Singles(ps), x);
  }

  lemma StartCounts(t: multiset<Item>, t': multiset<Item>, b: BarrierId, ps: seq<Place>)
    requires Traded(t, t', multiset{Id(b)}, OweAll(b, Singles(ps)))
    requires forall u :: multiset(Singles(ps))[u] <= 1
    ensures BatchStarted(t, t', b, ps)
  {
    forall x: Item ensures StartedAt(t, t', b, ps, x) { StartCountsAt(t, t', b, ps, x); }
  }

  // Notifying.

  /** Every place is as before when only notifications are traded. */
  lemma PlacesUntouched(w: World, bk: Book, bk': Book, t: multiset<Item>, t': multiset<Item>, a: multiset<Item>, c: multiset<Item>)
    requires Inv(w, bk, t) && Traded(t, t', a, c)
    requires forall x :: x in a || x in c ==> x.Owe? || x.Pay?
    requires bk'.handed == bk.handed && bk'.log == bk.log
    ensures forall p: Place :: PlaceOk(w, bk', t', p)
    ensures forall p: Place, k: nat :: ExpandOk(w, bk', t', p, k)
  {
    forall p: Place ensures PlaceOk(w, bk', t', p) {
      assert PlaceOk(w, bk, t, p);
      PlaceAfterTrade(t, t', a, c, p, Handed(bk.handed, p));
    }
    forall p: Place, k: nat ensures ExpandOk(w, bk', t', p, k) {
      assert ExpandOk(w, bk, t, p, k);
      PlaceAfterTrade(t, t', a, c, p, k);
    }
  }

  /** The places of u are settled, so the notification becomes due. */
  lemma MarkStep(w: World, bk: Book, t: multiset<Item>, t': multiset<Item>, b: BarrierId, u: Unit)
    requires Inv(w, bk, t) && t[Owe(b, u)] > 0
    requires w.order.PostOrder? ==> AllSettled(bk.log, u)
    requires Traded(t, t', multiset{Owe(b, u)}, multiset{Pay(b, u)})
    ensures Inv(w, bk, t')
  {
    var a, c := multiset{Owe(b, u)}, multiset{Pay(b, u)};
    PlacesUntouched(w, bk, bk, t, t', a, c);
    forall d: BarrierId, v: Unit ensures SlotOk(w, bk, t', d, v) {
      assert SlotOk(w, bk, t, d, v);
      SlotsAfterTrade(t, t', a, c, d, v);
    }
    forall d: BarrierId ensures BarrierOk(w, bk, t', d) {
      assert BarrierOk(w, bk, t, d);
      SlotsAfterTrade(t, t', a, c, d, []);
    }
  }

  /** No notification is ever lost on a missing record. */
  lemma PayFindsRecord(w: World, bk: Book, t: multiset<Item>, b: BarrierId, u: Unit)
    requires Inv(w, bk, t) && t[Pay(b, u)] > 0
    ensures b in bk.table.records && b in bk.due && u in bk.due[b]
    ensures bk.table.records[b].remaining == |bk.due[b]|
    ensures w.order.PostOrder? ==> AllSettled(bk.log, u) && CoverOk(w, bk, b)
    ensures bk.table.records[b].remaining <= 1 ==> bk.due[b] == {u}
    ensures bk.table.records[b].Batch? ==> bk.table.records[b].parent < b
  {
    assert SlotOk(w, bk, t, b, u) && BarrierOk(w, bk, t, b);
    if bk.table.records[b].remaining <= 1 {
      OneElement(bk.due[b], u);
    }
  }

  lemma OneElement<T>(s: set<T>, x: T)
    requires x in s && |s| == 1
    ensures s == {x}
  {
    assert |s - {x}| == 0;
  }

  function PayOne(bk: Book, b: BarrierId, u: Unit): Book {
    var due := if b in bk.due then bk.due[b] else {};
    bk.(table := Finish(bk.table, b).0, due := bk.due[b := due - {u}])
  }

  lemma CoverAfterPay(w: World, bk: Book, b: BarrierId, u: Unit)
    requires b in bk.table.records && b in bk.due && CoverOk(w, bk, b)
    requires bk.table.records[b].remaining > 1 && AllSettled(bk.log, u)
    ensures CoverOk(w, PayOne(bk, b, u), b)
  {
    var bk' := PayOne(bk, b, u);
    forall c | Pending(bk, b, c) ensures Settled(bk.log)[c] > 0 || Pending(bk', b, c) {
      var v :| v in bk.due[b] && c in v;
      if v != u { assert v in bk'.due[b]; }
    }
  }

  /** A notification, and the record still waits for others. */
  lemma PayStep(w: World, bk: Book, t: multiset<Item>, t': multiset<Item>, b: BarrierId, u: Unit)
    requires Inv(w, bk, t) && t[Pay(b, u)] > 0
    requires b in bk.table.records && b in bk.due && bk.table.records[b].remaining > 1
    requires Traded(t, t', multiset{Pay(b, u)}, multiset{})
    ensures Inv(w, PayOne(bk, b, u), t')
  {
    var a, c := multiset{Pay(b, u)}, multiset{};
    var bk' := PayOne(bk, b, u);
    PayFindsRecord(w, bk, t, b, u);
    PlacesUntouched(w, bk, bk', t, t', a, c);
    forall d: BarrierId, v: Unit ensures SlotOk(w, bk', t', d, v) {
      assert SlotOk(w, bk, t, d, v);
      SlotsAfterTrade(t, t', a, c, d, v);
    }
    forall d: BarrierId ensures BarrierOk(w, bk', t', d) {
      assert BarrierOk(w, bk, t, d);
      SlotsAfterTrade(t, t', a, c, d, []);
      if d == b {
        if w.order.PostOrder? { CoverAfterPay(w, bk, b, u); }
      } else if d in bk.due && w.order.PostOrder? { SameCover(w, bk, bk', d); }
    }
  }

  function TakeOut(bk: Book, b: BarrierId): Book {
    bk.(table := Finish(bk.table, b).0, due := bk.due - {b})
  }

  /** Taking a record out, for what concerns the other records. */
  lemma TokensAfterRelease(w: World, bk: Book, t: multiset<Item>, t': multiset<Item>, a: multiset<Item>, c: multiset<Item>,
                           b: BarrierId, u: Unit)
    requires Inv(w, bk, t) && t[Pay(b, u)] > 0
    requires b in bk.table.records && bk.table.records[b].remaining <= 1
    requires Traded(t, t', a, c)
    requires forall d: BarrierId :: a[Id(d)] == c[Id(d)] == 0
    requires forall d: BarrierId, v: Unit :: a[Owe(d, v)] + a[Pay(d, v)]
                == c[Owe(d, v)] + c[Pay(d, v)] + if d == b && v == u then 1 else 0
    requires forall d: BarrierId, v: Unit :: c[Pay(d, v)] > 0 && w.order.PostOrder? ==> AllSettled(bk.log, v)
    ensures forall d: BarrierId, v: Unit :: SlotOk(w, TakeOut(bk, b), t', d, v)
    ensures forall d: BarrierId :: BarrierOk(w, TakeOut(bk, b), t', d)
  {
    var bk' := TakeOut(bk, b);
    PayFindsRecord(w, bk, t, b, u);
    forall d: BarrierId, v: Unit ensures SlotOk(w, bk', t', d, v) {
      assert SlotOk(w, bk, t, d, v);
      SlotsAfterTrade(t, t', a, c, d, v);
    }
    forall d: BarrierId ensures BarrierOk(w, bk', t', d) {
      assert BarrierOk(w, bk, t, d);
      SlotsAfterTrade(t, t', a, c, d, []);
      if d != b && d in bk.due && w.order.PostOrder? { SameCover(w, bk, bk', d); }
    }
  }

  /** The last notification for a directory: it is ready now. */
  lemma ReleaseDirectoryStep(w: World, bk: Book, t: multiset<Item>, t': multiset<Item>, b: BarrierId, u: Unit)
    requires Inv(w, bk, t) && w.order.PostOrder? && t[Pay(b, u)] > 0
    requires b in bk.table.records && bk.table.records[b].remaining <= 1 && bk.table.records[b].Directory?
    requires t[Waiting(bk.table.records[b].entry)] > 0
    requires Traded(t, t', multiset{Pay(b, u), Waiting(bk.table.records[b].entry)}, multiset{Ready(bk.table.records[b].entry)})
    ensures Inv(w, TakeOut(bk, b), t')
  {
    var p := bk.table.records[b].entry;
    var a, c := multiset{Pay(b, u), Waiting(p)}, multiset{Ready(p)};
    var bk' := TakeOut(bk, b);
    PayFindsRecord(w, bk, t, b, u);
    TokensAfterRelease(w, bk, t, t', a, c, b, u);
    forall q: Place ensures PlaceOk(w, bk', t', q) {
      assert PlaceOk(w, bk, t, q);
      PlaceAfterTrade(t, t', a, c, q, Handed(bk.handed, q));
      if q == p { ReleasedIsReady(w, bk, b, u); }
    }
    forall q: Place, k: nat ensures ExpandOk(w, bk', t', q, k) {
      assert ExpandOk(w, bk, t, q, k);
      PlaceAfterTrade(t, t', a, c, q, k);
    }
  }

  lemma ReleasedIsReady(w: World, bk: Book, b: BarrierId, u: Unit)
    requires b in bk.table.records && b in bk.due && bk.table.records[b].Directory?
    requires CoverOk(w, bk, b) && bk.due[b] == {u} && AllSettled(bk.log, u)
    ensures KidsSettled(bk.handed, bk.log, bk.table.records[b].entry)
    ensures Handed(bk.handed, bk.table.records[b].entry) == Kids(w, bk.table.records[b].entry)
  {
  }

  /** The last notification for a batch: the one it stands for becomes due. */
  lemma ReleaseBatchStep(w: World, bk: Book, t: multiset<Item>, t': multiset<Item>, b: BarrierId, u: Unit)
    requires Inv(w, bk, t) && t[Pay(b, u)] > 0
    requires b in bk.table.records && bk.table.records[b].remaining <= 1 && bk.table.records[b].Batch?
    requires b in bk.covers && t[Owe(bk.table.records[b].parent, bk.covers[b])] > 0
    requires Traded(t, t', multiset{Pay(b, u), Owe(bk.table.records[b].parent, bk.covers[b])},
                    multiset{Pay(bk.table.records[b].parent, bk.covers[b])})
    ensures Inv(w, TakeOut(bk, b), t')
  {
    var parent, v := bk.table.records[b].parent, bk.covers[b];
    var a, c := multiset{Pay(b, u), Owe(parent, v)}, multiset{Pay(parent, v)};
    PayFindsRecord(w, bk, t, b, u);
    TokensAfterRelease(w, bk, t, t', a, c, b, u);
    PlacesUntouched(w, bk, TakeOut(bk, b), t, t', a, c);
  }
}
