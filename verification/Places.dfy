/** What a run of the parallel engine is about: the unfolded file tree.

    A place is an address in that tree, the list of positions that leads to it:
    [i] is the i-th start path and p + [k] is the k-th child read from the
    directory at p.  Two listings of one directory through different links are
    different places, so an address is visited at most once and everything the
    backend answers there can be a function of the address. */
module Places {
  type Place = seq<nat>

  datatype Order = PreOrder | PostOrder

  /** What happens after an entry has been loaded: it is not opened, opening it
      is refused with an error (a loop), or its children are listed.  A listing
      may break off after some children. */
  datatype Expansion = Closed | Refused | Lists(children: nat, complete: bool)

  /** Unreadable: loading the entry or deciding about it failed, so it is
      reported and neither evaluated nor opened. */
  datatype Visit = Unreadable | Readable(expansion: Expansion)

  datatype World = World(order: Order, roots: nat, minDepth: nat, visit: Place -> Visit)

  function Depth(p: Place): nat {
    if |p| == 0 then 0 else |p| - 1
  }

  /** The number of children of p that the run has to visit. */
  function Kids(w: World, p: Place): nat {
    match w.visit(p)
    case Readable(Lists(n, true)) => n
    case _ => 0
  }

  /** The children a listing of p turns up, complete or not. */
  function Span(w: World, p: Place): nat {
    match w.visit(p)
    case Readable(Lists(n, _)) => n
    case _ => 0
  }

  /** Pre-order: the listing of p breaks off. */
  predicate BreaksOff(w: World, p: Place) {
    w.order.PreOrder? && match w.visit(p) case Readable(Lists(_, complete)) => !complete case _ => false
  }

  function Handed(handed: map<Place, nat>, p: Place): nat {
    if p in handed then handed[p] else 0
  }

  /** p has come into being: a start path, or a child already handed out by its
      directory.  handed says how many children each directory has handed out. */
  predicate Born(w: World, handed: map<Place, nat>, p: Place) {
    && |p| > 0
    && if |p| == 1 then p[0] < w.roots
       else p[..|p| - 1] in handed && p[|p| - 1] < handed[p[..|p| - 1]]
  }

  /** p is one of the places a complete run has to visit. */
  predicate Reachable(w: World, p: Place)
    decreases |p|
  {
    && |p| > 0
    && if |p| == 1 then p[0] < w.roots
       else Reachable(w, p[..|p| - 1]) && p[|p| - 1] < Kids(w, p[..|p| - 1])
  }

  /** No listing that a complete run has to make breaks off in pre-order. */
  ghost predicate Unbroken(w: World) {
    forall p: Place :: Reachable(w, p) ==> !BreaksOff(w, p)
  }

  /** Loading succeeded and nothing was refused that the order asks first:
      post-order finds out about a loop before the evaluation. */
  predicate Evaluable(w: World, p: Place) {
    w.visit(p).Readable? && (w.order.PostOrder? ==> !w.visit(p).expansion.Refused?)
  }

  /** A complete run evaluates p. */
  predicate Evaluated(w: World, p: Place) {
    Evaluable(w, p) && Depth(p) >= w.minDepth
  }

  function Children(p: Place, n: nat): (cs: seq<Place>)
    ensures |cs| == n
    ensures forall k :: 0 <= k < n ==> cs[k] == p + [k]
  {
    if n == 0 then [] else Children(p, n - 1) + [p + [n - 1]]
  }

  lemma ChildOf(p: Place, k: nat)
    ensures |p + [k]| == |p| + 1
    ensures (p + [k])[..|p|] == p
    ensures (p + [k])[|p|] == k
  {
  }
}
