/** Laws of the ordered walk: tickets, stopping, bounded depth, one file system. */
module WalkerLaws {
  import opened Basics
  import opened Places
  import opened Walker

  // ----- Stopping and tickets -----

  /** The consumer's answer to the last event of log ends the walk. */
  predicate EndsWalk(consumer: Consumer, log: seq<Event>)
    requires log != []
  {
    consumer(log).Err? || (consumer(log).value == Stop && !log[|log| - 1].Failed?)
  }

  /** What has been delivered is a prefix; it is proper only if the consumer
      ended the walk, and the walk goes on after every answer that does not. */
  lemma {:induction false} DeliversPrefix(consumer: Consumer, done: seq<Event>, todo: seq<Event>)
    ensures var out := Deliver(consumer, done, todo);
      && |done| <= |out.log| <= |done| + |todo| && out.log == (done + todo)[..|out.log|]
      && (forall k :: |done| < k < |out.log| ==> !EndsWalk(consumer, out.log[..k]))
      && (out.log != done + todo ==> |out.log| > |done| && EndsWalk(consumer, out.log))
      && (out.result.Err? <==> |out.log| > |done| && consumer(out.log).Err?)
    decreases |todo|
  {
    if todo == [] {
      assert done + todo == done;
    } else {
      var log := done + [todo[0]];
      assert log + todo[1..] == done + todo;
      if consumer(log).Ok? && (consumer(log).value.Continue? || todo[0].Failed?) {
        DeliversPrefix(consumer, log, todo[1..]);
        var out := Deliver(consumer, done, todo);
        assert out == Deliver(consumer, log, todo[1..]);
        assert log == (done + todo)[..|log|];
        forall k | |done| < k < |out.log| ensures !EndsWalk(consumer, out.log[..k]) {
          if k == |log| { assert out.log[..k] == log; }
        }
      }
    }
  }

  function Tickets(hs: seq<Happening>): nat {
    if hs == [] then 0 else Tickets(hs[..|hs| - 1]) + if hs[|hs| - 1].Error? then 0 else 1
  }

  lemma {:induction false} TicketsFirst(hs: seq<Happening>)
    requires hs != []
    ensures Tickets(hs) == (if hs[0].Error? then 0 else 1) + Tickets(hs[1..])
  {
    var n := |hs| - 1;
    if n > 0 {
      TicketsFirst(hs[..n]);
      assert hs[..n][1..] == hs[1..][..n - 1];
    }
  }

  predicate Carries(e: Event, h: Happening, sequence: nat) {
    match h
    case Visited(entry) => e == Emitted(entry, sequence)
    case Done(entry) => e == Completed(entry, sequence)
    case Error(error) => e == Failed(error)
  }

  /** Events appear in the order of the traversal, and those that carry a ticket
      are numbered one after the other. */
  lemma {:induction false} TicketsAreConsecutive(hs: seq<Happening>, next: nat, i: nat)
    requires i < |hs|
    ensures Carries(Ticketed(hs, next)[i], hs[i], next + Tickets(hs[..i]))
  {
    if i > 0 {
      TicketsAreConsecutive(hs[1..], if hs[0].Error? then next else next + 1, i - 1);
      TicketsFirst(hs[..i]);
      assert hs[..i][1..] == hs[1..][..i - 1];
    }
  }

  // ----- Addresses -----

  function Branches(b: Backend, o: Options, p: Pending): seq<Pending> {
    match Looked(b, o, p)
    case Seen(_, _, Ok(Some(d))) =>
      (match b.children(p.path)
       case Ok(Listing(cs, _)) => seq(|cs|, (k: nat) requires k < |cs| => ChildPending(p, cs[k], d.ancestry, d.device))
       case _ => [])
    case _ => []
  }

  /** The path the walk visits at an address of the unfolded tree, if there is one. */
  function PendingAt(b: Backend, o: Options, starts: seq<string>, a: Place): Option<Pending>
    decreases |a|
  {
    if |a| == 0 then None
    else if |a| == 1 then (if a[0] < |starts| then Some(StartPending(starts[a[0]])) else None)
    else
      match PendingAt(b, o, starts, a[..|a| - 1])
      case None => None
      case Some(p) => if a[|a| - 1] < |Branches(b, o, p)| then Some(Branches(b, o, p)[a[|a| - 1]]) else None
  }

  ghost predicate Distinct<T>(s: seq<T>) {
    forall i, j :: 0 <= i < j < |s| ==> s[i] != s[j]
  }

  /** What is true of every path the walk ever visits. */
  ghost predicate Lineage(o: Options, ids: set<FileId>, p: Pending) {
    && |p.ancestry| == p.depth
    && Distinct(p.ancestry)
    && (forall id :: id in p.ancestry ==> id in ids)
    && p.rootDevice == (if p.depth == 0 then None else Some(p.ancestry[0].dev))
    && (o.sameFileSystem ==> forall id :: id in p.ancestry ==> id.dev == p.ancestry[0].dev)
  }

  lemma BranchLineage(b: Backend, o: Options, ids: set<FileId>, p: Pending, k: nat)
    requires Finite(b, ids) && Lineage(o, ids, p) && k < |Branches(b, o, p)|
    ensures Lineage(o, ids, Branches(b, o, p)[k])
    ensures Branches(b, o, p)[k].depth == p.depth + 1
    ensures b.identity(EntryOf(p)).Ok? && b.identity(EntryOf(p)).value.Some?
    ensures Branches(b, o, p)[k].ancestry == p.ancestry + [b.identity(EntryOf(p)).value.value]
  {
  }

  /** Along every address the ancestry is duplicate-free and as long as the
      entry is deep. */
  lemma {:induction false} AncestryIsDistinct(b: Backend, o: Options, ids: set<FileId>, starts: seq<string>, a: Place)
    requires Finite(b, ids) && PendingAt(b, o, starts, a).Some?
    ensures Lineage(o, ids, PendingAt(b, o, starts, a).value)
    ensures PendingAt(b, o, starts, a).value.depth == |a| - 1
    decreases |a|
  {
    if |a| > 1 {
      var up := a[..|a| - 1];
      AncestryIsDistinct(b, o, ids, starts, up);
      BranchLineage(b, o, ids, PendingAt(b, o, starts, up).value, a[|a| - 1]);
    }
  }

  lemma {:induction false} DistinctFits<T>(s: seq<T>, all: set<T>)
    requires Distinct(s) && forall x :: x in s ==> x in all
    ensures |s| <= |all|
    decreases |s|
  {
    if s != [] {
      var n := |s| - 1;
      forall x | x in s[..n] ensures x in all - {s[n]} {
        var i :| 0 <= i < n && s[..n][i] == x;
        assert s[i] != s[n];
      }
      DistinctFits(s[..n], all - {s[n]});
    }
  }

  /** No entry lies deeper than there are directory identities, links and cycles
      notwithstanding. */
  lemma DepthIsBounded(b: Backend, o: Options, ids: set<FileId>, starts: seq<string>, a: Place)
    requires Finite(b, ids) && PendingAt(b, o, starts, a).Some?
    ensures |a| - 1 <= |ids|
  {
    AncestryIsDistinct(b, o, ids, starts, a);
    DistinctFits(PendingAt(b, o, starts, a).value.ancestry, ids);
  }

  /** The children of the directory at a are read. */
  predicate IsListed(b: Backend, o: Options, starts: seq<string>, a: Place) {
    && PendingAt(b, o, starts, a).Some?
    && var look := Looked(b, o, PendingAt(b, o, starts, a).value);
       look.Seen? && look.descent.Ok? && look.descent.value.Some?
  }

  function DeviceAt(b: Backend, o: Options, starts: seq<string>, a: Place): Option<nat> {
    match PendingAt(b, o, starts, a)
    case None => None
    case Some(p) =>
      match b.identity(EntryOf(p))
      case Ok(Some(id)) => Some(id.dev)
      case _ => None
  }

  lemma {:induction false} FirstAncestor(b: Backend, o: Options, ids: set<FileId>, starts: seq<string>, a: Place)
    requires Finite(b, ids) && PendingAt(b, o, starts, a).Some? && |a| > 1
    ensures DeviceAt(b, o, starts, a[..1]) == Some(PendingAt(b, o, starts, a).value.ancestry[0].dev)
    ensures |PendingAt(b, o, starts, a).value.ancestry| > 0
    decreases |a|
  {
    var up := a[..|a| - 1];
    AncestryIsDistinct(b, o, ids, starts, up);
    AncestryIsDistinct(b, o, ids, starts, a);
    BranchLineage(b, o, ids, PendingAt(b, o, starts, up).value, a[|a| - 1]);
    if |a| == 2 {
      assert up == a[..1];
    } else {
      FirstAncestor(b, o, ids, starts, up);
      assert up[..1] == a[..1];
    }
  }

  /** With -xdev every directory that is listed is on the device of its start path. */
  lemma OneFileSystem(b: Backend, o: Options, ids: set<FileId>, starts: seq<string>, a: Place)
    requires Finite(b, ids) && o.sameFileSystem && IsListed(b, o, starts, a)
    ensures DeviceAt(b, o, starts, a).Some? && DeviceAt(b, o, starts, a) == DeviceAt(b, o, starts, a[..1])
  {
    if |a| == 1 {
      assert a[..1] == a;
    } else {
      AncestryIsDistinct(b, o, ids, starts, a);
      FirstAncestor(b, o, ids, starts, a);
    }
  }
}
