/** The ordered walk: an explicit stack over a file graph that may be cyclic.

    The backend is the file system as it is during the walk, so its answers are
    functions of what is asked.  The follow mode is part of identity: under -L
    it answers for the target of a link. */
module Walker {
  import opened Basics
  import opened Places

  type Diagnostic = string

  datatype FileType = Directory | Regular | Symlink | Other

  datatype FileId = FileId(dev: nat, ino: nat)

  datatype Child = Child(path: string, hint: Option<FileType>)

  datatype Pending = Pending(
    path: string,
    rootPath: string,
    depth: nat,
    isRoot: bool,
    hint: Option<FileType>,
    ancestry: seq<FileId>,
    rootDevice: Option<nat>)

  datatype Entry = Entry(path: string, depth: nat, isRoot: bool, rootPath: string, hint: Option<FileType>)

  datatype Control = Control(matched: bool, prune: bool)

  datatype Listing = Listing(children: seq<Child>, errors: seq<Diagnostic>)

  datatype Backend = Backend(
    physicalKind: string -> Option<Diagnostic>,
    identity: Entry -> Result<Option<FileId>, Diagnostic>,
    children: string -> Result<Listing, Diagnostic>,
    control: Entry -> Result<Control, Diagnostic>)

  datatype Options = Options(order: Order, minDepth: nat, maxDepth: Option<nat>, sameFileSystem: bool)

  datatype Event = Emitted(entry: Entry, sequence: nat) | Completed(entry: Entry, sequence: nat) | Failed(error: Diagnostic)

  datatype Directive = Continue | Stop

  // ----- One entry -----

  function StartPending(path: string): Pending {
    Pending(path, path, 0, true, None, [], None)
  }

  function ChildPending(p: Pending, c: Child, ancestry: seq<FileId>, device: Option<nat>): Pending {
    Pending(c.path, p.rootPath, p.depth + 1, false, c.hint, ancestry, device)
  }

  function EntryOf(p: Pending): Entry {
    Entry(p.path, p.depth, p.isRoot, p.rootPath, p.hint)
  }

  /** Only start paths are examined when they are loaded. */
  function LoadEntry(b: Backend, p: Pending): Result<Entry, Diagnostic> {
    if p.isRoot && b.physicalKind(p.path).Some? then Err(b.physicalKind(p.path).value) else Ok(EntryOf(p))
  }

  function LoopError(path: string): Diagnostic {
    path + ": filesystem loop detected"
  }

  predicate ShouldDescend(depth: nat, maxDepth: Option<nat>) {
    maxDepth.Some? ==> depth < maxDepth.value
  }

  datatype Descent = Descent(ancestry: seq<FileId>, device: Option<nat>)

  function ShouldDescendDirectory(b: Backend, o: Options, p: Pending, e: Entry, c: Control): Result<Option<Descent>, Diagnostic> {
    if c.prune || !ShouldDescend(p.depth, o.maxDepth) then Ok(None)
    else match b.identity(e)
      case Err(error) => Err(error)
      case Ok(None) => Ok(None)
      case Ok(Some(id)) =>
        if id in p.ancestry then Err(LoopError(p.path))
        else
          var device := if p.rootDevice.Some? then p.rootDevice else Some(id.dev);
          if o.sameFileSystem && device.Some? && id.dev != device.value then Ok(None)
          else Ok(Some(Descent(p.ancestry + [id], device)))
  }

  /** What visiting p comes to before its children are read. */
  datatype Look =
    | Unseen(error: Diagnostic)
    | Seen(entry: Entry, isDirectory: bool, descent: Result<Option<Descent>, Diagnostic>)

  function Looked(b: Backend, o: Options, p: Pending): Look {
    match LoadEntry(b, p)
    case Err(error) => Unseen(error)
    case Ok(e) =>
      match b.control(e)
      case Err(error) => Unseen(error)
      case Ok(c) =>
        match b.identity(e)
        case Err(error) => Unseen(error)
        case Ok(id) => Seen(e, id.Some?, ShouldDescendDirectory(b, o, p, e, c))
  }

  // ----- The reference: a recursive traversal -----

  /** Every directory has one of finitely many identities. */
  ghost predicate Finite(b: Backend, ids: set<FileId>) {
    forall e: Entry :: b.identity(e).Ok? && b.identity(e).value.Some? ==> b.identity(e).value.value in ids
  }

  ghost function Room(ids: set<FileId>, ancestry: seq<FileId>): set<FileId> {
    set id | id in ids && id !in ancestry
  }

  lemma RoomShrinks(b: Backend, o: Options, p: Pending, e: Entry, c: Control, ids: set<FileId>)
    requires Finite(b, ids)
    requires ShouldDescendDirectory(b, o, p, e, c).Ok? && ShouldDescendDirectory(b, o, p, e, c).value.Some?
    ensures Room(ids, ShouldDescendDirectory(b, o, p, e, c).value.value.ancestry) < Room(ids, p.ancestry)
  {
    var id := b.identity(e).value.value;
    assert id in Room(ids, p.ancestry) && id !in Room(ids, p.ancestry + [id]);
  }

  /** What happens, without ticket numbers. */
  datatype Happening = Visited(entry: Entry) | Done(entry: Entry) | Error(error: Diagnostic)

  function Errors(ds: seq<Diagnostic>): (hs: seq<Happening>)
    ensures |hs| == |ds|
  {
    if ds == [] then [] else [Error(ds[0])] + Errors(ds[1..])
  }

  ghost function Traverse(b: Backend, o: Options, ids: set<FileId>, p: Pending): seq<Happening>
    requires Finite(b, ids)
    decreases Room(ids, p.ancestry), 0
  {
    match Looked(b, o, p)
    case Unseen(error) => [Error(error)]
    case Seen(e, isDirectory, descent) =>
      var before := if o.order.PreOrder? || !isDirectory then [Visited(e)] else [];
      var after := if o.order.PostOrder? && isDirectory then [Done(e)] else [];
      match descent
      case Err(error) => before + [Error(error)]
      case Ok(None) => before + after
      case Ok(Some(d)) =>
        RoomShrinks(b, o, p, e, b.control(e).value, ids);
        match b.children(p.path)
        case Err(error) => before + [Error(error)] + after
        case Ok(Listing(children, errors)) => before + Errors(errors) + TraverseAll(b, o, ids, p, d, children) + after
  }

  ghost function TraverseAll(b: Backend, o: Options, ids: set<FileId>, p: Pending, d: Descent, children: seq<Child>): seq<Happening>
    requires Finite(b, ids)
    decreases Room(ids, d.ancestry), |children| + 1
  {
    if children == [] then []
    else Traverse(b, o, ids, ChildPending(p, children[0], d.ancestry, d.device)) + TraverseAll(b, o, ids, p, d, children[1..])
  }

  ghost function TraverseStarts(b: Backend, o: Options, ids: set<FileId>, starts: seq<string>): seq<Happening>
    requires Finite(b, ids)
  {
    if starts == [] then []
    else Traverse(b, o, ids, StartPending(starts[0])) + TraverseStarts(b, o, ids, starts[1..])
  }

  /** Entries and completed directories are numbered as they are handed out. */
  function Ticketed(hs: seq<Happening>, next: nat): (es: seq<Event>)
    ensures |es| == |hs|
  {
    if hs == [] then []
    else match hs[0]
      case Visited(e) => [Emitted(e, next)] + Ticketed(hs[1..], next + 1)
      case Done(e) => [Completed(e, next)] + Ticketed(hs[1..], next + 1)
      case Error(error) => [Failed(error)] + Ticketed(hs[1..], next)
  }

  // ----- The consumer -----

  /** Answers each event, knowing all events so far. */
  type Consumer = seq<Event> -> Result<Directive, Diagnostic>

  datatype Outcome = Outcome(log: seq<Event>, result: Result<(), Diagnostic>)

  /** Handing out todo after done: the consumer may fail on anything, and stop
      the walk on anything but an error. */
  function Deliver(consumer: Consumer, done: seq<Event>, todo: seq<Event>): Outcome
    decreases |todo|
  {
    if todo == [] then Outcome(done, Ok(()))
    else
      var log := done + [todo[0]];
      match consumer(log)
      case Err(error) => Outcome(log, Err(error))
      case Ok(Stop) => if todo[0].Failed? then Deliver(consumer, log, todo[1..]) else Outcome(log, Ok(()))
      case Ok(Continue) => Deliver(consumer, log, todo[1..])
  }

  // ----- The stack -----

  datatype Frame = Visit(pending: Pending) | Complete(entry: Entry)

  ghost function Unfold(b: Backend, o: Options, ids: set<FileId>, f: Frame): seq<Happening>
    requires Finite(b, ids)
  {
    match f
    case Visit(p) => Traverse(b, o, ids, p)
    case Complete(e) => [Done(e)]
  }

  /** What is still to happen, the top of the stack (its end) first. */
  ghost function Remaining(b: Backend, o: Options, ids: set<FileId>, stack: seq<Frame>): seq<Happening>
    requires Finite(b, ids)
  {
    if stack == [] then [] else Unfold(b, o, ids, stack[|stack| - 1]) + Remaining(b, o, ids, stack[..|stack| - 1])
  }

  lemma RemainingPush(b: Backend, o: Options, ids: set<FileId>, stack: seq<Frame>, f: Frame)
    requires Finite(b, ids)
    ensures Remaining(b, o, ids, stack + [f]) == Unfold(b, o, ids, f) + Remaining(b, o, ids, stack)
  {
    hide Unfold;
    assert (stack + [f])[..|stack|] == stack;
  }

  function ChildFrames(p: Pending, d: Descent, children: seq<Child>): (fs: seq<Frame>)
    ensures |fs| == |children|
  {
    if children == [] then []
    else ChildFrames(p, d, children[1..]) + [Visit(ChildPending(p, children[0], d.ancestry, d.device))]
  }

  function StartFrames(starts: seq<string>): (fs: seq<Frame>)
    ensures |fs| == |starts|
  {
    if starts == [] then [] else StartFrames(starts[1..]) + [Visit(StartPending(starts[0]))]
  }

  lemma PushedLast(stack: seq<Frame>, p: Pending, d: Descent, children: seq<Child>)
    requires children != []
    ensures stack + ChildFrames(p, d, children)
         == (stack + ChildFrames(p, d, children[1..])) + [Visit(ChildPending(p, children[0], d.ancestry, d.device))]
  {
  }

  lemma {:induction false} RemainingChildren(b: Backend, o: Options, ids: set<FileId>, stack: seq<Frame>, p: Pending, d: Descent, children: seq<Child>)
    requires Finite(b, ids)
    ensures Remaining(b, o, ids, stack + ChildFrames(p, d, children))
         == TraverseAll(b, o, ids, p, d, children) + Remaining(b, o, ids, stack)
  {
    hide Traverse, Remaining;
    if children == [] {
      assert stack + ChildFrames(p, d, children) == stack;
    } else {
      var c := ChildPending(p, children[0], d.ancestry, d.device);
      RemainingChildren(b, o, ids, stack, p, d, children[1..]);
      PushedLast(stack, p, d, children);
      hide ChildFrames;
      RemainingPush(b, o, ids, stack + ChildFrames(p, d, children[1..]), Visit(c));
      assert Unfold(b, o, ids, Visit(c)) == Traverse(b, o, ids, c);
    }
  }

  lemma {:induction false} RemainingStarts(b: Backend, o: Options, ids: set<FileId>, starts: seq<string>)
    requires Finite(b, ids)
    ensures Remaining(b, o, ids, StartFrames(starts)) == TraverseStarts(b, o, ids, starts)
  {
    hide Traverse;
    if starts != [] {
      RemainingStarts(b, o, ids, starts[1..]);
      RemainingPush(b, o, ids, StartFrames(starts[1..]), Visit(StartPending(starts[0])));
    }
  }

  /** The number of turns of the loop a stack still needs. */
  ghost function Turns(b: Backend, o: Options, ids: set<FileId>, p: Pending): (n: nat)
    requires Finite(b, ids)
    ensures n > 0
    decreases Room(ids, p.ancestry), 0
  {
    match Looked(b, o, p)
    case Seen(e, _, Ok(Some(d))) =>
      RoomShrinks(b, o, p, e, b.control(e).value, ids);
      (match b.children(p.path)
       case Ok(Listing(children, _)) => 2 + TurnsAll(b, o, ids, p, d, children)
       case _ => 1)
    case _ => 1
  }

  ghost function TurnsAll(b: Backend, o: Options, ids: set<FileId>, p: Pending, d: Descent, children: seq<Child>): nat
    requires Finite(b, ids)
    decreases Room(ids, d.ancestry), |children| + 1
  {
    if children == [] then 0
    else Turns(b, o, ids, ChildPending(p, children[0], d.ancestry, d.device)) + TurnsAll(b, o, ids, p, d, children[1..])
  }

  ghost function FrameTurns(b: Backend, o: Options, ids: set<FileId>, f: Frame): nat
    requires Finite(b, ids)
  {
    match f
    case Visit(p) => Turns(b, o, ids, p)
    case Complete(_) => 1
  }

  ghost function StackTurns(b: Backend, o: Options, ids: set<FileId>, stack: seq<Frame>): nat
    requires Finite(b, ids)
  {
    if stack == [] then 0
    else StackTurns(b, o, ids, stack[..|stack| - 1]) + FrameTurns(b, o, ids, stack[|stack| - 1])
  }

  lemma StackTurnsPush(b: Backend, o: Options, ids: set<FileId>, stack: seq<Frame>, f: Frame)
    requires Finite(b, ids)
    ensures StackTurns(b, o, ids, stack + [f]) == StackTurns(b, o, ids, stack) + FrameTurns(b, o, ids, f)
  {
    hide Turns;
    assert (stack + [f])[..|stack|] == stack;
  }

  lemma {:induction false} StackTurnsChildren(b: Backend, o: Options, ids: set<FileId>, stack: seq<Frame>, p: Pending, d: Descent, children: seq<Child>)
    requires Finite(b, ids)
    ensures StackTurns(b, o, ids, stack + ChildFrames(p, d, children)) == StackTurns(b, o, ids, stack) + TurnsAll(b, o, ids, p, d, children)
  {
    hide Turns;
    if children == [] {
      assert stack + ChildFrames(p, d, children) == stack;
    } else {
      var c := ChildPending(p, children[0], d.ancestry, d.device);
      StackTurnsChildren(b, o, ids, stack, p, d, children[1..]);
      assert stack + ChildFrames(p, d, children) == (stack + ChildFrames(p, d, children[1..])) + [Visit(c)];
      StackTurnsPush(b, o, ids, stack + ChildFrames(p, d, children[1..]), Visit(c));
    }
  }

  // ----- The walk -----

  /** The whole delivery is what has been logged and then what hs comes to. */
  ghost predicate Ahead(consumer: Consumer, whole: Outcome, log: seq<Event>, hs: seq<Happening>, next: nat) {
    whole == Deliver(consumer, log, Ticketed(hs, next))
  }

  /** Hands out one happening.  stop is the end of the walk, if it comes to that. */
  method HandOut(consumer: Consumer, before: seq<Event>, h: Happening, number: nat, ghost rest: seq<Happening>, ghost whole: Outcome)
    returns (log: seq<Event>, next: nat, stop: Option<Result<(), Diagnostic>>)
    requires Ahead(consumer, whole, before, [h] + rest, number)
    ensures stop.Some? ==> whole == Outcome(log, stop.value)
    ensures stop.None? ==> Ahead(consumer, whole, log, rest, next)
    ensures h.Error? ==> next == number
  {
    assert ([h] + rest)[1..] == rest;
    var event := match h
      case Visited(e) => Emitted(e, number)
      case Done(e) => Completed(e, number)
      case Error(error) => Failed(error);
    log := before + [event];
    next, stop := number, None;
    assert Ticketed([h] + rest, number)[0] == event;
    assert Ticketed([h] + rest, number)[1..] == Ticketed(rest, if h.Error? then number else number + 1);
    match consumer(log) {
      case Err(error) => stop := Some(Err(error));
      case Ok(directive) =>
        if !h.Error? {
          if directive == Stop {
            stop := Some(Ok(()));
          } else {
            next := next + 1;
          }
        }
    }
  }

  method ReportAll(consumer: Consumer, before: seq<Event>, errors: seq<Diagnostic>, next: nat, ghost rest: seq<Happening>, ghost whole: Outcome)
    returns (log: seq<Event>, stop: Option<Result<(), Diagnostic>>)
    requires Ahead(consumer, whole, before, Errors(errors) + rest, next)
    ensures stop.Some? ==> whole == Outcome(log, stop.value)
    ensures stop.None? ==> Ahead(consumer, whole, log, rest, next)
  {
    log, stop := before, None;
    var i := 0;
    assert errors[0..] == errors;
    while i < |errors|
      invariant i <= |errors| && stop.None?
      invariant Ahead(consumer, whole, log, Errors(errors[i..]) + rest, next)
    {
      assert Errors(errors[i..]) + rest == [Error(errors[i])] + (Errors(errors[i + 1..]) + rest) by {
        assert errors[i..][1..] == errors[i + 1..];
      }
      var same: nat;
      log, same, stop := HandOut(consumer, log, Error(errors[i]), next, Errors(errors[i + 1..]) + rest, whole);
      if stop.Some? { return; }
      i := i + 1;
    }
    assert Errors(errors[i..]) + rest == rest;
  }

  /** Between the entry itself and what was on the stack before. */
  ghost function Middle(b: Backend, o: Options, ids: set<FileId>, p: Pending, descent: Result<Option<Descent>, Diagnostic>,
                        listing: Result<Listing, Diagnostic>, after: seq<Happening>): seq<Happening>
    requires Finite(b, ids)
  {
    match descent
    case Err(error) => [Error(error)]
    case Ok(None) => after
    case Ok(Some(d)) =>
      match listing
      case Err(error) => [Error(error)] + after
      case Ok(Listing(children, errors)) => Errors(errors) + TraverseAll(b, o, ids, p, d, children) + after
  }

  lemma FailedLook(b: Backend, o: Options, ids: set<FileId>, p: Pending)
    requires Finite(b, ids) && Looked(b, o, p).Unseen?
    ensures Traverse(b, o, ids, p) == [Error(Looked(b, o, p).error)]
  {
  }

  lemma GoodLook(b: Backend, o: Options, ids: set<FileId>, p: Pending)
    requires Finite(b, ids) && Looked(b, o, p).Seen?
    ensures var look := Looked(b, o, p);
      Traverse(b, o, ids, p)
      == (if o.order.PreOrder? || !look.isDirectory then [Visited(look.entry)] else [])
         + Middle(b, o, ids, p, look.descent, b.children(p.path), if o.order.PostOrder? && look.isDirectory then [Done(look.entry)] else [])
  {
    hide TraverseAll, Errors, ShouldDescendDirectory, Looked;
  }

  lemma TurnsOfListing(b: Backend, o: Options, ids: set<FileId>, p: Pending, d: Descent)
    requires Finite(b, ids) && Looked(b, o, p).Seen? && Looked(b, o, p).descent == Ok(Some(d)) && b.children(p.path).Ok?
    ensures Turns(b, o, ids, p) == 2 + TurnsAll(b, o, ids, p, d, b.children(p.path).value.children)
  {
    hide ShouldDescendDirectory;
  }

  lemma Regroup<T>(a: seq<T>, b: seq<T>, c: seq<T>, d: seq<T>)
    ensures (a + b + c) + d == a + (b + (c + d))
  {
  }

  /** One turn of the loop for a path that could be looked at, after the entry
      itself has been handed out if it comes first. */
  method VisitChildren(b: Backend, o: Options, p: Pending, below: seq<Frame>, consumer: Consumer, before: seq<Event>, number: nat,
                       descent: Result<Option<Descent>, Diagnostic>, entry: Entry, isDirectory: bool,
                       ghost ids: set<FileId>, ghost whole: Outcome)
    returns (stack: seq<Frame>, log: seq<Event>, next: nat, stop: Option<Result<(), Diagnostic>>)
    requires Finite(b, ids) && Looked(b, o, p) == Seen(entry, isDirectory, descent)
    requires Ahead(consumer, whole, before,
      Middle(b, o, ids, p, descent, b.children(p.path), if o.order.PostOrder? && isDirectory then [Done(entry)] else [])
      + Remaining(b, o, ids, below), number)
    ensures stop.Some? ==> whole == Outcome(log, stop.value)
    ensures stop.None? ==> Ahead(consumer, whole, log, Remaining(b, o, ids, stack), next)
    ensures stop.None? ==> StackTurns(b, o, ids, stack) < StackTurns(b, o, ids, below) + Turns(b, o, ids, p)
  {
    hide Ahead, Remaining, StackTurns, ShouldDescendDirectory, Traverse, Turns, TurnsAll, TraverseAll, Looked, Errors;
    stack, log, next, stop := below, before, number, None;
    ghost var rest := Remaining(b, o, ids, below);
    ghost var after := if o.order.PostOrder? && isDirectory then [Done(entry)] else [];
    if descent.Err? {
      log, next, stop := HandOut(consumer, log, Error(descent.error), next, rest, whole);
      return;
    }
    if descent.value.None? {
      if o.order.PostOrder? && isDirectory {
        log, next, stop := HandOut(consumer, log, Done(entry), next, rest, whole);
      } else {
        assert after + rest == rest;
      }
      return;
    }
    var listing := b.children(p.path);
    if listing.Err? {
      assert ([Error(listing.error)] + after) + rest == [Error(listing.error)] + (after + rest);
      log, next, stop := HandOut(consumer, log, Error(listing.error), next, after + rest, whole);
      if stop.Some? { return; }
      if o.order.PostOrder? && isDirectory {
        log, next, stop := HandOut(consumer, log, Done(entry), next, rest, whole);
      } else {
        assert after + rest == rest;
      }
      return;
    }
    var d, children := descent.value.value, listing.value.children;
    Regroup(Errors(listing.value.errors), TraverseAll(b, o, ids, p, d, children), after, rest);
    log, stop := ReportAll(consumer, log, listing.value.errors, next, TraverseAll(b, o, ids, p, d, children) + (after + rest), whole);
    if stop.Some? { return; }
    TurnsOfListing(b, o, ids, p, d);
    if o.order.PostOrder? && isDirectory {
      RemainingPush(b, o, ids, stack, Complete(entry));
      StackTurnsPush(b, o, ids, stack, Complete(entry));
      stack := stack + [Complete(entry)];
    } else {
      assert after + rest == rest;
    }
    RemainingChildren(b, o, ids, stack, p, d, children);
    StackTurnsChildren(b, o, ids, stack, p, d, children);
    stack := PushChildren(stack, p, d, children);
  }

  /** One turn of the loop for a path: hands out what there is to hand out and
      pushes what is to come after it. */
  method VisitPending(b: Backend, o: Options, p: Pending, below: seq<Frame>, consumer: Consumer, before: seq<Event>, number: nat,
                      ghost ids: set<FileId>, ghost whole: Outcome)
    returns (stack: seq<Frame>, log: seq<Event>, next: nat, stop: Option<Result<(), Diagnostic>>)
    requires Finite(b, ids)
    requires Ahead(consumer, whole, before, Traverse(b, o, ids, p) + Remaining(b, o, ids, below), number)
    ensures stop.Some? ==> whole == Outcome(log, stop.value)
    ensures stop.None? ==> Ahead(consumer, whole, log, Remaining(b, o, ids, stack), next)
    ensures stop.None? ==> StackTurns(b, o, ids, stack) < StackTurns(b, o, ids, below) + Turns(b, o, ids, p)
  {
    hide Ahead, Remaining, StackTurns, ShouldDescendDirectory, Traverse, Turns, Middle;
    stack, log, next, stop := below, before, number, None;
    ghost var rest := Remaining(b, o, ids, below);
    var loaded := LoadEntry(b, p);
    if loaded.Err? {
      FailedLook(b, o, ids, p);
      log, next, stop := HandOut(consumer, log, Error(loaded.error), next, rest, whole);
      return;
    }
    var entry := loaded.value;
    var control := b.control(entry);
    if control.Err? {
      FailedLook(b, o, ids, p);
      log, next, stop := HandOut(consumer, log, Error(control.error), next, rest, whole);
      return;
    }
    var identity := b.identity(entry);
    if identity.Err? {
      FailedLook(b, o, ids, p);
      log, next, stop := HandOut(consumer, log, Error(identity.error), next, rest, whole);
      return;
    }
    var isDirectory := identity.value.Some?;
    GoodLook(b, o, ids, p);
    var descent := ShouldDescendDirectory(b, o, p, entry, control.value);
    ghost var mid := Middle(b, o, ids, p, descent, b.children(p.path), if o.order.PostOrder? && isDirectory then [Done(entry)] else []);
    if o.order.PreOrder? || !isDirectory {
      assert ([Visited(entry)] + mid) + rest == [Visited(entry)] + (mid + rest);
      log, next, stop := HandOut(consumer, log, Visited(entry), next, mid + rest, whole);
      if stop.Some? { return; }
    } else {
      assert [] + mid == mid;
    }
    stack, log, next, stop := VisitChildren(b, o, p, below, consumer, log, next, descent, entry, isDirectory, ids, whole);
  }

  method PushChildren(below: seq<Frame>, p: Pending, d: Descent, children: seq<Child>) returns (stack: seq<Frame>)
    ensures stack == below + ChildFrames(p, d, children)
  {
    stack := below;
    var i := |children|;
    while i > 0
      invariant 0 <= i <= |children|
      invariant stack == below + ChildFrames(p, d, children[i..])
    {
      i := i - 1;
      assert children[i..][1..] == children[i + 1..];
      stack := stack + [Visit(ChildPending(p, children[i], d.ancestry, d.device))];
    }
    assert children[i..] == children;
  }

  /** The walk hands out the recursive traversal of the start paths, numbered
      from zero, up to the event at which the consumer stops it or fails. */
  method WalkOrdered(b: Backend, o: Options, starts: seq<string>, consumer: Consumer, ghost ids: set<FileId>) returns (out: Outcome)
    requires Finite(b, ids)
    ensures out == Deliver(consumer, [], Ticketed(TraverseStarts(b, o, ids, starts), 0))
  {
    ghost var whole := Deliver(consumer, [], Ticketed(TraverseStarts(b, o, ids, starts), 0));
    var stack: seq<Frame> := [];
    var i := |starts|;
    while i > 0
      invariant 0 <= i <= |starts| && stack == StartFrames(starts[i..])
    {
      i := i - 1;
      assert starts[i..][1..] == starts[i + 1..];
      stack := stack + [Visit(StartPending(starts[i]))];
    }
    assert starts[i..] == starts;
    RemainingStarts(b, o, ids, starts);
    var log, next: nat := [], 0;
    while stack != []
      invariant Ahead(consumer, whole, log, Remaining(b, o, ids, stack), next)
      decreases StackTurns(b, o, ids, stack)
    {
      var frame := stack[|stack| - 1];
      stack := stack[..|stack| - 1];
      var stop: Option<Result<(), Diagnostic>>;
      match frame {
        case Complete(entry) =>
          log, next, stop := HandOut(consumer, log, Done(entry), next, Remaining(b, o, ids, stack), whole);
        case Visit(p) =>
          stack, log, next, stop := VisitPending(b, o, p, stack, consumer, log, next, ids, whole);
      }
      if stop.Some? { return Outcome(log, stop.value); }
    }
    out := Outcome(log, Ok(()));
  }
}
