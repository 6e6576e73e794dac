/** Gathering paths into as few commands as the argument limit allows. */
module ExecBatches {
  import opened Basics

  type Path = string

  type Diagnostic = string

  /** A batched command: the cost of its fixed arguments, and whether it runs in
      the directory of its paths. */
  datatype Spec = Spec(fixedCost: nat, dirLocal: bool)

  /** The command by its number in the plan, and the directory it runs in. */
  datatype Key = Key(id: nat, cwd: Option<Path>)

  datatype Setup = Setup(specs: nat -> Spec, limit: nat, pathCost: (Spec, Path) -> nat, directoryOf: Path -> Path)

  datatype Batch = Batch(paths: seq<Path>, usedBytes: nat)

  datatype Command = Command(key: Key, paths: seq<Path>)

  function BatchCwd(u: Setup, spec: Spec, p: Path): Option<Path> {
    if spec.dirLocal then Some(u.directoryOf(p)) else None
  }

  function KeyOf(u: Setup, id: nat, p: Path): Key {
    Key(id, BatchCwd(u, u.specs(id), p))
  }

  function SpecOf(u: Setup, k: Key): Spec {
    u.specs(k.id)
  }

  // ----- One batch -----

  function NewBatch(spec: Spec): Batch {
    Batch([], spec.fixedCost)
  }

  predicate WouldOverflow(u: Setup, spec: Spec, b: Batch, p: Path) {
    b.usedBytes + u.pathCost(spec, p) > u.limit
  }

  function Appended(u: Setup, spec: Spec, b: Batch, p: Path): Batch {
    Batch(b.paths + [p], b.usedBytes + u.pathCost(spec, p))
  }

  datatype Pushed = TooLarge | Stored(batch: Batch, ready: Option<seq<Path>>)

  function Push(u: Setup, spec: Spec, b: Batch, p: Path): Pushed {
    if b.paths == [] && WouldOverflow(u, spec, b, p) then TooLarge
    else if b.paths != [] && WouldOverflow(u, spec, b, p) then
      Stored(Appended(u, spec, NewBatch(spec), p), Some(b.paths))
    else Stored(Appended(u, spec, b, p), None)
  }

  class PendingBatch {
    const setup: Setup
    const spec: Spec
    var paths: seq<Path>
    var usedBytes: nat

    constructor (setup: Setup, spec: Spec)
      ensures this.setup == setup && this.spec == spec && Contents() == NewBatch(spec)
    {
      this.setup := setup;
      this.spec := spec;
      paths := [];
      usedBytes := spec.fixedCost;
    }

    ghost function Contents(): Batch
      reads this
    {
      Batch(paths, usedBytes)
    }

    method TakeReady() returns (ready: seq<Path>)
      modifies this
      ensures ready == old(paths) && Contents() == NewBatch(spec)
    {
      ready := paths;
      paths := [];
      usedBytes := spec.fixedCost;
    }

    method Add(path: Path) returns (r: Result<Option<seq<Path>>, ()>)
      modifies this
      ensures match Push(setup, spec, old(Contents()), path)
        case TooLarge => r == Err(()) && Contents() == old(Contents())
        case Stored(b, ready) => r == Ok(ready) && Contents() == b
    {
      var cost := setup.pathCost(spec, path);
      if paths == [] && usedBytes + cost > setup.limit { return Err(()); }
      if paths != [] && usedBytes + cost > setup.limit {
        var flushed := TakeReady();
        paths := paths + [path];
        usedBytes := usedBytes + cost;
        return Ok(Some(flushed));
      }
      paths := paths + [path];
      usedBytes := usedBytes + cost;
      return Ok(None);
    }
  }

  function Cost(u: Setup, spec: Spec, paths: seq<Path>): nat {
    if paths == [] then spec.fixedCost else Cost(u, spec, paths[..|paths| - 1]) + u.pathCost(spec, paths[|paths| - 1])
  }

  lemma CostAppend(u: Setup, spec: Spec, paths: seq<Path>, p: Path)
    ensures Cost(u, spec, paths + [p]) == Cost(u, spec, paths) + u.pathCost(spec, p)
  {
    assert (paths + [p])[..|paths|] == paths;
  }

  lemma {:induction false} CostAtLeast(u: Setup, spec: Spec, paths: seq<Path>)
    ensures Cost(u, spec, paths) >= spec.fixedCost
  {
    if paths != [] { CostAtLeast(u, spec, paths[..|paths| - 1]); }
  }

  predicate Within(u: Setup, spec: Spec, b: Batch) {
    b.usedBytes == Cost(u, spec, b.paths) && (b.paths != [] ==> b.usedBytes <= u.limit)
  }

  /** Pushing alone keeps a batch within the limit exactly when the path does not
      overflow it, or fits on its own.  The callers see to that. */
  lemma PushKeepsLimit(u: Setup, spec: Spec, b: Batch, p: Path)
    requires Within(u, spec, b) && Push(u, spec, b, p).Stored?
    ensures Within(u, spec, Push(u, spec, b, p).batch) <==>
      !WouldOverflow(u, spec, b, p) || !WouldOverflow(u, spec, NewBatch(spec), p)
  {
    CostAppend(u, spec, b.paths, p);
    CostAppend(u, spec, [], p);
  }

  /** A path of cost 12 pushed onto a batch under a limit of 10. */
  lemma PushCanExceedTheLimit()
    ensures var spec := Spec(0, false);
      var u := Setup((id: nat) => spec, 10, (s: Spec, p: Path) => if p == "long" then 12 else 6, (p: Path) => ".");
      var b := Batch(["short"], 6);
      && Within(u, spec, b) && Push(u, spec, b, "long") == Stored(Batch(["long"], 12), Some(["short"]))
      && !Within(u, spec, Batch(["long"], 12))
  {
    var spec := Spec(0, false);
    var u := Setup((id: nat) => spec, 10, (s: Spec, p: Path) => if p == "long" then 12 else 6, (p: Path) => ".");
    assert "short" != "long" by { assert |"short"| == 5; }
    assert ["short"][..0] == [] && ["long"][..0] == [];
    assert Cost(u, spec, ["short"]) == Cost(u, spec, []) + 6;
  }

  // ----- All pending batches -----

  datatype State = State(pending: map<Key, Batch>, commands: seq<Command>)

  function Waiting(s: State, k: Key): seq<Path> {
    if k in s.pending then s.pending[k].paths else []
  }

  /** The paths that commands of one key were given, in order. */
  function Given(k: Key, cs: seq<Command>): seq<Path> {
    if cs == [] then []
    else Given(k, cs[..|cs| - 1]) + if cs[|cs| - 1].key == k then cs[|cs| - 1].paths else []
  }

  datatype Request = Request(key: Key, path: Path)

  function Asked(k: Key, rs: seq<Request>): seq<Path> {
    if rs == [] then []
    else Asked(k, rs[..|rs| - 1]) + if rs[|rs| - 1].key == k then [rs[|rs| - 1].path] else []
  }

  lemma GivenAppend(k: Key, cs: seq<Command>, c: Command)
    ensures Given(k, cs + [c]) == Given(k, cs) + if c.key == k then c.paths else []
  {
    assert (cs + [c])[..|cs|] == cs;
  }

  lemma AskedAppend(k: Key, rs: seq<Request>, r: Request)
    ensures Asked(k, rs + [r]) == Asked(k, rs) + if r.key == k then [r.path] else []
  {
    assert (rs + [r])[..|rs|] == rs;
  }

  /** The command runs in the directory of p if it has to, and nowhere special if not. */
  predicate InItsDirectory(u: Setup, k: Key, p: Path) {
    if u.specs(k.id).dirLocal then k.cwd.Some? && k.cwd.value == u.directoryOf(p) else k.cwd.None?
  }

  /** A command is never empty, costs no more than the limit, and all its paths
      belong to the directory it runs in. */
  ghost predicate CommandOk(u: Setup, c: Command) {
    && c.paths != [] && Cost(u, SpecOf(u, c.key), c.paths) <= u.limit
    && forall p :: p in c.paths ==> InItsDirectory(u, c.key, p)
  }

  ghost predicate BatchOk(u: Setup, k: Key, b: Batch) {
    Within(u, SpecOf(u, k), b) && forall p :: p in b.paths ==> InItsDirectory(u, k, p)
  }

  /** Key by key, what was given to commands and what still waits are the accepted
      paths in order. */
  ghost predicate Kept(u: Setup, s: State, accepted: seq<Request>) {
    && (forall k: Key :: Given(k, s.commands) + Waiting(s, k) == Asked(k, accepted))
    && (forall k: Key :: k in s.pending ==> BatchOk(u, k, s.pending[k]))
    && (forall i :: 0 <= i < |s.commands| ==> CommandOk(u, s.commands[i]))
  }

  function Fetched(u: Setup, s: State, k: Key): Batch {
    if k in s.pending then s.pending[k] else NewBatch(SpecOf(u, k))
  }

  /** A batch that would overflow is sent off and starts anew. */
  function Relieved(u: Setup, s: State, k: Key, p: Path): State {
    var b := Fetched(u, s, k);
    if b.paths != [] && WouldOverflow(u, SpecOf(u, k), b, p) then
      State(s.pending[k := NewBatch(SpecOf(u, k))], s.commands + [Command(k, b.paths)])
    else s.(pending := s.pending[k := b])
  }

  lemma RelievedKept(u: Setup, s: State, k: Key, p: Path, accepted: seq<Request>)
    requires Kept(u, s, accepted)
    ensures Kept(u, Relieved(u, s, k, p), accepted)
    ensures k in Relieved(u, s, k, p).pending
    ensures var b := Relieved(u, s, k, p).pending[k]; b.paths == [] || !WouldOverflow(u, SpecOf(u, k), b, p)
    ensures var b := Relieved(u, s, k, p).pending[k];
      if b.paths == [] then b == NewBatch(SpecOf(u, k)) else !WouldOverflow(u, SpecOf(u, k), NewBatch(SpecOf(u, k)), p)
  {
    var s' := Relieved(u, s, k, p);
    var b := Fetched(u, s, k);
    assert k in s.pending ==> BatchOk(u, k, b);
    CostAtLeast(u, SpecOf(u, k), b.paths);
    if b.paths != [] && WouldOverflow(u, SpecOf(u, k), b, p) {
      forall j: Key ensures Given(j, s'.commands) + Waiting(s', j) == Asked(j, accepted) {
        GivenAppend(j, s.commands, Command(k, b.paths));
        assert Given(j, s.commands) + Waiting(s, j) == Asked(j, accepted);
      }
      assert BatchOk(u, k, b);
    } else {
      forall j: Key ensures Given(j, s'.commands) + Waiting(s', j) == Asked(j, accepted) {
        assert Given(j, s.commands) + Waiting(s, j) == Asked(j, accepted);
      }
    }
  }

  function Stow(u: Setup, s: State, k: Key, p: Path): State
    requires k in s.pending
  {
    s.(pending := s.pending[k := Appended(u, SpecOf(u, k), s.pending[k], p)])
  }

  lemma StowKept(u: Setup, s: State, k: Key, p: Path, accepted: seq<Request>)
    requires Kept(u, s, accepted) && k in s.pending && InItsDirectory(u, k, p)
    requires !WouldOverflow(u, SpecOf(u, k), s.pending[k], p)
    ensures Kept(u, Stow(u, s, k, p), accepted + [Request(k, p)])
  {
    var s' := Stow(u, s, k, p);
    CostAppend(u, SpecOf(u, k), s.pending[k].paths, p);
    assert BatchOk(u, k, s.pending[k]);
    forall j: Key ensures Given(j, s'.commands) + Waiting(s', j) == Asked(j, accepted + [Request(k, p)]) {
      AskedAppend(j, accepted, Request(k, p));
      assert Given(j, s.commands) + Waiting(s, j) == Asked(j, accepted);
    }
  }

  function Sent(s: State, k: Key): State
    requires k in s.pending
  {
    State(s.pending - {k}, if s.pending[k].paths == [] then s.commands else s.commands + [Command(k, s.pending[k].paths)])
  }

  lemma SentKept(u: Setup, s: State, k: Key, accepted: seq<Request>)
    requires Kept(u, s, accepted) && k in s.pending
    ensures Kept(u, Sent(s, k), accepted)
  {
    var s' := Sent(s, k);
    assert BatchOk(u, k, s.pending[k]);
    forall j: Key ensures Given(j, s'.commands) + Waiting(s', j) == Asked(j, accepted) {
      GivenAppend(j, s.commands, Command(k, s.pending[k].paths));
      assert Given(j, s.commands) + Waiting(s, j) == Asked(j, accepted);
    }
  }

  lemma SomeKey<T(!new)>(m: map<Key, T>)
    requires m != map[]
    ensures exists k: Key :: k in m
  {
    assert m.Keys != {};
  }

  /** Runs a command and says whether it succeeded; what has run so far decides. */
  type Runner = seq<Command> -> Result<bool, Diagnostic>

  /** The last command could not be run. */
  predicate EndedBy(run: Runner, commands: seq<Command>, r: Result<bool, Diagnostic>) {
    commands != [] && r.Err? && run(commands) == r
  }

  /** Every command from number i on succeeded. */
  ghost predicate AllRan(run: Runner, commands: seq<Command>, i: nat) {
    forall j :: i < j <= |commands| ==> run(commands[..j]) == Ok(true)
  }

  lemma NoneRan(run: Runner, commands: seq<Command>)
    ensures AllRan(run, commands, |commands|)
  {
  }

  lemma NothingWaits(u: Setup, s: State, accepted: seq<Request>)
    requires Kept(u, s, accepted) && s.pending == map[]
    ensures forall k: Key :: Given(k, s.commands) == Asked(k, accepted)
  {
    forall k: Key ensures Given(k, s.commands) == Asked(k, accepted) {
      assert Given(k, s.commands) + Waiting(s, k) == Asked(k, accepted);
      assert Waiting(s, k) == [];
    }
  }

  lemma OneMoreRan(run: Runner, before: seq<Command>, commands: seq<Command>, i: nat)
    requires i <= |before| && |commands| == |before| + 1 && commands[..|before|] == before
    ensures AllRan(run, commands, i) <==> AllRan(run, before, i) && run(commands) == Ok(true)
  {
    assert commands[..|commands|] == commands;
    forall j | i < j <= |before| ensures commands[..j] == before[..j] {}
    if AllRan(run, commands, i) {
      forall j | i < j <= |before| ensures run(before[..j]) == Ok(true) { assert commands[..j] == before[..j]; }
    }
  }

  /** The path does not fit into a command of its own. */
  predicate NeverFits(u: Setup, id: nat, p: Path) {
    WouldOverflow(u, u.specs(id), NewBatch(u.specs(id)), p)
  }

  /** How a path that is too large for any command is met: the ordered engine
      reports it and goes on, a parallel worker fails. */
  datatype Strictness = Reports | Fails

  class Batches {
    const setup: Setup
    const strictness: Strictness
    var pending: map<Key, Batch>
    var commands: seq<Command>
    var hadActionFailures: bool
    ghost var accepted: seq<Request>

    constructor (setup: Setup, strictness: Strictness)
      ensures Valid() && this.setup == setup && this.strictness == strictness
      ensures Contents() == State(map[], []) && accepted == [] && !hadActionFailures
    {
      this.setup := setup;
      this.strictness := strictness;
      pending := map[];
      commands := [];
      hadActionFailures := false;
      accepted := [];
    }

    ghost function Contents(): State
      reads this
    {
      State(pending, commands)
    }

    ghost predicate Valid()
      reads this
    {
      Kept(setup, Contents(), accepted)
    }

    method Run(run: Runner, k: Key, paths: seq<Path>) returns (r: Result<bool, Diagnostic>)
      modifies this`commands, this`hadActionFailures
      ensures commands == old(commands) + [Command(k, paths)]
      ensures r == run(commands)
      ensures hadActionFailures == (old(hadActionFailures) || r == Ok(false))
    {
      commands := commands + [Command(k, paths)];
      r := run(commands);
      if r == Ok(false) { hadActionFailures := true; }
    }

    /** The path is accepted unless it is too large for a command of its own or
        running the command before it failed outright. */
    method Enqueue(id: nat, path: Path, run: Runner) returns (r: Result<bool, Diagnostic>)
      requires Valid()
      modifies this
      ensures Valid()
      ensures var k := KeyOf(setup, id, path);
        var relieved := Relieved(setup, old(Contents()), k, path);
        if accepted == old(accepted) then Contents() == relieved
        else accepted == old(accepted) + [Request(k, path)] && Contents() == Stow(setup, relieved, k, path)
      ensures NeverFits(setup, id, path) ==> accepted == old(accepted) && (r.Err? || (r == Ok(false) && hadActionFailures))
      ensures !NeverFits(setup, id, path) && r.Ok? ==> accepted != old(accepted)
      ensures r.Err? ==> accepted == old(accepted) && (EndedBy(run, commands, r) || (strictness.Fails? && NeverFits(setup, id, path)))
      ensures strictness.Fails? && NeverFits(setup, id, path) ==> r.Err?
      ensures old(hadActionFailures) ==> hadActionFailures
    {
      var spec := setup.specs(id);
      var k := KeyOf(setup, id, path);
      var batch := if k in pending then pending[k] else NewBatch(spec);
      ghost var before := Contents();
      RelievedKept(setup, before, k, path, accepted);
      var ok := true;
      if batch.paths != [] && WouldOverflow(setup, spec, batch, path) {
        pending := pending[k := NewBatch(spec)];
        var ran := Run(run, k, batch.paths);
        assert Contents() == Relieved(setup, before, k, path);
        if ran.Err? { return ran; }
        ok := ran.value;
      } else {
        pending := pending[k := batch];
        assert Contents() == Relieved(setup, before, k, path);
      }
      var pushed := Push(setup, spec, pending[k], path);
      if pushed.TooLarge? {
        if strictness.Fails? { return Err("path is too large"); }
        hadActionFailures := true;
        return Ok(false);
      }
      StowKept(setup, Contents(), k, path, accepted);
      pending := pending[k := pushed.batch];
      accepted := accepted + [Request(k, path)];
      r := Ok(ok);
    }

    /** After a flush that is not cut short nothing waits: every accepted path has
        reached exactly one command, in order within its key.  Only a command that
        cannot be run cuts it short.  The ordered engine answers for all commands so
        far, a parallel worker for those of the flush. */
    method Flush(run: Runner) returns (r: Result<bool, Diagnostic>)
      requires Valid()
      modifies this
      ensures Valid() && accepted == old(accepted)
      ensures r.Ok? ==> pending == map[] && forall k: Key :: Given(k, commands) == Asked(k, accepted)
      ensures |old(commands)| <= |commands| && commands[..|old(commands)|] == old(commands)
      ensures r.Ok? ==> r.value == ((strictness.Reports? ==> !old(hadActionFailures)) && AllRan(run, commands, |old(commands)|))
      ensures r.Err? ==> EndedBy(run, commands, r)
    {
      hide Kept, AllRan, Given, Asked;
      var ok := strictness.Reports? ==> !hadActionFailures;
      NoneRan(run, commands);
      while pending != map[]
        invariant Valid() && accepted == old(accepted)
        invariant |old(commands)| <= |commands| && commands[..|old(commands)|] == old(commands)
        invariant ok == ((strictness.Reports? ==> !old(hadActionFailures)) && AllRan(run, commands, |old(commands)|))
        decreases |pending|
      {
        SomeKey(pending);
        var k: Key :| k in pending;
        var paths := pending[k].paths;
        SentKept(setup, Contents(), k, accepted);
        ghost var sent := Sent(Contents(), k);
        assert (pending - {k}).Keys == pending.Keys - {k};
        pending := pending - {k};
        if paths != [] {
          ghost var before := commands;
          var ran := Run(run, k, paths);
          assert Contents() == sent;
          if ran.Err? { return ran; }
          OneMoreRan(run, before, commands, |old(commands)|);
          ok := ok && ran.value;
        } else {
          assert Contents() == sent;
        }
      }
      NothingWaits(setup, Contents(), accepted);
      r := Ok(ok);
    }
  }

  // ----- Any sequence of paths -----

  datatype Found = Found(id: nat, path: Path)

  /** The paths for one key that fit into a command of their own, in order. */
  function Fitting(u: Setup, k: Key, fs: seq<Found>): seq<Path> {
    if fs == [] then []
    else
      var f := fs[|fs| - 1];
      Fitting(u, k, fs[..|fs| - 1]) + if KeyOf(u, f.id, f.path) == k && !NeverFits(u, f.id, f.path) then [f.path] else []
  }

  predicate AllFit(u: Setup, fs: seq<Found>) {
    forall i :: 0 <= i < |fs| ==> !NeverFits(u, fs[i].id, fs[i].path)
  }

  ghost predicate Prefix(a: seq<Path>, b: seq<Path>) {
    |a| <= |b| && a == b[..|a|]
  }

  lemma GivenIsPrefix(u: Setup, s: State, accepted: seq<Request>, k: Key)
    requires Kept(u, s, accepted)
    ensures Prefix(Given(k, s.commands), Asked(k, accepted))
  {
    assert Given(k, s.commands) + Waiting(s, k) == Asked(k, accepted);
  }

  /** Whatever is found in whatever order, every command keeps the limit and its
      directory, and the paths that fit are given to the commands of their key in
      order and none twice.  After the final flush all of them have been.  handled
      says how many paths were taken in: fewer than all only if a command could not
      be run, or if a parallel worker meets a path that is too large, which is then
      the first of its kind. */
  method GatherAll(u: Setup, strictness: Strictness, fs: seq<Found>, run: Runner)
    returns (commands: seq<Command>, handled: nat, r: Result<bool, Diagnostic>)
    ensures forall i :: 0 <= i < |commands| ==> CommandOk(u, commands[i])
    ensures handled <= |fs| && forall k: Key :: Prefix(Given(k, commands), Fitting(u, k, fs[..handled]))
    ensures r.Ok? ==> handled == |fs| && forall k: Key :: Given(k, commands) == Fitting(u, k, fs)
    ensures strictness.Fails? ==> AllFit(u, fs[..handled])
    ensures r.Err? ==>
      EndedBy(run, commands, r) || (strictness.Fails? && handled < |fs| && NeverFits(u, fs[handled].id, fs[handled].path))
  {
    hide Kept, CommandOk, Asked, Fitting, Given, Prefix, NeverFits, Relieved, Stow, EndedBy;
    var batches := new Batches(u, strictness);
    handled := 0;
    NothingFound(u);
    while handled < |fs|
      invariant handled <= |fs| && batches.Valid() && batches.setup == u && batches.strictness == strictness && fresh(batches)
      invariant AsFound(u, batches.accepted, fs[..handled])
      invariant strictness.Fails? ==> AllFit(u, fs[..handled])
    {
      var f := fs[handled];
      ghost var before := batches.accepted;
      r := batches.Enqueue(f.id, f.path, run);
      if r.Err? {
        CutShort(u, batches.Contents(), batches.accepted, fs[..handled]);
        return batches.commands, handled, r;
      }
      assert fs[..handled + 1] == fs[..handled] + [f];
      OneMoreFound(u, before, fs[..handled], f, batches.accepted);
      handled := handled + 1;
    }
    assert fs[..handled] == fs;
    CutShort(u, batches.Contents(), batches.accepted, fs);
    r := batches.Flush(run);
    commands := batches.commands;
    CutShort(u, batches.Contents(), batches.accepted, fs);
    if r.Ok? { AllGiven(u, commands, batches.accepted, fs); }
  }

  /** The accepted paths are those among fs that fit. */
  ghost predicate AsFound(u: Setup, accepted: seq<Request>, fs: seq<Found>) {
    forall k: Key :: Asked(k, accepted) == Fitting(u, k, fs)
  }

  lemma NothingFound(u: Setup)
    ensures AsFound(u, [], []) && AllFit(u, [])
  {
  }

  lemma OneMoreFound(u: Setup, accepted: seq<Request>, fs: seq<Found>, f: Found, accepted': seq<Request>)
    requires AsFound(u, accepted, fs)
    requires accepted' == if NeverFits(u, f.id, f.path) then accepted else accepted + [Request(KeyOf(u, f.id, f.path), f.path)]
    ensures AsFound(u, accepted', fs + [f])
    ensures AllFit(u, fs) && !NeverFits(u, f.id, f.path) ==> AllFit(u, fs + [f])
  {
    hide NeverFits, Asked;
    assert (fs + [f])[..|fs|] == fs;
    var r := Request(KeyOf(u, f.id, f.path), f.path);
    forall k: Key ensures Asked(k, accepted') == Fitting(u, k, fs + [f]) {
      AskedAppend(k, accepted, r);
      assert Asked(k, accepted) == Fitting(u, k, fs);
    }
  }

  lemma CutShort(u: Setup, s: State, accepted: seq<Request>, fs: seq<Found>)
    requires Kept(u, s, accepted) && AsFound(u, accepted, fs)
    ensures forall i :: 0 <= i < |s.commands| ==> CommandOk(u, s.commands[i])
    ensures forall k: Key :: Prefix(Given(k, s.commands), Fitting(u, k, fs))
  {
    hide Prefix;
    forall k: Key ensures Prefix(Given(k, s.commands), Fitting(u, k, fs)) {
      GivenIsPrefix(u, s, accepted, k);
      assert Asked(k, accepted) == Fitting(u, k, fs);
    }
  }

  lemma AllGiven(u: Setup, commands: seq<Command>, accepted: seq<Request>, fs: seq<Found>)
    requires AsFound(u, accepted, fs) && forall k: Key :: Given(k, commands) == Asked(k, accepted)
    ensures forall k: Key :: Given(k, commands) == Fitting(u, k, fs)
  {
    forall k: Key ensures Given(k, commands) == Fitting(u, k, fs) { assert Asked(k, accepted) == Fitting(u, k, fs); }
  }

  /** When every command can be run, a parallel worker fails if and only if some path
      is too large, and the ordered engine never. */
  method GatherWithoutFailures(u: Setup, strictness: Strictness, fs: seq<Found>, run: Runner)
    returns (commands: seq<Command>, handled: nat, r: Result<bool, Diagnostic>)
    requires forall cs :: run(cs).Ok?
    ensures r.Err? <==> strictness.Fails? && !AllFit(u, fs)
    ensures r.Ok? ==> forall k: Key :: Given(k, commands) == Fitting(u, k, fs)
  {
    commands, handled, r := GatherAll(u, strictness, fs, run);
    assert r.Ok? ==> fs[..handled] == fs;
  }
}
