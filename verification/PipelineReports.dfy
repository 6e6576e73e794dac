/** What the two ways of running a plan report, told item by item of the walk. */
module PipelineReports {
  import opened Basics
  import opened Expressions
  import opened Evaluation
  import opened EvaluationLaws
  import opened Pipeline
  import W = Walker

  // ----- The walk item by item -----

  predicate Due(p: Plan, w: Walked) {
    w.Reached? && w.entry.depth >= p.minDepth
  }

  /** The records of the first n items of the walk, every due entry evaluated. */
  function RecordsTo(p: Plan, walk: seq<Walked>, n: nat): seq<Record>
    requires n <= |walk|
  {
    if n == 0 then []
    else
      var g := RecordsTo(p, walk, n - 1);
      if Due(p, walk[n - 1]) then g + Tagged(walk[n - 1].entry, EvaluateEntry(p, g, walk[n - 1].entry).history) else g
  }

  /** What evaluating item number i comes to. */
  function VerdictAt(p: Plan, walk: seq<Walked>, i: nat): Verdict
    requires i < |walk| && Due(p, walk[i])
  {
    EvaluateEntry(p, RecordsTo(p, walk, i), walk[i].entry)
  }

  predicate BreaksAt(p: Plan, walk: seq<Walked>, i: nat)
    requires i < |walk|
  {
    Due(p, walk[i]) && VerdictAt(p, walk, i).result.Err?
  }

  predicate StopsAt(p: Plan, walk: seq<Walked>, i: nat)
    requires i < |walk|
  {
    Due(p, walk[i]) && VerdictAt(p, walk, i).result.Ok? && VerdictAt(p, walk, i).result.value.status.stop
  }

  ghost predicate TroubleIn(walk: seq<Walked>) {
    exists i :: 0 <= i < |walk| && walk[i].Trouble?
  }

  lemma RecordsNext(p: Plan, walk: seq<Walked>, i: nat)
    requires i < |walk|
    ensures RecordsTo(p, walk, i + 1)
         == if Due(p, walk[i]) then RecordsTo(p, walk, i) + Tagged(walk[i].entry, VerdictAt(p, walk, i).history)
            else RecordsTo(p, walk, i)
  {
    hide EvaluateEntry, Tagged;
  }

  lemma TroubleNext(walk: seq<Walked>, i: nat)
    requires i < |walk|
    ensures TroubleIn(walk[..i + 1]) <==> TroubleIn(walk[..i]) || walk[i].Trouble?
  {
    var more := walk[..i + 1];
    assert forall j :: 0 <= j < i ==> more[j] == walk[..i][j];
    if walk[i].Trouble? { assert more[i].Trouble?; }
    if TroubleIn(walk[..i]) {
      var j :| 0 <= j < i && walk[..i][j].Trouble?;
      assert more[j].Trouble?;
    }
  }

  // ----- The inline engine -----

  /** The first n items have been looked at, and none before the last of them broke off
      or asked to stop. */
  ghost predicate LooksAt(p: Plan, walk: seq<Walked>, n: nat) {
    && n <= |walk|
    && (forall i :: 0 <= i < n - 1 ==> !BreaksAt(p, walk, i) && !StopsAt(p, walk, i))
    && (n < |walk| ==> n > 0 && (BreaksAt(p, walk, n - 1) || StopsAt(p, walk, n - 1)))
  }

  ghost predicate Calmly(p: Plan, walk: seq<Walked>, n: nat) {
    n <= |walk| && forall i :: 0 <= i < n ==> !BreaksAt(p, walk, i) && !StopsAt(p, walk, i)
  }

  /** The result after the first n items. */
  ghost function ResultAfter(p: Plan, walk: seq<Walked>, n: nat, failures: bool): Result<Summary, Diagnostic>
    requires n <= |walk|
  {
    var g := RecordsTo(p, walk, n);
    if n > 0 && BreaksAt(p, walk, n - 1) then Err(VerdictAt(p, walk, n - 1).result.error)
    else match p.flush(g)
      case Err(error) => Err(error)
      case Ok(flushed) => Ok(Summary(TroubleIn(walk[..n]), failures || flushed.failed))
  }

  lemma {:induction false} InlineFrom(p: Plan, walk: seq<Walked>, i: nat, trouble: bool) returns (n: nat)
    requires i <= |walk| && Calmly(p, walk, i) && (trouble <==> TroubleIn(walk[..i]))
    ensures LooksAt(p, walk, n)
    ensures Inline(p, walk[i..], RecordsTo(p, walk, i), trouble) == Report(RecordsTo(p, walk, n), ResultAfter(p, walk, n, false))
    decreases |walk| - i
  {
    hide EvaluateEntry, Tagged, TroubleIn, RecordsTo;
    n := i;
    if i < |walk| {
      assert walk[i..][0] == walk[i] && walk[i..][1..] == walk[i + 1..];
      RecordsNext(p, walk, i);
      TroubleNext(walk, i);
      n := i + 1;
      if !BreaksAt(p, walk, i) && !StopsAt(p, walk, i) {
        n := InlineFrom(p, walk, i + 1, trouble || walk[i].Trouble?);
      }
    }
  }

  /** Inline: the due entries are evaluated one by one up to the first that breaks off or
      asks to stop.  An evaluation that breaks off, or a flush that does, is the result.
      Otherwise the run reports trouble if and only if the walk did so before it ended, and
      failed actions if and only if the flush says so of what was recorded. */
  lemma InlineReport(p: Plan, walk: seq<Walked>)
    ensures exists n ::
      && LooksAt(p, walk, n)
      && Inline(p, walk, [], false) == Report(RecordsTo(p, walk, n), ResultAfter(p, walk, n, false))
  {
    hide Inline, LooksAt, ResultAfter;
    assert walk[0..] == walk && walk[..0] == [];
    var n := InlineFrom(p, walk, 0, false);
  }

  lemma LooksAtOne(p: Plan, walk: seq<Walked>, m: nat, n: nat)
    requires LooksAt(p, walk, m) && LooksAt(p, walk, n)
    ensures m == n
  {
  }

  // ----- The pipelined engine -----

  /** One of the recorded actions answered that it failed. */
  ghost predicate SomeActionFailed(p: Plan, g: seq<Record>) {
    exists k :: 0 < k <= |g| && FailedAt(p, g[..k])
  }

  predicate FailedAt(p: Plan, g: seq<Record>) {
    p.sink(g).Ok? && p.sink(g).value.status.failed
  }

  lemma {:induction false} TaggedAt(e: W.Entry, h: seq<Action>, i: nat)
    requires i <= |h|
    ensures Tagged(e, h)[..i] == Tagged(e, h[..i])
    ensures i < |h| ==> Tagged(e, h)[i] == Record(e, h[i])
  {
    if i < |h| {
      var n := |h| - 1;
      if i < n {
        TaggedAt(e, h[..n], i);
        assert h[..n][..i] == h[..i];
      } else {
        assert Tagged(e, h)[..n] == Tagged(e, h[..n]);
      }
    } else {
      assert h[..i] == h;
    }
  }

  /** The status of an entry tells whether one of its own actions failed. */
  lemma EntryFailed(p: Plan, g: seq<Record>, e: W.Entry, v: Verdict, status: Status)
    requires v == EvaluateEntry(p, g, e) && v.result.Ok?
    requires status.failed <==> SomeActionFailed(p, g)
    ensures Merge(status, v.result.value.status).failed <==> SomeActionFailed(p, g + Tagged(e, v.history))
  {
    hide Direct, Tagged;
    var sink := SinkFor(p, g, e);
    StatusMeans(p.expr, p.tests(e), sink, []);
    var h, more := v.history, g + Tagged(e, v.history);
    forall j | 0 < j <= |h| ensures AnsweredFailed(sink, h[..j]) <==> FailedAt(p, more[..|g| + j]) {
      TaggedAt(e, h, j);
      assert more[..|g| + j] == g + Tagged(e, h)[..j];
    }
    assert forall k :: 0 < k <= |g| ==> more[..k] == g[..k];
    if v.result.value.status.failed {
      var j :| 0 < j <= |h| && AnsweredFailed(sink, h[..j]);
      assert FailedAt(p, more[..|g| + j]);
    }
    if SomeActionFailed(p, g) {
      var k :| 0 < k <= |g| && FailedAt(p, g[..k]);
      assert FailedAt(p, more[..k]);
    }
    if SomeActionFailed(p, more) {
      var k :| 0 < k <= |more| && FailedAt(p, more[..k]);
      if k > |g| { assert AnsweredFailed(sink, h[..k - |g|]); }
    }
  }

  /** The first n items have been looked at, and none before the last of them broke off. */
  ghost predicate CommitsTo(p: Plan, walk: seq<Walked>, n: nat) {
    && n <= |walk|
    && (forall i :: 0 <= i < n - 1 ==> !BreaksAt(p, walk, i))
    && (n < |walk| ==> n > 0 && BreaksAt(p, walk, n - 1))
  }

  /** The result after the first n items; all trouble that the walk reports counts. */
  ghost function CommittedResult(p: Plan, walk: seq<Walked>, n: nat): Result<Summary, Diagnostic>
    requires n <= |walk|
  {
    var g := RecordsTo(p, walk, n);
    if n > 0 && BreaksAt(p, walk, n - 1) then Err(VerdictAt(p, walk, n - 1).result.error)
    else match p.flush(g)
      case Err(error) => Err(error)
      case Ok(flushed) => Ok(Summary(TroubleIn(walk), SomeActionFailed(p, g) || flushed.failed))
  }

  lemma {:induction false} CommittedFrom(p: Plan, walk: seq<Walked>, i: nat, status: Status) returns (n: nat)
    requires i <= |walk| && (forall j :: 0 <= j < i ==> !BreaksAt(p, walk, j))
    requires status.failed <==> SomeActionFailed(p, RecordsTo(p, walk, i))
    ensures CommitsTo(p, walk, n)
    ensures Committed(p, Entries(walk[i..], p.minDepth), RecordsTo(p, walk, i), TroubleIn(walk), status)
         == Report(RecordsTo(p, walk, n), CommittedResult(p, walk, n))
    decreases |walk| - i
  {
    hide EvaluateEntry, Tagged, TroubleIn, SomeActionFailed, RecordsTo;
    n := i;
    if i < |walk| {
      assert walk[i..][0] == walk[i] && walk[i..][1..] == walk[i + 1..];
      RecordsNext(p, walk, i);
      n := i + 1;
      if !Due(p, walk[i]) {
        n := CommittedFrom(p, walk, i + 1, status);
      } else {
        var es := Entries(walk[i..], p.minDepth);
        assert es[0] == walk[i].entry && es[1..] == Entries(walk[i + 1..], p.minDepth);
        var v := VerdictAt(p, walk, i);
        if v.result.Ok? {
          EntryFailed(p, RecordsTo(p, walk, i), walk[i].entry, v, status);
          n := CommittedFrom(p, walk, i + 1, Merge(status, v.result.value.status));
        }
      }
    }
  }

  lemma {:induction false} AnyTroubleMeans(walk: seq<Walked>)
    ensures AnyTrouble(walk) <==> TroubleIn(walk)
  {
    if walk != [] {
      var rest := walk[1..];
      AnyTroubleMeans(rest);
      if TroubleIn(rest) {
        var i :| 0 <= i < |rest| && rest[i].Trouble?;
        assert walk[i + 1].Trouble?;
      }
      if TroubleIn(walk) {
        var i :| 0 <= i < |walk| && walk[i].Trouble?;
        if i > 0 { assert rest[i - 1].Trouble?; }
      }
    }
  }

  /** Pipelined: the due entries are committed one by one up to the first that breaks off,
      whether they ask to stop or not.  Otherwise the run reports trouble if and only if
      the walk did, and failed actions if and only if one of the recorded actions, or the
      flush, answered that it failed. */
  lemma PipelineReport(p: Plan, walk: seq<Walked>)
    ensures exists n ::
      && CommitsTo(p, walk, n)
      && Committed(p, Entries(walk, p.minDepth), [], AnyTrouble(walk), CLEAR)
         == Report(RecordsTo(p, walk, n), CommittedResult(p, walk, n))
  {
    hide Committed, Entries, CommitsTo, CommittedResult, AnyTrouble, TroubleIn;
    assert walk[0..] == walk;
    AnyTroubleMeans(walk);
    var n := CommittedFrom(p, walk, 0, CLEAR);
  }

  lemma CommitsToOne(p: Plan, walk: seq<Walked>, m: nat, n: nat)
    requires CommitsTo(p, walk, m) && CommitsTo(p, walk, n)
    ensures m == n
  {
  }

  // ----- The records -----

  function Offer(p: Plan, w: Walked): seq<Record> {
    if Due(p, w) then Tagged(w.entry, Actions(p.expr)) else []
  }

  /** The actions of the expression for each due entry, in the order of the walk. */
  function Offered(p: Plan, walk: seq<Walked>, n: nat): seq<Record>
    requires n <= |walk|
  {
    if n == 0 then [] else Offered(p, walk, n - 1) + Offer(p, walk[n - 1])
  }

  lemma {:induction false} TaggedKeepsOrder(e: W.Entry, s: seq<Action>, t: seq<Action>)
    requires Subsequence(s, t)
    ensures Subsequence(Tagged(e, s), Tagged(e, t))
    decreases |t|
  {
    if s != [] {
      var n := |t| - 1;
      if s[|s| - 1] == t[n] && Subsequence(s[..|s| - 1], t[..n]) {
        TaggedKeepsOrder(e, s[..|s| - 1], t[..n]);
        assert Tagged(e, t)[..n] == Tagged(e, t[..n]) && Tagged(e, s)[..|s| - 1] == Tagged(e, s[..|s| - 1]);
      } else {
        TaggedKeepsOrder(e, s, t[..n]);
        assert Tagged(e, t)[..n] == Tagged(e, t[..n]);
      }
    }
  }

  /** Whatever is recorded is an action of the expression for an entry of the walk at or
      beyond the minimum depth, in the order of the walk and, for each entry, of the
      expression. */
  lemma {:induction false} RecordsFollowTheWalk(p: Plan, walk: seq<Walked>, n: nat)
    requires n <= |walk|
    ensures Subsequence(RecordsTo(p, walk, n), Offered(p, walk, n))
  {
    hide EvaluateEntry, Tagged, Subsequence;
    if n > 0 {
      RecordsFollowTheWalk(p, walk, n - 1);
      var g := RecordsTo(p, walk, n - 1);
      if Due(p, walk[n - 1]) {
        var e := walk[n - 1].entry;
        OwnActions(p, g, e);
        TaggedKeepsOrder(e, EvaluateEntry(p, g, e).history, Actions(p.expr));
        Joined(g, Offered(p, walk, n - 1), Tagged(e, EvaluateEntry(p, g, e).history), Offer(p, walk[n - 1]));
      } else {
        MoreAfter(g, Offered(p, walk, n - 1), []);
      }
    } else {
      assert Subsequence<Record>([], []) by { NothingWithin(); }
    }
  }

  lemma NothingWithin()
    ensures Subsequence<Record>([], [])
  {
  }

  lemma OwnActions(p: Plan, g: seq<Record>, e: W.Entry)
    ensures Subsequence(EvaluateEntry(p, g, e).history, Actions(p.expr))
  {
    hide Direct, Subsequence, Actions;
    LeftToRight(p.expr, p.tests(e), SinkFor(p, g, e), []);
    var v := EvaluateEntry(p, g, e);
    assert v.history[0..] == v.history;
  }

  /** An action alone is recorded for every due entry. */
  lemma {:induction false} OneActionForEach(p: Plan, a: Action, walk: seq<Walked>, n: nat)
    requires p.expr == Act(a) && n <= |walk|
    ensures RecordsTo(p, walk, n) == Offered(p, walk, n)
  {
    hide Tagged;
    if n > 0 {
      OneActionForEach(p, a, walk, n - 1);
      assert [] + [a] == [a];
    }
  }

  // ----- Which plans are piped -----

  predicate OnlyRecords(a: Action) {
    a.Output? || a.Printf? || a.FilePrint? || a.FilePrintf?
  }

  lemma {:induction false} CommitSensitiveMeans(e: Expr)
    ensures ContainsCommitSensitive(e) <==> exists a :: a in Actions(e) && !OnlyRecords(a)
    decreases Nodes(e), 0
  {
    match e
    case And(items) => AnyCommitSensitiveMeans(items);
    case Or(l, r) =>
      CommitSensitiveMeans(l);
      CommitSensitiveMeans(r);
    case Not(i) => CommitSensitiveMeans(i);
    case Act(a) => assert Actions(e) == [a] && a in [a];
    case _ =>
  }

  lemma {:induction false} AnyCommitSensitiveMeans(items: seq<Expr>)
    ensures AnyCommitSensitive(items) <==> exists a :: a in ActionsOf(items) && !OnlyRecords(a)
    decreases NodesOf(items), 1
  {
    if items != [] {
      CommitSensitiveMeans(items[0]);
      AnyCommitSensitiveMeans(items[1..]);
    }
  }

  /** A plan is piped if and only if all it does is print to stdout or a file: no command,
      prompt, listing, deletion or -quit. */
  lemma PipedPlansOnlyPrint(e: Expr)
    ensures !ContainsCommitSensitive(e) <==> forall a :: a in Actions(e) ==> OnlyRecords(a)
    ensures !ContainsCommitSensitive(e) ==> Quit !in Actions(e) && Delete !in Actions(e)
  {
    CommitSensitiveMeans(e);
  }
}
