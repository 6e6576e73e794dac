/** What every schedule of the parallel engine guarantees. */
module EngineTheorems {
  import opened Basics
  import opened Places
  import opened Barriers
  import opened Ledger
  import opened Engine
  import opened EngineFrames
  import opened EngineRuns
  import C = Chunking

  // ----- The log grows by one event at a time -----

  predicate Extends(log: seq<Event>, log': seq<Event>) {
    log' == log || (|log'| == |log| + 1 && log'[..|log|] == log)
  }

  lemma PostFrameLog(w: World, bk: Book, fl: Flags, f: Frame, stopped: bool, c: Choice, e: Effect)
    requires FrameStep(w, bk, fl, f, stopped, c) == Some(e)
    requires !f.PreLoop? && !f.PreVisiting? && !f.PreEvaluating? && !f.PreQuitting? && !f.PreDescending?
    requires !f.PreListing? && !f.PreOffering?
    ensures Extends(bk.log, e.book.log)
  {
    hide FrameItems, C.Push, C.Finish, C.ObserveQuit, EachOwes, FreshAll, Units, Singles, Finish, TellParent,
      StepPreLoop, StepPreVisiting, StepPreEvaluating, StepPreQuitting, StepPreDescending, StepPreListing, StepPreOffering;
  }

  lemma PreFrameLog(w: World, bk: Book, fl: Flags, f: Frame, stopped: bool, c: Choice, e: Effect)
    requires FrameStep(w, bk, fl, f, stopped, c) == Some(e)
    requires f.PreLoop? || f.PreVisiting? || f.PreEvaluating? || f.PreQuitting? || f.PreDescending? || f.PreListing? || f.PreOffering?
    ensures Extends(bk.log, e.book.log)
  {
    hide FrameItems, C.Push, C.Finish, C.ObserveQuit, FreshAll,
      StepBatchStart, StepBatchLoop, StepVisiting, StepListing, StepOpenRecord, StepSpillCheck, StepCompleting,
      StepEvaluating, StepQuitting, StepNotifying, StepPublishing, StartBatch;
  }

  lemma FrameStepLog(w: World, bk: Book, fl: Flags, f: Frame, stopped: bool, c: Choice, e: Effect)
    requires FrameStep(w, bk, fl, f, stopped, c) == Some(e)
    ensures Extends(bk.log, e.book.log)
  {
    hide FrameStep, Extends;
    if f.PreLoop? || f.PreVisiting? || f.PreEvaluating? || f.PreQuitting? || f.PreDescending? || f.PreListing? || f.PreOffering? {
      PreFrameLog(w, bk, fl, f, stopped, c, e);
    } else {
      PostFrameLog(w, bk, fl, f, stopped, c, e);
    }
  }

  lemma StepLog(w: World, s: State, m: Move, s': State)
    requires Step(w, s, m) == Some(s')
    ensures Extends(s.book.log, s'.book.log)
  {
    hide FrameStep, StackItems, TaskItems, PushAll, Enter;
    match s.workers[m.worker]
    case Running(On(f, _), stopped) =>
      FrameStepLog(w, s.book, s.flags, f, stopped, m.choice, FrameStep(w, s.book, s.flags, f, stopped, m.choice).value);
    case _ =>
  }

  /** Every prefix of the log was the whole log at some moment of the run. */
  lemma {:induction false} Moment(w: World, n: nat, moves: seq<Move>, s: State, i: nat) returns (past: State)
    requires Run(w, Initial(w, n), moves) == Some(s) && i <= |s.book.log|
    ensures Sound(w, past) && past.book.log == s.book.log[..i]
  {
    hide Sound, Step;
    if moves == [] {
      InitialSound(w, n);
      past := s;
    } else {
      var k := |moves| - 1;
      var mid := Run(w, Initial(w, n), moves[..k]).value;
      StepLog(w, mid, moves[k], s);
      if i <= |mid.book.log| {
        past := Moment(w, n, moves[..k], mid, i);
      } else {
        RunKeeps(w, n, moves, s);
        past := s;
      }
    }
  }

  /** The book and the items of that moment. */
  lemma BookThen(w: World, n: nat, moves: seq<Move>, s: State, i: nat) returns (bk: Book, t: multiset<Item>)
    requires Run(w, Initial(w, n), moves) == Some(s) && i <= |s.book.log|
    ensures Inv(w, bk, t) && bk.log == s.book.log[..i]
  {
    hide Inv, Total, Run, Initial;
    var past := Moment(w, n, moves, s, i);
    return past.book, Total(past);
  }

  // ----- Descendants first -----

  /** q lies in the subtree below p, strictly. */
  predicate Inside(w: World, p: Place, q: Place)
    decreases |q|
  {
    && |p| < |q|
    && var up := q[..|q| - 1];
       q[|q| - 1] < Kids(w, up) && (up == p || Inside(w, p, up))
  }

  lemma {:induction false} SettledHasEvent(log: seq<Event>, q: Place) returns (j: nat)
    requires Settled(log)[q] > 0
    ensures j < |log| && log[j].at == q && !log[j].Began?
  {
    var n := |log| - 1;
    if !log[n].Began? && log[n].at == q { return n; }
    j := SettledHasEvent(log[..n], q);
  }

  /** In a post-order book every place with an event has handed out all its children. */
  lemma EventMeansListed(w: World, bk: Book, t: multiset<Item>, j: nat)
    requires Inv(w, bk, t) && w.order.PostOrder? && j < |bk.log|
    ensures Handed(bk.handed, bk.log[j].at) == Kids(w, bk.log[j].at)
  {
    hide Begins, Ends, Settled, KidsSettled, Born;
    var p := bk.log[j].at;
    assert PlaceOk(w, bk, t, p);
    EventCounts(bk.log, j);
    EndsAreSettled(bk.log);
    assert ExpandOk(w, bk, t, p, Handed(bk.handed, p));
  }

  lemma {:induction false} InsideSettled(w: World, bk: Book, t: multiset<Item>, i: nat, q: Place)
    requires Inv(w, bk, t) && w.order.PostOrder? && i < |bk.log|
    requires Inside(w, bk.log[i].at, q)
    ensures Settled(bk.log[..i])[q] > 0
    decreases |q|
  {
    hide Settled, Born, PlaceOk, ExpandOk, SlotOk, BarrierOk;
    var p, up, k, log := bk.log[i].at, q[..|q| - 1], q[|q| - 1], bk.log;
    assert q == up + [k];
    if up == p {
      EventMeansListed(w, bk, t, i);
      assert KidsSettled(bk.handed, log[..i], p);
    } else {
      InsideSettled(w, bk, t, i, up);
      var j := SettledHasEvent(log[..i], up);
      EventMeansListed(w, bk, t, j);
      assert KidsSettled(bk.handed, log[..j], up);
      PrefixSettled(log[..i], j);
      assert log[..i][..j] == log[..j];
    }
  }

  lemma AtMostOnce(w: World, bk: Book, t: multiset<Item>, p: Place)
    requires Inv(w, bk, t)
    ensures Settled(bk.log)[p] <= 1 && Begins(bk.log)[p] <= 1
    ensures Settled(bk.log)[p] == 1 ==> Begins(bk.log)[p] == Ends(bk.log)[p]
    ensures Ends(bk.log)[p] <= Begins(bk.log)[p]
  {
    assert PlaceOk(w, bk, t, p);
    EndsAreSettled(bk.log);
  }

  /** Nothing is evaluated, passed over or reported twice, in any run. */
  lemma NothingTwice(w: World, n: nat, moves: seq<Move>, s: State, p: Place)
    requires Run(w, Initial(w, n), moves) == Some(s)
    ensures Begins(s.book.log)[p] <= 1 && Ends(s.book.log)[p] <= Begins(s.book.log)[p] && Settled(s.book.log)[p] <= 1
  {
    hide Inv, Total, Run, Initial;
    RunKeeps(w, n, moves, s);
    AtMostOnce(w, s.book, Total(s), p);
  }

  /** Post-order: when anything happens to an entry, its whole subtree has been
      evaluated, passed over or reported.  The run may have been cut short. */
  lemma SubtreeFirst(w: World, n: nat, moves: seq<Move>, s: State, i: nat, q: Place)
    requires Run(w, Initial(w, n), moves) == Some(s) && w.order.PostOrder?
    requires i < |s.book.log| && Inside(w, s.book.log[i].at, q)
    ensures Settled(s.book.log[..i])[q] == 1
  {
    hide Inv, Inside, Settled, Run, Initial;
    var bk, t := BookThen(w, n, moves, s, i + 1);
    assert bk.log[..i] == s.book.log[..i];
    InsideSettled(w, bk, t, i, q);
    AtMostOnce(w, bk, t, q);
    PrefixSettled(bk.log, i);
  }

  /** Once an entry is settled nothing more can be logged about it. */
  lemma NoEventAfterSettling(log: seq<Event>, e: Event)
    requires Ends(log)[e.at] <= Begins(log)[e.at]
    requires Settled(log)[e.at] == 1 ==> Begins(log)[e.at] == Ends(log)[e.at]
    requires Settled(log + [e])[e.at] <= 1
    requires Settled(log + [e])[e.at] == 1 ==> Begins(log + [e])[e.at] == Ends(log + [e])[e.at]
    ensures Settled(log)[e.at] == 0 || Settled(log)[e.at] > 1
  {
    hide Begins, Ends, Settled;
    CountsAfter(log, e);
  }

  /** Nothing happens to an entry after it has been settled. */
  lemma SettledIsFinal(w: World, n: nat, moves: seq<Move>, s: State, i: nat, j: nat)
    requires Run(w, Initial(w, n), moves) == Some(s)
    requires i <= j < |s.book.log|
    ensures Settled(s.book.log[..i])[s.book.log[j].at] == 0
  {
    hide Inv, Run, Initial, Begins, Ends, Settled;
    var log, q := s.book.log, s.book.log[j].at;
    var before, t := BookThen(w, n, moves, s, j);
    AtMostOnce(w, before, t, q);
    var after, t' := BookThen(w, n, moves, s, j + 1);
    AtMostOnce(w, after, t', q);
    assert log[..j + 1] == log[..j] + [log[j]];
    NoEventAfterSettling(log[..j], log[j]);
    PrefixSettled(log[..j], i);
    assert log[..j][..i] == log[..i];
  }

  /** Post-order: every event at a descendant comes before every event at an
      ancestor. */
  lemma DescendantsFirst(w: World, n: nat, moves: seq<Move>, s: State, i: nat, j: nat)
    requires Run(w, Initial(w, n), moves) == Some(s) && w.order.PostOrder?
    requires i < |s.book.log| && j < |s.book.log|
    requires Inside(w, s.book.log[i].at, s.book.log[j].at)
    ensures j < i
  {
    hide Run, Initial, Settled, Inside;
    if j >= i {
      SubtreeFirst(w, n, moves, s, i, s.book.log[j].at);
      SettledIsFinal(w, n, moves, s, i, j);
    }
  }

  /** Pre-order: an entry is touched only after its parent has been settled. */
  lemma ParentsFirst(w: World, n: nat, moves: seq<Move>, s: State, j: nat)
    requires Run(w, Initial(w, n), moves) == Some(s) && w.order.PreOrder?
    requires j < |s.book.log| && |s.book.log[j].at| > 1
    ensures Settled(s.book.log[..j])[s.book.log[j].at[..|s.book.log[j].at| - 1]] == 1
  {
    hide Run, Initial, Begins, Ends, Settled;
    var log, q := s.book.log, s.book.log[j].at;
    var up := q[..|q| - 1];
    var bk, t := BookThen(w, n, moves, s, j + 1);
    assert log[..j + 1] == log[..j] + [log[j]];
    TouchedMeansBorn(w, bk, t, j);
    ListedMeansSettled(w, bk, t, up);
    OtherCounts(log[..j], log[j], up);
    AtMostOnce(w, bk, t, up);
  }

  lemma TouchedMeansBorn(w: World, bk: Book, t: multiset<Item>, j: nat)
    requires Inv(w, bk, t) && j < |bk.log|
    ensures Born(w, bk.handed, bk.log[j].at)
  {
    hide Begins, Ends, Settled, KidsSettled, Born;
    assert PlaceOk(w, bk, t, bk.log[j].at);
    EventCounts(bk.log, j);
    EndsAreSettled(bk.log);
  }

  lemma ListedMeansSettled(w: World, bk: Book, t: multiset<Item>, p: Place)
    requires Inv(w, bk, t) && w.order.PreOrder? && p in bk.handed
    ensures Settled(bk.log)[p] > 0
  {
    assert PlaceOk(w, bk, t, p);
  }

  lemma OtherCounts(log: seq<Event>, e: Event, p: Place)
    requires p != e.at
    ensures Settled(log + [e])[p] == Settled(log)[p]
  {
    LogAppend(log, e);
  }
}
