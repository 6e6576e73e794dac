/** Splitting the children of a wide directory into a local batch and spilled
    sibling chunks. */
module Chunking {
  const SPLIT_CHILD_THRESHOLD: nat := 32
  const SPILL_CHUNK_SIZE: nat := 32

  datatype Chunks<+T> = Chunks(local: seq<T>, buffer: seq<T>, spilled: seq<seq<T>>)

  datatype Plan<+T> = Plan(local: seq<T>, spilled: seq<seq<T>>)

  function Push<T>(c: Chunks<T>, child: T, maySplit: bool, threshold: nat, size: nat): Chunks<T> {
    if !maySplit || |c.local| < threshold then c.(local := c.local + [child])
    else if |c.buffer| + 1 >= size then c.(buffer := [], spilled := c.spilled + [c.buffer + [child]])
    else c.(buffer := c.buffer + [child])
  }

  function Flatten<T>(chunks: seq<seq<T>>): seq<T> {
    if chunks == [] then [] else Flatten(chunks[..|chunks| - 1]) + chunks[|chunks| - 1]
  }

  /** After a quit everything stays with this worker. */
  function ObserveQuit<T>(c: Chunks<T>): Chunks<T> {
    Chunks(c.local + Flatten(c.spilled) + c.buffer, [], [])
  }

  function Finish<T>(c: Chunks<T>): Plan<T> {
    Plan(c.local, if c.buffer == [] then c.spilled else c.spilled + [c.buffer])
  }

  lemma FlattenAppend<T>(chunks: seq<seq<T>>, chunk: seq<T>)
    ensures Flatten(chunks + [chunk]) == Flatten(chunks) + chunk
  {
    assert (chunks + [chunk])[..|chunks|] == chunks;
  }

  class ChunkAccumulator<T> {
    const splitThreshold: nat
    const chunkSize: nat
    var localStack: seq<T>
    var spillBuffer: seq<T>
    var spilledChunks: seq<seq<T>>

    constructor (splitThreshold: nat, chunkSize: nat)
      ensures Contents() == Chunks([], [], [])
      ensures this.splitThreshold == splitThreshold
      ensures this.chunkSize == if chunkSize == 0 then 1 else chunkSize
    {
      this.splitThreshold := splitThreshold;
      this.chunkSize := if chunkSize == 0 then 1 else chunkSize;
      localStack := [];
      spillBuffer := [];
      spilledChunks := [];
    }

    ghost function Contents(): Chunks<T>
      reads this
    {
      Chunks(localStack, spillBuffer, spilledChunks)
    }

    method Add(child: T, maySplit: bool)
      modifies this
      ensures Contents() == Push(old(Contents()), child, maySplit, splitThreshold, chunkSize)
    {
      if !maySplit || |localStack| < splitThreshold {
        localStack := localStack + [child];
        return;
      }
      spillBuffer := spillBuffer + [child];
      if |spillBuffer| >= chunkSize {
        spilledChunks := spilledChunks + [spillBuffer];
        spillBuffer := [];
      }
    }

    method DrainAfterQuit()
      modifies this
      ensures Contents() == ObserveQuit(old(Contents()))
    {
      var i := 0;
      while i < |spilledChunks|
        invariant i <= |spilledChunks|
        invariant spilledChunks == old(spilledChunks) && spillBuffer == old(spillBuffer)
        invariant localStack == old(localStack) + Flatten(spilledChunks[..i])
      {
        assert spilledChunks[..i + 1] == spilledChunks[..i] + [spilledChunks[i]];
        FlattenAppend(spilledChunks[..i], spilledChunks[i]);
        localStack := localStack + spilledChunks[i];
        i := i + 1;
      }
      assert spilledChunks[..i] == spilledChunks;
      spilledChunks := [];
      localStack := localStack + spillBuffer;
      spillBuffer := [];
    }

    method TakeSpilledChunks() returns (chunks: seq<seq<T>>)
      modifies this
      ensures chunks == old(Contents()).spilled
      ensures Contents() == old(Contents()).(spilled := [])
    {
      chunks := spilledChunks;
      spilledChunks := [];
    }

    method Complete() returns (plan: Plan<T>)
      modifies this
      ensures plan == Finish(old(Contents()))
    {
      if spillBuffer != [] {
        spilledChunks := spilledChunks + [spillBuffer];
        spillBuffer := [];
      }
      plan := Plan(localStack, spilledChunks);
    }
  }

  // ----- How a directory is split -----

  /** All children of a directory read while new work is accepted. */
  function PushEach<T>(children: seq<T>): Chunks<T> {
    if children == [] then Chunks([], [], [])
    else Push(PushEach(children[..|children| - 1]), children[|children| - 1], true, SPLIT_CHILD_THRESHOLD, SPILL_CHUNK_SIZE)
  }

  ghost predicate AllOfSize<T>(chunks: seq<seq<T>>, n: nat) {
    forall i :: 0 <= i < |chunks| ==> |chunks[i]| == n
  }

  function Contents<T>(c: Chunks<T>): seq<T> {
    c.local + Flatten(c.spilled) + c.buffer
  }

  lemma PushedOne<T>(c: Chunks<T>, child: T)
    requires |c.local| <= 32 && (|c.local| < 32 ==> c.spilled == [] && c.buffer == [])
    ensures Contents(Push(c, child, true, SPLIT_CHILD_THRESHOLD, SPILL_CHUNK_SIZE)) == Contents(c) + [child]
  {
    hide Flatten;
    if |c.local| < 32 {
      assert Flatten<T>([]) == [] by { FlattenNone<T>(); }
    } else if |c.buffer| + 1 >= 32 {
      FlattenAppend(c.spilled, c.buffer + [child]);
      assert Contents(c) + [child] == c.local + (Flatten(c.spilled) + (c.buffer + [child])) + [];
    } else {
      assert Contents(c) + [child] == c.local + Flatten(c.spilled) + (c.buffer + [child]);
    }
  }

  lemma FlattenNone<T>()
    ensures Flatten<T>([]) == []
  {
  }

  lemma {:induction false} PushedEach<T>(children: seq<T>)
    ensures var c := PushEach(children);
      && Contents(c) == children
      && AllOfSize(c.spilled, 32) && |c.buffer| < 32
      && (if |children| <= 32 then |c.local| == |children| && c.spilled == [] && c.buffer == [] else |c.local| == 32)
  {
    hide Contents, Flatten;
    if children != [] {
      var n := |children| - 1;
      PushedEach(children[..n]);
      PushedOne(PushEach(children[..n]), children[n]);
      assert children == children[..n] + [children[n]];
    } else {
      assert Contents(Chunks([], [], [])) == children by { FlattenNone<T>(); NoContents<T>(); }
    }
  }

  lemma NoContents<T>()
    ensures var none: Chunks<T> := Chunks([], [], []); Contents(none) == []
  {
  }

  /** Up to 32 children stay together.  Of more, the first 32 stay with the worker and the
      others are handed out in order, 32 at a time, with what is left over at the end. */
  lemma WideDirectoriesAreSplit<T>(children: seq<T>)
    ensures var plan := Finish(PushEach(children));
      && plan.local + Flatten(plan.spilled) == children
      && |plan.local| == (if |children| <= 32 then |children| else 32)
      && (forall i :: 0 <= i < |plan.spilled| ==> 0 < |plan.spilled[i]| <= 32)
      && (forall i :: 0 <= i < |plan.spilled| - 1 ==> |plan.spilled[i]| == 32)
  {
    hide PushEach;
    PushedEach(children);
    var c := PushEach(children);
    FlattenAppend(c.spilled, c.buffer);
    if |children| <= 32 { assert Flatten(c.spilled) == []; }
  }

  /** Once new work is refused nothing more is split off, and after a quit everything is
      back with the worker, in order but for what had been split off by then. */
  lemma NothingSplitWhenStopped<T>(c: Chunks<T>, child: T)
    ensures var more := Push(c, child, false, SPLIT_CHILD_THRESHOLD, SPILL_CHUNK_SIZE);
      more.local == c.local + [child] && more.buffer == c.buffer && more.spilled == c.spilled
    ensures Finish(ObserveQuit(c)) == Plan(c.local + Flatten(c.spilled) + c.buffer, [])
  {
  }
}
