/** The table of counting barriers of the post-order engine. */
module Barriers {
  import opened Basics

  type BarrierId = nat

  /** A directory waits for its child units, a batch for its roots. */
  datatype Record<+E> =
    | Directory(entry: E, remaining: nat, notify: Option<BarrierId>)
    | Batch(remaining: nat, parent: BarrierId)

  datatype Release<+E> =
    | Nothing
    | Resume(entry: E, notify: Option<BarrierId>)
    | NotifyParent(parent: BarrierId)

  datatype Table<+E> = Table(nextId: nat, records: map<BarrierId, Record<E>>)

  /** fetch_add on the id counter. */
  function Reserve<E>(t: Table<E>): Table<E> {
    t.(nextId := t.nextId + 1)
  }

  function Insert<E>(t: Table<E>, id: BarrierId, r: Record<E>): Table<E> {
    t.(records := t.records[id := r])
  }

  /** One notification under the lock: a missing record is ignored, a count
      above one goes down, and the last notification takes the record out. */
  function Finish<E>(t: Table<E>, id: BarrierId): (Table<E>, Release<E>) {
    if id !in t.records then (t, Nothing)
    else
      var r := t.records[id];
      if r.remaining > 1 then (t.(records := t.records[id := r.(remaining := r.remaining - 1)]), Nothing)
      else
        var t' := t.(records := t.records - {id});
        match r
        case Directory(entry, _, notify) => (t', Resume(entry, notify))
        case Batch(_, parent) => (t', NotifyParent(parent))
  }

  class BarrierTable<E> {
    var nextId: nat
    var records: map<BarrierId, Record<E>>

    constructor ()
      ensures Contents() == Table(0, map[])
    {
      nextId := 0;
      records := map[];
    }

    ghost function Contents(): Table<E>
      reads this
    {
      Table(nextId, records)
    }

    method BeginDirectory(entry: E, spilledChildren: nat, notify: Option<BarrierId>) returns (id: BarrierId)
      modifies this
      ensures id == old(nextId)
      ensures Contents() == Insert(Reserve(old(Contents())), id, Directory(entry, spilledChildren, notify))
    {
      id := nextId;
      nextId := nextId + 1;
      records := records[id := Directory(entry, spilledChildren, notify)];
    }

    method BeginBatch(roots: nat, parent: BarrierId) returns (id: BarrierId)
      modifies this
      ensures id == old(nextId)
      ensures Contents() == Insert(Reserve(old(Contents())), id, Batch(roots, parent))
    {
      id := nextId;
      nextId := nextId + 1;
      records := records[id := Batch(roots, parent)];
    }

    method FinishSpilledChunk(id: BarrierId) returns (release: Release<E>)
      modifies this
      ensures (Contents(), release) == Finish(old(Contents()), id)
    {
      if id !in records {
        return Nothing;
      }
      var record := records[id];
      match record {
        case Directory(entry, remaining, notify) =>
          if remaining > 1 {
            records := records[id := Directory(entry, remaining - 1, notify)];
            return Nothing;
          }
        case Batch(remaining, parent) =>
          if remaining > 1 {
            records := records[id := Batch(remaining - 1, parent)];
            return Nothing;
          }
      }
      records := records - {id};
      match record {
        case Directory(entry, _, notify) => release := Resume(entry, notify);
        case Batch(_, parent) => release := NotifyParent(parent);
      }
    }
  }
}
