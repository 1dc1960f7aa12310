/** Pending records and the in-memory store that holds them, for any kind of context. */
module PendingStore {
  import opened Prelude
  import opened Deferral

  datatype Record<C> = Record(id: string, createdAt: nat, expiresAt: nat, context: C, snapshot: Snapshot)

  function NewRecord<C>(id: string, context: C, snapshot: Snapshot, ttl: nat, now: nat): (r: Record<C>) {
    Record(id, now, now + ttl, context, snapshot)
  }

  predicate IsExpired<C>(record: Record<C>, now: nat) {
    now > record.expiresAt
  }

  type Records<C> = map<string, Record<C>>

  function Completed<C>(records: Records<C>, id: string, outcome: Outcome): (r: Records<C>) {
    if id in records then records[id := records[id].(snapshot := Complete(outcome))] else records
  }

  function Removed<C>(records: Records<C>, id: string): (r: Records<C>) {
    records - {id}
  }

  /** A poll reports the stored snapshot, or forgets a record that has expired. */
  function Polled<C>(records: Records<C>, id: string, now: nat): (r: (Records<C>, PollOutcome)) {
    if id !in records then (records, PollGone)
    else if IsExpired(records[id], now) then (Removed(records, id), PollGone)
    else (records, PollOf(records[id].snapshot))
  }

  class InMemoryPendingStore<C(==)> {
    var records: Records<C>

    constructor ()
      ensures records == map[]
    {
      records := map[];
    }

    method Create(record: Record<C>) returns (id: string)
      modifies this
      ensures records == old(records)[record.id := record] && id == record.id
    {
      id := record.id;
      records := records[id := record];
    }

    method Load(id: string) returns (found: Option<Record<C>>)
      ensures found == if id in records then Some(records[id]) else None
    {
      if id in records {
        found := Some(records[id]);
      } else {
        found := None;
      }
    }

    method Save(id: string, record: Record<C>)
      modifies this
      ensures records == old(records)[id := record]
    {
      records := records[id := record];
    }

    method CompleteWith(id: string, outcome: Outcome)
      modifies this
      ensures records == Completed(old(records), id, outcome)
    {
      if id in records {
        var record := records[id];
        record := record.(snapshot := Complete(outcome));
        records := records[id := record];
      }
    }

    method Remove(id: string)
      modifies this
      ensures records == Removed(old(records), id)
    {
      records := records - {id};
    }

    /** The first match of a scan in whatever order the map happens to iterate. */
    method FindIf(pred: Record<C> -> bool) returns (found: Option<(string, Record<C>)>)
      ensures found.Some? ==> found.value.0 in records && records[found.value.0] == found.value.1 && pred(found.value.1)
      ensures found.None? ==> forall id :: id in records ==> !pred(records[id])
    {
      var unseen := records.Keys;
      while unseen != {}
        invariant unseen <= records.Keys
        invariant forall id :: id in records && id !in unseen ==> !pred(records[id])
        decreases unseen
      {
        var id :| id in unseen;
        if pred(records[id]) {
          return Some((id, records[id]));
        }
        unseen := unseen - {id};
      }
      found := None;
    }
  }

  /** Load, forget if expired, otherwise report: shared by all three kinds of service. */
  method PollAuthPending<C>(store: InMemoryPendingStore<C>, id: string, now: nat) returns (outcome: PollOutcome)
    modifies store
    ensures (store.records, outcome) == Polled(old(store.records), id, now)
  {
    var found := store.Load(id);
    if found.None? {
      return PollGone;
    }
    if IsExpired(found.value, now) {
      store.Remove(id);
      return PollGone;
    }
    outcome := PollOf(found.value.snapshot);
  }
}
