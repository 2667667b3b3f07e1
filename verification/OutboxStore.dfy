/** The IndexedDB object store behind the outbox: auto-incremented keys, a unique index, key-ordered reads. */
module OutboxStores {
  import opened Domain
  import opened Outbox
  import opened OutboxInvariants

  /** The stored records with keys below `n`, in key order. */
  function InKeyOrder(records: map<nat, PendingScan>, n: nat): seq<PendingScan>
  {
    if n == 0 then []
    else InKeyOrder(records, n - 1) + (if n - 1 in records then [records[n - 1]] else [])
  }

  lemma {:induction false} WithoutAppend(a: seq<PendingScan>, b: seq<PendingScan>, id: nat)
    ensures Without(a + b, id) == Without(a, id) + Without(b, id)
  {
    if a == [] {
      assert a + b == b;
    } else {
      assert (a + b)[1..] == a[1..] + b;
      WithoutAppend(a[1..], b, id);
    }
  }

  ghost predicate KeyedById(records: map<nat, PendingScan>)
  {
    forall id | id in records :: records[id].id == id
  }

  lemma {:induction false} DeleteInOrder(records: map<nat, PendingScan>, id: nat, n: nat)
    requires KeyedById(records)
    ensures InKeyOrder(records - {id}, n) == Without(InKeyOrder(records, n), id)
  {
    if n > 0 {
      DeleteInOrder(records, id, n - 1);
      WithoutAppend(InKeyOrder(records, n - 1), if n - 1 in records then [records[n - 1]] else [], id);
    }
  }

  lemma {:induction false} PutInOrder(records: map<nat, PendingScan>, id: nat, attempts: nat, n: nat)
    requires KeyedById(records) && id in records
    ensures InKeyOrder(records[id := records[id].(attempts := attempts)], n)
            == Patched(InKeyOrder(records, n), id, attempts)
  {
    if n > 0 {
      PutInOrder(records, id, attempts, n - 1);
    }
  }

  lemma {:induction false} AddInOrder(records: map<nat, PendingScan>, key: nat, r: PendingScan, n: nat)
    requires n <= key
    ensures InKeyOrder(records[key := r], n) == InKeyOrder(records, n)
  {
    if n > 0 {
      AddInOrder(records, key, r, n - 1);
    }
  }

  lemma {:induction false} MembersInOrder(records: map<nat, PendingScan>, n: nat)
    ensures forall r :: r in InKeyOrder(records, n) <==> exists k | k in records && k < n :: records[k] == r
  {
    if n > 0 {
      MembersInOrder(records, n - 1);
    }
  }

  /** Reading in key order is reading in insertion order. */
  lemma {:induction false} KeyOrderIncreasing(records: map<nat, PendingScan>, n: nat)
    requires KeyedById(records)
    ensures Increasing(InKeyOrder(records, n))
    ensures forall j | 0 <= j < |InKeyOrder(records, n)| :: InKeyOrder(records, n)[j].id < n
  {
    if n > 0 {
      KeyOrderIncreasing(records, n - 1);
    }
  }

  class OutboxStore {
    var records: map<nat, PendingScan>
    var nextKey: nat

    ghost predicate Valid()
      reads this
    {
      KeyedById(records) && forall id | id in records :: id < nextKey
    }

    ghost function Contents(): seq<PendingScan>
      reads this
    {
      InKeyOrder(records, nextKey)
    }

    constructor ()
      ensures Valid() && Contents() == [] && nextKey == 1
    {
      records, nextKey := map[], 1;
    }

    /** Adds a record under a fresh key; a failed transaction gives its key back. */
    method AddPendingScan(draft: Draft, storageOk: bool) returns (id: Option<nat>)
      requires Valid()
      modifies this
      ensures Valid()
      ensures if Stores(old(Contents()), draft, storageOk)
              then id == Some(old(nextKey)) && nextKey == old(nextKey) + 1
                   && Contents() == old(Contents()) + [PendingScan(old(nextKey), draft, 0)]
              else id == None && nextKey == old(nextKey) && Contents() == old(Contents())
    {
      MembersInOrder(records, nextKey);
      if !storageOk || exists k | k in records :: records[k].draft.clientEventId == draft.clientEventId {
        return None;
      }
      var r := PendingScan(nextKey, draft, 0);
      AddInOrder(records, nextKey, r, nextKey);
      records := records[nextKey := r];
      id := Some(nextKey);
      nextKey := nextKey + 1;
    }

    method GetPendingScans() returns (items: seq<PendingScan>)
      requires Valid()
      ensures items == Contents()
    {
      items := [];
      for key := 0 to nextKey
        invariant items == InKeyOrder(records, key)
      {
        if key in records {
          items := items + [records[key]];
        }
      }
    }

    method RemovePendingScan(id: nat, storageOk: bool) returns (done: bool)
      requires Valid()
      modifies this
      ensures Valid() && done == storageOk && nextKey == old(nextKey)
      ensures Contents() == if storageOk then Without(old(Contents()), id) else old(Contents())
      ensures storageOk ==> forall r :: r in Contents() <==> r in old(Contents()) && r.id != id
    {
      if !storageOk {
        return false;
      }
      DeleteInOrder(records, id, nextKey);
      WithoutIff(Contents(), id);
      records := records - {id};
      done := true;
    }

    /** Reads the record, merges the new attempt count and writes it back; a missing record is left alone. */
    method UpdatePendingScan(id: nat, attempts: nat, storageOk: bool) returns (done: bool)
      requires Valid()
      modifies this
      ensures Valid() && done == storageOk && nextKey == old(nextKey)
      ensures Contents() == if storageOk then Patched(old(Contents()), id, attempts) else old(Contents())
    {
      if !storageOk {
        return false;
      }
      if id in records {
        PutInOrder(records, id, attempts, nextKey);
        records := records[id := records[id].(attempts := attempts)];
      } else {
        MembersInOrder(records, nextKey);
        PatchedAbsent(Contents(), id, attempts);
      }
      done := true;
    }

    method CountPendingScans() returns (n: nat)
      requires Valid()
      ensures n == |Contents()|
    {
      CountInOrder(records, nextKey);
      assert records.Keys == set k | k in records && k < nextKey;
      n := |records|;
    }
  }

  lemma PatchedAbsent(q: seq<PendingScan>, id: nat, attempts: nat)
    requires forall r | r in q :: r.id != id
    ensures Patched(q, id, attempts) == q
  {
  }

  lemma {:induction false} CountInOrder(records: map<nat, PendingScan>, n: nat)
    ensures |InKeyOrder(records, n)| == |set k | k in records && k < n|
  {
    if n == 0 {
      assert (set k | k in records && k < 0) == {};
    } else {
      CountInOrder(records, n - 1);
      var below := set k | k in records && k < n - 1;
      assert (set k | k in records && k < n) == below + (if n - 1 in records then {n - 1} else {});
    }
  }
}
