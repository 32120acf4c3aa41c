/** Scanning one bucket for a key and for a free slot. */
module Lookup {
  import opened Hashing
  import opened Layout

  lemma FindSlotStep(u: Bucket, k: Key, partial: nat, i: nat)
    requires i < |u|
    ensures FindSlot(u[..i + 1], k, partial)
         == if FindSlot(u[..i], k, partial).Some? then FindSlot(u[..i], k, partial)
            else if Matches(u[i], k, partial) then Some(i) else None
  {
    assert u[..i + 1][..i] == u[..i];
  }

  lemma FreeSlotStep(u: Bucket, i: nat)
    requires i < |u|
    ensures FreeSlot(u[..i + 1]) == if u[i].Empty? then Some(i) else FreeSlot(u[..i])
  {
    assert u[..i + 1][..i] == u[..i];
  }

  /** The slot holding the key, or -1. */
  method TryReadFromBucket(u: Bucket, partial: nat, k: Key) returns (slot: int)
    requires NoMoved(u)
    ensures slot == match FindSlot(u, k, partial) case None => -1 case Some(j) => j
  {
    var i := 0;
    while i < |u|
      invariant 0 <= i <= |u| && FindSlot(u[..i], k, partial).None?
    {
      FindSlotStep(u, k, partial, i);
      if u[i].Empty? || partial != u[i].partial {
      } else if u[i].key == k {
        FindSlotFirst(u, k, partial, i);
        return i;
      }
      i := i + 1;
    }
    assert u[..|u|] == u;
    return -1;
  }

  /** Looks for the key and, on the way, for a free slot: the slot of the key and `false`, or else
      the last free slot (-1 when there is none) and `true`. */
  method TryFindInsertBucket(u: Bucket, partial: nat, k: Key) returns (vacant: bool, slot: int)
    requires NoMoved(u)
    ensures vacant <==> FindSlot(u, k, partial).None?
    ensures !vacant ==> FindSlot(u, k, partial) == Some(slot)
    ensures vacant ==> slot == match FreeSlot(u) case None => -1 case Some(j) => j
  {
    slot := -1;
    var i := 0;
    while i < |u|
      invariant 0 <= i <= |u| && FindSlot(u[..i], k, partial).None?
      invariant slot == match FreeSlot(u[..i]) case None => -1 case Some(j) => j
    {
      FindSlotStep(u, k, partial, i);
      FreeSlotStep(u, i);
      if !u[i].Empty? {
        if partial == u[i].partial && u[i].key == k {
          FindSlotFirst(u, k, partial, i);
          return false, i;
        }
      } else {
        slot := i;
      }
      i := i + 1;
    }
    assert u[..|u|] == u;
    return true, slot;
  }

  // Once found in a prefix, a key is found at the same place in the whole bucket.
  lemma {:induction false} FindSlotFirst(u: Bucket, k: Key, partial: nat, i: nat)
    requires i < |u| && FindSlot(u[..i + 1], k, partial).Some?
    ensures FindSlot(u, k, partial) == FindSlot(u[..i + 1], k, partial)
  {
    if i + 1 == |u| {
      assert u[..i + 1] == u;
    } else {
      var w := u[..|u| - 1];
      assert w[..i + 1] == u[..i + 1];
      FindSlotFirst(w, k, partial, i);
    }
  }
}
