/**
 The bucket container: the storage behind a table, with its hash power. `data` is `None` once the
 memory has been released.
 */
module Container {
  import opened Hashing
  import opened Bits
  import opened Layout
  import opened Doubling

  class BucketContainer {
    const slots: nat
    var hashpower: nat
    var data: Option<Buckets>

    ghost predicate Valid()
      reads this
    {
      data.Some? ==> |data.value| == Pow2(hashpower) && forall b | 0 <= b < |data.value| :: |data.value[b]| == slots
    }

    ghost predicate In(ind: int, slot: int)
      reads this
    {
      data.Some? && 0 <= ind < |data.value| && 0 <= slot < |data.value[ind]|
    }

    constructor (hp: nat, slots: nat)
      ensures Valid() && hashpower == hp && this.slots == slots
      ensures data == Some(BlankBuckets(Pow2(hp), slots))
    {
      this.slots := slots;
      hashpower := hp;
      data := Some(BlankBuckets(Pow2(hp), slots));
    }

    // A container whose memory has been released.
    constructor Released(slots: nat)
      ensures Valid() && hashpower == 0 && this.slots == slots && data == None
    {
      this.slots := slots;
      hashpower := 0;
      data := None;
    }

    function Occupied(ind: nat, slot: nat): bool
      requires In(ind, slot)
      reads this
    {
      !data.value[ind][slot].Empty?
    }

    // Constructs live data in a free slot.
    method SetKV(ind: nat, slot: nat, partial: nat, k: Key, v: Value)
      requires Valid() && In(ind, slot) && !Occupied(ind, slot)
      modifies this`data
      ensures Valid() && data == Some(Put(old(data.value), ind, slot, Live(k, v, partial)))
    {
      data := Some(Put(data.value, ind, slot, Live(k, v, partial)));
    }

    // Destroys the data of an occupied slot.
    method EraseKV(ind: nat, slot: nat)
      requires Valid() && In(ind, slot) && Occupied(ind, slot)
      modifies this`data
      ensures Valid() && data == Some(Put(old(data.value), ind, slot, Empty))
    {
      data := Some(Put(data.value, ind, slot, Empty));
    }

    // Moves the entry out of a live slot, which stays marked occupied.
    method TakeKV(ind: nat, slot: nat) returns (k: Key, v: Value, partial: nat)
      requires Valid() && In(ind, slot) && data.value[ind][slot].Live?
      modifies this`data
      ensures Valid() && data == Some(Put(old(data.value), ind, slot, Moved))
      ensures old(data.value[ind][slot]) == Live(k, v, partial)
    {
      var s := data.value[ind][slot];
      k, v, partial := s.key, s.val, s.partial;
      data := Some(Put(data.value, ind, slot, Moved));
    }

    // Writes the value of a live slot in place.
    method SetMapped(ind: nat, slot: nat, v: Value)
      requires Valid() && In(ind, slot) && data.value[ind][slot].Live?
      modifies this`data
      ensures Valid() && data == Some(Put(old(data.value), ind, slot, old(data.value[ind][slot]).(val := v)))
    {
      data := Some(Put(data.value, ind, slot, data.value[ind][slot].(val := v)));
    }

    // Destroys all live data and keeps the memory.
    method Clear()
      requires Valid() && data.Some?
      modifies this`data
      ensures Valid() && data == Some(BlankBuckets(Pow2(hashpower), slots))
    {
      ghost var n := |data.value|;
      var i := 0;
      while i < |data.value|
        invariant 0 <= i <= n && Valid() && data.Some? && |data.value| == n
        invariant forall b | 0 <= b < i :: AllEmpty(data.value[b])
      {
        var j := 0;
        while j < slots
          invariant 0 <= j <= slots && Valid() && data.Some? && |data.value| == n
          invariant forall b | 0 <= b < i :: AllEmpty(data.value[b])
          invariant forall c | 0 <= c < j :: data.value[i][c].Empty?
        {
          if Occupied(i, j) {
            EraseKV(i, j);
          }
          j := j + 1;
        }
        i := i + 1;
      }
      forall b | 0 <= b < n
        ensures data.value[b] == Blank(slots)
      {
        assert AllEmpty(data.value[b]);
      }
      assert data.value == BlankBuckets(n, slots);
    }

    // Destroys all data and releases the memory. Releasing twice is harmless.
    method ClearAndDeallocate()
      requires Valid()
      modifies this`data
      ensures Valid() && data == None
    {
      if data.None? {
        return;
      }
      Clear();
      data := None;
    }

    // Replaces the storage by fresh buckets of another size.
    method Renew(hp: nat)
      requires Valid()
      modifies this
      ensures Valid() && hashpower == hp && data == Some(BlankBuckets(Pow2(hp), slots))
    {
      ClearAndDeallocate();
      hashpower := hp;
      data := Some(BlankBuckets(Pow2(hp), slots));
    }

    method Swap(that: BucketContainer)
      requires Valid() && that.Valid() && slots == that.slots
      modifies this, that
      ensures Valid() && that.Valid()
      ensures hashpower == old(that.hashpower) && data == old(that.data)
      ensures that.hashpower == old(hashpower) && that.data == old(data)
    {
      var hp, d := that.hashpower, that.data;
      that.hashpower := hashpower;
      hashpower := hp;
      that.data := data;
      data := d;
    }

    // Copies or moves every occupied slot into fresh storage of the same or a larger size.
    method Transfer(dstHp: nat, move: bool) returns (dst: Buckets)
      requires Valid() && data.Some? && forall b | 0 <= b < |data.value| :: NoMoved(data.value[b])
      requires dstHp >= hashpower
      modifies this`data
      ensures Valid() && |dst| == Pow2(dstHp) && data.Some? && |data.value| == old(|data.value|) <= |dst|
      ensures forall b | 0 <= b < |dst| :: |dst[b]| == slots
      ensures forall b | 0 <= b < |data.value| :: dst[b] == old(data.value)[b]
      ensures forall b | 0 <= b < |data.value| :: data.value[b] == if move then Vacate(dst[b]) else dst[b]
      ensures forall b | |data.value| <= b < |dst| :: AllEmpty(dst[b])
    {
      ghost var was := data.value;
      Pow2Mono(hashpower, dstHp);
      var copy := new BucketContainer(dstHp, slots);
      var i := 0;
      while i < |data.value|
        invariant 0 <= i <= |was| && Valid() && data.Some? && |data.value| == |was|
        invariant copy.Valid() && copy.slots == slots && copy.data.Some? && |copy.data.value| == Pow2(dstHp)
        invariant forall b | 0 <= b < i :: copy.data.value[b] == was[b]
        invariant forall b | 0 <= b < i :: data.value[b] == if move then Vacate(was[b]) else was[b]
        invariant forall b | i <= b < |was| :: data.value[b] == was[b]
        invariant forall b | i <= b < |copy.data.value| :: AllEmpty(copy.data.value[b])
      {
        TransferBucket(copy, i, move);
        i := i + 1;
      }
      dst := copy.data.value;
    }

    method TransferBucket(dst: BucketContainer, i: nat, move: bool)
      requires dst != this && Valid() && dst.Valid() && dst.slots == slots
      requires data.Some? && dst.data.Some? && i < |data.value| <= |dst.data.value|
      requires NoMoved(data.value[i]) && AllEmpty(dst.data.value[i])
      modifies this`data, dst`data
      ensures Valid() && dst.Valid()
      ensures dst.data == Some(old(dst.data.value)[i := old(data.value[i])])
      ensures data == Some(old(data.value)[i := if move then Vacate(old(data.value[i])) else old(data.value[i])])
    {
      ghost var u, src0, dst0 := data.value[i], data.value, dst.data.value;
      var j := 0;
      while j < slots
        invariant 0 <= j <= slots && Valid() && dst.Valid() && data.Some? && dst.data.Some?
        invariant |data.value| == |src0| && |dst.data.value| == |dst0|
        invariant data.value == src0[i := data.value[i]] && dst.data.value == dst0[i := dst.data.value[i]]
        invariant forall c | 0 <= c < slots :: dst.data.value[i][c] == if c < j then u[c] else Empty
        invariant forall c | 0 <= c < slots :: data.value[i][c] == if move && c < j && u[c].Live? then Moved else u[c]
      {
        if Occupied(i, j) {
          if move {
            var k, v, p := TakeKV(i, j);
            dst.SetKV(i, j, p, k, v);
          } else {
            var s := data.value[i][j];
            dst.SetKV(i, j, s.partial, s.key, s.val);
          }
        }
        j := j + 1;
      }
      assert dst.data.value[i] == u;
      assert data.value[i] == if move then Vacate(u) else u;
    }
  }
}
