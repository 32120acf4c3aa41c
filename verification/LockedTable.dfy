/** The view of a table whose locks are all held: iteration, erasure at an iterator, comparison. */
module LockedTable {
  import opened Hashing
  import opened Layout
  import opened Doubling
  import opened Container
  import opened CuckooTable

  predicate Less(p: Position, q: Position) {
    p.index < q.index || (p.index == q.index && p.slot < q.slot)
  }

  ghost predicate LivePos(bs: Buckets, p: Position) {
    LiveAt(bs, p.index, p.slot)
  }

  function EndPos(bs: Buckets): Position {
    Position(|bs|, 0)
  }

  // Nothing is live strictly between `p` and `q`.
  ghost predicate Gap(bs: Buckets, p: Position, q: Position) {
    forall r: Position {:trigger LivePos(bs, r)} :: LivePos(bs, r) ==> !(Less(p, r) && Less(r, q))
  }

  ghost predicate Stop(bs: Buckets, p: Position) {
    p == EndPos(bs) || LivePos(bs, p)
  }

  /** `q` is the next live position after `p`, or the end. */
  ghost predicate Successor(bs: Buckets, p: Position, q: Position) {
    Less(p, q) && Stop(bs, q) && Gap(bs, p, q)
  }

  /** `q` is the last live position before `p`. */
  ghost predicate Predecessor(bs: Buckets, p: Position, q: Position) {
    Less(q, p) && LivePos(bs, q) && Gap(bs, q, p)
  }

  /** Stepping back from the next position returns to where we were. */
  lemma BackFromNext(bs: Buckets, p: Position, q: Position, r: Position)
    requires LivePos(bs, p) && Successor(bs, p, q) && Predecessor(bs, q, r)
    ensures r == p
  {
    assert !(Less(p, r) && Less(r, q));
    assert !(Less(r, p) && Less(p, q));
  }

  /** Stepping forward from the previous position returns to where we were. */
  lemma NextFromBack(bs: Buckets, p: Position, q: Position, r: Position)
    requires Stop(bs, p) && Predecessor(bs, p, q) && Successor(bs, q, r)
    ensures r == p
  {
    if LivePos(bs, p) {
      assert !(Less(q, p) && Less(p, r));
    }
    if LivePos(bs, r) {
      assert !(Less(q, r) && Less(r, p));
    }
  }

  ghost predicate Clean(c: BucketContainer)
    reads c
  {
    c.Valid() && c.data.Some? && c.slots >= 1 && forall b | 0 <= b < |c.data.value| :: NoMoved(c.data.value[b])
  }

  /** An iterator over the buckets of a locked table. */
  class ConstIterator {
    const buckets: BucketContainer
    var index: nat
    var slot: nat

    function Pos(): Position
      reads this
    {
      Position(index, slot)
    }

    // Stays if the position is the end or occupied, otherwise moves on to the next entry.
    constructor (buckets: BucketContainer, index: nat, slot: nat)
      requires Clean(buckets) && slot < buckets.slots && index <= |buckets.data.value|
      requires index == |buckets.data.value| ==> slot == 0
      ensures this.buckets == buckets && Stop(buckets.data.value, Pos())
      ensures var p := Position(index, slot);
              Pos() == p || (!LivePos(buckets.data.value, p) && Successor(buckets.data.value, p, Pos()))
    {
      this.buckets := buckets;
      this.index := index;
      this.slot := slot;
      new;
      if index != |buckets.data.value| && !buckets.Occupied(index, slot) {
        Inc();
      }
    }

    /** Moves to the next entry or to the end. */
    method Inc()
      requires Clean(buckets) && index < |buckets.data.value| && slot < buckets.slots
      modifies this
      ensures Successor(buckets.data.value, old(Pos()), Pos())
    {
      ghost var bs, p := buckets.data.value, Pos();
      slot := slot + 1;
      while index < |buckets.data.value|
        invariant index <= |bs| && slot <= buckets.slots && Less(p, Pos()) && Gap(bs, p, Pos())
        invariant index == |bs| ==> slot == 0
        decreases |bs| - index
      {
        ghost var i := index;
        while slot < buckets.slots
          invariant index == i && slot <= buckets.slots && Less(p, Pos()) && Gap(bs, p, Pos())
        {
          if buckets.Occupied(index, slot) {
            assert NoMoved(bs[index]);
            return;
          }
          GapPastFree(bs, p, Pos());
          slot := slot + 1;
        }
        GapPastBucket(bs, p, Pos(), buckets.slots);
        slot := 0;
        index := index + 1;
      }
    }

    /** Moves back to the previous entry. There must be one. */
    method Dec()
      requires Clean(buckets) && index <= |buckets.data.value| && slot < buckets.slots
      requires index == |buckets.data.value| ==> slot == 0
      requires exists q :: LivePos(buckets.data.value, q) && Less(q, Pos())
      modifies this
      ensures Predecessor(buckets.data.value, old(Pos()), Pos())
    {
      ghost var bs, p := buckets.data.value, Pos();
      ghost var q :| LivePos(bs, q) && Less(q, p);
      StepBack(bs, p, q);
      while !buckets.Occupied(index, slot)
        invariant index < |bs| && slot < buckets.slots && Less(Pos(), p) && Gap(bs, Pos(), p)
        invariant q == Pos() || Less(q, Pos())
        decreases index, slot
      {
        StepBack(bs, p, q);
      }
      assert NoMoved(bs[index]);
    }

    // One slot back.
    method StepBack(ghost bs: Buckets, ghost p: Position, ghost q: Position)
      requires Clean(buckets) && bs == buckets.data.value && index <= |bs| && slot < buckets.slots
      requires LivePos(bs, q) && Less(q, Pos()) && (index == |bs| ==> slot == 0)
      requires Pos() == p || (Less(Pos(), p) && Gap(bs, Pos(), p) && !LivePos(bs, Pos()))
      modifies this
      ensures index < |bs| && slot < buckets.slots && Less(Pos(), p) && Gap(bs, Pos(), p)
      ensures q == Pos() || Less(q, Pos())
      ensures index < old(index) || (index == old(index) && slot < old(slot))
    {
      if slot == 0 {
        index := index - 1;
        slot := buckets.slots - 1;
      } else {
        slot := slot - 1;
      }
      assert forall r: Position :: LivePos(bs, r) ==> r.slot < buckets.slots;
    }
  }

  lemma GapPastFree(bs: Buckets, p: Position, q: Position)
    requires Gap(bs, p, q) && !LivePos(bs, q)
    ensures Gap(bs, p, Position(q.index, q.slot + 1))
  {
    var q' := Position(q.index, q.slot + 1);
    assert forall r: Position :: Less(r, q') ==> r == q || Less(r, q);
  }

  lemma GapPastBucket(bs: Buckets, p: Position, q: Position, s: nat)
    requires Gap(bs, p, q) && q.slot >= s && forall b | 0 <= b < |bs| :: |bs[b]| == s
    ensures Gap(bs, p, Position(q.index + 1, 0))
  {
    var q' := Position(q.index + 1, 0);
    assert forall r: Position :: LivePos(bs, r) && Less(r, q') ==> Less(r, q);
  }

  ghost predicate Locked(m: CuckooMap)
    reads m, m.buckets, m.prev
  {
    m.Valid() && m.AllMigrated()
  }

  // Under all locks the table is its current buckets.
  lemma LockedFacts(m: CuckooMap)
    requires Locked(m)
    ensures WellFormed(m.env, m.buckets.hashpower, m.Cur()) && Clean(m.buckets) && Unique(m.Cur())
    ensures m.Logical() == Contents(m.Cur()) && m.Cur() == m.buckets.data.value
    ensures forall b: nat | b < |m.Cur()| :: m.Ready(b)
  {
    hide Doubling.View, Contents, Env.LockInd;
    SettledTable(m.env, m.buckets.hashpower, m.Cur(), m.prev.data, m.CurrentLocks());
    forall b: nat | b < |m.Cur()|
      ensures m.Ready(b)
    {
      StripeInRange(m.env, m.buckets.hashpower, m.CurrentLocks(), b);
    }
  }

  /** The number of entries, added up over the lock stripes. */
  method Size(m: CuckooMap) returns (n: int)
    requires m.Valid()
    ensures n == |m.Logical()|
  {
    hide LazyOk, Contents, FlagsOk;
    ghost var counts := CountsOf(m.CurrentLocks());
    n := 0;
    var l := 0;
    while l < |m.CurrentLocks()|
      invariant 0 <= l <= |m.CurrentLocks()| && n == Sum(counts[..l])
    {
      assert counts[..l + 1][..l] == counts[..l];
      n := n + m.CurrentLocks()[l].count;
      l := l + 1;
    }
    assert counts[..l] == counts;
  }

  ghost predicate Ascending(ps: seq<Position>) {
    forall i, j | 0 <= i < j < |ps| :: Less(ps[i], ps[j])
  }

  // The entries in `ps` are all those before `p`, in order.
  ghost predicate Visited(bs: Buckets, ps: seq<Position>, p: Position) {
    && Ascending(ps)
    && (forall r: Position {:trigger LivePos(bs, r)} :: LivePos(bs, r) && Less(r, p) ==> r in ps)
    && (forall i | 0 <= i < |ps| :: LivePos(bs, ps[i]) && Less(ps[i], p))
  }

  lemma VisitNext(bs: Buckets, ps: seq<Position>, p: Position, q: Position)
    requires Visited(bs, ps, p) && LivePos(bs, p) && Successor(bs, p, q)
    ensures Visited(bs, ps + [p], q)
  {
    forall r: Position | LivePos(bs, r) && Less(r, q)
      ensures r in ps + [p]
    {
      assert !(Less(p, r) && Less(r, q));
    }
  }

  ghost function KeysAt(bs: Buckets, ps: seq<Position>): set<Key>
    requires forall i | 0 <= i < |ps| :: LivePos(bs, ps[i])
  {
    set i | 0 <= i < |ps| && LivePos(bs, ps[i]) :: bs[ps[i].index][ps[i].slot].key
  }

  lemma OneSlotPerKey(bs: Buckets, p: Position, q: Position)
    requires Unique(bs) && LivePos(bs, p) && LivePos(bs, q) && Less(p, q)
    ensures bs[p.index][p.slot].key != bs[q.index][q.slot].key
  {
  }

  lemma KeysAtLast(bs: Buckets, ps: seq<Position>)
    requires |ps| > 0 && forall i | 0 <= i < |ps| :: LivePos(bs, ps[i])
    ensures var n := |ps| - 1;
            KeysAt(bs, ps) == KeysAt(bs, ps[..n]) + {bs[ps[n].index][ps[n].slot].key}
  {
    assert forall i | 0 <= i < |ps| - 1 :: ps[..|ps| - 1][i] == ps[i];
  }

  lemma {:induction false} KeysAtCount(bs: Buckets, ps: seq<Position>)
    requires Unique(bs) && Ascending(ps) && forall i | 0 <= i < |ps| :: LivePos(bs, ps[i])
    ensures |KeysAt(bs, ps)| == |ps|
  {
    if |ps| > 0 {
      var n := |ps| - 1;
      var last := bs[ps[n].index][ps[n].slot].key;
      KeysAtCount(bs, ps[..n]);
      KeysAtLast(bs, ps);
      assert last !in KeysAt(bs, ps[..n]) by {
        hide Unique;
        forall i | 0 <= i < n
          ensures bs[ps[i].index][ps[i].slot].key != last
        {
          OneSlotPerKey(bs, ps[i], ps[n]);
        }
      }
    }
  }

  lemma VisitedAll(bs: Buckets, ps: seq<Position>)
    requires Unique(bs) && Visited(bs, ps, EndPos(bs))
    ensures |ps| == |Contents(bs)| && forall r: Position :: r in ps <==> LivePos(bs, r)
  {
    KeysAtCount(bs, ps);
    ContentsRepresents(bs);
    forall k | k in Keys(bs)
      ensures k in KeysAt(bs, ps)
    {
      var b, j :| 0 <= b < |bs| && 0 <= j < |bs[b]| && bs[b][j].Live? && bs[b][j].key == k;
      assert LivePos(bs, Position(b, j));
    }
    forall k | k in KeysAt(bs, ps)
      ensures k in Keys(bs)
    {
      var i :| 0 <= i < |ps| && LivePos(bs, ps[i]) && bs[ps[i].index][ps[i].slot].key == k;
    }
    assert KeysAt(bs, ps) == Keys(bs);
  }

  /** Going from begin to end visits every entry exactly once, in order of position, in as many
      steps as the table has entries. */
  method Traverse(m: CuckooMap) returns (ps: seq<Position>)
    requires Locked(m)
    ensures Ascending(ps) && |ps| == |m.Logical()|
    ensures forall r: Position :: r in ps <==> LivePos(m.Cur(), r)
  {
    hide Contents, WellFormed, TableOk;
    LockedFacts(m);
    ghost var bs := m.Cur();
    var it := new ConstIterator(m.buckets, 0, 0);
    ps := [];
    while it.index != |m.buckets.data.value|
      invariant it.buckets == m.buckets && Stop(bs, it.Pos()) && Visited(bs, ps, it.Pos())
      invariant fresh(it)
      decreases |bs| - it.index, m.buckets.slots - it.slot
    {
      ghost var p := it.Pos();
      ps := ps + [Position(it.index, it.slot)];
      it.Inc();
      VisitNext(bs, ps[..|ps| - 1], p, it.Pos());
    }
    VisitedAll(bs, ps);
  }

  /** Erasing at an iterator removes its entry and returns an iterator to the next one. */
  method EraseAt(m: CuckooMap, pos: Position) returns (it: ConstIterator)
    requires Locked(m) && LivePos(m.Cur(), pos)
    modifies m`allLocks, m.buckets`data
    ensures Locked(m) && m.Logical() == old(m.Logical()) - {old(m.Cur()[pos.index][pos.slot].key)}
    ensures it.buckets == m.buckets && Stop(m.Cur(), it.Pos())
    ensures Successor(old(m.Cur()), pos, it.Pos())
  {
    hide Contents, WellFormed, TableOk, Doubling.View;
    LockedFacts(m);
    assert m.Ready(pos.index);
    CountedFacts(m.CurrentLocks(), m.env.LockInd(pos.index), -1);
    m.DelFromBucket(pos.index, pos.slot);
    LockedFacts(m);
    it := new ConstIterator(m.buckets, pos.index, pos.slot);
    SuccessorAfterErase(old(m.Cur()), m.Cur(), pos, it.Pos());
  }

  lemma SuccessorAfterErase(bs: Buckets, bs': Buckets, p: Position, q: Position)
    requires LivePos(bs, p) && bs' == Put(bs, p.index, p.slot, Empty) && Successor(bs', p, q)
    ensures Successor(bs, p, q)
  {
    PutSameBut(bs, p.index, p.slot, Empty);
    forall r: Position | LivePos(bs, r)
      ensures !(Less(p, r) && Less(r, q))
    {
      assert Less(p, r) ==> LivePos(bs', r);
    }
  }

  // A map included in another of the same size is that map.
  lemma SubmapOfSameSize(a: map<Key, Value>, b: map<Key, Value>)
    requires |a| == |b| && Includes(a, b)
    ensures a == b
  {
    SubsetOfSameSize(b.Keys, a.Keys);
    assert |a| == |a.Keys| && |b| == |b.Keys|;
  }

  lemma SubsetOfSameSize(s: set<Key>, t: set<Key>)
    requires s <= t && |s| == |t|
    ensures s == t
  {
    assert t == s + (t - s);
  }

  // Whether the entry at `p` of table `lt` has an equal entry in `m`.
  method HasEqual(m: CuckooMap, k: Key, v: Value) returns (r: bool)
    requires Locked(m)
    ensures r <==> k in m.Logical() && m.Logical()[k] == v
  {
    hide Contents, WellFormed, TableOk, Env.I1, Env.I2, Env.LockInd;
    LockedFacts(m);
    var hp := m.buckets.hashpower;
    var i1, i2 := m.env.I1(hp, k), m.env.I2(hp, k);
    var found, pos := m.CuckooFind(k, i1, i2);
    return found && m.Cur()[pos.index][pos.slot].val == v;
  }

  ghost predicate Includes(a: map<Key, Value>, b: map<Key, Value>) {
    forall k :: k in b ==> k in a && a[k] == b[k]
  }

  ghost predicate AgreesUpTo(m: map<Key, Value>, bs: Buckets, p: Position) {
    forall r: Position {:trigger LivePos(bs, r)} | LivePos(bs, r) && Less(r, p) ::
      var s := bs[r.index][r.slot];
      s.key in m && m[s.key] == s.val
  }

  lemma AgreesNext(m: map<Key, Value>, bs: Buckets, p: Position, q: Position)
    requires AgreesUpTo(m, bs, p) && LivePos(bs, p) && Successor(bs, p, q)
    requires bs[p.index][p.slot].key in m && m[bs[p.index][p.slot].key] == bs[p.index][p.slot].val
    ensures AgreesUpTo(m, bs, q)
  {
  }

  lemma AgreesAll(m: map<Key, Value>, bs: Buckets)
    requires Unique(bs) && AgreesUpTo(m, bs, EndPos(bs))
    ensures Includes(m, Contents(bs))
  {
    ContentsRepresents(bs);
    forall k | k in Contents(bs)
      ensures k in m && m[k] == Contents(bs)[k]
    {
      var b, j :| Holds(bs, k, b, j);
      assert LivePos(bs, Position(b, j)) && LiveAt(bs, b, j);
    }
  }

  // Looks for an entry of `lt` without an equal in `m`.
  method FindsDifference(m: CuckooMap, lt: CuckooMap) returns (r: bool)
    requires Locked(m) && Locked(lt)
    ensures !r <==> Includes(m.Logical(), lt.Logical())
  {
    hide Contents, WellFormed, TableOk, Successor, AgreesUpTo;
    LockedFacts(lt);
    ghost var bs, logical := lt.Cur(), m.Logical();
    ContentsRepresents(bs);
    var it := new ConstIterator(lt.buckets, 0, 0);
    AgreesStart(logical, bs, it.Pos());
    while it.index != |lt.buckets.data.value|
      invariant it.buckets == lt.buckets && Stop(bs, it.Pos()) && AgreesUpTo(logical, bs, it.Pos())
      invariant fresh(it)
      decreases |bs| - it.index, lt.buckets.slots - it.slot
    {
      ghost var p := it.Pos();
      var s := lt.buckets.data.value[it.index][it.slot];
      var same := HasEqual(m, s.key, s.val);
      if !same {
        assert LiveAt(bs, p.index, p.slot);
        return true;
      }
      it.Inc();
      AgreesNext(logical, bs, p, it.Pos());
      SuccessorIsLater(bs, p, it.Pos());
    }
    AgreesAll(logical, bs);
    return false;
  }

  lemma AgreesStart(m: map<Key, Value>, bs: Buckets, p: Position)
    requires p == Position(0, 0) || (!LivePos(bs, Position(0, 0)) && Successor(bs, Position(0, 0), p))
    ensures AgreesUpTo(m, bs, p)
  {
    assert forall r: Position :: r == Position(0, 0) || Less(Position(0, 0), r);
  }

  lemma SuccessorIsLater(bs: Buckets, p: Position, q: Position)
    requires Successor(bs, p, q)
    ensures Less(p, q)
  {
  }

  /** Equality checks the sizes and one inclusion only, and that is enough. */
  method Equal(m: CuckooMap, lt: CuckooMap) returns (r: bool)
    requires Locked(m) && Locked(lt)
    ensures r <==> m.Logical() == lt.Logical()
  {
    hide Contents, WellFormed, TableOk;
    var n1 := Size(m);
    var n2 := Size(lt);
    if n1 != n2 {
      return false;
    }
    var differs := FindsDifference(m, lt);
    if !differs {
      SubmapOfSameSize(m.Logical(), lt.Logical());
    }
    return !differs;
  }

  /** Inequality is written out separately and is the negation of equality. */
  method NotEqual(m: CuckooMap, lt: CuckooMap) returns (r: bool)
    requires Locked(m) && Locked(lt)
    ensures r <==> m.Logical() != lt.Logical()
  {
    hide Contents, WellFormed, TableOk;
    var n1 := Size(m);
    var n2 := Size(lt);
    if n1 != n2 {
      return true;
    }
    r := FindsDifference(m, lt);
    if !r {
      SubmapOfSameSize(m.Logical(), lt.Logical());
    }
  }
}
