/** Rebuilding the table at another size with the help of worker threads. */
module Expand {
  import opened Hashing
  import opened Bits
  import opened Layout
  import opened Doubling
  import opened Capacity
  import opened Container
  import opened CuckooTable
  import opened PathMove
  import opened Resize
  import opened MapSpec
  import opened Insertion

  datatype Range = Range(lo: nat, hi: nat)

  // The ranges follow each other without gaps from `lo` to `hi`.
  predicate Consecutive(rs: seq<Range>, lo: nat, hi: nat) {
    && |rs| > 0 && rs[0].lo == lo && rs[|rs| - 1].hi == hi
    && (forall w | 0 <= w < |rs| :: rs[w].lo <= rs[w].hi)
    && (forall w | 0 <= w < |rs| - 1 :: rs[w].hi == rs[w + 1].lo)
  }

  ghost function Product(a: nat, b: nat): nat {
    a * b
  }

  lemma ProductStep(a: nat, b: nat)
    requires b > 0
    ensures Product(a, b) == Product(a, b - 1) + a
  {
  }

  lemma Share(total: nat, n: nat) returns (left: nat)
    requires n > 0
    ensures left == Product(total / n, n) <= total
  {
    left := Product(total / n, n);
  }

  /** The ranges of the worker threads and, last, of the calling thread. */
  method ParallelRanges(start: nat, end: nat, extra: nat) returns (rs: seq<Range>)
    requires start <= end
    ensures |rs| == extra + 1 && Consecutive(rs, start, end)
    ensures forall w | 0 <= w < extra :: rs[w].hi == rs[w].lo + (end - start) / (extra + 1)
  {
    hide Product;
    var workers := 1 + extra;
    var work := (end - start) / workers;
    ghost var left := Share(end - start, workers);
    var from := start;
    rs := [];
    var i := 0;
    while i < extra
      invariant 0 <= i <= extra && |rs| == i
      invariant left == Product(work, workers - i) && from + left <= end
      invariant if i == 0 then from == start else rs[0].lo == start && rs[i - 1].hi == from
      invariant forall w | 0 <= w < i :: rs[w].hi == rs[w].lo + work
      invariant forall w | 0 <= w < i - 1 :: rs[w].hi == rs[w + 1].lo
    {
      rs := rs + [Range(from, from + work)];
      ProductStep(work, workers - i);
      left := left - work;
      from := from + work;
      i := i + 1;
    }
    ProductStep(work, workers - i);
    rs := rs + [Range(from, end)];
  }

  lemma {:induction false} RangesAscend(rs: seq<Range>, lo: nat, hi: nat, v: nat, w: nat)
    requires Consecutive(rs, lo, hi) && v < w < |rs|
    ensures rs[v].hi <= rs[w].lo
    decreases w - v
  {
    if v + 1 < w {
      RangesAscend(rs, lo, hi, v, w - 1);
    }
  }

  /** Every index belongs to exactly one worker. */
  lemma {:induction false} WorkIsPartitioned(rs: seq<Range>, lo: nat, hi: nat, x: nat) returns (w: nat)
    requires Consecutive(rs, lo, hi) && lo <= x < hi
    ensures w < |rs| && rs[w].lo <= x < rs[w].hi
    ensures forall v | 0 <= v < |rs| && rs[v].lo <= x < rs[v].hi :: v == w
  {
    w := 0;
    while rs[w].hi <= x
      invariant 0 <= w < |rs| && rs[w].lo <= x
      decreases |rs| - w
    {
      w := w + 1;
    }
    forall v | 0 <= v < |rs| && rs[v].lo <= x < rs[v].hi
      ensures v == w
    {
      if v < w {
        RangesAscend(rs, lo, hi, v, w);
      } else if w < v {
        RangesAscend(rs, lo, hi, w, v);
      }
    }
  }

  // The slots a list of workers goes through.
  ghost predicate Job(rs: seq<Range>, s: nat, p: Position) {
    p.slot < s && exists w :: 0 <= w < |rs| && rs[w].lo <= p.index < rs[w].hi
  }

  lemma JobsAreAll(rs: seq<Range>, n: nat, s: nat, p: Position)
    requires Consecutive(rs, 0, n)
    ensures Job(rs, s, p) <==> p.index < n && p.slot < s
  {
    if p.index < n {
      var w := WorkIsPartitioned(rs, 0, n, p.index);
    } else {
      forall w | 0 <= w < |rs|
        ensures rs[w].hi <= n
      {
        if w < |rs| - 1 {
          RangesAscend(rs, 0, n, w, |rs| - 1);
        }
      }
    }
  }

  function Slots(r: Range, s: nat): set<Position> {
    set b, j | r.lo <= b < r.hi && 0 <= j < s :: Position(b, j)
  }

  function Jobs(rs: seq<Range>, s: nat): set<Position> {
    if |rs| == 0 then {} else Jobs(rs[..|rs| - 1], s) + Slots(rs[|rs| - 1], s)
  }

  lemma {:induction false} JobsAre(rs: seq<Range>, s: nat, p: Position)
    ensures p in Jobs(rs, s) <==> Job(rs, s, p)
  {
    if |rs| > 0 {
      var n := |rs| - 1;
      JobsAre(rs[..n], s, p);
      assert Job(rs, s, p) <==> Job(rs[..n], s, p) || (p.slot < s && rs[n].lo <= p.index < rs[n].hi) by {
        if Job(rs[..n], s, p) {
          var w :| 0 <= w < n && rs[..n][w].lo <= p.index < rs[..n][w].hi;
          assert rs[w] == rs[..n][w];
        }
        if Job(rs, s, p) {
          var w :| 0 <= w < |rs| && rs[w].lo <= p.index < rs[w].hi;
          assert w < n ==> rs[..n][w] == rs[w];
        }
      }
    }
  }

  // `m` holds exactly the entries of `bs` whose slots are not among `todo`.
  ghost predicate Copied(bs: Buckets, todo: set<Position>, m: map<Key, Value>) {
    && (forall b, j {:trigger LiveAt(bs, b, j)} :: LiveAt(bs, b, j) && Position(b, j) !in todo
                                                   ==> bs[b][j].key in m && m[bs[b][j].key] == bs[b][j].val)
    && (forall k :: k in m ==> CopiedFrom(bs, todo, k))
  }

  ghost predicate CopiedFrom(bs: Buckets, todo: set<Position>, k: Key) {
    exists b, j :: Holds(bs, k, b, j) && Position(b, j) !in todo
  }

  lemma CopyStep(bs: Buckets, todo: set<Position>, m: map<Key, Value>, p: Position)
    requires Unique(bs) && Copied(bs, todo, m) && p in todo
    ensures !LiveAt(bs, p.index, p.slot) ==> Copied(bs, todo - {p}, m)
    ensures LiveAt(bs, p.index, p.slot) ==>
              var s := bs[p.index][p.slot]; s.key !in m && Copied(bs, todo - {p}, m[s.key := s.val])
  {
    var rest := todo - {p};
    forall k | CopiedFrom(bs, todo, k)
      ensures CopiedFrom(bs, rest, k)
    {
      var b, j :| Holds(bs, k, b, j) && Position(b, j) !in todo;
      assert Position(b, j) !in rest;
    }
    if LiveAt(bs, p.index, p.slot) {
      var k := bs[p.index][p.slot].key;
      assert Holds(bs, k, p.index, p.slot) && Position(p.index, p.slot) !in rest;
    }
  }

  lemma CopyDone(bs: Buckets, m: map<Key, Value>)
    requires Unique(bs) && Copied(bs, {}, m)
    ensures m == Contents(bs)
  {
    forall k | k in m
      ensures Stores(bs, k)
    {
      var b, j :| Holds(bs, k, b, j) && Position(b, j) !in {};
    }
    RepresentsOnce(bs, m);
  }

  lemma CopyStart(bs: Buckets, todo: set<Position>)
    requires forall b: nat, j: nat :: LiveAt(bs, b, j) ==> Position(b, j) in todo
    ensures Copied(bs, todo, map[])
  {
  }

  // The source's buckets while they are being emptied: slots not yet reached are as they were, the
  // entries of the others have been moved out.
  ghost predicate Draining(cur: Buckets, bs: Buckets, todo: set<Position>) {
    && |cur| == |bs|
    && (forall b | 0 <= b < |bs| :: |cur[b]| == |bs[b]|)
    && (forall p: Position | p in todo :: p.index < |bs| && p.slot < |bs[p.index]|)
    && (forall b: nat, j: nat {:trigger Position(b, j) in todo} | b < |bs| && j < |bs[b]| ::
          cur[b][j] == if Position(b, j) !in todo && bs[b][j].Live? then Moved else bs[b][j])
  }

  /** Some entries have been moved out; nothing else has changed. */
  ghost predicate PartlyDrained(cur: Buckets, bs: Buckets) {
    exists todo: set<Position> :: Draining(cur, bs, todo)
  }

  // What has been copied is part of the whole, and the slot's entry is not yet among it.
  lemma CopiedPart(bs: Buckets, todo: set<Position>, m: map<Key, Value>, p: Position)
    requires Unique(bs) && Copied(bs, todo, m) && p in todo && LiveAt(bs, p.index, p.slot)
    ensures Submap(m, Contents(bs)) && bs[p.index][p.slot].key in Contents(bs) && bs[p.index][p.slot].key !in m
  {
    hide Contents;
    ContentsRepresents(bs);
    forall k | k in m
      ensures k in Contents(bs) && Contents(bs)[k] == m[k]
    {
      assert CopiedFrom(bs, todo, k);
      var b, j :| Holds(bs, k, b, j) && Position(b, j) !in todo;
      assert LiveAt(bs, b, j);
    }
  }

  // Every hash power the table has been doubled from overflows.
  ghost predicate OnlyWhenFull(env: Env, m: map<Key, Value>, lo: nat, hi: nat, lim: Limits) {
    forall h: nat | lo <= h < hi :: Overflows(env, m, h, lim)
  }

  // The doublings of one insertion.
  lemma InsertOverflows(st: Start, k: Key, n: nat, m: map<Key, Value>)
    requires st.env.slots >= 1 && WellFormed(st.env, st.hp, st.bs) && StillRunning(st, k, n)
    requires k in m && Submap(Contents(st.bs), m)
    ensures OnlyWhenFull(st.env, m, st.hp, st.hp + n, st.lim)
  {
    hide WellFormed, Contents, Stuck, DoubledTimes, Sparse;
    forall h: nat | st.hp <= h < st.hp + n
      ensures Overflows(st.env, m, h, st.lim)
    {
      var i := h - st.hp;
      RoundsKeep(st, i);
      assert Continues(Rounds(st, i), k);
      assert Crammed(st.env, m, h, Rounds(st, i).bs, k);
    }
  }

  // An insertion that throws.
  lemma InsertFails(dst: CuckooMap, k: Key, m: map<Key, Value>)
    requires dst.Valid() && k in m && k !in dst.Logical() && Submap(dst.Logical(), m)
    requires Stuck(dst.env, dst.buckets.hashpower, dst.View(), k)
    ensures TooSparse(dst) ==> Fails(dst.env, m, dst.buckets.hashpower, LimitsOf(dst))
  {
    hide WellFormed, Contents, Stuck, Sparse, TableOk, Doubling.View;
    dst.ViewWellFormed();
    assert Crammed(dst.env, m, dst.buckets.hashpower, dst.View(), k);
  }

  // Moves one slot's entry, if it has one, into the new table.
  method CopySlot(src: BucketContainer, dst: CuckooMap, p: Position, ghost bs: Buckets, ghost todo: set<Position>)
    returns (thrown: Option<ResizeStatus>)
    requires src.Valid() && src.data.Some? && Draining(src.data.value, bs, todo) && p in todo
    requires Unique(bs) && (forall b | 0 <= b < |bs| :: NoMoved(bs[b]))
    requires dst.Valid() && dst.minLoad > 0.0 && src != dst.buckets && src != dst.prev
    requires Copied(bs, todo, dst.Logical())
    modifies src`data, dst`allLocks, dst`remaining, dst.buckets, dst.prev
    ensures src.Valid() && src.data.Some? && Draining(src.data.value, bs, todo - {p})
    ensures dst.Valid() && old(dst.buckets.hashpower) <= dst.buckets.hashpower
    ensures thrown.None? ==> Copied(bs, todo - {p}, dst.Logical())
    ensures thrown.Some? && dst.maxHashpower.None? ==> thrown.value == LoadFactorTooLow
    ensures OnlyWhenFull(dst.env, Contents(bs), old(dst.buckets.hashpower), dst.buckets.hashpower, LimitsOf(dst))
    ensures thrown == Some(LoadFactorTooLow) ==>
              Fails(dst.env, Contents(bs), dst.buckets.hashpower, LimitsOf(dst))
  {
    hide TableOk, Doubling.View, Contents, Copied, Overflows, Fails, Submap;
    CopyStep(bs, todo, dst.Logical(), p);
    thrown := None;
    if src.Occupied(p.index, p.slot) {
      assert NoMoved(bs[p.index]);
      CopiedPart(bs, todo, dst.Logical(), p);
      var k, v, _ := src.TakeKV(p.index, p.slot);
      thrown := InsertMoved(dst, k, v, Contents(bs));
    }
  }

  // Inserts an entry of `m` that the new table does not have yet.
  method InsertMoved(dst: CuckooMap, k: Key, v: Value, ghost m: map<Key, Value>) returns (thrown: Option<ResizeStatus>)
    requires dst.Valid() && dst.minLoad > 0.0 && k in m && k !in dst.Logical() && Submap(dst.Logical(), m)
    modifies dst`allLocks, dst`remaining, dst.buckets, dst.prev
    ensures dst.Valid() && old(dst.buckets.hashpower) <= dst.buckets.hashpower
    ensures thrown.None? ==> dst.Logical() == old(dst.Logical())[k := v]
    ensures thrown.Some? && dst.maxHashpower.None? ==> thrown.value == LoadFactorTooLow
    ensures OnlyWhenFull(dst.env, m, old(dst.buckets.hashpower), dst.buckets.hashpower, LimitsOf(dst))
    ensures thrown == Some(LoadFactorTooLow) ==> Fails(dst.env, m, dst.buckets.hashpower, LimitsOf(dst))
  {
    hide TableOk, Doubling.View, Contents, Stuck, StillRunning, StillStuck, Does, Overflows, Fails, Sparse, Submap,
      WellFormed, OnlyWhenFull, OnlyKeyMigrated, HomeHasRoom, Env.I1, Env.I2;
    dst.ViewWellFormed();
    ghost var st := StartOf(dst);
    var op := UpraseOp(k, x => (x, false), v);
    var r;
    r, thrown := Uprase(dst, false, op);
    InsertOverflows(st, k, dst.buckets.hashpower - st.hp, m);
    if thrown.Some? {
      InsertFails(dst, k, m);
    } else {
      DoesIsAfter(op, old(dst.Logical()), dst.Logical(), r);
    }
  }

  // Moves every entry into the new table, in whatever order the workers get to them.
  method CopyAll(m: CuckooMap, dst: CuckooMap) returns (thrown: Option<ResizeStatus>)
    requires m.Valid() && m.View() == m.Cur()
    requires dst.Valid() && dst.minLoad > 0.0 && dst.Logical() == map[] && dst.env == m.env
    requires {m.buckets, m.prev} !! {dst.buckets, dst.prev} && m != dst
    modifies m.buckets`data, dst`allLocks, dst`remaining, dst.buckets, dst.prev
    ensures m.buckets.Valid() && m.buckets.data.Some? && PartlyDrained(m.Cur(), old(m.Cur()))
    ensures dst.Valid() && old(dst.buckets.hashpower) <= dst.buckets.hashpower
    ensures thrown.None? ==> dst.Logical() == old(m.Logical())
    ensures thrown.Some? && dst.maxHashpower.None? ==> thrown.value == LoadFactorTooLow
    ensures OnlyWhenFull(dst.env, old(m.Logical()), old(dst.buckets.hashpower), dst.buckets.hashpower, LimitsOf(dst))
    ensures thrown == Some(LoadFactorTooLow) ==>
              Fails(dst.env, old(m.Logical()), dst.buckets.hashpower, LimitsOf(dst))
  {
    hide TableOk, Unmigrated, CountsOf, Doubling.View, Contents, Copied, Stuck, Jobs, Overflows, Fails;
    m.ViewWellFormed();
    ghost var bs := m.Cur();
    WellFormedUnique(m.env, m.buckets.hashpower, bs);
    var ranges := ParallelRanges(0, |m.Cur()|, m.workers);
    var todo := Jobs(ranges, m.env.slots);
    forall p: Position
      ensures p in todo <==> p.index < |bs| && p.slot < m.env.slots
    {
      JobsAre(ranges, m.env.slots, p);
      JobsAreAll(ranges, |bs|, m.env.slots, p);
    }
    CopyStart(bs, todo);
    thrown := None;
    while todo != {}
      invariant m.buckets.Valid() && m.buckets.data.Some? && Draining(m.buckets.data.value, bs, todo)
      invariant dst.Valid() && old(dst.buckets.hashpower) <= dst.buckets.hashpower
      invariant Copied(bs, todo, dst.Logical()) && thrown.None?
      invariant OnlyWhenFull(dst.env, Contents(bs), old(dst.buckets.hashpower), dst.buckets.hashpower, LimitsOf(dst))
      decreases |todo|
    {
      var p :| p in todo;
      thrown := CopySlot(m.buckets, dst, p, bs, todo);
      if thrown.Some? {
        return;
      }
      todo := todo - {p};
    }
    CopyDone(bs, dst.Logical());
  }

  lemma BelowTop(hp: nat)
    requires Pow2(hp) < TWO_64
    ensures Pow2(hp) <= TWO_63
  {
    Pow2At63();
    assert Pow2(64) == 2 * Pow2(63);
    hide Pow2;
    if hp > 63 {
      Pow2Mono(64, hp);
    } else {
      Pow2Mono(hp, 63);
    }
  }

  lemma BucketsForCapacity(s: nat, p: nat)
    requires 1 <= s && p * s <= TWO_64 - s
    ensures BucketsFor(s, p * s) == p < TWO_64
  {
    ModSmall(p * s + s - 1, TWO_64);
    DivModUnique(p * s + s - 1, s, p, s - 1);
    MulMono(1, s, p);
  }

  // Fills a fresh table of hash power `newHp` or more with the entries of `m`, leaving `m` drained.
  method Rebuild(m: CuckooMap, newHp: nat) returns (dst: CuckooMap, thrown: Option<ResizeStatus>)
    requires m.Valid() && m.View() == m.Cur()
    requires m.env.slots <= TWO_63 && Pow2(newHp) * m.env.slots <= TWO_64 - m.env.slots
    modifies m.buckets`data
    ensures fresh(dst) && fresh(dst.buckets) && fresh(dst.prev) && dst.env == m.env
    ensures m.buckets.Valid() && m.buckets.data.Some? && PartlyDrained(m.Cur(), old(m.Cur()))
    ensures thrown.Some? ==> thrown.value == LoadFactorTooLow
                             && Fails(m.env, old(m.Logical()), dst.buckets.hashpower, DefaultLimits())
    ensures dst.Valid() && newHp <= dst.buckets.hashpower
    ensures OnlyWhenFull(m.env, old(m.Logical()), newHp, dst.buckets.hashpower, DefaultLimits())
    ensures thrown.None? ==> dst.AllMigrated() && dst.prev.data == None && dst.View() == dst.Cur()
    ensures thrown.None? ==> dst.Logical() == old(m.Logical())
  {
    hide TableOk, Unmigrated, CountsOf, Doubling.View, Contents, Overflows, Fails;
    BucketsForCapacity(m.env.slots, Pow2(newHp));
    BelowTop(newHp);
    dst := new CuckooMap(m.env, Pow2(newHp) * m.env.slots);
    ReserveInverts(m.env.slots, newHp, dst.buckets.hashpower, Pow2(newHp) * m.env.slots);
    dst.workers := m.workers;
    thrown := CopyAll(m, dst);
    if thrown.None? {
      RehashAll(dst);
    }
  }

  // Takes over the buckets of a rebuilt table, growing the lock array if need be.
  method Adopt(m: CuckooMap, dst: CuckooMap, ghost hp: nat, ghost size: nat)
    requires m.Wired() && m.prev.data == None && |m.allLocks| > 0 && m.AllMigrated() && m.remaining == 0
    requires Covered(m.env, hp, m.CurrentLocks()) && Sum(CountsOf(m.CurrentLocks())) == size
    requires dst.Valid() && dst.prev.data == None && dst.env == m.env && dst.View() == dst.Cur()
    requires |dst.Logical()| == size
    requires {m.buckets, m.prev} !! {dst.buckets, dst.prev} && m != dst
    modifies m`allLocks, m.buckets, dst.buckets
    ensures m.Valid() && m.AllMigrated() && m.Logical() == old(dst.Logical())
    ensures m.buckets.hashpower == old(dst.buckets.hashpower) && m.Cur() == old(dst.Cur())
    ensures m.CurrentLocks() == Grown(m.env, old(m.CurrentLocks()), Pow2(m.buckets.hashpower))
  {
    hide TableOk, Unmigrated, CountsOf, Doubling.View, Contents, Grown, Covered;
    GrownOk(m.env, hp, m.CurrentLocks(), dst.buckets.hashpower);
    MaybeResizeLocks(m, Pow2(dst.buckets.hashpower));
    AdoptOk(m.env, dst.buckets.hashpower, dst.Cur(), dst.CurrentLocks(), m.CurrentLocks());
    UnmigratedZero(m.CurrentLocks());
    m.buckets.Swap(dst.buckets);
  }

  // Nothing goes wrong without entries.
  lemma NothingOverflows(env: Env, m: map<Key, Value>)
    ensures m == map[] ==> forall hp: nat, lim: Limits :: !Overflows(env, m, hp, lim) && !Fails(env, m, hp, lim)
  {
    hide WellFormed, Stuck, Contents, Sparse;
  }

  lemma OverflowCramps(env: Env, m: map<Key, Value>, hp: nat, lim: Limits)
    requires Overflows(env, m, hp, lim)
    ensures Cramps(env, m, hp)
  {
    hide Crammed, Sparse, Contents;
  }

  // A resize that has been found to be in order.
  method RebuildInPlace(m: CuckooMap, newHp: nat) returns (broken: bool)
    requires m.Valid() && m.env.slots <= TWO_63 && Pow2(newHp) * m.env.slots <= TWO_64 - m.env.slots
    modifies m`allLocks, m`remaining, m.buckets, m.prev
    ensures !broken ==> m.Valid() && m.Logical() == old(m.Logical()) && m.AllMigrated()
    ensures !broken ==> MayRebuild(m.env, old(m.View()), newHp, m.buckets.hashpower, m.Cur())
    ensures !broken ==> OnlyWhenFull(m.env, old(m.Logical()), newHp, m.buckets.hashpower, DefaultLimits())
    ensures !broken ==> ImageOf(m) == RebuiltImage(m.env, old(ImageOf(m)), m.buckets.hashpower, m.Cur())
    ensures broken ==> m.buckets.hashpower == old(m.buckets.hashpower) && PartlyDrained(m.Cur(), old(m.View()))
    ensures broken ==> FailsFrom(m.env, old(m.Logical()), newHp)
  {
    hide TableOk, Unmigrated, CountsOf, Doubling.View, Contents, Covered, WellFormed, Grown, MarkAll, PartlyDrained,
      Overflows, Fails, Cramps;
    ghost var before := m.CurrentLocks();
    RehashAll(m);
    ghost var locks, hp := m.CurrentLocks(), m.buckets.hashpower;
    UnmigratedZero(locks);
    TableCovered(m.env, hp, m.Cur(), m.prev.data, locks);
    CountsAreSize(m.env, hp, m.Cur(), m.prev.data, locks);
    var dst, thrown := Rebuild(m, newHp);
    if thrown.Some? {
      return true;
    }
    Adopt(m, dst, hp, |dst.Logical()|);
    m.ViewWellFormed();
    MarkAllGrown(m.env, before, Pow2(m.buckets.hashpower));
    if newHp < m.buckets.hashpower {
      assert Overflows(m.env, old(m.Logical()), newHp, DefaultLimits());
      OverflowCramps(m.env, old(m.Logical()), newHp, DefaultLimits());
    }
    return false;
  }

  ghost predicate FailsFrom(env: Env, m: map<Key, Value>, newHp: nat) {
    exists hp: nat :: newHp <= hp && Fails(env, m, hp, DefaultLimits())
  }

  /** Rebuilds the table at hash power `newHp`, growing or shrinking. When it returns normally the map is
      unchanged, everything is migrated, and the hash power is `newHp`, or above it if all the smaller ones
      from `newHp` on overflow. `broken` means that an insertion into the new table threw, which only a low
      load can cause; the entries reached by then are lost from the table and everything else in it is as
      it was. */
  method ExpandSimple(m: CuckooMap, auto: bool, newHp: nat) returns (st: ResizeStatus, broken: bool)
    requires m.Valid() && m.env.slots <= TWO_63 && Pow2(newHp) * m.env.slots <= TWO_64 - m.env.slots
    modifies m`allLocks, m`remaining, m.buckets, m.prev
    ensures st == MaxHashpowerExceeded <==> Exceeds(LimitsOf(m), newHp)
    ensures !broken ==> (st == LoadFactorTooLow <==> !Exceeds(LimitsOf(m), newHp) && auto && old(TooSparse(m)))
    ensures !broken ==> st == old(ResizeValidity(m, auto, m.buckets.hashpower, newHp)) != UnderExpansion
    ensures !broken ==> m.Valid() && m.Logical() == old(m.Logical())
    ensures !broken && st != Resized ==> m.State() == old(m.State())
    ensures !broken && st == Resized ==>
              && MayRebuild(m.env, old(m.View()), newHp, m.buckets.hashpower, m.Cur()) && m.AllMigrated()
              && ImageOf(m) == RebuiltImage(m.env, old(ImageOf(m)), m.buckets.hashpower, m.Cur())
              && OnlyWhenFull(m.env, old(m.Logical()), newHp, m.buckets.hashpower, DefaultLimits())
    ensures old(m.Logical()) == map[] ==> !broken && (st == Resized ==> m.buckets.hashpower == newHp)
    ensures broken ==> st == LoadFactorTooLow && m.buckets.hashpower == old(m.buckets.hashpower)
                       && PartlyDrained(m.Cur(), old(m.View())) && FailsFrom(m.env, old(m.Logical()), newHp)
  {
    hide TableOk, Unmigrated, CountsOf, Doubling.View, Contents, LoadFactor, WellFormed, PartlyDrained, Overflows,
      Fails, Sparse, RebuiltImage, ImageOf, Cramps;
    st, broken := ResizeValidity(m, auto, m.buckets.hashpower, newHp), false;
    ValidityFacts(m, auto, m.buckets.hashpower, newHp);
    if st != Resized {
      return;
    }
    NothingOverflows(m.env, m.Logical());
    broken := RebuildInPlace(m, newHp);
    if broken {
      st := LoadFactorTooLow;
    } else if m.buckets.hashpower > newHp {
      assert Overflows(m.env, old(m.Logical()), newHp, DefaultLimits());
    }
  }

  // Another table's buckets fit under our own locks.
  lemma AdoptOk(env: Env, hp: nat, cur: Buckets, theirs: Locks, ours: Locks)
    requires TableOk(env, hp, cur, None, theirs) && Covered(env, hp, ours)
    requires Sum(CountsOf(ours)) == |Contents(cur)| && forall l | 0 <= l < |ours| :: ours[l].migrated
    ensures TableOk(env, hp, cur, None, ours) && View(env, hp, cur, None) == cur
  {
    ViewSettled(env, hp, cur, None);
  }
}
