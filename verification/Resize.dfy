/** Growing the table: lock-array growth, finishing migrations, and doubling in place. */
module Resize {
  import opened Hashing
  import opened Bits
  import opened Layout
  import opened Doubling
  import opened CuckooTable
  import opened PathMove

  // The outcome of a resize; the last two are the exceptions the source throws.
  datatype ResizeStatus = Resized | UnderExpansion | MaxHashpowerExceeded | LoadFactorTooLow

  function LoadFactor(size: int, hp: nat, s: nat): real
    requires s >= 1
  {
    var capacity := Pow2(hp) * s;
    MulMono(1, Pow2(hp), s);
    size as real / capacity as real
  }

  // The limits a user can set.
  datatype Limits = Limits(minLoad: real, maxHp: Option<nat>)

  // The checks made before any resize of a table of `size` entries, in the order they are made.
  function Validity(size: int, hp: nat, s: nat, lim: Limits, auto: bool, origHp: nat, newHp: nat): ResizeStatus
    requires s >= 1
  {
    if lim.maxHp.Some? && newHp > lim.maxHp.value then MaxHashpowerExceeded
    else if auto && LoadFactor(size, hp, s) < lim.minLoad then LoadFactorTooLow
    else if hp != origHp then UnderExpansion
    else Resized
  }

  /** The hash power is above the maximum, if one is set. */
  predicate Exceeds(lim: Limits, hp: nat) {
    lim.maxHp.Some? && hp > lim.maxHp.value
  }

  /** `size` entries are fewer than the least permitted part of the capacity. */
  ghost predicate Sparse(lim: Limits, size: int, hp: nat, s: nat) {
    size as real < lim.minLoad * (Pow2(hp) * s) as real
  }

  lemma QuotientIs(a: real, b: real, c: real)
    requires b > 0.0
    ensures a / b < c <==> a < c * b
  {
    var q := a / b;
    assert q * b == a;
    if q < c {
      assert (c - q) * b > 0.0;
    } else {
      assert (q - c) * b >= 0.0;
    }
  }

  lemma SparseIs(lim: Limits, size: int, hp: nat, s: nat)
    requires s >= 1
    ensures Sparse(lim, size, hp, s) <==> LoadFactor(size, hp, s) < lim.minLoad
  {
    MulMono(1, Pow2(hp), s);
    QuotientIs(size as real, (Pow2(hp) * s) as real, lim.minLoad);
  }

  /** What the checks find: a hash power above the maximum, whatever else is the case; for an automatic
      resize too few entries; a hash power that is no longer the expected one; or nothing. */
  lemma ValidityExact(size: int, hp: nat, s: nat, lim: Limits, auto: bool, origHp: nat, newHp: nat)
    requires s >= 1
    ensures var st := Validity(size, hp, s, lim, auto, origHp, newHp);
            && (st == MaxHashpowerExceeded <==> Exceeds(lim, newHp))
            && (st == LoadFactorTooLow <==> !Exceeds(lim, newHp) && auto && Sparse(lim, size, hp, s))
            && (st == Resized <==> !Exceeds(lim, newHp) && !(auto && Sparse(lim, size, hp, s)) && hp == origHp)
  {
    hide LoadFactor, Sparse;
    SparseIs(lim, size, hp, s);
  }

  function LimitsOf(m: CuckooMap): Limits
    reads m
  {
    Limits(m.minLoad, m.maxHashpower)
  }

  function ResizeValidity(m: CuckooMap, auto: bool, origHp: nat, newHp: nat): ResizeStatus
    requires |m.allLocks| > 0 && m.env.slots >= 1
    reads m, m.buckets
  {
    var size := Sum(CountsOf(m.CurrentLocks()));
    Validity(size, m.buckets.hashpower, m.env.slots, LimitsOf(m), auto, origHp, newHp)
  }

  // The lock array once it has been grown for `n` buckets.
  function Grown(env: Env, locks: Locks, n: nat): (r: Locks)
    ensures |r| >= |locks|
  {
    if |locks| < env.Stripes() && |locks| < n then
      var size := if n < env.Stripes() then n else env.Stripes();
      locks + FreshLocks(size - |locks|)
    else locks
  }

  /** Growing the lock array keeps the counters' sum and covers the larger table. */
  lemma GrownOk(env: Env, hp: nat, locks: Locks, newHp: nat)
    requires Covered(env, hp, locks)
    ensures Covered(env, newHp, Grown(env, locks, Pow2(newHp)))
    ensures Sum(CountsOf(Grown(env, locks, Pow2(newHp)))) == Sum(CountsOf(locks))
    ensures (forall l | 0 <= l < |locks| :: locks[l].migrated) ==>
              forall l | 0 <= l < |Grown(env, locks, Pow2(newHp))| :: Grown(env, locks, Pow2(newHp))[l].migrated
  {
    var r := Grown(env, locks, Pow2(newHp));
    var extra := |r| - |locks|;
    SumPad(CountsOf(locks), extra);
    assert CountsOf(r) == CountsOf(locks) + seq(extra, _ => 0);
  }

  method MaybeResizeLocks(m: CuckooMap, n: nat)
    requires |m.allLocks| > 0
    modifies m`allLocks
    ensures |m.allLocks| > 0 && m.CurrentLocks() == Grown(m.env, old(m.CurrentLocks()), n)
    ensures old(m.allLocks) <= m.allLocks && old(m.CurrentLocks()) <= m.CurrentLocks()
    ensures var was, most := old(|m.CurrentLocks()|), if n < m.env.Stripes() then n else m.env.Stripes();
            && |m.CurrentLocks()| == (if was < most then most else was)
            && forall l | was <= l < |m.CurrentLocks()| :: m.CurrentLocks()[l] == Lock(0, true)
    ensures |m.allLocks| == old(|m.allLocks|) + if |m.CurrentLocks()| > old(|m.CurrentLocks()|) then 1 else 0
  {
    var locks := m.CurrentLocks();
    if !(|locks| < m.env.Stripes() && |locks| < n) {
      return;
    }
    var size := if n < m.env.Stripes() then n else m.env.Stripes();
    m.allLocks := m.allLocks + [locks + FreshLocks(size - |locks|)];
  }

  function Below(n: nat): (r: set<nat>)
    ensures forall i: nat :: i in r <==> i < n
  {
    if n == 0 then {} else Below(n - 1) + {n - 1}
  }

  // Migrates every remaining stripe, in any order. All locks are held.
  method RehashAll(m: CuckooMap)
    requires m.Core()
    modifies m`allLocks, m`remaining, m.buckets`data, m.prev`data
    ensures m.Valid() && m.State() == old(m.State()) && m.AllMigrated() && m.prev.data == None
    ensures m.View() == m.Cur()
    ensures ImageOf(m) == Image(old(m.buckets.hashpower), old(m.View()), None, MarkAll(old(m.CurrentLocks())), 0)
  {
    hide TableOk, Unmigrated, CountsOf, Doubling.View;
    ghost var locks := m.CurrentLocks();
    var todo := Below(|m.CurrentLocks()|);
    while todo != {}
      invariant m.Core() && m.State() == old(m.State())
      invariant |m.CurrentLocks()| == old(|m.CurrentLocks()|)
      invariant todo <= Below(|m.CurrentLocks()|)
      invariant forall l | 0 <= l < |m.CurrentLocks()| :: m.CurrentLocks()[l].migrated || l in todo
      decreases |todo|
    {
      var l: nat :| l in todo;
      m.RehashLock(l, false);
      todo := todo - {l};
    }
    UnmigratedZero(m.CurrentLocks());
    ReleaseOk(m.env, m.buckets.hashpower, m.Cur(), m.prev.data, m.CurrentLocks());
    m.remaining := 0;
    m.prev.ClearAndDeallocate();
    MarkAllIs(locks, m.CurrentLocks());
  }

  function MarkAll(locks: Locks): (r: Locks)
    ensures |r| == |locks|
  {
    seq(|locks|, l requires 0 <= l < |locks| => locks[l].(migrated := true))
  }

  lemma MarkAllIs(locks: Locks, locks': Locks)
    requires CountsOf(locks') == CountsOf(locks) && forall l | 0 <= l < |locks'| :: locks'[l].migrated
    ensures locks' == MarkAll(locks)
  {
    assert |CountsOf(locks')| == |locks'| && |CountsOf(locks)| == |locks|;
    forall l | 0 <= l < |locks|
      ensures locks'[l] == MarkAll(locks)[l]
    {
      assert CountsOf(locks')[l] == CountsOf(locks)[l];
    }
  }

  lemma MarkAllGrown(env: Env, locks: Locks, n: nat)
    ensures Grown(env, MarkAll(locks), n) == MarkAll(Grown(env, locks, n))
    ensures Unmark(MarkAll(locks)) == Unmark(locks) && MarkAll(MarkAll(locks)) == MarkAll(locks)
  {
  }

  // What a table consists of, as a value.
  datatype Image = Image(hp: nat, cur: Buckets, prev: Option<Buckets>, locks: Locks, remaining: int)

  function ImageOf(m: CuckooMap): Image
    requires |m.allLocks| > 0
    reads m, m.buckets, m.prev
  {
    Image(m.buckets.hashpower, m.Cur(), m.prev.data, m.CurrentLocks(), m.remaining)
  }

  // The table after doubling, everything left over from the previous doubling migrated first.
  function DoubledImage(env: Env, t: Image): Image
    requires t.prev.Some? ==> t.hp > 0 && 2 * |t.prev.value| == |t.cur|
  {
    var all, locks := View(env, t.hp, t.cur, t.prev), Grown(env, t.locks, Pow2(t.hp + 1));
    if env.Stripes() <= Pow2(t.hp) then
      Image(t.hp + 1, BlankBuckets(Pow2(t.hp + 1), env.slots), Some(all), Unmark(locks), |locks|)
    else
      Image(t.hp + 1, Doubled(env, t.hp, all), None, MarkAll(locks), 0)
  }

  // `bs` holds some entries of `m`, and no eviction makes room for the remaining key `k`.
  ghost predicate Crammed(env: Env, m: map<Key, Value>, hp: nat, bs: Buckets, k: Key) {
    && WellFormed(env, hp, bs) && Submap(Contents(bs), m)
    && k in m && k !in Contents(bs) && Stuck(env, hp, bs, k)
  }

  ghost predicate Submap(a: map<Key, Value>, b: map<Key, Value>) {
    forall x | x in a :: x in b && b[x] == a[x]
  }

  /** Filling a table of hash power `hp` with the entries of `m` may come to a point where the next one does
      not fit although there are enough entries for doubling. */
  ghost predicate Overflows(env: Env, m: map<Key, Value>, hp: nat, lim: Limits) {
    exists bs, k :: Crammed(env, m, hp, bs, k) && !Sparse(lim, |Contents(bs)|, hp, env.slots)
  }

  /** Likewise, but there are too few entries for doubling. */
  ghost predicate Fails(env: Env, m: map<Key, Value>, hp: nat, lim: Limits) {
    exists bs, k :: Crammed(env, m, hp, bs, k) && Sparse(lim, |Contents(bs)|, hp, env.slots)
  }

  // The limits of a temporary map.
  function DefaultLimits(): Limits {
    Limits(DEFAULT_MIN_LOAD, None)
  }

  /** Filling a table of hash power `hp` with the entries of `m` may come to a point where the next one does
      not fit. */
  ghost predicate Cramps(env: Env, m: map<Key, Value>, hp: nat) {
    exists bs, k :: Crammed(env, m, hp, bs, k)
  }

  /** What a resize to `newHp` may turn the array `all` into: a larger hash power only if `newHp` may turn out
      to be too small. */
  ghost predicate MayRebuild(env: Env, all: Buckets, newHp: nat, hp: nat, bs: Buckets) {
    && newHp <= hp && WellFormed(env, hp, bs) && Contents(bs) == Contents(all)
    && (newHp < hp ==> Cramps(env, Contents(all), newHp))
  }

  // The table after its buckets have been replaced.
  function RebuiltImage(env: Env, t: Image, hp: nat, bs: Buckets): Image {
    Image(hp, bs, None, MarkAll(Grown(env, t.locks, Pow2(hp))), 0)
  }

  // The table after clearing.
  function ClearedImage(env: Env, t: Image): Image {
    Image(t.hp, BlankBuckets(Pow2(t.hp), env.slots), None, FreshLocks(|t.locks|), 0)
  }

  function Unmark(locks: Locks): (r: Locks)
    ensures |r| == |locks|
  {
    seq(|locks|, l requires 0 <= l < |locks| => locks[l].(migrated := false))
  }

  // Exchanging the arrays and marking every stripe un-migrated keeps the invariant and the map.
  lemma LazyDoubleOk(env: Env, hp: nat, cur: Buckets, locks: Locks)
    requires TableOk(env, hp, cur, None, locks) && env.lockBits <= hp && Covered(env, hp + 1, locks)
    ensures var blank := BlankBuckets(Pow2(hp + 1), env.slots);
            && TableOk(env, hp + 1, blank, Some(cur), Unmark(locks))
            && View(env, hp + 1, blank, Some(cur)) == Doubled(env, hp, cur)
            && Contents(View(env, hp + 1, blank, Some(cur))) == Contents(cur)
            && CountsOf(Unmark(locks)) == CountsOf(locks) && Unmigrated(Unmark(locks)) == |locks| > 0
  {
    hide Contents, Doubled;
    ViewSettled(env, hp, cur, None);
    assert WellFormed(env, hp, cur);
    DoubleView(env, hp, cur);
    assert BlankBuckets(Pow2(hp + 1), env.slots) == BlankBuckets(2 * |cur|, env.slots);
    assert CountsOf(Unmark(locks)) == CountsOf(locks);
    UnmigratedZero(Unmark(locks));
    forall l | 0 <= l < |locks|
      ensures FlagOk(env, Some(cur), false, l, 0)
    {
    }
  }

  // Moves every old bucket at once, for tables with fewer buckets than stripes.
  method MoveAll(m: CuckooMap)
    requires m.Wired() && m.prev.data.Some? && LazyOk(m.env, m.buckets.hashpower, m.Cur(), m.prev.data)
    requires forall i | 0 <= i < |m.prev.data.value| :: NoMoved(m.prev.data.value[i])
    modifies m.buckets`data, m.prev`data
    ensures m.Wired() && m.prev.data.Some? && LazyOk(m.env, m.buckets.hashpower, m.Cur(), m.prev.data)
    ensures m.View() == old(m.View())
    ensures forall i | 0 <= i < |m.prev.data.value| :: !Pending(m.prev.data.value[i])
  {
    hide WellFormed, Doubling.View, MoveBucketCur;
    ghost var n := |m.prev.data.value|;
    var i := 0;
    while i < |m.prev.data.value|
      invariant 0 <= i <= n && m.Wired() && m.prev.data.Some? && |m.prev.data.value| == n
      invariant LazyOk(m.env, m.buckets.hashpower, m.Cur(), m.prev.data) && m.View() == old(m.View())
      invariant forall c | 0 <= c < i :: !Pending(m.prev.data.value[c])
      invariant forall c | i <= c < n :: NoMoved(m.prev.data.value[c])
    {
      assert m.prev.data == Some(m.prev.data.value) && m.prev.hashpower == m.buckets.hashpower - 1;
      MoveBucketView(m.env, m.buckets.hashpower, m.Cur(), m.prev.data.value, i);
      Vacated(m.prev.data.value[i]);
      m.MoveBucket(i);
      i := i + 1;
    }
  }

  lemma Vacated(u: Bucket)
    ensures !Pending(Vacate(u))
  {
  }

  // After an eager doubling the table is the doubled array.
  lemma EagerDoubleOk(env: Env, hp: nat, cur: Buckets, prev: Buckets, locks: Locks, w: Buckets)
    requires LazyOk(env, hp, cur, Some(prev)) && View(env, hp, cur, Some(prev)) == w
    requires forall i | 0 <= i < |prev| :: !Pending(prev[i])
    requires Covered(env, hp, locks) && Sum(CountsOf(locks)) == |Contents(w)|
    requires forall l | 0 <= l < |locks| :: locks[l].migrated
    ensures cur == w && TableOk(env, hp, cur, None, locks) && View(env, hp, cur, None) == w
  {
    ViewSettled(env, hp, cur, Some(prev));
    ViewSettled(env, hp, cur, None);
  }

  // Moves the buckets into the old container, sets up an empty new one of twice the size, and either
  // rehashes at once or leaves it to whoever takes a lock next.
  method ExchangeArrays(m: CuckooMap, hp: nat) returns (lazy: bool)
    requires m.Wired() && m.prev.data == None && |m.allLocks| > 0 && m.buckets.hashpower == hp && m.AllMigrated()
    requires TableOk(m.env, hp, m.Cur(), None, m.CurrentLocks()) && Covered(m.env, hp + 1, m.CurrentLocks())
    modifies m`allLocks, m`remaining, m.buckets, m.prev
    ensures m.Valid() && m.buckets.hashpower == hp + 1
    ensures m.View() == Doubled(m.env, hp, old(m.Cur())) && m.Logical() == Contents(old(m.Cur()))
    ensures !lazy ==> m.AllMigrated()
    ensures m.State().counts == CountsOf(old(m.CurrentLocks()))
    ensures lazy <==> m.env.Stripes() <= Pow2(hp)
    ensures lazy ==> ImageOf(m) == Image(hp + 1, BlankBuckets(Pow2(hp + 1), m.env.slots), Some(old(m.Cur())),
                                         Unmark(old(m.CurrentLocks())), old(|m.CurrentLocks()|))
    ensures !lazy ==> ImageOf(m) == Image(hp + 1, Doubled(m.env, hp, old(m.Cur())), None, old(m.CurrentLocks()), 0)
  {
    hide TableOk, LazyOk, Doubling.View, Doubled, Contents, CountsOf, Unmigrated, Covered, BlankBuckets, Unmark;
    ghost var cur := m.Cur();
    m.prev.Swap(m.buckets);
    m.buckets.Renew(hp + 1);
    lazy := m.env.Stripes() <= Pow2(hp);
    if lazy {
      MarkForMigration(m, hp, cur);
    } else {
      MigrateNow(m, hp, cur);
    }
  }

  // The arrays have been exchanged: `cur` is now the old one.
  ghost predicate Exchanged(m: CuckooMap, hp: nat, cur: Buckets)
    reads m, m.buckets, m.prev
  {
    && m.Wired() && |m.allLocks| > 0 && m.AllMigrated()
    && m.buckets.hashpower == hp + 1 && m.Cur() == BlankBuckets(Pow2(hp + 1), m.env.slots) && m.prev.data == Some(cur)
    && TableOk(m.env, hp, cur, None, m.CurrentLocks()) && Covered(m.env, hp + 1, m.CurrentLocks())
  }

  method MarkForMigration(m: CuckooMap, ghost hp: nat, ghost cur: Buckets)
    requires Exchanged(m, hp, cur) && m.env.Stripes() <= Pow2(hp)
    modifies m`allLocks, m`remaining
    ensures m.Valid() && m.View() == Doubled(m.env, hp, cur) && m.Logical() == Contents(cur)
    ensures m.State().counts == CountsOf(old(m.CurrentLocks()))
    ensures |m.allLocks| == old(|m.allLocks|)
    ensures m.CurrentLocks() == Unmark(old(m.CurrentLocks())) && m.remaining == old(|m.CurrentLocks()|)
  {
    hide TableOk, LazyOk, Doubling.View, Doubled, Contents, CountsOf, Unmigrated, Covered, BlankBuckets, Unmark;
    LockBitsBound(m.env, hp);
    LazyDoubleOk(m.env, hp, cur, m.CurrentLocks());
    m.allLocks := m.allLocks[|m.allLocks| - 1 := Unmark(m.CurrentLocks())];
    m.remaining := |m.CurrentLocks()|;
  }

  method MigrateNow(m: CuckooMap, ghost hp: nat, ghost cur: Buckets)
    requires Exchanged(m, hp, cur)
    modifies m`remaining, m.buckets`data, m.prev`data
    ensures m.Valid() && m.View() == Doubled(m.env, hp, cur) && m.Logical() == Contents(cur)
    ensures m.State().counts == CountsOf(m.CurrentLocks())
    ensures m.Cur() == Doubled(m.env, hp, cur) && m.prev.data == None && m.remaining == 0
  {
    hide TableOk, LazyOk, Doubling.View, Doubled, Contents, CountsOf, Unmigrated, Covered, BlankBuckets;
    EagerStart(m.env, hp, cur, m.CurrentLocks());
    MoveAll(m);
    assert m.prev.data == Some(m.prev.data.value);
    EagerDoubleOk(m.env, hp + 1, m.Cur(), m.prev.data.value, m.CurrentLocks(), Doubled(m.env, hp, cur));
    UnmigratedZero(m.CurrentLocks());
    m.remaining := 0;
    m.prev.ClearAndDeallocate();
  }

  lemma LockBitsBound(env: Env, hp: nat)
    requires env.Stripes() <= Pow2(hp)
    ensures env.lockBits <= hp
  {
    if hp < env.lockBits {
      Pow2Mono(hp, env.lockBits);
    }
  }

  lemma EagerStart(env: Env, hp: nat, cur: Buckets, locks: Locks)
    requires TableOk(env, hp, cur, None, locks)
    ensures var blank := BlankBuckets(Pow2(hp + 1), env.slots);
            && LazyOk(env, hp + 1, blank, Some(cur))
            && View(env, hp + 1, blank, Some(cur)) == Doubled(env, hp, cur)
            && Contents(Doubled(env, hp, cur)) == Contents(cur)
            && Sum(CountsOf(locks)) == |Contents(cur)|
    ensures forall i | 0 <= i < |cur| :: NoMoved(cur[i])
  {
    hide Contents, Doubled;
    ViewSettled(env, hp, cur, None);
    DoubleView(env, hp, cur);
    assert BlankBuckets(Pow2(hp + 1), env.slots) == BlankBuckets(2 * |cur|, env.slots);
  }

  lemma GrownTable(env: Env, hp: nat, cur: Buckets, locks: Locks, newHp: nat)
    requires TableOk(env, hp, cur, None, locks) && hp <= newHp && forall l | 0 <= l < |locks| :: locks[l].migrated
    ensures var r := Grown(env, locks, Pow2(newHp));
            && TableOk(env, hp, cur, None, r) && Covered(env, newHp, r)
            && Sum(CountsOf(r)) == Sum(CountsOf(locks))
            && forall l | 0 <= l < |r| :: r[l].migrated
  {
    hide LazyOk, Contents;
    GrownOk(env, hp, locks, newHp);
    Pow2Mono(hp, newHp);
  }

  ghost predicate TooSparse(m: CuckooMap)
    requires m.Core()
    reads m, m.buckets, m.prev
  {
    Sparse(LimitsOf(m), |m.Logical()|, m.buckets.hashpower, m.env.slots)
  }

  lemma ValidityFacts(m: CuckooMap, auto: bool, origHp: nat, newHp: nat)
    requires m.Core()
    ensures var st := ResizeValidity(m, auto, origHp, newHp);
            && (st == MaxHashpowerExceeded <==> Exceeds(LimitsOf(m), newHp))
            && (st == LoadFactorTooLow <==> !Exceeds(LimitsOf(m), newHp) && auto && TooSparse(m))
            && (st == Resized <==> !Exceeds(LimitsOf(m), newHp) && !(auto && TooSparse(m))
                                   && m.buckets.hashpower == origHp)
  {
    hide Validity, Sparse, Doubling.View, Contents;
    CountsAreSize(m.env, m.buckets.hashpower, m.Cur(), m.prev.data, m.CurrentLocks());
    ValidityExact(|m.Logical()|, m.buckets.hashpower, m.env.slots, LimitsOf(m), auto, origHp, newHp);
  }

  lemma CountsAreSize(env: Env, hp: nat, cur: Buckets, prev: Option<Buckets>, locks: Locks)
    requires TableOk(env, hp, cur, prev, locks)
    ensures prev.Some? ==> hp > 0 && 2 * |prev.value| == |cur|
    ensures Sum(CountsOf(locks)) == |Contents(View(env, hp, cur, prev))|
  {
  }

  /** After a lazy doubling everything is still to be migrated, after another one nothing is. */
  ghost predicate LazyExactly(m: CuckooMap, all: Buckets, lazy: bool)
    requires |m.allLocks| > 0
    reads m, m.buckets, m.prev
  {
    if lazy then
      && m.prev.data == Some(all) && (forall b | 0 <= b < |m.Cur()| :: AllEmpty(m.Cur()[b]))
      && m.remaining == |m.CurrentLocks()| && forall l | 0 <= l < |m.CurrentLocks()| :: !m.CurrentLocks()[l].migrated
    else m.prev.data == None && m.remaining == 0 && m.AllMigrated()
  }

  lemma LazyIs(m: CuckooMap, t: Image)
    requires |m.allLocks| > 0 && (t.prev.Some? ==> t.hp > 0 && 2 * |t.prev.value| == |t.cur|)
    requires ImageOf(m) == DoubledImage(m.env, t)
    ensures LazyExactly(m, View(m.env, t.hp, t.cur, t.prev), m.env.Stripes() <= Pow2(t.hp))
  {
    hide Doubled, Doubling.View, Grown;
  }

  // A doubling that has been found to be in order.
  method DoubleInPlace(m: CuckooMap, locked: bool, currentHp: nat)
    requires m.Valid() && m.buckets.hashpower == currentHp
    modifies m`allLocks, m`remaining, m.buckets, m.prev
    ensures m.Valid() && (locked ==> m.AllMigrated() && m.prev.data == None)
    ensures !locked ==> ImageOf(m) == DoubledImage(m.env, old(ImageOf(m)))
    ensures m.buckets.hashpower == currentHp + 1 && m.View() == Doubled(m.env, currentHp, old(m.View()))
    ensures m.Logical() == old(m.Logical())
  {
    hide TableOk, Doubling.View, Doubled, Contents, CountsOf, Unmigrated, Covered, Grown, MarkAll, Unmark, BlankBuckets;
    ghost var locks := m.CurrentLocks();
    RehashAll(m);
    GrownTable(m.env, currentHp, m.Cur(), m.CurrentLocks(), currentHp + 1);
    MarkAllGrown(m.env, locks, Pow2(currentHp + 1));
    MarkAllGrown(m.env, Grown(m.env, locks, Pow2(currentHp + 1)), 0);
    MaybeResizeLocks(m, Pow2(currentHp + 1));
    var lazy := ExchangeArrays(m, currentHp);
    if lazy && locked {
      RehashAll(m);
    }
  }

  /** Doubles the table. On success the hash power grows by one, the table stands for the doubled
      array and the stored map is unchanged; otherwise nothing changes. */
  method FastDouble(m: CuckooMap, locked: bool, auto: bool, currentHp: nat) returns (st: ResizeStatus)
    requires m.Valid() && (locked ==> m.AllMigrated())
    modifies m`allLocks, m`remaining, m.buckets, m.prev
    ensures st == old(ResizeValidity(m, auto, currentHp, currentHp + 1))
    ensures st == MaxHashpowerExceeded <==> Exceeds(LimitsOf(m), currentHp + 1)
    ensures st == LoadFactorTooLow <==> !Exceeds(LimitsOf(m), currentHp + 1) && auto && old(TooSparse(m))
    ensures st == Resized <==> !Exceeds(LimitsOf(m), currentHp + 1) && !(auto && old(TooSparse(m)))
                               && old(m.buckets.hashpower) == currentHp
    ensures m.Valid() && (locked ==> m.AllMigrated())
    ensures st != Resized ==> m.State() == old(m.State()) && ImageOf(m) == old(ImageOf(m))
    ensures st == Resized && !locked ==> ImageOf(m) == DoubledImage(m.env, old(ImageOf(m)))
    ensures st == Resized && !locked ==> LazyExactly(m, old(m.View()), m.env.Stripes() <= Pow2(currentHp))
    ensures st == Resized && locked ==> m.prev.data == None
    ensures st == Resized ==> m.buckets.hashpower == currentHp + 1 == old(m.buckets.hashpower) + 1
    ensures st == Resized ==> m.View() == Doubled(m.env, currentHp, old(m.View()))
    ensures m.Logical() == old(m.Logical())
  {
    hide TableOk, Doubling.View, Doubled, Contents, CountsOf, Unmigrated, LoadFactor, LazyExactly, TooSparse, Validity,
      DoubledImage;
    st := ResizeValidity(m, auto, currentHp, currentHp + 1);
    ValidityFacts(m, auto, currentHp, currentHp + 1);
    if st != Resized {
      return;
    }
    DoubleInPlace(m, locked, currentHp);
    if !locked {
      LazyIs(m, old(ImageOf(m)));
    }
  }
}
