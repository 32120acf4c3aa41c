/**
 The table itself: the current buckets, the previous buckets while a doubling is being worked off,
 the lock stripes with their counters and migration flags, and the basic operations on them.
 */
module CuckooTable {
  import opened Hashing
  import opened Bits
  import opened Layout
  import opened Doubling
  import opened Container
  import opened Capacity
  import opened Lookup

  // What is kept per lock stripe.
  datatype Lock = Lock(count: int, migrated: bool)

  type Locks = seq<Lock>

  function Sum(counts: seq<int>): int {
    if |counts| == 0 then 0 else Sum(counts[..|counts| - 1]) + counts[|counts| - 1]
  }

  lemma {:induction false} SumUpdate(counts: seq<int>, l: nat, x: int)
    requires l < |counts|
    ensures Sum(counts[l := x]) == Sum(counts) - counts[l] + x
  {
    var n := |counts| - 1;
    if l == n {
      assert counts[l := x][..n] == counts[..n];
    } else {
      SumUpdate(counts[..n], l, x);
      assert counts[l := x][..n] == counts[..n][l := x];
    }
  }

  lemma {:induction false} SumPad(counts: seq<int>, n: nat)
    ensures Sum(counts + seq(n, _ => 0)) == Sum(counts)
  {
    if n == 0 {
      assert counts + seq(n, _ => 0) == counts;
    } else {
      SumPad(counts, n - 1);
      assert (counts + seq(n, _ => 0))[..|counts| + n - 1] == counts + seq(n - 1, _ => 0);
    }
  }

  function CountsOf(locks: Locks): (r: seq<int>)
    ensures |r| == |locks| && forall l | 0 <= l < |locks| :: r[l] == locks[l].count
  {
    seq(|locks|, l requires 0 <= l < |locks| => locks[l].count)
  }

  // The number of stripes still to be migrated.
  function Unmigrated(locks: Locks): nat {
    if |locks| == 0 then 0
    else Unmigrated(locks[..|locks| - 1]) + if locks[|locks| - 1].migrated then 0 else 1
  }

  lemma {:induction false} UnmigratedUpdate(locks: Locks, l: nat, x: Lock)
    requires l < |locks|
    ensures Unmigrated(locks[l := x])
         == Unmigrated(locks) - (if locks[l].migrated then 0 else 1) + (if x.migrated then 0 else 1)
  {
    var n := |locks| - 1;
    if l == n {
      assert locks[l := x][..n] == locks[..n];
    } else {
      UnmigratedUpdate(locks[..n], l, x);
      assert locks[l := x][..n] == locks[..n][l := x];
    }
  }

  lemma {:induction false} UnmigratedZero(locks: Locks)
    ensures Unmigrated(locks) == 0 <==> forall l | 0 <= l < |locks| :: locks[l].migrated
    ensures (forall l | 0 <= l < |locks| :: !locks[l].migrated) ==> Unmigrated(locks) == |locks|
  {
    if |locks| > 0 {
      var n := |locks| - 1;
      UnmigratedZero(locks[..n]);
      assert forall l | 0 <= l < n :: locks[..n][l] == locks[l];
    }
  }

  // Old buckets of stripe `l` below `front` have been moved, the others have not been touched.
  ghost predicate StripeAt(env: Env, prev: Buckets, l: nat, front: nat) {
    forall i {:trigger prev[i]} | 0 <= i < |prev| && env.LockInd(i) == l ::
      if i < front then !Pending(prev[i]) else NoMoved(prev[i])
  }

  ghost predicate FlagOk(env: Env, prev: Option<Buckets>, migrated: bool, l: nat, front: nat) {
    if migrated then prev.Some? ==> StripeAt(env, prev.value, l, |prev.value|)
    else prev.Some? && StripeAt(env, prev.value, l, front)
  }

  ghost predicate FlagsOk(env: Env, prev: Option<Buckets>, locks: Locks) {
    forall l | 0 <= l < |locks| :: FlagOk(env, prev, locks[l].migrated, l, 0)
  }

  /** Moving the bucket at the front of a stripe advances that stripe and leaves the others alone. */
  lemma StripeAdvances(env: Env, prev: Buckets, i: nat, l: nat, front: nat)
    requires i < |prev| && StripeAt(env, prev, l, front) && (env.LockInd(i) == l ==> i == front)
    ensures StripeAt(env, prev[i := Vacate(prev[i])], l, if env.LockInd(i) == l then front + env.Stripes() else front)
  {
    var prev' := prev[i := Vacate(prev[i])];
    assert !Pending(prev'[i]);
    forall c | 0 <= c < |prev| && env.LockInd(c) == l == env.LockInd(i) && i < c < i + env.Stripes()
      ensures false
    {
      NextOfStripe(env, i, c);
    }
  }

  lemma StripeStarts(env: Env, prev: Buckets, l: nat)
    requires l < env.Stripes() && StripeAt(env, prev, l, 0)
    ensures StripeAt(env, prev, l, l)
  {
    forall i | 0 <= i < |prev| && env.LockInd(i) == l && i < l
      ensures false
    {
      FirstOfStripe(env, i);
    }
  }

  function Marked(locks: Locks, l: nat): (r: Locks)
    requires l < |locks|
    ensures |r| == |locks|
  {
    locks[l := locks[l].(migrated := true)]
  }

  ghost predicate SameFlags(locks: Locks, locks': Locks) {
    |locks'| == |locks| && forall l | 0 <= l < |locks| :: locks'[l].migrated == locks[l].migrated
  }

  /** The locks are as they were, except that the stripes `ls` have been migrated. */
  ghost predicate Flagged(was: Locks, now: Locks, ls: set<nat>) {
    |now| == |was| && forall l | 0 <= l < |was| :: now[l] == if l in ls then was[l].(migrated := true) else was[l]
  }

  lemma FlaggedTwice(a: Locks, b: Locks, c: Locks, x: set<nat>, y: set<nat>)
    requires Flagged(a, b, x) && Flagged(b, c, y)
    ensures Flagged(a, c, x + y)
  {
  }

  // There is nothing to migrate in a migrated table.
  lemma FlaggedAlready(locks: Locks, ls: set<nat>)
    requires forall l | 0 <= l < |locks| :: locks[l].migrated
    ensures Flagged(locks, locks, ls)
  {
  }

  lemma MarkedFacts(locks: Locks, l: nat)
    requires l < |locks|
    ensures CountsOf(Marked(locks, l)) == CountsOf(locks)
    ensures Unmigrated(Marked(locks, l)) == Unmigrated(locks) - if locks[l].migrated then 0 else 1
    ensures locks[l].migrated ==> Marked(locks, l) == locks
  {
    UnmigratedUpdate(locks, l, locks[l].(migrated := true));
    assert CountsOf(Marked(locks, l)) == CountsOf(locks);
  }

  // The lock array covers the stripe of every bucket.
  ghost predicate Covered(env: Env, hp: nat, locks: Locks) {
    |locks| <= env.Stripes() && (Pow2(hp) <= |locks| || |locks| == env.Stripes())
  }

  // The stored data is in order, and the counters add up to the number of entries.
  ghost predicate BodyOk(env: Env, hp: nat, cur: Buckets, prev: Option<Buckets>, locks: Locks) {
    && (prev.Some? ==> env.lockBits < hp)
    && LazyOk(env, hp, cur, prev)
    && Sum(CountsOf(locks)) == |Contents(View(env, hp, cur, prev))|
  }

  ghost predicate TableOk(env: Env, hp: nat, cur: Buckets, prev: Option<Buckets>, locks: Locks) {
    Covered(env, hp, locks) && BodyOk(env, hp, cur, prev, locks) && FlagsOk(env, prev, locks)
  }

  lemma StripeInRange(env: Env, hp: nat, locks: Locks, b: nat)
    requires Covered(env, hp, locks) && b < Pow2(hp)
    ensures env.LockInd(b) < |locks|
  {
    AndMask(b, env.lockBits);
    if b < env.Stripes() {
      ModSmall(b, env.Stripes());
    }
  }

  // A migrated stripe settles all its buckets.
  lemma SettledStripe(env: Env, hp: nat, cur: Buckets, prev: Option<Buckets>, locks: Locks, b: nat)
    requires LazyShape(env, hp, cur, prev) && (prev.Some? ==> env.lockBits < hp) && FlagsOk(env, prev, locks)
    requires b < |cur| && env.LockInd(b) < |locks| && locks[env.LockInd(b)].migrated
    ensures !IsPending(prev, |cur|, b)
  {
    if prev.Some? {
      StripeOfCopy(env, hp - 1, OldIndex(|prev.value|, b));
      assert FlagOk(env, prev, true, env.LockInd(b), 0);
    }
  }

  lemma SettledTable(env: Env, hp: nat, cur: Buckets, prev: Option<Buckets>, locks: Locks)
    requires TableOk(env, hp, cur, prev, locks) && forall l | 0 <= l < |locks| :: locks[l].migrated
    ensures View(env, hp, cur, prev) == cur
    ensures forall b | 0 <= b < |cur| :: !IsPending(prev, |cur|, b)
  {
    forall b | 0 <= b < |cur|
      ensures !IsPending(prev, |cur|, b)
    {
      StripeInRange(env, hp, locks, b);
      SettledStripe(env, hp, cur, prev, locks, b);
    }
    ViewSettled(env, hp, cur, prev);
  }

  // Stripe `l` is being migrated and `ind` is its next bucket; the other stripes are at rest.
  ghost predicate Migrating(env: Env, hp: nat, cur: Buckets, prev: Buckets, locks: Locks, l: nat, ind: nat) {
    && LazyOk(env, hp, cur, Some(prev))
    && env.LockInd(ind) == l && StripeAt(env, prev, l, ind)
    && forall l' | 0 <= l' < |locks| && l' != l :: FlagOk(env, Some(prev), locks[l'].migrated, l', 0)
  }

  lemma MigratingStart(env: Env, hp: nat, cur: Buckets, prev: Option<Buckets>, locks: Locks, l: nat)
    requires TableOk(env, hp, cur, prev, locks) && l < |locks| && !locks[l].migrated
    ensures prev.Some? && Migrating(env, hp, cur, prev.value, locks, l, l)
    ensures (prev.Some? ==> hp > 0 && 2 * |prev.value| == |cur|) && Covered(env, hp, locks) && env.lockBits < hp
    ensures Sum(CountsOf(locks)) == |Contents(View(env, hp, cur, prev))|
  {
    hide WellFormed, Contents;
    assert FlagOk(env, prev, false, l, 0);
    assert prev == Some(prev.value);
    StripeStarts(env, prev.value, l);
    FirstOfStripe(env, l);
  }

  lemma MigratingStep(env: Env, hp: nat, cur: Buckets, prev: Buckets, locks: Locks, l: nat, ind: nat)
    requires Migrating(env, hp, cur, prev, locks, l, ind) && hp > 0 && ind < |prev|
    ensures var cur' := MoveBucketCur(env, hp - 1, cur, prev, ind);
            var prev' := prev[ind := Vacate(prev[ind])];
            && Migrating(env, hp, cur', prev', locks, l, ind + env.Stripes())
            && NoMoved(prev[ind]) && (Pending(prev[ind]) ==> AllEmpty(cur[ind]) && AllEmpty(cur[ind + |prev|]))
            && View(env, hp, cur', Some(prev')) == View(env, hp, cur, Some(prev))
  {
    var prev' := prev[ind := Vacate(prev[ind])];
    MoveBucketView(env, hp, cur, prev, ind);
    NextOfStripe(env, ind, ind + env.Stripes());
    StripeAdvances(env, prev, ind, l, ind);
    forall l' | 0 <= l' < |locks| && l' != l
      ensures FlagOk(env, Some(prev'), locks[l'].migrated, l', 0)
    {
      StripeAdvances(env, prev, ind, l', if locks[l'].migrated then |prev| else 0);
    }
  }

  lemma MigratingEnd(env: Env, hp: nat, cur: Buckets, prev: Buckets, locks: Locks, l: nat, ind: nat)
    requires Migrating(env, hp, cur, prev, locks, l, ind) && ind >= |prev| && l < |locks|
    requires Covered(env, hp, locks) && env.lockBits < hp
    requires Sum(CountsOf(locks)) == |Contents(View(env, hp, cur, Some(prev)))|
    ensures TableOk(env, hp, cur, Some(prev), Marked(locks, l))
  {
    hide WellFormed, Contents;
    MarkedFacts(locks, l);
    assert StripeAt(env, prev, l, |prev|);
  }

  lemma ReleaseOk(env: Env, hp: nat, cur: Buckets, prev: Option<Buckets>, locks: Locks)
    requires TableOk(env, hp, cur, prev, locks) && forall l | 0 <= l < |locks| :: locks[l].migrated
    ensures TableOk(env, hp, cur, None, locks)
    ensures View(env, hp, cur, None) == View(env, hp, cur, prev) == cur
  {
    hide WellFormed;
    SettledTable(env, hp, cur, prev, locks);
    ViewSettled(env, hp, cur, None);
  }

  function Counted(locks: Locks, l: nat, d: int): (r: Locks)
    requires l < |locks|
    ensures |r| == |locks|
  {
    locks[l := locks[l].(count := locks[l].count + d)]
  }

  lemma CountedFacts(locks: Locks, l: nat, d: int)
    requires l < |locks|
    ensures Sum(CountsOf(Counted(locks, l, d))) == Sum(CountsOf(locks)) + d
    ensures Unmigrated(Counted(locks, l, d)) == Unmigrated(locks)
    ensures forall i | 0 <= i < |locks| :: Counted(locks, l, d)[i].migrated == locks[i].migrated
  {
    hide Sum, Unmigrated, CountsOf;
    UnmigratedUpdate(locks, l, Counted(locks, l, d)[l]);
    SumUpdate(CountsOf(locks), l, locks[l].count + d);
    assert CountsOf(Counted(locks, l, d)) == CountsOf(locks)[l := locks[l].count + d];
  }

  function Weight(s: Slot): int {
    if s.Live? then 1 else 0
  }

  lemma OverwrittenSize(bs: Buckets, b: nat, j: nat, s: Slot)
    requires Unique(bs) && b < |bs| && j < |bs[b]|
    requires s.Live? ==> s.key !in Contents(bs) || Holds(bs, s.key, b, j)
    ensures |Overwritten(Contents(bs), bs[b][j], s)| == |Contents(bs)| - Weight(bs[b][j]) + Weight(s)
  {
    ContentsRepresents(bs);
    if bs[b][j].Live? {
      assert LiveAt(bs, b, j);
      var m, k := Contents(bs), bs[b][j].key;
      assert (m - {k}).Keys == m.Keys - {k};
    }
  }

  lemma PutLazyShape(env: Env, hp: nat, cur: Buckets, prev: Option<Buckets>, b: nat, j: nat, s: Slot)
    requires LazyShape(env, hp, cur, prev) && Untouched(env, cur, prev)
    requires b < |cur| && j < |cur[b]| && !IsPending(prev, |cur|, b) && !s.Moved?
    ensures LazyShape(env, hp, Put(cur, b, j, s), prev) && Untouched(env, Put(cur, b, j, s), prev)
  {
    var cur' := Put(cur, b, j, s);
    assert NoMoved(cur[b]);
    if prev.Some? {
      forall i | 0 <= i < |prev.value| && Pending(prev.value[i])
        ensures cur'[i] == cur[i] && cur'[i + |prev.value|] == cur[i + |prev.value|]
      {
        assert OldIndex(|prev.value|, b) != i;
      }
    }
  }

  /** Overwriting a slot of a settled bucket and adjusting any one counter keeps the data in order. */
  lemma PutOk(env: Env, hp: nat, cur: Buckets, prev: Option<Buckets>, locks: Locks, b: nat, j: nat, s: Slot, l: nat)
    requires BodyOk(env, hp, cur, prev, locks) && l < |locks|
    requires b < |cur| && j < |cur[b]| && !IsPending(prev, |cur|, b)
    requires Admissible(env, hp, View(env, hp, cur, prev), b, j, s)
    ensures View(env, hp, cur, prev)[b] == cur[b]
    ensures var cur', w := Put(cur, b, j, s), View(env, hp, cur, prev);
            && BodyOk(env, hp, cur', prev, Counted(locks, l, Weight(s) - Weight(cur[b][j])))
            && View(env, hp, cur', prev) == Put(w, b, j, s)
            && Contents(View(env, hp, cur', prev)) == Overwritten(Contents(w), cur[b][j], s)
  {
    hide WellFormed, Contents, Overwritten, Counted, Doubling.View;
    var w := View(env, hp, cur, prev);
    PutView(env, hp, cur, prev, b, j, s);
    PutLazyShape(env, hp, cur, prev, b, j, s);
    PutEntry(env, hp, w, b, j, s);
    WellFormedUnique(env, hp, w);
    OverwrittenSize(w, b, j, s);
    CountedFacts(locks, l, Weight(s) - Weight(cur[b][j]));
  }

  /** A displacement within settled buckets keeps the data in order without touching any counter. */
  lemma DisplaceOk(env: Env, hp: nat, cur: Buckets, prev: Option<Buckets>, locks: Locks, b: nat, j: nat,
                   b': nat, j': nat)
    requires BodyOk(env, hp, cur, prev, locks)
    requires LiveAt(cur, b, j) && !IsPending(prev, |cur|, b)
    requires b' == AltIndex(hp, cur[b][j].partial, b)
    requires b' < |cur| && j' < |cur[b']| && !IsPending(prev, |cur|, b') && cur[b'][j'].Empty?
    ensures var cur' := Displace(cur, b, j, b', j');
            && BodyOk(env, hp, cur', prev, locks)
            && View(env, hp, cur', prev) == Displace(View(env, hp, cur, prev), b, j, b', j')
            && Contents(View(env, hp, cur', prev)) == Contents(View(env, hp, cur, prev))
            && cur'[b][j].Empty?
  {
    hide WellFormed, Contents, Doubling.View, AltIndex;
    var w, s := View(env, hp, cur, prev), cur[b][j];
    PutView(env, hp, cur, prev, b', j', s);
    PutView(env, hp, cur, prev, b, j, Empty);
    DisplaceEntry(env, hp, w, b, j, b', j');
    PutLazyShape(env, hp, cur, prev, b', j', s);
    PutLazyShape(env, hp, Put(cur, b', j', s), prev, b, j, Empty);
    PutView(env, hp, Put(cur, b', j', s), prev, b, j, Empty);
  }

  lemma TableCovered(env: Env, hp: nat, cur: Buckets, prev: Option<Buckets>, locks: Locks)
    requires TableOk(env, hp, cur, prev, locks)
    ensures Covered(env, hp, locks) && BodyOk(env, hp, cur, prev, locks)
  {
  }

  // Counters have no say in which buckets are locked or migrated.
  lemma CountedTable(env: Env, hp: nat, cur: Buckets, cur': Buckets, prev: Option<Buckets>, locks: Locks, l: nat,
                     d: int)
    requires TableOk(env, hp, cur, prev, locks) && l < |locks|
    requires BodyOk(env, hp, cur', prev, Counted(locks, l, d))
    ensures TableOk(env, hp, cur', prev, Counted(locks, l, d))
    ensures Unmigrated(Counted(locks, l, d)) == Unmigrated(locks)
  {
    hide BodyOk;
    CountedFacts(locks, l, d);
  }

  lemma AddOk(env: Env, hp: nat, cur: Buckets, prev: Option<Buckets>, locks: Locks, b: nat, j: nat, k: Key, v: Value,
              l: nat)
    requires BodyOk(env, hp, cur, prev, locks) && l < |locks|
    requires b < |cur| && j < |cur[b]| && !IsPending(prev, |cur|, b) && cur[b][j].Empty?
    requires env.Home(hp, k, b) && k !in Contents(View(env, hp, cur, prev))
    ensures var s := Live(k, v, env.Partial(k));
            var cur', w := Put(cur, b, j, s), View(env, hp, cur, prev);
            && BodyOk(env, hp, cur', prev, Counted(locks, l, 1))
            && View(env, hp, cur', prev) == Put(w, b, j, s)
            && Contents(View(env, hp, cur', prev)) == Contents(w)[k := v]
  {
    hide LazyOk, Doubling.View, Contents, Counted, Env.Home;
    PutOk(env, hp, cur, prev, locks, b, j, Live(k, v, env.Partial(k)), l);
  }

  lemma DelOk(env: Env, hp: nat, cur: Buckets, prev: Option<Buckets>, locks: Locks, b: nat, j: nat, l: nat)
    requires BodyOk(env, hp, cur, prev, locks) && l < |locks|
    requires LiveAt(cur, b, j) && !IsPending(prev, |cur|, b)
    ensures var cur', w := Put(cur, b, j, Empty), View(env, hp, cur, prev);
            && BodyOk(env, hp, cur', prev, Counted(locks, l, -1))
            && View(env, hp, cur', prev) == Put(w, b, j, Empty)
            && Contents(View(env, hp, cur', prev)) == Contents(w) - {cur[b][j].key}
  {
    hide LazyOk, Doubling.View, Contents, Counted;
    PutOk(env, hp, cur, prev, locks, b, j, Empty, l);
  }

  lemma AssignOk(env: Env, hp: nat, cur: Buckets, prev: Option<Buckets>, locks: Locks, b: nat, j: nat, v: Value)
    requires BodyOk(env, hp, cur, prev, locks)
    requires LiveAt(cur, b, j) && !IsPending(prev, |cur|, b)
    ensures var s := cur[b][j].(val := v);
            var cur', w := Put(cur, b, j, s), View(env, hp, cur, prev);
            && BodyOk(env, hp, cur', prev, locks)
            && View(env, hp, cur', prev) == Put(w, b, j, s)
            && Contents(View(env, hp, cur', prev)) == Contents(w)[cur[b][j].key := v]
  {
    hide Doubling.View, Contents, WellFormed, Untouched;
    var w := View(env, hp, cur, prev);
    PutView(env, hp, cur, prev, b, j, cur[b][j].(val := v));
    PutLazyShape(env, hp, cur, prev, b, j, cur[b][j].(val := v));
    WriteEntry(env, hp, w, b, j, v);
    LiveEntry(env, hp, w, b, j);
    var m, k := Contents(w), cur[b][j].key;
    assert m[k := v].Keys == m.Keys;
  }

  // Scanning the two buckets of a key decides whether the table holds it.
  lemma LookupOk(env: Env, hp: nat, bs: Buckets, k: Key)
    requires WellFormed(env, hp, bs)
    ensures var f1 := FindSlot(bs[env.I1(hp, k)], k, env.Partial(k));
            var f2 := FindSlot(bs[env.I2(hp, k)], k, env.Partial(k));
            && (k in Contents(bs) <==> f1.Some? || f2.Some?)
            && (f1.Some? ==> Holds(bs, k, env.I1(hp, k), f1.value) && k in Contents(bs)
                             && Contents(bs)[k] == bs[env.I1(hp, k)][f1.value].val)
            && (f2.Some? ==> Holds(bs, k, env.I2(hp, k), f2.value) && k in Contents(bs)
                             && Contents(bs)[k] == bs[env.I2(hp, k)][f2.value].val)
            && NoMoved(bs[env.I1(hp, k)]) && NoMoved(bs[env.I2(hp, k)])
  {
    hide Contents, Env.I1, Env.I2;
    ContentsRepresents(bs);
    var i1, i2 := env.I1(hp, k), env.I2(hp, k);
    var f1, f2 := FindSlot(bs[i1], k, env.Partial(k)), FindSlot(bs[i2], k, env.Partial(k));
    assert f1.Some? ==> LiveAt(bs, i1, f1.value);
    assert f2.Some? ==> LiveAt(bs, i2, f2.value);
    if f1.None? && f2.None? {
      AbsentFromHomes(env, hp, bs, k);
    }
  }

  lemma WellFormedUnique(env: Env, hp: nat, bs: Buckets)
    requires WellFormed(env, hp, bs)
    ensures Unique(bs) && Shape(env, hp, bs)
  {
  }

  lemma PutView(env: Env, hp: nat, cur: Buckets, prev: Option<Buckets>, b: nat, j: nat, s: Slot)
    requires LazyShape(env, hp, cur, prev) && b < |cur| && j < |cur[b]| && !IsPending(prev, |cur|, b)
    ensures View(env, hp, cur, prev)[b] == cur[b]
    ensures View(env, hp, Put(cur, b, j, s), prev) == Put(View(env, hp, cur, prev), b, j, s)
  {
    WriteThrough(env, hp, cur, prev, b, cur[b][j := s]);
  }

  function FreshLocks(n: nat): (locks: Locks)
    ensures |locks| == n && forall l | 0 <= l < n :: locks[l] == Lock(0, true)
  {
    seq(n, _ => Lock(0, true))
  }

  // An empty table that has any number of locks covering it.
  lemma BlankOk(env: Env, hp: nat, n: nat)
    requires Covered(env, hp, FreshLocks(n))
    ensures var blank := BlankBuckets(Pow2(hp), env.slots);
            && TableOk(env, hp, blank, None, FreshLocks(n))
            && Contents(View(env, hp, blank, None)) == map[]
            && Unmigrated(FreshLocks(n)) == 0 && Sum(CountsOf(FreshLocks(n))) == 0
  {
    BlankContents(env, hp);
    ViewSettled(env, hp, BlankBuckets(Pow2(hp), env.slots), None);
    var c := CountsOf(FreshLocks(n));
    assert c == [] + seq(|c|, _ => 0);
    SumPad([], |c|);
    UnmigratedZero(FreshLocks(n));
  }

  lemma FreshOk(env: Env, hp: nat, n: nat)
    requires n == if Pow2(hp) <= env.Stripes() then Pow2(hp) else env.Stripes()
    ensures TableOk(env, hp, BlankBuckets(Pow2(hp), env.slots), None, FreshLocks(n))
    ensures View(env, hp, BlankBuckets(Pow2(hp), env.slots), None) == BlankBuckets(Pow2(hp), env.slots)
    ensures Unmigrated(FreshLocks(n)) == 0
  {
    hide LazyOk, Contents;
    BlankContents(env, hp);
    BlankOk(env, hp, n);
    ViewSettled(env, hp, BlankBuckets(Pow2(hp), env.slots), None);
  }

  /** What a table is worth to its users: the eagerly rehashed buckets and the counters. */
  datatype TableState = TableState(hp: nat, bs: Buckets, counts: seq<int>)

  datatype Position = Position(index: nat, slot: nat)

  // DEFAULT_MINIMUM_LOAD_FACTOR.
  const DEFAULT_MIN_LOAD: real := 0.05

  class CuckooMap {
    const env: Env
    const buckets: BucketContainer
    const prev: BucketContainer
    var allLocks: seq<Locks>
    var remaining: nat
    var minLoad: real
    var maxHashpower: Option<nat>
    var workers: nat

    constructor (env: Env, n: Word)
      requires env.Valid() && BucketsFor(env.slots, n) <= TWO_63 && env.slots <= TWO_63
      ensures Valid() && this.env == env && fresh(buckets) && fresh(prev)
      ensures Logical() == map[] && AllMigrated()
      ensures n <= TWO_64 - env.slots ==> n <= Pow2(buckets.hashpower) * env.slots
      ensures n <= TWO_64 - env.slots ==> forall h: nat | h < buckets.hashpower :: Pow2(h) * env.slots < n
      ensures |allLocks| == 1 && minLoad == DEFAULT_MIN_LOAD && maxHashpower == None && workers == 0
      ensures var n := |CurrentLocks()|; n <= Pow2(buckets.hashpower) && n <= env.Stripes()
                                         && (n == Pow2(buckets.hashpower) || n == env.Stripes())
    {
      var hp := ReserveCalc(env.slots, n);
      this.env := env;
      buckets := new BucketContainer(hp, env.slots);
      prev := new BucketContainer.Released(env.slots);
      allLocks := [FreshLocks(if Pow2(hp) <= env.Stripes() then Pow2(hp) else env.Stripes())];
      remaining := 0;
      minLoad := DEFAULT_MIN_LOAD;
      maxHashpower := None;
      workers := 0;
      new;
      FreshOk(env, hp, |CurrentLocks()|);
      BlankContents(env, hp);
    }

    // The lock containers are never discarded; the last one is the one in use.
    function CurrentLocks(): Locks
      requires |allLocks| > 0
      reads this
    {
      allLocks[|allLocks| - 1]
    }

    ghost function View(): Buckets
      requires Wired()
      reads this, buckets, prev
    {
      Doubling.View(env, buckets.hashpower, Cur(), prev.data)
    }

    function Cur(): Buckets
      reads this, buckets
    {
      if buckets.data.Some? then buckets.data.value else []
    }

    ghost predicate Wired()
      reads this, buckets, prev
    {
      && env.Valid() && buckets != prev
      && buckets.slots == prev.slots == env.slots
      && buckets.Valid() && prev.Valid() && buckets.data.Some?
      && (prev.data.Some? ==> prev.hashpower + 1 == buckets.hashpower)
    }

    // The invariant, except for the number of stripes left to migrate.
    ghost predicate Core()
      reads this, buckets, prev
    {
      && Wired() && |allLocks| > 0
      && TableOk(env, buckets.hashpower, Cur(), prev.data, CurrentLocks())
    }

    /** The invariant every operation keeps. */
    ghost predicate Valid()
      reads this, buckets, prev
    {
      && Core()
      && remaining == Unmigrated(CurrentLocks())
      && (prev.data.Some? ==> remaining > 0)
    }

    ghost function State(): TableState
      requires Wired() && |allLocks| > 0
      reads this, buckets, prev
    {
      TableState(buckets.hashpower, View(), CountsOf(CurrentLocks()))
    }

    /** The key-value map the table stands for. */
    ghost function Logical(): map<Key, Value>
      requires Core()
      reads this, buckets, prev
    {
      Contents(View())
    }

    ghost predicate AllMigrated()
      requires |allLocks| > 0
      reads this
    {
      forall l | 0 <= l < |CurrentLocks()| :: CurrentLocks()[l].migrated
    }

    // The stripe of bucket `b` has been migrated.
    ghost predicate Ready(b: int)
      requires |allLocks| > 0
      reads this, buckets
    {
      && 0 <= b < |Cur()|
      && env.LockInd(b) < |CurrentLocks()| && CurrentLocks()[env.LockInd(b)].migrated
    }

    // Such a bucket can be read and written in the new array.
    lemma ReadyIsSettled(b: nat)
      requires Core() && Ready(b)
      ensures !IsPending(prev.data, |Cur()|, b) && View()[b] == Cur()[b]
    {
      hide WellFormed, Contents;
      SettledStripe(env, buckets.hashpower, Cur(), prev.data, CurrentLocks(), b);
      WriteThrough(env, buckets.hashpower, Cur(), prev.data, b, Cur()[b]);
    }

    lemma ViewWellFormed()
      requires Core()
      ensures WellFormed(env, buckets.hashpower, View()) && |View()| == |Cur()|
      ensures forall b | 0 <= b < |View()| :: |View()[b]| == env.slots && NoMoved(View()[b])
    {
    }

    // Taking the lock of a bucket also migrates its stripe, except under an already locked table.
    method LockBucket(b: nat, locked: bool)
      requires Valid() && b < |Cur()| && (locked ==> AllMigrated())
      modifies this`allLocks, this`remaining, buckets`data, prev`data
      ensures Valid() && State() == old(State())
      ensures Ready(b) && forall b' | old(Ready(b')) :: Ready(b')
      ensures Flagged(old(CurrentLocks()), CurrentLocks(), {env.LockInd(b)})
      ensures locked ==> AllMigrated()
    {
      hide TableOk, Unmigrated, CountsOf, Env.LockInd;
      TableCovered(env, buckets.hashpower, Cur(), prev.data, CurrentLocks());
      StripeInRange(env, buckets.hashpower, CurrentLocks(), b);
      if locked {
        FlaggedAlready(CurrentLocks(), {env.LockInd(b)});
      } else {
        RehashLock(env.LockInd(b), true);
      }
    }

    // Reads one bucket under its lock.
    method LockAndRead(b: nat, locked: bool) returns (u: Bucket)
      requires Valid() && b < |View()| && (locked ==> AllMigrated())
      modifies this`allLocks, this`remaining, buckets`data, prev`data
      ensures Valid() && State() == old(State()) && (locked ==> AllMigrated())
      ensures b < |View()| && u == View()[b] && NoMoved(u) && |u| == env.slots
    {
      hide TableOk, Doubling.View, Unmigrated, CountsOf, WellFormed;
      LockBucket(b, locked);
      ReadyIsSettled(b);
      ViewWellFormed();
      u := Cur()[b];
    }

    // Locks two buckets, the lower stripe first.
    method LockTwo(i1: nat, i2: nat, locked: bool)
      requires Valid() && i1 < |Cur()| && i2 < |Cur()| && (locked ==> AllMigrated())
      modifies this`allLocks, this`remaining, buckets`data, prev`data
      ensures Valid() && State() == old(State())
      ensures Ready(i1) && Ready(i2) && forall b | old(Ready(b)) :: Ready(b)
      ensures Flagged(old(CurrentLocks()), CurrentLocks(), {env.LockInd(i1), env.LockInd(i2)})
      ensures locked ==> AllMigrated()
    {
      hide TableOk, Unmigrated, CountsOf, Env.LockInd, Doubling.View, Flagged;
      var first, second := i1, i2;
      if env.LockInd(i2) < env.LockInd(i1) {
        first, second := i2, i1;
      }
      LockBucket(first, locked);
      ghost var mid := CurrentLocks();
      LockBucket(second, locked);
      FlaggedTwice(old(CurrentLocks()), mid, CurrentLocks(), {env.LockInd(first)}, {env.LockInd(second)});
      assert {env.LockInd(first)} + {env.LockInd(second)} == {env.LockInd(i1), env.LockInd(i2)};
    }

    // Reads the hash power and locks the two buckets of the key.
    method SnapshotAndLockTwo(k: Key, locked: bool) returns (i1: nat, i2: nat)
      requires Valid() && (locked ==> AllMigrated())
      modifies this`allLocks, this`remaining, buckets`data, prev`data
      ensures Valid() && State() == old(State()) && (locked ==> AllMigrated())
      ensures i1 == env.I1(buckets.hashpower, k) && i2 == env.I2(buckets.hashpower, k)
      ensures Ready(i1) && Ready(i2)
      ensures Flagged(old(CurrentLocks()), CurrentLocks(), {env.LockInd(i1), env.LockInd(i2)})
    {
      hide TableOk, Unmigrated, CountsOf, Env.LockInd, Doubling.View, Flagged;
      var hash, hp := env.hash(k), buckets.hashpower;
      i1 := IndexHash(hp, hash);
      i2 := AltIndex(hp, PartialKey(hash), i1);
      assert i1 == env.I1(hp, k) && i2 == env.I2(hp, k);
      LockTwo(i1, i2, locked);
    }

    /** The position of a key, searched in its two locked buckets. */
    method CuckooFind(k: Key, i1: nat, i2: nat) returns (found: bool, pos: Position)
      requires Valid() && i1 == env.I1(buckets.hashpower, k) && i2 == env.I2(buckets.hashpower, k)
      requires Ready(i1) && Ready(i2)
      ensures found <==> k in Logical()
      ensures found ==> pos.index in {i1, i2} && Holds(Cur(), k, pos.index, pos.slot)
      ensures found ==> Logical()[k] == Cur()[pos.index][pos.slot].val
    {
      hide Contents, Env.LockInd, Doubling.View, FlagsOk, FindSlot, Covered, PartialKey;
      ReadyIsSettled(i1);
      ReadyIsSettled(i2);
      LookupOk(env, buckets.hashpower, View(), k);
      var partial := PartialKey(env.hash(k));
      var slot := TryReadFromBucket(Cur()[i1], partial, k);
      if slot != -1 {
        return true, Position(i1, slot);
      }
      slot := TryReadFromBucket(Cur()[i2], partial, k);
      if slot != -1 {
        return true, Position(i2, slot);
      }
      return false, Position(0, 0);
    }

    method BumpCounter(b: nat, d: int)
      requires |allLocks| > 0 && env.LockInd(b) < |CurrentLocks()|
      modifies this`allLocks
      ensures |allLocks| == old(|allLocks|) && CurrentLocks() == Counted(old(CurrentLocks()), env.LockInd(b), d)
    {
      allLocks := allLocks[|allLocks| - 1 := Counted(CurrentLocks(), env.LockInd(b), d)];
    }

    ghost predicate FreeHome(k: Key, b: nat, j: nat)
      reads this, buckets
    {
      && b < |Cur()| && j < |Cur()[b]| && Cur()[b][j].Empty?
      && env.Home(buckets.hashpower, k, b)
    }

    /** Puts a new entry into a free slot of one of its buckets and counts it. */
    method AddToBucket(b: nat, j: nat, k: Key, v: Value)
      requires Valid() && Ready(b) && FreeHome(k, b, j) && k !in Logical()
      modifies this`allLocks, buckets`data
      ensures Valid() && Logical() == old(Logical())[k := v]
      ensures View() == Put(old(View()), b, j, Live(k, v, env.Partial(k)))
      ensures CurrentLocks() == Counted(old(CurrentLocks()), env.LockInd(b), 1)
    {
      hide BodyOk, FlagsOk, Covered, Contents, Doubling.View, Counted, Env.LockInd, Env.Home;
      ReadyIsSettled(b);
      ghost var cur' := Put(Cur(), b, j, Live(k, v, env.Partial(k)));
      TableCovered(env, buckets.hashpower, Cur(), prev.data, CurrentLocks());
      AddOk(env, buckets.hashpower, Cur(), prev.data, CurrentLocks(), b, j, k, v, env.LockInd(b));
      CountedTable(env, buckets.hashpower, Cur(), cur', prev.data, CurrentLocks(), env.LockInd(b), 1);
      buckets.SetKV(b, j, PartialKey(env.hash(k)), k, v);
      BumpCounter(b, 1);
    }

    /** Frees the slot of an entry and discounts it. */
    method DelFromBucket(b: nat, j: nat)
      requires Valid() && Ready(b) && LiveAt(Cur(), b, j)
      modifies this`allLocks, buckets`data
      ensures Valid() && Logical() == old(Logical()) - {old(Cur()[b][j].key)}
      ensures View() == Put(old(View()), b, j, Empty) && Cur() == Put(old(Cur()), b, j, Empty)
      ensures CurrentLocks() == Counted(old(CurrentLocks()), env.LockInd(b), -1)
    {
      hide BodyOk, FlagsOk, Covered, Contents, Doubling.View, Counted, Env.LockInd, Env.Home;
      ReadyIsSettled(b);
      TableCovered(env, buckets.hashpower, Cur(), prev.data, CurrentLocks());
      DelOk(env, buckets.hashpower, Cur(), prev.data, CurrentLocks(), b, j, env.LockInd(b));
      ghost var cur' := Put(Cur(), b, j, Empty);
      CountedTable(env, buckets.hashpower, Cur(), cur', prev.data, CurrentLocks(), env.LockInd(b), -1);
      buckets.EraseKV(b, j);
      BumpCounter(b, -1);
    }

    /** Writes the value of an entry in place. */
    method Assign(b: nat, j: nat, v: Value)
      requires Valid() && Ready(b) && LiveAt(Cur(), b, j)
      modifies buckets`data
      ensures Valid() && Logical() == old(Logical())[old(Cur()[b][j].key) := v]
      ensures View() == Put(old(View()), b, j, old(Cur()[b][j]).(val := v))
      ensures Cur() == Put(old(Cur()), b, j, old(Cur()[b][j]).(val := v))
    {
      hide BodyOk, FlagsOk, Covered, Contents, Doubling.View, Counted, Env.LockInd, Env.Home;
      ReadyIsSettled(b);
      AssignOk(env, buckets.hashpower, Cur(), prev.data, CurrentLocks(), b, j, v);
      buckets.SetMapped(b, j, v);
    }

    /** Moves an entry to a free slot of its alternate bucket. */
    method MoveEntry(b: nat, j: nat, b': nat, j': nat)
      requires Valid() && Ready(b) && Ready(b') && LiveAt(Cur(), b, j)
      requires b' == AltIndex(buckets.hashpower, Cur()[b][j].partial, b)
      requires j' < |Cur()[b']| && Cur()[b'][j'].Empty?
      modifies buckets`data
      ensures Valid() && Logical() == old(Logical())
      ensures View() == Displace(old(View()), b, j, b', j') && Cur() == Displace(old(Cur()), b, j, b', j')
      ensures Cur()[b][j].Empty?
    {
      hide BodyOk, FlagsOk, Covered, Contents, Doubling.View, Env.LockInd, Env.Home, AltIndex;
      ReadyIsSettled(b);
      ReadyIsSettled(b');
      DisplaceOk(env, buckets.hashpower, Cur(), prev.data, CurrentLocks(), b, j, b', j');
      var s := Cur()[b][j];
      buckets.SetKV(b', j', s.partial, s.key, s.val);
      buckets.EraseKV(b, j);
    }

    /** Migrates a stripe: moves every old bucket under it, then sets its flag. The last lazy
        migration releases the old buckets. */
    method RehashLock(l: nat, lazy: bool)
      requires Core() && l < |CurrentLocks()| && (lazy ==> Valid())
      modifies this`allLocks, this`remaining, buckets`data, prev`data
      ensures Core() && State() == old(State())
      ensures |allLocks| == old(|allLocks|) && CurrentLocks() == Marked(old(CurrentLocks()), l)
      ensures lazy ==> Valid()
      ensures !lazy ==> remaining == old(remaining) && prev.data.Some? == old(prev.data.Some?)
    {
      hide LazyOk, Contents, Unmigrated, Marked, CountsOf;
      MarkedFacts(CurrentLocks(), l);
      if CurrentLocks()[l].migrated {
        return;
      }
      MoveStripe(l);
      SetMigrated(l);
      if lazy {
        DecrementRemaining();
      }
    }

    // The loop of `RehashLock` over the old buckets of stripe `l`.
    method MoveStripe(l: nat)
      requires Core() && l < |CurrentLocks()| && !CurrentLocks()[l].migrated
      modifies buckets`data, prev`data
      ensures Wired() && prev.data.Some?
      ensures TableOk(env, buckets.hashpower, Cur(), prev.data, Marked(CurrentLocks(), l)) && old(prev.data.Some?)
      ensures View() == old(View())
    {
      hide TableOk, Migrating, LazyShape, Contents, Doubling.View, Covered, Marked;
      ghost var hp, locks, view := buckets.hashpower, CurrentLocks(), View();
      MigratingStart(env, hp, Cur(), prev.data, locks, l);
      var ind := l;
      while ind < |prev.data.value|
        invariant Wired() && prev.data.Some?
        invariant Migrating(env, hp, Cur(), prev.data.value, locks, l, ind)
        invariant View() == view
      {
        MoveNext(l, ind, locks);
        ind := ind + env.Stripes();
      }
      assert prev.data == Some(prev.data.value);
      MigratingEnd(env, hp, Cur(), prev.data.value, locks, l, ind);
    }

    // One round of `MoveStripe`'s loop.
    method MoveNext(l: nat, ind: nat, ghost locks: Locks)
      requires Wired() && prev.data.Some? && ind < |prev.data.value|
      requires Migrating(env, buckets.hashpower, Cur(), prev.data.value, locks, l, ind)
      modifies buckets`data, prev`data
      ensures Wired() && prev.data.Some?
      ensures Migrating(env, buckets.hashpower, Cur(), prev.data.value, locks, l, ind + env.Stripes())
      ensures View() == old(View())
    {
      hide Migrating, MoveBucketCur, Doubling.View, Vacate;
      assert prev.data == Some(prev.data.value) && prev.hashpower == buckets.hashpower - 1;
      MigratingStep(env, buckets.hashpower, Cur(), prev.data.value, locks, l, ind);
      MoveBucket(ind);
    }

    method SetMigrated(l: nat)
      requires |allLocks| > 0 && l < |CurrentLocks()|
      modifies this`allLocks
      ensures |allLocks| == old(|allLocks|) && CurrentLocks() == Marked(old(CurrentLocks()), l)
    {
      allLocks := allLocks[|allLocks| - 1 := Marked(CurrentLocks(), l)];
    }

    // Counts one stripe as migrated; the last one releases the old buckets.
    method DecrementRemaining()
      requires Core() && remaining == Unmigrated(CurrentLocks()) + 1
      modifies this`remaining, prev`data
      ensures Valid() && State() == old(State())
      ensures remaining == old(remaining) - 1
      ensures prev.data == if remaining == 0 then None else old(prev.data)
    {
      hide WellFormed, Contents, Unmigrated;
      var was := remaining;
      remaining := was - 1;
      UnmigratedZero(CurrentLocks());
      if was == 1 {
        ReleaseOk(env, buckets.hashpower, Cur(), prev.data, CurrentLocks());
        prev.ClearAndDeallocate();
      }
    }

    /** Moves the entries of one old bucket into the new array. */
    method MoveBucket(i: nat)
      requires Wired() && prev.data.Some? && i < |prev.data.value| && NoMoved(prev.data.value[i])
      requires Pending(prev.data.value[i]) ==> AllEmpty(Cur()[i]) && AllEmpty(Cur()[i + |prev.data.value|])
      modifies buckets`data, prev`data
      ensures Wired() && prev.data.Some?
      ensures Cur() == MoveBucketCur(env, prev.hashpower, old(Cur()), old(prev.data.value), i)
      ensures prev.data == Some(old(prev.data.value)[i := Vacate(old(prev.data.value[i]))])
    {
      hide Movers, LowUpTo, HighUpTo, VacateUpTo;
      var oldHp := prev.hashpower;
      ghost var u, cur0, prev0 := prev.data.value[i], Cur(), prev.data.value;
      var top := i + Pow2(oldHp);
      var newSlot := 0;
      var j := 0;
      ghost var up := Rises(env, oldHp, i);
      SplitStart(up, u);
      assert AllEmpty(cur0[i]) ==> cur0[i] == Blank(env.slots);
      assert AllEmpty(cur0[top]) ==> cur0[top] == Blank(env.slots);
      while j < env.slots
        invariant 0 <= j <= env.slots && Wired() && prev.data.Some?
        invariant newSlot == |Movers(up, u[..j])|
        invariant prev.data.value == prev0[i := VacateUpTo(u, j)]
        invariant Cur() == if Pending(u) then cur0[i := LowUpTo(up, u, j)][top := HighUpTo(up, u, j)] else cur0
      {
        newSlot := MoveSlot(i, j, newSlot, u, cur0, prev0);
        j := j + 1;
      }
      assert u[..env.slots] == u;
    }

    // One round of `MoveBucket`'s loop: slot `j` of the old bucket, which was `u` to begin with.
    method MoveSlot(i: nat, j: nat, newSlot: nat, ghost u: Bucket, ghost cur0: Buckets, ghost prev0: Buckets)
      returns (next: nat)
      requires Wired() && prev.data.Some? && i < |prev0| == Pow2(prev.hashpower) && |cur0| == 2 * |prev0|
      requires |u| == env.slots && j < |u| && NoMoved(u)
      requires newSlot == |Movers(Rises(env, prev.hashpower, i), u[..j])|
      requires prev.data.value == prev0[i := VacateUpTo(u, j)]
      requires Cur() == if Pending(u) then Splitting(prev.hashpower, i, j, u, cur0) else cur0
      modifies buckets`data, prev`data
      ensures Wired() && prev.data.Some?
      ensures next == |Movers(Rises(env, prev.hashpower, i), u[..j + 1])|
      ensures prev.data.value == prev0[i := VacateUpTo(u, j + 1)]
      ensures Cur() == if Pending(u) then Splitting(prev.hashpower, i, j + 1, u, cur0) else cur0
    {
      hide Movers, LowUpTo, HighUpTo, Rises, VacateUpTo;
      ghost var up := Rises(env, prev.hashpower, i);
      LowStep(up, u, j);
      HighStep(up, u, j);
      VacateStep(u, j);
      RisesIs(env, prev.hashpower, i, u[j]);
      next := newSlot;
      if prev.Occupied(i, j) {
        var dstInd, dstSlot := i, j;
        if GoesHigh(env, prev.hashpower, i, prev.data.value[i][j].key) {
          dstInd, dstSlot := i + Pow2(prev.hashpower), newSlot;
          next := newSlot + 1;
        }
        var k, v, p := prev.TakeKV(i, j);
        buckets.SetKV(dstInd, dstSlot, p, k, v);
      }
    }

    ghost function Splitting(hp: nat, i: nat, j: nat, u: Bucket, cur0: Buckets): Buckets
      requires j <= |u| && i + Pow2(hp) < |cur0|
    {
      var up := Rises(env, hp, i);
      cur0[i := LowUpTo(up, u, j)][i + Pow2(hp) := HighUpTo(up, u, j)]
    }
  }
}
