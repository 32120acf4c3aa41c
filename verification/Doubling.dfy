/**
 Doubling the bucket array, eagerly and lazily. `Doubled` rehashes a whole array at once; `View`
 is the array a table stands for while some buckets of the previous array still wait to be moved.
 */
module Doubling {
  import opened Hashing
  import opened Bits
  import opened Layout

  // Whether `move_bucket` sends a key of old bucket `i` to the copy of `i` in the upper half.
  predicate GoesHigh(env: Env, hp: nat, i: nat, k: Key) {
    || (i == env.I1(hp, k) && env.I1(hp + 1, k) == i + Pow2(hp))
    || (i == env.I2(hp, k) && env.I2(hp + 1, k) == i + Pow2(hp))
  }

  function Rises(env: Env, hp: nat, i: nat): Slot -> bool {
    (s: Slot) => s.Live? && GoesHigh(env, hp, i, s.key)
  }

  lemma RisesIs(env: Env, hp: nat, i: nat, s: Slot)
    ensures Rises(env, hp, i)(s) <==> s.Live? && GoesHigh(env, hp, i, s.key)
  {
  }

  // The slots of an old bucket whose entries go to the upper half, in order.
  function Movers(up: Slot -> bool, u: Bucket): (r: seq<nat>)
    ensures |r| <= |u|
    ensures forall m | 0 <= m < |r| :: r[m] < |u|
  {
    if |u| == 0 then []
    else
      var n := |u| - 1;
      var r := Movers(up, u[..n]);
      if up(u[n]) then r + [n] else r
  }

  lemma {:induction false} MoversExact(up: Slot -> bool, u: Bucket)
    ensures forall m | 0 <= m < |Movers(up, u)| :: up(u[Movers(up, u)[m]])
    ensures forall m, m' | 0 <= m < m' < |Movers(up, u)| :: Movers(up, u)[m] < Movers(up, u)[m']
    ensures forall j | 0 <= j < |u| && up(u[j]) :: j in Movers(up, u)
  {
    if |u| > 0 {
      var n := |u| - 1;
      var r, r' := Movers(up, u), Movers(up, u[..n]);
      MoversExact(up, u[..n]);
      assert forall m | 0 <= m < |r'| :: r[m] == r'[m] && u[..n][r'[m]] == u[r'[m]];
      forall j | 0 <= j < |u| && up(u[j])
        ensures j in r
      {
        assert j < n ==> u[..n][j] == u[j];
      }
    }
  }

  lemma {:induction false} NoMovers(up: Slot -> bool, u: Bucket)
    requires forall j | 0 <= j < |u| :: !up(u[j])
    ensures Movers(up, u) == []
  {
    if |u| > 0 {
      NoMovers(up, u[..|u| - 1]);
    }
  }

  // The two new buckets after the first `n` slots of old bucket `u` have been handled.
  function LowUpTo(up: Slot -> bool, u: Bucket, n: nat): (r: Bucket)
    ensures |r| == |u|
  {
    seq(|u|, j requires 0 <= j < |u| => if j < n && u[j].Live? && !up(u[j]) then u[j] else Empty)
  }

  function HighUpTo(up: Slot -> bool, u: Bucket, n: nat): (r: Bucket)
    requires n <= |u|
    ensures |r| == |u|
  {
    var ms := Movers(up, u[..n]);
    seq(|u|, m requires 0 <= m < |u| => if m < |ms| then u[ms[m]] else Empty)
  }

  lemma SplitStart(up: Slot -> bool, u: Bucket)
    ensures LowUpTo(up, u, 0) == HighUpTo(up, u, 0) == Blank(|u|)
    ensures VacateUpTo(u, 0) == u
  {
  }

  lemma LowStep(up: Slot -> bool, u: Bucket, n: nat)
    requires n < |u|
    ensures LowUpTo(up, u, n)[n].Empty?
    ensures LowUpTo(up, u, n + 1) == if u[n].Live? && !up(u[n]) then LowUpTo(up, u, n)[n := u[n]] else LowUpTo(up, u, n)
  {
  }

  lemma HighStep(up: Slot -> bool, u: Bucket, n: nat)
    requires n < |u|
    ensures var ms := Movers(up, u[..n]);
            && |ms| <= n
            && HighUpTo(up, u, n)[|ms|].Empty?
            && Movers(up, u[..n + 1]) == (if up(u[n]) then ms + [n] else ms)
            && HighUpTo(up, u, n + 1) == (if up(u[n]) then HighUpTo(up, u, n)[|ms| := u[n]] else HighUpTo(up, u, n))
  {
    assert u[..n + 1][..n] == u[..n];
  }

  lemma VacateStep(u: Bucket, n: nat)
    requires n < |u|
    ensures VacateUpTo(u, n)[n] == u[n]
    ensures VacateUpTo(u, n + 1) == if u[n].Live? then VacateUpTo(u, n)[n := Moved] else VacateUpTo(u, n)
  {
  }

  function LowPart(up: Slot -> bool, u: Bucket): (r: Bucket)
    ensures |r| == |u|
  {
    LowUpTo(up, u, |u|)
  }

  function HighPart(up: Slot -> bool, u: Bucket): (r: Bucket)
    ensures |r| == |u|
  {
    HighUpTo(up, u, |u|)
  }

  lemma HighPartIs(up: Slot -> bool, u: Bucket)
    ensures forall m | 0 <= m < |u| :: HighPart(up, u)[m] == if m < |Movers(up, u)| then u[Movers(up, u)[m]] else Empty
  {
    assert u[..|u|] == u;
  }

  // Bucket `b` of the doubled array, and the old bucket it is filled from.
  function OldIndex(n: nat, b: nat): (i: nat)
    requires b < 2 * n
    ensures i < n && (b == i || b == i + n)
  {
    if b < n then b else b - n
  }

  function Part(env: Env, hp: nat, prev: Buckets, b: nat): (u: Bucket)
    requires b < 2 * |prev|
    ensures |u| == |prev[OldIndex(|prev|, b)]|
  {
    if b < |prev| then LowPart(Rises(env, hp, b), prev[b]) else HighPart(Rises(env, hp, b - |prev|), prev[b - |prev|])
  }

  /** The array after every bucket has been moved. */
  function Doubled(env: Env, hp: nat, prev: Buckets): (r: Buckets)
    ensures |r| == 2 * |prev|
  {
    seq(2 * |prev|, b requires 0 <= b < 2 * |prev| => Part(env, hp, prev, b))
  }

  // The old slot an entry of the doubled array comes from.
  ghost function Origin(env: Env, hp: nat, prev: Buckets, b: nat, m: nat): (p: (nat, nat))
    requires LiveAt(Doubled(env, hp, prev), b, m)
    ensures p.0 == OldIndex(|prev|, b) && LiveAt(prev, p.0, p.1)
    ensures prev[p.0][p.1] == Doubled(env, hp, prev)[b][m]
    ensures if b < |prev| then p.1 == m && !Rises(env, hp, p.0)(prev[p.0][p.1])
            else Rises(env, hp, p.0)(prev[p.0][p.1]) && m < |Movers(Rises(env, hp, p.0), prev[p.0])|
                 && p.1 == Movers(Rises(env, hp, p.0), prev[p.0])[m]
  {
    MoversExact(Rises(env, hp, OldIndex(|prev|, b)), prev[OldIndex(|prev|, b)]);
    HighPartIs(Rises(env, hp, OldIndex(|prev|, b)), prev[OldIndex(|prev|, b)]);
    if b < |prev| then (b, m) else (b - |prev|, Movers(Rises(env, hp, b - |prev|), prev[b - |prev|])[m])
  }

  // Where an old entry goes.
  lemma Target(env: Env, hp: nat, prev: Buckets, i: nat, j: nat) returns (b: nat, m: nat)
    requires LiveAt(prev, i, j)
    ensures LiveAt(Doubled(env, hp, prev), b, m) && Doubled(env, hp, prev)[b][m] == prev[i][j]
    ensures b == if Rises(env, hp, i)(prev[i][j]) then i + |prev| else i
    ensures Origin(env, hp, prev, b, m) == (i, j)
  {
    if Rises(env, hp, i)(prev[i][j]) {
      var ms := Movers(Rises(env, hp, i), prev[i]);
      MoversExact(Rises(env, hp, i), prev[i]);
      HighPartIs(Rises(env, hp, i), prev[i]);
      m :| 0 <= m < |ms| && ms[m] == j;
      b := i + |prev|;
      assert Part(env, hp, prev, b)[m] == prev[i][j];
    } else {
      b, m := i, j;
      assert Part(env, hp, prev, b)[m] == prev[i][j];
    }
  }

  lemma DoubledUnique(env: Env, hp: nat, prev: Buckets)
    requires Unique(prev)
    ensures Unique(Doubled(env, hp, prev))
  {
    var r := Doubled(env, hp, prev);
    forall b, m, b', m' | LiveAt(r, b, m) && LiveAt(r, b', m') && r[b][m].key == r[b'][m'].key
      ensures b == b' && m == m'
    {
      var p, p' := Origin(env, hp, prev, b, m), Origin(env, hp, prev, b', m');
      assert p == p';
      MoversExact(Rises(env, hp, p.0), prev[p.0]);
    }
  }

  lemma DoubledPlaced(env: Env, hp: nat, prev: Buckets)
    requires Placed(env, hp, prev) && |prev| == Pow2(hp)
    ensures Placed(env, hp + 1, Doubled(env, hp, prev))
  {
    var r := Doubled(env, hp, prev);
    forall b, m | LiveAt(r, b, m)
      ensures PlacedSlot(env, hp + 1, b, r[b][m])
    {
      var p := Origin(env, hp, prev, b, m);
      assert PlacedSlot(env, hp, p.0, prev[p.0][p.1]);
      HomesGrow(env, hp, r[b][m].key);
    }
  }

  lemma DoubledRepresents(env: Env, hp: nat, prev: Buckets, m: map<Key, Value>)
    requires Represents(prev, m)
    ensures Represents(Doubled(env, hp, prev), m)
  {
    var r := Doubled(env, hp, prev);
    forall k | k in m
      ensures Stores(r, k)
    {
      var i, j :| Holds(prev, k, i, j);
      var b, c := Target(env, hp, prev, i, j);
      assert Holds(r, k, b, c);
    }
    forall b, c | LiveAt(r, b, c)
      ensures r[b][c].key in m && m[r[b][c].key] == r[b][c].val
    {
      var p := Origin(env, hp, prev, b, c);
      assert LiveAt(prev, p.0, p.1);
    }
  }

  /** Rehashing puts every entry into one of its two buckets at the new hash power, in a slot of
      its own, and neither loses nor duplicates any. */
  lemma DoubledCorrect(env: Env, hp: nat, prev: Buckets)
    requires WellFormed(env, hp, prev)
    ensures WellFormed(env, hp + 1, Doubled(env, hp, prev))
    ensures Contents(Doubled(env, hp, prev)) == Contents(prev)
  {
    DoubledUnique(env, hp, prev);
    DoubledPlaced(env, hp, prev);
    ContentsRepresents(prev);
    DoubledRepresents(env, hp, prev, Contents(prev));
    RepresentsOnce(Doubled(env, hp, prev), Contents(prev));
    forall b | 0 <= b < 2 * |prev|
      ensures NoMoved(Part(env, hp, prev, b))
    {
      assert NoMoved(prev[OldIndex(|prev|, b)]);
    }
  }

  // An old bucket that still holds entries.
  predicate Pending(u: Bucket) {
    exists j | 0 <= j < |u| :: u[j].Live?
  }

  predicate IsPending(prev: Option<Buckets>, n: nat, b: nat)
    requires prev.Some? ==> 2 * |prev.value| == n
    requires b < n
  {
    prev.Some? && Pending(prev.value[OldIndex(|prev.value|, b)])
  }

  /** The array a half-migrated table stands for. */
  function View(env: Env, hp: nat, cur: Buckets, prev: Option<Buckets>): (r: Buckets)
    requires prev.Some? ==> hp > 0 && 2 * |prev.value| == |cur|
    ensures |r| == |cur|
  {
    seq(|cur|, b requires 0 <= b < |cur| =>
          if IsPending(prev, |cur|, b) then Part(env, hp - 1, prev.value, b) else cur[b])
  }

  predicate LazyShape(env: Env, hp: nat, cur: Buckets, prev: Option<Buckets>) {
    && Shape(env, hp, cur)
    && (forall b | 0 <= b < |cur| :: NoMoved(cur[b]))
    && (prev.Some? ==> hp > 0 && Shape(env, hp - 1, prev.value))
  }

  // Until an old bucket is moved, both of its new buckets are empty.
  ghost predicate Untouched(env: Env, cur: Buckets, prev: Option<Buckets>) {
    prev.Some? ==> forall i {:trigger Pending(prev.value[i])} | 0 <= i < |prev.value| && Pending(prev.value[i]) ::
                    && i + |prev.value| < |cur| && NoMoved(prev.value[i])
                    && AllEmpty(cur[i]) && AllEmpty(cur[i + |prev.value|])
  }

  ghost predicate LazyOk(env: Env, hp: nat, cur: Buckets, prev: Option<Buckets>) {
    && LazyShape(env, hp, cur, prev)
    && Untouched(env, cur, prev)
    && WellFormed(env, hp, View(env, hp, cur, prev))
  }

  function VacateUpTo(u: Bucket, n: nat): (r: Bucket)
    ensures |r| == |u|
  {
    seq(|u|, j requires 0 <= j < |u| => if j < n && u[j].Live? then Moved else u[j])
  }

  // What is left of an old bucket once its entries have been moved.
  function Vacate(u: Bucket): (r: Bucket)
    ensures |r| == |u|
  {
    VacateUpTo(u, |u|)
  }

  function MoveBucketCur(env: Env, hp: nat, cur: Buckets, prev: Buckets, i: nat): (r: Buckets)
    requires i < |prev| && 2 * |prev| == |cur|
    ensures |r| == |cur|
  {
    if Pending(prev[i]) then
      cur[i := LowPart(Rises(env, hp, i), prev[i])][i + |prev| := HighPart(Rises(env, hp, i), prev[i])]
    else cur
  }

  lemma MoveBucketAt(env: Env, hp: nat, cur: Buckets, prev: Buckets, i: nat, b: nat)
    requires hp > 0 && LazyShape(env, hp, cur, Some(prev)) && i < |prev| && b < |cur|
    ensures var cur' := MoveBucketCur(env, hp - 1, cur, prev, i);
            var prev' := prev[i := Vacate(prev[i])];
            View(env, hp, cur', Some(prev'))[b] == View(env, hp, cur, Some(prev))[b]
  {
    var prev' := prev[i := Vacate(prev[i])];
    assert !Pending(prev'[i]);
    if OldIndex(|prev|, b) != i {
      assert Part(env, hp - 1, prev', b) == Part(env, hp - 1, prev, b);
    }
  }

  lemma MoveBucketShape(env: Env, hp: nat, cur: Buckets, prev: Buckets, i: nat)
    requires hp > 0 && LazyShape(env, hp, cur, Some(prev)) && Untouched(env, cur, Some(prev)) && i < |prev|
    ensures var cur' := MoveBucketCur(env, hp - 1, cur, prev, i);
            var prev' := prev[i := Vacate(prev[i])];
            LazyShape(env, hp, cur', Some(prev')) && Untouched(env, cur', Some(prev'))
  {
    var cur' := MoveBucketCur(env, hp - 1, cur, prev, i);
    var prev' := prev[i := Vacate(prev[i])];
    assert !Pending(prev'[i]);
    forall b | 0 <= b < |cur'|
      ensures |cur'[b]| == env.slots && NoMoved(cur'[b])
    {
      assert |cur[b]| == env.slots && NoMoved(cur[b]);
    }
    forall i' | 0 <= i' < |prev| && Pending(prev'[i'])
      ensures cur'[i'] == cur[i'] && cur'[i' + |prev|] == cur[i' + |prev|] && prev'[i'] == prev[i']
    {
    }
  }

  /** Moving one bucket leaves the table's meaning alone. */
  lemma MoveBucketView(env: Env, hp: nat, cur: Buckets, prev: Buckets, i: nat)
    requires hp > 0 && LazyOk(env, hp, cur, Some(prev)) && i < |prev|
    ensures var cur' := MoveBucketCur(env, hp - 1, cur, prev, i);
            var prev' := prev[i := Vacate(prev[i])];
            && View(env, hp, cur', Some(prev')) == View(env, hp, cur, Some(prev))
            && LazyOk(env, hp, cur', Some(prev'))
  {
    var cur' := MoveBucketCur(env, hp - 1, cur, prev, i);
    var prev' := prev[i := Vacate(prev[i])];
    MoveBucketShape(env, hp, cur, prev, i);
    var v, v' := View(env, hp, cur, Some(prev)), View(env, hp, cur', Some(prev'));
    forall b | 0 <= b < |cur|
      ensures v'[b] == v[b]
    {
      MoveBucketAt(env, hp, cur, prev, i, b);
    }
    assert v' == v;
  }

  lemma NothingToSplit(env: Env, hp: nat, i: nat, u: Bucket)
    requires !Pending(u)
    ensures LowPart(Rises(env, hp, i), u) == HighPart(Rises(env, hp, i), u) == Blank(|u|)
  {
    var up := Rises(env, hp, i);
    assert forall j | 0 <= j < |u| :: !up(u[j]);
    NoMovers(up, u);
    HighPartIs(up, u);
  }

  lemma DoubleViewAt(env: Env, hp: nat, bs: Buckets, b: nat)
    requires Shape(env, hp, bs) && b < 2 * |bs|
    ensures View(env, hp + 1, BlankBuckets(2 * |bs|, env.slots), Some(bs))[b] == Doubled(env, hp, bs)[b]
  {
    var i := OldIndex(|bs|, b);
    if !Pending(bs[i]) {
      NothingToSplit(env, hp, i, bs[i]);
    }
  }

  lemma DoubleShape(env: Env, hp: nat, bs: Buckets)
    requires Shape(env, hp, bs) && forall b | 0 <= b < |bs| :: NoMoved(bs[b])
    ensures var cur := BlankBuckets(2 * |bs|, env.slots);
            LazyShape(env, hp + 1, cur, Some(bs)) && Untouched(env, cur, Some(bs))
  {
  }

  /** Right after the arrays are exchanged the table stands for the doubled array. */
  lemma DoubleView(env: Env, hp: nat, bs: Buckets)
    requires WellFormed(env, hp, bs)
    ensures var cur := BlankBuckets(2 * |bs|, env.slots);
            && LazyOk(env, hp + 1, cur, Some(bs))
            && View(env, hp + 1, cur, Some(bs)) == Doubled(env, hp, bs)
            && Contents(View(env, hp + 1, cur, Some(bs))) == Contents(bs)
  {
    var cur := BlankBuckets(2 * |bs|, env.slots);
    DoubleShape(env, hp, bs);
    var v := View(env, hp + 1, cur, Some(bs));
    forall b | 0 <= b < |cur|
      ensures v[b] == Doubled(env, hp, bs)[b]
    {
      DoubleViewAt(env, hp, bs, b);
    }
    assert v == Doubled(env, hp, bs);
    DoubledCorrect(env, hp, bs);
  }

  /** A bucket whose old source has been moved is read and written in the new array. */
  lemma WriteThrough(env: Env, hp: nat, cur: Buckets, prev: Option<Buckets>, b: nat, u: Bucket)
    requires LazyShape(env, hp, cur, prev) && b < |cur| && !IsPending(prev, |cur|, b)
    ensures View(env, hp, cur, prev)[b] == cur[b]
    ensures View(env, hp, cur[b := u], prev) == View(env, hp, cur, prev)[b := u]
  {
  }

  /** With nothing pending the table is its new array. */
  lemma ViewSettled(env: Env, hp: nat, cur: Buckets, prev: Option<Buckets>)
    requires LazyShape(env, hp, cur, prev)
    requires forall b | 0 <= b < |cur| :: !IsPending(prev, |cur|, b)
    ensures View(env, hp, cur, prev) == cur
  {
  }

  lemma EntryFromView(env: Env, hp: nat, cur: Buckets, prev: Option<Buckets>, k: Key, v: Value)
    requires LazyShape(env, hp, cur, prev) && HasEntry(View(env, hp, cur, prev), k, v)
    ensures HasEntry(cur, k, v) || (prev.Some? && HasEntry(prev.value, k, v))
  {
    hide Part, Movers, Rises;
    var b, j :| IsEntry(View(env, hp, cur, prev), b, j, k, v);
    if IsPending(prev, |cur|, b) {
      var p := Origin(env, hp - 1, prev.value, b, j);
      assert IsEntry(prev.value, p.0, p.1, k, v);
    } else {
      assert IsEntry(cur, b, j, k, v);
    }
  }

  lemma NewEntryInView(env: Env, hp: nat, cur: Buckets, prev: Option<Buckets>, k: Key, v: Value)
    requires LazyShape(env, hp, cur, prev) && Untouched(env, cur, prev) && HasEntry(cur, k, v)
    ensures HasEntry(View(env, hp, cur, prev), k, v)
  {
    var b, j :| IsEntry(cur, b, j, k, v);
    assert !IsPending(prev, |cur|, b);
    assert IsEntry(View(env, hp, cur, prev), b, j, k, v);
  }

  lemma OldEntryInView(env: Env, hp: nat, cur: Buckets, prev: Buckets, k: Key, v: Value)
    requires LazyShape(env, hp, cur, Some(prev)) && HasEntry(prev, k, v)
    ensures HasEntry(View(env, hp, cur, Some(prev)), k, v)
  {
    var i, j :| IsEntry(prev, i, j, k, v);
    var b, m := Target(env, hp - 1, prev, i, j);
    assert Pending(prev[i]);
    assert IsEntry(View(env, hp, cur, Some(prev)), b, m, k, v);
  }

  lemma EntryInContents(bs: Buckets, k: Key, v: Value)
    requires Unique(bs)
    ensures (k in Contents(bs) && Contents(bs)[k] == v) <==> HasEntry(bs, k, v)
  {
    ContentsRepresents(bs);
    if k in Contents(bs) && Contents(bs)[k] == v {
      var b, j :| Holds(bs, k, b, j);
      assert LiveAt(bs, b, j);
      assert IsEntry(bs, b, j, k, v);
    }
    if HasEntry(bs, k, v) {
      var b, j :| IsEntry(bs, b, j, k, v);
      assert LiveAt(bs, b, j);
    }
  }

  /** The logical map is the live slots of the new array plus the live slots of the old one. */
  lemma ViewEntries(env: Env, hp: nat, cur: Buckets, prev: Option<Buckets>, k: Key, v: Value)
    requires LazyOk(env, hp, cur, prev)
    ensures (k in Contents(View(env, hp, cur, prev)) && Contents(View(env, hp, cur, prev))[k] == v) <==>
            (HasEntry(cur, k, v) || (prev.Some? && HasEntry(prev.value, k, v)))
  {
    EntryInContents(View(env, hp, cur, prev), k, v);
    if HasEntry(View(env, hp, cur, prev), k, v) {
      EntryFromView(env, hp, cur, prev, k, v);
    }
    if HasEntry(cur, k, v) {
      NewEntryInView(env, hp, cur, prev, k, v);
    }
    if prev.Some? && HasEntry(prev.value, k, v) {
      OldEntryInView(env, hp, cur, prev.value, k, v);
    }
  }

  // Where the logical array holds a live slot of the new array, and one of the old array.
  lemma NewSlotInView(env: Env, hp: nat, cur: Buckets, prev: Option<Buckets>, b: nat, j: nat)
    requires LazyOk(env, hp, cur, prev) && LiveAt(cur, b, j)
    ensures !IsPending(prev, |cur|, b) && LiveAt(View(env, hp, cur, prev), b, j)
    ensures View(env, hp, cur, prev)[b][j] == cur[b][j]
  {
  }

  lemma OldSlotInView(env: Env, hp: nat, cur: Buckets, prev: Buckets, i: nat, j: nat) returns (b: nat, m: nat)
    requires LazyOk(env, hp, cur, Some(prev)) && LiveAt(prev, i, j)
    ensures LiveAt(Doubled(env, hp - 1, prev), b, m) && Origin(env, hp - 1, prev, b, m) == (i, j)
    ensures IsPending(Some(prev), |cur|, b) && LiveAt(View(env, hp, cur, Some(prev)), b, m)
    ensures View(env, hp, cur, Some(prev))[b][m] == prev[i][j]
  {
    b, m := Target(env, hp - 1, prev, i, j);
    assert Pending(prev[i]);
  }

  /** No key is stored twice: not in the new array, not in the old one, not once in each. */
  lemma NoKeyTwice(env: Env, hp: nat, cur: Buckets, prev: Option<Buckets>)
    requires LazyOk(env, hp, cur, prev)
    ensures Unique(cur)
    ensures prev.Some? ==> Unique(prev.value)
    ensures prev.Some? ==> forall b, j, i, m {:trigger LiveAt(cur, b, j), LiveAt(prev.value, i, m)} ::
              LiveAt(cur, b, j) && LiveAt(prev.value, i, m) ==> cur[b][j].key != prev.value[i][m].key
  {
    hide LazyShape, Untouched, View, IsPending, Doubled, Origin;
    forall b, j, b', j' | LiveAt(cur, b, j) && LiveAt(cur, b', j') && cur[b][j].key == cur[b'][j'].key
      ensures b == b' && j == j'
    {
      NewSlotInView(env, hp, cur, prev, b, j);
      NewSlotInView(env, hp, cur, prev, b', j');
    }
    if prev.Some? {
      assert prev == Some(prev.value);
      forall i, m, i', m' | && LiveAt(prev.value, i, m) && LiveAt(prev.value, i', m')
                            && prev.value[i][m].key == prev.value[i'][m'].key
        ensures i == i' && m == m'
      {
        var b, j := OldSlotInView(env, hp, cur, prev.value, i, m);
        var b', j' := OldSlotInView(env, hp, cur, prev.value, i', m');
      }
      forall b, j, i, m | LiveAt(cur, b, j) && LiveAt(prev.value, i, m)
        ensures cur[b][j].key != prev.value[i][m].key
      {
        NewSlotInView(env, hp, cur, prev, b, j);
        var b', j' := OldSlotInView(env, hp, cur, prev.value, i, m);
      }
    }
  }

  ghost predicate IsEntry(bs: Buckets, b: int, j: int, k: Key, v: Value) {
    LiveAt(bs, b, j) && bs[b][j].key == k && bs[b][j].val == v
  }

  ghost predicate HasEntry(bs: Buckets, k: Key, v: Value) {
    exists b, j :: IsEntry(bs, b, j, k, v)
  }
}
