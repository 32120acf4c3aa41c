/**
 An array of buckets and the key-value map it stores. A slot is free, holds a live entry, or is
 still marked occupied although its entry has been moved out of it.
 */
module Layout {
  import opened Hashing
  import opened Bits

  datatype Slot = Empty | Live(key: Key, val: Value, partial: nat) | Moved

  type Bucket = seq<Slot>
  type Buckets = seq<Bucket>

  function Blank(s: nat): (u: Bucket)
    ensures |u| == s && AllEmpty(u)
  {
    seq(s, _ => Empty)
  }

  function BlankBuckets(n: nat, s: nat): (bs: Buckets)
    ensures |bs| == n && forall b | 0 <= b < n :: bs[b] == Blank(s)
  {
    seq(n, _ => Blank(s))
  }

  predicate AllEmpty(u: Bucket) {
    forall j | 0 <= j < |u| :: u[j].Empty?
  }

  predicate NoMoved(u: Bucket) {
    forall j | 0 <= j < |u| :: !u[j].Moved?
  }

  predicate Full(u: Bucket) {
    forall j | 0 <= j < |u| :: !u[j].Empty?
  }

  ghost predicate LiveAt(bs: Buckets, b: int, j: int) {
    0 <= b < |bs| && 0 <= j < |bs[b]| && bs[b][j].Live?
  }

  predicate Shape(env: Env, hp: nat, bs: Buckets) {
    |bs| == Pow2(hp) && forall b | 0 <= b < |bs| :: |bs[b]| == env.slots
  }

  // No key has two live slots.
  ghost predicate Unique(bs: Buckets) {
    forall b, j, b', j' {:trigger LiveAt(bs, b, j), LiveAt(bs, b', j')} ::
      LiveAt(bs, b, j) && LiveAt(bs, b', j') && bs[b][j].key == bs[b'][j'].key
      ==> b == b' && j == j'
  }

  // Every live key sits in one of its two candidate buckets, with its own partial key.
  ghost predicate Placed(env: Env, hp: nat, bs: Buckets) {
    forall b, j {:trigger LiveAt(bs, b, j)} :: LiveAt(bs, b, j) ==> PlacedSlot(env, hp, b, bs[b][j])
  }

  ghost predicate PlacedSlot(env: Env, hp: nat, b: int, s: Slot)
    requires s.Live?
  {
    env.Home(hp, s.key, b) && s.partial == env.Partial(s.key)
  }

  ghost predicate WellFormed(env: Env, hp: nat, bs: Buckets) {
    && Shape(env, hp, bs)
    && (forall b | 0 <= b < |bs| :: NoMoved(bs[b]))
    && Unique(bs)
    && Placed(env, hp, bs)
  }

  /** `m` is the map stored in `bs`. */
  ghost predicate Represents(bs: Buckets, m: map<Key, Value>) {
    && (forall b, j {:trigger LiveAt(bs, b, j)} ::
          LiveAt(bs, b, j) ==> bs[b][j].key in m && m[bs[b][j].key] == bs[b][j].val)
    && (forall k :: k in m ==> Stores(bs, k))
  }

  ghost predicate Stores(bs: Buckets, k: Key) {
    exists b, j :: Holds(bs, k, b, j)
  }

  ghost function Keys(bs: Buckets): set<Key> {
    set b, j | 0 <= b < |bs| && 0 <= j < |bs[b]| && bs[b][j].Live? :: bs[b][j].key
  }

  ghost predicate Holds(bs: Buckets, k: Key, b: int, j: int) {
    LiveAt(bs, b, j) && bs[b][j].key == k
  }

  ghost function ValueOf(bs: Buckets, k: Key): Value
    requires k in Keys(bs)
  {
    assert Stores(bs, k) by {
      var b, j :| 0 <= b < |bs| && 0 <= j < |bs[b]| && bs[b][j].Live? && bs[b][j].key == k;
      assert Holds(bs, k, b, j);
    }
    var b, j :| Holds(bs, k, b, j);
    bs[b][j].val
  }

  /** The map stored in an array of buckets. */
  ghost function Contents(bs: Buckets): map<Key, Value> {
    map k | k in Keys(bs) :: ValueOf(bs, k)
  }

  lemma ContentsRepresents(bs: Buckets)
    requires Unique(bs)
    ensures Represents(bs, Contents(bs))
    ensures Contents(bs).Keys == Keys(bs)
  {
    assert forall b, j :: LiveAt(bs, b, j) ==> Holds(bs, bs[b][j].key, b, j) && bs[b][j].key in Keys(bs);
  }

  // A live slot of a well-formed array is an entry of its map.
  lemma LiveEntry(env: Env, hp: nat, bs: Buckets, b: nat, j: nat)
    requires WellFormed(env, hp, bs) && LiveAt(bs, b, j)
    ensures bs[b][j].key in Contents(bs) && Contents(bs)[bs[b][j].key] == bs[b][j].val
  {
    ContentsRepresents(bs);
  }

  lemma RepresentsOnce(bs: Buckets, m: map<Key, Value>)
    requires Unique(bs) && Represents(bs, m)
    ensures m == Contents(bs)
  {
    var c := Contents(bs);
    ContentsRepresents(bs);
    forall k | k in m
      ensures k in c && c[k] == m[k]
    {
      var b, j :| Holds(bs, k, b, j);
    }
  }

  /** Fresh buckets store nothing. */
  lemma BlankContents(env: Env, hp: nat)
    ensures WellFormed(env, hp, BlankBuckets(Pow2(hp), env.slots))
    ensures Contents(BlankBuckets(Pow2(hp), env.slots)) == map[]
  {
    var bs := BlankBuckets(Pow2(hp), env.slots);
    assert forall b, j :: !LiveAt(bs, b, j);
    RepresentsOnce(bs, map[]);
  }

  function Put(bs: Buckets, b: nat, j: nat, s: Slot): (r: Buckets)
    requires b < |bs| && j < |bs[b]|
    ensures |r| == |bs| && |r[b]| == |bs[b]|
  {
    bs[b := bs[b][j := s]]
  }

  // `r` and `bs` hold the same live entries everywhere but in slot (b, j).
  ghost predicate SameBut(bs: Buckets, r: Buckets, b: int, j: int) {
    forall b', j' {:trigger LiveAt(r, b', j')} {:trigger LiveAt(bs, b', j')} :: (b', j') != (b, j) ==>
                       && (LiveAt(r, b', j') <==> LiveAt(bs, b', j'))
                       && (LiveAt(bs, b', j') ==> r[b'][j'] == bs[b'][j'])
  }

  lemma PutSameBut(bs: Buckets, b: nat, j: nat, s: Slot)
    requires b < |bs| && j < |bs[b]|
    ensures SameBut(bs, Put(bs, b, j, s), b, j)
    ensures LiveAt(Put(bs, b, j, s), b, j) <==> s.Live?
    ensures Put(bs, b, j, s)[b][j] == s
  {
  }

  // What the map becomes when slot `was` is overwritten with `now`.
  ghost function Overwritten(m: map<Key, Value>, was: Slot, now: Slot): map<Key, Value> {
    var rest := if was.Live? then m - {was.key} else m;
    if now.Live? then rest[now.key := now.val] else rest
  }

  ghost predicate Admissible(env: Env, hp: nat, bs: Buckets, b: nat, j: nat, s: Slot) {
    && !s.Moved?
    && (s.Live? ==> PlacedSlot(env, hp, b, s) && (s.key !in Contents(bs) || Holds(bs, s.key, b, j)))
  }

  ghost predicate MayHold(env: Env, hp: nat, bs: Buckets, b: nat, j: nat, s: Slot) {
    b < |bs| && j < |bs[b]| && Admissible(env, hp, bs, b, j, s)
  }

  lemma PutWellFormed(env: Env, hp: nat, bs: Buckets, b: nat, j: nat, s: Slot)
    requires WellFormed(env, hp, bs) && MayHold(env, hp, bs, b, j, s)
    ensures WellFormed(env, hp, Put(bs, b, j, s))
  {
    PutSameBut(bs, b, j, s);
    ContentsRepresents(bs);
  }

  lemma OverwriteStores(bs: Buckets, r: Buckets, b: nat, j: nat, m: map<Key, Value>, k: Key)
    requires b < |bs| && j < |bs[b]| && b < |r| && j < |r[b]|
    requires Represents(bs, m) && SameBut(bs, r, b, j)
    requires k in Overwritten(m, bs[b][j], r[b][j])
    ensures Stores(r, k)
  {
    if r[b][j].Live? && k == r[b][j].key {
      assert Holds(r, k, b, j);
    } else {
      var b', j' :| Holds(bs, k, b', j');
      assert LiveAt(bs, b', j');
      assert Holds(r, k, b', j');
    }
  }

  lemma OverwriteMaps(bs: Buckets, r: Buckets, b: nat, j: nat, m: map<Key, Value>, b': int, j': int)
    requires b < |bs| && j < |bs[b]| && b < |r| && j < |r[b]|
    requires Unique(bs) && Represents(bs, m) && SameBut(bs, r, b, j)
    requires r[b][j].Live? ==> r[b][j].key !in m || Holds(bs, r[b][j].key, b, j)
    requires LiveAt(r, b', j')
    ensures var m' := Overwritten(m, bs[b][j], r[b][j]);
            r[b'][j'].key in m' && m'[r[b'][j'].key] == r[b'][j'].val
  {
    if (b', j') != (b, j) {
      assert LiveAt(bs, b', j');
      assert bs[b][j].Live? ==> LiveAt(bs, b, j);
    }
  }

  lemma OverwriteRepresents(bs: Buckets, r: Buckets, b: nat, j: nat, m: map<Key, Value>)
    requires b < |bs| && j < |bs[b]| && b < |r| && j < |r[b]|
    requires Unique(bs) && Represents(bs, m) && SameBut(bs, r, b, j)
    requires r[b][j].Live? ==> r[b][j].key !in m || Holds(bs, r[b][j].key, b, j)
    ensures Represents(r, Overwritten(m, bs[b][j], r[b][j]))
  {
    forall k | k in Overwritten(m, bs[b][j], r[b][j])
      ensures Stores(r, k)
    {
      OverwriteStores(bs, r, b, j, m, k);
    }
    forall b', j' | LiveAt(r, b', j')
      ensures var m' := Overwritten(m, bs[b][j], r[b][j]);
              r[b'][j'].key in m' && m'[r[b'][j'].key] == r[b'][j'].val
    {
      OverwriteMaps(bs, r, b, j, m, b', j');
    }
  }

  /** Overwriting one slot changes the map by that slot's old and new entries and nothing else. */
  lemma PutEntry(env: Env, hp: nat, bs: Buckets, b: nat, j: nat, s: Slot)
    requires WellFormed(env, hp, bs) && MayHold(env, hp, bs, b, j, s)
    ensures WellFormed(env, hp, Put(bs, b, j, s))
    ensures Contents(Put(bs, b, j, s)) == Overwritten(Contents(bs), bs[b][j], s)
  {
    ContentsRepresents(bs);
    PutWellFormed(env, hp, bs, b, j, s);
    PutSameBut(bs, b, j, s);
    OverwriteRepresents(bs, Put(bs, b, j, s), b, j, Contents(bs));
    RepresentsOnce(Put(bs, b, j, s), Overwritten(Contents(bs), bs[b][j], s));
  }

  /** Filling a free slot of one of the key's buckets adds exactly that entry. */
  lemma AddEntry(env: Env, hp: nat, bs: Buckets, b: nat, j: nat, k: Key, v: Value)
    requires WellFormed(env, hp, bs)
    requires b < |bs| && j < |bs[b]| && bs[b][j].Empty?
    requires env.Home(hp, k, b) && k !in Contents(bs)
    ensures WellFormed(env, hp, Put(bs, b, j, Live(k, v, env.Partial(k))))
    ensures Contents(Put(bs, b, j, Live(k, v, env.Partial(k)))) == Contents(bs)[k := v]
  {
    PutEntry(env, hp, bs, b, j, Live(k, v, env.Partial(k)));
  }

  /** Freeing a live slot removes exactly its entry. */
  lemma RemoveEntry(env: Env, hp: nat, bs: Buckets, b: nat, j: nat)
    requires WellFormed(env, hp, bs) && LiveAt(bs, b, j)
    ensures WellFormed(env, hp, Put(bs, b, j, Empty))
    ensures Contents(Put(bs, b, j, Empty)) == Contents(bs) - {bs[b][j].key}
  {
    PutEntry(env, hp, bs, b, j, Empty);
  }

  /** Writing the value of a live slot updates exactly its key. */
  lemma WriteEntry(env: Env, hp: nat, bs: Buckets, b: nat, j: nat, v: Value)
    requires WellFormed(env, hp, bs) && LiveAt(bs, b, j)
    ensures WellFormed(env, hp, Put(bs, b, j, bs[b][j].(val := v)))
    ensures Contents(Put(bs, b, j, bs[b][j].(val := v))) == Contents(bs)[bs[b][j].key := v]
  {
    PutEntry(env, hp, bs, b, j, bs[b][j].(val := v));
  }

  // One cuckoo displacement: the entry at (b, j) goes to slot (b', j').
  function Displace(bs: Buckets, b: nat, j: nat, b': nat, j': nat): (r: Buckets)
    requires b < |bs| && j < |bs[b]| && b' < |bs| && j' < |bs[b']|
  {
    Put(Put(bs, b', j', bs[b][j]), b, j, Empty)
  }

  lemma DisplaceOrder(bs: Buckets, b: nat, j: nat, b': nat, j': nat)
    requires b < |bs| && j < |bs[b]| && b' < |bs| && j' < |bs[b']| && (b, j) != (b', j')
    ensures Displace(bs, b, j, b', j') == Put(Put(bs, b, j, Empty), b', j', bs[b][j])
  {
    var l, r := Displace(bs, b, j, b', j'), Put(Put(bs, b, j, Empty), b', j', bs[b][j]);
    assert l[b] == r[b] && l[b'] == r[b'];
  }

  /** Moving an entry to a free slot of its alternate bucket changes nothing that is stored. */
  lemma DisplaceEntry(env: Env, hp: nat, bs: Buckets, b: nat, j: nat, b': nat, j': nat)
    requires WellFormed(env, hp, bs) && LiveAt(bs, b, j)
    requires b' == AltIndex(hp, bs[b][j].partial, b)
    requires b' < |bs| && j' < |bs[b']| && bs[b'][j'].Empty?
    ensures WellFormed(env, hp, Displace(bs, b, j, b', j'))
    ensures Contents(Displace(bs, b, j, b', j')) == Contents(bs)
    ensures Displace(bs, b, j, b', j')[b][j].Empty?
  {
    var s := bs[b][j];
    var r: Buckets := Put(bs, b, j, Empty);
    DisplaceOrder(bs, b, j, b', j');
    RemoveEntry(env, hp, bs, b, j);
    assert PlacedSlot(env, hp, b, s);
    AltOfHome(env, hp, s.key, b);
    assert r[b'][j'].Empty?;
    AddEntry(env, hp, r, b', j', s.key, s.val);
    ContentsRepresents(bs);
    assert LiveAt(bs, b, j);
    assert Contents(bs) == (Contents(bs) - {s.key})[s.key := s.val];
  }

  /** A key absent from both of its buckets is absent from the table. */
  lemma AbsentFromHomes(env: Env, hp: nat, bs: Buckets, k: Key)
    requires WellFormed(env, hp, bs)
    requires FindSlot(bs[env.I1(hp, k)], k, env.Partial(k)).None?
    requires FindSlot(bs[env.I2(hp, k)], k, env.Partial(k)).None?
    ensures k !in Contents(bs)
  {
    ContentsRepresents(bs);
    if k in Contents(bs) {
      var b, j :| Holds(bs, k, b, j);
      assert PlacedSlot(env, hp, b, bs[b][j]);
      assert Matches(bs[b][j], k, env.Partial(k));
    }
  }

  datatype Option<T> = None | Some(value: T)

  predicate Matches(s: Slot, k: Key, partial: nat) {
    s.Live? && s.partial == partial && s.key == k
  }

  // The first slot of a bucket that holds the key.
  function FindSlot(u: Bucket, k: Key, partial: nat): (r: Option<nat>)
    ensures r.Some? ==> r.value < |u| && Matches(u[r.value], k, partial)
    ensures r.None? ==> forall j | 0 <= j < |u| :: !Matches(u[j], k, partial)
  {
    if |u| == 0 then None
    else
      var r := FindSlot(u[..|u| - 1], k, partial);
      assert u == u[..|u| - 1] + [u[|u| - 1]];
      if r.Some? then r else if Matches(u[|u| - 1], k, partial) then Some(|u| - 1) else None
  }

  // The last free slot of a bucket.
  function FreeSlot(u: Bucket): (r: Option<nat>)
    ensures r.Some? ==> r.value < |u| && u[r.value].Empty?
    ensures r.None? <==> Full(u)
  {
    if |u| == 0 then None
    else if u[|u| - 1].Empty? then Some(|u| - 1)
    else
      var r := FreeSlot(u[..|u| - 1]);
      assert u == u[..|u| - 1] + [u[|u| - 1]];
      r
  }

  ghost function BucketKeys(u: Bucket): set<Key> {
    set j | 0 <= j < |u| && u[j].Live? :: u[j].key
  }

  lemma {:induction false} BucketKeysBound(u: Bucket)
    ensures |BucketKeys(u)| <= |u|
  {
    if |u| == 0 {
      assert BucketKeys(u) == {};
    } else {
      var n := |u| - 1;
      BucketKeysBound(u[..n]);
      assert BucketKeys(u) == BucketKeys(u[..n]) + (if u[n].Live? then {u[n].key} else {});
    }
  }

  lemma KeysSplit(bs: Buckets)
    requires |bs| > 0
    ensures Keys(bs) == Keys(bs[..|bs| - 1]) + BucketKeys(bs[|bs| - 1])
  {
    var n := |bs| - 1;
    forall k | k in Keys(bs)
      ensures k in Keys(bs[..n]) + BucketKeys(bs[n])
    {
      var b, j :| 0 <= b < |bs| && 0 <= j < |bs[b]| && bs[b][j].Live? && bs[b][j].key == k;
      assert b < n ==> bs[..n][b] == bs[b];
    }
    forall k | k in Keys(bs[..n])
      ensures k in Keys(bs)
    {
      var b, j :| 0 <= b < n && 0 <= j < |bs[..n][b]| && bs[..n][b][j].Live? && bs[..n][b][j].key == k;
      assert bs[..n][b] == bs[b];
    }
  }

  /** A table never holds more entries than it has slots. */
  lemma {:induction false} WithinCapacity(bs: Buckets, s: nat)
    requires forall b | 0 <= b < |bs| :: |bs[b]| == s
    ensures |Keys(bs)| <= |bs| * s
  {
    if |bs| == 0 {
      assert Keys(bs) == {};
    } else {
      var n := |bs| - 1;
      WithinCapacity(bs[..n], s);
      BucketKeysBound(bs[n]);
      KeysSplit(bs);
      assert |bs| * s == n * s + s;
    }
  }
}
