/** Why automatic doubling needs the load limit: equal hashes are never separated by doubling. */
module Crowding {
  import opened Hashing
  import opened Bits
  import opened Layout
  import opened Eviction
  import opened PathMove
  import opened Resize
  import opened Insertion
  import opened CuckooTable

  // As many keys with the hash of `k` as two buckets can hold.
  ghost predicate Crowd(env: Env, k: Key, keys: set<Key>) {
    |keys| == 2 * env.slots && forall x | x in keys :: env.hash(x) == env.hash(k)
  }

  // A bucket with a slot that is not live has fewer keys than slots.
  lemma {:induction false} FewerKeys(u: Bucket, j: nat)
    requires j < |u| && !u[j].Live?
    ensures |BucketKeys(u)| < |u|
  {
    var n := |u| - 1;
    assert BucketKeys(u) == BucketKeys(u[..n]) + (if u[n].Live? then {u[n].key} else {});
    BucketKeysBound(u[..n]);
    if j < n {
      assert u[..n][j] == u[j];
      FewerKeys(u[..n], j);
    }
  }

  // Two small sets that cover a set of their joint size contain nothing else.
  lemma Covering(a: set<Key>, b: set<Key>, c: set<Key>, n: nat)
    requires c <= a + b && |a| <= n && |b| <= n && |c| == 2 * n
    ensures a + b == c && |a| == n && |b| == n
  {
    assert |a + b| + |a * b| == |a| + |b|;
    assert c + ((a + b) - c) == a + b;
  }

  lemma SameHomes(env: Env, hp: nat, x: Key, k: Key)
    requires env.hash(x) == env.hash(k)
    ensures env.I1(hp, x) == env.I1(hp, k) && env.I2(hp, x) == env.I2(hp, k) && env.Partial(x) == env.Partial(k)
  {
  }

  lemma CrowdCovers(env: Env, hp: nat, bs: Buckets, k: Key, keys: set<Key>)
    requires WellFormed(env, hp, bs) && Crowd(env, k, keys) && keys <= Contents(bs).Keys
    ensures BucketKeys(bs[env.I1(hp, k)]) + BucketKeys(bs[env.I2(hp, k)]) == keys
    ensures |BucketKeys(bs[env.I1(hp, k)])| == |BucketKeys(bs[env.I2(hp, k)])| == env.slots
  {
    hide Contents, Env.I1, Env.I2;
    var i1, i2 := env.I1(hp, k), env.I2(hp, k);
    var a, b := BucketKeys(bs[i1]), BucketKeys(bs[i2]);
    ContentsRepresents(bs);
    forall x | x in keys
      ensures x in a + b
    {
      SameHomes(env, hp, x, k);
      assert Stores(bs, x);
      var c, j :| Holds(bs, x, c, j);
      assert LiveAt(bs, c, j);
    }
    BucketKeysBound(bs[i1]);
    BucketKeysBound(bs[i2]);
    Covering(a, b, keys, env.slots);
  }

  /** The crowd fills both buckets of its hash, at every hash power. */
  lemma CrowdFills(env: Env, hp: nat, bs: Buckets, k: Key, keys: set<Key>, b: nat)
    requires WellFormed(env, hp, bs) && Crowd(env, k, keys) && keys <= Contents(bs).Keys && env.Home(hp, k, b)
    ensures b < |bs| && forall j | 0 <= j < |bs[b]| :: LiveAt(bs, b, j) && bs[b][j].key in keys
  {
    hide Contents, Env.I1, Env.I2, Unique, Placed;
    CrowdCovers(env, hp, bs, k, keys);
    forall j | 0 <= j < |bs[b]|
      ensures LiveAt(bs, b, j) && bs[b][j].key in keys
    {
      if !bs[b][j].Live? {
        FewerKeys(bs[b], j);
      }
      assert bs[b][j].key in BucketKeys(bs[b]);
    }
  }

  // Evicting from the crowd's buckets leads nowhere else.
  lemma {:induction false} StaysAtHome(env: Env, hp: nat, bs: Buckets, k: Key, keys: set<Key>, n: Node)
    requires env.slots >= 1 && WellFormed(env, hp, bs) && Crowd(env, k, keys) && keys <= Contents(bs).Keys
    ensures env.Home(hp, k, Search(env.slots, hp, bs, env.I1(hp, k), env.I2(hp, k)).End(n))
    decreases |n.slots|
  {
    hide Contents, AltIndex, Env.I1, Env.I2;
    if |n.slots| > 0 {
      var w := Search(env.slots, hp, bs, env.I1(hp, k), env.I2(hp, k));
      var n', j := Node(n.bit, n.slots[..|n.slots| - 1]), n.slots[|n.slots| - 1];
      StaysAtHome(env, hp, bs, k, keys, n');
      var b := w.End(n');
      CrowdFills(env, hp, bs, k, keys, b);
      if j < |bs[b]| {
        assert LiveAt(bs, b, j);
        SameHomes(env, hp, bs[b][j].key, k);
        AltOfHome(env, hp, k, b);
      }
    }
  }

  lemma NotNegative(a: real, b: real)
    requires a >= 0.0 && b > 0.0
    ensures Quotient(a, b) >= 0.0
  {
  }

  /** With 2 * slots keys of the same hash stored, no eviction makes room for one more, at no hash
      power; and the load check lets the table double for as long as the limit is 0. */
  lemma NeverRoom(env: Env, hp: nat, bs: Buckets, k: Key, keys: set<Key>)
    requires env.slots >= 1 && WellFormed(env, hp, bs) && Crowd(env, k, keys) && keys <= Contents(bs).Keys
    ensures Stuck(env, hp, bs, k) && LoadFactor(|Contents(bs)|, hp, env.slots) >= 0.0
  {
    hide Contents, WellFormed, Env.I1, Env.I2, LoadFactor;
    var w := Search(env.slots, hp, bs, env.I1(hp, k), env.I2(hp, k));
    forall n: Node | w.Admits(n)
      ensures w.FullAt(n)
    {
      StaysAtHome(env, hp, bs, k, keys, n);
      CrowdFills(env, hp, bs, k, keys, w.End(n));
    }
    LoadIs(|Contents(bs)|, hp, env.slots);
    NotNegative(|Contents(bs)| as real, (Pow2(hp) * env.slots) as real);
  }

  /** However often the table is doubled, there is no room. */
  lemma CrowdedRounds(st: Start, k: Key, keys: set<Key>, n: nat)
    requires st.env.slots >= 1 && WellFormed(st.env, st.hp, st.bs)
    requires Crowd(st.env, k, keys) && keys <= Contents(st.bs).Keys
    ensures Stuck(st.env, st.hp + n, DoubledTimes(st.env, st.hp, st.bs, n), k)
  {
    hide Contents, WellFormed, Stuck, DoubledTimes;
    RoundsKeep(st, n);
    NeverRoom(st.env, st.hp + n, DoubledTimes(st.env, st.hp, st.bs, n), k, keys);
  }

  /** Without a load limit and without a maximum hash power every round ends with another doubling. */
  lemma DoublingForever(st: Start, k: Key, keys: set<Key>, n: nat)
    requires st.env.slots >= 1 && WellFormed(st.env, st.hp, st.bs)
    requires Crowd(st.env, k, keys) && keys <= Contents(st.bs).Keys && k !in Contents(st.bs)
    requires st.lim.minLoad <= 0.0 && st.lim.maxHp.None?
    ensures StillRunning(st, k, n)
  {
    hide Contents, WellFormed, Stuck, DoubledTimes, LoadFactor, Sparse;
    forall i: nat | i < n
      ensures Continues(Rounds(st, i), k)
    {
      RoundsKeep(st, i);
      SparseIs(st.lim, |Contents(st.bs)|, st.hp + i, st.env.slots);
      NeverRoom(st.env, st.hp + i, Rounds(st, i).bs, k, keys);
    }
  }

  /** On a crowded table the insertion loop comes to an end if and only if a limit is set. */
  lemma StopsExactly(st: Start, k: Key, keys: set<Key>)
    requires st.env.slots >= 1 && WellFormed(st.env, st.hp, st.bs)
    requires Crowd(st.env, k, keys) && keys <= Contents(st.bs).Keys && k !in Contents(st.bs)
    ensures (exists n: nat :: !StillRunning(st, k, n)) <==> st.lim.minLoad > 0.0 || st.lim.maxHp.Some?
  {
    hide Contents, WellFormed, StillRunning, Dilutes;
    if st.lim.minLoad > 0.0 || st.lim.maxHp.Some? {
      var limit := RoundLimit(st.hp, st.lim);
      if StillRunning(st, k, limit + 1) {
        RoundsBounded(st, k, limit + 1);
      }
    } else {
      forall n: nat
        ensures StillRunning(st, k, n)
      {
        DoublingForever(st, k, keys, n);
      }
    }
  }

  /** The loop itself, run for any number of rounds on a crowded table without limits. */
  method RoundsOnCrowd(m: CuckooMap, locked: bool, k: Key, ghost keys: set<Key>, n: nat) returns (r: Option<LoopStatus>)
    requires m.Valid() && (locked ==> m.AllMigrated()) && m.minLoad <= 0.0 && m.maxHashpower.None?
    requires Crowd(m.env, k, keys) && keys <= m.Logical().Keys && k !in m.Logical()
    modifies m`allLocks, m`remaining, m.buckets, m.prev
    ensures r.None? && m.Valid() && m.Logical() == old(m.Logical())
    ensures m.buckets.hashpower == old(m.buckets.hashpower) + n
  {
    hide TableOk, Contents, WellFormed, Doubling.View, StillRunning, Env.I1, Env.I2, Unmigrated, CountsOf;
    var i1, i2 := m.SnapshotAndLockTwo(k, locked);
    m.ViewWellFormed();
    DoublingForever(StartOf(m), k, keys, n);
    r := InsertRounds(m, locked, k, i1, i2, n);
  }

  // The elements of a set in some order, without repetition.
  lemma Listed(keys: set<Key>) returns (list: seq<Key>)
    ensures |list| == |keys| && (forall x :: x in list <==> x in keys)
    ensures forall i, j | 0 <= i < j < |list| :: list[i] != list[j]
  {
    if keys == {} {
      list := [];
    } else {
      var x :| x in keys;
      var rest := Listed(keys - {x});
      list := [x] + rest;
    }
  }

  // A bucket filled with `s` keys of a list, from position `from` on.
  function Filled(env: Env, list: seq<Key>, from: nat, v: Value): (u: Bucket)
    requires from + env.slots <= |list|
    ensures |u| == env.slots
  {
    seq(env.slots, j requires 0 <= j < env.slots => Live(list[from + j], v, env.Partial(list[from + j])))
  }

  function CrowdedTable(env: Env, hp: nat, k: Key, list: seq<Key>, v: Value): (bs: Buckets)
    requires |list| == 2 * env.slots
    ensures |bs| == Pow2(hp)
  {
    var blank := BlankBuckets(Pow2(hp), env.slots);
    blank[env.I1(hp, k) := Filled(env, list, 0, v)][env.I2(hp, k) := Filled(env, list, env.slots, v)]
  }

  /** Such tables exist wherever the hash has two different buckets. */
  lemma CrowdFits(env: Env, hp: nat, k: Key, keys: set<Key>, v: Value) returns (bs: Buckets)
    requires Crowd(env, k, keys) && env.I1(hp, k) != env.I2(hp, k)
    ensures WellFormed(env, hp, bs) && Contents(bs).Keys == keys
  {
    hide Contents, Env.I1, Env.I2, CrowdedTable, WellFormed;
    var list := Listed(keys);
    bs := CrowdedTable(env, hp, k, list, v);
    CrowdedOk(env, hp, k, keys, list, v);
  }

  // Where the list's keys are.
  function Rank(env: Env, hp: nat, k: Key, b: nat, j: nat): nat {
    if b == env.I1(hp, k) then j else env.slots + j
  }

  // Slot (b, j) holds the key of its rank.
  ghost predicate Ranked(env: Env, hp: nat, k: Key, list: seq<Key>, bs: Buckets, b: int, j: int)
    requires LiveAt(bs, b, j) && |list| == 2 * env.slots
  {
    && env.Home(hp, k, b) && j < env.slots && bs[b][j].key == list[Rank(env, hp, k, b, j)]
    && bs[b][j].partial == env.Partial(bs[b][j].key)
  }

  lemma CrowdedSlots(env: Env, hp: nat, k: Key, list: seq<Key>, v: Value)
    requires |list| == 2 * env.slots && env.I1(hp, k) != env.I2(hp, k)
    ensures var bs := CrowdedTable(env, hp, k, list, v);
            && Shape(env, hp, bs) && (forall b | 0 <= b < |bs| :: NoMoved(bs[b]))
            && (forall b, j {:trigger LiveAt(bs, b, j)} | LiveAt(bs, b, j) :: Ranked(env, hp, k, list, bs, b, j))
  {
    hide Env.I1, Env.I2, Env.Partial;
  }

  lemma CrowdedHolds(env: Env, hp: nat, k: Key, list: seq<Key>, v: Value, i: nat)
    requires |list| == 2 * env.slots && env.I1(hp, k) != env.I2(hp, k) && i < |list|
    ensures Stores(CrowdedTable(env, hp, k, list, v), list[i])
  {
    hide Env.I1, Env.I2, Env.Partial;
    var bs := CrowdedTable(env, hp, k, list, v);
    if i < env.slots {
      assert Holds(bs, list[i], env.I1(hp, k), i);
    } else {
      assert Holds(bs, list[i], env.I2(hp, k), i - env.slots);
    }
  }

  lemma CrowdedUnique(env: Env, hp: nat, k: Key, list: seq<Key>, bs: Buckets)
    requires |list| == 2 * env.slots && env.I1(hp, k) != env.I2(hp, k)
    requires forall i, j | 0 <= i < j < |list| :: list[i] != list[j]
    requires forall b, j {:trigger LiveAt(bs, b, j)} | LiveAt(bs, b, j) :: Ranked(env, hp, k, list, bs, b, j)
    ensures Unique(bs)
  {
    hide Env.I1, Env.I2, Env.Partial;
    forall b, j, b', j' | LiveAt(bs, b, j) && LiveAt(bs, b', j') && bs[b][j].key == bs[b'][j'].key
      ensures b == b' && j == j'
    {
      assert Ranked(env, hp, k, list, bs, b, j) && Ranked(env, hp, k, list, bs, b', j');
      var i, i' := Rank(env, hp, k, b, j), Rank(env, hp, k, b', j');
      assert list[i] == list[i'] ==> i == i';
    }
  }

  lemma CrowdedPlaced(env: Env, hp: nat, k: Key, keys: set<Key>, list: seq<Key>, bs: Buckets)
    requires Crowd(env, k, keys) && |list| == 2 * env.slots && forall x :: x in list <==> x in keys
    requires forall b, j {:trigger LiveAt(bs, b, j)} | LiveAt(bs, b, j) :: Ranked(env, hp, k, list, bs, b, j)
    ensures Placed(env, hp, bs) && forall b, j {:trigger LiveAt(bs, b, j)} | LiveAt(bs, b, j) :: bs[b][j].key in keys
  {
    hide Env.I1, Env.I2, Env.Partial;
    forall b, j | LiveAt(bs, b, j)
      ensures PlacedSlot(env, hp, b, bs[b][j]) && bs[b][j].key in keys
    {
      assert Ranked(env, hp, k, list, bs, b, j);
      assert list[Rank(env, hp, k, b, j)] in list;
      SameHomes(env, hp, bs[b][j].key, k);
    }
  }

  lemma CrowdedOk(env: Env, hp: nat, k: Key, keys: set<Key>, list: seq<Key>, v: Value)
    requires Crowd(env, k, keys) && env.I1(hp, k) != env.I2(hp, k) && |list| == 2 * env.slots
    requires (forall x :: x in list <==> x in keys) && forall i, j | 0 <= i < j < |list| :: list[i] != list[j]
    ensures var bs := CrowdedTable(env, hp, k, list, v); WellFormed(env, hp, bs) && Contents(bs).Keys == keys
  {
    hide Contents, Env.I1, Env.I2, CrowdedTable, Ranked, Placed, Unique;
    var bs := CrowdedTable(env, hp, k, list, v);
    CrowdedSlots(env, hp, k, list, v);
    CrowdedUnique(env, hp, k, list, bs);
    CrowdedPlaced(env, hp, k, keys, list, bs);
    ContentsRepresents(bs);
    forall x | x in keys
      ensures x in Contents(bs)
    {
      var i: nat :| i < |list| && list[i] == x;
      CrowdedHolds(env, hp, k, list, v, i);
      var b, j :| Holds(bs, x, b, j);
      assert LiveAt(bs, b, j);
    }
    forall x | x in Contents(bs)
      ensures x in keys
    {
      assert Stores(bs, x);
      var b, j :| Holds(bs, x, b, j);
      assert LiveAt(bs, b, j);
    }
  }
}
