/** The operations of the table, free of interference: find, update, erase, insert and clear. */
module Insertion {
  import opened Hashing
  import opened Bits
  import opened Layout
  import opened Doubling
  import opened Lookup
  import opened CuckooTable
  import opened PathMove
  import opened Resize
  import opened MapSpec

  datatype InsertStatus = Vacant(pos: Position) | Duplicate(pos: Position) | TableFull

  ghost predicate HasRoom(cur: Buckets, b: nat) {
    b < |cur| && !Full(cur[b])
  }

  // The key is there, or there is room for it in one of its buckets.
  ghost predicate AtHand(m: CuckooMap, k: Key, i1: nat, i2: nat)
    requires m.Valid()
    reads m, m.buckets, m.prev
  {
    k in m.Logical() || HasRoom(m.Cur(), i1) || HasRoom(m.Cur(), i2)
  }

  // Room in the first bucket is preferred to room in the second.
  ghost predicate Prefers(cur: Buckets, i1: nat, i2: nat, r: InsertStatus) {
    && (r.Vacant? && HasRoom(cur, i1) ==> r.pos.index == i1)
    && (r.Vacant? && !HasRoom(cur, i1) && HasRoom(cur, i2) ==> r.pos.index == i2)
  }

  /** Finds room for a key in its two locked buckets, or the key itself, evicting if need be. */
  method CuckooInsert(m: CuckooMap, locked: bool, k: Key, i1: nat, i2: nat) returns (r: InsertStatus)
    requires m.Valid() && (locked ==> m.AllMigrated())
    requires i1 == m.env.I1(m.buckets.hashpower, k) && i2 == m.env.I2(m.buckets.hashpower, k)
    requires m.Ready(i1) && m.Ready(i2)
    modifies m`allLocks, m`remaining, m.buckets`data, m.prev`data
    ensures m.Valid() && (locked ==> m.AllMigrated())
    ensures m.Logical() == old(m.Logical()) && m.State().counts == old(m.State().counts)
    ensures r.Duplicate? <==> k in m.Logical()
    ensures r.Duplicate? ==> m.Ready(r.pos.index) && Holds(m.Cur(), k, r.pos.index, r.pos.slot)
    ensures r.Vacant? ==> m.Ready(r.pos.index) && m.FreeHome(k, r.pos.index, r.pos.slot)
    ensures r.TableFull? <==> k !in m.Logical() && Stuck(m.env, m.buckets.hashpower, old(m.View()), k)
    ensures r.TableFull? ==> m.State() == old(m.State())
    ensures Prefers(old(m.Cur()), i1, i2, r)
    ensures !r.Vacant? || HasRoom(old(m.Cur()), i1) || HasRoom(old(m.Cur()), i2) ==> m.State() == old(m.State())
    ensures old(AtHand(m, k, i1, i2)) ==> !r.TableFull? && m.CurrentLocks() == old(m.CurrentLocks())
  {
    hide TableOk, Unmigrated, CountsOf, Env.LockInd, Doubling.View, WellFormed, Contents, Env.I1, Env.I2, FindSlot,
      FreeSlot, PartialKey;
    m.ReadyIsSettled(i1);
    m.ReadyIsSettled(i2);
    m.ViewWellFormed();
    LookupOk(m.env, m.buckets.hashpower, m.View(), k);
    if Stuck(m.env, m.buckets.hashpower, m.View(), k) {
      StuckIsFull(m.env, m.buckets.hashpower, m.View(), k);
    }
    var partial := PartialKey(m.env.hash(k));
    var vacant, res1 := TryFindInsertBucket(m.Cur()[i1], partial, k);
    if !vacant {
      return Duplicate(Position(i1, res1));
    }
    var res2;
    vacant, res2 := TryFindInsertBucket(m.Cur()[i2], partial, k);
    if !vacant {
      return Duplicate(Position(i2, res2));
    }
    if res1 != -1 {
      return Vacant(Position(i1, res1));
    }
    if res2 != -1 {
      return Vacant(Position(i2, res2));
    }
    r := Evict(m, locked, k, i1, i2);
  }

  // When both buckets of an absent key are full: evicts, and looks for the key once more.
  method Evict(m: CuckooMap, locked: bool, k: Key, i1: nat, i2: nat) returns (r: InsertStatus)
    requires m.Valid() && (locked ==> m.AllMigrated()) && k !in m.Logical()
    requires i1 == m.env.I1(m.buckets.hashpower, k) && i2 == m.env.I2(m.buckets.hashpower, k)
    modifies m`allLocks, m`remaining, m.buckets`data, m.prev`data
    ensures m.Valid() && (locked ==> m.AllMigrated())
    ensures m.Logical() == old(m.Logical()) && m.State().counts == old(m.State().counts) && !r.Duplicate?
    ensures r.Vacant? ==> m.Ready(r.pos.index) && m.FreeHome(k, r.pos.index, r.pos.slot)
    ensures r.TableFull? <==> Stuck(m.env, m.buckets.hashpower, old(m.View()), k)
    ensures r.TableFull? ==> m.State() == old(m.State())
  {
    hide TableOk, Unmigrated, CountsOf, Env.LockInd, Doubling.View, WellFormed, Contents, Env.I1, Env.I2;
    ghost var attempts;
    var ok, b, j;
    ok, b, j, attempts := RunCuckoo(m, locked, i1, i2);
    if !ok {
      return TableFull;
    }
    var found, pos := m.CuckooFind(k, i1, i2);
    if found {
      return Duplicate(pos);
    }
    return Vacant(Position(b, j));
  }

  // `d` doublings bring any load below the minimum.
  ghost predicate Dilutes(minLoad: real, d: nat) {
    Times(minLoad, Pow2(d) as real) > 1.0
  }

  function Times(a: real, b: real): real {
    a * b
  }

  lemma DilutionExists(minLoad: real) returns (d: nat)
    requires minLoad > 0.0
    ensures Dilutes(minLoad, d)
  {
    var x := 1.0 / minLoad;
    Reciprocal(minLoad);
    d := x.Floor + 1;
    Pow2Grows(d);
    DilutesBy(minLoad, x, d);
  }

  lemma {:induction false} DilutesBy(minLoad: real, x: real, d: nat)
    requires minLoad > 0.0 && minLoad * x == 1.0 && Pow2(d) as real > x
    ensures Dilutes(minLoad, d)
  {
    TimesAbove(minLoad, x, Pow2(d) as real);
  }

  lemma TimesAbove(minLoad: real, x: real, p: real)
    requires minLoad > 0.0 && minLoad * x == 1.0 && p > x
    ensures Times(minLoad, p) > 1.0
  {
    RealStrict(x, p, minLoad);
  }

  lemma Reciprocal(x: real)
    requires x > 0.0
    ensures 1.0 / x > 0.0 && x * (1.0 / x) == 1.0
  {
  }

  lemma {:induction false} Pow2Grows(n: nat)
    ensures Pow2(n) >= n + 1
  {
    if n > 0 {
      Pow2Grows(n - 1);
    }
  }

  lemma RealStrict(a: real, b: real, c: real)
    requires a < b && c > 0.0
    ensures c * a < c * b
  {
    assert c * (b - a) > 0.0;
  }

  lemma RealMono(a: real, b: real, c: real)
    requires a <= b && c >= 0.0
    ensures c * a <= c * b
  {
    assert c * (b - a) >= 0.0;
  }

  lemma CapacityGrows(hp0: nat, hp: nat, d: nat, s: nat)
    requires hp >= hp0 + d
    ensures Pow2(d) * (Pow2(hp0) * s) <= Pow2(hp) * s
  {
    hide Pow2;
    Pow2Add(hp0, d);
    Pow2Mono(hp0 + d, hp);
    var a, b := Pow2(hp0), Pow2(d);
    MulMono(Pow2(hp0 + d), Pow2(hp), s);
    assert b * (a * s) == (a * b) * s;
  }

  // Growing by a factor `p` with minLoad * p > 1 brings the load below `minLoad`.
  lemma LoadBounds(size: real, base: real, p: real, cap: real, minLoad: real)
    requires base > 0.0 && cap > 0.0 && minLoad > 0.0 && size <= base && p * base <= cap
    requires Times(minLoad, p) > 1.0
    ensures Quotient(size, cap) < minLoad
  {
    RealMono(p * base, cap, minLoad);
    RealStrict(1.0, minLoad * p, base);
    assert minLoad * (p * base) == base * (minLoad * p);
    QuotientBelow(size, cap, minLoad);
  }

  function Quotient(a: real, b: real): real
    requires b != 0.0
  {
    a / b
  }

  lemma QuotientBelow(a: real, b: real, c: real)
    requires b > 0.0 && a < c * b
    ensures a / b < c
  {
    var q := a / b;
    assert q * b == a;
    if q >= c {
      RealMono(c, q, b);
    }
  }

  lemma {:induction false} CastMul(n: nat, b: nat)
    ensures (n * b) as real == n as real * b as real
  {
    if n > 0 {
      CastMul(n - 1, b);
      assert n * b == (n - 1) * b + b;
      assert n as real * b as real == (n - 1) as real * b as real + b as real;
    }
  }

  lemma LoadIs(size: nat, hp: nat, s: nat)
    requires s >= 1
    ensures Pow2(hp) * s > 0 && LoadFactor(size, hp, s) == Quotient(size as real, (Pow2(hp) * s) as real)
  {
    MulMono(1, Pow2(hp), s);
  }

  /** A table that is full enough to be doubled has not yet been doubled `d` times. */
  lemma {:induction false} DoublingsBounded(size: nat, hp0: nat, hp: nat, s: nat, minLoad: real, d: nat)
    requires s >= 1 && hp0 <= hp && size <= Pow2(hp0) * s
    requires minLoad > 0.0 && Dilutes(minLoad, d)
    requires LoadFactor(size, hp, s) >= minLoad
    ensures hp < hp0 + d
  {
    hide Pow2, Times, Quotient, LoadFactor;
    if hp >= hp0 + d {
      var base, cap := Pow2(hp0) * s, Pow2(hp) * s;
      MulMono(1, Pow2(hp0), s);
      MulMono(1, Pow2(hp), s);
      CapacityGrows(hp0, hp, d, s);
      CastMul(Pow2(d), base);
      LoadIs(size, hp, s);
      LoadBounds(size as real, base as real, Pow2(d) as real, cap as real, minLoad);
    }
  }

  // The counters add up to the number of entries, which fits the table.
  lemma SizeWithinCapacity(m: CuckooMap)
    requires m.Valid()
    ensures Sum(CountsOf(m.CurrentLocks())) == |m.Logical()| <= Pow2(m.buckets.hashpower) * m.env.slots
  {
    hide Doubling.View, FlagsOk, Covered;
    WithinCapacity(m.View(), m.env.slots);
    ContentsRepresents(m.View());
  }

  // A table as the insertion loop finds it: what it stands for and its limits.
  datatype Start = Start(env: Env, hp: nat, bs: Buckets, lim: Limits)

  // The array after `n` doublings.
  function DoubledTimes(env: Env, hp: nat, bs: Buckets, n: nat): Buckets {
    if n == 0 then bs else Doubled(env, hp + n - 1, DoubledTimes(env, hp, bs, n - 1))
  }

  /** A round of inserting `k` that starts with such a table ends with the table doubled. */
  ghost predicate Continues(st: Start, k: Key) {
    && k !in Contents(st.bs) && Stuck(st.env, st.hp, st.bs, k)
    && !Exceeds(st.lim, st.hp + 1) && !Sparse(st.lim, |Contents(st.bs)|, st.hp, st.env.slots)
  }

  // The table after `n` rounds that each end with doubling.
  function Rounds(st: Start, n: nat): Start {
    st.(hp := st.hp + n, bs := DoubledTimes(st.env, st.hp, st.bs, n))
  }

  /** After `n` rounds the loop has found neither room nor the key, and no resize was refused. */
  ghost predicate StillRunning(st: Start, k: Key, n: nat) {
    forall i: nat {:trigger Rounds(st, i)} | i < n :: Continues(Rounds(st, i), k)
  }

  lemma StillRunningStep(st: Start, k: Key, n: nat)
    ensures StillRunning(st, k, 0)
    ensures StillRunning(st, k, n + 1) <==> StillRunning(st, k, n) && Continues(Rounds(st, n), k)
  {
    hide Continues, Rounds;
    assert Rounds(st, n) == Rounds(st, n);
  }

  lemma DilutesPositive(minLoad: real, d: nat)
    requires Dilutes(minLoad, d)
    ensures minLoad > 0.0
  {
    if minLoad <= 0.0 {
      RealMono(minLoad, 0.0, Pow2(d) as real);
    }
  }

  lemma {:induction false} RoundsKeep(st: Start, n: nat)
    requires WellFormed(st.env, st.hp, st.bs)
    ensures WellFormed(st.env, st.hp + n, Rounds(st, n).bs) && Contents(Rounds(st, n).bs) == Contents(st.bs)
  {
    hide WellFormed, Contents, Doubled;
    if n > 0 {
      RoundsKeep(st, n - 1);
      DoubledCorrect(st.env, st.hp + n - 1, Rounds(st, n - 1).bs);
    }
  }

  /** The loop goes through at most `d` rounds for any `d` with minLoad * 2^d > 1, and never past the
      maximum hash power. */
  lemma RoundsBounded(st: Start, k: Key, n: nat)
    requires st.env.slots >= 1 && WellFormed(st.env, st.hp, st.bs) && StillRunning(st, k, n)
    ensures forall d: nat | Dilutes(st.lim.minLoad, d) :: n <= d
    ensures st.lim.maxHp.Some? && n > 0 ==> st.hp + n <= st.lim.maxHp.value
  {
    hide Dilutes, DoubledTimes, LoadFactor, Stuck, Contents, WellFormed, Sparse;
    if n > 0 {
      assert Continues(Rounds(st, n - 1), k);
      RoundsKeep(st, n - 1);
      SparseIs(st.lim, |Contents(st.bs)|, st.hp + (n - 1), st.env.slots);
      WithinBuckets(st.env, st.hp, st.bs);
      forall d: nat | Dilutes(st.lim.minLoad, d)
        ensures n <= d
      {
        DilutesPositive(st.lim.minLoad, d);
        DoublingsBounded(|Contents(st.bs)|, st.hp, st.hp + (n - 1), st.env.slots, st.lim.minLoad, d);
      }
    }
  }

  lemma WithinBuckets(env: Env, hp: nat, bs: Buckets)
    requires WellFormed(env, hp, bs)
    ensures |Contents(bs)| <= Pow2(hp) * env.slots
  {
    hide Contents;
    WithinCapacity(bs, env.slots);
    ContentsRepresents(bs);
  }

  // A number of rounds that the limits do not allow.
  lemma RoundLimit(hp: nat, lim: Limits) returns (limit: nat)
    requires lim.minLoad > 0.0 || lim.maxHp.Some?
    ensures Dilutes(lim.minLoad, limit) || (lim.maxHp.Some? && hp + limit >= lim.maxHp.value)
  {
    if lim.minLoad > 0.0 {
      limit := DilutionExists(lim.minLoad);
    } else {
      limit := lim.maxHp.value;
    }
  }

  // What inserting came to: room for the key, its present position, or an exception from resizing.
  datatype LoopStatus = Room(pos: Position) | Present(pos: Position) | Threw(why: ResizeStatus)

  // What a finished loop leaves behind.
  ghost predicate Settles(m: CuckooMap, k: Key, r: LoopStatus)
    requires m.Valid()
    reads m, m.buckets, m.prev
  {
    && (r.Present? <==> k in m.Logical())
    && (r.Present? ==> m.Ready(r.pos.index) && Holds(m.Cur(), k, r.pos.index, r.pos.slot))
    && (r.Room? ==> m.Ready(r.pos.index) && m.FreeHome(k, r.pos.index, r.pos.slot))
    && (r.Threw? ==> Stuck(m.env, m.buckets.hashpower, m.View(), k) && Refused(m, r.why))
  }

  /** An exception, and what the table is like that calls for it. */
  ghost predicate Refused(m: CuckooMap, why: ResizeStatus)
    requires m.Valid()
    reads m, m.buckets, m.prev
  {
    || (why == MaxHashpowerExceeded && Exceeds(LimitsOf(m), m.buckets.hashpower + 1))
    || (why == LoadFactorTooLow && !Exceeds(LimitsOf(m), m.buckets.hashpower + 1) && TooSparse(m))
  }

  lemma ThrewFacts(m: CuckooMap, k: Key, r: LoopStatus)
    requires m.Valid() && Settles(m, k, r) && r.Threw?
    ensures k !in m.Logical() && Stuck(m.env, m.buckets.hashpower, m.View(), k) && Refused(m, r.why)
  {
    hide TableOk, Stuck, Doubling.View, Contents, Sparse;
  }

  ghost function StartOf(m: CuckooMap): Start
    requires m.Wired()
    reads m, m.buckets, m.prev
  {
    Start(m.env, m.buckets.hashpower, m.View(), LimitsOf(m))
  }

  lemma ContinuesIs(m: CuckooMap, k: Key)
    requires m.Valid()
    ensures Continues(StartOf(m), k) <==>
            && k !in m.Logical() && Stuck(m.env, m.buckets.hashpower, m.View(), k)
            && !Exceeds(LimitsOf(m), m.buckets.hashpower + 1) && !TooSparse(m)
  {
  }

  /** One round of the insertion loop. It goes on to another round if and only if the key is absent,
      nothing makes room for it and no limit forbids doubling; the table is then the doubled one. */
  method InsertRound(m: CuckooMap, locked: bool, k: Key, i1: nat, i2: nat)
    returns (r: Option<LoopStatus>, n1: nat, n2: nat)
    requires m.Valid() && (locked ==> m.AllMigrated())
    requires i1 == m.env.I1(m.buckets.hashpower, k) && i2 == m.env.I2(m.buckets.hashpower, k)
    requires m.Ready(i1) && m.Ready(i2)
    modifies m`allLocks, m`remaining, m.buckets, m.prev
    ensures m.Valid() && (locked ==> m.AllMigrated()) && m.Logical() == old(m.Logical())
    ensures r.None? <==> old(Continues(StartOf(m), k))
    ensures r.None? ==> StartOf(m) == Rounds(old(StartOf(m)), 1)
    ensures r.None? ==> n1 == m.env.I1(m.buckets.hashpower, k) && n2 == m.env.I2(m.buckets.hashpower, k)
    ensures r.None? ==> m.Ready(n1) && m.Ready(n2)
    ensures r.Some? ==> Settles(m, k, r.value) && m.buckets.hashpower == old(m.buckets.hashpower)
    ensures r.Some? ==> (r.value.Threw? <==> old(k !in m.Logical() && Stuck(m.env, m.buckets.hashpower, m.View(), k)))
    ensures old(AtHand(m, k, i1, i2)) ==>
              r.Some? && m.CurrentLocks() == old(m.CurrentLocks()) && m.buckets.hashpower == old(m.buckets.hashpower)
  {
    hide TableOk, Unmigrated, CountsOf, Env.LockInd, Doubling.View, WellFormed, Contents, Env.I1, Env.I2, Doubled,
      Stuck, ResizeValidity, Continues, Rounds, AtHand;
    ContinuesIs(m, k);
    var st := CuckooInsert(m, locked, k, i1, i2);
    if st.Vacant? {
      return Some(Room(st.pos)), i1, i2;
    }
    if st.Duplicate? {
      return Some(Present(st.pos)), i1, i2;
    }
    r, n1, n2 := DoubleForRoom(m, locked, k);
  }

  // The end of a round in which the table was found to be full.
  method DoubleForRoom(m: CuckooMap, locked: bool, k: Key) returns (r: Option<LoopStatus>, n1: nat, n2: nat)
    requires m.Valid() && (locked ==> m.AllMigrated())
    requires k !in m.Logical() && Stuck(m.env, m.buckets.hashpower, m.View(), k)
    modifies m`allLocks, m`remaining, m.buckets, m.prev
    ensures m.Valid() && (locked ==> m.AllMigrated()) && m.Logical() == old(m.Logical())
    ensures r.None? <==> old(Continues(StartOf(m), k))
    ensures r.None? ==> StartOf(m) == Rounds(old(StartOf(m)), 1)
    ensures r.None? ==> n1 == m.env.I1(m.buckets.hashpower, k) && n2 == m.env.I2(m.buckets.hashpower, k)
    ensures r.None? ==> m.Ready(n1) && m.Ready(n2)
    ensures r.Some? ==> Settles(m, k, r.value) && m.buckets.hashpower == old(m.buckets.hashpower)
    ensures r.Some? ==> r.value.Threw?
  {
    hide TableOk, Unmigrated, CountsOf, Env.LockInd, Doubling.View, WellFormed, Contents, Env.I1, Env.I2, Doubled,
      Stuck, ResizeValidity, Continues, DoubledImage, ImageOf, Sparse;
    var hp := m.buckets.hashpower;
    n1, n2 := 0, 0;
    ContinuesIs(m, k);
    var why := FastDouble(m, locked, true, hp);
    if why == MaxHashpowerExceeded || why == LoadFactorTooLow {
      return Some(Threw(why)), n1, n2;
    }
    n1, n2 := m.SnapshotAndLockTwo(k, locked);
    assert DoubledTimes(m.env, hp, old(m.View()), 0) == old(m.View());
    r := None;
  }

  // The loop has gone through `n` rounds since it started with `st`, and is about to begin another.
  ghost predicate AtRound(m: CuckooMap, locked: bool, k: Key, i1: nat, i2: nat, st: Start, n: nat)
    reads m, m.buckets, m.prev
  {
    && m.Valid() && (locked ==> m.AllMigrated())
    && i1 == m.env.I1(m.buckets.hashpower, k) && i2 == m.env.I2(m.buckets.hashpower, k)
    && m.Ready(i1) && m.Ready(i2)
    && st.env == m.env && WellFormed(st.env, st.hp, st.bs) && m.Logical() == Contents(st.bs)
    && StartOf(m) == Rounds(st, n) && StillRunning(st, k, n)
  }

  lemma RoundsStep(st: Start, n: nat)
    ensures Rounds(Rounds(st, n), 1) == Rounds(st, n + 1)
  {
    hide Doubled;
    assert DoubledTimes(st.env, st.hp + n, Rounds(st, n).bs, 0) == Rounds(st, n).bs;
  }

  lemma FirstRound(m: CuckooMap, locked: bool, k: Key, i1: nat, i2: nat)
    requires m.Valid() && (locked ==> m.AllMigrated())
    requires i1 == m.env.I1(m.buckets.hashpower, k) && i2 == m.env.I2(m.buckets.hashpower, k)
    requires m.Ready(i1) && m.Ready(i2)
    ensures AtRound(m, locked, k, i1, i2, StartOf(m), 0)
  {
    hide TableOk, Contents, WellFormed, Doubling.View;
    m.ViewWellFormed();
  }

  // There is no room for the absent key after `n` doublings.
  ghost predicate StillStuck(st: Start, k: Key, n: nat) {
    k !in Contents(st.bs) && Stuck(st.env, st.hp + n, Rounds(st, n).bs, k)
  }

  /** The loop has doubled the table `n` times, each time because it had to, and had no cause to go on. */
  ghost predicate EndsAfter(m: CuckooMap, k: Key, st: Start, n: nat)
    reads m, m.buckets
  {
    m.buckets.hashpower == st.hp + n && StillRunning(st, k, n) && !StillRunning(st, k, n + 1)
  }

  /** Without cause there is no doubling at all. */
  lemma EndsAtOnce(m: CuckooMap, k: Key, st: Start, n: nat)
    requires EndsAfter(m, k, st, n)
    ensures k in Contents(st.bs) || !Stuck(st.env, st.hp, st.bs, k) ==> n == 0
  {
    hide Contents, Stuck;
    assert Rounds(st, 0).bs == st.bs;
    assert n > 0 ==> Continues(Rounds(st, 0), k);
  }

  // A round, counted from the start of the loop.
  method NextRound(m: CuckooMap, locked: bool, k: Key, i1: nat, i2: nat, ghost st: Start, ghost n: nat)
    returns (r: Option<LoopStatus>, n1: nat, n2: nat)
    requires AtRound(m, locked, k, i1, i2, st, n)
    modifies m`allLocks, m`remaining, m.buckets, m.prev
    ensures r.None? ==> AtRound(m, locked, k, n1, n2, st, n + 1)
    ensures m.Valid() && (locked ==> m.AllMigrated()) && m.Logical() == Contents(st.bs)
    ensures r.Some? ==> Settles(m, k, r.value) && EndsAfter(m, k, st, n) && (r.value.Threw? <==> StillStuck(st, k, n))
    ensures old(AtHand(m, k, i1, i2)) ==>
              r.Some? && m.CurrentLocks() == old(m.CurrentLocks()) && m.buckets.hashpower == old(m.buckets.hashpower)
  {
    hide TableOk, Contents, WellFormed, Doubling.View, Rounds, Continues, StillRunning, Settles, Env.I1, Env.I2,
      Unmigrated, CountsOf;
    RoundsStep(st, n);
    RoundsHp(st, n);
    StillRunningStep(st, k, n);
    r, n1, n2 := InsertRound(m, locked, k, i1, i2);
  }

  lemma RoundsHp(st: Start, n: nat)
    ensures Rounds(st, n).hp == st.hp + n && Rounds(st, n).env == st.env && Rounds(st, n).lim == st.lim
  {
  }

  ghost predicate DoublingsWithin(minLoad: real, hp0: nat, hp: nat) {
    forall d: nat {:trigger Dilutes(minLoad, d)} :: Dilutes(minLoad, d) ==> hp <= hp0 + d
  }

  /** At most `n` rounds of the insertion loop, whatever the limits. They come to no end exactly when
      the loop is still running after `n` rounds, and the table has then been doubled `n` times. */
  method InsertRounds(m: CuckooMap, locked: bool, k: Key, j1: nat, j2: nat, n: nat) returns (r: Option<LoopStatus>)
    requires m.Valid() && (locked ==> m.AllMigrated())
    requires j1 == m.env.I1(m.buckets.hashpower, k) && j2 == m.env.I2(m.buckets.hashpower, k)
    requires m.Ready(j1) && m.Ready(j2)
    modifies m`allLocks, m`remaining, m.buckets, m.prev
    ensures m.Valid() && (locked ==> m.AllMigrated()) && m.Logical() == old(m.Logical())
    ensures r.None? <==> old(StillRunning(StartOf(m), k, n))
    ensures r.None? ==> StartOf(m) == Rounds(old(StartOf(m)), n)
    ensures r.Some? ==> Settles(m, k, r.value) && old(m.buckets.hashpower) <= m.buckets.hashpower
                        && EndsAfter(m, k, old(StartOf(m)), m.buckets.hashpower - old(m.buckets.hashpower))
  {
    hide TableOk, Contents, WellFormed, Doubling.View, Rounds, Continues, Settles, Env.I1, Env.I2, Unmigrated, CountsOf;
    ghost var st := StartOf(m);
    FirstRound(m, locked, k, j1, j2);
    var i1, i2, rounds := j1, j2, 0;
    r := None;
    while rounds < n
      invariant rounds <= n && r.None? && AtRound(m, locked, k, i1, i2, st, rounds)
    {
      r, i1, i2 := NextRound(m, locked, k, i1, i2, st, rounds);
      if r.Some? {
        return;
      }
      rounds := rounds + 1;
    }
  }

  /** The insertion loop: repeats `CuckooInsert`, doubling the table whenever it is full, until there is
      room for the key, the key turns up, or resizing is refused. The table is doubled at most `d` times
      for any `d` with minLoad * 2^d > 1. */
  method CuckooInsertLoop(m: CuckooMap, locked: bool, k: Key, j1: nat, j2: nat) returns (r: LoopStatus)
    requires m.Valid() && (locked ==> m.AllMigrated()) && (m.minLoad > 0.0 || m.maxHashpower.Some?)
    requires j1 == m.env.I1(m.buckets.hashpower, k) && j2 == m.env.I2(m.buckets.hashpower, k)
    requires m.Ready(j1) && m.Ready(j2)
    modifies m`allLocks, m`remaining, m.buckets, m.prev
    ensures m.Valid() && (locked ==> m.AllMigrated()) && m.Logical() == old(m.Logical())
    ensures old(m.buckets.hashpower) <= m.buckets.hashpower
    ensures DoublingsWithin(m.minLoad, old(m.buckets.hashpower), m.buckets.hashpower)
    ensures var n := m.buckets.hashpower - old(m.buckets.hashpower);
            EndsAfter(m, k, old(StartOf(m)), n) && (r.Threw? <==> StillStuck(old(StartOf(m)), k, n))
    ensures Settles(m, k, r)
    ensures old(AtHand(m, k, j1, j2)) ==>
              m.CurrentLocks() == old(m.CurrentLocks()) && m.buckets.hashpower == old(m.buckets.hashpower)
  {
    hide TableOk, Contents, WellFormed, Doubling.View, Rounds, Continues, StillRunning, Settles, Env.I1, Env.I2,
      Unmigrated, CountsOf, Dilutes, AtRound;
    ghost var st := StartOf(m);
    ghost var limit := RoundLimit(st.hp, st.lim);
    FirstRound(m, locked, k, j1, j2);
    var i1, i2 := j1, j2;
    ghost var rounds: nat := 0;
    while true
      invariant AtRound(m, locked, k, i1, i2, st, rounds)
      invariant rounds == 0 ==> unchanged(m, m.buckets, m.prev) && i1 == j1 && i2 == j2
      invariant rounds > 0 ==> !old(AtHand(m, k, j1, j2))
      decreases limit - rounds
    {
      RoundBounded(m, locked, k, i1, i2, st, rounds);
      var st';
      st', i1, i2 := NextRound(m, locked, k, i1, i2, st, rounds);
      if st'.Some? {
        return st'.value;
      }
      rounds := rounds + 1;
      RoundBounded(m, locked, k, i1, i2, st, rounds);
    }
  }

  lemma RoundBounded(m: CuckooMap, locked: bool, k: Key, i1: nat, i2: nat, st: Start, n: nat)
    requires AtRound(m, locked, k, i1, i2, st, n) && st.env.slots >= 1
    ensures forall d: nat | Dilutes(st.lim.minLoad, d) :: n <= d
    ensures st.lim.maxHp.Some? && n > 0 ==> st.hp + n <= st.lim.maxHp.value
  {
    hide Dilutes, WellFormed, Contents, Doubling.View, TableOk, StillRunning;
    RoundsBounded(st, k, n);
  }

  // Applies an operation's function to an entry that was found.
  method TouchEntry(m: CuckooMap, b: nat, j: nat, op: Op)
    requires m.Valid() && m.Ready(b) && Holds(m.Cur(), op.key, b, j)
    modifies m`allLocks, m.buckets`data
    ensures m.Valid() && op.key in old(m.Logical()) && m.Logical() == After(op, old(m.Logical()))
    ensures old(m.Logical())[op.key] == old(m.Cur())[b][j].val
    ensures SameFlags(old(m.CurrentLocks()), m.CurrentLocks())
  {
    hide TableOk, Unmigrated, CountsOf, Env.LockInd, Doubling.View, WellFormed, Contents;
    m.ReadyIsSettled(b);
    m.ViewWellFormed();
    LiveEntry(m.env, m.buckets.hashpower, m.View(), b, j);
    match op
    case FindOp(_) =>
    case UpdateOp(_, f) => m.Assign(b, j, f(m.Cur()[b][j].val));
    case EraseOp(_, g) => MutateEntry(m, b, j, g);
    case UpraseOp(_, g, _) => MutateEntry(m, b, j, g);
  }

  // Applies a function that may ask for the entry to be removed.
  method MutateEntry(m: CuckooMap, b: nat, j: nat, g: Value -> (Value, bool))
    requires m.Valid() && m.Ready(b) && LiveAt(m.Cur(), b, j)
    modifies m`allLocks, m.buckets`data
    ensures m.Valid()
    ensures var k, r := old(m.Cur()[b][j].key), g(old(m.Cur()[b][j].val));
            m.Logical() == if r.1 then old(m.Logical()) - {k} else old(m.Logical())[k := r.0]
    ensures SameFlags(old(m.CurrentLocks()), m.CurrentLocks())
  {
    hide TableOk, Unmigrated, CountsOf, Env.LockInd, Doubling.View, WellFormed, Contents;
    m.ReadyIsSettled(b);
    var (v, gone) := g(m.Cur()[b][j].val);
    CountedFacts(m.CurrentLocks(), m.env.LockInd(b), -1);
    m.Assign(b, j, v);
    if gone {
      ghost var was, k := old(m.Logical()), old(m.Cur()[b][j].key);
      assert was[k := v] - {k} == was - {k};
      m.DelFromBucket(b, j);
    }
  }

  // The stripes of the key's two buckets are migrated, and all others as far as they were.
  ghost predicate OnlyKeyMigrated(env: Env, hp: nat, k: Key, was: Locks, now: Locks) {
    && |now| == |was|
    && forall l | 0 <= l < |was| ::
         now[l].migrated <==>
         was[l].migrated || l == env.LockInd(env.I1(hp, k)) || l == env.LockInd(env.I2(hp, k))
  }

  lemma KeyFlags(env: Env, hp: nat, k: Key, was: Locks, now: Locks)
    requires Flagged(was, now, {env.LockInd(env.I1(hp, k)), env.LockInd(env.I2(hp, k))})
    ensures OnlyKeyMigrated(env, hp, k, was, now)
  {
    hide Env.LockInd, Env.I1, Env.I2;
  }

  lemma SameKeyFlags(env: Env, hp: nat, k: Key, was: Locks, mid: Locks, now: Locks)
    requires OnlyKeyMigrated(env, hp, k, was, mid) && SameFlags(mid, now)
    ensures OnlyKeyMigrated(env, hp, k, was, now)
  {
    hide Env.LockInd, Env.I1, Env.I2;
  }

  /** find, update and erase: the plain map's answer, and the plain map afterwards. */
  method RunOnKey(m: CuckooMap, locked: bool, op: Op) returns (r: Res)
    requires m.Valid() && (locked ==> m.AllMigrated()) && !op.UpraseOp?
    modifies m`allLocks, m`remaining, m.buckets`data, m.prev`data
    ensures m.Valid() && (locked ==> m.AllMigrated())
    ensures Does(op, old(m.Logical()), m.Logical(), r)
    ensures OnlyKeyMigrated(m.env, m.buckets.hashpower, op.key, old(m.CurrentLocks()), m.CurrentLocks())
  {
    hide TableOk, Unmigrated, CountsOf, Env.LockInd, Doubling.View, WellFormed, Contents, Does, Flagged,
      OnlyKeyMigrated, Env.I1, Env.I2;
    var i1, i2 := m.SnapshotAndLockTwo(op.key, locked);
    ghost var mid := m.CurrentLocks();
    KeyFlags(m.env, m.buckets.hashpower, op.key, old(m.CurrentLocks()), mid);
    var found, pos := m.CuckooFind(op.key, i1, i2);
    if !found {
      DoesIsAfter(op, old(m.Logical()), m.Logical(), Miss);
      return Miss;
    }
    r := Hit(m.Cur()[pos.index][pos.slot].val);
    TouchEntry(m, pos.index, pos.slot, op);
    SameKeyFlags(m.env, m.buckets.hashpower, op.key, old(m.CurrentLocks()), mid, m.CurrentLocks());
    DoesIsAfter(op, old(m.Logical()), m.Logical(), r);
  }

  /** uprase, and with it insert, insert_or_assign and upsert. When resizing is refused the map is
      unchanged and the reason is reported. */
  method Uprase(m: CuckooMap, locked: bool, op: Op) returns (r: Res, thrown: Option<ResizeStatus>)
    requires m.Valid() && (locked ==> m.AllMigrated()) && op.UpraseOp?
    requires m.minLoad > 0.0 || m.maxHashpower.Some?
    modifies m`allLocks, m`remaining, m.buckets, m.prev
    ensures m.Valid() && (locked ==> m.AllMigrated()) && old(m.buckets.hashpower) <= m.buckets.hashpower
    ensures var n := m.buckets.hashpower - old(m.buckets.hashpower);
            EndsAfter(m, op.key, old(StartOf(m)), n) && (thrown.Some? <==> StillStuck(old(StartOf(m)), op.key, n))
    ensures old(op.key in m.Logical() || HomeHasRoom(m.env, m.buckets.hashpower, m.View(), op.key)) ==>
              OnlyKeyMigrated(m.env, m.buckets.hashpower, op.key, old(m.CurrentLocks()), m.CurrentLocks())
    ensures old(op.key in m.Logical() || !Stuck(m.env, m.buckets.hashpower, m.View(), op.key)) ==>
              m.buckets.hashpower == old(m.buckets.hashpower)
    ensures thrown.None? ==> Does(op, old(m.Logical()), m.Logical(), r)
    ensures thrown.Some? ==> m.Logical() == old(m.Logical()) && op.key !in m.Logical()
                             && Stuck(m.env, m.buckets.hashpower, m.View(), op.key) && Refused(m, thrown.value)
  {
    hide TableOk, Unmigrated, CountsOf, Env.LockInd, Doubling.View, WellFormed, Contents, Stuck, ResizeValidity,
      Settles, Dilutes, Env.I1, Env.I2, Does, StillRunning, StillStuck, Sparse, OnlyKeyMigrated, AtHand, HomeHasRoom,
      Flagged, SameFlags;
    var i1, i2 := m.SnapshotAndLockTwo(op.key, locked);
    ghost var mid := m.CurrentLocks();
    KeyFlags(m.env, m.buckets.hashpower, op.key, old(m.CurrentLocks()), mid);
    RoomAtHand(m, op.key, i1, i2);
    ghost var hand := AtHand(m, op.key, i1, i2);
    var st := CuckooInsertLoop(m, locked, op.key, i1, i2);
    EndsAtOnce(m, op.key, old(StartOf(m)), m.buckets.hashpower - old(m.buckets.hashpower));
    if st.Threw? {
      ThrewFacts(m, op.key, st);
      return Miss, Some(st.why);
    }
    r := FinishUprase(m, op, st);
    if hand {
      SameKeyFlags(m.env, m.buckets.hashpower, op.key, old(m.CurrentLocks()), mid, m.CurrentLocks());
    }
    thrown := None;
  }

  // One of the key's buckets has room.
  ghost predicate HomeHasRoom(env: Env, hp: nat, bs: Buckets, k: Key) {
    HasRoom(bs, env.I1(hp, k)) || HasRoom(bs, env.I2(hp, k))
  }

  lemma RoomAtHand(m: CuckooMap, k: Key, i1: nat, i2: nat)
    requires m.Valid() && i1 == m.env.I1(m.buckets.hashpower, k) && i2 == m.env.I2(m.buckets.hashpower, k)
    requires m.Ready(i1) && m.Ready(i2)
    ensures AtHand(m, k, i1, i2) <==> k in m.Logical() || HomeHasRoom(m.env, m.buckets.hashpower, m.View(), k)
  {
    hide TableOk, Doubling.View, Contents, Env.I1, Env.I2, Env.LockInd;
    m.ReadyIsSettled(i1);
    m.ReadyIsSettled(i2);
  }

  // Once there is room for the key, or its position is known.
  method FinishUprase(m: CuckooMap, op: Op, st: LoopStatus) returns (r: Res)
    requires m.Valid() && op.UpraseOp? && Settles(m, op.key, st) && !st.Threw?
    modifies m`allLocks, m.buckets`data
    ensures m.Valid() && Does(op, old(m.Logical()), m.Logical(), r)
    ensures SameFlags(old(m.CurrentLocks()), m.CurrentLocks())
    ensures old(m.AllMigrated()) ==> m.AllMigrated()
  {
    hide TableOk, Unmigrated, CountsOf, Env.LockInd, Doubling.View, WellFormed, Contents, Stuck, Does;
    if st.Room? {
      CountedFacts(m.CurrentLocks(), m.env.LockInd(st.pos.index), 1);
      m.AddToBucket(st.pos.index, st.pos.slot, op.key, op.val);
      DoesIsAfter(op, old(m.Logical()), m.Logical(), Inserted);
      return Inserted;
    }
    r := Hit(m.Cur()[st.pos.index][st.pos.slot].val);
    TouchEntry(m, st.pos.index, st.pos.slot, op);
    DoesIsAfter(op, old(m.Logical()), m.Logical(), r);
  }

  /** Empties the table. */
  method Clear(m: CuckooMap)
    requires m.Valid()
    modifies m`allLocks, m`remaining, m.buckets`data, m.prev`data
    ensures m.Valid() && m.Logical() == map[] && m.AllMigrated()
    ensures forall l | 0 <= l < |m.CurrentLocks()| :: m.CurrentLocks()[l] == Lock(0, true)
    ensures |m.CurrentLocks()| == old(|m.CurrentLocks()|)
    ensures Sum(m.State().counts) == 0 && ImageOf(m) == ClearedImage(m.env, old(ImageOf(m)))
  {
    hide LazyOk, Unmigrated, FlagsOk, Contents;
    m.buckets.Clear();
    m.remaining := 0;
    m.prev.ClearAndDeallocate();
    var n := |m.CurrentLocks()|;
    m.allLocks := m.allLocks[|m.allLocks| - 1 := FreshLocks(n)];
    BlankOk(m.env, m.buckets.hashpower, n);
  }
}
