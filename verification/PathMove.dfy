/** Recovering an eviction path from its code and shifting entries along it. */
module PathMove {
  import opened Hashing
  import opened Layout
  import opened PathCode
  import opened Eviction
  import opened CuckooTable
  import opened PathSearch

  datatype CuckooRecord = CuckooRecord(bucket: nat, slot: nat, hash: Word)

  // MAX_BFS_PATH_LEN.
  const MAX_PATH_LEN: nat := 5

  // Whether no sequence of at most four evictions frees a slot for the key.
  ghost predicate Stuck(env: Env, hp: nat, bs: Buckets, k: Key) {
    Search(env.slots, hp, bs, env.I1(hp, k), env.I2(hp, k)).FullWithin(MAX_PATH_LEN)
  }

  lemma StuckIsFull(env: Env, hp: nat, bs: Buckets, k: Key)
    requires Stuck(env, hp, bs, k)
    ensures env.I1(hp, k) < |bs| && Full(bs[env.I1(hp, k)]) && env.I2(hp, k) < |bs| && Full(bs[env.I2(hp, k)])
  {
    hide Env.I1, Env.I2;
    var c := Search(env.slots, hp, bs, env.I1(hp, k), env.I2(hp, k));
    c.IsFull(Node(0, []), MAX_PATH_LEN);
    c.IsFull(Node(1, []), MAX_PATH_LEN);
  }

  // Record `i` names an entry of `w` by place and hash, and the next record's bucket is its alternate.
  ghost predicate Link(env: Env, hp: nat, w: Buckets, path: seq<CuckooRecord>, i: nat) {
    && i + 1 < |path|
    && LiveAt(w, path[i].bucket, path[i].slot)
    && env.hash(w[path[i].bucket][path[i].slot].key) == path[i].hash
    && path[i + 1].bucket == AltIndex(hp, PartialKey(path[i].hash), path[i].bucket)
  }

  ghost predicate Free(w: Buckets, b: nat, j: nat) {
    b < |w| && j < |w[b]| && w[b][j].Empty?
  }

  /** The first `d` records of `path` are entries that can each move to the place of the next one,
      the last place is free, and no bucket occurs twice. */
  ghost predicate Chain(env: Env, hp: nat, w: Buckets, path: seq<CuckooRecord>, d: nat) {
    && d < |path|
    && Free(w, path[d].bucket, path[d].slot)
    && (forall i | 0 <= i < d :: Link(env, hp, w, path, i))
    && (forall i, j | 0 <= i < j <= d :: path[i].bucket != path[j].bucket)
  }

  /** Moving the last entry of a chain leaves a shorter chain. */
  lemma ChainShrinks(env: Env, hp: nat, w: Buckets, path: seq<CuckooRecord>, d: nat)
    requires Chain(env, hp, w, path, d) && d > 0
    ensures Link(env, hp, w, path, d - 1)
    ensures Chain(env, hp, Displace(w, path[d - 1].bucket, path[d - 1].slot, path[d].bucket, path[d].slot), path, d - 1)
  {
    hide AltIndex, PartialKey;
    assert Link(env, hp, w, path, d - 1);
    var w' := Displace(w, path[d - 1].bucket, path[d - 1].slot, path[d].bucket, path[d].slot);
    forall i | 0 <= i < d - 1
      ensures Link(env, hp, w', path, i)
    {
      assert Link(env, hp, w, path, i);
      assert path[i].bucket != path[d - 1].bucket && path[i].bucket != path[d].bucket;
    }
  }

  // Record `i` stands where the walk given by `slots` is after `i` evictions, and its hash is that
  // of the entry it evicts.
  ghost predicate OnWalk(c: Search, env: Env, bit: nat, slots: seq<nat>, r: CuckooRecord, i: nat)
    requires i < |slots|
  {
    && r.bucket == c.End(Node(bit, slots[..i])) && r.slot == slots[i]
    && (i + 1 < |slots| ==> LiveAt(c.bs, r.bucket, r.slot) && r.hash == env.hash(c.bs[r.bucket][r.slot].key))
  }

  // An inner bucket of the path is full, so its entry can be read.
  lemma WalkIsLive(c: Search, env: Env, bit: nat, slots: seq<nat>, i: nat)
    requires c.Ok() && WellFormed(env, c.hp, c.bs) && c.IsPath(bit, slots) && i + 1 < |slots|
    ensures var b := c.End(Node(bit, slots[..i]));
            && LiveAt(c.bs, b, slots[i]) && c.bs[b][slots[i]].partial == env.Partial(c.bs[b][slots[i]].key)
            && c.End(Node(bit, slots[..i + 1])) == AltIndex(c.hp, c.bs[b][slots[i]].partial, b)
  {
    hide AltIndex, Env.Partial, Env.Home;
    var n := Node(bit, slots[..i]);
    c.IsFull(n, |slots| - 1);
    assert NoMoved(c.bs[c.End(n)]);
    assert LiveAt(c.bs, c.End(n), slots[i]);
    assert slots[..i + 1][..i] == slots[..i] && slots[..i + 1][i] == slots[i];
  }

  // Writes the slots of the path, last one first, and returns the starting bucket's code.
  method DecodeSlots(path: array<CuckooRecord>, s: nat, code0: nat, depth: nat, ghost bit: nat, ghost slots: seq<nat>)
    returns (code: nat)
    requires s >= 1 && path.Length == MAX_PATH_LEN && depth < MAX_PATH_LEN && |slots| == depth + 1
    requires Digits(s, slots) && code0 == Code(s, bit, slots)
    modifies path
    ensures code == bit && forall k | 0 <= k <= depth :: path[k].slot == slots[k]
  {
    code := code0;
    var i: int := depth;
    assert slots[..depth + 1] == slots;
    while i >= 0
      invariant -1 <= i <= depth && code == Code(s, bit, slots[..i + 1])
      invariant forall k | i < k <= depth :: path[k].slot == slots[k]
    {
      assert slots[..i + 1][..i] == slots[..i];
      DigitOff(s, Code(s, bit, slots[..i]), slots[i]);
      path[i] := path[i].(slot := code % s);
      code := code / s;
      i := i - 1;
    }
  }

  /** Searches for an eviction path and writes it down bucket by bucket. Nothing interferes, so the
      path read back is the one the search found. */
  method CuckooPathSearch(m: CuckooMap, locked: bool, path: array<CuckooRecord>, i1: nat, i2: nat) returns (depth: int)
    requires m.Valid() && i1 < |m.Cur()| && i2 < |m.Cur()| && (locked ==> m.AllMigrated())
    requires path.Length == MAX_PATH_LEN
    modifies m`allLocks, m`remaining, m.buckets`data, m.prev`data, path
    ensures m.Valid() && m.State() == old(m.State()) && (locked ==> m.AllMigrated())
    ensures -1 <= depth < MAX_PATH_LEN
    ensures depth == -1 <==> Search(m.env.slots, m.buckets.hashpower, m.View(), i1, i2).FullWithin(MAX_PATH_LEN)
    ensures depth >= 0 ==> path[0].bucket in {i1, i2}
    ensures depth >= 0 ==> Chain(m.env, m.buckets.hashpower, m.View(), path[..], depth)
  {
    hide TableOk, Doubling.View, Unmigrated, CountsOf, Search.End, Search.IsPath, Packed, Chain;
    var hp, s := m.buckets.hashpower, m.env.slots;
    m.ViewWellFormed();
    ghost var c := Search(s, hp, m.View(), i1, i2);
    var x;
    ghost var bit, slots;
    x, bit, slots := SlotSearch(m, locked, i1, i2);
    if x.depth == -1 {
      return -1;
    }
    depth := x.depth;
    PathCodes(c, m.env, bit, slots);
    var code := DecodeSlots(path, s, x.pathcode, depth, bit, slots);
    path[0] := path[0].(bucket := if code == 0 then i1 else i2);
    depth := FollowPath(m, locked, path, depth, c, bit, slots);
    ChainFromWalk(c, m.env, bit, slots, path[..]);
  }

  // The path found fits its code, and it is not true that everything is full.
  lemma PathCodes(c: Search, env: Env, bit: nat, slots: seq<nat>)
    requires env.Valid() && c.s == env.slots && c.Ok() && c.IsPath(bit, slots)
    ensures Packed(c.s, bit, slots) == Code(c.s, bit, slots)
    ensures bit < 2 && |slots| <= MAX_PATH_LEN && Digits(c.s, slots)
    ensures c.End(Node(bit, slots[..0])) == if bit == 0 then c.i1 else c.i2
    ensures !c.FullWithin(MAX_PATH_LEN)
  {
    hide AltIndex;
    PowMono(c.s, |slots|, 5);
    PackedIsCode(c.s, bit, slots);
    var n := Node(bit, slots[..|slots| - 1]);
    assert !c.FullAt(n) && c.Admits(n);
  }

  // Fills in one record of the path under the lock of its bucket; tells whether its slot is free.
  method VisitRecord(m: CuckooMap, locked: bool, path: array<CuckooRecord>, d: nat,
                     ghost c: Search, ghost bit: nat, ghost slots: seq<nat>)
    returns (free: bool)
    requires m.Valid() && (locked ==> m.AllMigrated()) && d < |slots| <= path.Length
    requires c == Search(m.env.slots, m.buckets.hashpower, m.View(), c.i1, c.i2) && c.Ok() && c.IsPath(bit, slots)
    requires WellFormed(m.env, c.hp, c.bs) && path[d].slot == slots[d]
    requires if d == 0 then path[0].bucket == c.End(Node(bit, slots[..0]))
             else OnWalk(c, m.env, bit, slots, path[d - 1], d - 1)
    modifies m`allLocks, m`remaining, m.buckets`data, m.prev`data, path
    ensures m.Valid() && m.State() == old(m.State()) && (locked ==> m.AllMigrated())
    ensures free <==> d == |slots| - 1
    ensures OnWalk(c, m.env, bit, slots, path[d], d) && (d == 0 ==> path[0].bucket == old(path[0].bucket))
    ensures forall k | 0 <= k < path.Length && k != d :: path[k] == old(path[k])
  {
    hide TableOk, Doubling.View, Unmigrated, CountsOf, Search.End, Search.IsPath, AltIndex, PartialKey, WellFormed;
    if d > 0 {
      // The bucket is the alternate of the previous one.
      WalkIsLive(c, m.env, bit, slots, d - 1);
      path[d] := path[d].(bucket := AltIndex(m.buckets.hashpower, PartialKey(path[d - 1].hash), path[d - 1].bucket));
    }
    WalkEnds(c, bit, slots, d);
    if d < |slots| - 1 {
      WalkIsLive(c, m.env, bit, slots, d);
    }
    var u := m.LockAndRead(path[d].bucket, locked);
    var s := u[path[d].slot];
    if s.Empty? {
      return true;
    }
    path[d] := path[d].(hash := m.env.hash(s.key));
    return false;
  }

  // Reads the entries along the path, each under its lock; stops early at a free slot.
  method FollowPath(m: CuckooMap, locked: bool, path: array<CuckooRecord>, depth: nat,
                    ghost c: Search, ghost bit: nat, ghost slots: seq<nat>)
    returns (d: nat)
    requires m.Valid() && (locked ==> m.AllMigrated()) && path.Length == MAX_PATH_LEN
    requires c == Search(m.env.slots, m.buckets.hashpower, m.View(), c.i1, c.i2) && c.Ok()
    requires c.IsPath(bit, slots) && |slots| == depth + 1 <= MAX_PATH_LEN
    requires forall k | 0 <= k <= depth :: path[k].slot == slots[k]
    requires path[0].bucket == c.End(Node(bit, slots[..0]))
    modifies m`allLocks, m`remaining, m.buckets`data, m.prev`data, path
    ensures m.Valid() && m.State() == old(m.State()) && (locked ==> m.AllMigrated())
    ensures d == depth && path[0].bucket == old(path[0].bucket)
    ensures forall k | 0 <= k <= depth :: OnWalk(c, m.env, bit, slots, path[k], k)
  {
    hide TableOk, Doubling.View, Unmigrated, CountsOf, Search.End, Search.IsPath, WellFormed, OnWalk;
    m.ViewWellFormed();
    d := 0;
    while d <= depth
      invariant 0 <= d <= depth + 1 && m.Valid() && m.State() == old(m.State()) && (locked ==> m.AllMigrated())
      invariant path[0].bucket == old(path[0].bucket)
      invariant forall k | 0 <= k <= depth :: path[k].slot == slots[k]
      invariant forall k | 0 <= k < d :: OnWalk(c, m.env, bit, slots, path[k], k)
    {
      var free := VisitRecord(m, locked, path, d, c, bit, slots);
      WalkSlot(c, m.env, bit, slots, path[d], d);
      if free {
        return;
      }
      d := d + 1;
    }
    d := depth;
  }

  lemma WalkSlot(c: Search, env: Env, bit: nat, slots: seq<nat>, r: CuckooRecord, i: nat)
    requires i < |slots| && OnWalk(c, env, bit, slots, r, i)
    ensures r.slot == slots[i]
  {
  }

  lemma WalkEnds(c: Search, bit: nat, slots: seq<nat>, d: nat)
    requires c.Ok() && c.IsPath(bit, slots) && d < |slots|
    ensures c.End(Node(bit, slots[..d])) < |c.bs| && slots[d] < c.s
    ensures d == |slots| - 1 ==> c.bs[c.End(Node(bit, slots[..d]))][slots[d]].Empty?
  {
    c.EndInRange(Node(bit, slots[..d]));
  }

  lemma ChainFromWalk(c: Search, env: Env, bit: nat, slots: seq<nat>, path: seq<CuckooRecord>)
    requires c.Ok() && WellFormed(env, c.hp, c.bs) && c.IsPath(bit, slots) && 1 <= |slots| <= |path|
    requires forall k | 0 <= k < |slots| :: OnWalk(c, env, bit, slots, path[k], k)
    ensures Chain(env, c.hp, c.bs, path, |slots| - 1)
  {
    hide AltIndex, PartialKey, WellFormed, Search.End, Search.IsPath;
    var d := |slots| - 1;
    WalkEnds(c, bit, slots, d);
    forall i | 0 <= i < d
      ensures Link(env, c.hp, c.bs, path, i)
    {
      WalkIsLive(c, env, bit, slots, i);
      assert OnWalk(c, env, bit, slots, path[i + 1], i + 1);
    }
    forall i, j | 0 <= i < j <= d
      ensures path[i].bucket != path[j].bucket
    {
      c.PathIsSimple(bit, slots, i, j);
    }
  }

  // Locks three buckets in stripe order.
  method LockThree(m: CuckooMap, i1: nat, i2: nat, i3: nat, locked: bool)
    requires m.Valid() && i1 < |m.Cur()| && i2 < |m.Cur()| && i3 < |m.Cur()| && (locked ==> m.AllMigrated())
    modifies m`allLocks, m`remaining, m.buckets`data, m.prev`data
    ensures m.Valid() && m.State() == old(m.State()) && (locked ==> m.AllMigrated())
    ensures m.Ready(i1) && m.Ready(i2) && m.Ready(i3)
  {
    hide TableOk, Unmigrated, CountsOf, Env.LockInd, Doubling.View;
    var a, b, c := i1, i2, i3;
    if m.env.LockInd(c) < m.env.LockInd(b) {
      b, c := c, b;
    }
    if m.env.LockInd(c) < m.env.LockInd(a) {
      a, c := c, a;
    }
    if m.env.LockInd(b) < m.env.LockInd(a) {
      a, b := b, a;
    }
    m.LockBucket(a, locked);
    m.LockBucket(b, locked);
    m.LockBucket(c, locked);
  }

  /** One displacement: locks both ends, checks that nothing has changed since the path was read,
      and moves the entry. */
  method ShiftOne(m: CuckooMap, locked: bool, path: array<CuckooRecord>, d: nat, i1: nat, i2: nat) returns (ok: bool)
    requires m.Valid() && i1 < |m.Cur()| && i2 < |m.Cur()| && (locked ==> m.AllMigrated())
    requires 0 < d < path.Length && Chain(m.env, m.buckets.hashpower, m.View(), path[..], d)
    requires path[0].bucket in {i1, i2}
    modifies m`allLocks, m`remaining, m.buckets`data, m.prev`data
    ensures m.Valid() && (locked ==> m.AllMigrated())
    ensures m.Logical() == old(m.Logical()) && m.State().counts == old(m.State().counts)
    ensures ok && Chain(m.env, m.buckets.hashpower, m.View(), path[..], d - 1)
    ensures d == 1 ==> m.Ready(i1) && m.Ready(i2)
  {
    hide TableOk, Unmigrated, CountsOf, Env.LockInd, Doubling.View, WellFormed, Contents, AltIndex, PartialKey, Chain;
    var from, to := path[d - 1], path[d];
    ghost var hp, w := m.buckets.hashpower, m.View();
    m.ViewWellFormed();
    ChainHead(m.env, hp, w, path[..], d);
    if d == 1 {
      LockThree(m, i1, i2, to.bucket, locked);
    } else {
      m.LockTwo(from.bucket, to.bucket, locked);
    }
    m.ReadyIsSettled(from.bucket);
    m.ReadyIsSettled(to.bucket);
    var fs, ts := m.Cur()[from.bucket][from.slot], m.Cur()[to.bucket][to.slot];
    if !ts.Empty? || fs.Empty? || m.env.hash(fs.key) != from.hash {
      return false;
    }
    ChainShrinks(m.env, hp, w, path[..], d);
    m.MoveEntry(from.bucket, from.slot, to.bucket, to.slot);
    return true;
  }

  lemma ChainHead(env: Env, hp: nat, w: Buckets, path: seq<CuckooRecord>, d: nat)
    requires WellFormed(env, hp, w) && 0 < d < |path| && Chain(env, hp, w, path, d)
    ensures var from, to := path[d - 1], path[d];
            && LiveAt(w, from.bucket, from.slot) && Free(w, to.bucket, to.slot)
            && env.hash(w[from.bucket][from.slot].key) == from.hash
            && to.bucket == AltIndex(hp, w[from.bucket][from.slot].partial, from.bucket)
  {
    hide AltIndex, PartialKey;
    assert Link(env, hp, w, path, d - 1);
    assert PlacedSlot(env, hp, path[d - 1].bucket, w[path[d - 1].bucket][path[d - 1].slot]);
  }

  lemma ChainEnd(env: Env, hp: nat, w: Buckets, path: seq<CuckooRecord>)
    requires Chain(env, hp, w, path, 0)
    ensures Free(w, path[0].bucket, path[0].slot)
  {
  }

  /** Shifts the entries of a path, last one first, so that its first slot becomes free. Without
      interference every check passes, both starting buckets end up locked, and nothing that is
      stored changes. */
  method CuckooPathMove(m: CuckooMap, locked: bool, path: array<CuckooRecord>, depth: nat, i1: nat, i2: nat)
    returns (ok: bool)
    requires m.Valid() && i1 < |m.Cur()| && i2 < |m.Cur()| && (locked ==> m.AllMigrated())
    requires depth < path.Length && Chain(m.env, m.buckets.hashpower, m.View(), path[..], depth)
    requires path[0].bucket in {i1, i2}
    modifies m`allLocks, m`remaining, m.buckets`data, m.prev`data
    ensures m.Valid() && (locked ==> m.AllMigrated())
    ensures m.Logical() == old(m.Logical()) && m.State().counts == old(m.State().counts)
    ensures ok && m.Ready(i1) && m.Ready(i2) && Free(m.Cur(), path[0].bucket, path[0].slot)
  {
    hide TableOk, Unmigrated, CountsOf, Env.LockInd, Doubling.View, WellFormed, Contents, AltIndex, Chain;
    if depth == 0 {
      m.LockTwo(i1, i2, locked);
      ChainEnd(m.env, m.buckets.hashpower, m.View(), path[..]);
      m.ReadyIsSettled(path[0].bucket);
      return m.Cur()[path[0].bucket][path[0].slot].Empty?;
    }
    var d := depth;
    while d > 0
      invariant 0 <= d <= depth && m.Valid() && (locked ==> m.AllMigrated())
      invariant i1 < |m.Cur()| && i2 < |m.Cur()|
      invariant m.Logical() == old(m.Logical()) && m.State().counts == old(m.State().counts)
      invariant Chain(m.env, m.buckets.hashpower, m.View(), path[..], d)
      invariant d == 0 ==> m.Ready(i1) && m.Ready(i2)
    {
      var shifted := ShiftOne(m, locked, path, d, i1, i2);
      if !shifted {
        return false;
      }
      d := d - 1;
    }
    ChainEnd(m.env, m.buckets.hashpower, m.View(), path[..]);
    m.ReadyIsSettled(path[0].bucket);
    return true;
  }

  /** Frees a slot in one of two full buckets. It succeeds at the first attempt, or finds every
      bucket within reach full and changes nothing. */
  method RunCuckoo(m: CuckooMap, locked: bool, i1: nat, i2: nat)
    returns (ok: bool, b: nat, j: nat, ghost attempts: nat)
    requires m.Valid() && i1 < |m.Cur()| && i2 < |m.Cur()| && (locked ==> m.AllMigrated())
    modifies m`allLocks, m`remaining, m.buckets`data, m.prev`data
    ensures m.Valid() && (locked ==> m.AllMigrated())
    ensures m.Logical() == old(m.Logical()) && m.State().counts == old(m.State().counts)
    ensures attempts == 1
    ensures ok <==> !Search(m.env.slots, m.buckets.hashpower, old(m.View()), i1, i2).FullWithin(MAX_PATH_LEN)
    ensures ok ==> b in {i1, i2} && m.Ready(i1) && m.Ready(i2) && Free(m.Cur(), b, j)
    ensures !ok ==> m.State() == old(m.State())
  {
    hide TableOk, Unmigrated, CountsOf, Env.LockInd, Doubling.View, WellFormed, Contents, AltIndex, Chain,
      Search.FullWithin;
    b, j, ok, attempts := 0, 0, false, 0;
    var path := new CuckooRecord[MAX_PATH_LEN](_ => CuckooRecord(0, 0, 0));
    while !ok
      invariant m.Valid() && (locked ==> m.AllMigrated())
      invariant m.Logical() == old(m.Logical()) && m.State().counts == old(m.State().counts)
      invariant if ok then attempts == 1 else attempts == 0 && m.State() == old(m.State())
      invariant ok ==> !Search(m.env.slots, m.buckets.hashpower, old(m.View()), i1, i2).FullWithin(MAX_PATH_LEN)
      invariant ok ==> b in {i1, i2} && m.Ready(i1) && m.Ready(i2) && Free(m.Cur(), b, j)
      decreases !ok
    {
      attempts := attempts + 1;
      var depth := CuckooPathSearch(m, locked, path, i1, i2);
      if depth < 0 {
        return;
      }
      var done := CuckooPathMove(m, locked, path, depth, i1, i2);
      if done {
        b, j, ok := path[0].bucket, path[0].slot, true;
      }
    }
  }
}
