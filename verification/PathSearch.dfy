/** Breadth-first search for an eviction path, and following the path it found. */
module PathSearch {
  import opened Hashing
  import opened Bits
  import opened Layout
  import opened PathCode
  import opened Eviction
  import opened CuckooTable

  /** The search queue: a fixed array filled from left to right, never reusing a cell. */
  class BQueue {
    const cells: array<BSlot>
    var first: nat
    var last: nat

    ghost predicate Valid()
      reads this
    {
      first <= last <= cells.Length
    }

    constructor (s: nat)
      requires s >= 1
      ensures Valid() && first == last == 0 && cells.Length == MaxCuckooCount(s) && fresh(cells)
    {
      QueueIsTwoTrees(s);
      cells := new BSlot[MaxCuckooCount(s)](_ => BSlot(0, 0, -1));
      first, last := 0, 0;
    }

    method Enqueue(x: BSlot)
      requires Valid() && last < cells.Length
      modifies this`last, cells
      ensures Valid() && last == old(last) + 1
      ensures cells[..last] == old(cells[..last]) + [x]
    {
      cells[last] := x;
      last := last + 1;
    }

    method Dequeue() returns (x: BSlot)
      requires Valid() && first < last
      modifies this`first
      ensures Valid() && first == old(first) + 1 && x == cells[old(first)]
    {
      x := cells[first];
      first := first + 1;
    }
  }

  function Entries(c: Search, hist: seq<Node>): (r: seq<BSlot>)
    ensures |r| == |hist|
  {
    seq(|hist|, i requires 0 <= i < |hist| => c.Entry(hist[i]))
  }

  lemma EntriesAppend(c: Search, hist: seq<Node>, n: Node)
    ensures Entries(c, hist + [n]) == Entries(c, hist) + [c.Entry(n)]
  {
  }

  // The slot looked at in round `i` of a scan that starts at slot `start` and wraps around.
  function Round(s: nat, start: nat, i: nat): (j: nat)
    requires start < s
    ensures j < s
  {
    (start + i) % s
  }

  lemma RoundCovers(s: nat, start: nat, j: nat) returns (i: nat)
    requires start < s && j < s
    ensures i < s && Round(s, start, i) == j
  {
    if start <= j {
      i := j - start;
      ModSmall(j, s);
    } else {
      i := j + s - start;
      DivModUnique(j + s, s, 1, j);
    }
  }

  // The first `k` rounds of scanning node `n` found no free slot and queued the children.
  ghost predicate Scanned(c: Search, hist: seq<Node>, n: Node, start: nat, k: nat)
    requires start < c.s
  {
    && c.End(n) < |c.bs|
    && forall i: nat {:trigger Round(c.s, start, i)} | i < k ::
         && Round(c.s, start, i) < |c.bs[c.End(n)]| && !c.bs[c.End(n)][Round(c.s, start, i)].Empty?
         && (|n.slots| < MAX_DEPTH ==> Kid(n, Round(c.s, start, i)) in hist)
  }

  lemma ScannedAll(c: Search, hist: seq<Node>, n: Node, start: nat)
    requires c.Ok() && start < c.s && Scanned(c, hist, n, start, c.s)
    ensures c.Expanded(hist, n)
  {
    forall j: nat | j < c.s
      ensures !c.bs[c.End(n)][j].Empty? && (|n.slots| < MAX_DEPTH ==> Kid(n, j) in hist)
    {
      var i := RoundCovers(c.s, start, j);
    }
  }

  // The queue holds `hist`, of which `done` nodes have been taken out, with `kids` children of the
  // last one still to come.
  ghost predicate Searching(c: Search, q: BQueue, hist: seq<Node>, done: nat, kids: nat, kidLoad: nat)
    reads q, q.cells
  {
    && c.Ok() && q.Valid() && q.cells.Length == 2 * Tree(c.s, MAX_DEPTH)
    && q.first == done <= |hist| == q.last
    && q.cells[..q.last] == Entries(c, hist)
    && done + Load(c.s, hist[done..]) + Owed(kids, kidLoad) == q.cells.Length
  }

  // The room kept back for children that are still to come.
  function Owed(kids: nat, load: nat): nat {
    kids * load
  }

  lemma OwedStep(kids: nat, load: nat)
    requires kids > 0
    ensures Owed(kids, load) == Owed(kids - 1, load) + load
  {
  }

  lemma OwedZero(kids: nat)
    ensures Owed(kids, 0) == Owed(0, kids) == 0
  {
  }

  lemma RoomForKid(c: Search, q: BQueue, hist: seq<Node>, done: nat, kids: nat, kidLoad: nat)
    requires Searching(c, q, hist, done, kids, kidLoad) && kids > 0 && kidLoad > 0
    ensures q.last < q.cells.Length
  {
    hide Owed, Load, Entries;
    LoadBounds(c.s, hist[done..]);
    OwedStep(kids, kidLoad);
  }

  // What the queue stores for a child.
  lemma KidEntry(c: Search, n: Node, j: nat)
    requires c.End(n) < |c.bs| && LiveAt(c.bs, c.End(n), j)
    ensures c.Entry(Kid(n, j)) == BSlot(AltIndex(c.hp, c.bs[c.End(n)][j].partial, c.End(n)),
                                        (c.Entry(n).pathcode * c.s + j) % CODE_RANGE, c.Entry(n).depth + 1)
  {
    hide AltIndex;
    assert Kid(n, j).slots[..|n.slots|] == n.slots;
  }

  // Queues the child for the occupied slot `j` of bucket `u`.
  method PushKid(q: BQueue, hp: nat, s: nat, u: Bucket, x: BSlot, j: nat,
                 ghost c: Search, ghost hist: seq<Node>, ghost done: nat, ghost kids: nat)
    returns (ghost hist': seq<Node>)
    requires 0 < done <= |hist| && kids > 0 && j < s && |hist[done - 1].slots| < MAX_DEPTH
    requires Searching(c, q, hist, done, kids, KidLoad(s, hist[done - 1])) && c.Known(hist, done - 1)
    requires c.s == s && c.hp == hp && x == c.Entry(hist[done - 1])
    requires x.bucket < |c.bs| && u == c.bs[x.bucket] && LiveAt(c.bs, x.bucket, j)
    modifies q, q.cells
    ensures hist' == hist + [Kid(hist[done - 1], j)]
    ensures Searching(c, q, hist', done, kids - 1, KidLoad(s, hist[done - 1])) && c.Known(hist', done - 1)
  {
    hide AltIndex, Search.End, Search.Known, Load, Entries, Packed, Owed, Tree;
    ghost var n := hist[done - 1];
    ghost var kid := Kid(n, j);
    hist' := hist + [kid];
    RoomForKid(c, q, hist, done, kids, KidLoad(s, n));
    KidEntry(c, n, j);
    var y := BSlot(AltIndex(hp, u[j].partial, x.bucket), (x.pathcode * s + j) % CODE_RANGE, x.depth + 1);
    assert y == c.Entry(kid);
    q.Enqueue(y);
    EntriesAppend(c, hist, kid);
    c.KnownPush(hist, done - 1, j);
    assert hist'[done..] == hist[done..] + [kid];
    LoadAppend(s, hist[done..], kid);
    OwedStep(kids, KidLoad(s, n));
  }

  lemma ScannedMore(c: Search, hist: seq<Node>, hist': seq<Node>, n: Node, start: nat, i: nat)
    requires start < c.s && Scanned(c, hist, n, start, i) && hist <= hist'
    requires var j := Round(c.s, start, i);
             && j < |c.bs[c.End(n)]| && !c.bs[c.End(n)][j].Empty?
             && (|n.slots| < MAX_DEPTH ==> Kid(n, j) in hist')
    ensures Scanned(c, hist', n, start, i + 1)
  {
    hide Round, Search.End;
    assert forall m: Node | m in hist :: m in hist';
  }

  // One round of a scan: whether slot `j` is free, and if not, its child queued.
  method ScanSlot(q: BQueue, hp: nat, s: nat, u: Bucket, x: BSlot, j: nat,
                  ghost c: Search, ghost hist: seq<Node>, ghost done: nat, ghost kids: nat)
    returns (free: bool, ghost hist': seq<Node>)
    requires 0 < done <= |hist| && c.s == s && c.hp == hp && kids > 0 && j < s
    requires Searching(c, q, hist, done, kids, KidLoad(s, hist[done - 1])) && c.Known(hist, done - 1)
    requires x == c.Entry(hist[done - 1]) && x.bucket < |c.bs| && u == c.bs[x.bucket] && NoMoved(u)
    modifies q, q.cells
    ensures free <==> u[j].Empty?
    ensures hist <= hist' && c.Known(hist', done - 1)
    ensures !free ==> Searching(c, q, hist', done, kids - 1, KidLoad(s, hist[done - 1]))
    ensures !free && |hist[done - 1].slots| < MAX_DEPTH ==> Kid(hist[done - 1], j) in hist'
  {
    hide AltIndex, Search.End, Search.Known, Load, Entries, Owed, Packed, Tree;
    hist', free := hist, u[j].Empty?;
    if !free {
      if x.depth < MAX_DEPTH {
        hist' := PushKid(q, hp, s, u, x, j, c, hist, done, kids);
      } else {
        OwedStep(kids, 0);
      }
    }
  }

  /** Looks through bucket `u` of the node just taken from the queue: a free slot, or -1 after
      queueing a child for every slot. */
  method ScanBucket(q: BQueue, hp: nat, s: nat, u: Bucket, x: BSlot,
                    ghost c: Search, ghost hist0: seq<Node>, ghost done: nat)
    returns (slot: int, ghost hist: seq<Node>)
    requires 0 < done <= |hist0| && c.s == s && c.hp == hp
    requires Searching(c, q, hist0, done, s, KidLoad(s, hist0[done - 1])) && c.Known(hist0, done - 1)
    requires x == c.Entry(hist0[done - 1]) && x.bucket < |c.bs| && u == c.bs[x.bucket] && NoMoved(u)
    modifies q, q.cells
    ensures slot == -1 ==> Searching(c, q, hist, done, 0, 0) && c.Known(hist, done)
    ensures slot != -1 ==> 0 <= slot < s && u[slot].Empty?
  {
    hide AltIndex, Search.End, Search.Known, Load, Entries, Owed, Packed, Tree, Round, Scanned, KidLoad;
    ghost var n := hist0[done - 1];
    ghost var load := KidLoad(s, n);
    hist := hist0;
    var start := x.pathcode % s;
    NothingScanned(c, hist, n, start);
    var i := 0;
    while i < s
      invariant 0 <= i <= s && hist0 <= hist
      invariant Searching(c, q, hist, done, s - i, load) && c.Known(hist, done - 1)
      invariant Scanned(c, hist, n, start, i)
    {
      var j := Round(s, start, i);
      ghost var before := hist;
      var free;
      free, hist := ScanSlot(q, hp, s, u, x, j, c, hist, done, s - i);
      if free {
        return j, hist;
      }
      ScannedMore(c, before, hist, n, start, i);
      i := i + 1;
    }
    ScannedAll(c, hist, n, start);
    c.KnownNext(hist, done - 1);
    OwedZero(load);
    OwedZero(0);
    slot := -1;
  }

  lemma NothingScanned(c: Search, hist: seq<Node>, n: Node, start: nat)
    requires start < c.s && c.End(n) < |c.bs|
    ensures Scanned(c, hist, n, start, 0)
  {
  }

  // Taking a node out of the queue trades its own load for that of its children.
  lemma DequeueLoad(s: nat, hist: seq<Node>, done: nat)
    requires done < |hist| && |hist[done].slots| <= MAX_DEPTH
    ensures Load(s, hist[done..]) == 1 + Load(s, hist[done + 1..]) + Owed(s, KidLoad(s, hist[done]))
  {
    assert hist[done..][1..] == hist[done + 1..];
    if |hist[done].slots| == MAX_DEPTH {
      assert s * 0 == 0;
    }
  }

  // One round of the search: takes a node, reads its bucket under its lock and scans it.
  method SearchNode(m: CuckooMap, locked: bool, q: BQueue, ghost c: Search, ghost hist: seq<Node>, ghost done: nat)
    returns (x: BSlot, slot: int, ghost hist': seq<Node>)
    requires m.Valid() && (locked ==> m.AllMigrated())
    requires c == Search(m.env.slots, m.buckets.hashpower, m.View(), c.i1, c.i2)
    requires Searching(c, q, hist, done, 0, 0) && c.Known(hist, done) && done < |hist|
    modifies m`allLocks, m`remaining, m.buckets`data, m.prev`data, q, q.cells
    ensures m.Valid() && m.State() == old(m.State()) && (locked ==> m.AllMigrated())
    ensures x == c.Entry(hist[done])
    ensures slot == -1 ==> Searching(c, q, hist', done + 1, 0, 0) && c.Known(hist', done + 1)
    ensures slot != -1 ==> 0 <= slot < c.s && c.FreeAt(c.End(hist[done]), slot)
  {
    hide TableOk, Doubling.View, Unmigrated, CountsOf, Search.End, Search.Known, Load, Packed, Entries, KidLoad, Owed,
      Tree;
    x := NextNode(q, c, hist, done);
    var u := m.LockAndRead(x.bucket, locked);
    slot, hist' := ScanBucket(q, m.buckets.hashpower, m.env.slots, u, x, c, hist, done + 1);
  }

  /** Breadth-first search from buckets `i1` and `i2`. A result of depth -1 means that every bucket
      within MAX_BFS_PATH_LEN - 1 evictions is full; any other result is a shortest eviction path. */
  method SlotSearch(m: CuckooMap, locked: bool, i1: nat, i2: nat)
    returns (x: BSlot, ghost bit: nat, ghost slots: seq<nat>)
    requires m.Valid() && i1 < |m.Cur()| && i2 < |m.Cur()| && (locked ==> m.AllMigrated())
    modifies m`allLocks, m`remaining, m.buckets`data, m.prev`data
    ensures m.Valid() && m.State() == old(m.State()) && (locked ==> m.AllMigrated())
    ensures var c := Search(m.env.slots, m.buckets.hashpower, m.View(), i1, i2);
            if x.depth == -1 then c.FullWithin(MAX_DEPTH + 1)
            else c.IsPath(bit, slots) && |slots| == x.depth + 1 && x.pathcode == Packed(c.s, bit, slots)
  {
    hide TableOk, Doubling.View, Unmigrated, CountsOf, Search.End, Search.Known, Search.IsPath, Search.FreeAt,
      Search.FullWithin, Load, Packed, Entries, Owed, Tree;
    ghost var c := Search(m.env.slots, m.buckets.hashpower, m.View(), i1, i2);
    bit, slots := 0, [];
    m.ViewWellFormed();
    ghost var hist, done := [Node(0, []), Node(1, [])], 0;
    var q := StartQueue(m.env.slots, i1, i2, c);
    while q.first != q.last
      invariant m.Valid() && m.State() == old(m.State()) && (locked ==> m.AllMigrated())
      invariant Searching(c, q, hist, done, 0, 0) && c.Known(hist, done)
      invariant fresh(q) && fresh(q.cells)
      decreases q.cells.Length - q.first
    {
      ghost var hist0 := hist;
      var slot;
      x, slot, hist := SearchNode(m, locked, q, c, hist, done);
      if slot != -1 {
        bit, slots := hist0[done].bit, hist0[done].slots + [slot];
        Found(c, hist0, done, slot);
        x := x.(pathcode := (x.pathcode * m.env.slots + slot) % CODE_RANGE);
        return;
      }
      done := done + 1;
    }
    c.KnownIsFull(hist, done, MAX_DEPTH + 1);
    x := BSlot(0, 0, -1);
  }

  method StartQueue(s: nat, i1: nat, i2: nat, ghost c: Search) returns (q: BQueue)
    requires c.Ok() && s == c.s && i1 == c.i1 && i2 == c.i2
    ensures fresh(q) && fresh(q.cells)
    ensures var hist := [Node(0, []), Node(1, [])]; Searching(c, q, hist, 0, 0, 0) && c.Known(hist, 0)
  {
    hide Load, MaxCuckooCount, Tree;
    ghost var hist := [Node(0, []), Node(1, [])];
    StartSearch(c, hist);
    QueueIsTwoTrees(s);
    q := new BQueue(s);
    q.Enqueue(BSlot(i1, 0, 0));
    q.Enqueue(BSlot(i2, 1, 0));
    assert hist[0..] == hist;
  }

  method NextNode(q: BQueue, ghost c: Search, ghost hist: seq<Node>, ghost done: nat) returns (x: BSlot)
    requires Searching(c, q, hist, done, 0, 0) && c.Known(hist, done) && done < |hist|
    modifies q`first
    ensures x == c.Entry(hist[done]) && x.bucket < |c.bs|
    ensures Searching(c, q, hist, done + 1, c.s, KidLoad(c.s, hist[done]))
  {
    hide Search.End, Load, KidLoad, Packed;
    c.EndInRange(hist[done]);
    DequeueLoad(c.s, hist, done);
    assert Entries(c, hist)[done] == c.Entry(hist[done]);
    assert q.cells[..q.last][done] == q.cells[done];
    x := q.Dequeue();
  }

  lemma Found(c: Search, hist: seq<Node>, done: nat, slot: nat)
    requires c.Ok() && c.Known(hist, done) && done < |hist| && slot < c.s
    requires c.FreeAt(c.End(hist[done]), slot)
    ensures var n := hist[done];
            && c.IsPath(n.bit, n.slots + [slot])
            && Packed(c.s, n.bit, n.slots + [slot]) == (Packed(c.s, n.bit, n.slots) * c.s + slot) % CODE_RANGE
  {
    hide Search.End, Search.Expanded;
    var n := hist[done];
    assert (n.slots + [slot])[..|n.slots|] == n.slots;
    c.KnownIsFull(hist, done, |n.slots|);
  }

  lemma StartSearch(c: Search, hist: seq<Node>)
    requires c.Ok() && hist == [Node(0, []), Node(1, [])]
    ensures c.Known(hist, 0) && Load(c.s, hist) == MaxCuckooCount(c.s)
    ensures Entries(c, hist) == [BSlot(c.i1, 0, 0), BSlot(c.i2, 1, 0)]
  {
    StartLoad(c.s, hist);
    assert Entries(c, hist)[0] == BSlot(c.i1, 0, 0) && Entries(c, hist)[1] == BSlot(c.i2, 1, 0);
  }

  lemma StartLoad(s: nat, hist: seq<Node>)
    requires s >= 1 && hist == [Node(0, []), Node(1, [])]
    ensures Load(s, hist) == MaxCuckooCount(s)
  {
    hide Tree, MaxCuckooCount;
    QueueIsTwoTrees(s);
    LoadAppend(s, [Node(0, [])], Node(1, []));
    LoadAppend(s, [], Node(0, []));
    assert [] + [Node(0, [])] == [Node(0, [])];
    assert hist == [Node(0, [])] + [Node(1, [])];
  }
}
