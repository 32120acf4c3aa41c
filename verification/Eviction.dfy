/**
 Eviction paths as walks in a fixed array of buckets, and what breadth-first search knows about
 them: the order of its queue, which buckets it has found full, and why the queue cannot overflow.
 */
module Eviction {
  import opened Hashing
  import opened Bits
  import opened Layout
  import opened PathCode

  // One less than MAX_BFS_PATH_LEN.
  const MAX_DEPTH: nat := 4

  // A walk: which of the two starting buckets, and the slots evicted on the way.
  datatype Node = Node(bit: nat, slots: seq<nat>)

  datatype BSlot = BSlot(bucket: nat, pathcode: nat, depth: int)

  function Kid(n: Node, j: nat): Node {
    Node(n.bit, n.slots + [j])
  }

  /** A search: the buckets, the hash power, and the two buckets it starts from. */
  datatype Search = Search(s: nat, hp: nat, bs: Buckets, i1: nat, i2: nat) {

    predicate Ok() {
      && s >= 1 && |bs| == Pow2(hp) && i1 < |bs| && i2 < |bs|
      && (forall b | 0 <= b < |bs| :: |bs[b]| == s)
    }

    // The bucket the entry in slot `j` of bucket `b` would be evicted to.
    function Step(b: nat, j: nat): nat {
      if b < |bs| && j < |bs[b]| && bs[b][j].Live? then AltIndex(hp, bs[b][j].partial, b) else b
    }

    function End(n: Node): (b: nat)
      decreases |n.slots|
    {
      if |n.slots| == 0 then (if n.bit == 0 then i1 else i2)
      else Step(End(Node(n.bit, n.slots[..|n.slots| - 1])), n.slots[|n.slots| - 1])
    }

    lemma {:induction false} EndInRange(n: Node)
      requires Ok()
      ensures End(n) < |bs|
      decreases |n.slots|
    {
      if |n.slots| > 0 {
        var b := End(Node(n.bit, n.slots[..|n.slots| - 1]));
        EndInRange(Node(n.bit, n.slots[..|n.slots| - 1]));
        var j := n.slots[|n.slots| - 1];
        if j < |bs[b]| && bs[b][j].Live? {
          AltBound(hp, bs[b][j].partial, b);
        }
      }
    }

    predicate Admits(n: Node) {
      n.bit < 2 && |n.slots| <= MAX_DEPTH && Digits(s, n.slots)
    }

    ghost predicate FullAt(n: Node) {
      End(n) < |bs| && Full(bs[End(n)])
    }

    // What the queue stores for a node.
    function Entry(n: Node): BSlot {
      BSlot(End(n), Packed(s, n.bit, n.slots), |n.slots|)
    }

    // Every bucket within `d` evictions of a starting bucket is full.
    ghost predicate FullWithin(d: nat) {
      forall n: Node {:trigger FullAt(n)} :: Admits(n) && |n.slots| < d ==> FullAt(n)
    }

    predicate FreeAt(b: nat, j: nat) {
      b < |bs| && j < |bs[b]| && bs[b][j].Empty?
    }

    lemma IsFull(n: Node, d: nat)
      requires FullWithin(d) && Admits(n) && |n.slots| < d
      ensures FullAt(n)
    {
    }

    /** An eviction path: all its buckets but the last are full, the last has a free slot, and no
        shorter walk reaches a bucket with a free slot. */
    ghost predicate IsPath(bit: nat, slots: seq<nat>) {
      && bit < 2 && 1 <= |slots| <= MAX_DEPTH + 1 && Digits(s, slots)
      && FreeAt(End(Node(bit, slots[..|slots| - 1])), slots[|slots| - 1])
      && FullWithin(|slots| - 1)
    }

    lemma EndStep(bit: nat, slots: seq<nat>, j: nat)
      ensures End(Node(bit, slots + [j])) == Step(End(Node(bit, slots)), j)
    {
      assert (slots + [j])[..|slots|] == slots;
    }

    // Cutting a loop out of a walk does not change where it ends.
    lemma {:induction false} Splice(bit: nat, slots: seq<nat>, i: nat, j: nat)
      requires i <= j <= |slots| && End(Node(bit, slots[..i])) == End(Node(bit, slots[..j]))
      ensures End(Node(bit, slots[..i] + slots[j..])) == End(Node(bit, slots))
      decreases |slots|
    {
      hide Search.Step, Search.End;
      if j == |slots| {
        assert slots[..j] == slots && slots[..i] + slots[j..] == slots[..i];
      } else {
        var n := |slots| - 1;
        var short := slots[..n];
        assert short[..i] == slots[..i] && short[..j] == slots[..j];
        Splice(bit, short, i, j);
        EndStep(bit, short, slots[n]);
        EndStep(bit, short[..i] + short[j..], slots[n]);
        assert short + [slots[n]] == slots;
        assert short[..i] + short[j..] + [slots[n]] == slots[..i] + slots[j..];
      }
    }

    /** The buckets of an eviction path are pairwise distinct. */
    lemma PathIsSimple(bit: nat, slots: seq<nat>, i: nat, j: nat)
      requires IsPath(bit, slots) && i < j < |slots|
      ensures End(Node(bit, slots[..i])) != End(Node(bit, slots[..j]))
    {
      hide Search.End, Search.FullWithin;
      var n := |slots| - 1;
      var walk := slots[..n];
      if End(Node(bit, slots[..i])) == End(Node(bit, slots[..j])) {
        assert walk[..i] == slots[..i] && walk[..j] == slots[..j];
        Splice(bit, walk, i, j);
        CutIsShorter(walk, i, j);
        IsFull(Node(bit, walk[..i] + walk[j..]), n);
      }
    }

    lemma CutIsShorter(walk: seq<nat>, i: nat, j: nat)
      requires i < j <= |walk| && Digits(s, walk)
      ensures var cut := walk[..i] + walk[j..]; |cut| < |walk| && Digits(s, cut)
    {
    }

    // What the search knows after expanding the first `done` of the nodes it has queued.
    ghost predicate Known(hist: seq<Node>, done: nat) {
      && done <= |hist| && |hist| >= 2 && hist[0] == Node(0, []) && hist[1] == Node(1, [])
      && (forall i | 0 <= i < |hist| :: Admits(hist[i]))
      && (forall i, j | 0 <= i <= j < |hist| :: |hist[i].slots| <= |hist[j].slots|)
      && (forall i | 0 <= i < done :: Expanded(hist, hist[i]))
      && (done < |hist| ==> |hist[|hist| - 1].slots| <= |hist[done].slots| + 1)
    }

    ghost predicate Expanded(hist: seq<Node>, n: Node) {
      FullAt(n) && (|n.slots| < MAX_DEPTH ==> forall j: nat {:trigger Kid(n, j)} | j < s :: Kid(n, j) in hist)
    }

    lemma KnownPush(hist: seq<Node>, done: nat, j: nat)
      requires Known(hist, done) && done < |hist| && |hist[done].slots| < MAX_DEPTH && j < s
      ensures Known(hist + [Kid(hist[done], j)], done)
    {
      var hist' := hist + [Kid(hist[done], j)];
      forall i | 0 <= i < done
        ensures Expanded(hist', hist'[i])
      {
        assert Expanded(hist, hist[i]);
      }
    }

    lemma KnownNext(hist: seq<Node>, done: nat)
      requires Known(hist, done) && done < |hist| && Expanded(hist, hist[done])
      ensures Known(hist, done + 1)
    {
    }

    // Every walk shorter than the next node to expand has been expanded.
    lemma {:induction false} Reached(hist: seq<Node>, done: nat, n: Node) returns (i: nat)
      requires Known(hist, done) && Admits(n)
      requires done == |hist| || |n.slots| < |hist[done].slots|
      ensures i < done && hist[i] == n
      decreases |n.slots|
    {
      if |n.slots| == 0 {
        i := n.bit;
      } else {
        var last := |n.slots| - 1;
        var p := Node(n.bit, n.slots[..last]);
        var k := Reached(hist, done, p);
        assert Expanded(hist, hist[k]);
        assert n == Kid(p, n.slots[last]) by { assert n.slots == n.slots[..last] + [n.slots[last]]; }
        i :| 0 <= i < |hist| && hist[i] == n;
      }
    }

    lemma KnownIsFull(hist: seq<Node>, done: nat, d: nat)
      requires Known(hist, done) && (done < |hist| ==> d <= |hist[done].slots|)
      ensures FullWithin(d)
    {
      forall n: Node | Admits(n) && |n.slots| < d
        ensures FullAt(n)
      {
        var i := Reached(hist, done, n);
        assert Expanded(hist, hist[i]);
      }
    }
  }

  // Nodes in a full search tree with `r` more levels below its root.
  function Tree(s: nat, r: nat): (n: nat)
    ensures n >= 1
  {
    if r == 0 then 1 else 1 + s * Tree(s, r - 1)
  }

  // MAX_CUCKOO_COUNT.
  function MaxCuckooCount(s: nat): int
    requires s >= 1
  {
    2 * if s == 1 then MAX_DEPTH + 1 else (Pow(s, MAX_DEPTH + 1) - 1) / (s - 1)
  }

  lemma GeometricStep(s: int, t: int, p: int)
    requires t * (s - 1) == p - 1
    ensures (1 + s * t) * (s - 1) == s * p - 1
  {
    var q := s - 1;
    assert (s * t) * q == s * (t * q);
    assert (1 + s * t) * q == q + (s * t) * q;
    assert s * (p - 1) == s * p - s;
  }

  lemma {:induction false} TreeIsGeometric(s: nat, r: nat)
    requires s >= 1
    ensures Tree(s, r) * (s - 1) == Pow(s, r + 1) - 1
    ensures s == 1 ==> Tree(s, r) == r + 1
  {
    if r > 0 {
      TreeIsGeometric(s, r - 1);
      GeometricStep(s, Tree(s, r - 1), Pow(s, r));
    } else {
      assert Pow(s, 1) == s;
    }
  }

  lemma QueueIsTwoTrees(s: nat)
    requires s >= 1
    ensures MaxCuckooCount(s) == 2 * Tree(s, MAX_DEPTH)
  {
    TreeIsGeometric(s, MAX_DEPTH);
    if s > 1 {
      DivModUnique(Pow(s, MAX_DEPTH + 1) - 1, s - 1, Tree(s, MAX_DEPTH), 0);
    }
  }

  // How many nodes the pending ones can still account for, themselves included.
  function Load(s: nat, q: seq<Node>): nat {
    if |q| == 0 then 0 else Tree(s, Rest(q[0])) + Load(s, q[1..])
  }

  // Levels left below a node.
  function Rest(n: Node): nat {
    if |n.slots| <= MAX_DEPTH then MAX_DEPTH - |n.slots| else 0
  }

  // What each child of a node still to be queued accounts for.
  function KidLoad(s: nat, n: Node): nat {
    if |n.slots| < MAX_DEPTH then Tree(s, Rest(n) - 1) else 0
  }

  lemma {:induction false} LoadAppend(s: nat, q: seq<Node>, n: Node)
    ensures Load(s, q + [n]) == Load(s, q) + Tree(s, Rest(n))
  {
    if |q| == 0 {
      assert q + [n] == [n];
    } else {
      LoadAppend(s, q[1..], n);
      assert (q + [n])[1..] == q[1..] + [n];
    }
  }

  lemma {:induction false} LoadBounds(s: nat, q: seq<Node>)
    ensures |q| <= Load(s, q)
  {
    if |q| > 0 {
      LoadBounds(s, q[1..]);
    }
  }
}
