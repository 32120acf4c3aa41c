/** Filling a table of given size entry by entry: it ends with all entries stored, or stuck on the way. */
module Filling {
  import opened Hashing
  import opened Bits
  import opened Layout
  import opened Eviction
  import opened PathMove
  import opened Resize

  // The search for room for `k`.
  ghost function Walks(env: Env, hp: nat, bs: Buckets, k: Key): Search {
    Search(env.slots, hp, bs, env.I1(hp, k), env.I2(hp, k))
  }

  // The walk goes through slot (b, j) at step `x`.
  ghost predicate Passes(w: Search, n: Node, x: nat, b: nat, j: nat) {
    x < |n.slots| && w.End(Node(n.bit, n.slots[..x])) == b && n.slots[x] == j
  }

  // A walk that goes through neither of two slots ends where it did after these have changed.
  lemma {:induction false} Unaffected(w: Search, w': Search, n: Node, b: nat, j: nat, b': nat, j': nat)
    requires w.Ok() && w' == w.(bs := w'.bs) && |w'.bs| == |w.bs|
    requires forall c | 0 <= c < |w.bs| :: |w'.bs[c]| == |w.bs[c]|
    requires forall c, i | 0 <= c < |w.bs| && 0 <= i < |w.bs[c]| && (c, i) != (b, j) && (c, i) != (b', j') ::
               w'.bs[c][i] == w.bs[c][i]
    requires forall x: nat :: !Passes(w, n, x, b, j) && !Passes(w, n, x, b', j')
    ensures w'.End(n) == w.End(n)
    decreases |n.slots|
  {
    if |n.slots| > 0 {
      var y := |n.slots| - 1;
      var m := Node(n.bit, n.slots[..y]);
      forall x: nat
        ensures !Passes(w, m, x, b, j) && !Passes(w, m, x, b', j')
      {
        if x < y {
          assert m.slots[..x] == n.slots[..x];
          assert !Passes(w, n, x, b, j) && !Passes(w, n, x, b', j');
        }
      }
      Unaffected(w, w', m, b, j, b', j');
      assert !Passes(w, n, y, b, j) && !Passes(w, n, y, b', j');
    }
  }

  /** Wherever a walk reaches a bucket with a free slot, evictions along it free a slot in a candidate bucket
      of the key. */
  lemma {:induction false} MakesRoom(env: Env, hp: nat, bs: Buckets, k: Key, n: Node)
    returns (bs': Buckets, b: nat, j: nat)
    requires WellFormed(env, hp, bs) && env.slots >= 1
    requires var e := Walks(env, hp, bs, k).End(n); e < |bs| && !Full(bs[e])
    ensures WellFormed(env, hp, bs') && Contents(bs') == Contents(bs)
    ensures env.Home(hp, k, b) && b < |bs'| && j < |bs'[b]| && bs'[b][j].Empty?
    decreases |n.slots|
  {
    hide Contents, AltIndex, Env.I1, Env.I2, WellFormed, Search.End;
    var w := Walks(env, hp, bs, k);
    WalkOk(env, hp, bs, k);
    var e := w.End(n);
    var f: nat :| f < |bs[e]| && bs[e][f].Empty?;
    if |n.slots| == 0 {
      assert e == (if n.bit == 0 then w.i1 else w.i2) by { WalkStarts(w, n); }
      bs', b, j := bs, e, f;
    } else {
      var y := |n.slots| - 1;
      var m, i := Node(n.bit, n.slots[..y]), n.slots[y];
      var c := w.End(m);
      w.EndInRange(m);
      w.EndStep(n.bit, m.slots, i);
      assert m.slots + [i] == n.slots && Node(n.bit, n.slots) == n;
      if !Full(bs[c]) {
        bs', b, j := MakesRoom(env, hp, bs, k, m);
      } else if x: nat :| Passes(w, m, x, c, i) {
        w.EndStep(m.bit, m.slots[..x], i);
        assert m.slots[..x] + [i] == m.slots[..x + 1];
        bs', b, j := MakesRoom(env, hp, bs, k, Node(m.bit, m.slots[..x + 1]));
      } else if x: nat :| Passes(w, m, x, e, f) {
        bs', b, j := MakesRoom(env, hp, bs, k, Node(m.bit, m.slots[..x]));
      } else {
        FullStep(env, hp, bs, k, c, i);
        DisplaceEntry(env, hp, bs, c, i, e, f);
        var bs1 := Displace(bs, c, i, e, f);
        Unaffected(w, w.(bs := bs1), m, c, i, e, f);
        bs', b, j := MakesRoom(env, hp, bs1, k, m);
      }
    }
  }

  lemma WalkStarts(w: Search, n: Node)
    requires |n.slots| == 0
    ensures w.End(n) == if n.bit == 0 then w.i1 else w.i2
  {
  }

  // Evicting from a full bucket goes on to another one, if the bucket it leads to has room.
  lemma FullStep(env: Env, hp: nat, bs: Buckets, k: Key, c: nat, i: nat)
    requires WellFormed(env, hp, bs) && c < |bs| && Full(bs[c])
    requires var e := Walks(env, hp, bs, k).Step(c, i); e < |bs| && !Full(bs[e])
    ensures LiveAt(bs, c, i) && Walks(env, hp, bs, k).Step(c, i) == AltIndex(hp, bs[c][i].partial, c)
  {
    hide AltIndex, Env.I1, Env.I2, Unique, Placed;
    assert NoMoved(bs[c]);
  }

  /** An absent key that is not stuck can be added without changing the size. */
  lemma Adds(env: Env, hp: nat, bs: Buckets, k: Key, v: Value) returns (bs': Buckets)
    requires WellFormed(env, hp, bs) && env.slots >= 1 && k !in Contents(bs) && !Stuck(env, hp, bs, k)
    ensures WellFormed(env, hp, bs') && Contents(bs') == Contents(bs)[k := v]
  {
    hide Contents, WellFormed, Env.I1, Env.I2, Search.End;
    var w := Walks(env, hp, bs, k);
    var n: Node :| w.Admits(n) && |n.slots| < MAX_PATH_LEN && !w.FullAt(n);
    WalkOk(env, hp, bs, k);
    w.EndInRange(n);
    var bs1, b, j := MakesRoom(env, hp, bs, k, n);
    AddEntry(env, hp, bs1, b, j, k, v);
    bs' := Put(bs1, b, j, Live(k, v, env.Partial(k)));
  }

  lemma WalkOk(env: Env, hp: nat, bs: Buckets, k: Key)
    requires WellFormed(env, hp, bs) && env.slots >= 1
    ensures Walks(env, hp, bs, k).Ok()
  {
  }

  /** Filling goes on until everything is stored or the next entry does not fit. */
  lemma {:induction false} Fill(env: Env, hp: nat, m: map<Key, Value>, bs: Buckets) returns (r: Buckets)
    requires WellFormed(env, hp, bs) && env.slots >= 1 && Submap(Contents(bs), m)
    ensures WellFormed(env, hp, r) && Submap(Contents(r), m)
    ensures Contents(r) == m || Cramps(env, m, hp)
    decreases |m.Keys - Contents(bs).Keys|
  {
    hide Contents, WellFormed, Stuck, Submap;
    if m.Keys <= Contents(bs).Keys {
      r := bs;
      WholeSubmap(Contents(r), m);
    } else {
      var k :| k in m.Keys && k !in Contents(bs).Keys;
      if Stuck(env, hp, bs, k) {
        r := bs;
        assert Crammed(env, m, hp, bs, k);
      } else {
        var bs1 := Adds(env, hp, bs, k, m[k]);
        LargerSubmap(Contents(bs), m, k);
        r := Fill(env, hp, m, bs1);
      }
    }
  }

  lemma WholeSubmap(a: map<Key, Value>, m: map<Key, Value>)
    requires Submap(a, m) && m.Keys <= a.Keys
    ensures a == m
  {
  }

  lemma LargerSubmap(a: map<Key, Value>, m: map<Key, Value>, k: Key)
    requires Submap(a, m) && k in m && k !in a
    ensures Submap(a[k := m[k]], m) && |m.Keys - a[k := m[k]].Keys| < |m.Keys - a.Keys|
  {
    assert m.Keys - a[k := m[k]].Keys == (m.Keys - a.Keys) - {k};
  }

  /** Every set of entries can be stored at a given size, or may turn out not to fit. */
  lemma FitsOrCramps(env: Env, hp: nat, m: map<Key, Value>) returns (bs: Buckets)
    requires env.slots >= 1
    ensures (WellFormed(env, hp, bs) && Contents(bs) == m) || Cramps(env, m, hp)
  {
    hide Contents, WellFormed, BlankBuckets;
    BlankContents(env, hp);
    bs := Fill(env, hp, m, BlankBuckets(Pow2(hp), env.slots));
  }
}
