/**
 A small table is not safe to grow by insertions alone either. Thread 0 clears the table and has released
 every lock it knows of. Before it looks for further lock containers, thread 1 inserts keys of one hash
 until no path can make room, doubles the table and appends a container, whose locks thread 0 then
 releases. No call asks for a resize, and every thread reads the true hash power.
 */
module Overrun {
  import opened Hashing
  import opened Bits
  import opened Layout
  import opened Doubling
  import opened CuckooTable
  import opened PathMove
  import opened Resize
  import opened MapSpec
  import opened Protocol
  import opened Safety
  import opened Steps
  import opened Work
  import opened Whole
  import opened Runs
  import opened Growth
  import Crowding

  // Thread 0 has yet to look for further containers, and thread 1 is at `p`; nothing is left to migrate.
  ghost predicate Waits(env: Env, s: State, h: nat, lim: Limits, keys: set<Key>, p: PC) {
    && Inv(env, s) && s.sh.hp == h && s.sh.prev == None && |s.sh.locks| == Pow2(h)
    && Limits(s.sh.minLoad, s.sh.maxHp) == lim && Contents(s.sh.cur).Keys == keys
    && s.pc == map[0 := Dropping(true, 0, [], [], Done(ClearCmd, Finished)), 1 := p]
  }

  lemma WaitsFacts(env: Env, s: State, h: nat, lim: Limits, keys: set<Key>, p: PC)
    requires Waits(env, s, h, lim, keys, p)
    ensures s.sh.later == [] && LockRow(s.sh, 0) == s.sh.holder && |s.sh.holder| == |s.sh.locks| > 0
    ensures Covered(env, h, s.sh.locks) && WellFormed(env, h, s.sh.cur) && |s.sh.cur| == Pow2(h)
    ensures Wired(s.sh) && Map(env, s.sh) == Contents(s.sh.cur) && Sum(CountsOf(s.sh.locks)) == |Contents(s.sh.cur)|
    ensures forall l | 0 <= l < |s.sh.locks| :: s.sh.locks[l].migrated
  {
    hide FlagsAt, ThreadsOk, Contents, WellFormed, Doubling.View;
    OneContainer(env, s);
    DataWired(env, s.sh);
    UnmigratedZero(s.sh.locks);
    ViewSettled(env, h, s.sh.cur, None);
  }

  // A thread without locks leaves all locks free.
  lemma AllFree(env: Env, s: State, h: nat, lim: Limits, keys: set<Key>, p: PC)
    requires Waits(env, s, h, lim, keys, p) && Held(env, p) == []
    ensures Unlocked(LockRow(s.sh, 0))
  {
    hide FlagsAt, ThreadsOk, CounterOk, DataOk;
    assert forall t | t in s.pc :: Held(env, s.pc[t]) == [];
  }

  lemma InvKept(env: Env, rule: Rule, s: State, schedule: seq<Step>, s': State)
    requires Inv(env, s) && Leads(env, rule, s, schedule, s') && s'.sh.later == []
    ensures Inv(env, s')
  {
    hide Inv, Exec, Trip;
    TripIsExec(env, rule, s, schedule);
    InvAlways(env, s, schedule);
  }

  // Thread 1 has moved on, and at most locks have changed hands.
  lemma MovesOn(env: Env, s: State, h: nat, lim: Limits, keys: set<Key>, p: PC, schedule: seq<Step>, p': PC,
                sh': Shared)
    requires Waits(env, s, h, lim, keys, p) && OnlyLocks(s.sh, sh', 0)
    requires Leads(env, NoResize, s, schedule, MoveWith(s, 1, p', sh'))
    ensures Waits(env, MoveWith(s, 1, p', sh'), h, lim, keys, p')
  {
    hide Inv, Leads, LockRow, Contents, WellFormed, Covered, Map, CountsOf;
    WaitsFacts(env, s, h, lim, keys, p);
    SameLater(s.sh, sh', 0);
    InvKept(env, NoResize, s, schedule, MoveWith(s, 1, p', sh'));
  }

  // One quiet step of thread 1.
  lemma StepsOn(env: Env, s: State, h: nat, lim: Limits, keys: set<Key>, p: PC, c: Choice, p': PC)
    requires Waits(env, s, h, lim, keys, p)
    requires Do(env, s, 1, c).Some? && Do(env, s, 1, c).value.0 == Move(s, 1, p')
    requires Admits(env, NoResize, s, 1, c, Move(s, 1, p'))
    ensures Leads(env, NoResize, s, [Step(1, c)], Move(s, 1, p')) && Waits(env, Move(s, 1, p'), h, lim, keys, p')
  {
    hide Do, Inv, Leads, LockRow;
    Begin(env, NoResize, s, 1, c);
    SameLocks(s.sh, 0);
    MovesOn(env, s, h, lim, keys, p, [Step(1, c)], p', s.sh);
  }

  // Thread 1 enters the critical section of a key.
  lemma Enters(env: Env, s: State, h: nat, lim: Limits, keys: set<Key>, op: Op)
    returns (schedule: seq<Step>, s': State)
    requires Waits(env, s, h, lim, keys, Idle)
    ensures Leads(env, NoResize, s, schedule, s') && s'.sh.cur == s.sh.cur
    ensures Waits(env, s', h, lim, keys, Working(h, 0, Pair(S1(env, h, op), S2(env, h, op)), OnKey(op)))
  {
    hide Inv, Leads, LockRow, Pair, S1, S2, OnlyLocks, Covered, WellFormed, Contents, Unlocked;
    WaitsFacts(env, s, h, lim, keys, Idle);
    AllFree(env, s, h, lim, keys, Idle);
    var a, sh1 := EnterRun(env, NoResize, s, 1, op);
    SameLater(s.sh, sh1, 0);
    var p := Working(h, 0, Pair(S1(env, h, op), S2(env, h, op)), OnKey(op));
    MovesOn(env, s, h, lim, keys, Idle, a, p, sh1);
    schedule, s' := a, MoveWith(s, 1, p, sh1);
  }

  // Thread 1 lets go of its locks.
  lemma LetsGo(env: Env, s: State, h: nat, lim: Limits, keys: set<Key>, rest: seq<nat>, cont: PC)
    returns (schedule: seq<Step>, s': State)
    requires Waits(env, s, h, lim, keys, Drop(0, rest, cont))
    ensures Leads(env, NoResize, s, schedule, s') && s'.sh.cur == s.sh.cur
    ensures Waits(env, s', h, lim, keys, cont)
  {
    hide Leads, LockRow, OnlyLocks, DataOk, FlagsAt, ThreadsOk, CounterOk;
    WaitsFacts(env, s, h, lim, keys, Drop(0, rest, cont));
    forall i | 0 <= i < |rest|
      ensures rest[i] < |LockRow(s.sh, 0)|
    {
      assert rest[i] in Held(env, s.pc[1]);
    }
    var a, sh1 := ReleaseRun(env, NoResize, s, 1);
    SameLater(s.sh, sh1, 0);
    MovesOn(env, s, h, lim, keys, Drop(0, rest, cont), a, Drop(0, [], cont), sh1);
    var s1 := MoveWith(s, 1, Drop(0, [], cont), sh1);
    StepsOn(env, s1, h, lim, keys, Drop(0, [], cont), Go, cont);
    schedule, s' := a + [Step(1, Go)], Move(s1, 1, cont);
    Then(env, NoResize, s, a, s1, [Step(1, Go)], s');
  }

  // What the step that adds an absent key does.
  lemma AddStep(env: Env, s: State, t: Tid, op: Op)
    requires t in s.pc && s.pc[t].Working? && s.pc[t].goal == OnKey(op) && op.UpraseOp? && Sized(env, s.sh)
    requires Find(env, s.sh, op.key).None? && Room(env, s.sh, op.key).Some?
    ensures var p, r := s.pc[t], Room(env, s.sh, op.key).value;
            var sh' := AddSlot(env, s.sh, r.index, r.slot, op.key, op.val);
            && Do(env, s, t, Go) == Finish(s, t, sh', p.c, KeyStripes(env, p.hp, op), op, Inserted)
            && sh' == s.sh.(cur := sh'.cur, locks := sh'.locks) && |sh'.locks| == |s.sh.locks|
  {
    hide Find, KeyStripes, Put;
    CountedFacts(s.sh.locks, env.LockInd(Room(env, s.sh, op.key).value.index), 1);
  }

  lemma AddedKey(op: Op, m: map<Key, Value>, m': map<Key, Value>)
    requires op.UpraseOp? && op.key !in m && Does(op, m, m', Inserted)
    ensures m'.Keys == m.Keys + {op.key}
  {
    DoesIsAfter(op, m, m', Inserted);
  }

  // The insertion of an absent key into a bucket with room.
  lemma Adds(env: Env, s: State, h: nat, lim: Limits, keys: set<Key>, op: Op) returns (s': State)
    requires Waits(env, s, h, lim, keys, Working(h, 0, Pair(S1(env, h, op), S2(env, h, op)), OnKey(op)))
    requires op.UpraseOp? && op.key !in keys && |s.sh.cur| == Pow2(h) && Room(env, s.sh, op.key).Some?
    ensures Leads(env, NoResize, s, [Step(1, Go)], s')
    ensures Waits(env, s', h, lim, keys + {op.key},
                  Drop(0, KeyStripes(env, h, op), Done(KeyCmd(op), Answered(Inserted))))
  {
    hide Inv, Leads, Do, Find, Room, AddSlot, KeyStripes, Pair, S1, S2, Contents, Sized, Map, Covered, WellFormed,
      CountsOf, Does, InBounds, LockRow;
    var p := s.pc[1];
    WaitsFacts(env, s, h, lim, keys, p);
    NotThere(env, s, 1, op);
    AddStep(env, s, 1, op);
    s' := Do(env, s, 1, Go).value.0;
    Begin(env, NoResize, s, 1, Go);
    StepOk(env, s, 1, Go);
    AddedKey(op, Map(env, s.sh), Map(env, s'.sh));
    MapIsCur(env, s'.sh);
  }

  // A thread in the critical section of an absent key does not find it.
  lemma NotThere(env: Env, s: State, t: Tid, op: Op)
    requires Inv(env, s) && t in s.pc && s.pc[t].Working? && s.pc[t].goal == OnKey(op)
    requires Wired(s.sh) && op.key !in Map(env, s.sh)
    ensures Sized(env, s.sh) && Find(env, s.sh, op.key).None?
  {
    hide LocksOk, DataOk, FlagsAt, ThreadsOk, CounterOk, Find, Map, Sized;
    AtKeyWhenWorking(env, s, t);
    FindIs(env, s, op);
  }

  lemma MapIsCur(env: Env, sh: Shared)
    requires sh.prev == None
    ensures Map(env, sh) == Contents(sh.cur)
  {
    hide Contents;
    assert View(env, sh.hp, sh.cur, None) == sh.cur;
  }

  // A whole insertion of an absent key, with room for it.
  lemma Inserts(env: Env, s: State, h: nat, lim: Limits, keys: set<Key>, op: Op)
    returns (schedule: seq<Step>, s': State)
    requires Waits(env, s, h, lim, keys, Idle) && |s.sh.cur| == Pow2(h)
    requires op.UpraseOp? && op.key !in keys && Room(env, s.sh, op.key).Some?
    ensures Leads(env, NoResize, s, schedule, s') && Waits(env, s', h, lim, keys + {op.key}, Idle)
  {
    hide Waits, Leads, Do, Room, KeyStripes, Pair, S1, S2;
    var a, s1 := Enters(env, s, h, lim, keys, op);
    SameRoom(env, s, s1, h, lim, keys, Working(h, 0, Pair(S1(env, h, op), S2(env, h, op)), OnKey(op)), op);
    var s2 := Adds(env, s1, h, lim, keys, op);
    Then(env, NoResize, s, a, s1, [Step(1, Go)], s2);
    var done, more := Done(KeyCmd(op), Answered(Inserted)), keys + {op.key};
    var b, s3 := LetsGo(env, s2, h, lim, more, KeyStripes(env, h, op), done);
    Then(env, NoResize, s, a + [Step(1, Go)], s2, b, s3);
    Returns(env, s3, h, lim, more, KeyCmd(op), Answered(Inserted));
    schedule, s' := a + [Step(1, Go)] + b + [Step(1, Go)], Move(s3, 1, Idle);
    Then(env, NoResize, s, a + [Step(1, Go)] + b, s3, [Step(1, Go)], s');
  }

  lemma SameRoom(env: Env, s: State, s1: State, h: nat, lim: Limits, keys: set<Key>, p: PC, op: Op)
    requires Waits(env, s, h, lim, keys, Idle) && Waits(env, s1, h, lim, keys, p)
    requires s1.sh.cur == s.sh.cur && |s.sh.cur| == Pow2(h)
    ensures Room(env, s1.sh, op.key) == Room(env, s.sh, op.key)
  {
    hide Inv, Contents;
  }

  lemma Returns(env: Env, s: State, h: nat, lim: Limits, keys: set<Key>, cmd: Cmd, out: Outcome)
    requires Waits(env, s, h, lim, keys, Done(cmd, out))
    ensures Leads(env, NoResize, s, [Step(1, Go)], Move(s, 1, Idle)) && Waits(env, Move(s, 1, Idle), h, lim, keys, Idle)
  {
    hide Inv, Leads, Contents;
    StepsOn(env, s, h, lim, keys, Done(cmd, out), Go, Idle);
  }

  // A full bucket of a well-formed table has as many keys as slots.
  lemma {:induction false} FullKeys(u: Bucket)
    requires (forall j | 0 <= j < |u| :: u[j].Live?) && forall i, j | 0 <= i < j < |u| :: u[i].key != u[j].key
    ensures |BucketKeys(u)| == |u|
  {
    if |u| == 0 {
      assert BucketKeys(u) == {};
    } else {
      var n := |u| - 1;
      FullKeys(u[..n]);
      assert BucketKeys(u) == BucketKeys(u[..n]) + {u[n].key};
      assert u[n].key !in BucketKeys(u[..n]);
    }
  }

  /** As long as the table holds fewer keys than fit into the key's two buckets, one of them has room. */
  lemma RoomLeft(env: Env, sh: Shared, k: Key)
    requires WellFormed(env, sh.hp, sh.cur) && |sh.cur| == Pow2(sh.hp) && |Contents(sh.cur).Keys| < 2 * env.slots
    requires env.I1(sh.hp, k) != env.I2(sh.hp, k)
    ensures Room(env, sh, k).Some?
  {
    hide Contents, Env.I1, Env.I2;
    var bs, i1, i2 := sh.cur, env.I1(sh.hp, k), env.I2(sh.hp, k);
    if Full(bs[i1]) && Full(bs[i2]) {
      FullBucket(env, sh.hp, bs, i1);
      FullBucket(env, sh.hp, bs, i2);
      var a, b := BucketKeys(bs[i1]), BucketKeys(bs[i2]);
      assert a !! b by { Disjoint(bs, i1, i2); }
      assert |a + b| == |a| + |b|;
      Subset(a + b, Contents(bs).Keys);
    }
  }

  lemma Subset(a: set<Key>, b: set<Key>)
    requires a <= b
    ensures |a| <= |b|
  {
    assert a + (b - a) == b;
  }

  lemma Disjoint(bs: Buckets, i: nat, j: nat)
    requires Unique(bs) && i < |bs| && j < |bs| && i != j
    ensures BucketKeys(bs[i]) !! BucketKeys(bs[j])
  {
    forall x | x in BucketKeys(bs[i]) && x in BucketKeys(bs[j])
      ensures false
    {
      var m :| 0 <= m < |bs[i]| && bs[i][m].Live? && bs[i][m].key == x;
      var n :| 0 <= n < |bs[j]| && bs[j][n].Live? && bs[j][n].key == x;
      assert LiveAt(bs, i, m) && LiveAt(bs, j, n);
    }
  }

  lemma FullBucket(env: Env, hp: nat, bs: Buckets, b: nat)
    requires WellFormed(env, hp, bs) && b < |bs| && Full(bs[b])
    ensures |BucketKeys(bs[b])| == env.slots && BucketKeys(bs[b]) <= Contents(bs).Keys
  {
    hide Contents, Placed;
    ContentsRepresents(bs);
    assert NoMoved(bs[b]);
    forall i, j | 0 <= i < j < |bs[b]|
      ensures bs[b][i].key != bs[b][j].key
    {
      assert LiveAt(bs, b, i) && LiveAt(bs, b, j);
    }
    assert forall j | 0 <= j < |bs[b]| :: LiveAt(bs, b, j);
    FullKeys(bs[b]);
  }

  // Inserting keys of one hash, as many as its two buckets hold.
  lemma {:induction false} Fills(env: Env, s: State, h: nat, lim: Limits, keys: set<Key>, todo: set<Key>, op: Op)
    returns (schedule: seq<Step>, s': State)
    requires Waits(env, s, h, lim, keys, Idle) && keys !! todo && op.UpraseOp?
    requires |keys| + |todo| <= 2 * env.slots && env.I1(h, op.key) != env.I2(h, op.key)
    requires forall x | x in todo :: env.hash(x) == env.hash(op.key)
    ensures Leads(env, NoResize, s, schedule, s') && Waits(env, s', h, lim, keys + todo, Idle)
    decreases |todo|
  {
    hide Inv, Leads, Room, Contents, WellFormed, Env.I1, Env.I2, Covered, CountsOf, Map;
    if todo == {} {
      schedule, s' := [], s;
      assert keys + todo == keys;
      Stays(env, s);
    } else {
      var x :| x in todo;
      WaitsFacts(env, s, h, lim, keys, Idle);
      Crowding.SameHomes(env, h, x, op.key);
      RoomLeft(env, s.sh, x);
      var a, s1 := Inserts(env, s, h, lim, keys, UpraseOp(x, op.g, op.val));
      var b, s2 := Fills(env, s1, h, lim, keys + {x}, todo - {x}, op);
      assert keys + {x} + (todo - {x}) == keys + todo;
      Then(env, NoResize, s, a, s1, b, s2);
      schedule, s' := a + b, s2;
    }
  }

  lemma Stays(env: Env, s: State)
    ensures Leads(env, NoResize, s, [], s)
  {
  }

  // An insertion that finds no room goes on to search for a path.
  lemma Blocked(env: Env, s: State, h: nat, lim: Limits, keys: set<Key>, op: Op)
    requires Waits(env, s, h, lim, keys, Working(h, 0, Pair(S1(env, h, op), S2(env, h, op)), OnKey(op)))
    requires op.UpraseOp? && op.key !in keys && Stuck(env, h, s.sh.cur, op.key)
    ensures var p := Drop(0, KeyStripes(env, h, op), Searching(op, h));
            Leads(env, NoResize, s, [Step(1, Go)], Move(s, 1, p)) && Waits(env, Move(s, 1, p), h, lim, keys, p)
  {
    hide Inv, Leads, Find, KeyStripes, Pair, S1, S2, Contents, Sized, Map, Covered, WellFormed, CountsOf,
      Stuck, Env.I1, Env.I2, FreeSlot;
    var p := s.pc[1];
    WaitsFacts(env, s, h, lim, keys, p);
    NotThere(env, s, 1, op);
    StuckIsFull(env, h, s.sh.cur, op.key);
    assert Room(env, s.sh, op.key).None?;
    StepsOn(env, s, h, lim, keys, p, Go, Drop(0, KeyStripes(env, h, op), Searching(op, h)));
  }

  // The search gives up, and the insertion goes for all locks.
  lemma GivesUp(env: Env, s: State, h: nat, lim: Limits, keys: set<Key>, op: Op)
    returns (schedule: seq<Step>, s': State)
    requires Waits(env, s, h, lim, keys, Searching(op, h)) && Stuck(env, h, s.sh.cur, op.key)
    ensures Leads(env, NoResize, s, schedule, s')
    ensures Waits(env, s', h, lim, keys, Working(h, 0, Everything(|s.sh.locks|), Double(op, h)))
  {
    hide Inv, Leads, Contents, Map, Covered, WellFormed, CountsOf, Stuck, Everything, LockRow, Unlocked;
    var g, n := Double(op, h), |s.sh.locks|;
    WaitsFacts(env, s, h, lim, keys, Searching(op, h));
    StepsOn(env, s, h, lim, keys, Searching(op, h), GiveUp, Locating(h, g));
    var s1 := Move(s, 1, Locating(h, g));
    var p2 := Taking(h, 0, 0, Everything(n), 0, g);
    StepsOn(env, s1, h, lim, keys, Locating(h, g), Go, p2);
    var s2 := Move(s1, 1, p2);
    Then(env, NoResize, s, [Step(1, GiveUp)], s1, [Step(1, Go)], s2);
    var b, s3 := TakesAll(env, s2, h, lim, keys, g);
    schedule, s' := [Step(1, GiveUp)] + [Step(1, Go)] + b, s3;
    Then(env, NoResize, s, [Step(1, GiveUp)] + [Step(1, Go)], s2, b, s3);
  }

  lemma TakesAll(env: Env, s: State, h: nat, lim: Limits, keys: set<Key>, g: Goal)
    returns (schedule: seq<Step>, s': State)
    requires Waits(env, s, h, lim, keys, Taking(h, 0, 0, Everything(|s.sh.locks|), 0, g)) && Global(g)
    ensures Leads(env, NoResize, s, schedule, s')
    ensures Waits(env, s', h, lim, keys, Working(h, 0, Everything(|s.sh.locks|), g))
  {
    hide Inv, Leads, Contents, Map, Covered, WellFormed, CountsOf, Everything, LockRow, OnlyLocks;
    var p := Taking(h, 0, 0, Everything(|s.sh.locks|), 0, g);
    WaitsFacts(env, s, h, lim, keys, p);
    AllFree(env, s, h, lim, keys, p);
    var a, sh1 := SweepRun(env, NoResize, s, 1, |s.sh.locks|);
    MovesOn(env, s, h, lim, keys, p, a, Working(h, 0, p.want, g), sh1);
    schedule, s' := a, MoveWith(s, 1, Working(h, 0, p.want, g), sh1);
  }

  // Doubling a small table appends a container.
  lemma DoubledGrows(env: Env, sh: Shared, t: Tid)
    requires sh.later == [] && sh.prev == None && |sh.locks| == Pow2(sh.hp) < env.Stripes()
    requires Covered(env, sh.hp, sh.locks)
    ensures var w := DoubledTable(env, sh, t);
            && w.hp == sh.hp + 1 && |w.later| == 1 && LockRow(w, 0) == sh.holder && |LockRow(w, 1)| == |w.locks|
            && Covered(env, w.hp, w.locks) && forall l | 0 <= l < |w.locks| :: w.locks[l].migrated
  {
    hide Doubled, Doubling.View, Covered, Grown, MarkAll;
    var locks := Grown(env, sh.locks, Pow2(sh.hp + 1));
    GrowsOnce(env, sh.hp, sh.locks);
    GrownOk(env, sh.hp, sh.locks, sh.hp + 1);
    CoveredMarked(env, sh.hp + 1, locks);
  }

  lemma CoveredMarked(env: Env, hp: nat, locks: Locks)
    requires Covered(env, hp, locks)
    ensures Covered(env, hp, MarkAll(locks)) && |MarkAll(locks)| == |locks|
    ensures forall l | 0 <= l < |locks| :: MarkAll(locks)[l].migrated
  {
  }

  // The doubling itself.
  lemma Doubles(env: Env, s: State, h: nat, lim: Limits, keys: set<Key>, op: Op, want: seq<nat>)
    requires Waits(env, s, h, lim, keys, Working(h, 0, want, Double(op, h))) && Pow2(h) < env.Stripes()
    requires (lim.maxHp.Some? ==> h < lim.maxHp.value) && env.slots >= 1
    requires LoadFactor(|keys|, h, env.slots) >= lim.minLoad
    ensures Leads(env, NoResize, s, [Step(1, Go)],
                  MoveWith(s, 1, DropAll(s.sh, 0, Snapshot(op)), DoubledTable(env, s.sh, 1)))
  {
    hide Inv, Leads, Contents, Map, Covered, WellFormed, DoubledTable, DropAll, LoadFactor, CountsOf;
    WaitsFacts(env, s, h, lim, keys, s.pc[1]);
    assert |Contents(s.sh.cur)| == |Contents(s.sh.cur).Keys|;
    Begin(env, NoResize, s, 1, Go);
  }

  // From an idle thread to a doubled table, with thread 0 still where it was.
  lemma Grows(env: Env, s: State, h: nat, lim: Limits, keys: set<Key>, op: Op)
    returns (schedule: seq<Step>, s': State)
    requires Waits(env, s, h, lim, keys, Idle) && Pow2(h) < env.Stripes() && env.slots >= 1
    requires (lim.maxHp.Some? ==> h < lim.maxHp.value) && LoadFactor(|keys|, h, env.slots) >= lim.minLoad
    requires op.UpraseOp? && Crowding.Crowd(env, op.key, keys) && op.key !in keys
    ensures Leads(env, NoResize, s, schedule, s') && |s'.sh.later| == 1 && Covered(env, s'.sh.hp, s'.sh.locks)
    ensures |LockRow(s'.sh, 1)| == |s'.sh.locks| && forall l | 0 <= l < |s'.sh.locks| :: s'.sh.locks[l].migrated
    ensures s'.pc == map[0 := Dropping(true, 0, [], [], Done(ClearCmd, Finished)),
                         1 := Dropping(true, 0, Everything(|LockRow(s'.sh, 0)|), [], Snapshot(op))]
  {
    hide Inv, Leads, Contents, Map, Covered, WellFormed, DoubledTable, LoadFactor, CountsOf, Everything, Pair, S1, S2,
      KeyStripes, Stuck, LockRow;
    WaitsFacts(env, s, h, lim, keys, Idle);
    Crowding.NeverRoom(env, h, s.sh.cur, op.key, keys);
    var a, s1 := Enters(env, s, h, lim, keys, op);
    Blocked(env, s1, h, lim, keys, op);
    var p2 := Drop(0, KeyStripes(env, h, op), Searching(op, h));
    var s2 := Move(s1, 1, p2);
    Then(env, NoResize, s, a, s1, [Step(1, Go)], s2);
    var b, s3 := LetsGo(env, s2, h, lim, keys, KeyStripes(env, h, op), Searching(op, h));
    Then(env, NoResize, s, a + [Step(1, Go)], s2, b, s3);
    var c, s4 := GivesUp(env, s3, h, lim, keys, op);
    Then(env, NoResize, s, a + [Step(1, Go)] + b, s3, c, s4);
    Doubles(env, s4, h, lim, keys, op, s4.pc[1].want);
    WaitsFacts(env, s4, h, lim, keys, s4.pc[1]);
    DoubledGrows(env, s4.sh, 1);
    schedule := a + [Step(1, Go)] + b + c + [Step(1, Go)];
    s' := MoveWith(s4, 1, DropAll(s4.sh, 0, Snapshot(op)), DoubledTable(env, s4.sh, 1));
    Then(env, NoResize, s, a + [Step(1, Go)] + b + c, s4, [Step(1, Go)], s');
  }

  // Thread 0 clears the empty table.
  lemma Clears(env: Env, h: nat, lim: Limits) returns (schedule: seq<Step>, s': State)
    requires env.Valid() && Pow2(h) < env.Stripes()
    ensures Leads(env, NoResize, Init(env, h, 2, lim.minLoad, lim.maxHp), schedule, s')
    ensures Waits(env, s', h, lim, {}, Idle)
  {
    hide Inv, Leads, Contents, Unlocked, LockRow, BlankBuckets;
    var s := Init(env, h, 2, lim.minLoad, lim.maxHp);
    InitStill(env, h, lim.minLoad, lim.maxHp);
    InitOk(env, h, 2, lim.minLoad, lim.maxHp);
    var a, sh1 := ClearRun(env, NoResize, s, 0);
    schedule, s' := a, MoveWith(s, 0, Dropping(true, 0, [], [], Done(ClearCmd, Finished)), sh1);
    InvKept(env, NoResize, s, a, s');
    BlankContents(env, h);
  }

  /** If enough keys share the key's hash, and their load allows for doubling, a table created with fewer
      buckets than there can be locks has a run without any call for a resize that lets two threads into
      the critical section of the key. */
  lemma OverrunByInserts(env: Env, h: nat, op: Op, keys: set<Key>, lim: Limits) returns (schedule: seq<Step>)
    requires env.Valid() && Pow2(h) < env.Stripes() && (lim.maxHp.Some? ==> h < lim.maxHp.value)
    requires op.UpraseOp? && Crowding.Crowd(env, op.key, keys) && op.key !in keys
    requires env.I1(h, op.key) != env.I2(h, op.key) && LoadFactor(2 * env.slots, h, env.slots) >= lim.minLoad
    ensures var r := Trip(env, NoResize, Init(env, h, 2, lim.minLoad, lim.maxHp), schedule);
            r.Some? && BothIn(env, r.value, op) && Collide(env, r.value)
  {
    hide Inv, Contents, Map, Covered, WellFormed, LoadFactor, Everything, Init, LockRow, Unlocked, BothIn, Collide,
      Trip, Env.I1, Env.I2, LocksFrom;
    var s := Init(env, h, 2, lim.minLoad, lim.maxHp);
    var a, s1 := Clears(env, h, lim);
    var b, s2 := Fills(env, s1, h, lim, {}, keys, op);
    assert {} + keys == keys;
    Then(env, NoResize, s, a, s1, b, s2);
    var c, s3 := Grows(env, s2, h, lim, keys, op);
    Then(env, NoResize, s, a + b, s2, c, s3);
    var d, sh4 := OverrunRun(env, NoResize, s3, 0, ClearCmd, Finished);
    LocksKeepHp(s3.sh, sh4, 1);
    var s4 := MoveWith(s3, 0, Idle, sh4);
    Then(env, NoResize, s, a + b + c, s3, d, s4);
    var e, s5 := BothEnterAgain(env, NoResize, s4, op, Snapshot(op));
    Then(env, NoResize, s, a + b + c + d, s4, e, s5);
    schedule := a + b + c + d + e;
    BothInCollide(env, s5, op);
  }

  /** Where such keys exist, the condition for mutual exclusion without calls for a resize is the same as
      with them. */
  lemma OverrunExact(env: Env, h: nat, op: Op, keys: set<Key>, lim: Limits)
    requires env.Valid() && (lim.maxHp.Some? ==> h < lim.maxHp.value)
    requires op.UpraseOp? && Crowding.Crowd(env, op.key, keys) && op.key !in keys
    requires env.I1(h, op.key) != env.I2(h, op.key) && LoadFactor(2 * env.slots, h, env.slots) >= lim.minLoad
    ensures var s := Init(env, h, 2, lim.minLoad, lim.maxHp);
            env.Stripes() <= Pow2(h) <==>
            forall schedule: seq<Step> | Trip(env, NoResize, s, schedule).Some? ::
              !Collide(env, Trip(env, NoResize, s, schedule).value)
  {
    hide Init, Exec, Collide, BothIn, Trip, Steady, LoadFactor, Env.I1, Env.I2, Crowding.Crowd;
    var s := Init(env, h, 2, lim.minLoad, lim.maxHp);
    if env.Stripes() <= Pow2(h) {
      forall schedule: seq<Step> | Trip(env, NoResize, s, schedule).Some?
        ensures !Collide(env, Trip(env, NoResize, s, schedule).value)
      {
        TripIsExec(env, NoResize, s, schedule);
        NoCollision(env, h, 2, lim.minLoad, lim.maxHp, schedule);
      }
    } else {
      var schedule := OverrunByInserts(env, h, op, keys, lim);
    }
  }
}
