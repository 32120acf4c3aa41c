/**
 A thread that is left alone gets its insertion done: it finds an eviction path whenever there is one,
 and nothing it has done before or that others have left unfinished keeps it from following the path.
 */
module Solo {
  import opened Hashing
  import opened Bits
  import opened Layout
  import opened Doubling
  import opened Eviction
  import opened CuckooTable
  import opened PathMove
  import opened Filling
  import opened MapSpec
  import opened Protocol
  import opened Safety
  import opened Steps
  import opened Work
  import opened Whole
  import opened Verdicts
  import opened Runs
  import opened Guarantees
  import opened Growth

  // The schedule leads from `s` to `s'` by steps of thread `t` only.
  ghost predicate Alone(env: Env, s: State, t: Tid, schedule: seq<Step>, s': State) {
    Leads(env, Anything, s, schedule, s') && forall i | 0 <= i < |schedule| :: schedule[i].t == t
  }

  lemma AloneOnce(env: Env, s: State, t: Tid, c: Choice)
    requires Do(env, s, t, c).Some?
    ensures Alone(env, s, t, [Step(t, c)], Do(env, s, t, c).value.0)
  {
    hide Do, Leads;
    Begin(env, Anything, s, t, c);
  }

  lemma AloneThen(env: Env, s: State, t: Tid, a: seq<Step>, s1: State, b: seq<Step>, s2: State)
    requires Alone(env, s, t, a, s1) && Alone(env, s1, t, b, s2)
    ensures Alone(env, s, t, a + b, s2)
  {
    hide Leads;
    Then(env, Anything, s, a, s1, b, s2);
  }

  lemma AloneNever(env: Env, s: State, t: Tid)
    ensures Alone(env, s, t, [], s)
  {
  }

  // Thread `t` is at `p`, and nobody else holds a lock.
  ghost predicate Calm(env: Env, s: State, t: Tid, p: PC) {
    && Inv(env, s) && t in s.pc && s.pc[t] == p
    && forall u | u in s.pc && u != t :: Held(env, s.pc[u]) == []
  }

  // The table stands for the same array as before.
  ghost predicate SameArray(env: Env, sh: Shared, sh': Shared) {
    && Wired(sh) && Wired(sh') && sh'.hp == sh.hp && |sh'.locks| == |sh.locks|
    && Array(env, sh') == Array(env, sh)
  }

  lemma SameArrayTwice(env: Env, a: Shared, b: Shared, c: Shared)
    requires SameArray(env, a, b) && SameArray(env, b, c)
    ensures SameArray(env, a, c)
  {
    hide Array;
  }

  // A step of the thread that does not append a lock container.
  lemma CalmStep(env: Env, s: State, t: Tid, p: PC, c: Choice)
    requires Calm(env, s, t, p) && Do(env, s, t, c).Some?
    requires p.Working? ==> !p.goal.Double? && !p.goal.Rebuild?
    ensures var s' := Do(env, s, t, c).value.0; t in s'.pc && Calm(env, s', t, s'.pc[t])
  {
    hide Inv, Do, Held, NextPhase, PhaseOf, Sound;
    InvData(env, s);
    StepGrows(env, s, t, c);
    StepPhase(env, s, t, c);
    StepOk(env, s, t, c);
  }

  // On the way from looking up the locks to the critical section.
  predicate Approaching(p: PC, hp: nat) {
    match p
    case Locating(h, g) => h == hp && !Global(g)
    case Taking(h, _, _, _, _, g) => h == hp && !Global(g)
    case Checking(h, _, _, g) => h == hp && !Global(g)
    case Migrating(h, _, _, _, _, g) => h == hp && !Global(g)
    case Counting(h, _, _, _, g) => h == hp && !Global(g)
    case Freeing(h, _, _, _, g) => h == hp && !Global(g)
    case _ => false
  }

  // How far there is to go.
  datatype Distance = Distance(leg: nat, left: nat, part: nat, buckets: nat)

  function Far(sh: Shared, p: PC): Distance {
    match p
    case Locating(_, _) => Distance(4, 0, 0, 0)
    case Taking(_, _, _, want, got, _) =>
      if got == 0 then Distance(3, 0, 0, 0) else Distance(1, Minus(|want|, got), 0, 0)
    case Checking(_, _, _, _) => Distance(2, 0, 0, 0)
    case Migrating(_, _, want, at, next, _) =>
      if next.None? then Distance(0, Minus(|want|, at), 3, 0)
      else Distance(0, Minus(|want|, at), 2, if sh.prev.Some? then Minus(|sh.prev.value|, next.value) else 0)
    case Counting(_, _, want, at, _) => Distance(0, Minus(|want|, at), 1, 0)
    case Freeing(_, _, want, at, _) => Distance(0, Minus(|want|, at), 0, 0)
    case _ => Distance(0, 0, 0, 0)
  }

  function Minus(a: nat, b: nat): nat {
    if b <= a then a - b else 0
  }

  predicate Nearer(a: Distance, b: Distance) {
    || a.leg < b.leg
    || (a.leg == b.leg && (|| a.left < b.left
                           || (a.left == b.left && (a.part < b.part || (a.part == b.part && a.buckets < b.buckets)))))
  }

  // What one step of the approach comes to.
  ghost predicate Advances(env: Env, s: State, t: Tid, o: Outcomes)
    requires t in s.pc && Approaching(s.pc[t], s.sh.hp)
  {
    && o.Some? && t in o.value.0.pc && o.value.0.sh.hp == s.sh.hp
    && var p, p', sh' := s.pc[t], o.value.0.pc[t], o.value.0.sh;
       && (Approaching(p', s.sh.hp) || (p'.Working? && p'.hp == s.sh.hp))
       && p'.goal == p.goal
       && (Approaching(p', s.sh.hp) ==> Nearer(Far(sh', p'), Far(s.sh, p)))
  }

  // Nobody is in the way.
  lemma NotBlocked(env: Env, s: State, t: Tid, p: PC)
    requires Calm(env, s, t, p)
    ensures !Blocked(s, p)
  {
    hide DataOk, FlagsAt, CounterOk, AimOk, Want;
    assert PcOk(env, s.sh, p);
    if p.Taking? && p.want[p.got] < |s.sh.holder| {
      forall u | u in s.pc
        ensures s.sh.holder[p.want[p.got]] != Some(u)
      {
        assert p.want[p.got] !in Held(env, s.pc[u]);
      }
    }
  }

  lemma LockAdvances(env: Env, s: State, t: Tid, p: PC)
    requires Calm(env, s, t, p) && Approaching(p, s.sh.hp) && (p.Locating? || p.Taking? || p.Checking?)
    ensures Advances(env, s, t, Do(env, s, t, Go)) && SameArray(env, s.sh, Do(env, s, t, Go).value.0.sh)
  {
    hide LocksOk, DataOk, FlagsAt, CounterOk, AimOk, Want, SameArray, Array, Held, Covers;
    assert PcOk(env, s.sh, p);
    OneContainer(env, s);
    InvData(env, s);
    NotBlocked(env, s, t, p);
    LadderStarts(env, s.sh, p);
    SameData(env, s.sh, Do(env, s, t, Go).value.0.sh);
  }

  lemma LadderStarts(env: Env, sh: Shared, p: PC)
    requires PcOk(env, sh, p)
    ensures p.Taking? ==> p.got < |p.want| && p.want[p.got] < |sh.locks|
    ensures p.Checking? ==> |p.want| > 0
  {
    hide AimOk, Want;
  }

  // Locks, flags and counters are not part of the array.
  lemma SameData(env: Env, sh: Shared, sh': Shared)
    requires Wired(sh) && sh'.hp == sh.hp && sh'.cur == sh.cur && sh'.prev == sh.prev && |sh'.locks| == |sh.locks|
    ensures SameArray(env, sh, sh')
  {
  }

  lemma MigrateAdvances(env: Env, s: State, t: Tid, p: PC)
    requires Calm(env, s, t, p) && p.Migrating? && Approaching(p, s.sh.hp)
    ensures Advances(env, s, t, Do(env, s, t, Go)) && SameArray(env, s.sh, Do(env, s, t, Go).value.0.sh)
  {
    hide LocksOk, DataOk, FlagsAt, CounterOk, GoalOk, SameArray, Held, BucketMoved, Marked, Env.LockInd, Map, Array;
    assert PcOk(env, s.sh, p);
    InvData(env, s);
    LockingEnabled(env, s, t);
    if p.next.Some? && s.sh.prev.Some? && p.next.value < |s.sh.prev.value| {
      MovedArray(env, s.sh, p.next.value);
    } else {
      SameData(env, s.sh, Do(env, s, t, Go).value.0.sh);
    }
  }

  lemma MovedArray(env: Env, sh: Shared, ind: nat)
    requires DataOk(env, sh) && Wired(sh) && sh.prev.Some? && ind < |sh.prev.value|
    ensures var sh' := BucketMoved(env, sh, ind);
            SameArray(env, sh, sh') && sh'.hp == sh.hp && sh'.prev.Some? && |sh'.prev.value| == |sh.prev.value|
  {
    hide DataOk, Array, Map, MoveBucketCur, Vacate;
    MovedData(env, sh, ind);
  }

  lemma CountAdvances(env: Env, s: State, t: Tid, p: PC)
    requires Calm(env, s, t, p) && (p.Counting? || p.Freeing?) && Approaching(p, s.sh.hp)
    ensures Advances(env, s, t, Do(env, s, t, Go)) && SameArray(env, s.sh, Do(env, s, t, Go).value.0.sh)
  {
    hide LocksOk, DataOk, FlagsAt, GoalOk, SameArray, Held, Map, Array, Unmigrated;
    assert PcOk(env, s.sh, p);
    InvData(env, s);
    if p.Freeing? {
      UnmigratedZero(s.sh.locks);
      ReleasedArray(env, s);
    } else {
      SameData(env, s.sh, Do(env, s, t, Go).value.0.sh);
    }
  }

  lemma ReleasedArray(env: Env, s: State)
    requires DataOk(env, s.sh) && FlagsAt(env, s)
    requires forall l | 0 <= l < |s.sh.locks| :: s.sh.locks[l].migrated
    ensures SameArray(env, s.sh, s.sh.(prev := None))
  {
    hide DataOk, Array, Map, FlagsAt;
    ReleasedData(env, s);
  }

  lemma ApproachStep(env: Env, s: State, t: Tid, p: PC)
    requires Calm(env, s, t, p) && Approaching(p, s.sh.hp)
    ensures Advances(env, s, t, Do(env, s, t, Go)) && SameArray(env, s.sh, Do(env, s, t, Go).value.0.sh)
    ensures var s' := Do(env, s, t, Go).value.0; Calm(env, s', t, s'.pc[t])
  {
    hide Calm, Do, Advances, SameArray;
    CalmAt(env, s, t, p);
    if p.Migrating? {
      MigrateAdvances(env, s, t, p);
    } else if p.Counting? || p.Freeing? {
      CountAdvances(env, s, t, p);
    } else {
      LockAdvances(env, s, t, p);
    }
    AdvancesSome(env, s, t);
    CalmStep(env, s, t, p, Go);
  }

  lemma CalmAt(env: Env, s: State, t: Tid, p: PC)
    requires Calm(env, s, t, p)
    ensures t in s.pc && s.pc[t] == p
  {
  }

  lemma AdvancesSome(env: Env, s: State, t: Tid)
    requires t in s.pc && Approaching(s.pc[t], s.sh.hp) && Advances(env, s, t, Do(env, s, t, Go))
    ensures Do(env, s, t, Go).Some?
  {
    hide Do;
  }

  /** Alone, a thread gets from looking up its locks to its critical section, whatever is left to migrate. */
  lemma {:induction false} ApproachRun(env: Env, s: State, t: Tid, p: PC)
    returns (schedule: seq<Step>, s': State, w: PC)
    requires Calm(env, s, t, p) && Approaching(p, s.sh.hp)
    ensures Alone(env, s, t, schedule, s') && Calm(env, s', t, w) && SameArray(env, s.sh, s'.sh)
    ensures w.Working? && w.hp == s.sh.hp && w.goal == p.goal
    decreases Far(s.sh, p).leg, Far(s.sh, p).left, Far(s.sh, p).part, Far(s.sh, p).buckets
  {
    hide Calm, Do, Alone, SameArray, Far;
    CalmAt(env, s, t, p);
    ApproachStep(env, s, t, p);
    AloneOnce(env, s, t, Go);
    var s1 := Do(env, s, t, Go).value.0;
    if s1.pc[t].Working? {
      schedule, s', w := [Step(t, Go)], s1, s1.pc[t];
    } else {
      var rest;
      rest, s', w := ApproachRun(env, s1, t, s1.pc[t]);
      schedule := [Step(t, Go)] + rest;
      AloneThen(env, s, t, [Step(t, Go)], s1, rest, s');
      SameArrayTwice(env, s.sh, s1.sh, s'.sh);
    }
  }

  // A step that changes no data.
  ghost predicate Idles(env: Env, s: State, t: Tid, c: Choice, p': PC) {
    && Do(env, s, t, c).Some?
    && var s' := Do(env, s, t, c).value.0;
       Calm(env, s', t, p') && SameArray(env, s.sh, s'.sh) && s'.sh.locks == s.sh.locks
  }

  lemma IdleStep(env: Env, s: State, t: Tid, p: PC, c: Choice, p': PC)
    requires Calm(env, s, t, p) && Do(env, s, t, c).Some? && (p.Working? ==> !p.goal.Double? && !p.goal.Rebuild?)
    requires var s' := Do(env, s, t, c).value.0;
             && t in s'.pc && s'.pc[t] == p' && s'.sh.hp == s.sh.hp && s'.sh.cur == s.sh.cur
             && s'.sh.prev == s.sh.prev && s'.sh.locks == s.sh.locks
    ensures Idles(env, s, t, c, p')
  {
    hide Inv, Do, Held, SameArray;
    InvData(env, s);
    CalmStep(env, s, t, p, c);
    SameData(env, s.sh, Do(env, s, t, c).value.0.sh);
  }

  lemma DropOnce(env: Env, s: State, t: Tid, rest: seq<nat>, keep: seq<nat>, cont: PC)
    requires Calm(env, s, t, Dropping(false, 0, rest, keep, cont))
    ensures Idles(env, s, t, Go, if |rest| > 0 then Dropping(false, 0, rest[1..], keep, cont) else cont)
  {
    hide Inv, SetHolder, Held, Idles;
    HolderIsNotData(s.sh, 0, if |rest| > 0 then rest[0] else 0, None);
    IdleStep(env, s, t, s.pc[t], Go, Do(env, s, t, Go).value.0.pc[t]);
  }

  // Letting go of some locks.
  lemma {:induction false} DropRun(env: Env, s: State, t: Tid, rest: seq<nat>, keep: seq<nat>, cont: PC)
    returns (schedule: seq<Step>, s': State)
    requires Calm(env, s, t, Dropping(false, 0, rest, keep, cont))
    ensures Alone(env, s, t, schedule, s') && Calm(env, s', t, cont) && SameArray(env, s.sh, s'.sh)
    ensures s'.sh.locks == s.sh.locks
    decreases |rest|
  {
    hide Calm, Do, Alone, SameArray;
    DropOnce(env, s, t, rest, keep, cont);
    AloneOnce(env, s, t, Go);
    var s1 := Do(env, s, t, Go).value.0;
    if |rest| == 0 {
      schedule, s' := [Step(t, Go)], s1;
    } else {
      var more;
      more, s' := DropRun(env, s1, t, rest[1..], keep, cont);
      schedule := [Step(t, Go)] + more;
      AloneThen(env, s, t, [Step(t, Go)], s1, more, s');
      SameArrayTwice(env, s.sh, s1.sh, s'.sh);
    }
  }

  lemma HolderIsNotData(sh: Shared, c: nat, l: nat, h: Option<Tid>)
    ensures var sh' := SetHolder(sh, c, l, h);
            sh'.hp == sh.hp && sh'.cur == sh.cur && sh'.prev == sh.prev && sh'.locks == sh.locks
  {
  }

  // The array allows for following the path from record `d` on.
  ghost predicate Follows(env: Env, sh: Shared, path: seq<CuckooRecord>, d: nat) {
    Wired(sh) && Chain(env, sh.hp, Array(env, sh), path, d)
  }

  lemma StillFollows(env: Env, sh: Shared, sh': Shared, path: seq<CuckooRecord>, d: nat)
    requires Follows(env, sh, path, d) && SameArray(env, sh, sh')
    ensures Follows(env, sh', path, d) && sh'.hp == sh.hp && Map(env, sh') == Map(env, sh)
  {
    hide Chain;
  }

  // One displacement.
  lemma ShiftOnce(env: Env, s: State, t: Tid, w: PC)
    requires Calm(env, s, t, w) && w.Working? && w.goal.Shift? && w.hp == s.sh.hp
    requires Follows(env, s.sh, w.goal.path, w.goal.d)
    ensures Do(env, s, t, Go).Some? && 0 < w.goal.d < |w.goal.path|
    ensures var s' := Do(env, s, t, Go).value.0;
            && t in s'.pc && s'.pc[t] == AfterShift(env, s.sh.hp, 0, w.goal) && s'.sh.hp == s.sh.hp
            && Follows(env, s'.sh, w.goal.path, w.goal.d - 1) && Map(env, s'.sh) == Map(env, s.sh)
  {
    hide LocksOk, FlagsAt, CounterOk, DataOk, Map, Array, Env.LockInd, AltIndex, PartialKey, ShiftTwo, ShiftExtra,
      AfterShift, WritesUnder, Displace, GoalOk, Covers, PcOk, Chain, WellFormed;
    var sh, g := s.sh, w.goal;
    assert PcOk(env, sh, w);
    ShiftWorking(env, sh, w);
    SizedOk(env, s);
    ShiftFacts(env, |sh.locks|, sh.hp, w.want, g);
    ShiftLocksOk(env, |sh.locks|, sh.hp, w.want, g);
    var from, to := g.path[g.d - 1], g.path[g.d];
    HeadSlots(env, s, g.path, g.d);
    ShiftData(env, s, from, to);
    ChainShrinks(env, sh.hp, Array(env, sh), g.path, g.d);
  }

  // The slots of a displacement are as the path says.
  lemma HeadSlots(env: Env, s: State, path: seq<CuckooRecord>, d: nat)
    requires Inv(env, s) && Follows(env, s.sh, path, d) && 0 < d < |path|
    requires path[d - 1].bucket < |s.sh.cur| && path[d].bucket < |s.sh.cur|
    requires env.LockInd(path[d - 1].bucket) < |s.sh.locks| && s.sh.locks[env.LockInd(path[d - 1].bucket)].migrated
    requires env.LockInd(path[d].bucket) < |s.sh.locks| && s.sh.locks[env.LockInd(path[d].bucket)].migrated
    ensures SlotAt(s.sh, path[d].bucket, path[d].slot).Empty?
    ensures SlotAt(s.sh, path[d - 1].bucket, path[d - 1].slot).Live?
    ensures env.hash(SlotAt(s.sh, path[d - 1].bucket, path[d - 1].slot).key) == path[d - 1].hash
  {
    hide LocksOk, FlagsAt, CounterOk, DataOk, ThreadsOk, Map, Env.LockInd, AltIndex, Chain, WellFormed;
    DataWired(env, s.sh);
    SettledAt(env, s, path[d - 1].bucket);
    SettledAt(env, s, path[d].bucket);
    ChainHead(env, s.sh.hp, Array(env, s.sh), path, d);
  }

  // A path without displacements: its slot is free.
  lemma SettleOnce(env: Env, s: State, t: Tid, w: PC, path: seq<CuckooRecord>)
    requires Calm(env, s, t, w) && w.Working? && w.hp == s.sh.hp && Follows(env, s.sh, path, 0)
    requires w.goal.Settle? && w.goal == Settle(w.goal.op, path[0].bucket, path[0].slot)
    ensures w.c == 0
    ensures Do(env, s, t, Go) == Quiet(Move(s, t, Ready(w.goal.op, w.hp, w.c, path[0].bucket, path[0].slot)))
  {
    hide LocksOk, FlagsAt, CounterOk, DataOk, Map, Env.LockInd, WellFormed, Env.I1, Env.I2, MigratedUpTo, Want;
    AtKeyWhenWorking(env, s, t);
    DataWired(env, s.sh);
    assert PcOk(env, s.sh, w);
    var b := path[0].bucket;
    assert env.Home(s.sh.hp, w.goal.op.key, b);
    SettledAt(env, s, b);
    ChainEnd(env, s.sh.hp, Array(env, s.sh), path);
  }

  /** Alone, a thread follows a path to its end: it comes to hold both buckets of its key, with a free slot. */
  lemma {:induction false} PathRun(env: Env, s: State, t: Tid, op: Op, path: seq<CuckooRecord>, d: nat)
    returns (schedule: seq<Step>, s': State)
    requires d < |path| && Calm(env, s, t, StartShift(s.sh.hp, op, path, d)) && Follows(env, s.sh, path, d)
    ensures Alone(env, s, t, schedule, s') && s'.sh.hp == s.sh.hp
    ensures Calm(env, s', t, Ready(op, s.sh.hp, 0, path[0].bucket, path[0].slot))
    ensures Wired(s.sh) && Wired(s'.sh) && Map(env, s'.sh) == Map(env, s.sh)
    decreases d
  {
    hide Calm, Do, Alone, SameArray, Chain, Map, Array;
    var hp := s.sh.hp;
    var a, s1, w := ApproachRun(env, s, t, StartShift(hp, op, path, d));
    StillFollows(env, s.sh, s1.sh, path, d);
    CalmAt(env, s1, t, w);
    if d == 0 {
      SettleOnce(env, s1, t, w, path);
    } else {
      ShiftOnce(env, s1, t, w);
    }
    CalmStep(env, s1, t, w, Go);
    AloneOnce(env, s1, t, Go);
    var s2 := Do(env, s1, t, Go).value.0;
    AloneThen(env, s, t, a, s1, [Step(t, Go)], s2);
    if d == 0 {
      schedule, s' := a + [Step(t, Go)], s2;
    } else {
      var b, s3 := DropRun(env, s2, t, s2.pc[t].rest, s2.pc[t].keep, s2.pc[t].cont);
      AloneThen(env, s, t, a + [Step(t, Go)], s2, b, s3);
      StillFollows(env, s2.sh, s3.sh, path, d - 1);
      if d == 1 {
        schedule, s' := a + [Step(t, Go)] + b, s3;
      } else {
        var c;
        c, s' := PathRun(env, s3, t, op, path, d - 1);
        schedule := a + [Step(t, Go)] + b + c;
        AloneThen(env, s, t, a + [Step(t, Go)] + b, s3, c, s');
      }
    }
  }

  // A walk to a bucket with room such that no shorter one leads to such a bucket.
  lemma {:induction false} Shortest(w: Search, d: nat) returns (n: Node)
    requires !w.FullWithin(d)
    ensures w.Admits(n) && |n.slots| < d && !w.FullAt(n) && w.FullWithin(|n.slots|)
    decreases d
  {
    hide Search.FullAt, Search.Admits;
    n :| w.Admits(n) && |n.slots| < d && !w.FullAt(n);
    if !w.FullWithin(|n.slots|) {
      n := Shortest(w, |n.slots|);
    }
  }

  // The record of step `i` of a walk.
  ghost function RecordAt(env: Env, w: Search, bit: nat, slots: seq<nat>, i: nat): CuckooRecord
    requires i < |slots|
  {
    var b, j := w.End(Node(bit, slots[..i])), slots[i];
    CuckooRecord(b, j, if b < |w.bs| && j < |w.bs[b]| && w.bs[b][j].Live? then env.hash(w.bs[b][j].key) else 0)
  }

  /** Unless the table is stuck for the key, there is a path for it that the search can write down. */
  lemma PathExists(env: Env, hp: nat, bs: Buckets, op: Op) returns (path: seq<CuckooRecord>)
    requires WellFormed(env, hp, bs) && env.slots >= 1 && !Stuck(env, hp, bs, op.key)
    ensures |path| > 0 && PathShape(env, hp, op, path) && Chain(env, hp, bs, path, |path| - 1)
  {
    hide AltIndex, PartialKey, WellFormed, Env.I1, Env.I2, Search.FullWithin, Search.IsPath, Chain, OnWalk;
    var w := Search(env.slots, hp, bs, env.I1(hp, op.key), env.I2(hp, op.key));
    WalkOk(env, hp, bs, op.key);
    var n := Shortest(w, MAX_PATH_LEN);
    var j := FreeSlotAt(w, n);
    var slots := n.slots + [j];
    WalkIsPath(w, n, j);
    path := seq(|slots|, i requires 0 <= i < |slots| => RecordAt(env, w, n.bit, slots, i));
    forall i | 0 <= i < |slots|
      ensures OnWalk(w, env, n.bit, slots, path[i], i) && path[i].bucket < |bs| && path[i].slot < env.slots
    {
      RecordOk(env, w, n.bit, slots, i);
    }
    ChainFromWalk(w, env, n.bit, slots, path);
    ChainShape(env, hp, bs, op, path);
  }

  lemma FreeSlotAt(w: Search, n: Node) returns (j: nat)
    requires w.Ok() && !w.FullAt(n)
    ensures w.FreeAt(w.End(n), j)
  {
    w.EndInRange(n);
    j :| j < |w.bs[w.End(n)]| && w.bs[w.End(n)][j].Empty?;
  }

  lemma WalkIsPath(w: Search, n: Node, j: nat)
    requires w.Ok() && w.Admits(n) && w.FreeAt(w.End(n), j) && w.FullWithin(|n.slots|)
    ensures w.IsPath(n.bit, n.slots + [j])
  {
    hide Search.FullWithin;
    var slots := n.slots + [j];
    assert slots[..|slots| - 1] == n.slots;
    assert Node(n.bit, n.slots) == n;
  }

  lemma RecordOk(env: Env, w: Search, bit: nat, slots: seq<nat>, i: nat)
    requires w.Ok() && WellFormed(env, w.hp, w.bs) && w.IsPath(bit, slots) && i < |slots|
    ensures var r := RecordAt(env, w, bit, slots, i);
            OnWalk(w, env, bit, slots, r, i) && r.bucket < |w.bs| && r.slot < w.s
  {
    hide AltIndex, WellFormed, Search.End, Search.FullWithin;
    WalkEnds(w, bit, slots, i);
    if i + 1 < |slots| {
      WalkIsLive(w, env, bit, slots, i);
    }
  }

  lemma ChainShape(env: Env, hp: nat, bs: Buckets, op: Op, path: seq<CuckooRecord>)
    requires |bs| == Pow2(hp) && 1 <= |path| <= MAX_PATH_LEN && env.Home(hp, op.key, path[0].bucket)
    requires forall i | 0 <= i < |path| :: path[i].bucket < |bs| && path[i].slot < env.slots
    requires Chain(env, hp, bs, path, |path| - 1)
    ensures PathShape(env, hp, op, path)
  {
    hide AltIndex, PartialKey, Env.I1, Env.I2;
    forall i | 0 <= i < |path| - 1
      ensures path[i + 1].bucket == AltIndex(hp, PartialKey(path[i].hash), path[i].bucket)
    {
      assert Link(env, hp, bs, path, i);
    }
  }

  // The step adds the operation's entry to the shared map, at the same hash power.
  ghost predicate Inserts(env: Env, s: State, op: Op, m: map<Key, Value>, o: Outcomes)
    requires op.UpraseOp?
  {
    && o.Some? && o.value.1 == Commit(KeyCmd(op), Answered(Inserted)) && o.value.0.sh.hp == s.sh.hp
    && Wired(o.value.0.sh) && Map(env, o.value.0.sh) == m[op.key := op.val]
  }

  // An absent key is inserted into the slot that was made free for it.
  lemma ReadyInserts(env: Env, s: State, t: Tid, p: PC)
    requires Calm(env, s, t, p) && p.Ready? && p.op.UpraseOp? && Wired(s.sh) && p.op.key !in Map(env, s.sh)
    ensures Inserts(env, s, p.op, Map(env, s.sh), Do(env, s, t, Go))
  {
    hide LocksOk, DataOk, FlagsAt, CounterOk, Find, Map, KeyStripes, AddSlot, Does, Env.LockInd, MigratedUpTo, KeyReady;
    assert PcOk(env, s.sh, p);
    AtKeyWhenReady(env, s, t);
    FindIs(env, s, p.op);
    InvData(env, s);
    AddedSame(env, s.sh, p.b, p.j, p.op.key, p.op.val);
    StepOk(env, s, t, Go);
    DoesIsAfter(p.op, Map(env, s.sh), Map(env, Do(env, s, t, Go).value.0.sh), Inserted);
  }

  lemma AddedSame(env: Env, sh: Shared, b: nat, j: nat, k: Key, v: Value)
    requires b < |sh.cur| && j < |sh.cur[b]| && env.LockInd(b) < |sh.locks|
    ensures var sh' := AddSlot(env, sh, b, j, k, v); sh'.hp == sh.hp && sh'.later == sh.later
  {
  }

  // The first attempt of an insertion of an absent key: it succeeds, or a search begins.
  lemma FirstAttempt(env: Env, s: State, t: Tid, w: PC)
    requires Calm(env, s, t, w) && w.Working? && w.goal.OnKey? && w.goal.op.UpraseOp? && w.hp == s.sh.hp
    requires Wired(s.sh) && w.goal.op.key !in Map(env, s.sh)
    ensures var op, o := w.goal.op, Do(env, s, t, Go);
            || Inserts(env, s, op, Map(env, s.sh), o)
            || o == Quiet(Move(s, t, Drop(0, KeyStripes(env, s.sh.hp, op), Searching(op, s.sh.hp))))
  {
    hide LocksOk, DataOk, FlagsAt, CounterOk, ThreadsOk, Find, Room, Map, KeyStripes, AddSlot, Does, Env.LockInd,
      KeyReady;
    var op := w.goal.op;
    AtKeyWhenWorking(env, s, t);
    FindIs(env, s, op);
    if Room(env, s.sh, op.key).Some? {
      var r := Room(env, s.sh, op.key).value;
      FreeSlotIsFree(env, s.sh, op.key);
      InvData(env, s);
      AddedSame(env, s.sh, r.index, r.slot, op.key, op.val);
      StepOk(env, s, t, Go);
      DoesIsAfter(op, Map(env, s.sh), Map(env, Do(env, s, t, Go).value.0.sh), Inserted);
    }
  }

  /** From the search on: a thread left alone follows a path and inserts, if there is one. */
  lemma SearchInserts(env: Env, s: State, t: Tid, op: Op) returns (schedule: seq<Step>, s': State)
    requires Calm(env, s, t, Searching(op, s.sh.hp)) && op.UpraseOp? && Wired(s.sh) && op.key !in Map(env, s.sh)
    requires !Stuck(env, s.sh.hp, Array(env, s.sh), op.key)
    ensures Alone(env, s, t, schedule, s') && s'.sh.hp == s.sh.hp
    ensures Inserts(env, s', op, Map(env, s.sh), Do(env, s', t, Go))
  {
    hide Calm, Do, Alone, Map, Array, Stuck, PathShape, Follows, Inserts, WellFormed;
    CalmData(env, s, t, Searching(op, s.sh.hp));
    ArrayOk(env, s.sh);
    var path := PathExists(env, s.sh.hp, Array(env, s.sh), op);
    assert Follows(env, s.sh, path, |path| - 1) by { FollowsIs(env, s.sh, path); }
    schedule, s' := FollowRun(env, s, t, op, path);
    ReadyInserts(env, s', t, Ready(op, s.sh.hp, 0, path[0].bucket, path[0].slot));
  }

  lemma FollowsIs(env: Env, sh: Shared, path: seq<CuckooRecord>)
    requires |path| > 0 && Wired(sh) && Chain(env, sh.hp, Array(env, sh), path, |path| - 1)
    ensures Follows(env, sh, path, |path| - 1)
  {
    hide Chain, Array;
  }

  // From the search to the free slot at the beginning of a path.
  lemma FollowRun(env: Env, s: State, t: Tid, op: Op, path: seq<CuckooRecord>)
    returns (schedule: seq<Step>, s': State)
    requires Calm(env, s, t, Searching(op, s.sh.hp)) && |path| > 0 && PathShape(env, s.sh.hp, op, path)
    requires Follows(env, s.sh, path, |path| - 1)
    ensures Alone(env, s, t, schedule, s') && s'.sh.hp == s.sh.hp
    ensures Calm(env, s', t, Ready(op, s.sh.hp, 0, path[0].bucket, path[0].slot))
    ensures Wired(s.sh) && Wired(s'.sh) && Map(env, s'.sh) == Map(env, s.sh)
  {
    hide Calm, Do, Alone, Map, PathShape, Follows, SameArray, StartShift;
    FollowOnce(env, s, t, op, path);
    AloneOnce(env, s, t, Follow(path));
    var s1 := Do(env, s, t, Follow(path)).value.0;
    SameContents(env, s.sh, s1.sh);
    StillFollows(env, s.sh, s1.sh, path, |path| - 1);
    var b;
    b, s' := PathRun(env, s1, t, op, path, |path| - 1);
    schedule := [Step(t, Follow(path))] + b;
    AloneThen(env, s, t, [Step(t, Follow(path))], s1, b, s');
  }

  lemma CalmData(env: Env, s: State, t: Tid, p: PC)
    requires Calm(env, s, t, p)
    ensures Wired(s.sh) && DataOk(env, s.sh) && env.slots >= 1
  {
    hide Inv;
    InvData(env, s);
  }

  lemma FollowOnce(env: Env, s: State, t: Tid, op: Op, path: seq<CuckooRecord>)
    requires Calm(env, s, t, Searching(op, s.sh.hp)) && |path| > 0 && PathShape(env, s.sh.hp, op, path)
    ensures Idles(env, s, t, Follow(path), StartShift(s.sh.hp, op, path, |path| - 1))
  {
    hide Inv, Held, Idles, PathShape;
    IdleStep(env, s, t, s.pc[t], Follow(path), StartShift(s.sh.hp, op, path, |path| - 1));
  }

  lemma ArrayOk(env: Env, sh: Shared)
    requires DataOk(env, sh) && Wired(sh)
    ensures WellFormed(env, sh.hp, Array(env, sh)) && Map(env, sh) == Contents(Array(env, sh))
  {
    hide DataOk, WellFormed, Contents;
    DataWired(env, sh);
  }

  /** Whatever state other threads have left the table in, as long as they hold no lock: an idle thread that is
      left alone inserts an absent key without doubling the table, unless no four evictions make room. */
  lemma InsertsAlone(env: Env, s: State, t: Tid, op: Op) returns (schedule: seq<Step>, s': State)
    requires Calm(env, s, t, Idle) && op.UpraseOp? && Wired(s.sh) && op.key !in Map(env, s.sh)
    requires !Stuck(env, s.sh.hp, Array(env, s.sh), op.key)
    ensures Alone(env, s, t, schedule, s') && s'.sh.hp == s.sh.hp
    ensures Inserts(env, s', op, Map(env, s.sh), Do(env, s', t, Go))
  {
    hide Inv, Alone, Map, Array, Stuck, Inserts, SameArray, KeyStripes;
    var a, s1 := CallAlone(env, s, t, op);
    var b, s2, w := ApproachRun(env, s1, t, Locating(s.sh.hp, OnKey(op)));
    AloneThen(env, s, t, a, s1, b, s2);
    SameContents(env, s1.sh, s2.sh);
    FirstAttempt(env, s2, t, w);
    if Inserts(env, s2, op, Map(env, s2.sh), Do(env, s2, t, Go)) {
      schedule, s' := a + b, s2;
    } else {
      CalmStep(env, s2, t, w, Go);
      AloneOnce(env, s2, t, Go);
      var s3 := Do(env, s2, t, Go).value.0;
      AloneThen(env, s, t, a + b, s2, [Step(t, Go)], s3);
      var c, s4 := DropRun(env, s3, t, KeyStripes(env, s.sh.hp, op), [], Searching(op, s.sh.hp));
      AloneThen(env, s, t, a + b + [Step(t, Go)], s3, c, s4);
      SameContents(env, s3.sh, s4.sh);
      var d;
      d, s' := SearchInserts(env, s4, t, op);
      schedule := a + b + [Step(t, Go)] + c + d;
      AloneThen(env, s, t, a + b + [Step(t, Go)] + c, s4, d, s');
    }
  }

  lemma SameContents(env: Env, sh: Shared, sh': Shared)
    requires SameArray(env, sh, sh')
    ensures Wired(sh) && Wired(sh') && sh'.hp == sh.hp && Array(env, sh') == Array(env, sh)
    ensures Map(env, sh') == Map(env, sh)
  {
  }

  // From the call of an operation to having read the hash power.
  lemma CallAlone(env: Env, s: State, t: Tid, op: Op) returns (schedule: seq<Step>, s': State)
    requires Calm(env, s, t, Idle)
    ensures Alone(env, s, t, schedule, s') && Calm(env, s', t, Locating(s.sh.hp, OnKey(op))) && s'.sh == s.sh
  {
    hide Inv, Alone, Held;
    var c := Start(KeyCmd(op));
    CalmStep(env, s, t, Idle, c);
    AloneOnce(env, s, t, c);
    var s1 := Do(env, s, t, c).value.0;
    CalmStep(env, s1, t, Snapshot(op), Go);
    AloneOnce(env, s1, t, Go);
    schedule, s' := [Step(t, c)] + [Step(t, Go)], Do(env, s1, t, Go).value.0;
    AloneThen(env, s, t, [Step(t, c)], s1, [Step(t, Go)], s');
  }

  /** During its search a thread can look at any bucket, and what was left to migrate for that bucket is then
      migrated. */
  lemma PeekAlone(env: Env, s: State, t: Tid, op: Op, b: nat) returns (schedule: seq<Step>, s': State)
    requires Calm(env, s, t, Searching(op, s.sh.hp)) && b < Pow2(s.sh.hp)
    ensures Alone(env, s, t, schedule, s') && Calm(env, s', t, Searching(op, s.sh.hp)) && SameArray(env, s.sh, s'.sh)
    ensures env.LockInd(b) < |s'.sh.locks| && s'.sh.locks[env.LockInd(b)].migrated
  {
    hide Calm, Do, Alone, SameArray, Env.LockInd;
    PeekOnce(env, s, t, op, b);
    AloneOnce(env, s, t, PeekAt(b));
    var s1 := Do(env, s, t, PeekAt(b)).value.0;
    SameContents(env, s.sh, s1.sh);
    var a, s2, w := ApproachRun(env, s1, t, Locating(s.sh.hp, Peek(op, b)));
    AloneThen(env, s, t, [Step(t, PeekAt(b))], s1, a, s2);
    SameArrayTwice(env, s.sh, s1.sh, s2.sh);
    PeekMigrated(env, s2, t, w, b);
    LeaveOnce(env, s2, t, w);
    AloneOnce(env, s2, t, Go);
    var s3 := Do(env, s2, t, Go).value.0;
    SameArrayTwice(env, s.sh, s2.sh, s3.sh);
    AloneThen(env, s, t, [Step(t, PeekAt(b))] + a, s2, [Step(t, Go)], s3);
    var d, s4 := DropRun(env, s3, t, w.want, [], Searching(op, s.sh.hp));
    AloneThen(env, s, t, [Step(t, PeekAt(b))] + a + [Step(t, Go)], s3, d, s4);
    SameArrayTwice(env, s.sh, s3.sh, s4.sh);
    schedule, s' := [Step(t, PeekAt(b))] + a + [Step(t, Go)] + d, s4;
  }

  lemma PeekOnce(env: Env, s: State, t: Tid, op: Op, b: nat)
    requires Calm(env, s, t, Searching(op, s.sh.hp)) && b < Pow2(s.sh.hp)
    ensures Idles(env, s, t, PeekAt(b), Locating(s.sh.hp, Peek(op, b)))
  {
    hide Inv, Held, Idles;
    IdleStep(env, s, t, s.pc[t], PeekAt(b), Locating(s.sh.hp, Peek(op, b)));
  }

  lemma LeaveOnce(env: Env, s: State, t: Tid, w: PC)
    requires Calm(env, s, t, w) && w.Working? && w.goal.Peek?
    ensures Idles(env, s, t, Go, Drop(w.c, w.want, Searching(w.goal.op, w.hp)))
  {
    hide Inv, Held, Idles;
    IdleStep(env, s, t, w, Go, Drop(w.c, w.want, Searching(w.goal.op, w.hp)));
  }

  lemma PeekMigrated(env: Env, s: State, t: Tid, w: PC, b: nat)
    requires Calm(env, s, t, w) && w.Working? && w.goal.Peek? && w.goal.b == b
    ensures w.c == 0 && env.LockInd(b) < |s.sh.locks| && s.sh.locks[env.LockInd(b)].migrated
  {
    hide LocksOk, DataOk, FlagsAt, CounterOk, Env.LockInd, AimOk;
    assert PcOk(env, s.sh, w);
    assert w.want[0] == env.LockInd(b);
  }
}
