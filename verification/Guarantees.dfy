/** What the invariant means for threads: no data race, no key stored twice, the old buckets
    released once and not too early, and no deadlock. */
module Guarantees {
  import opened Hashing
  import opened Layout
  import opened Doubling
  import opened CuckooTable
  import opened PathMove
  import opened MapSpec
  import opened Resize
  import opened Filling
  import opened Protocol
  import opened Safety
  import opened Steps
  import opened Work
  import opened Whole
  import opened Verdicts

  // Step `o` of thread `t` writes only under the stripes that the thread holds.
  ghost predicate Writes(env: Env, s: State, t: Tid, o: Outcomes) {
    o.Some? && t in s.pc ==> WritesUnder(env, s.sh, o.value.0.sh, Held(env, s.pc[t]))
  }

  lemma HitWrites(env: Env, s: State, t: Tid, op: Op)
    requires Inv(env, s) && AtKey(env, s, t, op) && Find(env, s.sh, op.key).Some?
    ensures var q := Find(env, s.sh, op.key).value;
            && LiveAt(s.sh.cur, q.index, q.slot) && env.LockInd(q.index) < |s.sh.locks|
            && WritesUnder(env, s.sh, TouchSlot(env, s.sh, q.index, q.slot, op), Held(env, s.pc[t]))
  {
    hide LocksOk, FlagsAt, ThreadsOk, CounterOk, DataOk, Find, KeyStripes, Map, TouchSlot, Env.LockInd, WritesUnder,
      Held;
    FindIs(env, s, op);
    var q := Find(env, s.sh, op.key).value;
    KeyStripesOk(env, |s.sh.locks|, s.sh.hp, op);
    TouchWrites(env, s.sh, q.index, q.slot, op, Held(env, s.pc[t]));
  }

  lemma InsertWrites(env: Env, s: State, t: Tid, op: Op, b: nat, j: nat)
    requires Inv(env, s) && AtKey(env, s, t, op) && op.UpraseOp?
    requires env.Home(s.sh.hp, op.key, b) && Free(s.sh.cur, b, j)
    ensures && env.LockInd(b) < |s.sh.locks|
            && WritesUnder(env, s.sh, AddSlot(env, s.sh, b, j, op.key, op.val), Held(env, s.pc[t]))
  {
    hide LocksOk, FlagsAt, ThreadsOk, CounterOk, DataOk, KeyStripes, AddSlot, Env.LockInd, WritesUnder, Held;
    KeyStripesOk(env, |s.sh.locks|, s.sh.hp, op);
    AddWrites(env, s.sh, b, j, op.key, op.val, Held(env, s.pc[t]));
  }

  lemma NoWrites(env: Env, s: State, t: Tid, o: Outcomes)
    requires o.Some? ==> o.value.0.sh == s.sh
    ensures Writes(env, s, t, o)
  {
  }

  lemma KeyWrites(env: Env, s: State, t: Tid)
    requires Inv(env, s) && t in s.pc && s.pc[t].Working? && s.pc[t].goal.OnKey?
    ensures Writes(env, s, t, KeyStep(env, s, t, s.pc[t].hp, s.pc[t].c, s.pc[t].goal.op))
  {
    hide Inv, Find, Room, TouchSlot, AddSlot, Env.LockInd, S1, S2, WritesUnder, Held, KeyStripes;
    var sh, op := s.sh, s.pc[t].goal.op;
    AtKeyWhenWorking(env, s, t);
    FreeSlotIsFree(env, sh, op.key);
    if Find(env, sh, op.key).Some? {
      HitWrites(env, s, t, op);
    } else if op.UpraseOp? && Room(env, sh, op.key).Some? {
      InsertWrites(env, s, t, op, Room(env, sh, op.key).value.index, Room(env, sh, op.key).value.slot);
    } else {
      NoWrites(env, s, t, KeyStep(env, s, t, s.pc[t].hp, s.pc[t].c, op));
    }
  }

  lemma ReadyWrites(env: Env, s: State, t: Tid)
    requires Inv(env, s) && t in s.pc && s.pc[t].Ready?
    ensures Writes(env, s, t, ReadyStep(env, s, t, s.pc[t]))
  {
    hide Inv, Find, TouchSlot, AddSlot, Env.LockInd, S1, S2, WritesUnder, Held, KeyStripes, KeyReady, Env.I1, Env.I2;
    var p := s.pc[t];
    AtKeyWhenReady(env, s, t);
    ReadyFacts(env, s, t);
    if Find(env, s.sh, p.op.key).Some? {
      HitWrites(env, s, t, p.op);
    } else {
      InsertWrites(env, s, t, p.op, p.b, p.j);
    }
  }

  lemma ReadyFacts(env: Env, s: State, t: Tid)
    requires Inv(env, s) && t in s.pc && s.pc[t].Ready?
    ensures var p := s.pc[t]; p.op.UpraseOp? && env.Home(s.sh.hp, p.op.key, p.b) && Free(s.sh.cur, p.b, p.j)
  {
    hide LocksOk, FlagsAt, CounterOk, DataOk, KeyStripes, Env.I1, Env.I2;
    assert PcOk(env, s.sh, s.pc[t]);
  }

  lemma ShiftWrites(env: Env, s: State, t: Tid)
    requires Inv(env, s) && t in s.pc && s.pc[t].Working? && s.pc[t].goal.Shift?
    ensures Writes(env, s, t, ShiftStep(env, s, t, s.pc[t].hp, s.pc[t].c, s.pc[t].goal))
  {
    hide LocksOk, FlagsAt, CounterOk, DataOk, Map, Env.LockInd, AltIndex, ShiftTwo, ShiftExtra, AfterShift,
      WritesUnder, Displace, ShiftWant, Ladder;
    var p, sh, g := s.pc[t], s.sh, s.pc[t].goal;
    assert PcOk(env, sh, p);
    SizedOk(env, s);
    ShiftWorking(env, sh, p);
    ShiftFacts(env, |sh.locks|, sh.hp, p.want, g);
    ShiftLocksOk(env, |sh.locks|, sh.hp, p.want, g);
    var from, to := g.path[g.d - 1], g.path[g.d];
    var fs, ts := SlotAt(sh, from.bucket, from.slot), SlotAt(sh, to.bucket, to.slot);
    if !ts.Empty? || !fs.Live? || env.hash(fs.key) != from.hash {
      NoWrites(env, s, t, ShiftStep(env, s, t, p.hp, p.c, g));
    } else {
      ShiftData(env, s, from, to);
    }
  }

  /** A critical section writes only to the buckets and counters under its own locks. */
  lemma WritesConfined(env: Env, s: State, t: Tid, c: Choice)
    requires Inv(env, s) && t in s.pc && ((s.pc[t].Working? && !Global(s.pc[t].goal)) || s.pc[t].Ready?)
    ensures Writes(env, s, t, Do(env, s, t, c))
  {
    hide Inv, KeyStep, ShiftStep, ReadyStep, Writes;
    if s.pc[t].Ready? {
      ReadyWrites(env, s, t);
    } else {
      match s.pc[t].goal
      case OnKey(_) => KeyWrites(env, s, t);
      case Shift(_, _, _) => ShiftWrites(env, s, t);
      case _ => NoWrites(env, s, t, Do(env, s, t, c));
    }
  }

  // What step `o` of another thread leaves alone for thread `u`.
  ghost predicate Unseen(env: Env, s: State, u: Tid, o: Outcomes) {
    o.Some? && u in s.pc ==> Rely(env, s.sh, o.value.0.sh, Held(env, s.pc[u]))
  }

  lemma LocksUnseen(env: Env, s: State, u: Tid, o: Outcomes)
    requires o.Some? ==> o.value.0.sh == s.sh.(holder := o.value.0.sh.holder)
    ensures Unseen(env, s, u, o)
  {
    hide PcOk, DataOk, Rely;
    if o.Some? {
      HolderIsNotData(env, s.sh, o.value.0.sh);
    }
  }

  // Writes under the thread's own locks are not seen by a thread with other locks.
  lemma WritesAreUnseen(env: Env, s: State, t: Tid, u: Tid, o: Outcomes)
    requires LocksOk(env, s) && t in s.pc && u != t && Writes(env, s, t, o)
    ensures Unseen(env, s, u, o)
  {
    hide LocksOk, WritesUnder, Rely, Held;
    if o.Some? && u in s.pc {
      forall l | l in Held(env, s.pc[t])
        ensures l !in Held(env, s.pc[u])
      {
        Exclusive(env, s, t, u, l);
      }
      WritesUnseen(env, s.sh, o.value.0.sh, Held(env, s.pc[t]), Held(env, s.pc[u]));
    }
  }

  lemma WorkUnseen(env: Env, s: State, t: Tid, u: Tid, c: Choice)
    requires Inv(env, s) && t in s.pc && (s.pc[t].Working? || s.pc[t].Ready?) && u != t
    requires Do(env, s, t, c).Some? && Do(env, s, t, c).value.0.sh.later == []
    ensures Unseen(env, s, u, Do(env, s, t, c))
  {
    hide LocksOk, DataOk, FlagsAt, ThreadsOk, CounterOk, Do, Writes;
    if s.pc[t].Working? && Global(s.pc[t].goal) {
      OneContainer(env, s);
      StepGrows(env, s, t, c);
      if u in s.pc {
        Alone(env, s, t, u);
      }
    } else {
      WritesConfined(env, s, t, c);
      WritesAreUnseen(env, s, t, u, Do(env, s, t, c));
    }
  }

  lemma MigrateUnseen(env: Env, s: State, t: Tid, u: Tid)
    requires Inv(env, s) && t in s.pc && s.pc[t].Migrating? && u != t
    ensures Unseen(env, s, u, MigrateStep(env, s, t, s.pc[t]))
  {
    hide FlagsAt, CounterOk, DataOk, BucketMoved, GoalOk, Env.LockInd;
    var p, sh := s.pc[t], s.sh;
    assert PcOk(env, sh, p);
    if u in s.pc && p.at < |p.want| && p.want[p.at] < |sh.locks| && p.next.Some? {
      var l := p.want[p.at];
      assert l in Held(env, p);
      Exclusive(env, s, t, u, l);
      if sh.prev.Some? && p.next.value < |sh.prev.value| {
        DataWired(env, sh);
        MovedUnseen(env, sh, p.next.value, Held(env, s.pc[u]));
      }
    }
  }

  /** Data-race freedom: no step of any thread changes the hash power, a bucket or a migration flag
      under a stripe that another thread holds. */
  lemma NoInterference(env: Env, s: State, t: Tid, u: Tid, c: Choice)
    requires Inv(env, s) && u != t && u in s.pc && Do(env, s, t, c).Some? && Do(env, s, t, c).value.0.sh.later == []
    ensures Rely(env, s.sh, Do(env, s, t, c).value.0.sh, Held(env, s.pc[u]))
  {
    hide LocksOk, FlagsAt, DataOk, WorkStep, ReadyStep, MigrateStep, Rely, Taken, Want, Everything, AimOk;
    OneContainer(env, s);
    assert PcOk(env, s.sh, s.pc[t]);
    var o := Do(env, s, t, c);
    assert Unseen(env, s, u, o) by {
      match s.pc[t]
      case Migrating(_, _, _, _, _, _) => MigrateUnseen(env, s, t, u);
      case Working(_, _, _, _) => WorkUnseen(env, s, t, u, c);
      case Ready(_, _, _, _, _) => WorkUnseen(env, s, t, u, c);
      case Counting(_, _, _, _, _) =>
        assert t in CountingThreads(s.pc);
        SameData(env, s.sh, o.value.0.sh);
      case Freeing(_, _, _, _, _) => FreeUnseen(env, s, u, o);
      case _ => LocksUnseen(env, s, u, o);
    }
  }

  lemma FreeUnseen(env: Env, s: State, u: Tid, o: Outcomes)
    requires o.Some? ==> o.value.0.sh == s.sh.(prev := None)
    ensures Unseen(env, s, u, o)
  {
  }

  /** No key is stored twice, in whatever state of migration the table is. */
  lemma StoredOnce(env: Env, s: State)
    requires Inv(env, s)
    ensures Unique(s.sh.cur)
    ensures s.sh.prev.Some? ==> Unique(s.sh.prev.value)
    ensures s.sh.prev.Some? ==> forall b, j, i, m {:trigger LiveAt(s.sh.cur, b, j), LiveAt(s.sh.prev.value, i, m)} ::
              LiveAt(s.sh.cur, b, j) && LiveAt(s.sh.prev.value, i, m) ==>
                s.sh.cur[b][j].key != s.sh.prev.value[i][m].key
  {
    hide LocksOk, FlagsAt, ThreadsOk, CounterOk, LazyOk, Unique;
    NoKeyTwice(env, s.sh.hp, s.sh.cur, s.sh.prev);
  }

  /** The old buckets are there for as long as a thread moves entries out of them. */
  lemma MoverHasSource(env: Env, s: State, t: Tid)
    requires Inv(env, s) && t in s.pc && s.pc[t].Migrating? && s.pc[t].next.Some?
    ensures s.sh.prev.Some? && s.sh.remaining > 0
  {
    hide DataOk, CounterOk, GoalOk, MigratedUpTo, Env.LockInd;
    var p := s.pc[t];
    assert PcOk(env, s.sh, p);
    assert p.want[p.at] in Held(env, p);
    FlagOf(env, s, t, p.want[p.at]);
    UnmigratedZero(s.sh.locks);
    CountersAgree(env, s);
  }

  lemma CountersAgree(env: Env, s: State)
    requires CounterOk(s)
    ensures s.sh.remaining >= Unmigrated(s.sh.locks) >= 0
  {
  }

  /** When a thread releases the old buckets, every stripe has been migrated, no entry is left in
      them, no thread is moving anything, and no other thread releases them too. */
  lemma ReleasedOnce(env: Env, s: State, t: Tid, u: Tid)
    requires Inv(env, s) && t in s.pc && s.pc[t].Freeing? && u in s.pc && u != t
    ensures s.sh.prev.Some? && forall i | 0 <= i < |s.sh.prev.value| :: !Pending(s.sh.prev.value[i])
    ensures forall l | 0 <= l < |s.sh.locks| :: s.sh.locks[l].migrated
    ensures !s.pc[u].Freeing? && !s.pc[u].Counting? && !(s.pc[u].Migrating? && s.pc[u].next.Some?)
  {
    hide DataOk, LocksOk, GoalOk, MigratedUpTo, Unmigrated, FlagOk, FlagsAt;
    assert PcOk(env, s.sh, s.pc[t]) && PcOk(env, s.sh, s.pc[u]);
    UnmigratedZero(s.sh.locks);
    assert s.pc[u].Counting? ==> u in CountingThreads(s.pc);
    AllVacated(env, s);
  }

  // Once every stripe has been migrated nothing is left in the old array.
  lemma AllVacated(env: Env, s: State)
    requires Inv(env, s) && s.sh.prev.Some? && forall l | 0 <= l < |s.sh.locks| :: s.sh.locks[l].migrated
    ensures forall i | 0 <= i < |s.sh.prev.value| :: !Pending(s.sh.prev.value[i])
  {
    hide DataOk, LocksOk, PcOk, CounterOk, Env.LockInd, Pending, Front;
    SizedOk(env, s);
    DataWired(env, s.sh);
    forall i | 0 <= i < |s.sh.prev.value|
      ensures !Pending(s.sh.prev.value[i])
    {
      var l := env.LockInd(i);
      assert FlagOk(env, s.sh.prev, s.sh.locks[l].migrated, l, Front(s, l));
    }
  }

  // A table of at least a given hash power with the same contents.
  lemma {:induction false} Enlarge(env: Env, hp: nat, bs: Buckets, n: nat) returns (hp': nat, bs': Buckets)
    requires WellFormed(env, hp, bs)
    ensures n <= hp' && WellFormed(env, hp', bs') && Contents(bs') == Contents(bs)
    decreases n - hp
  {
    hide WellFormed, Contents, Doubled;
    if n <= hp {
      hp', bs' := hp, bs;
    } else {
      DoubledCorrect(env, hp, bs);
      hp', bs' := Enlarge(env, hp + 1, Doubled(env, hp, bs), n);
    }
  }

  // A resize can always come to an end.
  lemma RebuildChoice(env: Env, sh: Shared, newHp: nat) returns (c: Choice)
    requires DataOk(env, sh) && Wired(sh) && env.slots >= 1
    ensures c.Rebuilt? && MayRebuild(env, View(env, sh.hp, sh.cur, sh.prev), newHp, c.hp, c.bs)
  {
    hide WellFormed, Contents, Doubling.View, Cramps, DataOk;
    DataWired(env, sh);
    var all := View(env, sh.hp, sh.cur, sh.prev);
    var bs := FitsOrCramps(env, newHp, Contents(all));
    if WellFormed(env, newHp, bs) && Contents(bs) == Contents(all) {
      c := Rebuilt(newHp, bs);
    } else {
      var hp', bs' := Enlarge(env, sh.hp, all, newHp);
      c := Rebuilt(hp', bs');
    }
  }

  // The lock a thread waits for.
  predicate Blocked(s: State, p: PC) {
    p.Taking? && p.got < |p.want| && p.want[p.got] < |s.sh.holder| && s.sh.holder[p.want[p.got]].Some?
  }

  lemma WorkEnabled(env: Env, s: State, t: Tid) returns (c: Choice)
    requires Inv(env, s) && t in s.pc && s.pc[t].Working?
    ensures WorkStep(env, s, t, s.pc[t], c).Some?
  {
    hide LocksOk, FlagsAt, CounterOk, DataOk, Find, Room, TouchSlot, AddSlot, DoubledTable, ResizeCheck, Widened,
      WellFormed, Contents, Doubling.View, AimOk, Want;
    var p, sh := s.pc[t], s.sh;
    assert PcOk(env, sh, p);
    SizedOk(env, s);
    DataWired(env, sh);
    c := Go;
    if p.goal.Rebuild? {
      c := RebuildChoice(env, sh, p.goal.newHp);
    } else if p.goal.Shift? {
      ShiftInRange(env, sh, p);
    }
  }

  lemma ShiftInRange(env: Env, sh: Shared, p: PC)
    requires p.Working? && p.goal.Shift? && PcOk(env, sh, p)
    ensures 0 < p.goal.d < |p.goal.path|
  {
  }

  lemma LockingEnabled(env: Env, s: State, t: Tid)
    requires Inv(env, s) && t in s.pc
    ensures s.pc[t].Taking? && !Blocked(s, s.pc[t]) ==> TakeStep(s, t, s.pc[t]).Some?
    ensures s.pc[t].Checking? ==> CheckStep(s, t, s.pc[t]).Some?
    ensures s.pc[t].Migrating? ==> MigrateStep(env, s, t, s.pc[t]).Some?
  {
    hide LocksOk, FlagsAt, CounterOk, DataOk, BucketMoved, Taken, AimOk, Want, SetHolder, Marked, WellFormed,
      LazyShape, Map, MigratedUpTo, Env.LockInd;
    assert PcOk(env, s.sh, s.pc[t]);
    OneContainer(env, s);
    DataWired(env, s.sh);
  }

  lemma ReadyEnabled(env: Env, s: State, t: Tid)
    requires Inv(env, s) && t in s.pc && s.pc[t].Ready?
    ensures ReadyStep(env, s, t, s.pc[t]).Some?
  {
    hide LocksOk, FlagsAt, CounterOk, DataOk, Find, TouchSlot, AddSlot, KeyStripes;
    assert PcOk(env, s.sh, s.pc[t]);
    SizedOk(env, s);
  }

  /** Every thread that is at work and not waiting for a lock can go on. */
  lemma Enabled(env: Env, s: State, t: Tid) returns (c: Choice)
    requires Inv(env, s) && t in s.pc && !s.pc[t].Idle? && !Blocked(s, s.pc[t])
    ensures Do(env, s, t, c).Some?
  {
    hide Inv, WorkStep, TakeStep, CheckStep, MigrateStep, ReadyStep;
    c := if s.pc[t].Searching? then GiveUp else Go;
    LockingEnabled(env, s, t);
    if s.pc[t].Working? {
      c := WorkEnabled(env, s, t);
    } else if s.pc[t].Ready? {
      ReadyEnabled(env, s, t);
    }
  }

  // The number of the lock a thread waits for grows along a chain of waiting threads.
  function Height(n: nat, p: PC): int {
    if p.Taking? && p.got < |p.want| then n - p.want[p.got] else 0
  }

  lemma WaitsUpwards(env: Env, s: State, t: Tid) returns (u: Tid)
    requires Inv(env, s) && t in s.pc && Blocked(s, s.pc[t])
    ensures u in s.pc && s.sh.holder[s.pc[t].want[s.pc[t].got]] == Some(u) && !s.pc[u].Idle?
    ensures 0 <= Height(|s.sh.locks|, s.pc[u]) < Height(|s.sh.locks|, s.pc[t])
  {
    hide FlagsAt, CounterOk, DataOk, AimOk, Want;
    var p := s.pc[t];
    var l := p.want[p.got];
    u := s.sh.holder[l].value;
    assert PcOk(env, s.sh, p) && PcOk(env, s.sh, s.pc[u]);
    assert l in Held(env, s.pc[u]);
  }

  /** No deadlock: as long as some thread is at work, some thread can take a step. */
  lemma {:induction false} NoDeadlock(env: Env, s: State, t: Tid) returns (u: Tid, c: Choice)
    requires Inv(env, s) && t in s.pc && !s.pc[t].Idle?
    ensures u in s.pc && !s.pc[u].Idle? && Do(env, s, u, c).Some?
    decreases Height(|s.sh.locks|, s.pc[t])
  {
    hide Inv, Do, Height;
    if Blocked(s, s.pc[t]) {
      var v := WaitsUpwards(env, s, t);
      u, c := NoDeadlock(env, s, v);
    } else {
      u := t;
      c := Enabled(env, s, t);
    }
  }
}
