/** Over whole runs: the new buckets of a stripe stay empty until the stripe is migrated. */
module Migration {
  import opened Hashing
  import opened Layout
  import opened Doubling
  import opened CuckooTable
  import opened Resize
  import opened Protocol
  import opened Safety
  import opened Steps
  import opened Work
  import opened Whole
  import opened Guarantees
  import opened Verdicts
  import opened Runs

  // A new bucket whose old bucket has not been moved yet.
  ghost predicate Unreached(env: Env, s: State, b: nat) {
    && b < |s.sh.cur| && env.LockInd(b) < |s.sh.locks| && !s.sh.locks[env.LockInd(b)].migrated
    && s.sh.prev.Some? && 2 * |s.sh.prev.value| == |s.sh.cur|
    && OldIndex(|s.sh.prev.value|, b) >= Front(s, env.LockInd(b))
  }

  ghost predicate Waiting(env: Env, s: State) {
    forall b: nat | Unreached(env, s, b) :: AllEmpty(s.sh.cur[b])
  }

  // Thread `t` neither takes a lock away from another thread nor moves another thread.
  ghost predicate OwnStep(s: State, t: Tid, s': State) {
    && t in s.pc && t in s'.pc && s'.pc == s.pc[t := s'.pc[t]] && |s'.sh.holder| == |s.sh.holder|
    && forall l | 0 <= l < |s.sh.holder| && s.sh.holder[l].Some? && s.sh.holder[l] != Some(t) ::
         s'.sh.holder[l] == s.sh.holder[l]
  }

  lemma FrontsGrow(s: State, t: Tid, s': State, l: nat)
    requires OwnStep(s, t, s') && FrontOf(s.pc[t], l) == 0
    ensures Front(s', l) >= Front(s, l)
  {
    hide FrontOf;
  }

  // A step that changes no data and no flag.
  lemma IdleStep(env: Env, s: State, t: Tid, s': State)
    requires Waiting(env, s) && OwnStep(s, t, s') && forall l: nat :: FrontOf(s.pc[t], l) == 0
    requires s'.sh.cur == s.sh.cur && s'.sh.locks == s.sh.locks && s'.sh.prev == s.sh.prev
    ensures Waiting(env, s')
  {
    hide Front, Env.LockInd, AllEmpty, FrontOf, OwnStep;
    forall b: nat | Unreached(env, s', b)
      ensures AllEmpty(s'.sh.cur[b])
    {
      FrontsGrow(s, t, s', env.LockInd(b));
      assert Unreached(env, s, b);
    }
  }

  // A write under migrated stripes.
  lemma WriteStep(env: Env, s: State, t: Tid, s': State)
    requires Waiting(env, s) && OwnStep(s, t, s') && forall l: nat :: FrontOf(s.pc[t], l) == 0
    requires WritesUnder(env, s.sh, s'.sh, Held(env, s.pc[t]))
    requires forall l | l in Held(env, s.pc[t]) :: l < |s.sh.locks| && s.sh.locks[l].migrated
    ensures Waiting(env, s')
  {
    hide Front, Env.LockInd, AllEmpty, FrontOf, OwnStep, Held;
    forall b: nat | Unreached(env, s', b)
      ensures AllEmpty(s'.sh.cur[b])
    {
      FrontsGrow(s, t, s', env.LockInd(b));
      assert Unreached(env, s, b);
    }
  }

  // Moving an old bucket writes to its own two new buckets only, and the front passes them.
  lemma MoveStep(env: Env, s: State, t: Tid)
    requires Inv(env, s) && Waiting(env, s) && t in s.pc && s.pc[t].Migrating? && s.pc[t].next.Some?
    requires s.sh.prev.Some? && s.pc[t].next.value < |s.sh.prev.value|
    ensures var p := s.pc[t];
            && Wired(s.sh)
            && var p' := Migrating(p.hp, p.c, p.want, p.at, Some(p.next.value + env.Stripes()), p.goal);
               Waiting(env, MoveWith(s, t, p', BucketMoved(env, s.sh, p.next.value)))
  {
    hide DataOk, FlagsAt, CounterOk, PcOk, Env.LockInd, Vacate, AllEmpty, Front;
    var p, sh := s.pc[t], s.sh;
    var ind, n := p.next.value, |s.sh.prev.value|;
    assert PcOk(env, sh, p);
    MovedData(env, sh, ind);
    MovedPc(env, sh, p);
    var p' := Migrating(p.hp, p.c, p.want, p.at, Some(ind + env.Stripes()), p.goal);
    var s' := MoveWith(s, t, p', BucketMoved(env, sh, ind));
    var l := p.want[p.at];
    assert l in Held(env, p);
    CopyStripe(env, sh, ind);
    forall b: nat | Unreached(env, s', b)
      ensures AllEmpty(s'.sh.cur[b])
    {
      OtherFronts(env, s, t, p', s'.sh, env.LockInd(b));
      assert OldIndex(n, b) != ind;
      MovedElsewhere(env, sh, ind, b);
      assert Unreached(env, s, b);
    }
  }

  lemma CopyStripe(env: Env, sh: Shared, ind: nat)
    requires DataOk(env, sh) && sh.prev.Some? && ind < |sh.prev.value|
    ensures env.LockInd(ind + |sh.prev.value|) == env.LockInd(ind) && 2 * |sh.prev.value| == |sh.cur|
  {
    hide Contents, WellFormed, Doubling.View, CountsOf, Env.LockInd;
    StripeOfCopy(env, sh.hp - 1, ind);
  }

  lemma MovedElsewhere(env: Env, sh: Shared, ind: nat, b: nat)
    requires Wired(sh) && sh.prev.Some? && ind < |sh.prev.value| && b < |sh.cur| && OldIndex(|sh.prev.value|, b) != ind
    ensures BucketMoved(env, sh, ind).cur[b] == sh.cur[b]
  {
    hide LowPart, HighPart;
  }

  // Setting the flag of a stripe takes its buckets out of the reckoning.
  lemma FlagStep(env: Env, s: State, t: Tid, l: nat, p': PC)
    requires LocksOk(env, s) && Waiting(env, s) && t in s.pc && l < |s.sh.locks| && l in Held(env, s.pc[t])
    requires forall x: nat | x != l :: FrontOf(s.pc[t], x) == 0
    ensures Waiting(env, MoveWith(s, t, p', s.sh.(locks := Marked(s.sh.locks, l))))
  {
    hide LocksOk, Env.LockInd, AllEmpty, Front, FrontOf, Held;
    var s' := MoveWith(s, t, p', s.sh.(locks := Marked(s.sh.locks, l)));
    MarkedFacts(s.sh.locks, l);
    forall b: nat | Unreached(env, s', b)
      ensures AllEmpty(s'.sh.cur[b])
    {
      OtherFronts(env, s, t, p', s'.sh, env.LockInd(b));
      assert Unreached(env, s, b);
    }
  }

  lemma MigratingFront(env: Env, sh: Shared, p: PC)
    requires p.Migrating? && PcOk(env, sh, p)
    ensures p.next.None? ==> forall l: nat :: FrontOf(p, l) == 0
    ensures p.next.Some? ==> p.at < |p.want| && p.want[p.at] < |sh.locks|
    ensures p.next.Some? ==> forall l: nat | l != p.want[p.at] :: FrontOf(p, l) == 0
  {
  }

  lemma MigrateStepWaits(env: Env, s: State, t: Tid)
    requires Inv(env, s) && Waiting(env, s) && t in s.pc && s.pc[t].Migrating? && MigrateStep(env, s, t, s.pc[t]).Some?
    ensures Waiting(env, MigrateStep(env, s, t, s.pc[t]).value.0)
  {
    hide LocksOk, DataOk, FlagsAt, CounterOk, PcOk, BucketMoved, Waiting, FrontOf, Marked;
    var p, sh := s.pc[t], s.sh;
    assert PcOk(env, sh, p);
    MigratingFront(env, sh, p);
    if p.next.None? {
      IdleStep(env, s, t, MigrateStep(env, s, t, p).value.0);
    } else if sh.prev.Some? && p.next.value < |sh.prev.value| {
      MoveStep(env, s, t);
    } else {
      assert p.want[p.at] in Held(env, p);
      FlagStep(env, s, t, p.want[p.at], Counting(p.hp, p.c, p.want, p.at, p.goal));
    }
  }

  // No stripe is waiting to be migrated.
  lemma AllReached(env: Env, s: State)
    requires || s.sh.prev.None? || (forall l | 0 <= l < |s.sh.locks| :: s.sh.locks[l].migrated)
             || (forall b | 0 <= b < |s.sh.cur| :: AllEmpty(s.sh.cur[b]))
    ensures Waiting(env, s)
  {
    hide Env.LockInd, AllEmpty, Front;
  }

  lemma GlobalStepWaits(env: Env, s: State, t: Tid, c: Choice)
    requires Inv(env, s) && Waiting(env, s) && HasAll(env, s, t) && WorkStep(env, s, t, s.pc[t], c).Some?
    ensures Waiting(env, WorkStep(env, s, t, s.pc[t], c).value.0)
  {
    hide LocksOk, DataOk, FlagsAt, CounterOk, ThreadsOk, Waiting, ResizeCheck, Widened, Unmark, MarkAll, Doubled,
      Doubling.View, MayRebuild, Everything, LockRow;
    var s' := WorkStep(env, s, t, s.pc[t], c).value.0;
    if s'.sh == s.sh {
      IdleStep(env, s, t, s');
    } else {
      AllReached(env, s');
    }
  }

  lemma HeldMigrated(env: Env, s: State, t: Tid)
    requires Inv(env, s) && t in s.pc && ((s.pc[t].Working? && !Global(s.pc[t].goal)) || s.pc[t].Ready?)
    ensures forall l | l in Held(env, s.pc[t]) :: l < |s.sh.locks| && s.sh.locks[l].migrated
    ensures forall l: nat :: FrontOf(s.pc[t], l) == 0
  {
    hide LocksOk, DataOk, FlagsAt, CounterOk, GoalOk, KeyStripes, Env.Home;
    assert PcOk(env, s.sh, s.pc[t]);
  }

  lemma LocalStepWaits(env: Env, s: State, t: Tid, c: Choice)
    requires Inv(env, s) && Waiting(env, s) && t in s.pc && Do(env, s, t, c).Some?
    requires (s.pc[t].Working? && !Global(s.pc[t].goal)) || s.pc[t].Ready?
    ensures Waiting(env, Do(env, s, t, c).value.0)
  {
    hide Inv, Do, Waiting, WritesUnder, Held, FrontOf, NextPhase, PhaseOf;
    WritesConfined(env, s, t, c);
    HeldMigrated(env, s, t);
    StepPhase(env, s, t, c);
    var s' := Do(env, s, t, c).value.0;
    SameHolder(env, s.sh, s'.sh, Held(env, s.pc[t]));
    WriteStep(env, s, t, s');
  }

  lemma SameHolder(env: Env, sh: Shared, sh': Shared, held: seq<nat>)
    requires WritesUnder(env, sh, sh', held)
    ensures sh'.holder == sh.holder
  {
  }

  // Taking or releasing a lock, or moving on without touching the table.
  lemma LockStepWaits(env: Env, s: State, t: Tid, c: Choice)
    requires Inv(env, s) && Waiting(env, s) && t in s.pc && Do(env, s, t, c).Some?
    requires !s.pc[t].Working? && !s.pc[t].Ready? && !s.pc[t].Migrating? && !s.pc[t].Freeing?
    ensures Waiting(env, Do(env, s, t, c).value.0)
  {
    hide Inv, Do, Waiting, NextPhase, PhaseOf;
    StepPhase(env, s, t, c);
    LockStepShared(env, s, t, c);
    IdleStep(env, s, t, Do(env, s, t, c).value.0);
  }

  // The data is untouched, and so are the locks of other threads.
  ghost predicate LeavesOthers(sh: Shared, t: Tid, sh': Shared) {
    && sh'.cur == sh.cur && sh'.locks == sh.locks && sh'.prev == sh.prev && |sh'.holder| == |sh.holder|
    && forall l | 0 <= l < |sh.holder| && sh.holder[l].Some? && sh.holder[l] != Some(t) ::
         sh'.holder[l] == sh.holder[l]
  }

  lemma SetLeavesOthers(sh: Shared, t: Tid, l: nat, h: Option<Tid>)
    requires l < |sh.holder| ==> sh.holder[l].None? || sh.holder[l] == Some(t)
    ensures LeavesOthers(sh, t, SetHolder(sh, 0, l, h))
  {
  }

  lemma FirstHeld(env: Env, s: State, t: Tid)
    requires LocksOk(env, s) && t in s.pc && PcOk(env, s.sh, s.pc[t])
    ensures s.pc[t].Taking? ==> s.pc[t].c == 0
    ensures s.pc[t].Checking? ==> s.pc[t].c == 0 && |s.pc[t].want| > 0 && s.sh.holder[s.pc[t].want[0]] == Some(t)
    ensures s.pc[t].Dropping? ==> s.pc[t].c == 0
    ensures s.pc[t].Dropping? && |s.pc[t].rest| > 0 ==> s.sh.holder[s.pc[t].rest[0]] == Some(t)
  {
    hide AimOk, Want;
    var p := s.pc[t];
    if p.Checking? {
      assert p.want[0] in Held(env, p);
    } else if p.Dropping? && |p.rest| > 0 {
      assert p.rest[0] in Held(env, p);
    }
  }

  lemma LockStepShared(env: Env, s: State, t: Tid, c: Choice)
    requires Inv(env, s) && t in s.pc && Do(env, s, t, c).Some?
    requires !s.pc[t].Working? && !s.pc[t].Ready? && !s.pc[t].Migrating? && !s.pc[t].Freeing?
    ensures LeavesOthers(s.sh, t, Do(env, s, t, c).value.0.sh)
  {
    hide LocksOk, DataOk, FlagsAt, CounterOk, PcOk, SetHolder, Taken, Want, Everything, PathShape;
    var p := s.pc[t];
    assert PcOk(env, s.sh, p);
    FirstHeld(env, s, t);
    if p.Taking? {
      SetLeavesOthers(s.sh, t, p.want[p.got], Some(t));
    } else if p.Checking? {
      SetLeavesOthers(s.sh, t, p.want[0], None);
    } else if p.Dropping? && |p.rest| > 0 {
      SetLeavesOthers(s.sh, t, p.rest[0], None);
    }
  }

  /** Every step keeps the new buckets of stripes that have not been migrated empty. */
  lemma StepWaits(env: Env, s: State, t: Tid, c: Choice)
    requires Inv(env, s) && Waiting(env, s) && Do(env, s, t, c).Some?
    ensures Waiting(env, Do(env, s, t, c).value.0)
  {
    hide Inv, Waiting, WorkStep, ReadyStep, MigrateStep;
    StaysThread(env, s, t, c);
    if s.pc[t].Migrating? {
      MigrateStepWaits(env, s, t);
    } else if s.pc[t].Freeing? {
      AllReached(env, Do(env, s, t, c).value.0);
    } else if HasAll(env, s, t) {
      GlobalStepWaits(env, s, t, c);
    } else if s.pc[t].Working? || s.pc[t].Ready? {
      LocalStepWaits(env, s, t, c);
    } else {
      LockStepWaits(env, s, t, c);
    }
  }

  lemma {:induction false} WaitingAlways(env: Env, s: State, schedule: seq<Step>)
    requires Inv(env, s) && Waiting(env, s) && Steady(env, s, schedule)
    ensures Waiting(env, Exec(env, s, schedule).value.last)
  {
    hide Inv, Do, Waiting;
    if |schedule| > 0 {
      var n := |schedule| - 1;
      SteadyBefore(env, s, schedule);
      WaitingAlways(env, s, schedule[..n]);
      InvAlways(env, s, schedule[..n]);
      StepWaits(env, Exec(env, s, schedule[..n]).value.last, schedule[n].t, schedule[n].c);
    }
  }

  // Bucket `b` of the new array belongs to a stripe that nobody has migrated or is migrating.
  ghost predicate AtRest(env: Env, s: State, b: nat) {
    var l := env.LockInd(b);
    b < |s.sh.cur| && l < |s.sh.locks| && l < |s.sh.holder| && s.sh.holder[l].None? && !s.sh.locks[l].migrated
  }

  /** In every state of every run the new buckets of such a stripe are empty. */
  lemma EmptyUntilMigrated(env: Env, hp: nat, threads: nat, minLoad: real, maxHp: Option<nat>, schedule: seq<Step>,
                           b: nat)
    requires Safe(env, hp, threads, minLoad, maxHp, schedule)
    requires AtRest(env, Exec(env, Init(env, hp, threads, minLoad, maxHp), schedule).value.last, b)
    ensures AllEmpty(Exec(env, Init(env, hp, threads, minLoad, maxHp), schedule).value.last.sh.cur[b])
  {
    hide Exec, LocksOk, ThreadsOk, CounterOk, DataOk, Env.LockInd, Steady;
    var s := Init(env, hp, threads, minLoad, maxHp);
    SafeIsSteady(env, hp, threads, minLoad, maxHp, schedule);
    AllReached(env, s);
    WaitingAlways(env, s, schedule);
    var s' := Exec(env, s, schedule).value.last;
    DataWired(env, s'.sh);
    assert FlagOk(env, s'.sh.prev, false, env.LockInd(b), Front(s', env.LockInd(b)));
    assert Unreached(env, s', b);
  }
}
