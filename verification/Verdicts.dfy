/** When a concurrent insertion or resize fails, and what happens to the hash power. */
module Verdicts {
  import opened Hashing
  import opened Bits
  import opened Layout
  import opened Doubling
  import opened CuckooTable
  import opened Resize
  import opened MapSpec
  import opened Protocol
  import opened Safety
  import opened Steps
  import opened Whole

  // The thread is about to double the table for an operation that it gave up at hash power `h`.
  ghost predicate AboutToDouble(s: State, t: Tid, op: Op, h: nat) {
    t in s.pc && s.pc[t].Working? && s.pc[t].goal == Double(op, h)
  }

  /** What becomes of an automatic doubling. It fails exactly if the next hash power is above the maximum or
      there are too few entries, in this order; otherwise the thread starts over with its operation, on the
      doubled table unless somebody else has changed the hash power meanwhile. */
  lemma DoubleExact(env: Env, s: State, t: Tid, op: Op, h: nat, c: Choice)
    requires Inv(env, s) && AboutToDouble(s, t, op, h)
    ensures Wired(s.sh) && Do(env, s, t, c).Some?
    ensures var lim, sparse := LimitsIn(s.sh), Sparse(LimitsIn(s.sh), |Map(env, s.sh)|, s.sh.hp, env.slots);
            var (s', lbl) := Do(env, s, t, c).value;
            && (Exceeds(lim, h + 1) ==> lbl == Commit(KeyCmd(op), Exceeded(h + 1)) && s'.sh == s.sh)
            && (!Exceeds(lim, h + 1) && sparse ==> lbl == Commit(KeyCmd(op), TooFew(lim.minLoad)) && s'.sh == s.sh)
            && (!Exceeds(lim, h + 1) && !sparse ==>
                  && lbl == Tau && t in s'.pc && s'.pc[t].Dropping? && s'.pc[t].cont == Snapshot(op)
                  && (s.sh.hp == h ==> s'.sh.hp == h + 1) && (s.sh.hp != h ==> s'.sh == s.sh))
  {
    hide LocksOk, FlagsAt, ThreadsOk, CounterOk, DataOk, Map, ResizeCheck, DoubledTable, Sparse, Everything;
    DataWired(env, s.sh);
    CheckFacts(env, s.sh, true, h, h + 1);
    DoubledSize(env, s.sh, t);
  }

  // A step commits an operation on a key with an exception.
  ghost predicate Throws(o: Outcomes, op: Op) {
    o.Some? && o.value.1.Commit? && o.value.1.cmd == KeyCmd(op) && (o.value.1.out.Exceeded? || o.value.1.out.TooFew?)
  }

  lemma KeyStepAnswers(env: Env, s: State, t: Tid, op: Op)
    requires t in s.pc
    ensures s.pc[t].Working? && s.pc[t].goal.OnKey? ==>
              !Throws(KeyStep(env, s, t, s.pc[t].hp, s.pc[t].c, s.pc[t].goal.op), op)
    ensures s.pc[t].Ready? ==> !Throws(ReadyStep(env, s, t, s.pc[t]), op)
    ensures s.pc[t].Working? && s.pc[t].goal.Shift? ==>
              !Throws(ShiftStep(env, s, t, s.pc[t].hp, s.pc[t].c, s.pc[t].goal), op)
  {
    hide Find, Room, KeyStripes, Sized, AddSlot, TouchSlot, AfterShift, ShiftTwo, ShiftExtra, Displace;
  }

  lemma LockStepAnswers(env: Env, s: State, t: Tid, op: Op, c: Choice)
    requires t in s.pc
    ensures s.pc[t].Taking? ==> !Throws(TakeStep(s, t, s.pc[t]), op)
    ensures s.pc[t].Checking? ==> !Throws(CheckStep(s, t, s.pc[t]), op)
    ensures s.pc[t].Migrating? ==> !Throws(MigrateStep(env, s, t, s.pc[t]), op)
    ensures s.pc[t].Dropping? ==> !Throws(DropStep(s, t, s.pc[t]), op)
    ensures s.pc[t].Searching? ==> !Throws(SearchStep(env, s, t, s.pc[t], c), op)
    ensures s.pc[t].Locating? ==> !Throws(LocateStep(env, s, t, s.pc[t]), op)
  {
    hide Taken, SetHolder, Everything, BucketMoved, Marked, PathShape, LockRow, Want;
  }

  // Doubling is not allowed for an operation given up at hash power `h`.
  ghost predicate Barred(env: Env, sh: Shared, h: nat)
    requires Wired(sh)
  {
    Exceeds(LimitsIn(sh), h + 1) || Sparse(LimitsIn(sh), |Map(env, sh)|, sh.hp, env.slots)
  }

  /** An operation on a key fails with an exception if and only if it is an insertion about to double the table
      that is not allowed to; the exception says why. */
  lemma ThrowsExactly(env: Env, s: State, t: Tid, op: Op, c: Choice)
    requires Inv(env, s)
    ensures Wired(s.sh)
    ensures Throws(Do(env, s, t, c), op) <==>
            && t in s.pc && s.pc[t].Working? && s.pc[t].goal.Double? && s.pc[t].goal.op == op
            && Barred(env, s.sh, s.pc[t].goal.hp)
  {
    hide Inv, Do, Barred, Throws;
    InvData(env, s);
    if t in s.pc && s.pc[t].Working? && s.pc[t].goal.Double? {
      DoubleThrows(env, s, t, op, c);
    } else {
      NothingElseThrows(env, s, t, op, c);
    }
  }

  lemma NothingElseThrows(env: Env, s: State, t: Tid, op: Op, c: Choice)
    requires !(t in s.pc && s.pc[t].Working? && s.pc[t].goal.Double?)
    ensures !Throws(Do(env, s, t, c), op)
  {
    hide KeyStep, ReadyStep, ShiftStep, DoubleStep, RebuildStep, WipeStep, TakeStep, CheckStep, MigrateStep, DropStep,
      SearchStep, LocateStep, StartStep, CountStep, LockRow;
    if t in s.pc {
      match s.pc[t]
      case Working(_, _, _, g) =>
        if g.OnKey? || g.Shift? {
          KeyStepAnswers(env, s, t, op);
        } else {
          OtherAnswers(env, s, t, op, c);
        }
      case Ready(_, _, _, _, _) => KeyStepAnswers(env, s, t, op);
      case Idle => OtherAnswers(env, s, t, op, c);
      case Snapshot(_) => OtherAnswers(env, s, t, op, c);
      case Counting(_, _, _, _, _) => OtherAnswers(env, s, t, op, c);
      case Freeing(_, _, _, _, _) => OtherAnswers(env, s, t, op, c);
      case Done(_, _) => OtherAnswers(env, s, t, op, c);
      case _ => LockStepAnswers(env, s, t, op, c);
    }
  }

  lemma OtherAnswers(env: Env, s: State, t: Tid, op: Op, c: Choice)
    requires t in s.pc
    ensures s.pc[t].Idle? || s.pc[t].Snapshot? || s.pc[t].Counting? || s.pc[t].Freeing? || s.pc[t].Done? ==>
              !Throws(Do(env, s, t, c), op)
    ensures s.pc[t].Working? && (s.pc[t].goal.Peek? || s.pc[t].goal.Settle?) ==> !Throws(Do(env, s, t, c), op)
    ensures s.pc[t].Working? && (s.pc[t].goal.Rebuild? || s.pc[t].goal.Wipe?) ==> !Throws(Do(env, s, t, c), op)
  {
    hide ResizeCheck, MayRebuild, RebuiltTable, Everything, Covers, KeyStripes, SlotAt, Doubling.View, ClearedImage;
  }

  lemma DoubleThrows(env: Env, s: State, t: Tid, op: Op, c: Choice)
    requires Inv(env, s) && t in s.pc && s.pc[t].Working? && s.pc[t].goal.Double?
    ensures Wired(s.sh)
    ensures Throws(Do(env, s, t, c), op) <==> s.pc[t].goal.op == op && Barred(env, s.sh, s.pc[t].goal.hp)
  {
    hide Inv, Do, Map, Sparse;
    DoubleExact(env, s, t, s.pc[t].goal.op, s.pc[t].goal.hp, c);
  }

  /** The lock array stays as it is, or a doubling or resizing thread appends one container, for more locks but
      no more than there are stripes, and holds all of them. */
  ghost predicate GrowsAtMost(env: Env, s: State, t: Tid, o: Outcomes)
    requires t in s.pc
  {
    o.Some? ==>
      var sh, sh' := s.sh, o.value.0.sh;
      || (|sh'.later| == |sh.later| && |sh'.locks| == |sh.locks|)
      || (&& s.pc[t].Working? && (s.pc[t].goal.Double? || s.pc[t].goal.Rebuild?)
          && |sh.locks| < |sh'.locks| <= env.Stripes() && sh'.later == sh.later + [seq(|sh'.locks|, _ => Some(t))])
  }

  lemma KeyGrows(env: Env, s: State, t: Tid)
    requires t in s.pc
    ensures s.pc[t].Working? && s.pc[t].goal.OnKey? ==>
              GrowsAtMost(env, s, t, KeyStep(env, s, t, s.pc[t].hp, s.pc[t].c, s.pc[t].goal.op))
    ensures s.pc[t].Ready? ==> GrowsAtMost(env, s, t, ReadyStep(env, s, t, s.pc[t]))
  {
    hide Find, Room, KeyStripes, Sized, Env.LockInd, Put;
  }

  lemma WholeGrows(env: Env, s: State, t: Tid, c: Choice)
    requires t in s.pc && s.pc[t].Working? && Global(s.pc[t].goal)
    ensures GrowsAtMost(env, s, t, WorkStep(env, s, t, s.pc[t], c))
  {
    hide ResizeCheck, MayRebuild, Doubled, Doubling.View, BlankBuckets, Everything, LockRow, Grown;
    GrownLength(env, s.sh.locks, Pow2(s.sh.hp + 1));
    if c.Rebuilt? {
      GrownLength(env, s.sh.locks, Pow2(c.hp));
    }
  }

  lemma GrownLength(env: Env, locks: Locks, n: nat)
    ensures |Grown(env, locks, n)| != |locks| ==> |locks| < |Grown(env, locks, n)| <= env.Stripes()
  {
  }

  lemma WorkGrows(env: Env, s: State, t: Tid, c: Choice)
    requires t in s.pc && s.pc[t].Working?
    ensures GrowsAtMost(env, s, t, WorkStep(env, s, t, s.pc[t], c))
  {
    hide KeyStep, DoubleStep, RebuildStep, WipeStep, Displace, AfterShift, ShiftTwo, ShiftExtra, SlotAt;
    if Global(s.pc[t].goal) {
      WholeGrows(env, s, t, c);
    } else {
      KeyGrows(env, s, t);
    }
  }

  lemma LockGrows(env: Env, s: State, t: Tid)
    requires t in s.pc
    ensures s.pc[t].Taking? ==> GrowsAtMost(env, s, t, TakeStep(s, t, s.pc[t]))
    ensures s.pc[t].Checking? ==> GrowsAtMost(env, s, t, CheckStep(s, t, s.pc[t]))
    ensures s.pc[t].Migrating? ==> GrowsAtMost(env, s, t, MigrateStep(env, s, t, s.pc[t]))
    ensures s.pc[t].Dropping? ==> GrowsAtMost(env, s, t, DropStep(s, t, s.pc[t]))
  {
    hide Taken, Everything, MoveBucketCur, Vacate;
  }

  lemma StepGrows(env: Env, s: State, t: Tid, c: Choice)
    ensures t in s.pc ==> GrowsAtMost(env, s, t, Do(env, s, t, c))
  {
    hide WorkStep, ReadyStep, TakeStep, CheckStep, MigrateStep, DropStep, Want, PathShape, LockRow, StartStep,
      LocateStep, SearchStep, CountStep;
    if t in s.pc {
      match s.pc[t]
      case Working(_, _, _, _) => WorkGrows(env, s, t, c);
      case Ready(_, _, _, _, _) => KeyGrows(env, s, t);
      case _ =>
        LockGrows(env, s, t);
        PlainGrows(env, s, t, c);
    }
  }

  lemma PlainGrows(env: Env, s: State, t: Tid, c: Choice)
    requires t in s.pc
    ensures s.pc[t].Idle? && c.Start? ==> GrowsAtMost(env, s, t, StartStep(s, t, c.cmd))
    ensures s.pc[t].Locating? ==> GrowsAtMost(env, s, t, LocateStep(env, s, t, s.pc[t]))
    ensures s.pc[t].Searching? ==> GrowsAtMost(env, s, t, SearchStep(env, s, t, s.pc[t], c))
    ensures s.pc[t].Counting? ==> CountStep(s, t, s.pc[t]).sh.later == s.sh.later
                                  && |CountStep(s, t, s.pc[t]).sh.locks| == |s.sh.locks|
  {
    hide Want, PathShape, LockRow;
  }

  /** The hash power changes only for a reason, whether or not the lock array grows. */
  lemma StepInBounds(env: Env, s: State, t: Tid, c: Choice)
    requires Inv(env, s) && Do(env, s, t, c).Some?
    ensures Wired(s.sh) && InBounds(env, s.sh, Do(env, s, t, c).value.0.sh, Do(env, s, t, c).value.1)
  {
    hide Inv, Do, InBounds, Map, Linear;
    InvData(env, s);
    StaysThread(env, s, t, c);
    if Do(env, s, t, c).value.0.sh.later == [] {
      StepOk(env, s, t, c);
    } else {
      StepGrows(env, s, t, c);
      if s.pc[t].goal.Double? {
        DoubleInBounds(env, s, t, c);
      } else {
        RebuildInBounds(env, s, t, c);
      }
    }
  }

  lemma StaysThread(env: Env, s: State, t: Tid, c: Choice)
    requires Do(env, s, t, c).Some?
    ensures t in s.pc
  {
  }

  lemma InvData(env: Env, s: State)
    requires Inv(env, s)
    ensures Wired(s.sh) && DataOk(env, s.sh) && env.Valid() && s.sh.later == []
  {
    hide FlagsAt, ThreadsOk, CounterOk;
    OneContainer(env, s);
    DataWired(env, s.sh);
  }

  lemma DoubleInBounds(env: Env, s: State, t: Tid, c: Choice)
    requires Inv(env, s) && t in s.pc && s.pc[t].Working? && s.pc[t].goal.Double? && Do(env, s, t, c).Some?
    ensures Wired(s.sh) && InBounds(env, s.sh, Do(env, s, t, c).value.0.sh, Do(env, s, t, c).value.1)
  {
    hide Inv, Map, ResizeCheck, DoubledTable, Sparse, Everything, Cramps, DataOk;
    InvData(env, s);
    CheckFacts(env, s.sh, true, s.pc[t].goal.hp, s.pc[t].goal.hp + 1);
    DoubledSize(env, s.sh, t);
  }

  lemma RebuildInBounds(env: Env, s: State, t: Tid, c: Choice)
    requires Inv(env, s) && t in s.pc && s.pc[t].Working? && s.pc[t].goal.Rebuild? && Do(env, s, t, c).Some?
    ensures Wired(s.sh) && InBounds(env, s.sh, Do(env, s, t, c).value.0.sh, Do(env, s, t, c).value.1)
  {
    hide Inv, ResizeCheck, RebuiltTable, Sparse, Everything, Cramps, DataOk, Contents, Doubling.View, WellFormed;
    InvData(env, s);
    if c.Rebuilt? {
      RebuiltSize(env, s.sh, t, c.hp, c.bs);
    }
  }

  // The hash power that a goal was set at, once it has been checked.
  function GoalHp(hp: nat, g: Goal): Option<nat> {
    match g
    case Peek(_, _) => Some(hp)
    case Settle(_, _, _) => Some(hp)
    case Shift(_, _, _) => Some(hp)
    case Double(_, h) => Some(h)
    case _ => None
  }

  // The hash power that a thread at `p` has found the table to have.
  function Found(p: PC): Option<nat> {
    match p
    case Locating(hp, g) => GoalHp(hp, g)
    case Taking(hp, _, _, _, _, g) => GoalHp(hp, g)
    case Checking(hp, _, _, g) => GoalHp(hp, g)
    case Migrating(hp, _, _, _, _, g) => if g.OnKey? then Some(hp) else GoalHp(hp, g)
    case Counting(hp, _, _, _, g) => if g.OnKey? then Some(hp) else GoalHp(hp, g)
    case Freeing(hp, _, _, _, g) => if g.OnKey? then Some(hp) else GoalHp(hp, g)
    case Working(hp, _, _, g) => if g.OnKey? then Some(hp) else GoalHp(hp, g)
    case Searching(_, hp) => Some(hp)
    case Ready(_, hp, _, _, _) => Some(hp)
    case Dropping(_, _, _, _, cont) => Found(cont)
    case _ => None
  }

  // What a thread has found after a step, it had found before or finds now.
  ghost predicate FindsNow(s: State, t: Tid, o: Outcomes)
    requires t in s.pc
  {
    o.Some? ==>
      && t in o.value.0.pc
      && (Found(o.value.0.pc[t]).None? || Found(o.value.0.pc[t]) == Found(s.pc[t])
          || Found(o.value.0.pc[t]) == Some(s.sh.hp))
  }

  lemma FoundLater(p: PC)
    requires p.Dropping?
    ensures Found(p) == Found(p.cont)
  {
  }

  // Letting go of locks.
  lemma LeaveFinds(s: State, t: Tid, sh': Shared, p': PC, lbl: Label)
    requires t in s.pc && p'.Dropping? && (Found(p'.cont).None? || Found(p'.cont) == Found(s.pc[t]))
    ensures FindsNow(s, t, Some((MoveWith(s, t, p', sh'), lbl)))
  {
    FoundLater(p');
  }

  lemma KeyFinds(env: Env, s: State, t: Tid)
    requires t in s.pc
    ensures s.pc[t].Working? && s.pc[t].goal.OnKey? ==>
              FindsNow(s, t, KeyStep(env, s, t, s.pc[t].hp, s.pc[t].c, s.pc[t].goal.op))
    ensures s.pc[t].Ready? ==> FindsNow(s, t, ReadyStep(env, s, t, s.pc[t]))
  {
    hide Find, Room, TouchSlot, AddSlot, KeyStripes, Sized;
    var p := s.pc[t];
    if p.Working? && p.goal.OnKey? {
      var o := KeyStep(env, s, t, p.hp, p.c, p.goal.op);
      if o.Some? {
        LeaveFinds(s, t, o.value.0.sh, o.value.0.pc[t], o.value.1);
      }
    } else if p.Ready? {
      var o := ReadyStep(env, s, t, p);
      if o.Some? {
        LeaveFinds(s, t, o.value.0.sh, o.value.0.pc[t], o.value.1);
      }
    }
  }

  lemma ShiftFinds(env: Env, s: State, t: Tid)
    requires t in s.pc && s.pc[t].Working? && s.pc[t].goal.Shift?
    ensures FindsNow(s, t, ShiftStep(env, s, t, s.pc[t].hp, s.pc[t].c, s.pc[t].goal))
  {
    hide Displace, ShiftTwo, ShiftExtra, SlotAt;
    var o := ShiftStep(env, s, t, s.pc[t].hp, s.pc[t].c, s.pc[t].goal);
    if o.Some? {
      LeaveFinds(s, t, o.value.0.sh, o.value.0.pc[t], Tau);
    }
  }

  lemma ResizeFinds(env: Env, s: State, t: Tid, c: Choice)
    requires t in s.pc && s.pc[t].Working? && Global(s.pc[t].goal)
    ensures FindsNow(s, t, WorkStep(env, s, t, s.pc[t], c))
  {
    hide DoubledTable, ResizeCheck, Everything, BlankBuckets, MarkAll, Widened, MayRebuild;
    var o := WorkStep(env, s, t, s.pc[t], c);
    if o.Some? {
      LeaveFinds(s, t, o.value.0.sh, o.value.0.pc[t], o.value.1);
    }
  }

  lemma WorkFinds(env: Env, s: State, t: Tid, c: Choice)
    requires t in s.pc && s.pc[t].Working?
    ensures FindsNow(s, t, WorkStep(env, s, t, s.pc[t], c))
  {
    hide KeyStep, ShiftStep, DoubleStep, RebuildStep, WipeStep;
    var p := s.pc[t];
    match p.goal
    case OnKey(_) => KeyFinds(env, s, t);
    case Shift(_, _, _) => ShiftFinds(env, s, t);
    case Peek(op, _) => LeaveFinds(s, t, s.sh, Drop(p.c, p.want, Searching(op, p.hp)), Tau);
    case Settle(op, _, _) => LeaveFinds(s, t, s.sh, Drop(p.c, KeyStripes(env, p.hp, op), Searching(op, p.hp)), Tau);
    case _ => ResizeFinds(env, s, t, c);
  }

  lemma LockFinds(env: Env, s: State, t: Tid)
    requires t in s.pc && PcOk(env, s.sh, s.pc[t])
    ensures s.pc[t].Taking? ==> FindsNow(s, t, TakeStep(s, t, s.pc[t]))
    ensures s.pc[t].Checking? ==> FindsNow(s, t, CheckStep(s, t, s.pc[t]))
    ensures s.pc[t].Migrating? ==> FindsNow(s, t, MigrateStep(env, s, t, s.pc[t]))
  {
    hide SetHolder, Everything, BucketMoved, Marked, LockRow, GoalOk, MigratedUpTo, Env.LockInd;
  }

  lemma OtherFinds(env: Env, s: State, t: Tid, c: Choice)
    requires t in s.pc && !s.pc[t].Working? && !s.pc[t].Taking? && !s.pc[t].Checking? && !s.pc[t].Migrating?
    ensures FindsNow(s, t, Do(env, s, t, c))
  {
    hide FindsNow, ReadyStep, DropStep, SearchStep, LocateStep, StartStep;
    match s.pc[t]
    case Ready(_, _, _, _, _) => KeyFinds(env, s, t);
    case Dropping(_, _, _, _, _) => DropFinds(s, t);
    case Searching(_, _) => SearchFinds(env, s, t, c);
    case Locating(_, _) => LocateFinds(env, s, t);
    case _ => PlainFinds(env, s, t, c);
  }

  lemma DropFinds(s: State, t: Tid)
    requires t in s.pc && s.pc[t].Dropping?
    ensures FindsNow(s, t, DropStep(s, t, s.pc[t]))
  {
    hide Everything, LockRow, SetHolder;
    FoundLater(s.pc[t]);
  }

  lemma SearchFinds(env: Env, s: State, t: Tid, c: Choice)
    requires t in s.pc && s.pc[t].Searching?
    ensures FindsNow(s, t, SearchStep(env, s, t, s.pc[t], c))
  {
    hide PathShape;
  }

  lemma LocateFinds(env: Env, s: State, t: Tid)
    requires t in s.pc && s.pc[t].Locating?
    ensures FindsNow(s, t, LocateStep(env, s, t, s.pc[t]))
  {
    hide Want, LockRow;
  }

  lemma PlainFinds(env: Env, s: State, t: Tid, c: Choice)
    requires t in s.pc
    requires s.pc[t].Idle? || s.pc[t].Snapshot? || s.pc[t].Counting? || s.pc[t].Freeing? || s.pc[t].Done?
    ensures FindsNow(s, t, Do(env, s, t, c))
  {
    hide Covers;
  }

  lemma StepFinds(env: Env, s: State, t: Tid, c: Choice)
    requires Inv(env, s)
    ensures t in s.pc ==> FindsNow(s, t, Do(env, s, t, c))
  {
    hide LocksOk, FlagsAt, CounterOk, DataOk, PcOk, FindsNow, WorkStep, TakeStep, CheckStep, MigrateStep;
    if t in s.pc {
      assert PcOk(env, s.sh, s.pc[t]);
      match s.pc[t]
      case Working(_, _, _, _) => WorkFinds(env, s, t, c);
      case Taking(_, _, _, _, _, _) => LockFinds(env, s, t);
      case Checking(_, _, _, _) => LockFinds(env, s, t);
      case Migrating(_, _, _, _, _, _) => LockFinds(env, s, t);
      case _ => OtherFinds(env, s, t, c);
    }
  }
}
