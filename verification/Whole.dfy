/** The steps a thread takes while it holds all locks: doubling, rebuilding and clearing the table. */
module Whole {
  import opened Hashing
  import opened Bits
  import opened Layout
  import opened Doubling
  import opened CuckooTable
  import opened Resize
  import opened Protocol
  import opened Safety
  import opened Steps
  import opened Work

  ghost predicate HasAll(env: Env, s: State, t: Tid) {
    t in s.pc && s.pc[t].Working? && Global(s.pc[t].goal)
  }

  /** A thread that holds all locks is alone: no other thread is inside a critical section. */
  lemma Alone(env: Env, s: State, t: Tid, u: Tid)
    requires Inv(env, s) && HasAll(env, s, t) && u in s.pc && u != t
    ensures Held(env, s.pc[u]) == [] && !s.pc[u].Counting? && !s.pc[u].Freeing? && !s.pc[u].Migrating?
  {
    hide DataOk, FlagsAt, CounterOk, AimOk;
    assert PcOk(env, s.sh, s.pc[t]) && PcOk(env, s.sh, s.pc[u]);
    EverythingIsLadder(|s.sh.locks|);
    if Held(env, s.pc[u]) != [] {
      var l := Held(env, s.pc[u])[0];
      assert l in Held(env, s.pc[u]);
      assert l in Held(env, s.pc[t]);
      Exclusive(env, s, t, u, l);
    }
  }

  lemma AloneCounts(env: Env, s: State, t: Tid, p': PC)
    requires Inv(env, s) && HasAll(env, s, t) && !p'.Counting? && !p'.Freeing? && !p'.Migrating?
    ensures CountingThreads(s.pc[t := p']) == {} && !SomeoneFrees(s.pc[t := p']) && AtMostOneFrees(s.pc[t := p'])
    ensures forall u | u in s.pc && u != t :: Held(env, s.pc[u]) == []
    ensures forall sh': Shared, l: nat :: Front(MoveWith(s, t, p', sh'), l) == 0
  {
    hide Inv, Held;
    forall u | u in s.pc && u != t
      ensures Held(env, s.pc[u]) == [] && !s.pc[u].Counting? && !s.pc[u].Freeing? && !s.pc[u].Migrating?
    {
      Alone(env, s, t, u);
    }
  }

  // Letting go of all locks.
  lemma DropAllPc(env: Env, sh: Shared, sh': Shared, p: PC, cont: PC)
    requires p.Working? && Global(p.goal) && PcOk(env, sh, p) && (cont.Snapshot? || cont.Done?)
    requires |sh.holder| == |sh.locks| == |sh'.locks|
    ensures p.c == 0 && PcOk(env, sh', DropAll(sh, 0, cont)) && SameHeld(env, p, DropAll(sh, 0, cont))
  {
    hide Everything, Ladder, Distinct, AimOk, Pair, Triple, S1, S2, Env.LockInd;
    var all := Everything(|sh.locks|);
    EverythingIsLadder(|sh.locks|);
    LadderDistinct(|sh.locks|, all);
    assert all + [] == all;
  }

  /** Replacing the whole table under all locks. */
  lemma ReplaceKeepsInv(env: Env, s: State, t: Tid, sh': Shared, cont: PC)
    requires Inv(env, s) && HasAll(env, s, t) && (cont.Snapshot? || cont.Done?)
    requires sh'.holder == s.sh.holder && sh'.later == s.sh.later && |sh'.locks| == |s.sh.locks|
    requires DataOk(env, sh') && FlagsOk(env, sh'.prev, sh'.locks)
    requires sh'.remaining == Unmigrated(sh'.locks) && (sh'.prev.Some? <==> sh'.remaining > 0)
    ensures Inv(env, MoveWith(s, t, DropAll(s.sh, 0, cont), sh'))
  {
    hide DataOk, FlagOk, Unmigrated, CountingThreads, Everything, LocksOk, SomeoneFrees, AtMostOneFrees, PcOk, SameHeld;
    var p' := DropAll(s.sh, 0, cont);
    assert PcOk(env, s.sh, s.pc[t]);
    OneContainer(env, s);
    DropAllPc(env, s.sh, sh', s.pc[t], cont);
    AloneCounts(env, s, t, p');
    ChangeKeepsInv(env, s, t, p', sh');
  }

  // The table with everything migrated.
  lemma SettledData(env: Env, sh: Shared)
    requires DataOk(env, sh)
    ensures Wired(sh) && TableOk(env, sh.hp, View(env, sh.hp, sh.cur, sh.prev), None, MarkAll(sh.locks))
    ensures WellFormed(env, sh.hp, View(env, sh.hp, sh.cur, sh.prev))
  {
    hide Contents;
    var w := View(env, sh.hp, sh.cur, sh.prev);
    ViewSettled(env, sh.hp, w, None);
    assert CountsOf(MarkAll(sh.locks)) == CountsOf(sh.locks);
  }

  lemma MarkedAll(locks: Locks)
    ensures Unmigrated(MarkAll(locks)) == 0 && CountsOf(MarkAll(locks)) == CountsOf(locks)
    ensures Unmark(MarkAll(locks)) == Unmark(locks)
  {
    UnmigratedZero(MarkAll(locks));
    assert CountsOf(MarkAll(locks)) == CountsOf(locks);
  }

  // A lock array that does not grow for a table covers the table.
  lemma GrownSame(env: Env, locks: Locks, hp: nat)
    requires |Grown(env, locks, Pow2(hp))| == |locks| <= env.Stripes()
    ensures Grown(env, locks, Pow2(hp)) == locks && Covered(env, hp, locks) && Covered(env, hp, MarkAll(locks))
  {
  }

  // What replacing the table under all locks has to provide.
  ghost predicate Replaces(env: Env, sh: Shared, sh': Shared) {
    && sh'.holder == sh.holder && sh'.later == sh.later && |sh'.locks| == |sh.locks|
    && DataOk(env, sh') && FlagsOk(env, sh'.prev, sh'.locks)
    && sh'.remaining == Unmigrated(sh'.locks) && (sh'.prev.Some? <==> sh'.remaining > 0)
  }

  /** Doubling, lazy or eager, keeps the shared map. */
  lemma DoubledData(env: Env, sh: Shared, t: Tid)
    requires DataOk(env, sh) && |Grown(env, sh.locks, Pow2(sh.hp + 1))| == |sh.locks|
    ensures Wired(sh)
    ensures var sh' := DoubledTable(env, sh, t); Replaces(env, sh, sh') && Wired(sh') && Map(env, sh') == Map(env, sh)
  {
    hide BodyOk, Contents, Doubled, Doubling.View, WellFormed, CountsOf, FlagOk, Unmigrated, Unmark, MarkAll, Grown;
    SettledData(env, sh);
    DataWired(env, sh);
    GrownSame(env, sh.locks, sh.hp + 1);
    MarkedAll(sh.locks);
    var w := View(env, sh.hp, sh.cur, sh.prev);
    if env.Stripes() <= Pow2(sh.hp) {
      LockBitsBound(env, sh.hp);
      LazyDoubleOk(env, sh.hp, w, MarkAll(sh.locks));
    } else {
      DoubledCorrect(env, sh.hp, w);
      EagerData(env, sh.hp + 1, Doubled(env, sh.hp, w), sh.locks, w);
    }
    DataWired(env, DoubledTable(env, sh, t));
  }

  // A table that is completely migrated.
  lemma EagerData(env: Env, hp: nat, bs: Buckets, locks: Locks, w: Buckets)
    requires WellFormed(env, hp, bs) && Contents(bs) == Contents(w) && Sum(CountsOf(locks)) == |Contents(w)|
    ensures BodyOk(env, hp, bs, None, MarkAll(locks)) && FlagsOk(env, None, MarkAll(locks))
    ensures Unmigrated(MarkAll(locks)) == 0 && View(env, hp, bs, None) == bs
  {
    hide Contents;
    MarkedAll(locks);
    assert LazyShape(env, hp, bs, None);
    ViewSettled(env, hp, bs, None);
  }

  // A refused resize changes nothing.
  lemma RefuseOk(env: Env, s: State, t: Tid, cont: PC, lbl: Label)
    requires Inv(env, s) && HasAll(env, s, t) && (cont.Snapshot? || cont.Done?)
    requires Wired(s.sh)
    requires lbl.Tau? || (lbl.Commit? && !lbl.out.Finished?
                          && Linear(env, LimitsIn(s.sh), s.sh.hp, lbl.cmd, lbl.out, Map(env, s.sh), Map(env, s.sh)))
    ensures Good(env, s, Some((Move(s, t, DropAll(s.sh, 0, cont)), lbl)))
  {
    hide LocksOk, FlagsAt, CounterOk, DataOk, PcOk, SameHeld, InBounds, Linear, Map;
    assert PcOk(env, s.sh, s.pc[t]);
    OneContainer(env, s);
    DropAllPc(env, s.sh, s.sh, s.pc[t], cont);
    MoveKeepsInv(env, s, t, DropAll(s.sh, 0, cont));
    SameSize(env, s.sh, s.sh, lbl);
  }

  lemma ReplaceOk(env: Env, s: State, t: Tid, sh': Shared, cont: PC, lbl: Label)
    requires Inv(env, s) && HasAll(env, s, t) && (cont.Snapshot? || cont.Done?) && Replaces(env, s.sh, sh')
    requires Wired(s.sh) && Wired(sh') && Sound(env, s, MoveWith(s, t, DropAll(s.sh, 0, cont), sh'), lbl)
    ensures Good(env, s, Some((MoveWith(s, t, DropAll(s.sh, 0, cont), sh'), lbl)))
  {
    hide LocksOk, FlagsAt, CounterOk, DataOk, Sound, FlagsOk, ThreadsOk, HasAll, DropAll;
    ReplaceKeepsInv(env, s, t, sh', cont);
  }

  // Nothing is claimed once the lock array has grown.
  lemma GrowthGood(env: Env, s: State, o: Outcomes)
    requires o.Some? ==> o.value.0.sh.later != []
    ensures Good(env, s, o)
  {
  }

  // The resize check, in terms of the shared map.
  lemma CheckFacts(env: Env, sh: Shared, auto: bool, origHp: nat, newHp: nat)
    requires DataOk(env, sh) && env.slots >= 1 && Wired(sh)
    ensures var st, lim := ResizeCheck(env, sh, auto, origHp, newHp), LimitsIn(sh);
            var sparse := Sparse(lim, |Map(env, sh)|, sh.hp, env.slots);
            && (st == MaxHashpowerExceeded <==> Exceeds(lim, newHp))
            && (st == LoadFactorTooLow <==> !Exceeds(lim, newHp) && auto && sparse)
            && (st == Resized <==> !Exceeds(lim, newHp) && !(auto && sparse) && sh.hp == origHp)
  {
    hide Validity, Sparse, DataOk, Map;
    DataWired(env, sh);
    ValidityExact(|Map(env, sh)|, sh.hp, env.slots, LimitsIn(sh), auto, origHp, newHp);
  }

  lemma DoubledSize(env: Env, sh: Shared, t: Tid)
    requires Wired(sh)
    ensures DoubledTable(env, sh, t).hp == sh.hp + 1 && LimitsIn(DoubledTable(env, sh, t)) == LimitsIn(sh)
  {
    hide Doubled, Doubling.View, Grown, BlankBuckets, Unmark, MarkAll;
  }

  lemma RebuiltSize(env: Env, sh: Shared, t: Tid, hp: nat, bs: Buckets)
    ensures RebuiltTable(env, sh, t, hp, bs).hp == hp && LimitsIn(RebuiltTable(env, sh, t, hp, bs)) == LimitsIn(sh)
  {
    hide Grown, MarkAll;
  }

  lemma DoubleOk(env: Env, s: State, t: Tid)
    requires Inv(env, s) && HasAll(env, s, t) && s.pc[t].goal.Double?
    ensures Good(env, s, DoubleStep(env, s, t, s.pc[t].c, s.pc[t].goal))
  {
    hide LocksOk, FlagsAt, CounterOk, DataOk, Map, DoubledTable, DropAll, ResizeCheck, Everything, Replaces, Good, PcOk,
      Sparse;
    var p := s.pc[t];
    assert PcOk(env, s.sh, p);
    OneContainer(env, s);
    GlobalPc(env, s.sh, p);
    DataWired(env, s.sh);
    CheckFacts(env, s.sh, true, p.goal.hp, p.goal.hp + 1);
    var st := ResizeCheck(env, s.sh, true, p.goal.hp, p.goal.hp + 1);
    if st == Resized {
      DoubledRows(env, s.sh, t);
      DoubledSize(env, s.sh, t);
      if DoubledTable(env, s.sh, t).later == [] {
        DoubledData(env, s.sh, t);
        ReplaceOk(env, s, t, DoubledTable(env, s.sh, t), Snapshot(p.goal.op), Tau);
      } else {
        GrowthGood(env, s, DoubleStep(env, s, t, p.c, p.goal));
      }
    } else if st == UnderExpansion {
      RefuseOk(env, s, t, Snapshot(p.goal.op), Tau);
    } else {
      var cmd := KeyCmd(p.goal.op);
      var out := if st == MaxHashpowerExceeded then Exceeded(p.goal.hp + 1) else TooFew(s.sh.minLoad);
      RefuseOk(env, s, t, Done(cmd, out), Commit(cmd, out));
    }
  }

  lemma GlobalPc(env: Env, sh: Shared, p: PC)
    requires p.Working? && Global(p.goal) && PcOk(env, sh, p)
    ensures p.c == 0 && (p.goal.Double? ==> p.goal.op.UpraseOp?)
  {
  }

  // A container is appended exactly when the lock array grows.
  lemma DoubledRows(env: Env, sh: Shared, t: Tid)
    requires Wired(sh) && sh.later == []
    ensures DoubledTable(env, sh, t).later == [] ==> |Grown(env, sh.locks, Pow2(sh.hp + 1))| == |sh.locks|
  {
  }

  lemma RebuiltData(env: Env, sh: Shared, t: Tid, hp: nat, bs: Buckets)
    requires DataOk(env, sh) && Wired(sh) && WellFormed(env, hp, bs) && Contents(bs) == Map(env, sh)
    requires |Grown(env, sh.locks, Pow2(hp))| == |sh.locks|
    ensures var sh' := RebuiltTable(env, sh, t, hp, bs);
            Replaces(env, sh, sh') && Wired(sh') && Map(env, sh') == Map(env, sh)
  {
    hide Contents, WellFormed, Doubling.View, CountsOf, LazyOk, Unmigrated, MarkAll, Grown;
    GrownSame(env, sh.locks, hp);
    EagerData(env, hp, bs, sh.locks, View(env, sh.hp, sh.cur, sh.prev));
  }

  lemma RebuildOk(env: Env, s: State, t: Tid, c: Choice)
    requires Inv(env, s) && HasAll(env, s, t) && s.pc[t].goal.Rebuild?
    ensures Good(env, s, RebuildStep(env, s, t, s.pc[t].c, s.pc[t].goal, c))
  {
    hide LocksOk, FlagsAt, CounterOk, DataOk, DropAll, ResizeCheck, Everything, Replaces, Good, WellFormed, Contents,
      Doubling.View, MarkAll, Grown, PcOk, Cramps, Sparse;
    var p, sh := s.pc[t], s.sh;
    assert PcOk(env, sh, p);
    OneContainer(env, s);
    GlobalPc(env, sh, p);
    DataWired(env, sh);
    CheckFacts(env, sh, false, sh.hp, p.goal.newHp);
    var st := ResizeCheck(env, sh, false, sh.hp, p.goal.newHp);
    var cmd, out := ResizeCmd(p.goal.newHp), Exceeded(p.goal.newHp);
    var o := RebuildStep(env, s, t, p.c, p.goal, c);
    if st == MaxHashpowerExceeded {
      RefuseOk(env, s, t, Done(cmd, out), Commit(cmd, out));
    } else if o.Some? && o.value.0.sh.later == [] {
      RebuiltSize(env, sh, t, c.hp, c.bs);
      RebuiltData(env, sh, t, c.hp, c.bs);
      ReplaceOk(env, s, t, RebuiltTable(env, sh, t, c.hp, c.bs), Done(cmd, Finished), Commit(cmd, Finished));
    } else {
      GrowthGood(env, s, o);
    }
  }

  lemma WipedData(env: Env, sh: Shared)
    requires DataOk(env, sh)
    ensures var sh' := WithImage(sh, ClearedImage(env, ImageIn(sh)));
            && Replaces(env, sh, sh') && Wired(sh') && Map(env, sh') == map[]
            && sh'.hp == sh.hp && LimitsIn(sh') == LimitsIn(sh)
  {
    hide LazyOk, Contents;
    BlankOk(env, sh.hp, |sh.locks|);
  }

  lemma WipeOk(env: Env, s: State, t: Tid)
    requires Inv(env, s) && HasAll(env, s, t) && s.pc[t].goal.Wipe?
    ensures Good(env, s, WipeStep(env, s, t, s.pc[t].c))
  {
    hide LocksOk, FlagsAt, CounterOk, DataOk, DropAll, Everything, Replaces, Good, Contents, Doubling.View, PcOk,
      ClearedImage, InBounds;
    var p, sh := s.pc[t], s.sh;
    assert PcOk(env, sh, p);
    GlobalPc(env, sh, p);
    DataWired(env, sh);
    WipedData(env, sh);
    var sh' := WithImage(sh, ClearedImage(env, ImageIn(sh)));
    SameSize(env, sh, sh', Commit(ClearCmd, Finished));
    ReplaceOk(env, s, t, sh', Done(ClearCmd, Finished), Commit(ClearCmd, Finished));
  }

  lemma DoneOk(env: Env, s: State, t: Tid, out: Outcome)
    requires Inv(env, s) && t in s.pc && s.pc[t].Done?
    ensures Good(env, s, Some((Move(s, t, Idle), Return(out))))
  {
    hide LocksOk, FlagsAt, CounterOk, DataOk;
    MoveKeepsInv(env, s, t, Idle);
    QuietGood(env, s, Move(s, t, Idle));
  }

  lemma WorkOk(env: Env, s: State, t: Tid, c: Choice)
    requires Inv(env, s) && t in s.pc && s.pc[t].Working?
    ensures Good(env, s, WorkStep(env, s, t, s.pc[t], c))
  {
    hide Inv, KeyStep, ShiftStep, DoubleStep, RebuildStep, WipeStep, Good, Drop;
    match s.pc[t].goal
    case OnKey(_) => KeyOk(env, s, t);
    case Peek(_, _) => PeekOk(env, s, t, c);
    case Settle(_, _, _) => SettleOk(env, s, t, c);
    case Shift(_, _, _) => ShiftOk(env, s, t);
    case Double(_, _) => DoubleOk(env, s, t);
    case Rebuild(_) => RebuildOk(env, s, t, c);
    case Wipe => WipeOk(env, s, t);
  }

  /** Every step of every thread keeps the invariant, and changes the shared map exactly when it
      commits a command and exactly as the command says. */
  lemma StepOk(env: Env, s: State, t: Tid, c: Choice)
    requires Inv(env, s)
    ensures Good(env, s, Do(env, s, t, c))
  {
    hide Inv, StartStep, LocateStep, TakeStep, CheckStep, MigrateStep, CountStep, WorkStep, SearchStep, ReadyStep,
      DropStep, Good;
    if t in s.pc {
      match s.pc[t]
      case Idle => if c.Start? { StartOk(env, s, t, c.cmd); } else { GrowthGood(env, s, None); }
      case Snapshot(_) => SnapshotOk(env, s, t, c);
      case Locating(_, _) => LocateOk(env, s, t);
      case Taking(_, _, _, _, _, _) => TakeOk(env, s, t);
      case Checking(_, _, _, _) => CheckOk(env, s, t);
      case Migrating(_, _, _, _, _, _) => MigrateOk(env, s, t);
      case Counting(_, _, _, _, _) => CountOk(env, s, t);
      case Freeing(_, _, _, _, _) => FreeOk(env, s, t);
      case Working(_, _, _, _) => WorkOk(env, s, t, c);
      case Searching(_, _) => SearchOk(env, s, t, c);
      case Ready(_, _, _, _, _) => ReadyOk(env, s, t);
      case Dropping(_, _, _, _, _) => DropOk(env, s, t);
      case Done(_, out) => DoneOk(env, s, t, out);
    } else {
      GrowthGood(env, s, None);
    }
  }
}
