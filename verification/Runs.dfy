/** Whole runs of the protocol: any number of threads, any schedule, any choices. */
module Runs {
  import opened Hashing
  import opened Bits
  import opened Layout
  import opened CuckooTable
  import opened Resize
  import opened MapSpec
  import opened Protocol
  import opened Safety
  import opened Steps
  import opened Verdicts
  import opened Whole

  datatype Step = Step(t: Tid, c: Choice)

  // A step that was taken, with the hash power of the table at that time.
  datatype Event = Event(t: Tid, lbl: Label, hp: nat)

  datatype Run = Run(last: State, trace: seq<Event>)

  /** The run that starts in `s` and follows the schedule, if every step of it can be taken. */
  ghost function Exec(env: Env, s: State, schedule: seq<Step>): Option<Run> {
    if |schedule| == 0 then Some(Run(s, []))
    else
      var n := |schedule| - 1;
      match Exec(env, s, schedule[..n])
      case None => None
      case Some(r) =>
        match Do(env, r.last, schedule[n].t, schedule[n].c)
        case None => None
        case Some(o) => Some(Run(o.0, r.trace + [Event(schedule[n].t, o.1, r.last.sh.hp)]))
  }

  // How many locks a new table has.
  function InitialLocks(env: Env, hp: nat): nat {
    if Pow2(hp) <= env.Stripes() then Pow2(hp) else env.Stripes()
  }

  // An empty table shared by `threads` idle threads.
  function Init(env: Env, hp: nat, threads: nat, minLoad: real, maxHp: Option<nat>): State {
    State(Shared(hp, BlankBuckets(Pow2(hp), env.slots), None, FreshLocks(InitialLocks(env, hp)),
                 seq(InitialLocks(env, hp), _ => None), [], 0, minLoad, maxHp),
          map t: Tid | t in Below(threads) :: Idle)
  }

  lemma InitOk(env: Env, hp: nat, threads: nat, minLoad: real, maxHp: Option<nat>)
    requires env.Valid()
    ensures var s := Init(env, hp, threads, minLoad, maxHp);
            Inv(env, s) && Wired(s.sh) && Map(env, s.sh) == map[]
  {
    hide Contents, Doubling.View, Unmigrated, BodyOk;
    var s := Init(env, hp, threads, minLoad, maxHp);
    BlankOk(env, hp, InitialLocks(env, hp));
    assert forall t | t in s.pc :: s.pc[t] == Idle;
    assert CountingThreads(s.pc) == {};
    assert FlagsAt(env, s) by {
      assert FlagsOk(env, None, s.sh.locks);
    }
  }

  /** A run in which the lock array has not grown. */
  ghost predicate Steady(env: Env, s: State, schedule: seq<Step>) {
    var r := Exec(env, s, schedule);
    r.Some? && r.value.last.sh.later == []
  }

  lemma SteadyBefore(env: Env, s: State, schedule: seq<Step>)
    requires Steady(env, s, schedule) && |schedule| > 0
    ensures Steady(env, s, schedule[..|schedule| - 1])
  {
    hide Do;
    var n := |schedule| - 1;
    StaysThread(env, Exec(env, s, schedule[..n]).value.last, schedule[n].t, schedule[n].c);
    StepGrows(env, Exec(env, s, schedule[..n]).value.last, schedule[n].t, schedule[n].c);
  }

  /** The invariant holds at the end of every run, hence in every state of every run, for as long as
      the lock array has not grown. */
  lemma {:induction false} InvAlways(env: Env, s: State, schedule: seq<Step>)
    requires Inv(env, s) && Steady(env, s, schedule)
    ensures Inv(env, Exec(env, s, schedule).value.last)
  {
    hide Inv, Do;
    if |schedule| > 0 {
      var n := |schedule| - 1;
      SteadyBefore(env, s, schedule);
      InvAlways(env, s, schedule[..n]);
      var r := Exec(env, s, schedule[..n]).value;
      StepOk(env, r.last, schedule[n].t, schedule[n].c);
    }
  }

  /** The lock array never grows in a table created with at least as many buckets as stripes. */
  lemma {:induction false} NeverGrows(env: Env, s: State, schedule: seq<Step>)
    requires Inv(env, s) && |s.sh.locks| == env.Stripes() && Exec(env, s, schedule).Some?
    ensures Steady(env, s, schedule) && |Exec(env, s, schedule).value.last.sh.locks| == env.Stripes()
  {
    hide LocksOk, DataOk, FlagsAt, ThreadsOk, CounterOk, Do;
    if |schedule| == 0 {
      OneContainer(env, s);
    } else {
      var n := |schedule| - 1;
      NeverGrows(env, s, schedule[..n]);
      InvAlways(env, s, schedule[..n]);
      StaysThread(env, Exec(env, s, schedule[..n]).value.last, schedule[n].t, schedule[n].c);
      StepGrows(env, Exec(env, s, schedule[..n]).value.last, schedule[n].t, schedule[n].c);
    }
  }

  // The effect on the map of a command that takes effect with outcome `out`.
  function Effect(cmd: Cmd, out: Outcome, m: map<Key, Value>): map<Key, Value> {
    match cmd
    case KeyCmd(op) => if out.Answered? then After(op, m) else m
    case ResizeCmd(_) => m
    case ClearCmd => map[]
  }

  /** The outcomes a command may have on map `m`, stored in a table of hash power `hp` with the given limits.
      Only an insertion or a resize may fail with an exception, and only for a reason. */
  ghost predicate Permitted(env: Env, lim: Limits, hp: nat, cmd: Cmd, out: Outcome, m: map<Key, Value>) {
    match out
    case Answered(r) => cmd.KeyCmd? && r == Answer(cmd.op, m)
    case Finished => cmd.ClearCmd? || (cmd.ResizeCmd? && !Exceeds(lim, cmd.newHp))
    case Exceeded(n) =>
      ((cmd.KeyCmd? && cmd.op.UpraseOp?) || (cmd.ResizeCmd? && cmd.newHp == n)) && Exceeds(lim, n)
    case TooFew(x) => cmd.KeyCmd? && cmd.op.UpraseOp? && x == lim.minLoad && Sparse(lim, |m|, hp, env.slots)
  }

  // The commands that took effect, one after the other, on a plain map.
  function Replay(m: map<Key, Value>, trace: seq<Event>): map<Key, Value> {
    if |trace| == 0 then m
    else
      var e, m' := trace[|trace| - 1], Replay(m, trace[..|trace| - 1]);
      if e.lbl.Commit? then Effect(e.lbl.cmd, e.lbl.out, m') else m'
  }

  // The thread took a step when the table had hash power `hp`.
  ghost predicate Saw(trace: seq<Event>, t: Tid, hp: nat) {
    exists i :: 0 <= i < |trace| && trace[i].t == t && trace[i].hp == hp
  }

  // An insertion that fails for the maximum has given up at the hash power below the one it reports.
  ghost predicate Excused(trace: seq<Event>, e: Event) {
    e.lbl.Commit? && e.lbl.cmd.KeyCmd? && e.lbl.out.Exceeded? ==>
      e.lbl.out.hp > 0 && Saw(trace, e.t, e.lbl.out.hp - 1)
  }

  // What may happen on a table that stands for map `m`, and leave it at hash power `hp'`.
  ghost predicate Lawful(env: Env, lim: Limits, trace: seq<Event>, e: Event, m: map<Key, Value>, hp': nat) {
    && (e.lbl.Commit? ==> Permitted(env, lim, e.hp, e.lbl.cmd, e.lbl.out, m))
    && Excused(trace, e) && Scales(env, lim, m, e.lbl, e.hp, hp')
  }

  /** A trace that leads from map `m` and hash power `hp0` to hash power `hp`: every outcome is the one that the
      commands executed so far call for, and the hash power changes only for a reason. */
  ghost predicate Legal(env: Env, lim: Limits, m: map<Key, Value>, hp0: nat, trace: seq<Event>, hp: nat) {
    if |trace| == 0 then hp == hp0
    else
      var n := |trace| - 1;
      && Legal(env, lim, m, hp0, trace[..n], trace[n].hp)
      && Lawful(env, lim, trace[..n], trace[n], Replay(m, trace[..n]), hp)
  }

  // A trace with one more event, of a step that leads from map `m` to map `m'`.
  lemma LongerTrace(env: Env, lim: Limits, m0: map<Key, Value>, hp0: nat, trace: seq<Event>, e: Event,
                    m: map<Key, Value>, m': map<Key, Value>, hp': nat)
    requires m == Replay(m0, trace) && Legal(env, lim, m0, hp0, trace, e.hp) && Excused(trace, e)
    requires if e.lbl.Commit? then Linear(env, lim, e.hp, e.lbl.cmd, e.lbl.out, m, m') else m' == m
    requires Scales(env, lim, m, e.lbl, e.hp, hp')
    ensures m' == Replay(m0, trace + [e]) && Legal(env, lim, m0, hp0, trace + [e], hp')
  {
    hide After, Answer, Does, Sparse, Scales, Excused, Saw;
    if e.lbl.Commit? && e.lbl.cmd.KeyCmd? && e.lbl.out.Answered? {
      DoesIsAfter(e.lbl.cmd.op, m, m', e.lbl.out.res);
    }
    assert (trace + [e])[..|trace + [e]| - 1] == trace;
  }

  // What a thread has found the hash power to be, it has seen.
  ghost predicate SeenIt(trace: seq<Event>, t: Tid, p: PC) {
    Found(p).Some? ==> Saw(trace, t, Found(p).value)
  }

  lemma SawMore(trace: seq<Event>, e: Event, t: Tid, hp: nat)
    requires Saw(trace, t, hp) || (e.t == t && e.hp == hp)
    ensures Saw(trace + [e], t, hp)
  {
    var longer := trace + [e];
    if Saw(trace, t, hp) {
      var i :| 0 <= i < |trace| && trace[i].t == t && trace[i].hp == hp;
      assert longer[i] == trace[i];
    } else {
      assert longer[|trace|] == e;
    }
  }

  /** In every run, the hash power at which a thread searches and gives up is one it has seen. */
  lemma {:induction false} FoundIsSeen(env: Env, s: State, schedule: seq<Step>, t: Tid)
    requires Inv(env, s) && Steady(env, s, schedule) && t in s.pc && s.pc[t].Idle?
    ensures var r := Exec(env, s, schedule).value; t in r.last.pc && SeenIt(r.trace, t, r.last.pc[t])
  {
    hide Inv, Do, Found, PhaseOf, NextPhase, Saw;
    if |schedule| == 0 {
      assert Found(Idle).None? by { IdleFoundNothing(); }
    } else {
      var n := |schedule| - 1;
      SteadyBefore(env, s, schedule);
      FoundIsSeen(env, s, schedule[..n], t);
      InvAlways(env, s, schedule[..n]);
      var r, u, c := Exec(env, s, schedule[..n]).value, schedule[n].t, schedule[n].c;
      StaysThread(env, r.last, u, c);
      StepPhase(env, r.last, u, c);
      StepFinds(env, r.last, u, c);
      var o := Do(env, r.last, u, c).value;
      var e := Event(u, o.1, r.last.sh.hp);
      if Found(o.0.pc[t]).Some? {
        SawMore(r.trace, e, t, Found(o.0.pc[t]).value);
      }
    }
  }

  lemma IdleFoundNothing()
    ensures Found(Idle).None?
  {
  }

  // A failing insertion is excused by what its thread has seen.
  lemma StepExcused(env: Env, s: State, t: Tid, c: Choice, trace: seq<Event>)
    requires Inv(env, s) && t in s.pc && SeenIt(trace, t, s.pc[t]) && Do(env, s, t, c).Some?
    ensures Excused(trace, Event(t, Do(env, s, t, c).value.1, s.sh.hp))
  {
    hide Inv, Do, Found, Saw;
    var lbl := Do(env, s, t, c).value.1;
    if lbl.Commit? && lbl.cmd.KeyCmd? && lbl.out.Exceeded? {
      ThrowsExactly(env, s, t, lbl.cmd.op, c);
      DoubleExact(env, s, t, lbl.cmd.op, s.pc[t].goal.hp, c);
      DoublerFound(s.pc[t]);
    }
  }

  lemma DoublerFound(p: PC)
    requires p.Working? && p.goal.Double?
    ensures Found(p) == Some(p.goal.hp)
  {
  }

  // All threads start outside any command.
  ghost predicate AllIdle(s: State) {
    forall t | t in s.pc :: s.pc[t].Idle?
  }

  /** Linearizability, first half: executing the commands one at a time, in the order in which they
      took effect, gives the shared map and exactly the outcomes the threads were given. */
  lemma {:induction false} Linearizable(env: Env, s: State, schedule: seq<Step>)
    requires Inv(env, s) && Steady(env, s, schedule) && AllIdle(s)
    ensures var r := Exec(env, s, schedule).value;
            && Wired(s.sh) && Wired(r.last.sh) && LimitsIn(r.last.sh) == LimitsIn(s.sh) && r.last.pc.Keys == s.pc.Keys
            && Map(env, r.last.sh) == Replay(Map(env, s.sh), r.trace)
            && Legal(env, LimitsIn(s.sh), Map(env, s.sh), s.sh.hp, r.trace, r.last.sh.hp)
  {
    hide Inv, Do, Map, Linear, Effect, Lawful, Scales, Excused, SeenIt, PhaseOf, NextPhase;
    if |schedule| == 0 {
      InvWired(env, s);
    } else {
      var n := |schedule| - 1;
      SteadyBefore(env, s, schedule);
      Linearizable(env, s, schedule[..n]);
      InvAlways(env, s, schedule[..n]);
      var r, u, c := Exec(env, s, schedule[..n]).value, schedule[n].t, schedule[n].c;
      StaysThread(env, r.last, u, c);
      FoundIsSeen(env, s, schedule[..n], u);
      StepExcused(env, r.last, u, c, r.trace);
      StepPhase(env, r.last, u, c);
      StepOk(env, r.last, u, c);
      var o := Do(env, r.last, u, c).value;
      LongerTrace(env, LimitsIn(s.sh), Map(env, s.sh), s.sh.hp, r.trace, Event(u, o.1, r.last.sh.hp),
                  Map(env, r.last.sh), Map(env, o.0.sh), o.0.sh.hp);
    }
  }

  lemma InvWired(env: Env, s: State)
    requires Inv(env, s)
    ensures Wired(s.sh)
  {
    DataWired(env, s.sh);
  }

  // Where a thread is in the life of a command.
  datatype Phase = Out | Called(cmd: Cmd) | Settled(cmd: Cmd, out: Outcome)

  // A command is invoked, takes effect once, and returns the outcome it took effect with.
  ghost function NextPhase(ph: Phase, lbl: Label): Option<Phase> {
    match lbl
    case Tau => Some(ph)
    case Invoke(cmd) => if ph.Out? then Some(Called(cmd)) else None
    case Commit(cmd, out) => if ph == Called(cmd) then Some(Settled(cmd, out)) else None
    case Return(out) => if ph.Settled? && ph.out == out then Some(Out) else None
  }

  // The phase thread `t` has reached, `None` if its events are out of order.
  ghost function PhaseAfter(trace: seq<Event>, t: Tid): Option<Phase> {
    if |trace| == 0 then Some(Out)
    else
      var e := trace[|trace| - 1];
      match PhaseAfter(trace[..|trace| - 1], t)
      case None => None
      case Some(ph) => if e.t == t then NextPhase(ph, e.lbl) else Some(ph)
  }

  function PhaseOf(p: PC): Phase {
    match p
    case Idle => Out
    case Snapshot(op) => Called(KeyCmd(op))
    case Searching(op, _) => Called(KeyCmd(op))
    case Ready(op, _, _, _, _) => Called(KeyCmd(op))
    case Dropping(_, _, _, _, cont) => PhaseOf(cont)
    case Done(cmd, out) => Settled(cmd, out)
    case Locating(_, g) => Called(CmdOf(g))
    case Taking(_, _, _, _, _, g) => Called(CmdOf(g))
    case Checking(_, _, _, g) => Called(CmdOf(g))
    case Migrating(_, _, _, _, _, g) => Called(CmdOf(g))
    case Counting(_, _, _, _, g) => Called(CmdOf(g))
    case Freeing(_, _, _, _, g) => Called(CmdOf(g))
    case Working(_, _, _, g) => Called(CmdOf(g))
  }

  // A step moves its own thread only, from phase to phase.
  ghost predicate InPhase(s: State, t: Tid, o: Outcomes) {
    o.Some? && t in s.pc ==>
      && t in o.value.0.pc && o.value.0.pc == s.pc[t := o.value.0.pc[t]]
      && NextPhase(PhaseOf(s.pc[t]), o.value.1) == Some(PhaseOf(o.value.0.pc[t]))
  }

  lemma CheckPhase(env: Env, s: State, t: Tid)
    requires t in s.pc && s.pc[t].Checking? && !Global(s.pc[t].goal)
    ensures InPhase(s, t, CheckStep(s, t, s.pc[t]))
  {
  }

  lemma DropPhase(p: PC)
    requires p.Dropping?
    ensures PhaseOf(p) == PhaseOf(p.cont)
  {
  }

  // Letting go of locks, before or after the command has taken effect.
  lemma LeavePhase(s: State, t: Tid, sh': Shared, p': PC, lbl: Label)
    requires t in s.pc && p'.Dropping? && NextPhase(PhaseOf(s.pc[t]), lbl) == Some(PhaseOf(p'.cont))
    ensures InPhase(s, t, Some((MoveWith(s, t, p', sh'), lbl)))
  {
    DropPhase(p');
  }

  lemma KeyPhase(env: Env, s: State, t: Tid)
    requires t in s.pc && s.pc[t].Working? && s.pc[t].goal.OnKey?
    ensures InPhase(s, t, KeyStep(env, s, t, s.pc[t].hp, s.pc[t].c, s.pc[t].goal.op))
  {
    hide Find, Room, TouchSlot, AddSlot, KeyStripes, Sized;
    var o := KeyStep(env, s, t, s.pc[t].hp, s.pc[t].c, s.pc[t].goal.op);
    if o.Some? {
      LeavePhase(s, t, o.value.0.sh, o.value.0.pc[t], o.value.1);
    }
  }

  lemma ReadyPhase(env: Env, s: State, t: Tid)
    requires t in s.pc && s.pc[t].Ready?
    ensures InPhase(s, t, ReadyStep(env, s, t, s.pc[t]))
  {
    hide Find, TouchSlot, AddSlot, KeyStripes, Sized;
    var o := ReadyStep(env, s, t, s.pc[t]);
    if o.Some? {
      LeavePhase(s, t, o.value.0.sh, o.value.0.pc[t], o.value.1);
    }
  }

  lemma ShiftPhase(env: Env, s: State, t: Tid)
    requires t in s.pc && s.pc[t].Working? && s.pc[t].goal.Shift?
    ensures InPhase(s, t, ShiftStep(env, s, t, s.pc[t].hp, s.pc[t].c, s.pc[t].goal))
  {
    hide Displace, ShiftTwo, ShiftExtra, SlotAt;
    var o := ShiftStep(env, s, t, s.pc[t].hp, s.pc[t].c, s.pc[t].goal);
    if o.Some? {
      LeavePhase(s, t, o.value.0.sh, o.value.0.pc[t], Tau);
    }
  }

  lemma ResizePhase(env: Env, s: State, t: Tid, c: Choice)
    requires t in s.pc && s.pc[t].Working? && Global(s.pc[t].goal)
    ensures InPhase(s, t, WorkStep(env, s, t, s.pc[t], c))
  {
    hide DoubledTable, ResizeCheck, Everything, BlankBuckets, MarkAll, Widened, MayRebuild;
    var o := WorkStep(env, s, t, s.pc[t], c);
    if o.Some? {
      LeavePhase(s, t, o.value.0.sh, o.value.0.pc[t], o.value.1);
    }
  }

  lemma WorkPhase(env: Env, s: State, t: Tid, c: Choice)
    requires t in s.pc && s.pc[t].Working?
    ensures InPhase(s, t, WorkStep(env, s, t, s.pc[t], c))
  {
    hide KeyStep, ShiftStep, DoubleStep, RebuildStep, WipeStep;
    var p := s.pc[t];
    match p.goal
    case OnKey(_) => KeyPhase(env, s, t);
    case Shift(_, _, _) => ShiftPhase(env, s, t);
    case Peek(op, _) => LeavePhase(s, t, s.sh, Drop(p.c, p.want, Searching(op, p.hp)), Tau);
    case Settle(op, _, _) => LeavePhase(s, t, s.sh, Drop(p.c, KeyStripes(env, p.hp, op), Searching(op, p.hp)), Tau);
    case _ => ResizePhase(env, s, t, c);
  }

  lemma LockPhase(env: Env, s: State, t: Tid)
    requires t in s.pc
    ensures s.pc[t].Taking? ==> InPhase(s, t, TakeStep(s, t, s.pc[t]))
    ensures s.pc[t].Migrating? ==> InPhase(s, t, MigrateStep(env, s, t, s.pc[t]))
  {
    hide BucketMoved, Everything, Marked, SetHolder, LockRow;
  }

  lemma DropStepPhase(s: State, t: Tid)
    requires t in s.pc && s.pc[t].Dropping?
    ensures InPhase(s, t, DropStep(s, t, s.pc[t]))
  {
    hide Everything, SetHolder, LockRow;
    DropPhase(s.pc[t]);
  }

  lemma StepPhase(env: Env, s: State, t: Tid, c: Choice)
    requires Inv(env, s)
    ensures InPhase(s, t, Do(env, s, t, c))
  {
    hide LocksOk, DataOk, FlagsAt, CounterOk, WorkStep, ReadyStep, CheckStep, TakeStep, MigrateStep, DropStep, Want,
      GoalOk, PathShape;
    if t in s.pc {
      assert PcOk(env, s.sh, s.pc[t]);
      LockPhase(env, s, t);
      match s.pc[t]
      case Checking(_, _, _, _) => CheckPhase(env, s, t);
      case Working(_, _, _, _) => WorkPhase(env, s, t, c);
      case Ready(_, _, _, _, _) => ReadyPhase(env, s, t);
      case Dropping(_, _, _, _, _) => DropStepPhase(s, t);
      case _ =>
    }
  }

  /** Linearizability, second half: every command takes effect exactly once between its invocation
      and its return, and returns the outcome it took effect with. */
  lemma {:induction false} Bracketed(env: Env, s: State, schedule: seq<Step>, t: Tid)
    requires Inv(env, s) && Steady(env, s, schedule) && t in s.pc && s.pc[t].Idle?
    ensures var r := Exec(env, s, schedule).value;
            t in r.last.pc && PhaseAfter(r.trace, t) == Some(PhaseOf(r.last.pc[t]))
  {
    hide Inv, Do, NextPhase, PhaseOf;
    if |schedule| == 0 {
      assert PhaseOf(Idle) == Out by { IdleIsOut(); }
    } else {
      var n := |schedule| - 1;
      SteadyBefore(env, s, schedule);
      Bracketed(env, s, schedule[..n], t);
      InvAlways(env, s, schedule[..n]);
      var r := Exec(env, s, schedule[..n]).value;
      StepPhase(env, r.last, schedule[n].t, schedule[n].c);
      var o := Do(env, r.last, schedule[n].t, schedule[n].c).value;
      StaysThread(env, r.last, schedule[n].t, schedule[n].c);
      var trace := r.trace + [Event(schedule[n].t, o.1, r.last.sh.hp)];
      assert trace[..|trace| - 1] == r.trace;
    }
  }

  lemma IdleIsOut()
    ensures PhaseOf(Idle) == Out
  {
  }

  // A run that starts with an empty table of either enough buckets, or whose lock array has not grown.
  ghost predicate Safe(env: Env, hp: nat, threads: nat, minLoad: real, maxHp: Option<nat>, schedule: seq<Step>) {
    && env.Valid() && Exec(env, Init(env, hp, threads, minLoad, maxHp), schedule).Some?
    && (env.Stripes() <= Pow2(hp) || Steady(env, Init(env, hp, threads, minLoad, maxHp), schedule))
  }

  lemma SafeIsSteady(env: Env, hp: nat, threads: nat, minLoad: real, maxHp: Option<nat>, schedule: seq<Step>)
    requires Safe(env, hp, threads, minLoad, maxHp, schedule)
    ensures var s := Init(env, hp, threads, minLoad, maxHp);
            Inv(env, s) && Steady(env, s, schedule) && Inv(env, Exec(env, s, schedule).value.last)
  {
    hide Exec, LocksOk, FlagsAt, ThreadsOk, CounterOk, DataOk, Steady;
    var s := Init(env, hp, threads, minLoad, maxHp);
    InitOk(env, hp, threads, minLoad, maxHp);
    if env.Stripes() <= Pow2(hp) {
      NeverGrows(env, s, schedule);
    }
    InvAlways(env, s, schedule);
  }

  /** Every run from an empty table, for ever if it has at least as many buckets as stripes and until the
      lock array grows otherwise: the table stands for the map that the commands, executed one at a time
      in the order of their effects, produce; every outcome is the one that sequential execution gives;
      every command takes effect once between its invocation and its return; and the counters add up to
      the size of the map. */
  lemma EveryRun(env: Env, hp: nat, threads: nat, minLoad: real, maxHp: Option<nat>, schedule: seq<Step>)
    requires Safe(env, hp, threads, minLoad, maxHp, schedule)
    ensures var r := Exec(env, Init(env, hp, threads, minLoad, maxHp), schedule).value;
            && Inv(env, r.last) && Wired(r.last.sh)
            && Map(env, r.last.sh) == Replay(map[], r.trace)
            && Legal(env, Limits(minLoad, maxHp), map[], hp, r.trace, r.last.sh.hp)
            && Sum(CountsOf(r.last.sh.locks)) == |Replay(map[], r.trace)|
            && forall t: Tid | t < threads :: t in r.last.pc && PhaseAfter(r.trace, t) == Some(PhaseOf(r.last.pc[t]))
  {
    hide Exec, LocksOk, FlagsAt, ThreadsOk, CounterOk, PhaseAfter, PhaseOf, Replay, Legal, DataOk, Steady;
    var s := Init(env, hp, threads, minLoad, maxHp);
    SafeIsSteady(env, hp, threads, minLoad, maxHp, schedule);
    InitOk(env, hp, threads, minLoad, maxHp);
    Linearizable(env, s, schedule);
    var r := Exec(env, s, schedule).value;
    DataWired(env, r.last.sh);
    forall t: Tid | t < threads
      ensures t in r.last.pc && PhaseAfter(r.trace, t) == Some(PhaseOf(r.last.pc[t]))
    {
      assert t in Below(threads);
      Bracketed(env, s, schedule, t);
    }
  }
}
