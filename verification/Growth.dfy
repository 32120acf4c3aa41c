/**
 When the lock array may grow, two things go wrong.

 A thread looks up the current lock container first and takes its locks later. If the table grows the
 array meanwhile and then shrinks back to the hash power the thread has seen, the hash power check does
 not notice, and the thread goes on under locks that nobody else uses any more.

 A thread that releases all locks looks for further containers only after it has released the last lock
 it knows of. If another thread has taken all locks and appended a container by then, the first thread
 releases the locks of that container too, although the other one holds them.

 Tables created with as many buckets as there can be locks are safe. Below that size the results are about
 tables without a maximum hash power, or with one above the hash power they are created with.
 */
module Growth {
  import opened Hashing
  import opened Bits
  import opened Layout
  import opened Doubling
  import opened CuckooTable
  import opened Resize
  import opened MapSpec
  import opened PathMove
  import opened Protocol
  import opened Safety
  import opened Runs

  /** Which runs to consider: all of them; those that read the true hash power and never shrink the
      table; those that read the true hash power, never call for a resize and double only when no path
      can make room. */
  datatype Rule = Anything | Upwards | NoResize

  ghost predicate Admits(env: Env, rule: Rule, s: State, t: Tid, c: Choice, s': State) {
    match rule
    case Anything => true
    case Upwards => !c.Guess? && s.sh.hp <= s'.sh.hp
    case NoResize => !c.Guess? && !(c.Start? && c.cmd.ResizeCmd?) && (c.GiveUp? ==> Exhausted(env, s, t))
  }

  // A thread looks for a path where there is none.
  ghost predicate Exhausted(env: Env, s: State, t: Tid) {
    && t in s.pc && s.pc[t].Searching? && s.pc[t].hp == s.sh.hp && s.sh.prev == None
    && Stuck(env, s.sh.hp, s.sh.cur, s.pc[t].op.key)
  }

  /** The state a schedule leads to, if the rule admits every step. */
  ghost function Trip(env: Env, rule: Rule, s: State, schedule: seq<Step>): Option<State> {
    if |schedule| == 0 then Some(s)
    else
      var n := |schedule| - 1;
      match Trip(env, rule, s, schedule[..n])
      case None => None
      case Some(s1) =>
        match Do(env, s1, schedule[n].t, schedule[n].c)
        case None => None
        case Some(o) => if Admits(env, rule, s1, schedule[n].t, schedule[n].c, o.0) then Some(o.0) else None
  }

  lemma {:induction false} TripIsExec(env: Env, rule: Rule, s: State, schedule: seq<Step>)
    requires Trip(env, rule, s, schedule).Some?
    ensures Exec(env, s, schedule).Some? && Exec(env, s, schedule).value.last == Trip(env, rule, s, schedule).value
  {
    hide Do;
    if |schedule| > 0 {
      TripIsExec(env, rule, s, schedule[..|schedule| - 1]);
    }
  }

  // The schedule leads from `s` to `s'`.
  ghost predicate Leads(env: Env, rule: Rule, s: State, schedule: seq<Step>, s': State) {
    Trip(env, rule, s, schedule) == Some(s')
  }

  lemma More(env: Env, rule: Rule, s: State, schedule: seq<Step>, s1: State, t: Tid, c: Choice)
    requires Leads(env, rule, s, schedule, s1) && Do(env, s1, t, c).Some?
    requires Admits(env, rule, s1, t, c, Do(env, s1, t, c).value.0)
    ensures Leads(env, rule, s, schedule + [Step(t, c)], Do(env, s1, t, c).value.0)
  {
    hide Do;
    var longer := schedule + [Step(t, c)];
    assert longer[..|longer| - 1] == schedule;
  }

  lemma Begin(env: Env, rule: Rule, s: State, t: Tid, c: Choice)
    requires Do(env, s, t, c).Some? && Admits(env, rule, s, t, c, Do(env, s, t, c).value.0)
    ensures Leads(env, rule, s, [Step(t, c)], Do(env, s, t, c).value.0)
  {
    hide Do;
    assert Leads(env, rule, s, [], s);
    More(env, rule, s, [], s, t, c);
    assert [] + [Step(t, c)] == [Step(t, c)];
  }

  lemma {:induction false} Then(env: Env, rule: Rule, s: State, a: seq<Step>, s1: State, b: seq<Step>, s2: State)
    requires Leads(env, rule, s, a, s1) && Leads(env, rule, s1, b, s2)
    ensures Leads(env, rule, s, a + b, s2)
  {
    hide Do;
    if |b| == 0 {
      assert a + b == a;
    } else {
      var n := |b| - 1;
      var mid := Trip(env, rule, s1, b[..n]).value;
      Then(env, rule, s, a, s1, b[..n], mid);
      More(env, rule, s, a + b[..n], mid, b[n].t, b[n].c);
      assert a + b[..n] + [Step(b[n].t, b[n].c)] == a + b;
    }
  }

  predicate Unlocked(row: seq<Option<Tid>>) {
    forall i | 0 <= i < |row| :: row[i].None?
  }

  // Only the locks of container `c` have changed hands.
  ghost predicate OnlyLocks(sh: Shared, sh': Shared, c: nat) {
    && sh' == sh.(holder := sh'.holder, later := sh'.later) && |sh'.later| == |sh.later|
    && |LockRow(sh', c)| == |LockRow(sh, c)|
    && forall k: nat | k != c :: LockRow(sh', k) == LockRow(sh, k)
  }

  lemma HolderSet(sh: Shared, c: nat, l: nat, h: Option<Tid>)
    requires l < |LockRow(sh, c)|
    ensures OnlyLocks(sh, SetHolder(sh, c, l, h), c)
    ensures LockRow(SetHolder(sh, c, l, h), c) == LockRow(sh, c)[l := h]
  {
  }

  lemma OnlyLocksTwice(sh: Shared, sh1: Shared, sh2: Shared, c: nat)
    requires OnlyLocks(sh, sh1, c) && OnlyLocks(sh1, sh2, c)
    ensures OnlyLocks(sh, sh2, c)
  {
    forall k: nat | k != c
      ensures LockRow(sh2, k) == LockRow(sh, k)
    {
      assert LockRow(sh1, k) == LockRow(sh, k);
    }
  }

  // Where a thread that takes all locks is once it has those of container `c`.
  function AfterRow(sh: Shared, p: PC): PC
    requires p.Taking?
  {
    if p.c < |sh.later| then Taking(p.hp, p.first, p.c + 1, Everything(|LockRow(sh, p.c + 1)|), 0, p.goal)
    else Working(p.hp, p.first, p.want, p.goal)
  }

  /** Taking all locks of one container, from lock `p.got` on. */
  lemma {:induction false} SweepRun(env: Env, rule: Rule, s: State, t: Tid, n: nat)
    returns (schedule: seq<Step>, sh': Shared)
    requires t in s.pc && s.pc[t].Taking? && Global(s.pc[t].goal) && s.pc[t].c <= |s.sh.later|
    requires s.pc[t].want == Everything(n) && s.pc[t].got < n == |LockRow(s.sh, s.pc[t].c)|
    requires forall i | s.pc[t].got <= i < n :: LockRow(s.sh, s.pc[t].c)[i].None?
    ensures Leads(env, rule, s, schedule, MoveWith(s, t, AfterRow(s.sh, s.pc[t]), sh'))
    ensures OnlyLocks(s.sh, sh', s.pc[t].c) && |LockRow(sh', s.pc[t].c)| == n
    ensures forall i | 0 <= i < n ::
              LockRow(sh', s.pc[t].c)[i] == if s.pc[t].got <= i then Some(t) else LockRow(s.sh, s.pc[t].c)[i]
    decreases n - s.pc[t].got
  {
    hide OnlyLocks, SetHolder, LockRow, Leads;
    var p := s.pc[t];
    var sh1 := SetHolder(s.sh, p.c, p.got, Some(t));
    HolderSet(s.sh, p.c, p.got, Some(t));
    SameLater(s.sh, sh1, p.c);
    Begin(env, rule, s, t, Go);
    if p.got + 1 == n {
      schedule, sh' := [Step(t, Go)], sh1;
    } else {
      var p1 := Taking(p.hp, p.first, p.c, p.want, p.got + 1, p.goal);
      var s1 := MoveWith(s, t, p1, sh1);
      var rest, sh2 := SweepRun(env, rule, s1, t, n);
      schedule, sh' := [Step(t, Go)] + rest, sh2;
      OtherRow(s.sh, sh1, p.c, p.c + 1);
      var p2 := AfterRow(s.sh, p);
      assert s1.pc[t := p2] == s.pc[t := p2];
      Then(env, rule, s, [Step(t, Go)], s1, rest, MoveWith(s, t, p2, sh2));
      OnlyLocksTwice(s.sh, sh1, sh2, p.c);
    }
  }

  lemma OtherRow(sh: Shared, sh': Shared, c: nat, k: nat)
    requires OnlyLocks(sh, sh', c) && k != c
    ensures LockRow(sh', k) == LockRow(sh, k) && |sh'.later| == |sh.later|
  {
  }

  // Thread `t` has all locks of container `k`.
  ghost predicate Owns(sh: Shared, k: nat, t: Tid) {
    forall i | 0 <= i < |LockRow(sh, k)| :: LockRow(sh, k)[i] == Some(t)
  }

  /** A thread that takes all locks ends up with those of every container there is, from the one it began with. */
  lemma {:induction false} SweepAllRun(env: Env, rule: Rule, s: State, t: Tid)
    returns (schedule: seq<Step>, s': State)
    requires t in s.pc && s.pc[t].Taking? && Global(s.pc[t].goal) && s.pc[t].got == 0 && s.pc[t].c <= |s.sh.later|
    requires s.pc[t].want == Everything(|LockRow(s.sh, s.pc[t].c)|)
    requires forall k: nat | s.pc[t].c <= k <= |s.sh.later| :: |LockRow(s.sh, k)| > 0 && Unlocked(LockRow(s.sh, k))
    ensures Leads(env, rule, s, schedule, s') && t in s'.pc && s'.pc[t].Working? && s'.pc[t].goal == s.pc[t].goal
    ensures LocksFrom(s.sh, s'.sh, s.pc[t].c) && forall k: nat | s.pc[t].c <= k <= |s.sh.later| :: Owns(s'.sh, k, t)
    decreases |s.sh.later| - s.pc[t].c
  {
    hide LockRow, Everything, Leads;
    var p := s.pc[t];
    var a, sh1 := SweepRun(env, rule, s, t, |LockRow(s.sh, p.c)|);
    var s1 := MoveWith(s, t, AfterRow(s.sh, p), sh1);
    OneRow(s.sh, sh1, p.c);
    if p.c == |s.sh.later| {
      schedule, s' := a, s1;
    } else {
      var b;
      b, s' := SweepAllRun(env, rule, s1, t);
      schedule := a + b;
      Then(env, rule, s, a, s1, b, s');
    }
  }

  lemma OneRow(sh: Shared, sh': Shared, c: nat)
    requires OnlyLocks(sh, sh', c)
    ensures LocksFrom(sh, sh', c) && forall k: nat | k > c :: LockRow(sh', k) == LockRow(sh, k)
  {
    hide LockRow;
  }

  lemma SameLater(sh: Shared, sh': Shared, c: nat)
    requires OnlyLocks(sh, sh', c)
    ensures |sh'.later| == |sh.later| && |LockRow(sh', c)| == |LockRow(sh, c)|
    ensures sh' == sh.(holder := sh'.holder, later := sh'.later)
  {
  }

  /** Releasing a list of locks of one container. */
  lemma {:induction false} ReleaseRun(env: Env, rule: Rule, s: State, t: Tid) returns (schedule: seq<Step>, sh': Shared)
    requires t in s.pc && s.pc[t].Dropping?
    requires forall i | 0 <= i < |s.pc[t].rest| :: s.pc[t].rest[i] < |LockRow(s.sh, s.pc[t].c)|
    ensures var p := s.pc[t];
            Leads(env, rule, s, schedule, MoveWith(s, t, Dropping(p.all, p.c, [], p.keep, p.cont), sh'))
    ensures OnlyLocks(s.sh, sh', s.pc[t].c)
    ensures |LockRow(sh', s.pc[t].c)| == |LockRow(s.sh, s.pc[t].c)|
    ensures forall i | 0 <= i < |LockRow(sh', s.pc[t].c)| && i in s.pc[t].rest :: LockRow(sh', s.pc[t].c)[i].None?
    ensures forall i | 0 <= i < |LockRow(sh', s.pc[t].c)| && LockRow(s.sh, s.pc[t].c)[i].None? ::
              LockRow(sh', s.pc[t].c)[i].None?
    decreases |s.pc[t].rest|
  {
    hide OnlyLocks, SetHolder, LockRow;
    var p := s.pc[t];
    if |p.rest| == 0 {
      schedule, sh' := [], s.sh;
      assert s.pc[t := p] == s.pc;
      SameLocks(s.sh, p.c);
    } else {
      var sh1 := SetHolder(s.sh, p.c, p.rest[0], None);
      var p1 := Dropping(p.all, p.c, p.rest[1..], p.keep, p.cont);
      var s1 := MoveWith(s, t, p1, sh1);
      HolderSet(s.sh, p.c, p.rest[0], None);
      SameLater(s.sh, sh1, p.c);
      Begin(env, rule, s, t, Go);
      var rest, sh2 := ReleaseRun(env, rule, s1, t);
      schedule, sh' := [Step(t, Go)] + rest, sh2;
      var p2 := Dropping(p.all, p.c, [], p.keep, p.cont);
      assert s1.pc[t := p2] == s.pc[t := p2];
      Then(env, rule, s, [Step(t, Go)], s1, rest, MoveWith(s, t, p2, sh2));
      OnlyLocksTwice(s.sh, sh1, sh2, p.c);
      assert p.rest == [p.rest[0]] + p.rest[1..];
    }
  }

  lemma SameLocks(sh: Shared, c: nat)
    ensures OnlyLocks(sh, sh, c)
  {
  }

  // Locks have changed hands, in container `first` or later.
  ghost predicate LocksFrom(sh: Shared, sh': Shared, first: nat) {
    && sh' == sh.(holder := sh'.holder, later := sh'.later) && |sh'.later| == |sh.later|
    && (forall k: nat :: |LockRow(sh', k)| == |LockRow(sh, k)|)
    && forall k: nat | k < first :: LockRow(sh', k) == LockRow(sh, k)
  }

  /** Releasing all locks from container `p.c` on. */
  lemma {:induction false} ReleaseAllRun(env: Env, rule: Rule, s: State, t: Tid)
    returns (schedule: seq<Step>, sh': Shared)
    requires t in s.pc && s.pc[t].Dropping? && s.pc[t].all && s.pc[t].c <= |s.sh.later|
    requires s.pc[t].rest == Everything(|LockRow(s.sh, s.pc[t].c)|)
    ensures Leads(env, rule, s, schedule, MoveWith(s, t, s.pc[t].cont, sh')) && LocksFrom(s.sh, sh', s.pc[t].c)
    ensures forall k: nat | s.pc[t].c <= k <= |s.sh.later| :: Unlocked(LockRow(sh', k))
    decreases |s.sh.later| - s.pc[t].c
  {
    hide LockRow, Everything, Leads;
    var p := s.pc[t];
    var a, sh1 := ReleaseRun(env, rule, s, t);
    SameLater(s.sh, sh1, p.c);
    var p1 := Dropping(true, p.c, [], p.keep, p.cont);
    var s1 := MoveWith(s, t, p1, sh1);
    More(env, rule, s, a, s1, t, Go);
    AllReleased(s.sh, sh1, p.c);
    if p.c == |s.sh.later| {
      schedule, sh' := a + [Step(t, Go)], sh1;
      assert s1.pc[t := p.cont] == s.pc[t := p.cont];
    } else {
      var p2 := Dropping(true, p.c + 1, Everything(|LockRow(sh1, p.c + 1)|), p.keep, p.cont);
      var s2 := MoveWith(s, t, p2, sh1);
      assert Move(s1, t, p2).pc == s2.pc;
      var b, sh2 := ReleaseAllRun(env, rule, s2, t);
      schedule, sh' := a + [Step(t, Go)] + b, sh2;
      assert s2.pc[t := p.cont] == s.pc[t := p.cont];
      Then(env, rule, s, a + [Step(t, Go)], s2, b, MoveWith(s, t, p.cont, sh2));
    }
  }

  lemma AllReleased(sh: Shared, sh': Shared, c: nat)
    requires OnlyLocks(sh, sh', c)
    requires forall i | 0 <= i < |LockRow(sh', c)| && i in Everything(|LockRow(sh, c)|) :: LockRow(sh', c)[i].None?
    ensures Unlocked(LockRow(sh', c)) && LocksFrom(sh, sh', c)
  {
    forall i | 0 <= i < |LockRow(sh', c)|
      ensures LockRow(sh', c)[i].None?
    {
      assert Everything(|LockRow(sh, c)|)[i] == i;
    }
    forall k: nat
      ensures |LockRow(sh', k)| == |LockRow(sh, k)|
    {
    }
  }

  // An empty table at rest: nobody holds a lock of the current container.
  ghost predicate Still(env: Env, sh: Shared) {
    && sh.prev == None && sh.cur == BlankBuckets(Pow2(sh.hp), env.slots)
    && |sh.locks| == |LockRow(sh, |sh.later|)| > 0 && Unlocked(LockRow(sh, |sh.later|))
    && forall l | 0 <= l < |sh.locks| :: sh.locks[l].migrated
  }

  // What a command that needs all locks goes on to do.
  function WholeGoal(cmd: Cmd): Goal {
    if cmd.ResizeCmd? then Rebuild(cmd.newHp) else Wipe
  }

  // A resize or a clear, up to the point where it holds all locks.
  lemma OwnRun(env: Env, rule: Rule, s: State, t: Tid, cmd: Cmd) returns (schedule: seq<Step>, sh': Shared)
    requires t in s.pc && s.pc[t].Idle? && Still(env, s.sh) && !cmd.KeyCmd?
    requires rule == NoResize ==> cmd == ClearCmd
    ensures var c := |s.sh.later|;
            var p := Working(0, c, Everything(|LockRow(s.sh, c)|), WholeGoal(cmd));
            Leads(env, rule, s, schedule, MoveWith(s, t, p, sh')) && OnlyLocks(s.sh, sh', c)
  {
    hide LockRow, Everything, Leads;
    var c, g := |s.sh.later|, WholeGoal(cmd);
    var s1 := Move(s, t, Locating(0, g));
    Begin(env, rule, s, t, Start(cmd));
    var a := [Step(t, Start(cmd))];
    var s2 := Move(s, t, Taking(0, c, c, Everything(|LockRow(s.sh, c)|), 0, g));
    assert Move(s1, t, s2.pc[t]).pc == s2.pc;
    More(env, rule, s, a, s1, t, Go);
    var b, sh2 := SweepRun(env, rule, s2, t, |LockRow(s.sh, c)|);
    var p3 := Working(0, c, Everything(|LockRow(s.sh, c)|), g);
    assert s2.pc[t := p3] == s.pc[t := p3];
    Then(env, rule, s, a + [Step(t, Go)], s2, b, MoveWith(s, t, p3, sh2));
    schedule, sh' := a + [Step(t, Go)] + b, sh2;
  }

  // Rebuilding the empty table.
  lemma RebuildBlank(env: Env, s: State, t: Tid, c: nat, want: seq<nat>, newHp: nat)
    requires env.Valid() && t in s.pc && s.pc[t] == Working(0, c, want, Rebuild(newHp))
    requires s.sh.prev == None && s.sh.cur == BlankBuckets(Pow2(s.sh.hp), env.slots)
    requires s.sh.maxHp.Some? ==> newHp <= s.sh.maxHp.value
    ensures var bs := BlankBuckets(Pow2(newHp), env.slots);
            var o := Do(env, s, t, Rebuilt(newHp, bs));
            && o.Some?
            && o.value.0 == MoveWith(s, t, DropAll(s.sh, c, Done(ResizeCmd(newHp), Finished)),
                                     RebuiltTable(env, s.sh, t, newHp, bs))
  {
    hide RebuiltTable, BlankBuckets, DropAll, WellFormed, Contents, Doubling.View;
    var bs := BlankBuckets(Pow2(newHp), env.slots);
    BlankContents(env, newHp);
    BlankContents(env, s.sh.hp);
    ViewOfBlank(env, s.sh.hp);
    assert MayRebuild(env, View(env, s.sh.hp, s.sh.cur, s.sh.prev), newHp, newHp, bs);
  }

  lemma ViewOfBlank(env: Env, hp: nat)
    ensures var bs := BlankBuckets(Pow2(hp), env.slots); View(env, hp, bs, None) == bs
  {
    ViewSettled(env, hp, BlankBuckets(Pow2(hp), env.slots), None);
  }

  // Appending a container leaves the others alone.
  lemma RebuiltRows(env: Env, sh: Shared, t: Tid, hp: nat, bs: Buckets)
    ensures var w := RebuiltTable(env, sh, t, hp, bs);
            && w.hp == hp && w.cur == bs && w.prev == None && w.maxHp == sh.maxHp
            && |w.locks| == |Grown(env, sh.locks, Pow2(hp))| && (forall l | 0 <= l < |w.locks| :: w.locks[l].migrated)
            && |w.later| == |sh.later| + (if |w.locks| == |sh.locks| then 0 else 1)
            && (forall k: nat | k <= |sh.later| :: LockRow(w, k) == LockRow(sh, k))
            && (|w.locks| != |sh.locks| ==> |LockRow(w, |w.later|)| == |w.locks|)
  {
  }

  // What a resize call on an empty table leaves of the locks.
  ghost predicate Resizes(env: Env, sh: Shared, newHp: nat, sh': Shared) {
    && sh'.hp == newHp && sh'.maxHp == sh.maxHp && |sh'.locks| == |Grown(env, sh.locks, Pow2(newHp))|
    && |sh'.later| == |sh.later| + (if |sh'.locks| == |sh.locks| then 0 else 1)
    && forall k: nat | k <= |sh.later| :: |LockRow(sh', k)| == |LockRow(sh, k)|
  }

  // A resize call on an empty table up to the point where it begins to release the locks.
  lemma ReplaceRun(env: Env, rule: Rule, s: State, t: Tid, newHp: nat) returns (schedule: seq<Step>, sh': Shared)
    requires env.Valid() && t in s.pc && s.pc[t].Idle? && Still(env, s.sh) && rule != NoResize
    requires rule == Upwards ==> s.sh.hp <= newHp
    requires s.sh.maxHp.Some? ==> newHp <= s.sh.maxHp.value
    ensures var c := |s.sh.later|;
            var p := DropAll(s.sh, c, Done(ResizeCmd(newHp), Finished));
            Leads(env, rule, s, schedule, MoveWith(s, t, p, sh')) && Resizes(env, s.sh, newHp, sh')
    ensures sh'.prev == None && sh'.cur == BlankBuckets(Pow2(newHp), env.slots)
    ensures |sh'.locks| == |LockRow(sh', |sh'.later|)| > 0
    ensures forall l | 0 <= l < |sh'.locks| :: sh'.locks[l].migrated
    ensures forall k: nat | k < |s.sh.later| :: LockRow(sh', k) == LockRow(s.sh, k)
  {
    hide LockRow, Everything, BlankBuckets, RebuiltTable, Grown, Unlocked, Leads;
    var c, bs := |s.sh.later|, BlankBuckets(Pow2(newHp), env.slots);
    var a, sh1 := OwnRun(env, rule, s, t, ResizeCmd(newHp));
    SameLater(s.sh, sh1, c);
    var s1 := MoveWith(s, t, Working(0, c, Everything(|LockRow(s.sh, c)|), Rebuild(newHp)), sh1);
    RebuildBlank(env, s1, t, c, s1.pc[t].want, newHp);
    RebuiltRows(env, sh1, t, newHp, bs);
    More(env, rule, s, a, s1, t, Rebuilt(newHp, bs));
    schedule, sh' := a + [Step(t, Rebuilt(newHp, bs))], RebuiltTable(env, sh1, t, newHp, bs);
    var p2 := DropAll(s.sh, c, Done(ResizeCmd(newHp), Finished));
    assert MoveWith(s1, t, p2, sh').pc == MoveWith(s, t, p2, sh').pc;
    assert forall k: nat | k < c :: LockRow(sh1, k) == LockRow(s.sh, k);
  }

  /** A whole resize call on an empty table, from `Idle` back to `Idle`, with nobody else moving. */
  lemma ResizeRun(env: Env, rule: Rule, s: State, t: Tid, newHp: nat) returns (schedule: seq<Step>, sh': Shared)
    requires env.Valid() && t in s.pc && s.pc[t].Idle? && Still(env, s.sh) && rule != NoResize
    requires rule == Upwards ==> s.sh.hp <= newHp
    requires s.sh.maxHp.Some? ==> newHp <= s.sh.maxHp.value
    ensures Leads(env, rule, s, schedule, State(sh', s.pc)) && Still(env, sh') && Resizes(env, s.sh, newHp, sh')
    ensures forall k: nat | k <= |s.sh.later| && Unlocked(LockRow(s.sh, k)) :: Unlocked(LockRow(sh', k))
  {
    hide LockRow, Everything, BlankBuckets, Grown, Unlocked, Leads;
    var c, cont := |s.sh.later|, Done(ResizeCmd(newHp), Finished);
    var a, sh2 := ReplaceRun(env, rule, s, t, newHp);
    var s2 := MoveWith(s, t, DropAll(s.sh, c, cont), sh2);
    var b, sh3 := ReleaseAllRun(env, rule, s2, t);
    var s3 := MoveWith(s2, t, cont, sh3);
    Then(env, rule, s, a, s2, b, s3);
    More(env, rule, s, a + b, s3, t, Go);
    schedule, sh' := a + b + [Step(t, Go)], sh3;
    assert s3.pc[t := Idle] == s.pc;
    assert |LockRow(sh3, |sh3.later|)| == |LockRow(sh2, |sh3.later|)|;
    assert Still(env, sh3);
  }

  // Passing over stripes that have been migrated.
  lemma {:induction false} SettledRun(env: Env, rule: Rule, s: State, t: Tid) returns (schedule: seq<Step>)
    requires t in s.pc && s.pc[t].Migrating? && s.pc[t].next.None?
    requires forall i | 0 <= i < |s.pc[t].want| ::
               s.pc[t].want[i] < |s.sh.locks| && s.sh.locks[s.pc[t].want[i]].migrated
    ensures var p := s.pc[t]; Leads(env, rule, s, schedule, Move(s, t, Working(p.hp, p.c, p.want, p.goal)))
    decreases |s.pc[t].want| - s.pc[t].at
  {
    hide Leads;
    var p := s.pc[t];
    Begin(env, rule, s, t, Go);
    schedule := [Step(t, Go)];
    if p.at < |p.want| {
      var p1 := Migrating(p.hp, p.c, p.want, p.at + 1, None, p.goal);
      var s1 := Move(s, t, p1);
      var rest := SettledRun(env, rule, s1, t);
      var p2 := Working(p.hp, p.c, p.want, p.goal);
      assert s1.pc[t := p2] == s.pc[t := p2];
      Then(env, rule, s, schedule, s1, rest, Move(s, t, p2));
      schedule := schedule + rest;
    }
  }

  // Taking the one or two locks of a key, the hash power being the expected one.
  lemma LockRun(env: Env, rule: Rule, s: State, t: Tid) returns (schedule: seq<Step>, sh': Shared)
    requires t in s.pc && s.pc[t].Taking? && s.pc[t].first == s.pc[t].c && s.pc[t].got == 0
    requires !Global(s.pc[t].goal) && s.pc[t].hp == s.sh.hp && Unlocked(LockRow(s.sh, s.pc[t].c))
    requires |s.pc[t].want| == 1 || (|s.pc[t].want| == 2 && s.pc[t].want[0] != s.pc[t].want[1])
    requires forall i | 0 <= i < |s.pc[t].want| :: s.pc[t].want[i] < |LockRow(s.sh, s.pc[t].c)|
    ensures var p := s.pc[t];
            Leads(env, rule, s, schedule, MoveWith(s, t, Migrating(p.hp, p.c, p.want, 0, None, p.goal), sh'))
    ensures OnlyLocks(s.sh, sh', s.pc[t].c)
  {
    hide LockRow, SetHolder, OnlyLocks, Leads;
    var p := s.pc[t];
    sh' := SetHolder(s.sh, p.c, p.want[0], Some(t));
    HolderSet(s.sh, p.c, p.want[0], Some(t));
    SameLater(s.sh, sh', p.c);
    var s1 := MoveWith(s, t, Checking(p.hp, p.c, p.want, p.goal), sh');
    Begin(env, rule, s, t, Go);
    schedule := [Step(t, Go)];
    var p2 := if |p.want| == 1 then Migrating(p.hp, p.c, p.want, 0, None, p.goal)
              else Taking(p.hp, p.c, p.c, p.want, 1, p.goal);
    var s2 := MoveWith(s, t, p2, sh');
    assert Move(s1, t, p2).pc == s2.pc;
    More(env, rule, s, schedule, s1, t, Go);
    schedule := schedule + [Step(t, Go)];
    if |p.want| == 2 {
      var sh2 := SetHolder(sh', p.c, p.want[1], Some(t));
      HolderSet(sh', p.c, p.want[1], Some(t));
      OnlyLocksTwice(s.sh, sh', sh2, p.c);
      var p3 := Migrating(p.hp, p.c, p.want, 0, None, p.goal);
      assert MoveWith(s2, t, p3, sh2) == MoveWith(s, t, p3, sh2);
      More(env, rule, s, schedule, s2, t, Go);
      schedule, sh' := schedule + [Step(t, Go)], sh2;
    }
  }

  /** An operation on a key, from the lookup of the lock container to its critical section. */
  lemma KeyRun(env: Env, rule: Rule, s: State, t: Tid, op: Op, c: nat) returns (schedule: seq<Step>, sh': Shared)
    requires var w := Pair(S1(env, s.sh.hp, op), S2(env, s.sh.hp, op));
             && t in s.pc && s.pc[t] == Taking(s.sh.hp, c, c, w, 0, OnKey(op)) && Unlocked(LockRow(s.sh, c))
             && (forall i | 0 <= i < |w| :: w[i] < |LockRow(s.sh, c)| && w[i] < |s.sh.locks|)
    requires forall l | 0 <= l < |s.sh.locks| :: s.sh.locks[l].migrated
    ensures var w := Pair(S1(env, s.sh.hp, op), S2(env, s.sh.hp, op));
            Leads(env, rule, s, schedule, MoveWith(s, t, Working(s.sh.hp, c, w, OnKey(op)), sh'))
    ensures OnlyLocks(s.sh, sh', c)
  {
    hide LockRow, OnlyLocks, S1, S2, Unlocked, Leads;
    var w := Pair(S1(env, s.sh.hp, op), S2(env, s.sh.hp, op));
    var a, sh1 := LockRun(env, rule, s, t);
    SameLater(s.sh, sh1, c);
    var s1 := MoveWith(s, t, Migrating(s.sh.hp, c, w, 0, None, OnKey(op)), sh1);
    var b := SettledRun(env, rule, s1, t);
    var p2 := Working(s.sh.hp, c, w, OnKey(op));
    assert s1.pc[t := p2] == s.pc[t := p2];
    Then(env, rule, s, a, s1, b, MoveWith(s, t, p2, sh1));
    schedule, sh' := a + b, sh1;
  }

  // From reading the hash power to the lookup of the current lock container.
  lemma SnapRun(env: Env, rule: Rule, s: State, t: Tid, op: Op) returns (schedule: seq<Step>)
    requires t in s.pc && s.pc[t] == Snapshot(op)
    ensures var w, c := Pair(S1(env, s.sh.hp, op), S2(env, s.sh.hp, op)), |s.sh.later|;
            Leads(env, rule, s, schedule, Move(s, t, Taking(s.sh.hp, c, c, w, 0, OnKey(op))))
  {
    hide S1, S2, Pair, Leads, LockRow;
    var w, c := Pair(S1(env, s.sh.hp, op), S2(env, s.sh.hp, op)), |s.sh.later|;
    var p1, p2 := Locating(s.sh.hp, OnKey(op)), Taking(s.sh.hp, c, c, w, 0, OnKey(op));
    var s1, s2 := Move(s, t, p1), Move(s, t, p2);
    assert Move(s1, t, p2) == s2;
    Begin(env, rule, s, t, Go);
    More(env, rule, s, [Step(t, Go)], s1, t, Go);
    schedule := [Step(t, Go)] + [Step(t, Go)];
  }

  // From the call of an operation to the lookup of the current lock container.
  lemma CallRun(env: Env, rule: Rule, s: State, t: Tid, op: Op) returns (schedule: seq<Step>)
    requires t in s.pc && s.pc[t].Idle?
    ensures var w, c := Pair(S1(env, s.sh.hp, op), S2(env, s.sh.hp, op)), |s.sh.later|;
            Leads(env, rule, s, schedule, Move(s, t, Taking(s.sh.hp, c, c, w, 0, OnKey(op))))
  {
    hide S1, S2, Pair, Leads, LockRow;
    var w, c := Pair(S1(env, s.sh.hp, op), S2(env, s.sh.hp, op)), |s.sh.later|;
    var s1 := Move(s, t, Snapshot(op));
    Begin(env, rule, s, t, Start(KeyCmd(op)));
    var b := SnapRun(env, rule, s1, t, op);
    var p := Taking(s.sh.hp, c, c, w, 0, OnKey(op));
    assert Move(s1, t, p).pc == Move(s, t, p).pc;
    Then(env, rule, s, [Step(t, Start(KeyCmd(op)))], s1, b, Move(s, t, p));
    schedule := [Step(t, Start(KeyCmd(op)))] + b;
  }

  // A key's stripes lie within a lock array that covers the table.
  lemma KeyInRange(env: Env, hp: nat, op: Op, locks: Locks)
    requires Covered(env, hp, locks)
    ensures var w := Pair(S1(env, hp, op), S2(env, hp, op)); forall i | 0 <= i < |w| :: w[i] < |locks|
  {
    StripeInRange(env, hp, locks, env.I1(hp, op.key));
    StripeInRange(env, hp, locks, env.I2(hp, op.key));
  }

  // Thread `t` is past the hash power check, inside a critical section on stripe `l`.
  ghost predicate Inside(env: Env, s: State, t: Tid, l: nat) {
    && t in s.pc && l in Held(env, s.pc[t])
    && (s.pc[t].Migrating? || s.pc[t].Counting? || s.pc[t].Freeing? || s.pc[t].Working? || s.pc[t].Ready?)
  }

  ghost predicate Collide(env: Env, s: State) {
    exists t, u, l :: t != u && Inside(env, s, t, l) && Inside(env, s, u, l)
  }

  lemma InitStill(env: Env, hp: nat, minLoad: real, maxHp: Option<nat>)
    requires Pow2(hp) < env.Stripes()
    ensures var s := Init(env, hp, 2, minLoad, maxHp);
            && Still(env, s.sh) && Covered(env, hp, s.sh.locks) && |s.sh.locks| == |LockRow(s.sh, 0)| == Pow2(hp)
            && 0 in s.pc && 1 in s.pc && s.pc[0].Idle? && s.pc[1].Idle?
  {
    BlankContents(env, hp);
  }

  // The array grows once, and not again on the way back.
  lemma GrowsOnce(env: Env, h: nat, locks: Locks)
    requires Pow2(h) < env.Stripes()
    ensures |locks| == Pow2(h) ==> |Grown(env, locks, Pow2(h + 1))| > |locks|
    ensures |locks| >= Pow2(h) ==> Grown(env, locks, Pow2(h)) == locks
  {
  }

  // Thread 1 grows the table and shrinks it back, while thread 0 waits with the locks it has looked up.
  lemma GrowAndShrink(env: Env, s: State, h: nat) returns (schedule: seq<Step>, sh': Shared)
    requires env.Valid() && Pow2(h) < env.Stripes() && s.sh.hp == h && (s.sh.maxHp.Some? ==> h < s.sh.maxHp.value)
    requires Still(env, s.sh) && s.sh.later == [] && |s.sh.locks| == Pow2(h) && 1 in s.pc && s.pc[1].Idle?
    ensures Leads(env, Anything, s, schedule, State(sh', s.pc)) && Still(env, sh') && sh'.hp == h && |sh'.later| == 1
    ensures Unlocked(LockRow(sh', 0)) && |LockRow(sh', 0)| == Pow2(h) <= |sh'.locks| && Covered(env, h, sh'.locks)
  {
    hide Leads, LockRow, Unlocked, BlankBuckets, Grown, Still;
    StillRow(env, s.sh);
    GrowsOnce(env, h, s.sh.locks);
    CoveredAt(env, h, s.sh.locks);
    var a, sh1 := ResizeRun(env, Anything, s, 1, h + 1);
    GrownCovers(env, s.sh, h + 1, sh1);
    GrowsOnce(env, h, sh1.locks);
    var b, sh2 := ResizeRun(env, Anything, State(sh1, s.pc), 1, h);
    GrownCovers(env, sh1, h, sh2);
    Then(env, Anything, s, a, State(sh1, s.pc), b, State(sh2, s.pc));
    schedule, sh' := a + b, sh2;
  }

  // Two threads, both past all checks, about to work on the same two buckets.
  ghost predicate BothIn(env: Env, s: State, op: Op) {
    && 0 in s.pc && 1 in s.pc && s.pc[0].Working? && s.pc[1].Working?
    && var w := Pair(S1(env, s.sh.hp, op), S2(env, s.sh.hp, op));
       && s.pc[0] == Working(s.sh.hp, s.pc[0].c, w, OnKey(op))
       && s.pc[1] == Working(s.sh.hp, s.pc[1].c, w, OnKey(op))
  }

  lemma BothInCollide(env: Env, s: State, op: Op)
    requires BothIn(env, s, op)
    ensures Collide(env, s)
  {
    hide S1, S2;
    var l := S1(env, s.sh.hp, op);
    assert l in Pair(l, S2(env, s.sh.hp, op));
    assert Inside(env, s, 0, l) && Inside(env, s, 1, l);
  }

  // A thread enters the critical section of a key under the locks of the current container.
  lemma EnterRun(env: Env, rule: Rule, s: State, t: Tid, op: Op) returns (schedule: seq<Step>, sh': Shared)
    requires t in s.pc && (s.pc[t].Idle? || s.pc[t] == Snapshot(op)) && Covered(env, s.sh.hp, s.sh.locks)
    requires |LockRow(s.sh, |s.sh.later|)| == |s.sh.locks| && Unlocked(LockRow(s.sh, |s.sh.later|))
    requires forall l | 0 <= l < |s.sh.locks| :: s.sh.locks[l].migrated
    ensures var w, c := Pair(S1(env, s.sh.hp, op), S2(env, s.sh.hp, op)), |s.sh.later|;
            Leads(env, rule, s, schedule, MoveWith(s, t, Working(s.sh.hp, c, w, OnKey(op)), sh'))
    ensures OnlyLocks(s.sh, sh', |s.sh.later|)
  {
    hide Leads, LockRow, Unlocked, Pair, S1, S2, OnlyLocks, Covered;
    var w, c := Pair(S1(env, s.sh.hp, op), S2(env, s.sh.hp, op)), |s.sh.later|;
    KeyInRange(env, s.sh.hp, op, s.sh.locks);
    var a: seq<Step>;
    if s.pc[t].Idle? {
      a := CallRun(env, rule, s, t, op);
    } else {
      a := SnapRun(env, rule, s, t, op);
    }
    var s1 := Move(s, t, Taking(s.sh.hp, c, c, w, 0, OnKey(op)));
    var b, sh2 := KeyRun(env, rule, s1, t, op, c);
    var p2 := Working(s.sh.hp, c, w, OnKey(op));
    assert s1.pc[t := p2] == s.pc[t := p2];
    Then(env, rule, s, a, s1, b, MoveWith(s, t, p2, sh2));
    schedule, sh' := a + b, sh2;
  }

  // Both threads go for the same key, one with the old container and one with the new one.
  lemma BothEnter(env: Env, s: State, h: nat, op: Op) returns (schedule: seq<Step>, s': State)
    requires Pow2(h) < env.Stripes() && s.sh.hp == h && Still(env, s.sh) && |s.sh.later| == 1
    requires Unlocked(LockRow(s.sh, 0)) && |LockRow(s.sh, 0)| == Pow2(h) && Covered(env, h, s.sh.locks)
    requires 0 in s.pc && 1 in s.pc && s.pc[1].Idle? && |s.sh.locks| >= Pow2(h)
    requires s.pc[0] == Taking(h, 0, 0, Pair(S1(env, h, op), S2(env, h, op)), 0, OnKey(op))
    ensures Leads(env, Anything, s, schedule, s') && BothIn(env, s', op)
  {
    hide Leads, LockRow, Unlocked, BlankBuckets, Pair, S1, S2, Covered;
    var w := Pair(S1(env, h, op), S2(env, h, op));
    CoveredAt(env, h, FreshLocks(Pow2(h)));
    KeyInRange(env, h, op, FreshLocks(Pow2(h)));
    var a, sh1 := KeyRun(env, Anything, s, 0, op, 0);
    var s1 := MoveWith(s, 0, Working(h, 0, w, OnKey(op)), sh1);
    assert LockRow(sh1, 1) == LockRow(s.sh, 1);
    var b, sh2 := EnterRun(env, Anything, s1, 1, op);
    s' := MoveWith(s1, 1, Working(h, 1, w, OnKey(op)), sh2);
    Then(env, Anything, s, a, s1, b, s');
    schedule := a + b;
  }

  lemma CoveredAt(env: Env, h: nat, locks: Locks)
    requires Pow2(h) < env.Stripes() && |locks| == Pow2(h)
    ensures Covered(env, h, locks)
  {
  }

  lemma StillRow(env: Env, sh: Shared)
    requires Still(env, sh)
    ensures |LockRow(sh, |sh.later|)| == |sh.locks| && Unlocked(LockRow(sh, |sh.later|))
    ensures forall l | 0 <= l < |sh.locks| :: sh.locks[l].migrated
  {
  }

  lemma GrownCovers(env: Env, sh: Shared, hp: nat, sh': Shared)
    requires Covered(env, sh.hp, sh.locks) && Resizes(env, sh, hp, sh')
    ensures Covered(env, hp, sh'.locks)
  {
    hide LockRow;
    GrownOk(env, sh.hp, sh.locks, hp);
  }

  /** A table created with fewer buckets than there can be locks, and allowed to grow, has a run that lets
      two threads into the critical section of the same key, whatever the key and the operation: the
      table grows and shrinks while a thread waits for a lock. */
  lemma StaleLocks(env: Env, h: nat, op: Op, minLoad: real, maxHp: Option<nat>) returns (schedule: seq<Step>)
    requires env.Valid() && Pow2(h) < env.Stripes() && (maxHp.Some? ==> h < maxHp.value)
    ensures var r := Exec(env, Init(env, h, 2, minLoad, maxHp), schedule);
            r.Some? && BothIn(env, r.value.last, op) && Collide(env, r.value.last)
  {
    hide Do, LockRow, Unlocked, BlankBuckets, S1, S2, Init, Exec, Collide, Covered, Grown, BothIn, Trip;
    var s := Init(env, h, 2, minLoad, maxHp);
    InitStill(env, h, minLoad, maxHp);
    InitFacts(env, h, minLoad, maxHp);
    var a := CallRun(env, Anything, s, 0, op);
    var s1 := Move(s, 0, Taking(h, 0, 0, Pair(S1(env, h, op), S2(env, h, op)), 0, OnKey(op)));
    var b, sh2 := GrowAndShrink(env, s1, h);
    Then(env, Anything, s, a, s1, b, State(sh2, s1.pc));
    var c, s3 := BothEnter(env, State(sh2, s1.pc), h, op);
    Then(env, Anything, s, a + b, State(sh2, s1.pc), c, s3);
    schedule := a + b + c;
    TripIsExec(env, Anything, s, schedule);
    BothInCollide(env, s3, op);
  }

  // Clearing the empty table.
  lemma WipeBlank(env: Env, s: State, t: Tid, c: nat, want: seq<nat>)
    requires t in s.pc && s.pc[t] == Working(0, c, want, Wipe)
    ensures var o := Do(env, s, t, Go);
            && o.Some?
            && o.value.0 == MoveWith(s, t, DropAll(s.sh, c, Done(ClearCmd, Finished)),
                                     WithImage(s.sh, ClearedImage(env, ImageIn(s.sh))))
  {
  }

  // A clear, up to the point where it has released every lock it knows of.
  lemma ClearRun(env: Env, rule: Rule, s: State, t: Tid) returns (schedule: seq<Step>, sh': Shared)
    requires t in s.pc && s.pc[t].Idle? && Still(env, s.sh) && s.sh.later == []
    ensures Leads(env, rule, s, schedule, MoveWith(s, t, Dropping(true, 0, [], [], Done(ClearCmd, Finished)), sh'))
    ensures Still(env, sh') && sh'.hp == s.sh.hp && sh'.later == []
    ensures sh'.maxHp == s.sh.maxHp && sh'.minLoad == s.sh.minLoad
    ensures |sh'.locks| == |s.sh.locks|
  {
    hide LockRow, Everything, BlankBuckets, Unlocked, Leads;
    var cont := Done(ClearCmd, Finished);
    var a, sh1 := OwnRun(env, rule, s, t, ClearCmd);
    SameLater(s.sh, sh1, 0);
    var s1 := MoveWith(s, t, Working(0, 0, Everything(|LockRow(s.sh, 0)|), Wipe), sh1);
    WipeBlank(env, s1, t, 0, s1.pc[t].want);
    More(env, rule, s, a, s1, t, Go);
    var sh2, p2 := WithImage(sh1, ClearedImage(env, ImageIn(sh1))), DropAll(sh1, 0, cont);
    var s2 := MoveWith(s, t, p2, sh2);
    assert MoveWith(s1, t, p2, sh2).pc == s2.pc;
    SameRows(sh1, sh2);
    var b, sh3 := ReleaseRun(env, rule, s2, t);
    SameLater(sh2, sh3, 0);
    AllReleased(sh2, sh3, 0);
    var p3 := Dropping(true, 0, [], [], cont);
    assert s2.pc[t := p3] == s.pc[t := p3];
    Then(env, rule, s, a + [Step(t, Go)], s2, b, MoveWith(s, t, p3, sh3));
    schedule, sh' := a + [Step(t, Go)] + b, sh3;
  }

  lemma SameRows(sh: Shared, sh': Shared)
    requires sh'.holder == sh.holder && sh'.later == sh.later
    ensures forall k: nat :: LockRow(sh', k) == LockRow(sh, k)
  {
  }

  // A thread that has released all locks it knows of goes on to those of a container appended since.
  lemma OverrunRun(env: Env, rule: Rule, s: State, t: Tid, cmd: Cmd, out: Outcome)
    returns (schedule: seq<Step>, sh': Shared)
    requires t in s.pc && s.pc[t] == Dropping(true, 0, [], [], Done(cmd, out)) && |s.sh.later| == 1
    ensures Leads(env, rule, s, schedule, MoveWith(s, t, Idle, sh')) && LocksFrom(s.sh, sh', 1)
    ensures Unlocked(LockRow(sh', 1))
  {
    hide LockRow, Everything, Unlocked, Leads, LocksFrom;
    Begin(env, rule, s, t, Go);
    var p1 := Dropping(true, 1, Everything(|LockRow(s.sh, 1)|), [], Done(cmd, out));
    var s1 := Move(s, t, p1);
    var b, sh2 := ReleaseAllRun(env, rule, s1, t);
    var s2 := MoveWith(s1, t, Done(cmd, out), sh2);
    Then(env, rule, s, [Step(t, Go)], s1, b, s2);
    More(env, rule, s, [Step(t, Go)] + b, s2, t, Go);
    assert s2.pc[t := Idle] == s.pc[t := Idle];
    schedule, sh' := [Step(t, Go)] + b + [Step(t, Go)], sh2;
    LocksKeepHp(s.sh, sh2, 1);
  }

  lemma LocksKeepHp(sh: Shared, sh': Shared, first: nat)
    requires LocksFrom(sh, sh', first)
    ensures sh' == sh.(holder := sh'.holder, later := sh'.later) && |sh'.later| == |sh.later|
    ensures forall k: nat :: |LockRow(sh', k)| == |LockRow(sh, k)|
  {
  }

  // Thread 1 appends a container while thread 0 has yet to look for one; thread 0 releases its locks.
  lemma OverrunLocksRun(env: Env, s: State, h: nat) returns (schedule: seq<Step>, s': State)
    requires env.Valid() && Pow2(h) < env.Stripes() && s.sh.hp == h && (s.sh.maxHp.Some? ==> h < s.sh.maxHp.value)
    requires Still(env, s.sh) && s.sh.later == [] && |s.sh.locks| == Pow2(h)
    requires 0 in s.pc && 1 in s.pc && s.pc[0].Idle? && s.pc[1].Idle?
    ensures Leads(env, Upwards, s, schedule, s') && 0 in s'.pc && 1 in s'.pc && s'.pc[0].Idle?
    ensures s'.pc[1] == Dropping(true, 0, Everything(|LockRow(s'.sh, 0)|), [], Done(ResizeCmd(h + 1), Finished))
    ensures |s'.sh.later| == 1 && s'.sh.hp == h + 1 && Covered(env, h + 1, s'.sh.locks)
    ensures |LockRow(s'.sh, 1)| == |s'.sh.locks| && Unlocked(LockRow(s'.sh, 1))
    ensures forall l | 0 <= l < |s'.sh.locks| :: s'.sh.locks[l].migrated
  {
    hide LockRow, Everything, BlankBuckets, Unlocked, Leads, Grown, Still, LocksFrom;
    var a, sh1 := ClearRun(env, Upwards, s, 0);
    var s1 := MoveWith(s, 0, Dropping(true, 0, [], [], Done(ClearCmd, Finished)), sh1);
    StillRow(env, sh1);
    CoveredAt(env, h, sh1.locks);
    GrowsOnce(env, h, sh1.locks);
    var b, sh2 := ReplaceRun(env, Upwards, s1, 1, h + 1);
    GrownCovers(env, sh1, h + 1, sh2);
    var s2 := MoveWith(s1, 1, DropAll(sh1, 0, Done(ResizeCmd(h + 1), Finished)), sh2);
    Then(env, Upwards, s, a, s1, b, s2);
    var c, sh3 := OverrunRun(env, Upwards, s2, 0, ClearCmd, Finished);
    LocksKeepHp(sh2, sh3, 1);
    s' := MoveWith(s2, 0, Idle, sh3);
    Then(env, Upwards, s, a + b, s2, c, s');
    schedule := a + b + c;
  }

  // Thread 0 enters, thread 1 releases the lock it no longer holds and enters too.
  lemma BothEnterAgain(env: Env, rule: Rule, s: State, op: Op, cont: PC) returns (schedule: seq<Step>, s': State)
    requires 0 in s.pc && 1 in s.pc && s.pc[0].Idle? && |s.sh.later| == 1 && Covered(env, s.sh.hp, s.sh.locks)
    requires s.pc[1] == Dropping(true, 0, Everything(|LockRow(s.sh, 0)|), [], cont)
    requires cont.Done? || cont == Snapshot(op)
    requires |LockRow(s.sh, 1)| == |s.sh.locks| && Unlocked(LockRow(s.sh, 1))
    requires forall l | 0 <= l < |s.sh.locks| :: s.sh.locks[l].migrated
    ensures Leads(env, rule, s, schedule, s') && BothIn(env, s', op)
  {
    hide LockRow, Everything, Unlocked, Leads, LocksFrom, Pair, S1, S2, Covered;
    var w := Pair(S1(env, s.sh.hp, op), S2(env, s.sh.hp, op));
    var a, sh1 := EnterRun(env, rule, s, 0, op);
    SameLater(s.sh, sh1, 1);
    var s1 := MoveWith(s, 0, Working(s.sh.hp, 1, w, OnKey(op)), sh1);
    assert LockRow(sh1, 0) == LockRow(s.sh, 0);
    var b, sh2 := ReleaseAllRun(env, rule, s1, 1);
    LocksKeepHp(sh1, sh2, 0);
    var s2 := MoveWith(s1, 1, cont, sh2);
    Then(env, rule, s, a, s1, b, s2);
    var s3, mid := s2, a + b;
    if cont.Done? {
      More(env, rule, s, a + b, s2, 1, Go);
      s3, mid := Move(s2, 1, Idle), a + b + [Step(1, Go)];
    }
    var c, sh4 := EnterRun(env, rule, s3, 1, op);
    SameLater(sh2, sh4, 1);
    s' := MoveWith(s3, 1, Working(s.sh.hp, 1, w, OnKey(op)), sh4);
    Then(env, rule, s, mid, s3, c, s');
    schedule := mid + c;
  }

  /** Such a table has a colliding run even if it never shrinks and the hash power is always read truly:
      releasing all locks runs over into a container appended by another thread. */
  lemma OverrunLocks(env: Env, h: nat, op: Op, minLoad: real, maxHp: Option<nat>) returns (schedule: seq<Step>)
    requires env.Valid() && Pow2(h) < env.Stripes() && (maxHp.Some? ==> h < maxHp.value)
    ensures var r := Trip(env, Upwards, Init(env, h, 2, minLoad, maxHp), schedule);
            r.Some? && BothIn(env, r.value, op) && Collide(env, r.value)
  {
    hide Do, LockRow, Unlocked, BlankBuckets, S1, S2, Init, Collide, Covered, Grown, BothIn, Trip, Everything;
    var s := Init(env, h, 2, minLoad, maxHp);
    InitStill(env, h, minLoad, maxHp);
    InitFacts(env, h, minLoad, maxHp);
    var a, s1 := OverrunLocksRun(env, s, h);
    var b, s2 := BothEnterAgain(env, Upwards, s1, op, Done(ResizeCmd(h + 1), Finished));
    Then(env, Upwards, s, a, s1, b, s2);
    schedule := a + b;
    BothInCollide(env, s2, op);
  }

  lemma InitFacts(env: Env, hp: nat, minLoad: real, maxHp: Option<nat>)
    ensures var s := Init(env, hp, 2, minLoad, maxHp); s.sh.hp == hp && s.sh.later == [] && s.sh.maxHp == maxHp
  {
  }

  /** Mutual exclusion in every run of a table created with as many buckets as there can be locks, and in
      every other run until the lock array grows. */
  lemma NoCollision(env: Env, h: nat, threads: nat, minLoad: real, maxHp: Option<nat>, schedule: seq<Step>)
    requires Safe(env, h, threads, minLoad, maxHp, schedule)
    ensures !Collide(env, Exec(env, Init(env, h, threads, minLoad, maxHp), schedule).value.last)
  {
    hide Init, Exec, Held, DataOk, FlagsAt, ThreadsOk, CounterOk, Steady;
    SafeIsSteady(env, h, threads, minLoad, maxHp, schedule);
    var s := Exec(env, Init(env, h, threads, minLoad, maxHp), schedule).value.last;
    forall t, u, l | t != u && Inside(env, s, t, l) && Inside(env, s, u, l)
      ensures false
    {
      Exclusive(env, s, t, u, l);
    }
  }

  /** The exact condition for mutual exclusion, of two threads, in a table that is allowed to grow beyond the
      hash power it is created with: there are at least as many buckets as there can be locks. The
      condition is the same for all runs and for those that never shrink the table and always read the
      true hash power. */
  lemma ExclusionExact(env: Env, h: nat, op: Op, minLoad: real, maxHp: Option<nat>)
    requires env.Valid() && (maxHp.Some? ==> h < maxHp.value)
    ensures env.Stripes() <= Pow2(h) <==>
            forall schedule: seq<Step> | Exec(env, Init(env, h, 2, minLoad, maxHp), schedule).Some? ::
              !Collide(env, Exec(env, Init(env, h, 2, minLoad, maxHp), schedule).value.last)
    ensures env.Stripes() <= Pow2(h) <==>
            forall schedule: seq<Step> | Trip(env, Upwards, Init(env, h, 2, minLoad, maxHp), schedule).Some? ::
              !Collide(env, Trip(env, Upwards, Init(env, h, 2, minLoad, maxHp), schedule).value)
  {
    hide Init, Exec, Collide, BothIn, Trip, Steady;
    var s := Init(env, h, 2, minLoad, maxHp);
    if env.Stripes() <= Pow2(h) {
      forall schedule: seq<Step> | Exec(env, s, schedule).Some?
        ensures !Collide(env, Exec(env, s, schedule).value.last)
      {
        NoCollision(env, h, 2, minLoad, maxHp, schedule);
      }
      forall schedule: seq<Step> | Trip(env, Upwards, s, schedule).Some?
        ensures !Collide(env, Trip(env, Upwards, s, schedule).value)
      {
        TripIsExec(env, Upwards, s, schedule);
        NoCollision(env, h, 2, minLoad, maxHp, schedule);
      }
    } else {
      var stale := StaleLocks(env, h, op, minLoad, maxHp);
      var overrun := OverrunLocks(env, h, op, minLoad, maxHp);
    }
  }
}
