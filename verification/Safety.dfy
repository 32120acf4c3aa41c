/** What holds in every state of the protocol, and the general shapes of a step that keeps it. */
module Safety {
  import opened Hashing
  import opened Bits
  import opened Layout
  import opened Doubling
  import opened CuckooTable
  import opened PathMove
  import opened Protocol

  // The stripes a thread holds, in a table whose lock array does not grow.
  function Held(env: Env, p: PC): seq<nat> {
    match p
    case Taking(_, _, _, want, got, _) => if got <= |want| then want[..got] else want
    case Checking(_, _, want, _) => if |want| > 0 then want[..1] else []
    case Migrating(_, _, want, _, _, _) => want
    case Counting(_, _, want, _, _) => want
    case Freeing(_, _, want, _, _) => want
    case Working(_, _, want, _) => want
    case Ready(op, hp, _, _, _) => KeyStripes(env, hp, op)
    case Dropping(_, _, rest, keep, _) => rest + keep
    case _ => []
  }

  // A list of distinct stripes out of `n`, in the order in which they are locked.
  predicate Ladder(n: nat, want: seq<nat>) {
    && |want| > 0
    && (forall i | 0 <= i < |want| :: want[i] < n)
    && (forall i, j | 0 <= i < j < |want| :: want[i] < want[j])
  }

  predicate Distinct(ls: seq<nat>) {
    forall i, j | 0 <= i < j < |ls| :: ls[i] != ls[j]
  }

  predicate AimOk(env: Env, n: nat, hp: nat, g: Goal) {
    && (!Global(g) ==> Covers(env, n, hp))
    && match g
       case Peek(op, b) => op.UpraseOp? && b < Pow2(hp)
       case Settle(op, b, j) => op.UpraseOp? && env.Home(hp, op.key, b) && j < env.slots
       case Shift(op, path, d) => op.UpraseOp? && PathShape(env, hp, op, path) && 0 < d < |path|
       case Double(op, _) => op.UpraseOp?
       case _ => true
  }

  predicate GoalOk(env: Env, n: nat, hp: nat, want: seq<nat>, g: Goal) {
    Ladder(n, want) && AimOk(env, n, hp, g) && want == Want(env, n, hp, g)
  }

  ghost predicate MigratedUpTo(locks: Locks, want: seq<nat>, n: nat) {
    n <= |want| && forall i | 0 <= i < n :: want[i] < |locks| && locks[want[i]].migrated
  }

  /** What a thread may rely on at each point. */
  ghost predicate PcOk(env: Env, sh: Shared, p: PC) {
    match p
    case Idle => true
    case Snapshot(_) => true
    case Locating(hp, g) => AimOk(env, |sh.locks|, hp, g)
    case Taking(hp, first, c, want, got, g) =>
      first == c == 0 && GoalOk(env, |sh.locks|, hp, want, g) && got < |want| && (got > 0 && !Global(g) ==> sh.hp == hp)
    case Checking(hp, c, want, g) => c == 0 && GoalOk(env, |sh.locks|, hp, want, g) && !Global(g)
    case Migrating(hp, c, want, at, next, g) =>
      && c == 0 && GoalOk(env, |sh.locks|, hp, want, g) && !Global(g) && sh.hp == hp && MigratedUpTo(sh.locks, want, at)
      && (next.Some? ==> at < |want| && env.LockInd(next.value) == want[at]
                         && want[at] < |sh.locks| && !sh.locks[want[at]].migrated)
    case Counting(hp, c, want, at, g) =>
      && c == 0 && GoalOk(env, |sh.locks|, hp, want, g) && !Global(g)
      && sh.hp == hp && MigratedUpTo(sh.locks, want, at + 1)
    case Freeing(hp, c, want, at, g) =>
      && c == 0 && GoalOk(env, |sh.locks|, hp, want, g) && !Global(g)
      && sh.hp == hp && MigratedUpTo(sh.locks, want, at + 1) && sh.remaining == 0
    case Working(hp, c, want, g) =>
      && c == 0 && GoalOk(env, |sh.locks|, hp, want, g)
      && (!Global(g) ==> sh.hp == hp && MigratedUpTo(sh.locks, want, |want|))
    case Searching(op, hp) => op.UpraseOp? && Covers(env, |sh.locks|, hp)
    case Ready(op, hp, c, b, j) =>
      && c == 0 && op.UpraseOp? && sh.hp == hp && env.Home(hp, op.key, b) && Free(sh.cur, b, j)
      && MigratedUpTo(sh.locks, KeyStripes(env, hp, op), |KeyStripes(env, hp, op)|)
    case Dropping(_, c, rest, keep, cont) =>
      && c == 0 && Distinct(rest + keep) && Held(env, cont) == keep && PcOk(env, sh, cont)
      && !cont.Migrating? && !cont.Counting? && !cont.Freeing?
      && (forall i | 0 <= i < |rest| :: rest[i] < |sh.locks|)
    case Done(_, _) => true
  }

  // The lock table and the threads agree on who holds what.
  ghost predicate LocksOk(env: Env, s: State) {
    && s.sh.later == [] && |s.sh.holder| == |s.sh.locks|
    && (forall t, l {:trigger l in Held(env, s.pc[t])} ::
          t in s.pc && l in Held(env, s.pc[t]) ==> l < |s.sh.holder| && s.sh.holder[l] == Some(t))
    && (forall l | 0 <= l < |s.sh.holder| && s.sh.holder[l].Some? ::
          s.sh.holder[l].value in s.pc && l in Held(env, s.pc[s.sh.holder[l].value]))
  }

  // The next old bucket of stripe `l` that thread `p` is about to move, 0 if it is not migrating `l`.
  function FrontOf(p: PC, l: nat): nat {
    if p.Migrating? && p.next.Some? && p.at < |p.want| && p.want[p.at] == l then p.next.value else 0
  }

  function Front(s: State, l: nat): nat {
    if l < |s.sh.holder| && s.sh.holder[l].Some? && s.sh.holder[l].value in s.pc
    then FrontOf(s.pc[s.sh.holder[l].value], l) else 0
  }

  ghost predicate FlagsAt(env: Env, s: State) {
    forall l | 0 <= l < |s.sh.locks| :: FlagOk(env, s.sh.prev, s.sh.locks[l].migrated, l, Front(s, l))
  }

  // Threads between setting a migration flag and lowering the counter.
  function CountingThreads(pc: map<Tid, PC>): set<Tid> {
    set t | t in pc && pc[t].Counting?
  }

  ghost predicate SomeoneFrees(pc: map<Tid, PC>) {
    exists t :: t in pc && pc[t].Freeing?
  }

  ghost predicate AtMostOneFrees(pc: map<Tid, PC>) {
    forall t, u | t in pc && u in pc && pc[t].Freeing? && pc[u].Freeing? :: t == u
  }

  ghost predicate DataOk(env: Env, sh: Shared) {
    Covered(env, sh.hp, sh.locks) && BodyOk(env, sh.hp, sh.cur, sh.prev, sh.locks)
  }

  ghost predicate ThreadsOk(env: Env, s: State) {
    forall t | t in s.pc :: PcOk(env, s.sh, s.pc[t])
  }

  // The counter of stripes left to migrate, and when the old buckets are released.
  ghost predicate CounterOk(s: State) {
    && s.sh.remaining == Unmigrated(s.sh.locks) + |CountingThreads(s.pc)|
    && (s.sh.prev.Some? <==> s.sh.remaining > 0 || SomeoneFrees(s.pc))
    && AtMostOneFrees(s.pc)
  }

  /** The invariant. */
  ghost predicate Inv(env: Env, s: State) {
    env.Valid() && LocksOk(env, s) && DataOk(env, s.sh) && FlagsAt(env, s) && ThreadsOk(env, s) && CounterOk(s)
  }

  ghost predicate Wired(sh: Shared) {
    sh.prev.Some? ==> sh.hp > 0 && 2 * |sh.prev.value| == |sh.cur|
  }

  // The array the table stands for.
  ghost function Array(env: Env, sh: Shared): Buckets
    requires Wired(sh)
  {
    View(env, sh.hp, sh.cur, sh.prev)
  }

  /** The map all threads share. */
  ghost function Map(env: Env, sh: Shared): map<Key, Value>
    requires Wired(sh)
  {
    Contents(View(env, sh.hp, sh.cur, sh.prev))
  }

  lemma DataWired(env: Env, sh: Shared)
    requires DataOk(env, sh)
    ensures Wired(sh) && |sh.cur| == Pow2(sh.hp) && Sum(CountsOf(sh.locks)) == |Map(env, sh)|
    ensures WellFormed(env, sh.hp, View(env, sh.hp, sh.cur, sh.prev)) && LazyShape(env, sh.hp, sh.cur, sh.prev)
  {
  }

  // What a thread holding `held` sees of a step of another thread.
  ghost predicate Rely(env: Env, sh: Shared, sh': Shared, held: seq<nat>) {
    && |sh'.locks| == |sh.locks|
    && (|held| > 0 ==>
          && sh'.hp == sh.hp && |sh'.cur| == |sh.cur| && (sh.remaining == 0 ==> sh'.remaining == 0)
          && (forall l | l in held && l < |sh.locks| :: sh'.locks[l].migrated == sh.locks[l].migrated)
          && (forall b: nat | b < |sh.cur| && env.LockInd(b) in held :: sh'.cur[b] == sh.cur[b]))
  }

  lemma MigratedStable(env: Env, sh: Shared, sh': Shared, want: seq<nat>, n: nat, held: seq<nat>)
    requires MigratedUpTo(sh.locks, want, n) && Rely(env, sh, sh', held) && |held| > 0
    requires forall i | 0 <= i < |want| :: want[i] in held
    ensures MigratedUpTo(sh'.locks, want, n)
  {
  }

  lemma ReadyStable(env: Env, sh: Shared, sh': Shared, p: PC)
    requires p.Ready? && PcOk(env, sh, p) && Rely(env, sh, sh', Held(env, p))
    ensures PcOk(env, sh', p)
  {
    hide MigratedUpTo, Env.LockInd;
    var ms := KeyStripes(env, p.hp, p.op);
    assert S1(env, p.hp, p.op) in ms && S2(env, p.hp, p.op) in ms;
    assert env.LockInd(p.b) in ms;
    MigratedStable(env, sh, sh', ms, |ms|, ms);
  }

  lemma TakingStable(env: Env, sh: Shared, sh': Shared, p: PC)
    requires (p.Taking? || p.Checking?) && PcOk(env, sh, p) && Rely(env, sh, sh', Held(env, p))
    ensures PcOk(env, sh', p)
  {
    hide GoalOk, Env.LockInd;
  }

  lemma MigratingStable(env: Env, sh: Shared, sh': Shared, p: PC)
    requires p.Migrating? && PcOk(env, sh, p) && Rely(env, sh, sh', Held(env, p))
    ensures PcOk(env, sh', p)
  {
    hide AimOk, Want, MigratedUpTo, Env.LockInd;
    MigratedStable(env, sh, sh', p.want, p.at, p.want);
    assert p.next.Some? ==> p.want[p.at] in p.want;
  }

  lemma CountingStable(env: Env, sh: Shared, sh': Shared, p: PC)
    requires (p.Counting? || p.Freeing?) && PcOk(env, sh, p) && Rely(env, sh, sh', Held(env, p))
    ensures PcOk(env, sh', p)
  {
    hide AimOk, Want, MigratedUpTo, Env.LockInd;
    MigratedStable(env, sh, sh', p.want, p.at + 1, p.want);
  }

  lemma WorkingStable(env: Env, sh: Shared, sh': Shared, p: PC)
    requires p.Working? && PcOk(env, sh, p) && Rely(env, sh, sh', Held(env, p))
    ensures PcOk(env, sh', p)
  {
    hide AimOk, Want, MigratedUpTo, Env.LockInd;
    if !Global(p.goal) {
      MigratedStable(env, sh, sh', p.want, |p.want|, p.want);
    }
  }

  // Going on with fewer locks.
  lemma RelyOnPart(env: Env, sh: Shared, sh': Shared, held: seq<nat>, part: seq<nat>)
    requires Rely(env, sh, sh', held) && forall l | l in part :: l in held
    ensures Rely(env, sh, sh', part) && |sh'.locks| == |sh.locks|
  {
    hide Env.LockInd;
    assert |part| > 0 ==> part[0] in held;
  }

  lemma DroppingStable(env: Env, sh: Shared, sh': Shared, p: PC)
    requires p.Dropping? && PcOk(env, sh, p) && Rely(env, sh, sh', Held(env, p))
    ensures PcOk(env, sh, p.cont) && Rely(env, sh, sh', Held(env, p.cont))
    ensures PcOk(env, sh', p.cont) ==> PcOk(env, sh', p)
  {
    hide Rely;
    RelyOnPart(env, sh, sh', p.rest + p.keep, p.keep);
  }

  lemma OutsideStable(env: Env, sh: Shared, sh': Shared, p: PC)
    requires p.Idle? || p.Snapshot? || p.Locating? || p.Searching? || p.Done?
    requires PcOk(env, sh, p) && Rely(env, sh, sh', Held(env, p))
    ensures PcOk(env, sh', p)
  {
  }

  /** What a thread relies on depends only on the stripes it holds. */
  lemma {:induction false} PcOkStable(env: Env, sh: Shared, sh': Shared, p: PC)
    requires PcOk(env, sh, p) && Rely(env, sh, sh', Held(env, p))
    ensures PcOk(env, sh', p)
    decreases p
  {
    hide PcOk, Rely, Held;
    match p
    case Taking(_, _, _, _, _, _) => TakingStable(env, sh, sh', p);
    case Checking(_, _, _, _) => TakingStable(env, sh, sh', p);
    case Migrating(_, _, _, _, _, _) => MigratingStable(env, sh, sh', p);
    case Counting(_, _, _, _, _) => CountingStable(env, sh, sh', p);
    case Freeing(_, _, _, _, _) => CountingStable(env, sh, sh', p);
    case Working(_, _, _, _) => WorkingStable(env, sh, sh', p);
    case Ready(_, _, _, _, _) => ReadyStable(env, sh, sh', p);
    case Dropping(_, _, _, _, cont) =>
      DroppingStable(env, sh, sh', p);
      PcOkStable(env, sh, sh', cont);
    case _ => OutsideStable(env, sh, sh', p);
  }

  lemma CountingUpdate(pc: map<Tid, PC>, t: Tid, p: PC)
    requires t in pc
    ensures |CountingThreads(pc[t := p])|
         == |CountingThreads(pc)| - (if pc[t].Counting? then 1 else 0) + (if p.Counting? then 1 else 0)
  {
    var a, b := CountingThreads(pc), CountingThreads(pc[t := p]);
    assert t in a <==> pc[t].Counting?;
    if p.Counting? {
      assert b == a + {t};
    } else {
      assert b == a - {t};
    }
  }

  // A thread that starts or stops releasing the old buckets is seen to do so.
  lemma FreesUpdate(pc: map<Tid, PC>, t: Tid, p: PC)
    requires t in pc
    ensures p.Freeing? ==> SomeoneFrees(pc[t := p])
    ensures !pc[t].Freeing? && !p.Freeing? ==> (SomeoneFrees(pc) <==> SomeoneFrees(pc[t := p]))
    ensures AtMostOneFrees(pc) && (p.Freeing? ==> !SomeoneFrees(pc)) ==> AtMostOneFrees(pc[t := p])
    ensures AtMostOneFrees(pc) && pc[t].Freeing? && !p.Freeing? ==> !SomeoneFrees(pc[t := p])
  {
    var pc' := pc[t := p];
    if p.Freeing? {
      assert pc'[t].Freeing?;
    }
    if !pc[t].Freeing? && SomeoneFrees(pc) {
      var u :| u in pc && pc[u].Freeing?;
      assert pc'[u].Freeing?;
    }
    assert forall u | u in pc' && u != t && pc'[u].Freeing? :: u in pc && pc[u].Freeing?;
  }

  // Two threads never hold the same stripe.
  lemma Exclusive(env: Env, s: State, t: Tid, u: Tid, l: nat)
    requires LocksOk(env, s) && t in s.pc && u in s.pc && t != u
    requires l in Held(env, s.pc[t])
    ensures l !in Held(env, s.pc[u])
  {
    assert s.sh.holder[l] == Some(t);
  }

  ghost predicate SameHeld(env: Env, p: PC, p': PC) {
    forall l :: l in Held(env, p) <==> l in Held(env, p')
  }

  lemma LocksMove(env: Env, s: State, t: Tid, p': PC, sh': Shared)
    requires LocksOk(env, s) && t in s.pc && SameHeld(env, s.pc[t], p')
    requires sh'.holder == s.sh.holder && sh'.later == s.sh.later && |sh'.locks| == |s.sh.locks|
    ensures LocksOk(env, MoveWith(s, t, p', sh'))
  {
    var s' := MoveWith(s, t, p', sh');
    forall u, l | u in s'.pc && l in Held(env, s'.pc[u])
      ensures l < |s'.sh.holder| && s'.sh.holder[l] == Some(u)
    {
      assert l in Held(env, s.pc[u]);
    }
    forall l | 0 <= l < |s'.sh.holder| && s'.sh.holder[l].Some?
      ensures s'.sh.holder[l].value in s'.pc && l in Held(env, s'.pc[s'.sh.holder[l].value])
    {
      assert l in Held(env, s.pc[s.sh.holder[l].value]);
    }
  }

  lemma ThreadsMove(env: Env, s: State, t: Tid, p': PC, sh': Shared)
    requires ThreadsOk(env, s) && t in s.pc && PcOk(env, sh', p')
    requires forall u | u in s.pc && u != t :: Rely(env, s.sh, sh', Held(env, s.pc[u]))
    ensures ThreadsOk(env, MoveWith(s, t, p', sh'))
  {
    hide PcOk, Rely;
    forall u | u in s.pc && u != t
      ensures PcOk(env, sh', s.pc[u])
    {
      PcOkStable(env, s.sh, sh', s.pc[u]);
    }
  }

  ghost predicate SameCount(p: PC, p': PC) {
    (p.Counting? <==> p'.Counting?) && !p.Freeing?
  }

  /** A step that changes the shared data under the thread's own locks. */
  lemma ChangeKeepsInv(env: Env, s: State, t: Tid, p': PC, sh': Shared)
    requires Inv(env, s) && t in s.pc && SameHeld(env, s.pc[t], p')
    requires sh'.holder == s.sh.holder && sh'.later == s.sh.later && |sh'.locks| == |s.sh.locks|
    requires DataOk(env, sh') && PcOk(env, sh', p')
    requires forall u | u in s.pc && u != t :: Rely(env, s.sh, sh', Held(env, s.pc[u]))
    requires FlagsAt(env, MoveWith(s, t, p', sh')) && CounterOk(MoveWith(s, t, p', sh'))
    ensures Inv(env, MoveWith(s, t, p', sh'))
  {
    hide PcOk, Rely, DataOk, FlagsAt, CounterOk, LocksOk, SameHeld, ThreadsOk;
    LocksMove(env, s, t, p', sh');
    ThreadsMove(env, s, t, p', sh');
  }

  lemma RelyOnNothing(env: Env, s: State, t: Tid)
    ensures forall u | u in s.pc && u != t :: Rely(env, s.sh, s.sh, Held(env, s.pc[u]))
  {
  }

  lemma FlagsMove(env: Env, s: State, t: Tid, p': PC)
    requires LocksOk(env, s) && FlagsAt(env, s) && t in s.pc
    requires forall l | l in Held(env, s.pc[t]) :: FrontOf(p', l) == FrontOf(s.pc[t], l)
    ensures FlagsAt(env, Move(s, t, p'))
  {
    hide FlagOk, FrontOf, Held;
    var s' := Move(s, t, p');
    forall l | 0 <= l < |s'.sh.locks|
      ensures Front(s', l) == Front(s, l)
    {
    }
  }

  /** A step that changes nothing but the thread's own position. */
  lemma MoveKeepsInv(env: Env, s: State, t: Tid, p': PC)
    requires Inv(env, s) && t in s.pc && SameHeld(env, s.pc[t], p') && PcOk(env, s.sh, p')
    requires forall l | l in Held(env, s.pc[t]) :: FrontOf(p', l) == FrontOf(s.pc[t], l)
    requires SameCount(s.pc[t], p') && !p'.Freeing?
    ensures Inv(env, Move(s, t, p'))
  {
    hide PcOk, Rely, DataOk, LocksOk, SameHeld, ThreadsOk, FrontOf, FlagsAt;
    FlagsMove(env, s, t, p');
    CountingUpdate(s.pc, t, p');
    FreesUpdate(s.pc, t, p');
    RelyOnNothing(env, s, t);
    ChangeKeepsInv(env, s, t, p', s.sh);
  }

  lemma HolderIsNotData(env: Env, sh: Shared, sh': Shared)
    requires sh' == sh.(holder := sh'.holder)
    ensures DataOk(env, sh) ==> DataOk(env, sh')
    ensures forall p: PC {:trigger PcOk(env, sh, p)} :: PcOk(env, sh, p) ==> PcOk(env, sh', p)
    ensures forall held: seq<nat> :: Rely(env, sh, sh', held)
  {
    forall p: PC | PcOk(env, sh, p)
      ensures PcOk(env, sh', p)
    {
      PcOkStable(env, sh, sh', p);
    }
  }

  // A step that only takes or releases a lock.
  lemma HolderKeepsInv(env: Env, s: State, t: Tid, p': PC, sh': Shared)
    requires Inv(env, s) && t in s.pc && sh' == s.sh.(holder := sh'.holder) && |sh'.holder| == |s.sh.holder|
    requires PcOk(env, s.sh, p') && SameCount(s.pc[t], p') && !p'.Freeing?
    requires LocksOk(env, MoveWith(s, t, p', sh'))
    requires forall x: nat :: Front(MoveWith(s, t, p', sh'), x) == Front(s, x)
    ensures Inv(env, MoveWith(s, t, p', sh'))
  {
    hide PcOk, DataOk, FlagOk, Front, Unmigrated, Held, Rely, LocksOk, ThreadsOk;
    HolderIsNotData(env, s.sh, sh');
    ThreadsMove(env, s, t, p', sh');
    CountingUpdate(s.pc, t, p');
    FreesUpdate(s.pc, t, p');
  }

  lemma LocksTaken(env: Env, s: State, t: Tid, l: nat, p': PC)
    requires LocksOk(env, s) && t in s.pc && l < |s.sh.holder| && s.sh.holder[l].None?
    requires forall x :: x in Held(env, p') <==> x in Held(env, s.pc[t]) || x == l
    ensures LocksOk(env, MoveWith(s, t, p', SetHolder(s.sh, 0, l, Some(t))))
  {
    hide Held;
    var s' := MoveWith(s, t, p', SetHolder(s.sh, 0, l, Some(t)));
    forall u, x | u in s'.pc && x in Held(env, s'.pc[u])
      ensures x < |s'.sh.holder| && s'.sh.holder[x] == Some(u)
    {
      assert x in Held(env, s.pc[u]) || (u == t && x == l);
    }
    forall x | 0 <= x < |s'.sh.holder| && s'.sh.holder[x].Some?
      ensures s'.sh.holder[x].value in s'.pc && x in Held(env, s'.pc[s'.sh.holder[x].value])
    {
      assert x != l ==> x in Held(env, s.pc[s.sh.holder[x].value]);
    }
  }

  lemma LocksReleased(env: Env, s: State, t: Tid, l: nat, p': PC)
    requires LocksOk(env, s) && t in s.pc && l in Held(env, s.pc[t])
    requires forall x :: x in Held(env, p') <==> x in Held(env, s.pc[t]) && x != l
    ensures LocksOk(env, MoveWith(s, t, p', SetHolder(s.sh, 0, l, None)))
  {
    hide Held;
    var s' := MoveWith(s, t, p', SetHolder(s.sh, 0, l, None));
    forall u, x | u in s'.pc && x in Held(env, s'.pc[u])
      ensures x < |s'.sh.holder| && s'.sh.holder[x] == Some(u)
    {
      assert x in Held(env, s.pc[u]);
    }
    forall x | 0 <= x < |s'.sh.holder| && s'.sh.holder[x].Some?
      ensures s'.sh.holder[x].value in s'.pc && x in Held(env, s'.pc[s'.sh.holder[x].value])
    {
      assert x in Held(env, s.pc[s.sh.holder[x].value]);
    }
  }

  /** Taking a free lock. */
  lemma TakeKeepsInv(env: Env, s: State, t: Tid, l: nat, p': PC)
    requires Inv(env, s) && t in s.pc && l < |s.sh.holder| && s.sh.holder[l].None?
    requires forall x :: x in Held(env, p') <==> x in Held(env, s.pc[t]) || x == l
    requires PcOk(env, s.sh, p') && SameCount(s.pc[t], p') && !p'.Freeing?
    requires forall x :: FrontOf(p', x) == FrontOf(s.pc[t], x) == 0
    ensures Inv(env, MoveWith(s, t, p', SetHolder(s.sh, 0, l, Some(t))))
  {
    hide PcOk, DataOk, FlagsAt, FrontOf, CounterOk, Held, LocksOk, ThreadsOk;
    LocksTaken(env, s, t, l, p');
    HolderKeepsInv(env, s, t, p', SetHolder(s.sh, 0, l, Some(t)));
  }

  /** Releasing a lock. */
  lemma ReleaseKeepsInv(env: Env, s: State, t: Tid, l: nat, p': PC)
    requires Inv(env, s) && t in s.pc && l in Held(env, s.pc[t])
    requires forall x :: x in Held(env, p') <==> x in Held(env, s.pc[t]) && x != l
    requires PcOk(env, s.sh, p') && SameCount(s.pc[t], p') && !p'.Freeing?
    requires forall x :: FrontOf(p', x) == FrontOf(s.pc[t], x) == 0
    ensures Inv(env, MoveWith(s, t, p', SetHolder(s.sh, 0, l, None)))
  {
    hide PcOk, DataOk, FlagsAt, FrontOf, CounterOk, Held, ThreadsOk;
    LocksReleased(env, s, t, l, p');
    assert l < |s.sh.holder| && s.sh.holder[l] == Some(t);
    HolderKeepsInv(env, s, t, p', SetHolder(s.sh, 0, l, None));
  }
}
