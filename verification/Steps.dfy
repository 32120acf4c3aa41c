/** Every step of every thread keeps the invariant and acts on the shared map as it should. */
module Steps {
  import opened Hashing
  import opened Bits
  import opened Layout
  import opened Doubling
  import opened CuckooTable
  import opened PathMove
  import opened Resize
  import opened MapSpec
  import opened Protocol
  import opened Safety

  /** How a command that takes effect with outcome `out`, on a table of hash power `hp` with the given limits,
      changes the map. Only an insertion or a resize may fail with an exception, and only for a reason. */
  ghost predicate Linear(env: Env, lim: Limits, hp: nat, cmd: Cmd, out: Outcome, m: map<Key, Value>,
                         m': map<Key, Value>)
  {
    match (cmd, out)
    case (KeyCmd(op), Answered(r)) => Does(op, m, m', r)
    case (KeyCmd(op), Exceeded(n)) => m' == m && op.UpraseOp? && Exceeds(lim, n)
    case (KeyCmd(op), TooFew(x)) => m' == m && op.UpraseOp? && x == lim.minLoad && Sparse(lim, |m|, hp, env.slots)
    case (ResizeCmd(n), Finished) => m' == m && !Exceeds(lim, n)
    case (ResizeCmd(n), Exceeded(x)) => m' == m && x == n && Exceeds(lim, n)
    case (ClearCmd, Finished) => m' == map[]
    case _ => false
  }

  /** How the hash power may change in a step. A resize ends at the hash power it was called with, or above it
      if that may turn out to be too small. Otherwise the table is doubled or not, and it is doubled only within the
      maximum and only if there are enough entries. */
  ghost predicate Scales(env: Env, lim: Limits, m: map<Key, Value>, lbl: Label, hp: nat, hp': nat) {
    if lbl.Commit? && lbl.cmd.ResizeCmd? && lbl.out.Finished? then
      lbl.cmd.newHp <= hp' && (lbl.cmd.newHp < hp' ==> Cramps(env, m, lbl.cmd.newHp))
    else
      hp' == hp || (lbl.Tau? && hp' == hp + 1 && !Exceeds(lim, hp') && !Sparse(lim, |m|, hp, env.slots))
  }

  // The limits stay as they are, and the hash power changes only for a reason.
  ghost predicate InBounds(env: Env, sh: Shared, sh': Shared, lbl: Label)
    requires Wired(sh)
  {
    LimitsIn(sh') == LimitsIn(sh) && Scales(env, LimitsIn(sh), Map(env, sh), lbl, sh.hp, sh'.hp)
  }

  lemma SameSize(env: Env, sh: Shared, sh': Shared, lbl: Label)
    requires Wired(sh) && LimitsIn(sh') == LimitsIn(sh) && sh'.hp == sh.hp
    requires !(lbl.Commit? && lbl.cmd.ResizeCmd? && lbl.out.Finished?)
    ensures InBounds(env, sh, sh', lbl)
  {
    hide Map, Cramps, Sparse;
  }

  /** A step changes the map only when it commits a command, and then exactly as the command says; it changes
      the hash power only for a reason. */
  ghost predicate Sound(env: Env, s: State, s': State, lbl: Label)
    requires Wired(s.sh) && Wired(s'.sh)
  {
    && InBounds(env, s.sh, s'.sh, lbl)
    && match lbl
       case Commit(cmd, out) => Linear(env, LimitsIn(s.sh), s.sh.hp, cmd, out, Map(env, s.sh), Map(env, s'.sh))
       case _ => Map(env, s'.sh) == Map(env, s.sh)
  }

  // What is proved of each step, as long as the lock array has not grown.
  ghost predicate Good(env: Env, s: State, o: Outcomes) {
    o.Some? && Inv(env, s) && o.value.0.sh.later == [] ==>
      && Inv(env, o.value.0)
      && Wired(s.sh) && Wired(o.value.0.sh) && Sound(env, s, o.value.0, o.value.1)
  }

  lemma QuietGood(env: Env, s: State, s': State)
    requires Inv(env, s) && Inv(env, s')
    requires s'.sh.(holder := s.sh.holder, remaining := s.sh.remaining) == s.sh
    ensures Good(env, s, Some((s', Tau)))
  {
    hide LocksOk, FlagsAt, ThreadsOk, CounterOk, Contents, Doubling.View, InBounds;
    DataWired(env, s.sh);
    DataWired(env, s'.sh);
    SameSize(env, s.sh, s'.sh, Tau);
  }

  lemma StripeBelow(env: Env, n: nat, hp: nat, b: nat)
    requires Covers(env, n, hp) && b < Pow2(hp)
    ensures env.LockInd(b) < n
  {
    StripeInRange(env, hp, FreshLocks(n), b);
  }

  lemma InRange(env: Env, n: nat, hp: nat, op: Op)
    requires Covers(env, n, hp)
    ensures S1(env, hp, op) < n && S2(env, hp, op) < n
  {
    StripeBelow(env, n, hp, env.I1(hp, op.key));
    StripeBelow(env, n, hp, env.I2(hp, op.key));
  }

  /** Two stripes are locked in ascending order, and the managers release exactly those. */
  lemma PairIsLadder(n: nat, a: nat, b: nat)
    requires a < n && b < n
    ensures Ladder(n, Pair(a, b)) && Distinct(Managers(a, b))
    ensures forall l :: l in Pair(a, b) <==> l in Managers(a, b)
    ensures forall l :: l in Managers(a, b) <==> l == a || l == b
  {
  }

  /** Likewise for three stripes, however many of them coincide. */
  lemma TripleIsLadder(n: nat, a: nat, b: nat, c: nat)
    requires a < n && b < n && c < n
    ensures Ladder(n, Triple(a, b, c))
    ensures Distinct(Extra(a, b, c) + Managers(a, b)) && Distinct(Managers(a, b) + Extra(a, b, c))
    ensures forall l :: l in Triple(a, b, c) <==> l in Extra(a, b, c) + Managers(a, b)
    ensures forall l :: l in Extra(a, b, c) + Managers(a, b) <==> l in Managers(a, b) + Extra(a, b, c)
    ensures forall l :: l in Triple(a, b, c) <==> l == a || l == b || l == c
  {
  }

  lemma EverythingIsLadder(n: nat)
    ensures n > 0 ==> Ladder(n, Everything(n))
    ensures forall l: nat :: l in Everything(n) <==> l < n
  {
    forall l: nat | l < n
      ensures l in Everything(n)
    {
      assert Everything(n)[l] == l;
    }
  }

  lemma LadderDistinct(n: nat, want: seq<nat>)
    requires Ladder(n, want)
    ensures Distinct(want) && Distinct(want + []) && want + [] == want
  {
  }

  lemma StartOk(env: Env, s: State, t: Tid, cmd: Cmd)
    requires Inv(env, s) && t in s.pc && s.pc[t].Idle?
    ensures Good(env, s, StartStep(s, t, cmd))
  {
    hide LocksOk, FlagsAt, ThreadsOk, CounterOk, DataOk;
    var s' := StartStep(s, t, cmd).value.0;
    MoveKeepsInv(env, s, t, s'.pc[t]);
    QuietGood(env, s, s');
  }

  lemma SnapshotOk(env: Env, s: State, t: Tid, c: Choice)
    requires Inv(env, s) && t in s.pc && s.pc[t].Snapshot?
    ensures Good(env, s, Do(env, s, t, c))
  {
    hide LocksOk, FlagsAt, ThreadsOk, CounterOk, DataOk;
    OneContainer(env, s);
    var p' := Do(env, s, t, c).value.0.pc[t];
    MoveKeepsInv(env, s, t, p');
    QuietGood(env, s, Move(s, t, p'));
  }

  /** Whatever locks a thread goes for, it goes for them in ascending order. */
  lemma WantIsLadder(env: Env, n: nat, hp: nat, g: Goal)
    requires AimOk(env, n, hp, g) && n > 0
    ensures Ladder(n, Want(env, n, hp, g))
  {
    hide Pair, Triple, S1, S2, Env.LockInd, Env.Home, AltIndex, Covers;
    EverythingIsLadder(n);
    if g.OnKey? || g.Settle? {
      InRange(env, n, hp, g.op);
      PairIsLadder(n, S1(env, hp, g.op), S2(env, hp, g.op));
    } else if g.Peek? {
      StripeBelow(env, n, hp, g.b);
    } else if g.Shift? {
      StripeBelow(env, n, hp, g.path[g.d - 1].bucket);
      StripeBelow(env, n, hp, g.path[g.d].bucket);
      if g.d == 1 {
        InRange(env, n, hp, g.op);
        TripleIsLadder(n, S1(env, hp, g.op), S2(env, hp, g.op), env.LockInd(g.path[1].bucket));
      } else {
        PairIsLadder(n, env.LockInd(g.path[g.d - 1].bucket), env.LockInd(g.path[g.d].bucket));
      }
    }
  }

  lemma LocateOk(env: Env, s: State, t: Tid)
    requires Inv(env, s) && t in s.pc && s.pc[t].Locating?
    ensures Good(env, s, LocateStep(env, s, t, s.pc[t]))
  {
    hide FlagsAt, CounterOk, DataOk, AimOk, Want;
    var p := s.pc[t];
    assert PcOk(env, s.sh, p);
    OneContainer(env, s);
    WantIsLadder(env, |s.sh.locks|, p.hp, p.goal);
    var s' := LocateStep(env, s, t, p).value.0;
    MoveKeepsInv(env, s, t, s'.pc[t]);
    QuietGood(env, s, s');
  }

  lemma OneContainer(env: Env, s: State)
    requires LocksOk(env, s) && DataOk(env, s.sh)
    ensures s.sh.later == [] && 0 < |s.sh.holder| == |s.sh.locks| <= env.Stripes() && Covers(env, |s.sh.locks|, s.sh.hp)
  {
  }

  // Where a thread is once it has one more lock.
  ghost predicate Takes(env: Env, sh: Shared, p: PC, l: nat, p': PC) {
    && PcOk(env, sh, p') && (forall x :: x in Held(env, p') <==> x in Held(env, p) || x == l)
    && SameCount(p, p') && !p'.Freeing? && forall x :: FrontOf(p', x) == FrontOf(p, x) == 0
  }

  lemma MoreTaken(env: Env, sh: Shared, p: PC)
    requires p.Taking? && PcOk(env, sh, p) && p.got + 1 < |p.want| && (p.got > 0 || Global(p.goal))
    ensures Takes(env, sh, p, p.want[p.got], Taking(p.hp, p.first, p.c, p.want, p.got + 1, p.goal))
  {
    hide GoalOk;
    assert p.want[..p.got + 1] == p.want[..p.got] + [p.want[p.got]];
  }

  lemma FirstTaken(env: Env, sh: Shared, p: PC)
    requires p.Taking? && PcOk(env, sh, p) && p.got == 0 && !Global(p.goal)
    ensures Takes(env, sh, p, p.want[0], Checking(p.hp, p.c, p.want, p.goal))
  {
    hide GoalOk;
  }

  lemma AllTaken(env: Env, sh: Shared, p: PC)
    requires p.Taking? && PcOk(env, sh, p) && p.got + 1 == |p.want|
    ensures p.got > 0 && !Global(p.goal) ==>
              Takes(env, sh, p, p.want[p.got], Migrating(p.hp, p.c, p.want, 0, None, p.goal))
    ensures Global(p.goal) ==> Takes(env, sh, p, p.want[p.got], Working(p.hp, p.first, p.want, p.goal))
  {
    hide GoalOk;
    assert p.want == p.want[..p.got] + [p.want[p.got]];
  }

  lemma TakenOk(env: Env, sh: Shared, p: PC)
    requires p.Taking? && PcOk(env, sh, p) && sh.later == []
    ensures p.c == 0 && p.got < |p.want| && Takes(env, sh, p, p.want[p.got], Taken(sh, p))
  {
    hide GoalOk, Takes;
    if p.got + 1 < |p.want| && (p.got > 0 || Global(p.goal)) {
      MoreTaken(env, sh, p);
    } else if p.got == 0 && !Global(p.goal) {
      FirstTaken(env, sh, p);
    } else {
      AllTaken(env, sh, p);
    }
  }

  lemma TakeOk(env: Env, s: State, t: Tid)
    requires Inv(env, s) && t in s.pc && s.pc[t].Taking?
    ensures Good(env, s, TakeStep(s, t, s.pc[t]))
  {
    hide LocksOk, FlagsAt, CounterOk, DataOk, PcOk, Taken, FrontOf, Held;
    var p := s.pc[t];
    assert PcOk(env, s.sh, p);
    OneContainer(env, s);
    TakenOk(env, s.sh, p);
    var o := TakeStep(s, t, p);
    if o.Some? {
      TakeKeepsInv(env, s, t, p.want[p.got], Taken(s.sh, p));
      QuietGood(env, s, o.value.0);
    }
  }

  lemma CheckPc(env: Env, sh: Shared, p: PC)
    requires p.Checking? && PcOk(env, sh, p)
    ensures p.c == 0 && |p.want| > 0
    ensures sh.hp == p.hp ==> Passes(env, sh, p, if |p.want| == 1 then Migrating(p.hp, p.c, p.want, 0, None, p.goal)
                                                 else Taking(p.hp, p.c, p.c, p.want, 1, p.goal))
    ensures var p' := Retry(p.goal);
            && p.want[0] in Held(env, p) && PcOk(env, sh, p') && SameCount(p, p') && !p'.Freeing?
            && (forall x :: x in Held(env, p') <==> x in Held(env, p) && x != p.want[0])
            && forall x :: FrontOf(p', x) == FrontOf(p, x) == 0
  {
    hide AimOk, Want;
    assert |p.want| == 1 ==> p.want[..1] == p.want;
  }

  lemma CheckOk(env: Env, s: State, t: Tid)
    requires Inv(env, s) && t in s.pc && s.pc[t].Checking?
    ensures Good(env, s, CheckStep(s, t, s.pc[t]))
  {
    hide LocksOk, FlagsAt, CounterOk, DataOk, PcOk, Held, FrontOf, Passes;
    var p := s.pc[t];
    assert PcOk(env, s.sh, p);
    OneContainer(env, s);
    CheckPc(env, s.sh, p);
    var s' := CheckStep(s, t, p).value.0;
    if s.sh.hp == p.hp {
      PassOk(env, s, t, s'.pc[t]);
    } else {
      ReleaseKeepsInv(env, s, t, p.want[0], s'.pc[t]);
      QuietGood(env, s, s');
    }
  }

  // From the invariant: the flag of a stripe, with the bucket its holder has got to.
  lemma FlagOf(env: Env, s: State, t: Tid, l: nat)
    requires LocksOk(env, s) && FlagsAt(env, s) && t in s.pc && l in Held(env, s.pc[t])
    ensures l < |s.sh.locks| && Front(s, l) == FrontOf(s.pc[t], l)
    ensures FlagOk(env, s.sh.prev, s.sh.locks[l].migrated, l, FrontOf(s.pc[t], l))
  {
    hide FlagOk, FrontOf, Held;
    assert s.sh.holder[l] == Some(t);
  }

  // Moving thread `t` leaves the fronts of stripes it does not hold alone.
  lemma OtherFronts(env: Env, s: State, t: Tid, p': PC, sh': Shared, l: nat)
    requires LocksOk(env, s) && t in s.pc && sh'.holder == s.sh.holder
    ensures l !in Held(env, s.pc[t]) ==> Front(MoveWith(s, t, p', sh'), l) == Front(s, l)
    ensures l in Held(env, s.pc[t]) ==>
              Front(MoveWith(s, t, p', sh'), l) == FrontOf(p', l) && Front(s, l) == FrontOf(s.pc[t], l)
  {
    hide FrontOf, Held;
    if l in Held(env, s.pc[t]) {
      assert s.sh.holder[l] == Some(t);
    }
  }

  // Starting on a stripe that has to be migrated.
  lemma BeginStripeOk(env: Env, s: State, t: Tid)
    requires t in s.pc && s.pc[t].Migrating? && s.pc[t].at < |s.pc[t].want| && s.pc[t].next.None?
    requires s.pc[t].want[s.pc[t].at] < |s.sh.locks| && !s.sh.locks[s.pc[t].want[s.pc[t].at]].migrated && Inv(env, s)
    ensures var p := s.pc[t]; Inv(env, Move(s, t, Migrating(p.hp, p.c, p.want, p.at, Some(p.want[p.at]), p.goal)))
  {
    hide DataOk, FlagOk, PcOk, Unmigrated;
    var p := s.pc[t];
    var l := p.want[p.at];
    var p' := Migrating(p.hp, p.c, p.want, p.at, Some(l), p.goal);
    assert PcOk(env, s.sh, p);
    assert l in Held(env, p);
    FlagOf(env, s, t, l);
    OneContainer(env, s);
    BeginStripe(env, s.sh.prev, l);
    PcBegins(env, s.sh, p);
    forall x | 0 <= x < |s.sh.locks|
      ensures FlagOk(env, s.sh.prev, s.sh.locks[x].migrated, x, Front(Move(s, t, p'), x))
    {
      OtherFronts(env, s, t, p', s.sh, x);
    }
    CountingUpdate(s.pc, t, p');
    FreesUpdate(s.pc, t, p');
    RelyOnNothing(env, s, t);
    ChangeKeepsInv(env, s, t, p', s.sh);
  }

  lemma BeginStripe(env: Env, prev: Option<Buckets>, l: nat)
    requires l < env.Stripes() && FlagOk(env, prev, false, l, 0)
    ensures FlagOk(env, prev, false, l, l)
  {
    StripeStarts(env, prev.value, l);
  }

  lemma PcBegins(env: Env, sh: Shared, p: PC)
    requires PcOk(env, sh, p) && p.Migrating? && p.at < |p.want| && p.next.None? && |sh.locks| <= env.Stripes()
    requires !sh.locks[p.want[p.at]].migrated
    ensures PcOk(env, sh, Migrating(p.hp, p.c, p.want, p.at, Some(p.want[p.at]), p.goal))
    ensures p.want[p.at] < env.Stripes()
  {
    FirstOfStripe(env, p.want[p.at]);
  }

  lemma MovedData(env: Env, sh: Shared, ind: nat)
    requires DataOk(env, sh) && sh.prev.Some? && ind < |sh.prev.value|
    ensures Wired(sh) && DataOk(env, BucketMoved(env, sh, ind)) && Wired(BucketMoved(env, sh, ind))
    ensures Map(env, BucketMoved(env, sh, ind)) == Map(env, sh)
    ensures Array(env, BucketMoved(env, sh, ind)) == Array(env, sh)
  {
    hide Contents, CountsOf, MoveBucketCur, Vacate, WellFormed, Doubling.View;
    assert sh.prev == Some(sh.prev.value);
    MoveBucketView(env, sh.hp, sh.cur, sh.prev.value, ind);
  }

  // Other threads do not notice a bucket being moved.
  lemma MovedUnseen(env: Env, sh: Shared, ind: nat, held: seq<nat>)
    requires DataOk(env, sh) && sh.prev.Some? && ind < |sh.prev.value| && Wired(sh)
    requires env.LockInd(ind) !in held
    ensures Rely(env, sh, BucketMoved(env, sh, ind), held)
  {
    hide Contents, CountsOf, WellFormed, Doubling.View, LowPart, HighPart, Env.LockInd;
    StripeOfCopy(env, sh.hp - 1, ind);
  }

  lemma MovedFlags(env: Env, prev: Buckets, ind: nat, migrated: bool, l: nat, front: nat, front': nat)
    requires ind < |prev| && FlagOk(env, Some(prev), migrated, l, front)
    requires if env.LockInd(ind) == l then !migrated && ind == front && front' == front + env.Stripes()
             else front' == front
    ensures FlagOk(env, Some(prev[ind := Vacate(prev[ind])]), migrated, l, front')
  {
    StripeAdvances(env, prev, ind, l, if migrated then |prev| else front);
  }

  lemma MovedPc(env: Env, sh: Shared, p: PC)
    requires p.Migrating? && p.next.Some? && PcOk(env, sh, p)
    requires Wired(sh) && sh.prev.Some? && p.next.value < |sh.prev.value|
    ensures p.at < |p.want| && p.want[p.at] < |sh.locks| && env.LockInd(p.next.value) == p.want[p.at]
    ensures !sh.locks[p.want[p.at]].migrated && sh.hp == p.hp
    ensures PcOk(env, BucketMoved(env, sh, p.next.value),
                 Migrating(p.hp, p.c, p.want, p.at, Some(p.next.value + env.Stripes()), p.goal))
  {
    hide GoalOk, MigratedUpTo, Env.LockInd, MoveBucketCur, Vacate;
    NextOfStripe(env, p.next.value, p.next.value + env.Stripes());
  }

  // Moving one old bucket.
  lemma MoveBucketOk(env: Env, s: State, t: Tid)
    requires Inv(env, s) && t in s.pc && s.pc[t].Migrating? && s.pc[t].next.Some?
    requires s.sh.prev.Some? && s.pc[t].next.value < |s.sh.prev.value|
    ensures var p := s.pc[t];
            && Wired(s.sh)
            && var p' := Migrating(p.hp, p.c, p.want, p.at, Some(p.next.value + env.Stripes()), p.goal);
               var s' := MoveWith(s, t, p', BucketMoved(env, s.sh, p.next.value));
               Inv(env, s') && Wired(s'.sh) && Map(env, s'.sh) == Map(env, s.sh)
  {
    hide DataOk, FlagOk, Unmigrated, Vacate, MoveBucketCur, PcOk, Rely, Env.LockInd;
    var p, sh := s.pc[t], s.sh;
    var ind := p.next.value;
    var p' := Migrating(p.hp, p.c, p.want, p.at, Some(ind + env.Stripes()), p.goal);
    assert PcOk(env, sh, p);
    MovedData(env, sh, ind);
    MovedPc(env, sh, p);
    var l := p.want[p.at];
    assert l in Held(env, p);
    var sh' := BucketMoved(env, sh, ind);
    forall u | u in s.pc && u != t
      ensures Rely(env, sh, sh', Held(env, s.pc[u]))
    {
      Exclusive(env, s, t, u, l);
      MovedUnseen(env, sh, ind, Held(env, s.pc[u]));
    }
    assert sh.prev == Some(sh.prev.value);
    forall x | 0 <= x < |sh.locks|
      ensures FlagOk(env, sh'.prev, sh'.locks[x].migrated, x, Front(MoveWith(s, t, p', sh'), x))
    {
      OtherFronts(env, s, t, p', sh', x);
      assert FlagOk(env, sh.prev, sh.locks[x].migrated, x, Front(s, x));
      MovedFlags(env, sh.prev.value, ind, sh.locks[x].migrated, x, Front(s, x), Front(MoveWith(s, t, p', sh'), x));
    }
    CountingUpdate(s.pc, t, p');
    FreesUpdate(s.pc, t, p');
    ChangeKeepsInv(env, s, t, p', sh');
  }

  lemma MarkedData(env: Env, sh: Shared, l: nat)
    requires DataOk(env, sh) && l < |sh.locks|
    ensures DataOk(env, sh.(locks := Marked(sh.locks, l)))
  {
    hide Contents, LazyOk, Doubling.View;
    MarkedFacts(sh.locks, l);
  }

  lemma MarkedFlag(env: Env, prev: Option<Buckets>, l: nat, front: nat)
    requires FlagOk(env, prev, false, l, front) && front >= |prev.value|
    ensures FlagOk(env, prev, true, l, 0)
  {
  }

  // Other threads do not notice a flag being set.
  lemma MarkedUnseen(env: Env, sh: Shared, l: nat, held: seq<nat>)
    requires l < |sh.locks| && l !in held
    ensures Rely(env, sh, sh.(locks := Marked(sh.locks, l)), held)
  {
    hide Env.LockInd;
  }

  lemma MarkedPc(env: Env, sh: Shared, p: PC)
    requires p.Migrating? && p.next.Some? && PcOk(env, sh, p)
    ensures p.at < |p.want| && p.want[p.at] < |sh.locks| && !sh.locks[p.want[p.at]].migrated
    ensures PcOk(env, sh.(locks := Marked(sh.locks, p.want[p.at])), Counting(p.hp, p.c, p.want, p.at, p.goal))
    ensures FrontOf(p, p.want[p.at]) == p.next.value && p.want[p.at] in Held(env, p)
    ensures forall l: nat | l != p.want[p.at] :: FrontOf(p, l) == 0
  {
    hide AimOk, Want, Ladder, Env.LockInd;
  }

  // Setting the flag of a stripe whose buckets have all been moved.
  lemma SetFlagOk(env: Env, s: State, t: Tid)
    requires Inv(env, s) && t in s.pc && s.pc[t].Migrating? && s.pc[t].next.Some?
    requires !(s.sh.prev.Some? && s.pc[t].next.value < |s.sh.prev.value|)
    ensures var p := s.pc[t];
            && p.at < |p.want| && p.want[p.at] < |s.sh.locks|
            && var sh' := s.sh.(locks := Marked(s.sh.locks, p.want[p.at]));
               Inv(env, MoveWith(s, t, Counting(p.hp, p.c, p.want, p.at, p.goal), sh'))
  {
    hide DataOk, Unmigrated, PcOk, StripeAt, Rely, Marked, Held, Front;
    var p, sh := s.pc[t], s.sh;
    assert PcOk(env, sh, p);
    MarkedPc(env, sh, p);
    var l := p.want[p.at];
    var p' := Counting(p.hp, p.c, p.want, p.at, p.goal);
    var sh' := sh.(locks := Marked(sh.locks, l));
    FlagOf(env, s, t, l);
    MarkedFlag(env, sh.prev, l, p.next.value);
    MarkedData(env, sh, l);
    MarkedFacts(sh.locks, l);
    CountingHeld(env, p, p');
    forall u | u in s.pc && u != t
      ensures Rely(env, sh, sh', Held(env, s.pc[u]))
    {
      Exclusive(env, s, t, u, l);
      MarkedUnseen(env, sh, l, Held(env, s.pc[u]));
    }
    forall x | 0 <= x < |sh'.locks|
      ensures FlagOk(env, sh'.prev, sh'.locks[x].migrated, x, Front(MoveWith(s, t, p', sh'), x))
    {
      OtherFronts(env, s, t, p', sh', x);
      assert FlagOk(env, sh.prev, sh.locks[x].migrated, x, Front(s, x));
      MarkedElsewhere(sh.locks, l, x);
    }
    CountingUpdate(s.pc, t, p');
    FreesUpdate(s.pc, t, p');
    ChangeKeepsInv(env, s, t, p', sh');
  }

  lemma CountingHeld(env: Env, p: PC, p': PC)
    requires p.Migrating? && p' == Counting(p.hp, p.c, p.want, p.at, p.goal)
    ensures Held(env, p') == Held(env, p) && forall l: nat :: FrontOf(p', l) == 0
  {
  }

  lemma MarkedElsewhere(locks: Locks, l: nat, x: nat)
    requires l < |locks| && x < |locks|
    ensures |Marked(locks, l)| == |locks| && Marked(locks, l)[x].migrated == (x == l || locks[x].migrated)
  {
  }

  // A thread may go on from `p` to `p'` without touching anything.
  ghost predicate Passes(env: Env, sh: Shared, p: PC, p': PC) {
    && PcOk(env, sh, p') && SameHeld(env, p, p') && SameCount(p, p') && !p'.Freeing?
    && forall l | l in Held(env, p) :: FrontOf(p', l) == FrontOf(p, l)
  }

  lemma PassOk(env: Env, s: State, t: Tid, p': PC)
    requires Inv(env, s) && t in s.pc && Passes(env, s.sh, s.pc[t], p')
    ensures Good(env, s, Quiet(Move(s, t, p')))
  {
    hide LocksOk, FlagsAt, ThreadsOk, CounterOk, DataOk, PcOk, Held, FrontOf, SameHeld;
    MoveKeepsInv(env, s, t, p');
    QuietGood(env, s, Move(s, t, p'));
  }

  // The stripe that a migrating thread is at is done already, or all its stripes are.
  lemma SkipPc(env: Env, sh: Shared, p: PC)
    requires p.Migrating? && PcOk(env, sh, p) && p.next.None?
    ensures p.at >= |p.want| ==> Passes(env, sh, p, Working(p.hp, p.c, p.want, p.goal))
    ensures p.at < |p.want| ==> p.want[p.at] < |sh.locks|
    ensures p.at < |p.want| && sh.locks[p.want[p.at]].migrated ==>
              Passes(env, sh, p, Migrating(p.hp, p.c, p.want, p.at + 1, None, p.goal))
  {
    hide AimOk, Want;
  }

  lemma MigratingFacts(env: Env, sh: Shared, p: PC)
    requires p.Migrating? && PcOk(env, sh, p)
    ensures p.next.Some? ==> p.at < |p.want| && p.want[p.at] < |sh.locks|
  {
  }

  lemma MovedSize(env: Env, sh: Shared, ind: nat)
    requires sh.prev.Some? && sh.hp > 0 && ind < |sh.prev.value| && 2 * |sh.prev.value| == |sh.cur|
    ensures BucketMoved(env, sh, ind).hp == sh.hp && LimitsIn(BucketMoved(env, sh, ind)) == LimitsIn(sh)
  {
  }

  lemma MigrateOk(env: Env, s: State, t: Tid)
    requires Inv(env, s) && t in s.pc && s.pc[t].Migrating?
    ensures Good(env, s, MigrateStep(env, s, t, s.pc[t]))
  {
    hide LocksOk, FlagsAt, CounterOk, DataOk, BucketMoved, Marked, Env.LockInd, PcOk, Passes, InBounds;
    var p := s.pc[t];
    assert PcOk(env, s.sh, p);
    MigratingFacts(env, s.sh, p);
    var o := MigrateStep(env, s, t, p);
    if o.Some? {
      var s' := o.value.0;
      if p.next.None? {
        SkipPc(env, s.sh, p);
        if p.at < |p.want| && !s.sh.locks[p.want[p.at]].migrated {
          BeginStripeOk(env, s, t);
          QuietGood(env, s, s');
        } else {
          PassOk(env, s, t, s'.pc[t]);
        }
      } else if s.sh.prev.Some? && p.next.value < |s.sh.prev.value| {
        MoveBucketOk(env, s, t);
        MovedSize(env, s.sh, p.next.value);
        SameSize(env, s.sh, s'.sh, Tau);
      } else {
        SetFlagOk(env, s, t);
        FlagIsNotData(env, s.sh, s'.sh);
        SameSize(env, s.sh, s'.sh, Tau);
      }
    }
  }

  lemma FlagIsNotData(env: Env, sh: Shared, sh': Shared)
    requires DataOk(env, sh) && sh' == sh.(locks := sh'.locks)
    ensures Wired(sh) && Wired(sh') && Map(env, sh') == Map(env, sh)
  {
  }

  lemma CountedPc(env: Env, s: State, t: Tid)
    requires t in s.pc && s.pc[t].Counting? && PcOk(env, s.sh, s.pc[t])
    ensures var s' := CountStep(s, t, s.pc[t]); PcOk(env, s'.sh, s'.pc[t]) && Held(env, s'.pc[t]) == Held(env, s.pc[t])
  {
    hide GoalOk;
  }

  // Lowering the counter; the thread that brings it to zero goes on to release the old buckets.
  lemma CountOk(env: Env, s: State, t: Tid)
    requires Inv(env, s) && t in s.pc && s.pc[t].Counting?
    ensures Good(env, s, Some((CountStep(s, t, s.pc[t]), Tau)))
  {
    hide LocksOk, DataOk, FlagOk, Unmigrated, PcOk, Held, Rely;
    var p, sh := s.pc[t], s.sh;
    assert PcOk(env, sh, p);
    var s' := CountStep(s, t, p);
    var p', sh' := s'.pc[t], s'.sh;
    assert t in CountingThreads(s.pc);
    CountingUpdate(s.pc, t, p');
    assert p'.Freeing? ==> !SomeoneFrees(s.pc) by {
      NobodyFrees(env, s);
    }
    FreesUpdate(s.pc, t, p');
    CountedPc(env, s, t);
    SameData(env, sh, sh');
    FlagsMove(env, s, t, p');
    assert FlagsAt(env, s');
    ChangeKeepsInv(env, s, t, p', sh');
    QuietGood(env, s, s');
  }

  lemma NobodyFrees(env: Env, s: State)
    requires ThreadsOk(env, s) && s.sh.remaining > 0
    ensures !SomeoneFrees(s.pc)
  {
    forall u | u in s.pc
      ensures !s.pc[u].Freeing?
    {
      assert PcOk(env, s.sh, s.pc[u]);
    }
  }

  lemma SameData(env: Env, sh: Shared, sh': Shared)
    requires DataOk(env, sh) && sh' == sh.(remaining := sh'.remaining)
    ensures DataOk(env, sh')
    ensures forall held: seq<nat> :: (sh.remaining == 0 ==> sh'.remaining == 0) ==> Rely(env, sh, sh', held)
  {
    hide BodyOk;
  }

  // Releasing the old buckets: by then every stripe has been migrated.
  lemma FreeOk(env: Env, s: State, t: Tid)
    requires Inv(env, s) && t in s.pc && s.pc[t].Freeing?
    ensures var p := s.pc[t];
            var p' := Migrating(p.hp, p.c, p.want, p.at + 1, None, p.goal);
            Good(env, s, Some((MoveWith(s, t, p', s.sh.(prev := None)), Tau)))
  {
    hide DataOk, Unmigrated, GoalOk, StripeAt;
    var p, sh := s.pc[t], s.sh;
    assert PcOk(env, sh, p);
    var p', sh' := Migrating(p.hp, p.c, p.want, p.at + 1, None, p.goal), sh.(prev := None);
    UnmigratedZero(sh.locks);
    ReleasedData(env, s);
    CountingUpdate(s.pc, t, p');
    FreesUpdate(s.pc, t, p');
    forall u | u in s.pc && u != t
      ensures Rely(env, sh, sh', Held(env, s.pc[u]))
    {
    }
    assert FlagsAt(env, MoveWith(s, t, p', sh'));
    ChangeKeepsInv(env, s, t, p', sh');
  }

  lemma ReleasedData(env: Env, s: State)
    requires DataOk(env, s.sh) && FlagsAt(env, s)
    requires forall l | 0 <= l < |s.sh.locks| :: s.sh.locks[l].migrated
    ensures var sh' := s.sh.(prev := None);
            && Wired(s.sh) && Wired(sh') && DataOk(env, sh') && Map(env, sh') == Map(env, s.sh)
            && Array(env, sh') == Array(env, s.sh)
  {
    hide BodyOk, Contents, StripeAt;
    var sh := s.sh;
    forall l | 0 <= l < |sh.locks|
      ensures FlagOk(env, sh.prev, sh.locks[l].migrated, l, 0)
    {
      assert FlagOk(env, sh.prev, sh.locks[l].migrated, l, Front(s, l));
    }
    assert TableOk(env, sh.hp, sh.cur, sh.prev, sh.locks);
    ReleaseOk(env, sh.hp, sh.cur, sh.prev, sh.locks);
    DataWired(env, sh);
  }

  lemma SearchOk(env: Env, s: State, t: Tid, c: Choice)
    requires Inv(env, s) && t in s.pc && s.pc[t].Searching?
    ensures Good(env, s, SearchStep(env, s, t, s.pc[t], c))
  {
    hide LocksOk, FlagsAt, CounterOk, DataOk, PathShape, Env.Home;
    var p := s.pc[t];
    assert PcOk(env, s.sh, p);
    var o := SearchStep(env, s, t, p, c);
    if o.Some? {
      var s' := o.value.0;
      if c.Follow? {
        StartShiftOk(env, s.sh, p.hp, p.op, c.path, |c.path| - 1);
      }
      MoveKeepsInv(env, s, t, s'.pc[t]);
      QuietGood(env, s, s');
    }
  }

  lemma StartShiftOk(env: Env, sh: Shared, hp: nat, op: Op, path: seq<CuckooRecord>, d: nat)
    requires op.UpraseOp? && PathShape(env, hp, op, path) && d < |path| && Covers(env, |sh.locks|, hp)
    ensures PcOk(env, sh, StartShift(hp, op, path, d)) && Held(env, StartShift(hp, op, path, d)) == []
  {
  }

  lemma TailDistinct(rest: seq<nat>, keep: seq<nat>)
    requires |rest| > 0 && Distinct(rest + keep)
    ensures Distinct(rest[1..] + keep)
    ensures forall l :: l in rest[1..] + keep <==> l in rest + keep && l != rest[0]
  {
    var all, tail := rest + keep, rest[1..] + keep;
    assert all == [rest[0]] + tail;
    assert forall i | 0 <= i < |tail| :: tail[i] == all[i + 1];
    assert forall i | 0 <= i < |tail| :: tail[i] != all[0];
  }

  // Letting go of the first lock of the list, or of nothing.
  lemma DropPc(env: Env, sh: Shared, p: PC)
    requires p.Dropping? && PcOk(env, sh, p)
    ensures p.c == 0
    ensures |p.rest| == 0 ==> Passes(env, sh, p, p.cont)
    ensures |p.rest| > 0 ==>
              var p' := Dropping(p.all, p.c, p.rest[1..], p.keep, p.cont);
              && p.rest[0] in Held(env, p) && PcOk(env, sh, p') && SameCount(p, p')
              && (forall x :: x in Held(env, p') <==> x in Held(env, p) && x != p.rest[0])
              && forall x :: FrontOf(p', x) == FrontOf(p, x) == 0
  {
    if |p.rest| == 0 {
      assert p.rest + p.keep == p.keep;
    } else {
      TailDistinct(p.rest, p.keep);
    }
  }

  lemma DropOk(env: Env, s: State, t: Tid)
    requires Inv(env, s) && t in s.pc && s.pc[t].Dropping?
    ensures Good(env, s, DropStep(s, t, s.pc[t]))
  {
    hide LocksOk, FlagsAt, CounterOk, DataOk, PcOk, Held, FrontOf, Passes, Everything;
    var p := s.pc[t];
    assert PcOk(env, s.sh, p);
    OneContainer(env, s);
    DropPc(env, s.sh, p);
    if |p.rest| == 0 {
      PassOk(env, s, t, p.cont);
    } else {
      var p' := Dropping(p.all, p.c, p.rest[1..], p.keep, p.cont);
      ReleaseKeepsInv(env, s, t, p.rest[0], p');
      QuietGood(env, s, DropStep(s, t, p).value.0);
    }
  }
}
