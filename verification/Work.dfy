/** The steps a thread takes inside its critical sections. */
module Work {
  import opened Hashing
  import opened Bits
  import opened Layout
  import opened Doubling
  import opened CuckooTable
  import opened PathMove
  import opened MapSpec
  import opened Protocol
  import opened Safety
  import opened Steps

  lemma {:induction false} UnmigratedSame(locks: Locks, locks': Locks)
    requires SameFlags(locks, locks')
    ensures Unmigrated(locks') == Unmigrated(locks)
  {
    if |locks| > 0 {
      UnmigratedSame(locks[..|locks| - 1], locks'[..|locks| - 1]);
    }
  }

  // The step wrote only to buckets under the thread's own stripes.
  ghost predicate WritesUnder(env: Env, sh: Shared, sh': Shared, held: seq<nat>) {
    && sh' == sh.(cur := sh'.cur, locks := sh'.locks)
    && |sh'.cur| == |sh.cur| && SameFlags(sh.locks, sh'.locks)
    && forall b: nat | b < |sh.cur| && env.LockInd(b) !in held :: sh'.cur[b] == sh.cur[b]
  }

  lemma WritesUnseen(env: Env, sh: Shared, sh': Shared, held: seq<nat>, other: seq<nat>)
    requires WritesUnder(env, sh, sh', held) && forall l | l in held :: l !in other
    ensures Rely(env, sh, sh', other)
  {
    hide Env.LockInd;
  }

  /** A write under the thread's own locks keeps the invariant. */
  lemma WriteKeepsInv(env: Env, s: State, t: Tid, p': PC, sh': Shared)
    requires Inv(env, s) && t in s.pc && (s.pc[t].Working? || s.pc[t].Ready?)
    requires SameHeld(env, s.pc[t], p') && WritesUnder(env, s.sh, sh', Held(env, s.pc[t]))
    requires DataOk(env, sh') && PcOk(env, sh', p')
    requires p'.Dropping? || p'.Ready?
    ensures Inv(env, MoveWith(s, t, p', sh'))
  {
    hide DataOk, PcOk, LocksOk, ThreadsOk, FlagOk, Unmigrated, Held;
    forall u | u in s.pc && u != t
      ensures Rely(env, s.sh, sh', Held(env, s.pc[u]))
    {
      forall l | l in Held(env, s.pc[t])
        ensures l !in Held(env, s.pc[u])
      {
        Exclusive(env, s, t, u, l);
      }
      WritesUnseen(env, s.sh, sh', Held(env, s.pc[t]), Held(env, s.pc[u]));
    }
    forall x | 0 <= x < |sh'.locks|
      ensures FlagOk(env, sh'.prev, sh'.locks[x].migrated, x, Front(MoveWith(s, t, p', sh'), x))
    {
      OtherFronts(env, s, t, p', sh', x);
      assert FlagOk(env, s.sh.prev, s.sh.locks[x].migrated, x, Front(s, x));
    }
    UnmigratedSame(s.sh.locks, sh'.locks);
    CountingUpdate(s.pc, t, p');
    FreesUpdate(s.pc, t, p');
    ChangeKeepsInv(env, s, t, p', sh');
  }

  // A bucket under a migrated stripe is read and written in the new array.
  lemma SettledAt(env: Env, s: State, b: nat)
    requires DataOk(env, s.sh) && FlagsAt(env, s) && b < |s.sh.cur|
    requires env.LockInd(b) < |s.sh.locks| && s.sh.locks[env.LockInd(b)].migrated
    ensures !IsPending(s.sh.prev, |s.sh.cur|, b) && Wired(s.sh)
    ensures View(env, s.sh.hp, s.sh.cur, s.sh.prev)[b] == s.sh.cur[b]
  {
    hide Contents, WellFormed, Env.LockInd;
    var sh := s.sh;
    assert FlagOk(env, sh.prev, true, env.LockInd(b), Front(s, env.LockInd(b)));
    if sh.prev.Some? {
      StripeOfCopy(env, sh.hp - 1, OldIndex(|sh.prev.value|, b));
    }
    WriteThrough(env, sh.hp, sh.cur, sh.prev, b, sh.cur[b]);
  }

  // Both buckets of a key are under migrated stripes.
  ghost predicate KeyReady(env: Env, sh: Shared, op: Op) {
    && |sh.cur| == Pow2(sh.hp)
    && S1(env, sh.hp, op) < |sh.locks| && sh.locks[S1(env, sh.hp, op)].migrated
    && S2(env, sh.hp, op) < |sh.locks| && sh.locks[S2(env, sh.hp, op)].migrated
  }

  /** Under both locks, scanning the two buckets gives the shared map's answer. */
  lemma FindIs(env: Env, s: State, op: Op)
    requires DataOk(env, s.sh) && FlagsAt(env, s) && KeyReady(env, s.sh, op)
    ensures Wired(s.sh)
    ensures var f := Find(env, s.sh, op.key);
            if f.None? then op.key !in Map(env, s.sh)
            else && env.Home(s.sh.hp, op.key, f.value.index) && Holds(s.sh.cur, op.key, f.value.index, f.value.slot)
                 && !IsPending(s.sh.prev, |s.sh.cur|, f.value.index)
                 && op.key in Map(env, s.sh) && Map(env, s.sh)[op.key] == s.sh.cur[f.value.index][f.value.slot].val
  {
    hide Contents, Doubling.View, FindSlot, Env.LockInd, Env.I1, Env.I2, WellFormed, FlagsAt;
    var sh := s.sh;
    DataWired(env, sh);
    SettledAt(env, s, env.I1(sh.hp, op.key));
    SettledAt(env, s, env.I2(sh.hp, op.key));
    LookupOk(env, sh.hp, View(env, sh.hp, sh.cur, sh.prev), op.key);
  }

  lemma TouchData(env: Env, sh: Shared, b: nat, j: nat, op: Op)
    requires DataOk(env, sh) && Holds(sh.cur, op.key, b, j) && env.LockInd(b) < |sh.locks|
    requires Wired(sh) && !IsPending(sh.prev, |sh.cur|, b)
    ensures var sh' := TouchSlot(env, sh, b, j, op);
            && DataOk(env, sh') && Wired(sh') && op.key in Map(env, sh) && Map(env, sh') == After(op, Map(env, sh))
            && Map(env, sh)[op.key] == sh.cur[b][j].val
  {
    hide LazyOk, Contents, Doubling.View, CountsOf, Counted, Env.LockInd;
    DataWired(env, sh);
    WriteThrough(env, sh.hp, sh.cur, sh.prev, b, sh.cur[b]);
    LiveEntry(env, sh.hp, View(env, sh.hp, sh.cur, sh.prev), b, j);
    match op
    case FindOp(_) =>
    case UpdateOp(_, f) => AssignOk(env, sh.hp, sh.cur, sh.prev, sh.locks, b, j, f(sh.cur[b][j].val));
    case EraseOp(_, g) => MutateData(env, sh, b, j, g);
    case UpraseOp(_, g, _) => MutateData(env, sh, b, j, g);
  }

  lemma MutateData(env: Env, sh: Shared, b: nat, j: nat, g: Value -> (Value, bool))
    requires DataOk(env, sh) && LiveAt(sh.cur, b, j) && env.LockInd(b) < |sh.locks|
    requires Wired(sh) && !IsPending(sh.prev, |sh.cur|, b)
    ensures var sh', k, r := MutateSlot(env, sh, b, j, g), sh.cur[b][j].key, g(sh.cur[b][j].val);
            && DataOk(env, sh') && Wired(sh')
            && Map(env, sh') == if r.1 then Map(env, sh) - {k} else Map(env, sh)[k := r.0]
  {
    hide LazyOk, Contents, Doubling.View, CountsOf, Counted, Env.LockInd;
    var (v, gone) := g(sh.cur[b][j].val);
    if gone {
      DelOk(env, sh.hp, sh.cur, sh.prev, sh.locks, b, j, env.LockInd(b));
    } else {
      AssignOk(env, sh.hp, sh.cur, sh.prev, sh.locks, b, j, v);
    }
  }

  lemma AddData(env: Env, sh: Shared, b: nat, j: nat, k: Key, v: Value)
    requires DataOk(env, sh) && Wired(sh) && Free(sh.cur, b, j) && env.LockInd(b) < |sh.locks|
    requires !IsPending(sh.prev, |sh.cur|, b) && env.Home(sh.hp, k, b) && k !in Map(env, sh)
    ensures var sh' := AddSlot(env, sh, b, j, k, v);
            DataOk(env, sh') && Wired(sh') && Map(env, sh') == Map(env, sh)[k := v]
  {
    hide LazyOk, Contents, Doubling.View, CountsOf, Counted, Env.LockInd, Env.Home;
    AddOk(env, sh.hp, sh.cur, sh.prev, sh.locks, b, j, k, v, env.LockInd(b));
  }

  lemma TouchWrites(env: Env, sh: Shared, b: nat, j: nat, op: Op, held: seq<nat>)
    requires LiveAt(sh.cur, b, j) && env.LockInd(b) < |sh.locks| && env.LockInd(b) in held
    ensures WritesUnder(env, sh, TouchSlot(env, sh, b, j, op), held)
  {
    hide Counted, Env.LockInd;
    CountedFacts(sh.locks, env.LockInd(b), -1);
  }

  lemma AddWrites(env: Env, sh: Shared, b: nat, j: nat, k: Key, v: Value, held: seq<nat>)
    requires b < |sh.cur| && j < |sh.cur[b]| && env.LockInd(b) < |sh.locks| && env.LockInd(b) in held
    ensures WritesUnder(env, sh, AddSlot(env, sh, b, j, k, v), held)
  {
    hide Counted, Env.LockInd;
    CountedFacts(sh.locks, env.LockInd(b), 1);
  }

  lemma KeyStripesOk(env: Env, n: nat, hp: nat, op: Op)
    requires Covers(env, n, hp)
    ensures forall l :: l in KeyStripes(env, hp, op) <==> l == S1(env, hp, op) || l == S2(env, hp, op)
    ensures forall l :: l in Pair(S1(env, hp, op), S2(env, hp, op)) <==> l in KeyStripes(env, hp, op)
    ensures Distinct(KeyStripes(env, hp, op) + []) && KeyStripes(env, hp, op) + [] == KeyStripes(env, hp, op)
    ensures forall i | 0 <= i < |KeyStripes(env, hp, op)| :: KeyStripes(env, hp, op)[i] < n
  {
    hide S1, S2;
    InRange(env, n, hp, op);
    PairIsLadder(n, S1(env, hp, op), S2(env, hp, op));
  }

  // A thread in its critical section on a key, holding the key's stripes and no others.
  ghost predicate AtKey(env: Env, s: State, t: Tid, op: Op) {
    && t in s.pc && (s.pc[t].Working? || s.pc[t].Ready?)
    && KeyReady(env, s.sh, op) && Covers(env, |s.sh.locks|, s.sh.hp)
    && (forall l :: l in Held(env, s.pc[t]) <==> l in KeyStripes(env, s.sh.hp, op))
  }

  lemma FinishPc(env: Env, sh: Shared, p: PC, hp: nat, op: Op, r: Res)
    requires Covers(env, |sh.locks|, hp) && forall l :: l in Held(env, p) <==> l in KeyStripes(env, hp, op)
    ensures var p' := Drop(0, KeyStripes(env, hp, op), Done(KeyCmd(op), Answered(r)));
            PcOk(env, sh, p') && SameHeld(env, p, p')
  {
    hide KeyStripes, Covers;
    KeyStripesOk(env, |sh.locks|, hp, op);
  }

  /** The step that decides the answer of an operation on a key. */
  lemma FinishOk(env: Env, s: State, t: Tid, sh': Shared, op: Op, r: Res)
    requires Inv(env, s) && AtKey(env, s, t, op)
    requires WritesUnder(env, s.sh, sh', KeyStripes(env, s.sh.hp, op)) && DataOk(env, sh')
    requires Wired(s.sh) && Wired(sh') && Does(op, Map(env, s.sh), Map(env, sh'), r)
    ensures Good(env, s, Finish(s, t, sh', 0, KeyStripes(env, s.sh.hp, op), op, r))
  {
    hide LocksOk, FlagsAt, ThreadsOk, CounterOk, DataOk, KeyStripes, KeyReady, Does, Map, PcOk, SameHeld, Covers,
      Held, InBounds;
    FinishPc(env, sh', s.pc[t], s.sh.hp, op, r);
    var p' := Drop(0, KeyStripes(env, s.sh.hp, op), Done(KeyCmd(op), Answered(r)));
    WriteKeepsInv(env, s, t, p', sh');
    SameSize(env, s.sh, sh', Commit(KeyCmd(op), Answered(r)));
  }

  // An operation that finds its key.
  lemma HitOk(env: Env, s: State, t: Tid, op: Op)
    requires Inv(env, s) && AtKey(env, s, t, op) && Find(env, s.sh, op.key).Some?
    ensures var q := Find(env, s.sh, op.key).value;
            && LiveAt(s.sh.cur, q.index, q.slot) && env.LockInd(q.index) < |s.sh.locks|
            && Good(env, s, Finish(s, t, TouchSlot(env, s.sh, q.index, q.slot, op), 0, KeyStripes(env, s.sh.hp, op), op,
                                   Hit(s.sh.cur[q.index][q.slot].val)))
  {
    hide LocksOk, FlagsAt, ThreadsOk, CounterOk, DataOk, Find, KeyStripes, Map, Finish, TouchSlot, Env.LockInd,
      WritesUnder, Does;
    FindIs(env, s, op);
    var q := Find(env, s.sh, op.key).value;
    KeyStripesOk(env, |s.sh.locks|, s.sh.hp, op);
    TouchData(env, s.sh, q.index, q.slot, op);
    TouchWrites(env, s.sh, q.index, q.slot, op, KeyStripes(env, s.sh.hp, op));
    var sh' := TouchSlot(env, s.sh, q.index, q.slot, op);
    DoesIsAfter(op, Map(env, s.sh), Map(env, sh'), Hit(s.sh.cur[q.index][q.slot].val));
    FinishOk(env, s, t, sh', op, Hit(s.sh.cur[q.index][q.slot].val));
  }

  // An insertion of a key that is not there.
  lemma InsertOk(env: Env, s: State, t: Tid, op: Op, b: nat, j: nat)
    requires Inv(env, s) && AtKey(env, s, t, op) && Find(env, s.sh, op.key).None? && op.UpraseOp?
    requires env.Home(s.sh.hp, op.key, b) && Free(s.sh.cur, b, j)
    ensures && env.LockInd(b) < |s.sh.locks|
            && Good(env, s, Finish(s, t, AddSlot(env, s.sh, b, j, op.key, op.val), 0, KeyStripes(env, s.sh.hp, op), op,
                                   Inserted))
  {
    hide LocksOk, FlagsAt, ThreadsOk, CounterOk, DataOk, Find, KeyStripes, Map, Finish, AddSlot, Env.LockInd,
      WritesUnder, Does;
    FindIs(env, s, op);
    KeyStripesOk(env, |s.sh.locks|, s.sh.hp, op);
    SettledAt(env, s, b);
    AddData(env, s.sh, b, j, op.key, op.val);
    AddWrites(env, s.sh, b, j, op.key, op.val, KeyStripes(env, s.sh.hp, op));
    var sh' := AddSlot(env, s.sh, b, j, op.key, op.val);
    DoesIsAfter(op, Map(env, s.sh), Map(env, sh'), Inserted);
    FinishOk(env, s, t, sh', op, Inserted);
  }

  // An operation that needs its key and does not find it.
  lemma MissOk(env: Env, s: State, t: Tid, op: Op)
    requires Inv(env, s) && AtKey(env, s, t, op) && Find(env, s.sh, op.key).None? && !op.UpraseOp?
    ensures Good(env, s, Finish(s, t, s.sh, 0, KeyStripes(env, s.sh.hp, op), op, Miss))
  {
    hide LocksOk, FlagsAt, ThreadsOk, CounterOk, DataOk, Find, KeyStripes, Map, Finish, Does;
    FindIs(env, s, op);
    DoesIsAfter(op, Map(env, s.sh), Map(env, s.sh), Miss);
    FinishOk(env, s, t, s.sh, op, Miss);
  }

  // Giving the locks up and going on without them.
  lemma LeavePc(env: Env, sh: Shared, p: PC, rest: seq<nat>, p': PC)
    requires (p.Working? || p.Ready?) && forall l :: l in rest <==> l in Held(env, p)
    requires Distinct(rest + []) && rest + [] == rest && (forall i | 0 <= i < |rest| :: rest[i] < |sh.locks|)
    requires Held(env, p') == [] && PcOk(env, sh, p')
    requires !p'.Dropping? && !p'.Migrating? && !p'.Counting? && !p'.Freeing?
    ensures Passes(env, sh, p, Drop(0, rest, p'))
  {
  }

  lemma LeaveOk(env: Env, s: State, t: Tid, rest: seq<nat>, p': PC)
    requires Inv(env, s) && t in s.pc && (s.pc[t].Working? || s.pc[t].Ready?)
    requires Distinct(rest + []) && rest + [] == rest && (forall i | 0 <= i < |rest| :: rest[i] < |s.sh.locks|)
    requires forall l :: l in rest <==> l in Held(env, s.pc[t])
    requires (p'.Searching? && p'.op.UpraseOp? && Covers(env, |s.sh.locks|, p'.hp)) || p'.Snapshot?
    ensures Good(env, s, Quiet(Move(s, t, Drop(0, rest, p'))))
  {
    hide Inv, Passes;
    LeavePc(env, s.sh, s.pc[t], rest, p');
    PassOk(env, s, t, Drop(0, rest, p'));
  }

  lemma FreeSlotIsFree(env: Env, sh: Shared, k: Key)
    requires |sh.cur| == Pow2(sh.hp)
    ensures var r := Room(env, sh, k);
            && (r.Some? ==> env.Home(sh.hp, k, r.value.index) && Free(sh.cur, r.value.index, r.value.slot))
            && (r.None? <==> Full(sh.cur[env.I1(sh.hp, k)]) && Full(sh.cur[env.I2(sh.hp, k)]))
            && (!Full(sh.cur[env.I1(sh.hp, k)]) ==> r.value.index == env.I1(sh.hp, k))
  {
    hide Env.I1, Env.I2;
  }

  /** find, update, erase and the first attempt to insert. */
  lemma KeyOk(env: Env, s: State, t: Tid)
    requires Inv(env, s) && t in s.pc && s.pc[t].Working? && s.pc[t].goal.OnKey?
    ensures Good(env, s, KeyStep(env, s, t, s.pc[t].hp, s.pc[t].c, s.pc[t].goal.op))
  {
    hide LocksOk, FlagsAt, CounterOk, DataOk, Find, Room, Finish, TouchSlot, AddSlot, Env.LockInd, Good, S1, S2;
    var p, sh := s.pc[t], s.sh;
    var op := p.goal.op;
    AtKeyWhenWorking(env, s, t);
    FreeSlotIsFree(env, sh, op.key);
    KeyStripesOk(env, |sh.locks|, sh.hp, op);
    if Find(env, sh, op.key).Some? {
      HitOk(env, s, t, op);
    } else if !op.UpraseOp? {
      MissOk(env, s, t, op);
    } else if Room(env, sh, op.key).Some? {
      InsertOk(env, s, t, op, Room(env, sh, op.key).value.index, Room(env, sh, op.key).value.slot);
    } else {
      LeaveOk(env, s, t, KeyStripes(env, sh.hp, op), Searching(op, sh.hp));
    }
  }

  lemma SizedOk(env: Env, s: State)
    requires DataOk(env, s.sh)
    ensures Sized(env, s.sh) && Covers(env, |s.sh.locks|, s.sh.hp)
  {
    hide Contents, Doubling.View, Env.LockInd;
    forall b: nat | b < Pow2(s.sh.hp)
      ensures env.LockInd(b) < |s.sh.locks|
    {
      StripeInRange(env, s.sh.hp, s.sh.locks, b);
    }
  }

  lemma AtKeyWhenWorking(env: Env, s: State, t: Tid)
    requires Inv(env, s) && t in s.pc && s.pc[t].Working? && (s.pc[t].goal.OnKey? || s.pc[t].goal.Settle?)
    ensures s.pc[t].hp == s.sh.hp && s.pc[t].c == 0 && AtKey(env, s, t, s.pc[t].goal.op) && Sized(env, s.sh)
  {
    hide FlagsAt, CounterOk, S1, S2, LocksOk, DataOk;
    var p, sh := s.pc[t], s.sh;
    assert PcOk(env, sh, p);
    KeyStripesOk(env, |sh.locks|, sh.hp, p.goal.op);
    SizedOk(env, s);
    assert S1(env, sh.hp, p.goal.op) in p.want && S2(env, sh.hp, p.goal.op) in p.want;
  }

  lemma AtKeyWhenReady(env: Env, s: State, t: Tid)
    requires Inv(env, s) && t in s.pc && s.pc[t].Ready?
    ensures s.pc[t].hp == s.sh.hp && s.pc[t].c == 0 && AtKey(env, s, t, s.pc[t].op) && Sized(env, s.sh)
  {
    hide FlagsAt, CounterOk, S1, S2, LocksOk, DataOk;
    var p, sh := s.pc[t], s.sh;
    assert PcOk(env, sh, p);
    SizedOk(env, s);
    KeyStripesOk(env, |sh.locks|, sh.hp, p.op);
    assert S1(env, sh.hp, p.op) in KeyStripes(env, sh.hp, p.op) && S2(env, sh.hp, p.op) in KeyStripes(env, sh.hp, p.op);
  }

  lemma ReadyPc(env: Env, sh: Shared, op: Op, b: nat, j: nat)
    requires KeyReady(env, sh, op) && op.UpraseOp? && env.Home(sh.hp, op.key, b) && Free(sh.cur, b, j)
    ensures PcOk(env, sh, Ready(op, sh.hp, 0, b, j))
  {
    hide S1, S2, Env.Home, Free;
  }

  /** The insertion after a path: the key may have been inserted meanwhile; the slot is still free. */
  lemma ReadyOk(env: Env, s: State, t: Tid)
    requires Inv(env, s) && t in s.pc && s.pc[t].Ready?
    ensures Good(env, s, ReadyStep(env, s, t, s.pc[t]))
  {
    hide LocksOk, FlagsAt, CounterOk, DataOk, Find, Finish, TouchSlot, AddSlot, Env.LockInd, Good, S1, S2;
    var p, sh := s.pc[t], s.sh;
    AtKeyWhenReady(env, s, t);
    assert PcOk(env, sh, p);
    if Find(env, sh, p.op.key).Some? {
      HitOk(env, s, t, p.op);
    } else {
      InsertOk(env, s, t, p.op, p.b, p.j);
    }
  }

  lemma SettlePc(env: Env, sh: Shared, p: PC)
    requires p.Working? && p.goal.Settle? && PcOk(env, sh, p) && KeyReady(env, sh, p.goal.op)
    requires SlotAt(sh, p.goal.b, p.goal.j).Empty?
    ensures Passes(env, sh, p, Ready(p.goal.op, p.hp, 0, p.goal.b, p.goal.j))
  {
    hide S1, S2, KeyReady, Pair, KeyStripes;
    var g := p.goal;
    KeyStripesOk(env, |sh.locks|, sh.hp, g.op);
    ReadyPc(env, sh, g.op, g.b, g.j);
  }

  /** A path without displacements. */
  lemma SettleOk(env: Env, s: State, t: Tid, c: Choice)
    requires Inv(env, s) && t in s.pc && s.pc[t].Working? && s.pc[t].goal.Settle?
    ensures Good(env, s, WorkStep(env, s, t, s.pc[t], c))
  {
    hide LocksOk, FlagsAt, CounterOk, DataOk, PcOk, Passes, KeyStripes, KeyReady, Covers, Held;
    var p, sh := s.pc[t], s.sh;
    var g := p.goal;
    AtKeyWhenWorking(env, s, t);
    assert PcOk(env, sh, p);
    if SlotAt(sh, g.b, g.j).Empty? {
      SettlePc(env, sh, p);
      PassOk(env, s, t, Ready(g.op, p.hp, 0, g.b, g.j));
    } else {
      KeyStripesOk(env, |sh.locks|, sh.hp, g.op);
      SettleAim(env, sh, p);
      LeaveOk(env, s, t, KeyStripes(env, sh.hp, g.op), Searching(g.op, p.hp));
    }
  }

  lemma SettleAim(env: Env, sh: Shared, p: PC)
    requires p.Working? && p.goal.Settle? && PcOk(env, sh, p)
    ensures p.goal.op.UpraseOp?
  {
  }

  lemma PeekOk(env: Env, s: State, t: Tid, c: Choice)
    requires Inv(env, s) && t in s.pc && s.pc[t].Working? && s.pc[t].goal.Peek?
    ensures Good(env, s, WorkStep(env, s, t, s.pc[t], c))
  {
    hide LocksOk, FlagsAt, CounterOk, DataOk, Env.LockInd;
    var p := s.pc[t];
    assert PcOk(env, s.sh, p);
    LadderDistinct(|s.sh.locks|, p.want);
    LeaveOk(env, s, t, p.want, Searching(p.goal.op, p.hp));
  }

  // One displacement: what the path recorded is what is there, so the entry may go where the path says.
  lemma ShiftData(env: Env, s: State, from: CuckooRecord, to: CuckooRecord)
    requires DataOk(env, s.sh) && FlagsAt(env, s) && Sized(env, s.sh)
    requires from.bucket < |s.sh.cur| && to.bucket < |s.sh.cur|
    requires s.sh.locks[env.LockInd(from.bucket)].migrated && s.sh.locks[env.LockInd(to.bucket)].migrated
    requires to.bucket == AltIndex(s.sh.hp, PartialKey(from.hash), from.bucket)
    requires SlotAt(s.sh, to.bucket, to.slot).Empty? && SlotAt(s.sh, from.bucket, from.slot).Live?
    requires env.hash(SlotAt(s.sh, from.bucket, from.slot).key) == from.hash
    ensures var sh' := s.sh.(cur := Displace(s.sh.cur, from.bucket, from.slot, to.bucket, to.slot));
            && Wired(s.sh) && Wired(sh') && DataOk(env, sh') && Map(env, sh') == Map(env, s.sh)
            && Free(sh'.cur, from.bucket, from.slot)
            && to.slot < |Array(env, s.sh)[to.bucket]| && from.slot < |Array(env, s.sh)[from.bucket]|
            && Array(env, sh') == Displace(Array(env, s.sh), from.bucket, from.slot, to.bucket, to.slot)
            && forall held: seq<nat> | env.LockInd(from.bucket) in held && env.LockInd(to.bucket) in held ::
                 WritesUnder(env, s.sh, sh', held)
  {
    hide Contents, Doubling.View, AltIndex, Env.LockInd, FlagsAt, CountsOf, LazyShape, Unique;
    var sh := s.sh;
    SettledAt(env, s, from.bucket);
    SettledAt(env, s, to.bucket);
    DataWired(env, sh);
    assert LiveAt(View(env, sh.hp, sh.cur, sh.prev), from.bucket, from.slot);
    assert sh.cur[from.bucket][from.slot].partial == PartialKey(from.hash);
    DisplaceOk(env, sh.hp, sh.cur, sh.prev, sh.locks, from.bucket, from.slot, to.bucket, to.slot);
  }

  // The managers of a displacement hold exactly the stripes that were locked for it.
  ghost predicate ShiftLocks(n: nat, want: seq<nat>, two: seq<nat>, extra: seq<nat>) {
    && Distinct(two + extra + []) && Distinct(extra + two) && two + extra + [] == two + extra
    && (forall l :: l in want <==> l in two + extra) && (forall l :: l in want <==> l in extra + two)
    && forall i | 0 <= i < |two + extra| :: (two + extra)[i] < n
  }

  lemma PairLocks(n: nat, a: nat, b: nat)
    requires a < n && b < n
    ensures ShiftLocks(n, Pair(a, b), Managers(a, b), []) && a in Pair(a, b) && b in Pair(a, b)
  {
    hide Pair, Managers;
    PairIsLadder(n, a, b);
    var two := Managers(a, b);
    assert two + [] == two == [] + two && two + [] + [] == two + [];
    forall i | 0 <= i < |two|
      ensures two[i] < n
    {
      assert two[i] in two;
    }
  }

  lemma TripleLocks(n: nat, a: nat, b: nat, c: nat)
    requires a < n && b < n && c < n
    ensures ShiftLocks(n, Triple(a, b, c), Managers(a, b), Extra(a, b, c))
    ensures a in Triple(a, b, c) && b in Triple(a, b, c) && c in Triple(a, b, c)
  {
    hide Triple, Managers, Extra;
    TripleIsLadder(n, a, b, c);
    var all := Managers(a, b) + Extra(a, b, c);
    assert all + [] == all;
    forall i | 0 <= i < |all|
      ensures all[i] < n
    {
      assert all[i] in all;
    }
  }

  lemma ShiftLocksOk(env: Env, n: nat, hp: nat, want: seq<nat>, g: Goal)
    requires g.Shift? && GoalOk(env, n, hp, want, g)
    ensures ShiftLocks(n, want, ShiftTwo(env, hp, g), ShiftExtra(env, hp, g))
    ensures env.LockInd(g.path[g.d - 1].bucket) in want && env.LockInd(g.path[g.d].bucket) in want
  {
    hide Pair, Triple, Managers, Extra, Env.LockInd, AltIndex, Covers, ShiftLocks, Ladder;
    InRange(env, n, hp, g.op);
    StripeBelow(env, n, hp, g.path[g.d - 1].bucket);
    StripeBelow(env, n, hp, g.path[g.d].bucket);
    if g.d == 1 {
      TripleLocks(n, S1(env, hp, g.op), S2(env, hp, g.op), env.LockInd(g.path[1].bucket));
    } else {
      PairLocks(n, env.LockInd(g.path[g.d - 1].bucket), env.LockInd(g.path[g.d].bucket));
    }
  }

  lemma AfterFirstShift(env: Env, sh: Shared, want: seq<nat>, g: Goal)
    requires g.Shift? && GoalOk(env, |sh.locks|, sh.hp, want, g) && MigratedUpTo(sh.locks, want, |want|) && g.d == 1
    requires |sh.cur| == Pow2(sh.hp) && Free(sh.cur, g.path[0].bucket, g.path[0].slot)
    ensures PcOk(env, sh, Ready(g.op, sh.hp, 0, g.path[0].bucket, g.path[0].slot))
  {
    hide Pair, Triple, Managers, Env.LockInd, AltIndex, S1, S2, Ladder, Free;
    ShiftLocksOk(env, |sh.locks|, sh.hp, want, g);
    KeyStripesOk(env, |sh.locks|, sh.hp, g.op);
    var two := KeyStripes(env, sh.hp, g.op);
    assert forall l | l in two :: l in two + ShiftExtra(env, sh.hp, g);
    assert S1(env, sh.hp, g.op) in two && S2(env, sh.hp, g.op) in two;
    assert S1(env, sh.hp, g.op) in want && S2(env, sh.hp, g.op) in want;
    ReadyPc(env, sh, g.op, g.path[0].bucket, g.path[0].slot);
  }

  // Letting go of some locks and keeping those of what comes next.
  lemma DroppingPc(env: Env, sh: Shared, rest: seq<nat>, keep: seq<nat>, cont: PC)
    requires Distinct(rest + keep) && Held(env, cont) == keep && PcOk(env, sh, cont)
    requires !cont.Migrating? && !cont.Counting? && !cont.Freeing?
    requires forall i | 0 <= i < |rest| :: rest[i] < |sh.locks|
    ensures PcOk(env, sh, Dropping(false, 0, rest, keep, cont))
    ensures Held(env, Dropping(false, 0, rest, keep, cont)) == rest + keep
  {
  }

  lemma AfterLastShift(env: Env, sh: Shared, want: seq<nat>, g: Goal)
    requires g.Shift? && GoalOk(env, |sh.locks|, sh.hp, want, g) && MigratedUpTo(sh.locks, want, |want|) && g.d == 1
    requires |sh.cur| == Pow2(sh.hp) && Free(sh.cur, g.path[0].bucket, g.path[0].slot)
    ensures PcOk(env, sh, AfterShift(env, sh.hp, 0, g))
    ensures forall l :: l in want <==> l in Held(env, AfterShift(env, sh.hp, 0, g))
  {
    hide GoalOk, Free, KeyStripes, Extra, PcOk, Held;
    ShiftFacts(env, |sh.locks|, sh.hp, want, g);
    var two, extra := ShiftTwo(env, sh.hp, g), ShiftExtra(env, sh.hp, g);
    ShiftLocksOk(env, |sh.locks|, sh.hp, want, g);
    AfterFirstShift(env, sh, want, g);
    assert forall i | 0 <= i < |extra| :: extra[i] == (two + extra)[|two| + i];
    var ready := Ready(g.op, sh.hp, 0, g.path[0].bucket, g.path[0].slot);
    ReadyHeld(env, ready);
    DroppingPc(env, sh, extra, two, ready);
  }

  lemma ReadyHeld(env: Env, p: PC)
    requires p.Ready?
    ensures Held(env, p) == KeyStripes(env, p.hp, p.op)
  {
  }

  lemma AfterOtherShift(env: Env, sh: Shared, want: seq<nat>, g: Goal)
    requires g.Shift? && GoalOk(env, |sh.locks|, sh.hp, want, g) && g.d > 1
    ensures PcOk(env, sh, AfterShift(env, sh.hp, 0, g))
    ensures forall l :: l in want <==> l in Held(env, AfterShift(env, sh.hp, 0, g))
  {
    hide Want, Ladder, Managers, Env.LockInd, PathShape, Covers;
    var two := ShiftTwo(env, sh.hp, g);
    ShiftLocksOk(env, |sh.locks|, sh.hp, want, g);
    assert two + ShiftExtra(env, sh.hp, g) == two;
    StartShiftOk(env, sh, sh.hp, g.op, g.path, g.d - 1);
  }

  lemma ShiftFacts(env: Env, n: nat, hp: nat, want: seq<nat>, g: Goal)
    requires g.Shift? && GoalOk(env, n, hp, want, g)
    ensures 0 < g.d < |g.path| <= MAX_PATH_LEN && Covers(env, n, hp)
    ensures g.path[g.d - 1].bucket < Pow2(hp) && g.path[g.d].bucket < Pow2(hp)
    ensures g.path[g.d].bucket == AltIndex(hp, PartialKey(g.path[g.d - 1].hash), g.path[g.d - 1].bucket)
    ensures g.op.UpraseOp?
  {
    hide AltIndex, Want, Ladder;
  }

  lemma AfterShiftOk(env: Env, sh: Shared, want: seq<nat>, g: Goal)
    requires g.Shift? && GoalOk(env, |sh.locks|, sh.hp, want, g) && MigratedUpTo(sh.locks, want, |want|)
    requires |sh.cur| == Pow2(sh.hp) && Free(sh.cur, g.path[g.d - 1].bucket, g.path[g.d - 1].slot)
    ensures PcOk(env, sh, AfterShift(env, sh.hp, 0, g))
    ensures forall l :: l in want <==> l in Held(env, AfterShift(env, sh.hp, 0, g))
  {
    hide GoalOk, Free, PcOk, Held, AfterShift, MigratedUpTo;
    ShiftFacts(env, |sh.locks|, sh.hp, want, g);
    if g.d == 1 {
      AfterLastShift(env, sh, want, g);
    } else {
      AfterOtherShift(env, sh, want, g);
    }
  }

  /** One displacement, or giving the path up because something on it has changed. */
  lemma ShiftOk(env: Env, s: State, t: Tid)
    requires Inv(env, s) && t in s.pc && s.pc[t].Working? && s.pc[t].goal.Shift?
    ensures Good(env, s, ShiftStep(env, s, t, s.pc[t].hp, s.pc[t].c, s.pc[t].goal))
  {
    hide LocksOk, FlagsAt, CounterOk, DataOk, Map, Env.LockInd, AltIndex, ShiftTwo, ShiftExtra, AfterShift, WritesUnder,
      Displace, GoalOk, Covers, PcOk;
    var p, sh, g := s.pc[t], s.sh, s.pc[t].goal;
    assert PcOk(env, sh, p);
    ShiftWorking(env, sh, p);
    SizedOk(env, s);
    ShiftFacts(env, |sh.locks|, sh.hp, p.want, g);
    ShiftLocksOk(env, |sh.locks|, sh.hp, p.want, g);
    var from, to := g.path[g.d - 1], g.path[g.d];
    var fs, ts := SlotAt(sh, from.bucket, from.slot), SlotAt(sh, to.bucket, to.slot);
    if !ts.Empty? || !fs.Live? || env.hash(fs.key) != from.hash {
      LeaveOk(env, s, t, ShiftTwo(env, sh.hp, g) + ShiftExtra(env, sh.hp, g), Searching(g.op, sh.hp));
    } else {
      ShiftMoves(env, s, t, from, to);
    }
  }

  lemma ShiftWorking(env: Env, sh: Shared, p: PC)
    requires p.Working? && p.goal.Shift? && PcOk(env, sh, p)
    ensures sh.hp == p.hp && p.c == 0 && GoalOk(env, |sh.locks|, sh.hp, p.want, p.goal)
    ensures MigratedUpTo(sh.locks, p.want, |p.want|)
    ensures forall l | l in p.want :: l < |sh.locks| && sh.locks[l].migrated
  {
    hide GoalOk;
  }

  lemma ShiftMoves(env: Env, s: State, t: Tid, from: CuckooRecord, to: CuckooRecord)
    requires Inv(env, s) && t in s.pc && s.pc[t].Working? && s.pc[t].goal.Shift? && Sized(env, s.sh)
    requires 0 < s.pc[t].goal.d < |s.pc[t].goal.path|
    requires from == s.pc[t].goal.path[s.pc[t].goal.d - 1] && to == s.pc[t].goal.path[s.pc[t].goal.d]
    requires SlotAt(s.sh, to.bucket, to.slot).Empty? && SlotAt(s.sh, from.bucket, from.slot).Live?
    requires env.hash(SlotAt(s.sh, from.bucket, from.slot).key) == from.hash
    ensures var sh' := s.sh.(cur := Displace(s.sh.cur, from.bucket, from.slot, to.bucket, to.slot));
            Good(env, s, Quiet(MoveWith(s, t, AfterShift(env, s.pc[t].hp, s.pc[t].c, s.pc[t].goal), sh')))
  {
    hide LocksOk, FlagsAt, CounterOk, DataOk, Map, Env.LockInd, AltIndex, AfterShift, WritesUnder, Displace, GoalOk,
      Covers, PcOk, MigratedUpTo, InBounds;
    var p, sh, g := s.pc[t], s.sh, s.pc[t].goal;
    assert PcOk(env, sh, p);
    ShiftWorking(env, sh, p);
    ShiftFacts(env, |sh.locks|, sh.hp, p.want, g);
    ShiftLocksOk(env, |sh.locks|, sh.hp, p.want, g);
    ShiftData(env, s, from, to);
    var sh' := sh.(cur := Displace(sh.cur, from.bucket, from.slot, to.bucket, to.slot));
    assert WritesUnder(env, sh, sh', p.want);
    DataWired(env, sh');
    AfterShiftOk(env, sh', p.want, g);
    WriteKeepsInv(env, s, t, AfterShift(env, sh.hp, 0, g), sh');
    SameSize(env, sh, sh', Tau);
  }
}
