/**
 The striped-lock protocol as a state machine: any number of threads share one table and take
 turns, one atomic step at a time. What is read without a lock is arbitrary: a thread may start with any
 hash power for which there are enough locks, and the eviction path it finds may be any path.
 */
module Protocol {
  import opened Hashing
  import opened Bits
  import opened Layout
  import opened Doubling
  import opened CuckooTable
  import opened PathMove
  import opened Resize
  import opened MapSpec

  type Tid = nat

  // What a thread is asked to do.
  datatype Cmd = KeyCmd(op: Op) | ResizeCmd(newHp: nat) | ClearCmd

  // The last two are exceptions: the hash power asked for is above the maximum, or there are too few
  // entries, with the limit.
  datatype Outcome = Answered(res: Res) | Finished | Exceeded(hp: nat) | TooFew(limit: real)

  // What a thread wants its locks for.
  datatype Goal =
    | OnKey(op: Op)                                        // the key's two buckets
    | Peek(op: Op, b: nat)                                 // one bucket, during the path search
    | Settle(op: Op, b: nat, j: nat)                       // a path without displacements
    | Shift(op: Op, path: seq<CuckooRecord>, d: nat)       // one displacement, from record d - 1 to d
    | Double(op: Op, hp: nat)                              // all locks: automatic doubling
    | Rebuild(newHp: nat)                                  // all locks: explicit resize
    | Wipe                                                 // all locks: clear

  // Where a thread is; `c` is the lock container whose locks it takes.
  datatype PC =
    | Idle
    | Snapshot(op: Op)                                     // about to read the hash power
    | Locating(hp: nat, goal: Goal)                        // about to look up the current lock container
    | Taking(hp: nat, first: nat, c: nat, want: seq<nat>, got: nat, goal: Goal)
    | Checking(hp: nat, c: nat, want: seq<nat>, goal: Goal)   // first lock taken
    | Migrating(hp: nat, c: nat, want: seq<nat>, at: nat, next: Option<nat>, goal: Goal)
    | Counting(hp: nat, c: nat, want: seq<nat>, at: nat, goal: Goal)  // flag set, counter not yet lowered
    | Freeing(hp: nat, c: nat, want: seq<nat>, at: nat, goal: Goal)   // about to release the old buckets
    | Working(hp: nat, c: nat, want: seq<nat>, goal: Goal)
    | Searching(op: Op, hp: nat)                           // no locks held
    | Ready(op: Op, hp: nat, c: nat, b: nat, j: nat)       // both buckets locked, slot (b, j) free
    | Dropping(all: bool, c: nat, rest: seq<nat>, keep: seq<nat>, cont: PC)
    | Done(cmd: Cmd, out: Outcome)

  /** `holder` says who holds each lock of the first lock container, `later` the same of the containers
      appended since. The last container is the current one; `locks` are its counters and flags. */
  datatype Shared = Shared(
    hp: nat, cur: Buckets, prev: Option<Buckets>,
    locks: Locks, holder: seq<Option<Tid>>, later: seq<seq<Option<Tid>>>,
    remaining: int, minLoad: real, maxHp: Option<nat>)

  datatype State = State(sh: Shared, pc: map<Tid, PC>)

  datatype Label = Tau | Invoke(cmd: Cmd) | Commit(cmd: Cmd, out: Outcome) | Return(out: Outcome)

  // How nondeterminism is resolved in a step.
  datatype Choice =
    | Go
    | Start(cmd: Cmd)
    | Guess(hp: nat)
    | PeekAt(b: nat)
    | GiveUp
    | Follow(path: seq<CuckooRecord>)
    | Rebuilt(hp: nat, bs: Buckets)

  // The stripes of two buckets in locking order.
  function Pair(a: nat, b: nat): seq<nat> {
    var l1, l2 := if b < a then b else a, if b < a then a else b;
    if l1 != l2 then [l1, l2] else [l1]
  }

  // The stripes of three buckets in locking order, sorted by three exchanges.
  function Triple(a: nat, b: nat, c: nat): seq<nat> {
    var (b1, c1) := if c < b then (c, b) else (b, c);
    var (a2, c2) := if c1 < a then (c1, a) else (a, c1);
    var (a3, b3) := if b1 < a2 then (b1, a2) else (a2, b1);
    [a3] + (if b3 != a3 then [b3] else []) + (if c2 != b3 then [c2] else [])
  }

  // The lock managers of two buckets, and of a third one beside them.
  function Managers(a: nat, b: nat): seq<nat> {
    if a != b then [a, b] else [a]
  }

  function Extra(a: nat, b: nat, c: nat): seq<nat> {
    if c == a || c == b then [] else [c]
  }

  function Everything(n: nat): (r: seq<nat>)
    ensures |r| == n && forall i | 0 <= i < n :: r[i] == i
  {
    seq(n, i => i)
  }

  predicate Global(g: Goal) {
    g.Double? || g.Rebuild? || g.Wipe?
  }

  function CmdOf(g: Goal): Cmd {
    match g
    case Rebuild(n) => ResizeCmd(n)
    case Wipe => ClearCmd
    case OnKey(op) => KeyCmd(op)
    case Peek(op, _) => KeyCmd(op)
    case Settle(op, _, _) => KeyCmd(op)
    case Shift(op, _, _) => KeyCmd(op)
    case Double(op, _) => KeyCmd(op)
  }

  // Where a failed hash power check sends a thread.
  function Retry(g: Goal): PC {
    match CmdOf(g)
    case KeyCmd(op) => Snapshot(op)
    case _ => Idle
  }

  // The stripe of a key's first and second bucket.
  function S1(env: Env, hp: nat, op: Op): nat {
    env.LockInd(env.I1(hp, op.key))
  }

  function S2(env: Env, hp: nat, op: Op): nat {
    env.LockInd(env.I2(hp, op.key))
  }

  // The stripes of a key's two buckets, as its lock manager lists them.
  function KeyStripes(env: Env, hp: nat, op: Op): seq<nat> {
    Managers(S1(env, hp, op), S2(env, hp, op))
  }

  // The locks for displacing record d - 1 to record d of a path.
  function ShiftWant(env: Env, hp: nat, op: Op, path: seq<CuckooRecord>, d: nat): seq<nat>
    requires 0 < d < |path|
  {
    if d == 1 then Triple(S1(env, hp, op), S2(env, hp, op), env.LockInd(path[1].bucket))
    else Pair(env.LockInd(path[d - 1].bucket), env.LockInd(path[d].bucket))
  }

  // Whether `n` locks are enough for a table of hash power `hp`.
  predicate Covers(env: Env, n: nat, hp: nat) {
    n <= env.Stripes() && (Pow2(hp) <= n || n == env.Stripes())
  }

  // The locks a goal needs, in the order in which they are taken, from a container of `n` locks.
  function Want(env: Env, n: nat, hp: nat, g: Goal): seq<nat> {
    match g
    case OnKey(op) => Pair(S1(env, hp, op), S2(env, hp, op))
    case Settle(op, _, _) => Pair(S1(env, hp, op), S2(env, hp, op))
    case Peek(_, b) => [env.LockInd(b)]
    case Shift(op, path, d) => if 0 < d < |path| then ShiftWant(env, hp, op, path, d) else []
    case _ => Everything(n)
  }

  // The next thing to do on a path whose records from d on are done.
  function StartShift(hp: nat, op: Op, path: seq<CuckooRecord>, d: nat): PC
    requires d < |path|
  {
    Locating(hp, if d == 0 then Settle(op, path[0].bucket, path[0].slot) else Shift(op, path, d))
  }

  // Every path the search can write down, whatever it has read on the way.
  predicate PathShape(env: Env, hp: nat, op: Op, path: seq<CuckooRecord>) {
    && 1 <= |path| <= MAX_PATH_LEN
    && env.Home(hp, op.key, path[0].bucket)
    && (forall i | 0 <= i < |path| :: path[i].bucket < Pow2(hp) && path[i].slot < env.slots)
    && (forall i | 0 <= i < |path| - 1 :: path[i + 1].bucket == AltIndex(hp, PartialKey(path[i].hash), path[i].bucket))
  }

  function Move(s: State, t: Tid, p: PC): State {
    s.(pc := s.pc[t := p])
  }

  function MoveWith(s: State, t: Tid, p: PC, sh: Shared): State {
    State(sh, s.pc[t := p])
  }

  type Outcomes = Option<(State, Label)>

  function Quiet(s: State): Outcomes {
    Some((s, Tau))
  }

  // Who holds the locks of container `c`.
  function LockRow(sh: Shared, c: nat): seq<Option<Tid>> {
    if c == 0 then sh.holder else if c <= |sh.later| then sh.later[c - 1] else []
  }

  function SetHolder(sh: Shared, c: nat, l: nat, h: Option<Tid>): Shared {
    if l >= |LockRow(sh, c)| then sh
    else if c == 0 then sh.(holder := sh.holder[l := h])
    else sh.(later := sh.later[c - 1 := sh.later[c - 1][l := h]])
  }

  // Where a thread is once it has taken the next lock of its list. Taking all locks goes on to the
  // containers appended meanwhile.
  function Taken(sh: Shared, p: PC): PC
    requires p.Taking?
  {
    var full := p.got + 1 == |p.want|;
    if !full && (p.got > 0 || Global(p.goal)) then p.(got := p.got + 1)
    else if !Global(p.goal) then
      if p.got == 0 then Checking(p.hp, p.c, p.want, p.goal) else Migrating(p.hp, p.c, p.want, 0, None, p.goal)
    else if p.c < |sh.later| then
      p.(c := p.c + 1, want := Everything(|LockRow(sh, p.c + 1)|), got := 0)
    else Working(p.hp, p.first, p.want, p.goal)
  }

  function TakeStep(s: State, t: Tid, p: PC): Outcomes
    requires p.Taking?
  {
    var row := LockRow(s.sh, p.c);
    if p.got < |p.want| && p.want[p.got] < |row| && row[p.want[p.got]].None? then
      Quiet(MoveWith(s, t, Taken(s.sh, p), SetHolder(s.sh, p.c, p.want[p.got], Some(t))))
    else None
  }

  function CheckStep(s: State, t: Tid, p: PC): Outcomes
    requires p.Checking?
  {
    if s.sh.hp == p.hp then
      Quiet(Move(s, t, if |p.want| == 1 then Migrating(p.hp, p.c, p.want, 0, None, p.goal)
                       else Taking(p.hp, p.c, p.c, p.want, 1, p.goal)))
    else if |p.want| > 0 then
      Quiet(MoveWith(s, t, Retry(p.goal), SetHolder(s.sh, p.c, p.want[0], None)))
    else None
  }

  // The shared state after old bucket `ind` has been moved.
  function BucketMoved(env: Env, sh: Shared, ind: nat): Shared
    requires sh.prev.Some? && sh.hp > 0 && ind < |sh.prev.value| && 2 * |sh.prev.value| == |sh.cur|
  {
    sh.(cur := MoveBucketCur(env, sh.hp - 1, sh.cur, sh.prev.value, ind),
        prev := Some(sh.prev.value[ind := Vacate(sh.prev.value[ind])]))
  }

  function MigrateStep(env: Env, s: State, t: Tid, p: PC): Outcomes
    requires p.Migrating?
  {
    var sh := s.sh;
    if p.at >= |p.want| then Quiet(Move(s, t, Working(p.hp, p.c, p.want, p.goal)))
    else if p.want[p.at] >= |sh.locks| then None
    else if p.next.None? then
      Quiet(Move(s, t, if sh.locks[p.want[p.at]].migrated then Migrating(p.hp, p.c, p.want, p.at + 1, None, p.goal)
                       else Migrating(p.hp, p.c, p.want, p.at, Some(p.want[p.at]), p.goal)))
    else if sh.prev.Some? && p.next.value < |sh.prev.value| then
      if sh.hp > 0 && 2 * |sh.prev.value| == |sh.cur| then
        Quiet(MoveWith(s, t, p.(next := Some(p.next.value + env.Stripes())), BucketMoved(env, sh, p.next.value)))
      else None
    else
      Quiet(MoveWith(s, t, Counting(p.hp, p.c, p.want, p.at, p.goal), sh.(locks := Marked(sh.locks, p.want[p.at]))))
  }

  function CountStep(s: State, t: Tid, p: PC): State
    requires p.Counting?
  {
    MoveWith(s, t,
             if s.sh.remaining == 1 then Freeing(p.hp, p.c, p.want, p.at, p.goal)
             else Migrating(p.hp, p.c, p.want, p.at + 1, None, p.goal),
             s.sh.(remaining := s.sh.remaining - 1))
  }

  // Applies a function that may ask for the entry in slot (b, j) to be removed.
  function MutateSlot(env: Env, sh: Shared, b: nat, j: nat, g: Value -> (Value, bool)): Shared
    requires b < |sh.cur| && j < |sh.cur[b]| && sh.cur[b][j].Live? && env.LockInd(b) < |sh.locks|
  {
    var (v, gone) := g(sh.cur[b][j].val);
    if gone then sh.(cur := Put(sh.cur, b, j, Empty), locks := Counted(sh.locks, env.LockInd(b), -1))
    else sh.(cur := Put(sh.cur, b, j, sh.cur[b][j].(val := v)))
  }

  // Applies an operation's function to the entry in slot (b, j).
  function TouchSlot(env: Env, sh: Shared, b: nat, j: nat, op: Op): Shared
    requires b < |sh.cur| && j < |sh.cur[b]| && sh.cur[b][j].Live? && env.LockInd(b) < |sh.locks|
  {
    var v := sh.cur[b][j].val;
    match op
    case FindOp(_) => sh
    case UpdateOp(_, f) => sh.(cur := Put(sh.cur, b, j, sh.cur[b][j].(val := f(v))))
    case EraseOp(_, g) => MutateSlot(env, sh, b, j, g)
    case UpraseOp(_, g, _) => MutateSlot(env, sh, b, j, g)
  }

  function AddSlot(env: Env, sh: Shared, b: nat, j: nat, k: Key, v: Value): Shared
    requires b < |sh.cur| && j < |sh.cur[b]| && env.LockInd(b) < |sh.locks|
  {
    sh.(cur := Put(sh.cur, b, j, Live(k, v, env.Partial(k))), locks := Counted(sh.locks, env.LockInd(b), 1))
  }

  // The key's position in its two buckets.
  function Find(env: Env, sh: Shared, k: Key): Option<Position>
    requires |sh.cur| == Pow2(sh.hp)
  {
    var i1, i2 := env.I1(sh.hp, k), env.I2(sh.hp, k);
    match FindSlot(sh.cur[i1], k, env.Partial(k))
    case Some(j) => Some(Position(i1, j))
    case None =>
      match FindSlot(sh.cur[i2], k, env.Partial(k))
      case Some(j) => Some(Position(i2, j))
      case None => None
  }

  // A free slot in one of the key's two buckets, the first one preferred.
  function Room(env: Env, sh: Shared, k: Key): Option<Position>
    requires |sh.cur| == Pow2(sh.hp)
  {
    var i1, i2 := env.I1(sh.hp, k), env.I2(sh.hp, k);
    match FreeSlot(sh.cur[i1])
    case Some(j) => Some(Position(i1, j))
    case None =>
      match FreeSlot(sh.cur[i2])
      case Some(j) => Some(Position(i2, j))
      case None => None
  }

  predicate Sized(env: Env, sh: Shared) {
    |sh.cur| == Pow2(sh.hp) && forall b: nat | b < Pow2(sh.hp) :: env.LockInd(b) < |sh.locks|
  }

  function Drop(c: nat, rest: seq<nat>, p: PC): PC {
    Dropping(false, c, rest, [], p)
  }

  // Giving up all locks, from container `first` on.
  function DropAll(sh: Shared, first: nat, p: PC): PC {
    Dropping(true, first, Everything(|LockRow(sh, first)|), [], p)
  }

  // Ends an operation on a key, at the step that decides its answer.
  function Finish(s: State, t: Tid, sh: Shared, c: nat, held: seq<nat>, op: Op, r: Res): Outcomes {
    var done := Done(KeyCmd(op), Answered(r));
    Some((MoveWith(s, t, Drop(c, held, done), sh), Commit(KeyCmd(op), Answered(r))))
  }

  // find, update, erase, and the first attempt to insert.
  function KeyStep(env: Env, s: State, t: Tid, hp: nat, c: nat, op: Op): Outcomes {
    var sh := s.sh;
    var held := KeyStripes(env, hp, op);
    if !Sized(env, sh) then None else
    match Find(env, sh, op.key)
    case Some(p) =>
      Finish(s, t, TouchSlot(env, sh, p.index, p.slot, op), c, held, op, Hit(sh.cur[p.index][p.slot].val))
    case None =>
      if !op.UpraseOp? then Finish(s, t, sh, c, held, op, Miss)
      else
        match Room(env, sh, op.key)
        case Some(p) => Finish(s, t, AddSlot(env, sh, p.index, p.slot, op.key, op.val), c, held, op, Inserted)
        case None => Quiet(Move(s, t, Drop(c, held, Searching(op, hp))))
  }

  // After a successful path: look for the key once more, then insert into the freed slot.
  function ReadyStep(env: Env, s: State, t: Tid, p: PC): Outcomes
    requires p.Ready?
  {
    var sh, op := s.sh, p.op;
    var held := KeyStripes(env, p.hp, op);
    if !Sized(env, sh) || !op.UpraseOp? || p.b >= |sh.cur| || p.j >= |sh.cur[p.b]| then None else
    match Find(env, sh, op.key)
    case Some(q) =>
      Finish(s, t, TouchSlot(env, sh, q.index, q.slot, op), p.c, held, op, Hit(sh.cur[q.index][q.slot].val))
    case None => Finish(s, t, AddSlot(env, sh, p.b, p.j, op.key, op.val), p.c, held, op, Inserted)
  }

  function SlotAt(sh: Shared, b: nat, j: nat): Slot {
    if b < |sh.cur| && j < |sh.cur[b]| then sh.cur[b][j] else Moved
  }

  // The lock managers of a displacement: those handed on to the insertion, and the one beside them.
  function ShiftTwo(env: Env, hp: nat, g: Goal): seq<nat>
    requires g.Shift? && 0 < g.d < |g.path|
  {
    if g.d == 1 then KeyStripes(env, hp, g.op)
    else Managers(env.LockInd(g.path[g.d - 1].bucket), env.LockInd(g.path[g.d].bucket))
  }

  function ShiftExtra(env: Env, hp: nat, g: Goal): seq<nat>
    requires g.Shift? && 0 < g.d < |g.path|
  {
    if g.d == 1 then Extra(S1(env, hp, g.op), S2(env, hp, g.op), env.LockInd(g.path[1].bucket)) else []
  }

  // Where a thread goes after a displacement.
  function AfterShift(env: Env, hp: nat, c: nat, g: Goal): (p: PC)
    requires g.Shift? && 0 < g.d < |g.path|
    ensures p.Dropping?
  {
    var from := g.path[g.d - 1];
    if g.d == 1 then
      Dropping(false, c, ShiftExtra(env, hp, g), ShiftTwo(env, hp, g), Ready(g.op, hp, c, from.bucket, from.slot))
    else Drop(c, ShiftTwo(env, hp, g), StartShift(hp, g.op, g.path, g.d - 1))
  }

  // One displacement, after checking that both slots are still as the path says.
  function ShiftStep(env: Env, s: State, t: Tid, hp: nat, c: nat, g: Goal): Outcomes
    requires g.Shift?
  {
    var sh, op, path, d := s.sh, g.op, g.path, g.d;
    if !(0 < d < |path|) then None else
    var from, to := path[d - 1], path[d];
    var fs, ts := SlotAt(sh, from.bucket, from.slot), SlotAt(sh, to.bucket, to.slot);
    if !ts.Empty? || !fs.Live? || env.hash(fs.key) != from.hash then
      Quiet(Move(s, t, Drop(c, ShiftTwo(env, hp, g) + ShiftExtra(env, hp, g), Searching(op, hp))))
    else
      var sh' := sh.(cur := Displace(sh.cur, from.bucket, from.slot, to.bucket, to.slot));
      Quiet(MoveWith(s, t, AfterShift(env, hp, c, g), sh'))
  }

  function LimitsIn(sh: Shared): Limits {
    Limits(sh.minLoad, sh.maxHp)
  }

  function ResizeCheck(env: Env, sh: Shared, auto: bool, origHp: nat, newHp: nat): ResizeStatus
    requires env.slots >= 1
  {
    Validity(Sum(CountsOf(sh.locks)), sh.hp, env.slots, LimitsIn(sh), auto, origHp, newHp)
  }

  // The data of the table, and the table with other data.
  function ImageIn(sh: Shared): Image {
    Image(sh.hp, sh.cur, sh.prev, sh.locks, sh.remaining)
  }

  function WithImage(sh: Shared, t: Image): Shared {
    sh.(hp := t.hp, cur := t.cur, prev := t.prev, locks := t.locks, remaining := t.remaining)
  }

  // Appends a lock container if the lock array has to grow to `n` locks; the thread holds its locks.
  function Widened(sh: Shared, t: Tid, n: nat): Shared {
    if n == |sh.locks| then sh else sh.(later := sh.later + [seq(n, _ => Some(t))])
  }

  function DoubledTable(env: Env, sh: Shared, t: Tid): Shared
    requires sh.prev.Some? ==> sh.hp > 0 && 2 * |sh.prev.value| == |sh.cur|
  {
    var d := DoubledImage(env, ImageIn(sh));
    WithImage(Widened(sh, t, |d.locks|), d)
  }

  function RebuiltTable(env: Env, sh: Shared, t: Tid, hp: nat, bs: Buckets): Shared {
    var d := RebuiltImage(env, ImageIn(sh), hp, bs);
    WithImage(Widened(sh, t, |d.locks|), d)
  }

  function DoubleStep(env: Env, s: State, t: Tid, c: nat, g: Goal): Outcomes
    requires g.Double?
  {
    var sh := s.sh;
    if env.slots < 1 || (sh.prev.Some? && !(sh.hp > 0 && 2 * |sh.prev.value| == |sh.cur|)) then None else
    var st := ResizeCheck(env, sh, true, g.hp, g.hp + 1);
    match st
    case Resized => Quiet(MoveWith(s, t, DropAll(sh, c, Snapshot(g.op)), DoubledTable(env, sh, t)))
    case UnderExpansion => Quiet(Move(s, t, DropAll(sh, c, Snapshot(g.op))))
    case MaxHashpowerExceeded => Throw(s, t, c, KeyCmd(g.op), Exceeded(g.hp + 1))
    case LoadFactorTooLow => Throw(s, t, c, KeyCmd(g.op), TooFew(sh.minLoad))
  }

  // Ends a command with an exception, giving up all locks.
  function Throw(s: State, t: Tid, c: nat, cmd: Cmd, out: Outcome): Outcomes {
    Some((Move(s, t, DropAll(s.sh, c, Done(cmd, out))), Commit(cmd, out)))
  }

  // An explicit resize.
  ghost function RebuildStep(env: Env, s: State, t: Tid, first: nat, g: Goal, c: Choice): Outcomes
    requires g.Rebuild?
  {
    var sh, cmd := s.sh, ResizeCmd(g.newHp);
    if env.slots < 1 || (sh.prev.Some? && !(sh.hp > 0 && 2 * |sh.prev.value| == |sh.cur|)) then None else
    var st := ResizeCheck(env, sh, false, sh.hp, g.newHp);
    if st == MaxHashpowerExceeded then Throw(s, t, first, cmd, Exceeded(g.newHp))
    else if c.Rebuilt? && MayRebuild(env, View(env, sh.hp, sh.cur, sh.prev), g.newHp, c.hp, c.bs) then
      Some((MoveWith(s, t, DropAll(sh, first, Done(cmd, Finished)), RebuiltTable(env, sh, t, c.hp, c.bs)),
            Commit(cmd, Finished)))
    else None
  }

  function WipeStep(env: Env, s: State, t: Tid, first: nat): Outcomes {
    var sh := s.sh;
    Some((MoveWith(s, t, DropAll(sh, first, Done(ClearCmd, Finished)), WithImage(sh, ClearedImage(env, ImageIn(sh)))),
          Commit(ClearCmd, Finished)))
  }

  ghost function WorkStep(env: Env, s: State, t: Tid, p: PC, c: Choice): Outcomes
    requires p.Working?
  {
    var hp := p.hp;
    match p.goal
    case OnKey(op) => KeyStep(env, s, t, hp, p.c, op)
    case Peek(op, _) => Quiet(Move(s, t, Drop(p.c, p.want, Searching(op, hp))))
    case Settle(op, b, j) =>
      Quiet(Move(s, t, if SlotAt(s.sh, b, j).Empty? then Ready(op, hp, p.c, b, j)
                       else Drop(p.c, KeyStripes(env, hp, op), Searching(op, hp))))
    case Shift(_, _, _) => ShiftStep(env, s, t, hp, p.c, p.goal)
    case Double(_, _) => DoubleStep(env, s, t, p.c, p.goal)
    case Rebuild(_) => RebuildStep(env, s, t, p.c, p.goal, c)
    case Wipe => WipeStep(env, s, t, p.c)
  }

  function SearchStep(env: Env, s: State, t: Tid, p: PC, c: Choice): Outcomes
    requires p.Searching?
  {
    match c
    case PeekAt(b) => if b < Pow2(p.hp) then Quiet(Move(s, t, Locating(p.hp, Peek(p.op, b)))) else None
    case GiveUp => Quiet(Move(s, t, Locating(p.hp, Double(p.op, p.hp))))
    case Follow(path) =>
      if PathShape(env, p.hp, p.op, path) then Quiet(Move(s, t, StartShift(p.hp, p.op, path, |path| - 1))) else None
    case _ => None
  }

  function StartStep(s: State, t: Tid, cmd: Cmd): Outcomes {
    var p :=
      match cmd
      case KeyCmd(op) => Snapshot(op)
      case ResizeCmd(n) => Locating(0, Rebuild(n))
      case ClearCmd => Locating(0, Wipe);
    Some((Move(s, t, p), Invoke(cmd)))
  }

  // Looks up the current lock container. Its locks are taken later, when it may no longer be the current one.
  function LocateStep(env: Env, s: State, t: Tid, p: PC): Outcomes
    requires p.Locating?
  {
    var c := |s.sh.later|;
    Quiet(Move(s, t, Taking(p.hp, c, c, Want(env, |LockRow(s.sh, c)|, p.hp, p.goal), 0, p.goal)))
  }

  // Releases the next lock. Releasing all locks goes on to the last container there is by then.
  function DropStep(s: State, t: Tid, p: PC): Outcomes
    requires p.Dropping?
  {
    if |p.rest| > 0 then Quiet(MoveWith(s, t, p.(rest := p.rest[1..]), SetHolder(s.sh, p.c, p.rest[0], None)))
    else if p.all && p.c < |s.sh.later| then
      Quiet(Move(s, t, p.(c := p.c + 1, rest := Everything(|LockRow(s.sh, p.c + 1)|))))
    else Quiet(Move(s, t, p.cont))
  }

  /** One step of thread `t`: the next state and what is visible of the step, or `None` if the
      thread cannot take a step with this choice. */
  ghost function Do(env: Env, s: State, t: Tid, c: Choice): Outcomes {
    if t !in s.pc then None else
    var p := s.pc[t];
    match p
    case Idle => if c.Start? then StartStep(s, t, c.cmd) else None
    case Snapshot(op) =>
      var hp := if c.Guess? && Covers(env, |s.sh.locks|, c.hp) then c.hp else s.sh.hp;
      Quiet(Move(s, t, Locating(hp, OnKey(op))))
    case Locating(_, _) => LocateStep(env, s, t, p)
    case Taking(_, _, _, _, _, _) => TakeStep(s, t, p)
    case Checking(_, _, _, _) => CheckStep(s, t, p)
    case Migrating(_, _, _, _, _, _) => MigrateStep(env, s, t, p)
    case Counting(_, _, _, _, _) => Quiet(CountStep(s, t, p))
    case Freeing(hp, k, want, at, goal) =>
      Quiet(MoveWith(s, t, Migrating(hp, k, want, at + 1, None, goal), s.sh.(prev := None)))
    case Working(_, _, _, _) => WorkStep(env, s, t, p, c)
    case Searching(_, _) => SearchStep(env, s, t, p, c)
    case Ready(_, _, _, _, _) => ReadyStep(env, s, t, p)
    case Dropping(_, _, _, _, _) => DropStep(s, t, p)
    case Done(cmd, out) => Some((Move(s, t, Idle), Return(out)))
  }
}
