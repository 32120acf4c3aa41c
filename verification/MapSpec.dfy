/** What the table's operations mean on a plain map. */
module MapSpec {
  import opened Hashing
  import opened Layout

  /** An operation with the function it applies to a value it finds. The functions of erase and
      uprase also say whether the entry is to be removed. */
  datatype Op =
    | FindOp(key: Key)
    | UpdateOp(key: Key, f: Value -> Value)
    | EraseOp(key: Key, g: Value -> (Value, bool))
    | UpraseOp(key: Key, g: Value -> (Value, bool), val: Value)

  datatype Res = Hit(val: Value) | Miss | Inserted

  /** The map after an operation. */
  function After(op: Op, m: map<Key, Value>): map<Key, Value> {
    match op
    case FindOp(_) => m
    case UpdateOp(k, f) => if k in m then m[k := f(m[k])] else m
    case EraseOp(k, g) => if k !in m then m else if g(m[k]).1 then m - {k} else m[k := g(m[k]).0]
    case UpraseOp(k, g, v) => if k !in m then m[k := v] else if g(m[k]).1 then m - {k} else m[k := g(m[k]).0]
  }

  /** What an operation reports. */
  function Answer(op: Op, m: map<Key, Value>): Res {
    if op.key in m then Hit(m[op.key]) else if op.UpraseOp? then Inserted else Miss
  }

  // What becomes of a value that is found: `None` if it is removed.
  ghost predicate Turns(op: Op, v: Value, v': Option<Value>) {
    match op
    case FindOp(_) => v' == Some(v)
    case UpdateOp(_, f) => v' == Some(f(v))
    case EraseOp(_, g) => v' == if g(v).1 then None else Some(g(v).0)
    case UpraseOp(_, g, _) => v' == if g(v).1 then None else Some(g(v).0)
  }

  // The entry of a key.
  ghost function At(m: map<Key, Value>, k: Key): Option<Value> {
    if k in m then Some(m[k]) else None
  }

  /** An operation turns map `m` into `m'` and reports `r`, told entry by entry: the operation's function is
      applied to the key's value if there is one, an insertion adds its value if there is none, and all
      other entries stay. */
  ghost predicate Does(op: Op, m: map<Key, Value>, m': map<Key, Value>, r: Res) {
    && (forall x | x != op.key :: At(m', x) == At(m, x))
    && (op.key in m ==> r == Hit(m[op.key]) && Turns(op, m[op.key], At(m', op.key)))
    && (op.key !in m && op.UpraseOp? ==> r == Inserted && At(m', op.key) == Some(op.val))
    && (op.key !in m && !op.UpraseOp? ==> r == Miss && At(m', op.key) == None)
  }

  /** The two descriptions agree. */
  lemma DoesIsAfter(op: Op, m: map<Key, Value>, m': map<Key, Value>, r: Res)
    ensures Does(op, m, m', r) <==> m' == After(op, m) && r == Answer(op, m)
  {
    if Does(op, m, m', r) {
      forall x
        ensures At(m', x) == At(After(op, m), x)
      {
      }
      SameEntries(m', After(op, m));
    }
  }

  lemma SameEntries(a: map<Key, Value>, b: map<Key, Value>)
    requires forall x :: At(a, x) == At(b, x)
    ensures a == b
  {
    assert forall x :: x in a <==> At(a, x).Some?;
    assert forall x :: x in b <==> At(b, x).Some?;
    assert forall x | x in a :: a[x] == At(a, x).value && b[x] == At(b, x).value;
  }
}
