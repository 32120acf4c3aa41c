/**
 Hash values and the two candidate buckets of a key. `size_type` is a 64-bit unsigned integer,
 modelled by `nat` with every truncation written out; shifting right by `k` divides by 2^k.
 */
module Hashing {
  import opened Bits

  type Key(==, !new)
  type Value(==, !new)

  const TWO_64: nat := 0x1_0000_0000_0000_0000

  // The multiplier of 64-bit MurmurHash2.
  const MURMUR: nat := 0xc6a4_a793_5bd1_e995

  type Word = x: nat | x < TWO_64

  /** What is fixed for the lifetime of a table: its hash function, the number of slots per
      bucket, and the logarithm of the largest number of lock stripes. */
  datatype Env = Env(hash: Key -> Word, slots: nat, lockBits: nat) {

    predicate Valid() {
      // The packed path code has 16 bits; see PathCode.CodeExact.
      slots >= 1 && 2 * Pow(slots, 5) <= 0x1_0000
    }

    function Partial(k: Key): nat {
      PartialKey(hash(k))
    }

    // The first candidate bucket of a key.
    function I1(hp: nat, k: Key): (b: nat)
      ensures b < Pow2(hp)
    {
      IndexBound(hp, hash(k));
      IndexHash(hp, hash(k))
    }

    // The second candidate bucket of a key.
    function I2(hp: nat, k: Key): (b: nat)
      ensures b < Pow2(hp)
    {
      AltBound(hp, Partial(k), I1(hp, k));
      AltIndex(hp, Partial(k), I1(hp, k))
    }

    predicate Home(hp: nat, k: Key, b: int) {
      b == I1(hp, k) || b == I2(hp, k)
    }

    function Stripes(): (n: nat)
      ensures n >= 1
    {
      Pow2(lockBits)
    }

    function LockInd(b: nat): (l: nat)
      ensures l < Stripes()
    {
      AndMask(b, lockBits);
      And(b, Stripes() - 1)
    }
  }

  function Pow(a: nat, n: nat): nat {
    if n == 0 then 1 else a * Pow(a, n - 1)
  }

  function HashMask(hp: nat): nat {
    Pow2(hp) - 1
  }

  function PartialKey(hash: Word): nat {
    var h32 := Xor(hash % 0x1_0000_0000, (hash / 0x1_0000_0000) % 0x1_0000_0000);
    var h16 := Xor(h32 % 0x1_0000, (h32 / 0x1_0000) % 0x1_0000);
    Xor(h16 % 0x100, (h16 / 0x100) % 0x100)
  }

  function IndexHash(hp: nat, hash: nat): nat {
    And(hash, HashMask(hp))
  }

  function Tag(partial: nat): nat {
    ((partial + 1) * MURMUR) % TWO_64
  }

  function AltIndex(hp: nat, partial: nat, index: nat): nat {
    And(Xor(index, Tag(partial)), HashMask(hp))
  }

  lemma IndexBound(hp: nat, hash: nat)
    ensures IndexHash(hp, hash) == hash % Pow2(hp) < Pow2(hp)
  {
    AndMask(hash, hp);
  }

  lemma AltBound(hp: nat, partial: nat, index: nat)
    ensures AltIndex(hp, partial, index) == Xor(index, Tag(partial)) % Pow2(hp) < Pow2(hp)
  {
    AndMask(Xor(index, Tag(partial)), hp);
  }

  // A partial key fits its byte.
  lemma PartialKeyIsByte(hash: Word)
    ensures PartialKey(hash) < 0x100
  {
    var h32 := Xor(hash % 0x1_0000_0000, (hash / 0x1_0000_0000) % 0x1_0000_0000);
    var h16 := Xor(h32 % 0x1_0000, (h32 / 0x1_0000) % 0x1_0000);
    assert Pow2(8) == 0x100 by { assert Pow2(4) == 16; }
    XorBound(h16 % 0x100, (h16 / 0x100) % 0x100, 8);
  }

  /** The alternate of the alternate is where we started. */
  lemma AltInvolution(hp: nat, partial: nat, index: nat)
    requires index < Pow2(hp)
    ensures AltIndex(hp, partial, AltIndex(hp, partial, index)) == index
  {
    AltBound(hp, partial, index);
    AltBound(hp, partial, AltIndex(hp, partial, index));
    XorModInvolution(index, Tag(partial), hp);
  }

  /** One more bit of hash power leaves the low bits of the first index alone. */
  lemma IndexGrows(hp: nat, hash: nat)
    ensures IndexHash(hp + 1, hash) % Pow2(hp) == IndexHash(hp, hash)
  {
    IndexBound(hp, hash);
    IndexBound(hp + 1, hash);
    ModPow2Nest(hash, hp, hp + 1);
  }

  /** One more bit of hash power leaves the low bits of the alternate index alone. */
  lemma AltGrows(hp: nat, partial: nat, index: nat)
    ensures AltIndex(hp + 1, partial, index) % Pow2(hp) == AltIndex(hp, partial, index % Pow2(hp))
  {
    AltBound(hp, partial, index % Pow2(hp));
    AltBound(hp + 1, partial, index);
    XorModGrows(index, Tag(partial), hp);
  }

  lemma LowerOrUpper(x: nat, p: nat)
    requires p > 0 && x < 2 * p
    ensures x == x % p || x == x % p + p
  {
    if x < p {
      DivModUnique(x, p, 0, x);
    } else {
      DivModUnique(x, p, 1, x - p);
    }
  }

  lemma UpperHalf(x: nat, y: nat, hp: nat)
    requires x < Pow2(hp + 1) && x % Pow2(hp) == y
    ensures x == y || x == y + Pow2(hp)
  {
    LowerOrUpper(x, Pow2(hp));
  }

  /** Doubling sends each candidate bucket to itself or to its copy in the upper half. */
  lemma HomesGrow(env: Env, hp: nat, k: Key)
    ensures env.I1(hp + 1, k) in {env.I1(hp, k), env.I1(hp, k) + Pow2(hp)}
    ensures env.I2(hp + 1, k) in {env.I2(hp, k), env.I2(hp, k) + Pow2(hp)}
  {
    IndexGrows(hp, env.hash(k));
    UpperHalf(env.I1(hp + 1, k), env.I1(hp, k), hp);
    AltGrows(hp, env.Partial(k), env.I1(hp + 1, k));
    UpperHalf(env.I2(hp + 1, k), env.I2(hp, k), hp);
  }

  /** The alternate of either candidate bucket is the other one. */
  lemma AltOfHome(env: Env, hp: nat, k: Key, b: nat)
    requires env.Home(hp, k, b)
    ensures env.Home(hp, k, AltIndex(hp, env.Partial(k), b))
    ensures AltIndex(hp, env.Partial(k), b) == env.I1(hp, k) + env.I2(hp, k) - b
  {
    AltInvolution(hp, env.Partial(k), env.I1(hp, k));
  }

  /** A bucket and its copy in the upper half of a doubled table share their lock stripe. */
  lemma StripeOfCopy(env: Env, hp: nat, b: nat)
    requires env.lockBits <= hp && b < Pow2(hp)
    ensures env.LockInd(b + Pow2(hp)) == env.LockInd(b)
  {
    var p := Pow2(hp);
    DivModUnique(b + p, p, 1, b);
    assert (b + p) % p == b;
    AndMask(b, env.lockBits);
    AndMask(b + p, env.lockBits);
    ModPow2Nest(b + p, env.lockBits, hp);
  }

  /** Adding the number of stripes leads to the next bucket of the same stripe. */
  lemma NextOfStripe(env: Env, b: nat, i: nat)
    requires b < i <= b + env.Stripes()
    ensures env.LockInd(i) == env.LockInd(b) <==> i == b + env.Stripes()
  {
    hide And;
    AndMask(b, env.lockBits);
    AndMask(i, env.lockBits);
    NextResidue(b, i, env.Stripes());
  }

  /** The first bucket of a stripe carries the stripe's own number. */
  lemma FirstOfStripe(env: Env, l: nat)
    requires l < env.Stripes()
    ensures env.LockInd(l) == l
  {
    AndMask(l, env.lockBits);
    ModSmall(l, env.Stripes());
  }
}
