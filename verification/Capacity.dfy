/** From a number of elements to a hash power, in 64-bit arithmetic. */
module Capacity {
  import opened Hashing
  import opened Bits

  // Buckets needed for `n` elements; the sum wraps around at 2^64.
  function BucketsFor(s: nat, n: Word): nat
    requires s >= 1
  {
    ((n + s - 1) % TWO_64) / s
  }

  // 2^63, the largest power of two a size_type can hold.
  const TWO_63: nat := 0x8000_0000_0000_0000

  lemma Pow2At63()
    ensures Pow2(63) == TWO_63
  {
    assert Pow2(7) == 128;
    Pow2Add(7, 7);
    Pow2Add(14, 7);
    Pow2Add(21, 21);
    Pow2Add(42, 21);
    assert 128 * 128 * 128 * (128 * 128 * 128) * (128 * 128 * 128) == TWO_63;
  }

  lemma RoundUp(s: nat, n: nat)
    requires s >= 1
    ensures var q := (n + s - 1) / s; n <= q * s && (q > 0 ==> (q - 1) * s < n)
  {
    var x := n + s - 1;
    var q, r := x / s, x % s;
    assert x == q * s + r;
    assert q > 0 ==> (q - 1) * s == q * s - s;
  }

  /** The smallest hash power that holds `n` elements, exactly as long as `n + s - 1` does not wrap. */
  method ReserveCalc(s: nat, n: Word) returns (hp: nat)
    requires 1 <= s <= TWO_63
    requires BucketsFor(s, n) <= TWO_63  // beyond that the source shifts by 64
    ensures hp <= 63
    ensures n <= Pow2(hp) * s <==> n <= TWO_64 - s
    ensures n <= TWO_64 - s ==> forall h: nat | h < hp :: Pow2(h) * s < n
  {
    var buckets := BucketsFor(s, n);
    Pow2At63();
    hp := 0;
    while Pow2(hp) < buckets
      invariant hp <= 63 && (hp > 0 ==> buckets > 0)
      invariant forall h: nat | h < hp :: Pow2(h) < buckets
      decreases 63 - hp
    {
      hp := hp + 1;
    }
    if n <= TWO_64 - s {
      ModSmall(n + s - 1, TWO_64);
      RoundUp(s, n);
      MulMono(buckets, Pow2(hp), s);
      forall h: nat | h < hp
        ensures Pow2(h) * s < n
      {
        MulMono(Pow2(h), buckets - 1, s);
      }
    } else {
      DivModUnique(n + s - 1, TWO_64, 1, n + s - 1 - TWO_64);
      DivModUnique(n + s - 1 - TWO_64, s, 0, n + s - 1 - TWO_64);
      assert hp == 0 && Pow2(hp) * s == s;
    }
  }

  /** Asking for exactly the capacity of a hash power gives that hash power back. */
  lemma ReserveInverts(s: nat, want: nat, hp: nat, n: Word)
    requires s >= 1 && n == Pow2(want) * s <= TWO_64 - s
    requires n <= Pow2(hp) * s && forall h: nat | h < hp :: Pow2(h) * s < n
    ensures hp == want
  {
    assert !(want < hp);
    if hp < want {
      Pow2Mono(hp, want);
      MulStrict(Pow2(hp), Pow2(want), s);
    }
  }
}
