/**
 The two candidate buckets of a key: when they coincide, and what the partial key has to do with it.
 Everything rests on the multiplier being odd.
 */
module Candidates {
  import opened Bits
  import opened Hashing

  lemma Pow2At8()
    ensures Pow2(8) == 0x100 && Pow2(9) == 0x200
  {
    assert Pow2(4) == 16;
  }

  lemma Word64()
    ensures Pow2(16) == 0x1_0000 && Pow2(32) == 0x1_0000_0000 && Pow2(64) == TWO_64
  {
    hide Pow2;
    Pow2At8();
    Pow2Add(8, 8);
    Pow2Add(16, 16);
    Pow2Add(32, 32);
  }

  // How many low bits of a tag an index of `hp` bits can take up.
  function TagBits(hp: nat): nat {
    if hp <= 64 then hp else 64
  }

  // The low bits of a tag are those of the product.
  lemma TagLow(hp: nat, partial: nat)
    ensures Tag(partial) % Pow2(hp) == ((partial + 1) * MURMUR) % Pow2(TagBits(hp))
  {
    hide Pow2;
    Word64();
    var x := (partial + 1) * MURMUR;
    if hp <= 64 {
      ModPow2Nest(x, hp, 64);
    } else {
      Pow2Mono(64, hp);
      ModSmall(x % Pow2(64), Pow2(hp));
    }
  }

  // The tags of two partial keys agree in the low bits exactly when the partial keys do.
  lemma TagsAgree(hp: nat, p: nat, q: nat)
    requires p <= q
    ensures Tag(p) % Pow2(hp) == Tag(q) % Pow2(hp) <==> (q - p) % Pow2(TagBits(hp)) == 0
  {
    hide Pow2, Tag;
    TagLow(hp, p);
    TagLow(hp, q);
    var d := Pow2(TagBits(hp));
    SameResidue((p + 1) * MURMUR, (q + 1) * MURMUR, d);
    assert (q + 1) * MURMUR - (p + 1) * MURMUR == (q - p) * MURMUR;
    OddFactor(q - p, MURMUR, TagBits(hp));
  }

  // A number below 2^9 leaves the same remainder at 64 bits and beyond.
  lemma SmallResidue(hp: nat, x: nat)
    requires x <= 0x100
    ensures x % Pow2(TagBits(hp)) == 0 <==> x % Pow2(hp) == 0
  {
    hide Pow2;
    if hp > 64 {
      Word64();
      Pow2Mono(64, hp);
      ModSmall(x, Pow2(64));
      ModSmall(x, Pow2(hp));
    }
  }

  /** The alternate of a bucket is the bucket itself if and only if the partial key plus one is a multiple
      of the number of buckets. */
  lemma AltFixes(hp: nat, partial: nat, index: nat)
    requires partial < 0x100 && index < Pow2(hp)
    ensures AltIndex(hp, partial, index) == index <==> (partial + 1) % Pow2(hp) == 0
  {
    hide Pow2, Tag, AltIndex;
    AltBound(hp, partial, index);
    XorZero(index);
    ModSmall(index, Pow2(hp));
    XorModSame(index, Tag(partial), 0, hp);
    TagLow(hp, partial);
    OddFactor(partial + 1, MURMUR, TagBits(hp));
    SmallResidue(hp, partial + 1);
    ModSmall(0, Pow2(hp));
  }

  /** From bucket 0 the partial key 0 leads to the low bits of the multiplier of MurmurHash2. */
  lemma AltOfZero(hp: nat)
    ensures AltIndex(hp, 0, 0) == 0xc6a4_a793_5bd1_e995 % Pow2(hp)
  {
    hide Pow2, AltIndex, Xor;
    AltBound(hp, 0, 0);
    ZeroXor(Tag(0));
  }

  /** Two partial keys lead from a bucket to the same alternate if and only if they agree modulo the number
      of buckets; from 2^8 buckets on, only if they are equal. */
  lemma AltSeparates(hp: nat, p: nat, q: nat, index: nat)
    requires p < 0x100 && q < 0x100
    ensures AltIndex(hp, p, index) == AltIndex(hp, q, index) <==> p % Pow2(hp) == q % Pow2(hp)
    ensures hp >= 8 && AltIndex(hp, p, index) == AltIndex(hp, q, index) ==> p == q
  {
    hide Pow2, Tag, AltIndex;
    AltBound(hp, p, index);
    AltBound(hp, q, index);
    XorModSame(index, Tag(p), Tag(q), hp);
    var a, b := if p <= q then p else q, if p <= q then q else p;
    TagsAgree(hp, a, b);
    SmallResidue(hp, b - a);
    SameResidue(a, b, Pow2(hp));
    if hp >= 8 {
      Pow2At8();
      Pow2Mono(8, hp);
      ModSmall(p, Pow2(hp));
      ModSmall(q, Pow2(hp));
    }
  }

  /** The two candidate buckets of a key coincide if and only if its partial key plus one is a multiple of the
      number of buckets; from 2^9 buckets on they never do. */
  lemma TwoHomes(env: Env, hp: nat, k: Key)
    ensures env.I1(hp, k) == env.I2(hp, k) <==> (env.Partial(k) + 1) % Pow2(hp) == 0
    ensures hp >= 9 ==> env.I1(hp, k) != env.I2(hp, k)
  {
    hide Pow2, AltIndex, IndexHash, PartialKey;
    PartialKeyIsByte(env.hash(k));
    AltFixes(hp, env.Partial(k), env.I1(hp, k));
    if hp >= 9 {
      Pow2At8();
      Pow2Mono(9, hp);
      ModSmall(env.Partial(k) + 1, Pow2(hp));
    }
  }

  // Byte `i` of a word, counted from the lowest.
  function Byte(w: nat, i: nat): nat {
    Shr(w, 8 * i) % Pow2(8)
  }

  // The halves of a word of 2 * n bits, folded onto each other.
  function Fold(w: nat, n: nat): nat {
    Xor(w % Pow2(n), Shr(w, n) % Pow2(n))
  }

  lemma {:induction false} ShrMod(w: nat, a: nat, b: nat)
    ensures Shr(w % Pow2(a + b), a) == Shr(w, a) % Pow2(b)
    decreases a
  {
    hide Shr, Pow2;
    var v := w % Pow2(a + b);
    ShrStep(v, a);
    ShrStep(w, a);
    if a > 0 {
      ModPow2Step(w, a + b);
      assert v / 2 == (w / 2) % Pow2(a - 1 + b);
      ShrMod(w / 2, a - 1, b);
    }
  }

  // Keeping the low `n` bits keeps every byte among them.
  lemma LowByte(w: nat, n: nat, i: nat)
    requires 8 * (i + 1) <= n
    ensures Byte(w % Pow2(n), i) == Byte(w, i)
  {
    hide Pow2, Shr;
    ShrMod(w, 8 * i, n - 8 * i);
    ModPow2Nest(Shr(w, 8 * i), 8, n - 8 * i);
  }

  lemma {:induction false} ShrTwice(w: nat, a: nat, b: nat)
    ensures Shr(Shr(w, a), b) == Shr(w, a + b)
    decreases a
  {
    hide Shr;
    ShrStep(w, a);
    ShrStep(w, a + b);
    if a > 0 {
      ShrTwice(w / 2, a - 1, b);
    }
  }

  lemma HighByte(w: nat, n: nat, i: nat)
    ensures Byte(Shr(w, 8 * n), i) == Byte(w, n + i)
  {
    hide Pow2, Shr;
    ShrTwice(w, 8 * n, 8 * i);
    assert 8 * n + 8 * i == 8 * (n + i);
  }

  // Byte `i` of a folded word.
  lemma FoldByte(w: nat, n: nat, i: nat)
    requires i < n
    ensures Byte(Fold(w, 8 * n), i) == Xor(Byte(w, i), Byte(w, n + i))
  {
    hide Pow2, Shr, Xor;
    var a, b := w % Pow2(8 * n), Shr(w, 8 * n) % Pow2(8 * n);
    XorDiv(a, b, 8 * i);
    XorMod(Shr(a, 8 * i), Shr(b, 8 * i), 8);
    LowByte(w, 8 * n, i);
    LowByte(Shr(w, 8 * n), 8 * n, i);
    HighByte(w, n, i);
  }

  lemma PartialFolds(hash: Word)
    ensures PartialKey(hash) == Fold(Fold(Fold(hash, 32), 16), 8)
  {
    hide Xor, Pow2;
    Pow2At8();
    Word64();
  }

  lemma FoldIsByte(w: nat)
    ensures Fold(w, 8) == Xor(Byte(w, 0), Byte(w, 1))
  {
    hide Xor;
    assert Shr(w, 0) == w;
  }

  /** The partial key is the exclusive-or of the eight bytes of the hash. */
  lemma PartialOfBytes(hash: Word)
    ensures PartialKey(hash)
         == Xor(Xor(Xor(Byte(hash, 0), Byte(hash, 4)), Xor(Byte(hash, 2), Byte(hash, 6))),
                Xor(Xor(Byte(hash, 1), Byte(hash, 5)), Xor(Byte(hash, 3), Byte(hash, 7))))
  {
    hide Fold, Byte, Xor, PartialKey;
    PartialFolds(hash);
    var h32 := Fold(hash, 32);
    var h16 := Fold(h32, 16);
    FoldIsByte(h16);
    FoldByte(h32, 2, 0);
    FoldByte(h32, 2, 1);
    FoldByte(hash, 4, 0);
    FoldByte(hash, 4, 1);
    FoldByte(hash, 4, 2);
    FoldByte(hash, 4, 3);
  }
}
