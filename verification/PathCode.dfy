/**
 The packed description of an eviction path: the starting bucket (0 or 1) followed by one slot
 number per bucket, as digits in base `s`, kept in 16 bits.
 */
module PathCode {
  import opened Hashing
  import opened Bits

  const CODE_RANGE: nat := 0x1_0000

  predicate Digits(s: nat, slots: seq<nat>) {
    forall i | 0 <= i < |slots| :: slots[i] < s
  }

  // The code as a mathematical number.
  function Code(s: nat, bit: nat, slots: seq<nat>): nat {
    if |slots| == 0 then bit else Code(s, bit, slots[..|slots| - 1]) * s + slots[|slots| - 1]
  }

  // The code as the search computes it, truncated to 16 bits at every step.
  function Packed(s: nat, bit: nat, slots: seq<nat>): nat {
    if |slots| == 0 then bit
    else (Packed(s, bit, slots[..|slots| - 1]) * s + slots[|slots| - 1]) % CODE_RANGE
  }

  // Peeling off `n` digits, last one first: the digits and what is left.
  function Decode(s: nat, code: nat, n: nat): (r: (seq<nat>, nat))
    requires s >= 1
    ensures |r.0| == n
    decreases n
  {
    if n == 0 then ([], code)
    else
      var (front, bit) := Decode(s, code / s, n - 1);
      (front + [code % s], bit)
  }

  lemma DigitOff(s: nat, c: nat, d: nat)
    requires d < s
    ensures (c * s + d) / s == c && (c * s + d) % s == d
  {
    DivModUnique(c * s + d, s, c, d);
  }

  lemma DivisionIdentity(x: nat, s: nat)
    requires s >= 1
    ensures x / s * s + x % s == x && x % s < s
  {
  }

  /** Decoding a code gives back the starting bucket and every slot. */
  lemma {:induction false} DecodeCode(s: nat, bit: nat, slots: seq<nat>)
    requires s >= 1 && Digits(s, slots)
    ensures Decode(s, Code(s, bit, slots), |slots|) == (slots, bit)
  {
    if |slots| > 0 {
      var n := |slots| - 1;
      DecodeCode(s, bit, slots[..n]);
      DigitOff(s, Code(s, bit, slots[..n]), slots[n]);
      assert slots == slots[..n] + [slots[n]];
    }
  }

  /** Encoding what was decoded gives back the code. */
  lemma {:induction false} CodeDecode(s: nat, code: nat, n: nat)
    requires s >= 1
    ensures var (slots, bit) := Decode(s, code, n); Digits(s, slots) && Code(s, bit, slots) == code
    decreases n
  {
    if n > 0 {
      CodeDecode(s, code / s, n - 1);
      var (front, bit) := Decode(s, code / s, n - 1);
      var slots := front + [code % s];
      assert slots[..n - 1] == front && slots[n - 1] == code % s;
      DivisionIdentity(code, s);
    }
  }

  lemma BoundStep(c: nat, p: nat, s: nat, d: nat)
    requires c < 2 * p && d < s
    ensures c * s + d < 2 * (s * p)
  {
    MulMono(c + 1, 2 * p, s);
    assert (c + 1) * s == c * s + s && 2 * p * s == 2 * (s * p);
  }

  lemma {:induction false} CodeBound(s: nat, bit: nat, slots: seq<nat>)
    requires s >= 1 && bit < 2 && Digits(s, slots)
    ensures Code(s, bit, slots) < 2 * Pow(s, |slots|)
  {
    if |slots| > 0 {
      var n := |slots| - 1;
      CodeBound(s, bit, slots[..n]);
      BoundStep(Code(s, bit, slots[..n]), Pow(s, n), s, slots[n]);
    }
  }

  lemma {:induction false} PowMono(s: nat, m: nat, n: nat)
    requires s >= 1 && m <= n
    ensures Pow(s, m) <= Pow(s, n) && Pow(s, m) >= 1
  {
    if m == n {
      if n > 0 {
        PowMono(s, m - 1, n - 1);
        MulMono(1, s, Pow(s, n - 1));
      }
    } else {
      PowMono(s, m, n - 1);
      MulMono(1, s, Pow(s, n - 1));
    }
  }

  // Within range no truncation happens.
  lemma {:induction false} PackedIsCode(s: nat, bit: nat, slots: seq<nat>)
    requires s >= 1 && bit < 2 && Digits(s, slots) && 2 * Pow(s, |slots|) <= CODE_RANGE
    ensures Packed(s, bit, slots) == Code(s, bit, slots) < CODE_RANGE
  {
    CodeBound(s, bit, slots);
    if |slots| > 0 {
      var n := |slots| - 1;
      PowMono(s, n, n + 1);
      PackedIsCode(s, bit, slots[..n]);
      ModSmall(Code(s, bit, slots), CODE_RANGE);
    }
  }

  lemma {:induction false} PackedRange(s: nat, bit: nat, slots: seq<nat>)
    requires bit < 2
    ensures Packed(s, bit, slots) < CODE_RANGE
  {
  }

  // A path of `n` slots survives packing and decoding.
  predicate Survives(s: nat, bit: nat, slots: seq<nat>)
    requires s >= 1
  {
    Decode(s, Packed(s, bit, slots), |slots|) == (slots, bit)
  }

  ghost predicate AllSurvive(s: nat, n: nat)
    requires s >= 1
  {
    forall bit: nat, slots: seq<nat> {:trigger Survives(s, bit, slots)} ::
      bit < 2 && |slots| == n && Digits(s, slots) ==> Survives(s, bit, slots)
  }

  function LastPath(s: nat, n: nat): (r: seq<nat>)
    requires s >= 1
    ensures |r| == n && Digits(s, r)
  {
    seq(n, _ => s - 1)
  }

  lemma LastStep(c: int, p: int, s: int)
    requires c == 2 * p - 1
    ensures c * s + (s - 1) == 2 * (s * p) - 1
  {
    assert c * s == 2 * (s * p) - s;
  }

  lemma {:induction false} LastCode(s: nat, n: nat)
    requires s >= 1
    ensures Code(s, 1, LastPath(s, n)) == 2 * Pow(s, n) - 1
  {
    if n > 0 {
      LastCode(s, n - 1);
      LastPathStep(s, n);
      CodeStep(s, 1, LastPath(s, n - 1), s - 1);
      PowStep(s, n);
      LastStep(Code(s, 1, LastPath(s, n - 1)), Pow(s, n - 1), s);
    }
  }

  lemma LastPathStep(s: nat, n: nat)
    requires s >= 1 && n > 0
    ensures LastPath(s, n) == LastPath(s, n - 1) + [s - 1]
  {
  }

  lemma CodeStep(s: nat, bit: nat, slots: seq<nat>, j: nat)
    ensures Code(s, bit, slots + [j]) == Code(s, bit, slots) * s + j
  {
    assert (slots + [j])[..|slots|] == slots;
  }

  lemma PowStep(s: nat, n: nat)
    requires n > 0
    ensures Pow(s, n) == s * Pow(s, n - 1)
  {
  }

  /** Every path of `n` slots survives exactly when 2 * s^n codes fit into 16 bits. */
  lemma CodeExact(s: nat, n: nat)
    requires s >= 1
    ensures AllSurvive(s, n) <==> 2 * Pow(s, n) <= CODE_RANGE
  {
    if 2 * Pow(s, n) <= CODE_RANGE {
      forall bit: nat, slots: seq<nat> | bit < 2 && |slots| == n && Digits(s, slots)
        ensures Survives(s, bit, slots)
      {
        PackedIsCode(s, bit, slots);
        DecodeCode(s, bit, slots);
      }
    } else {
      var slots := LastPath(s, n);
      LastCode(s, n);
      PackedRange(s, 1, slots);
      CodeDecode(s, Packed(s, 1, slots), n);
      assert !Survives(s, 1, slots);
    }
  }

  /** The compile-time guard s^5 < 65535 admits s = 9, for which some path is not recovered. */
  lemma GuardAdmitsNine()
    ensures Pow(9, 5) < 0xffff
    ensures !AllSurvive(9, 5)
  {
    assert Pow(9, 3) == 729;
    assert Pow(9, 5) == 59049;
    CodeExact(9, 5);
  }
}
