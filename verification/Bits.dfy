/**
 Unsigned machine arithmetic on `nat`: powers of two, bitwise exclusive-or and conjunction,
 and the way they commute with truncation to the low bits.
 */
module Bits {

  function Pow2(k: nat): (r: nat)
    ensures r >= 1
  {
    if k == 0 then 1 else 2 * Pow2(k - 1)
  }

  // Bitwise `a ^ b`.
  function Xor(a: nat, b: nat): nat
    decreases a + b
  {
    if a == 0 && b == 0 then 0 else (if a % 2 == b % 2 then 0 else 1) + 2 * Xor(a / 2, b / 2)
  }

  // Bitwise `a & b`.
  function And(a: nat, b: nat): nat
  {
    if a == 0 || b == 0 then 0 else (if a % 2 == 1 && b % 2 == 1 then 1 else 0) + 2 * And(a / 2, b / 2)
  }

  lemma {:induction false} DivModUnique(x: int, d: int, q: int, r: int)
    requires 0 < d && x == q * d + r && 0 <= r < d
    ensures x / d == q && x % d == r
  {
    var q', r' := x / d, x % d;
    assert x == q' * d + r';
    assert (q - q') * d == r' - r;
    if q > q' {
      assert (q - q') * d >= d by { MulMono(1, q - q', d); }
    } else if q < q' {
      assert (q' - q) * d == r - r' < d;
      MulMono(1, q' - q, d);
    }
  }

  lemma MulMono(a: int, b: int, d: int)
    requires a <= b && 0 <= d
    ensures a * d <= b * d
  {
    assert (b - a) * d >= 0;
  }

  lemma MulStrict(a: int, b: int, d: int)
    requires a < b && 0 < d
    ensures a * d < b * d
  {
    assert (b - a) * d > 0;
  }

  // The low bits of `a` split into its lowest bit and the low bits of the rest.
  lemma {:induction false} ModPow2Step(a: nat, k: nat)
    requires k > 0
    ensures a % Pow2(k) == a % 2 + 2 * ((a / 2) % Pow2(k - 1))
  {
    var p := Pow2(k - 1);
    var q, r := (a / 2) / p, (a / 2) % p;
    assert a / 2 == q * p + r;
    assert a == q * (2 * p) + (a % 2 + 2 * r) by {
      assert a == 2 * (q * p + r) + a % 2;
      assert 2 * (q * p) == q * (2 * p);
    }
    DivModUnique(a, 2 * p, q, a % 2 + 2 * r);
  }

  // Reducing modulo a larger power first changes nothing.
  lemma {:induction false} ModPow2Nest(a: nat, j: nat, k: nat)
    requires j <= k
    ensures (a % Pow2(k)) % Pow2(j) == a % Pow2(j)
  {
    if j == 0 {
    } else {
      var b := a % Pow2(k);
      assert b % 2 == a % 2 && b / 2 == (a / 2) % Pow2(k - 1) by {
        ModPow2Step(a, k);
      }
      calc {
        b % Pow2(j);
      == { ModPow2Step(b, j); }
        b % 2 + 2 * ((b / 2) % Pow2(j - 1));
      == { ModPow2Nest(a / 2, j - 1, k - 1); }
        a % 2 + 2 * ((a / 2) % Pow2(j - 1));
      == { ModPow2Step(a, j); }
        a % Pow2(j);
      }
    }
  }

  // Exclusive-or acts on each bit alone, so it commutes with keeping the low `k` bits.
  lemma {:induction false} XorMod(a: nat, b: nat, k: nat)
    ensures Xor(a, b) % Pow2(k) == Xor(a % Pow2(k), b % Pow2(k))
    decreases k
  {
    if k == 0 {
    } else {
      ModPow2Step(a, k);
      ModPow2Step(b, k);
      ModPow2Step(Xor(a, b), k);
      XorMod(a / 2, b / 2, k - 1);
      var a', b' := a % Pow2(k), b % Pow2(k);
      assert a' / 2 == (a / 2) % Pow2(k - 1) && b' / 2 == (b / 2) % Pow2(k - 1);
      XorBits(a, b);
      XorBits(a', b');
    }
  }

  lemma XorBits(a: nat, b: nat)
    ensures Xor(a, b) / 2 == Xor(a / 2, b / 2)
    ensures Xor(a, b) % 2 == (if a % 2 == b % 2 then 0 else 1)
  {
    assert Xor(0, 0) == 0;
  }

  lemma {:induction false} XorCancels(a: nat, b: nat)
    ensures Xor(Xor(a, b), b) == a
    decreases a + b
  {
    if a == 0 && b == 0 {
    } else {
      XorCancels(a / 2, b / 2);
      XorCancelsBit(a, b, Xor(a, b));
    }
  }

  lemma XorCancelsBit(a: nat, b: nat, x: nat)
    requires x == Xor(a, b)
    requires Xor(Xor(a / 2, b / 2), b / 2) == a / 2
    ensures Xor(x, b) == a
  {
    XorBits(a, b);
    XorBits(x, b);
    assert Xor(x, b) % 2 == a % 2;
  }

  lemma XorBound(a: nat, b: nat, k: nat)
    requires a < Pow2(k) && b < Pow2(k)
    ensures Xor(a, b) < Pow2(k)
  {
    XorMod(a, b, k);
  }

  // Masking with 2^k - 1 keeps the low `k` bits.
  lemma {:induction false} AndMask(a: nat, k: nat)
    ensures And(a, Pow2(k) - 1) == a % Pow2(k)
    decreases k
  {
    if k == 0 {
    } else {
      var m := Pow2(k) - 1;
      assert m % 2 == 1 && m / 2 == Pow2(k - 1) - 1;
      ModPow2Step(a, k);
      AndMask(a / 2, k - 1);
    }
  }

  lemma {:induction false} Pow2Add(a: nat, b: nat)
    ensures Pow2(a + b) == Pow2(a) * Pow2(b)
  {
    if a == 0 {
    } else {
      Pow2Add(a - 1, b);
      assert 2 * (Pow2(a - 1) * Pow2(b)) == (2 * Pow2(a - 1)) * Pow2(b);
    }
  }

  lemma {:induction false} Pow2Mono(a: nat, b: nat)
    requires a <= b
    ensures Pow2(a) <= Pow2(b)
    ensures a < b ==> Pow2(a) < Pow2(b)
    decreases b
  {
    if a < b {
      Pow2Mono(a, b - 1);
    }
  }

  lemma ModSmall(x: nat, d: nat)
    requires x < d
    ensures x % d == x
  {
    DivModUnique(x, d, 0, x);
  }

  lemma NextResidue(b: nat, i: nat, n: nat)
    requires n > 0 && b < i <= b + n
    ensures i % n == b % n <==> i == b + n
  {
    var q, r := b / n, b % n;
    var e := r + i - b;
    assert i == q * n + e && (q + 1) * n == q * n + n;
    if e < n {
      DivModUnique(i, n, q, e);
    } else {
      DivModUnique(i, n, q + 1, e - n);
    }
  }

  lemma XorModInvolution(i: nat, c: nat, k: nat)
    requires i < Pow2(k)
    ensures Xor(Xor(i, c) % Pow2(k), c) % Pow2(k) == i
  {
    var p := Pow2(k);
    var d, a := c % p, Xor(i, c) % p;
    calc {
      Xor(a, c) % p;
    == { XorMod(a, c, k); ModSmall(a, p); }
      Xor(a, d);
    == { XorMod(i, c, k); ModSmall(i, p); }
      Xor(Xor(i, d), d);
    == { XorCancels(i, d); }
      i;
    }
  }

  lemma XorModGrows(i: nat, c: nat, k: nat)
    ensures (Xor(i, c) % Pow2(k + 1)) % Pow2(k) == Xor(i % Pow2(k), c) % Pow2(k)
  {
    var p := Pow2(k);
    calc {
      (Xor(i, c) % Pow2(k + 1)) % p;
    == { ModPow2Nest(Xor(i, c), k, k + 1); }
      Xor(i, c) % p;
    == { XorMod(i, c, k); }
      Xor(i % p, c % p);
    == { XorMod(i % p, c, k); ModSmall(i % p, p); }
      Xor(i % p, c) % p;
    }
  }

  function Div(a: nat, d: nat): nat
    requires d > 0
  {
    a / d
  }

  // `a >> k`.
  function Shr(a: nat, k: nat): nat {
    Div(a, Pow2(k))
  }

  lemma ShrStep(a: nat, k: nat)
    ensures Shr(a, 0) == a
    ensures k > 0 ==> Shr(a, k) == Shr(a / 2, k - 1)
  {
    if k > 0 {
      var p := Pow2(k - 1);
      var q, r := (a / 2) / p, (a / 2) % p;
      assert a == q * (2 * p) + (a % 2 + 2 * r) by {
        assert a == 2 * (q * p + r) + a % 2;
        assert 2 * (q * p) == q * (2 * p);
      }
      DivModUnique(a, 2 * p, q, a % 2 + 2 * r);
    }
  }

  // Exclusive-or commutes with dropping the low `k` bits.
  lemma {:induction false} XorDiv(a: nat, b: nat, k: nat)
    ensures Shr(Xor(a, b), k) == Xor(Shr(a, k), Shr(b, k))
    decreases k
  {
    hide Shr, Xor;
    ShrStep(a, k);
    ShrStep(b, k);
    ShrStep(Xor(a, b), k);
    if k > 0 {
      XorDiv(a / 2, b / 2, k - 1);
      XorBits(a, b);
    }
  }

  // No two numbers have the same exclusive-or with a third.
  lemma {:induction false} XorInjective(i: nat, a: nat, b: nat)
    requires Xor(i, a) == Xor(i, b)
    ensures a == b
    decreases i + a + b
  {
    if i + a + b > 0 {
      XorBits(i, a);
      XorBits(i, b);
      XorInjective(i / 2, a / 2, b / 2);
    }
  }

  lemma {:induction false} XorZero(i: nat)
    ensures Xor(i, 0) == i
  {
    if i > 0 {
      XorZero(i / 2);
    }
  }

  lemma {:induction false} ZeroXor(i: nat)
    ensures Xor(0, i) == i
  {
    if i > 0 {
      ZeroXor(i / 2);
    }
  }

  // Keeping the low bits of an exclusive-or tells the low bits of its second operand apart.
  lemma XorModSame(i: nat, a: nat, b: nat, k: nat)
    ensures Xor(i, a) % Pow2(k) == Xor(i, b) % Pow2(k) <==> a % Pow2(k) == b % Pow2(k)
  {
    XorMod(i, a, k);
    XorMod(i, b, k);
    if Xor(i, a) % Pow2(k) == Xor(i, b) % Pow2(k) {
      XorInjective(i % Pow2(k), a % Pow2(k), b % Pow2(k));
    }
  }

  lemma OddTimes(a: nat, m: nat)
    requires m % 2 == 1
    ensures (a * m) % 2 == a % 2
  {
    var b, n := a / 2, m / 2;
    assert a * m == 2 * (b * m + (a % 2) * n) + a % 2;
  }

  // Multiplying by an odd number does not create factors of two.
  lemma {:induction false} OddFactor(a: nat, m: nat, k: nat)
    requires m % 2 == 1
    ensures (a * m) % Pow2(k) == 0 <==> a % Pow2(k) == 0
    decreases k
  {
    if k > 0 {
      OddTimes(a, m);
      ModPow2Step(a, k);
      ModPow2Step(a * m, k);
      if a % 2 == 0 {
        assert (a * m) / 2 == (a / 2) * m by {
          assert a * m == 2 * ((a / 2) * m);
        }
        OddFactor(a / 2, m, k - 1);
      }
    }
  }

  // Two numbers have the same residue if and only if their difference has none.
  lemma SameResidue(a: nat, b: nat, d: nat)
    requires d > 0 && a <= b
    ensures a % d == b % d <==> (b - a) % d == 0
  {
    var qa, qb := a / d, b / d;
    if a % d == b % d {
      assert b - a == (qb - qa) * d;
      DivModUnique(b - a, d, qb - qa, 0);
    } else if (b - a) % d == 0 {
      var q := (b - a) / d;
      assert b == (qa + q) * d + a % d;
      DivModUnique(b, d, qa + q, a % d);
    }
  }
}
