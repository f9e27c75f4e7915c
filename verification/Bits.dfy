/** The C operators on bits, as operations on the binary digits of integers. */
module Bits {

  function And(x: nat, y: nat): nat
  {
    if x == 0 || y == 0 then 0 else (if x % 2 == 1 && y % 2 == 1 then 1 else 0) + 2 * And(x / 2, y / 2)
  }

  function Or(x: nat, y: nat): nat
  {
    if x == 0 then y else if y == 0 then x else (if x % 2 == 1 || y % 2 == 1 then 1 else 0) + 2 * Or(x / 2, y / 2)
  }

  function Xor(x: nat, y: nat): nat
    decreases x + y
  {
    if x == 0 then y else if y == 0 then x else (if x % 2 == y % 2 then 0 else 1) + 2 * Xor(x / 2, y / 2)
  }

  function Pow2(n: nat): (p: nat)
    ensures p > 0
  {
    if n == 0 then 1 else 2 * Pow2(n - 1)
  }

  /** x >> t. */
  function Shr(x: nat, t: nat): nat
  {
    if t == 0 then x else Shr(x / 2, t - 1)
  }

  /** Bit t of k. */
  function Bit(k: nat, t: nat): (b: nat)
    ensures b <= 1
  {
    if t == 0 then k % 2 else Bit(k / 2, t - 1)
  }

  lemma {:induction false} XorSelf(x: nat)
    ensures Xor(x, x) == 0
  {
    if x != 0 {
      XorSelf(x / 2);
    }
  }

  lemma {:induction false} XorBound(x: nat, y: nat, n: nat)
    requires x < Pow2(n) && y < Pow2(n)
    ensures Xor(x, y) < Pow2(n)
  {
    if x != 0 && y != 0 {
      XorBound(x / 2, y / 2, n - 1);
    }
  }

  /** x ^ (y ^ x) is y: what makes a masked swap work. */
  lemma {:induction false} XorBack(x: nat, y: nat)
    ensures Xor(x, Xor(y, x)) == y
    decreases x + y
  {
    if x == 0 {
    } else if y == 0 {
      XorSelf(x);
    } else {
      XorBack(x / 2, y / 2);
      var z := Xor(y, x);
      assert z / 2 == Xor(y / 2, x / 2);
      if z == 0 {
        assert Xor(x / 2, z / 2) == x / 2;
      }
    }
  }

  /** A mask of n ones keeps the n low bits. */
  lemma {:induction false} AndOnes(n: nat, x: nat)
    ensures And(Pow2(n) - 1, x) == x % Pow2(n)
    ensures And(x, Pow2(n) - 1) == x % Pow2(n)
  {
    if n > 0 {
      AndOnes(n - 1, x / 2);
      ModTwice(x, Pow2(n - 1));
      assert (Pow2(n) - 1) / 2 == Pow2(n - 1) - 1 && (Pow2(n) - 1) % 2 == 1;
    }
  }

  lemma {:induction false} AndBound(x: nat, y: nat, n: nat)
    requires y < Pow2(n)
    ensures And(x, y) < Pow2(n)
  {
    if x != 0 && y != 0 {
      AndBound(x / 2, y / 2, n - 1);
    }
  }

  lemma ModTwice(x: nat, m: nat)
    requires m > 0
    ensures x % (2 * m) == x % 2 + 2 * (x / 2 % m)
  {
    var q, r := x / 2 / m, x / 2 % m;
    assert x / 2 == m * q + r;
    assert x == (2 * m) * q + (x % 2 + 2 * r);
    RemainderUnique(x, 2 * m, q, x % 2 + 2 * r);
  }

  lemma RemainderUnique(x: int, d: int, q: int, r: int)
    requires d > 0 && 0 <= r < d && x == d * q + r
    ensures x % d == r
  {
    var q' := x / d;
    if q' > q {
      Monotone(d, q + 1, q');
    } else if q' < q {
      Monotone(d, q' + 1, q);
    }
  }

  lemma ProductAssoc(x: int, y: int, z: int)
    ensures (x * y) * z == x * (y * z)
  {
  }

  lemma Monotone(d: int, a: int, b: int)
    requires d >= 0 && a <= b
    ensures d * a <= d * b
  {
  }

  lemma {:induction false} BitIs(x: nat, t: nat)
    ensures Bit(x, t) == And(1, Shr(x, t))
  {
    if t > 0 {
      BitIs(x / 2, t - 1);
    } else {
      AndOnes(1, x);
      assert Pow2(1) == 2;
    }
  }

  /** The n low bits do not depend on the rest. */
  lemma {:induction false} BitLow(x: nat, n: nat, t: nat)
    requires t < n
    ensures Bit(x, t) == Bit(x % Pow2(n), t)
  {
    hide Pow2;
    ModTwice(x, Pow2(n - 1));
    assert Pow2(n) == 2 * Pow2(n - 1) by { Pow2Step(n); }
    var y := x % Pow2(n);
    assert y % 2 == x % 2 && y / 2 == x / 2 % Pow2(n - 1);
    if t > 0 {
      BitLow(x / 2, n - 1, t - 1);
    }
  }

  lemma Pow2Step(n: nat)
    requires n > 0
    ensures Pow2(n) == 2 * Pow2(n - 1)
  {
  }

  lemma BitByte(x: nat, t: nat)
    ensures Bit(x, t + 8) == Bit(x / 256, t)
  {
    assert Bit(x, t + 8) == Bit(x / 2, t + 7);
    assert Bit(x / 2, t + 7) == Bit(x / 4, t + 6);
    assert Bit(x / 4, t + 6) == Bit(x / 8, t + 5);
    assert Bit(x / 8, t + 5) == Bit(x / 16, t + 4);
    assert Bit(x / 16, t + 4) == Bit(x / 32, t + 3);
    assert Bit(x / 32, t + 3) == Bit(x / 64, t + 2);
    assert Bit(x / 64, t + 2) == Bit(x / 128, t + 1);
    assert Bit(x / 128, t + 1) == Bit(x / 256, t);
  }

  /** One more bit read from the top. */
  lemma {:induction false} ShrStep(k: nat, t: nat)
    ensures Shr(k, t) == 2 * Shr(k, t + 1) + Bit(k, t)
  {
    if t > 0 {
      ShrStep(k / 2, t - 1);
    }
  }

  lemma {:induction false} ShrAll(k: nat, n: nat)
    requires k < Pow2(n)
    ensures Shr(k, n) == 0
  {
    if n > 0 {
      ShrAll(k / 2, n - 1);
    }
  }
}
