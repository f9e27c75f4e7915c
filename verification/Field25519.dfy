/** The integers modulo p = 2^255 - 19. */
module Field25519 {
  import opened Bits

  const TWO255 := 0x8000_0000_0000_0000_0000_0000_0000_0000_0000_0000_0000_0000_0000_0000_0000_0000
  const P := 0x7fff_ffff_ffff_ffff_ffff_ffff_ffff_ffff_ffff_ffff_ffff_ffff_ffff_ffff_ffff_ffed

  function FAdd(x: int, y: int): int { (x + y) % P }

  function FSub(x: int, y: int): int { (x - y) % P }

  function FMul(x: int, y: int): int { (x * y) % P }

  /** x^n modulo p. */
  function FPow(x: int, n: nat): int
  {
    if n == 0 then 1 else FMul(x, FPow(x, n - 1))
  }

  lemma SameResidue(x: int, y: int, k: int)
    requires x == y + P * k
    ensures x % P == y % P
  {
  }

  lemma AddResidues(x: int, y: int)
    ensures FAdd(x % P, y % P) == (x + y) % P
  {
    SameResidue(x + y, x % P + y % P, x / P + y / P);
  }

  lemma SubResidues(x: int, y: int)
    ensures FSub(x % P, y % P) == (x - y) % P
  {
    SameResidue(x - y, x % P - y % P, x / P - y / P);
  }

  lemma ProductParts(x: int, y: int, q: int, r: int)
    requires x == r + P * q
    ensures x * y == r * y + P * (q * y)
  {
    assert x * y == (r + P * q) * y;
  }

  lemma MulLeft(x: int, y: int)
    ensures FMul(x % P, y) == (x * y) % P
  {
    hide FMul;
    ProductParts(x, y, x / P, x % P);
    SameResidue(x * y, (x % P) * y, (x / P) * y);
    MulIs(x % P, y);
  }

  lemma MulIs(x: int, y: int)
    ensures FMul(x, y) == (x * y) % P
  {
  }

  lemma Swap(x: int, y: int)
    ensures x * y == y * x
    ensures FMul(x, y) == FMul(y, x)
  {
  }

  lemma MulResidues(x: int, y: int)
    ensures FMul(x % P, y % P) == (x * y) % P
  {
    hide FMul;
    MulLeft(x, y % P);
    MulIs(x, y % P);
    Swap(x, y % P);
    MulLeft(y, x);
    Swap(x, y);
    MulIs(x, y);
  }

  // ----- powers -----

  lemma MulRange(x: int, y: int)
    ensures 0 <= FMul(x, y) < P
  {
  }

  lemma {:induction false} PowRange(x: int, n: nat)
    ensures 0 <= FPow(x, n) < P
  {
    if n > 0 {
      MulRange(x, FPow(x, n - 1));
    }
  }

  lemma MulAssoc(x: int, y: int, z: int)
    ensures FMul(FMul(x, y), z) == FMul(x, FMul(y, z))
  {
    hide FMul;
    MulIs(x, y);
    MulLeft(x * y, z);
    MulIs(y, z);
    Swap(x, FMul(y, z));
    MulLeft(y * z, x);
    Swap(y * z, x);
    ProductAssoc(x, y, z);
  }

  lemma MulOne(y: int)
    requires 0 <= y < P
    ensures FMul(1, y) == y && FMul(y, 1) == y
  {
  }

  lemma {:induction false} PowSum(x: int, m: nat, n: nat)
    ensures FMul(FPow(x, m), FPow(x, n)) == FPow(x, m + n)
  {
    hide FMul;
    if m == 0 {
      PowRange(x, n);
      MulOne(FPow(x, n));
    } else {
      PowSum(x, m - 1, n);
      MulAssoc(x, FPow(x, m - 1), FPow(x, n));
    }
  }

  /** y squared k times. */
  function Squared(y: int, k: nat): int
  {
    if k == 0 then y else FMul(Squared(y, k - 1), Squared(y, k - 1))
  }

  lemma {:induction false} SquaredPow(x: int, e: nat, k: nat)
    ensures Squared(FPow(x, e), k) == FPow(x, e * Pow2(k))
  {
    hide FMul;
    if k > 0 {
      SquaredPow(x, e, k - 1);
      PowSum(x, e * Pow2(k - 1), e * Pow2(k - 1));
      Doubled(e, Pow2(k - 1), Pow2(k));
    }
  }

  lemma Doubled(e: nat, p: nat, q: nat)
    requires q == 2 * p
    ensures 0 <= e * p && e * q == e * p + e * p
  {
  }
}
