/** The two fixed powers of fe25519.c: the inverse and x^(2^252-3). */
module FePower {
  import opened Bits
  import opened Bytes
  import opened Field25519
  import opened Fe25519

  // ----- exponents -----

  lemma {:induction false} Pow2Sum(m: nat, n: nat)
    ensures Pow2(m + n) == Pow2(m) * Pow2(n)
  {
    if m > 0 {
      Pow2Sum(m - 1, n);
      ProductAssoc(2, Pow2(m - 1), Pow2(n));
    }
  }

  lemma OnesTimes(p: int, q: int, pq: int)
    requires pq == p * q
    ensures (p - 1) * q == pq - q
  {
  }

  /** x^(2^n-1), squared m times, times x^(2^m-1), is x^(2^(n+m)-1). */
  lemma JoinRuns(x: int, n: nat, m: nat)
    ensures FMul(Squared(FPow(x, Pow2(n) - 1), m), FPow(x, Pow2(m) - 1)) == FPow(x, Pow2(n + m) - 1)
  {
    hide FMul, Squared, FPow, Pow2;
    SquaredPow(x, Pow2(n) - 1, m);
    Pow2Sum(n, m);
    OnesTimes(Pow2(n), Pow2(m), Pow2(n + m));
    PowSum(x, (Pow2(n) - 1) * Pow2(m), Pow2(m) - 1);
  }

  lemma SmallPowers()
    ensures Pow2(0) == 1 && Pow2(1) == 2 && Pow2(2) == 4 && Pow2(3) == 8 && Pow2(4) == 16 && Pow2(5) == 32
  {
  }

  lemma Pow2Of255()
    ensures Pow2(255) == TWO255 && Pow2(250) * 32 == TWO255 && Pow2(252) == Pow2(250) * 4
  {
    hide Pow2;
    SmallPowers();
    Pow2Sum(5, 5);
    Pow2Sum(10, 10);
    Pow2Sum(20, 20);
    Pow2Sum(40, 10);
    Pow2Sum(50, 50);
    Pow2Sum(100, 100);
    Pow2Sum(200, 50);
    Pow2Sum(250, 5);
    Pow2Sum(250, 2);
  }

  // ----- squarings -----

  /** An even number n of squarings of z, two for each turn of the loop, by turns into u and v. */
  method SquareRun(u: array<Byte>, v: array<Byte>, z: array<Byte>, n: nat)
    requires u.Length == v.Length == z.Length == 32 && u != v && u != z
    requires n >= 2 && n % 2 == 0
    modifies u, v
    ensures F(v) == Squared(old(F(z)), n)
  {
    hide FMul, F;
    ghost var y := F(z);
    FeSquare(u, z);
    FeSquare(v, u);
    SquaredTwice(y, 0);
    var i := 2;
    while i < n
      invariant 2 <= i <= n && i % 2 == 0
      invariant F(v) == Squared(y, i)
    {
      FeSquare(u, v);
      FeSquare(v, u);
      SquaredTwice(y, i);
      i := i + 2;
    }
  }

  lemma SquaredTwice(y: int, i: nat)
    ensures Squared(y, 0) == y
    ensures var s := FMul(Squared(y, i), Squared(y, i)); Squared(y, i + 2) == FMul(s, s)
  {
    assert Squared(y, i + 1) == FMul(Squared(y, i), Squared(y, i));
  }

  /** The first seven lines of both functions: x^9, x^11 and x^31, through x^2, x^4, x^8 and x^22. */
  lemma Chain31(x: int)
    requires 0 <= x < P
    ensures var x2 := FMul(x, x); var x4 := FMul(x2, x2); var x8 := FMul(x4, x4);
            var x9 := FMul(x8, x); var x11 := FMul(x9, x2); var x22 := FMul(x11, x11);
            && x9 == FPow(x, 9) && x11 == FPow(x, 11) && FMul(x22, x9) == FPow(x, 31)
  {
    hide FMul, FPow;
    PowOne(x);
    PowSum(x, 1, 1);
    PowSum(x, 2, 2);
    PowSum(x, 4, 4);
    PowSum(x, 8, 1);
    PowSum(x, 9, 2);
    PowSum(x, 11, 11);
    PowSum(x, 22, 9);
  }

  lemma PowOne(x: int)
    requires 0 <= x < P
    ensures FPow(x, 1) == x
  {
    MulOne(x);
    assert FPow(x, 0) == 1;
  }

  lemma FRange(x: array<Byte>)
    ensures 0 <= F(x) < P
  {
  }

  // ----- x^(p-2) -----

  /** The first seven lines: x^9, x^11 and x^31. */
  method Power31(x: array<Byte>, z9: array<Byte>, z11: array<Byte>, z31: array<Byte>, t0: array<Byte>, t1: array<Byte>)
    requires x.Length == z9.Length == z11.Length == z31.Length == t0.Length == t1.Length == 32
    requires z9 != z11 && z9 != z31 && z11 != z31 && t0 != t1
    requires x !in {z9, z11, z31, t0, t1} && t0 !in {z9, z11, z31} && t1 !in {z9, z11, z31}
    modifies z9, z11, z31, t0, t1
    ensures F(z9) == FPow(F(x), 9)
    ensures F(z11) == FPow(F(x), 11)
    ensures F(z31) == FPow(F(x), 31)
  {
    hide FMul, FPow, F;
    FRange(x);
    Chain31(F(x));
    var z2 := new Byte[32];
    FeSquare(z2, x);
    FeSquare(t1, z2);
    FeSquare(t0, t1);
    FeMul(z9, t0, x);
    FeMul(z11, z9, z2);
    FeSquare(t0, z11);
    FeMul(z31, t0, z9);
  }

  /** Five squarings that end in u; z may be v. */
  method SquareFive(u: array<Byte>, v: array<Byte>, z: array<Byte>)
    requires u.Length == v.Length == z.Length == 32 && u != v && u != z
    modifies u, v
    ensures F(u) == Squared(old(F(z)), 5)
  {
    hide FMul, F;
    ghost var y := F(z);
    SquaredTwice(y, 0);
    SquaredTwice(y, 2);
    FeSquare(u, z);
    FeSquare(v, u);
    FeSquare(u, v);
    FeSquare(v, u);
    assert F(v) == Squared(y, 4);
    FeSquare(u, v);
  }

  /** A run of n squarings of z and the product with w: from x^(2^m-1) and
      x^(2^n-1) to x^(2^(m+n)-1). */
  method RunThenMul(out: array<Byte>, u: array<Byte>, v: array<Byte>, z: array<Byte>, w: array<Byte>,
                    n: nat, ghost x: int, ghost m: nat)
    requires out.Length == u.Length == v.Length == z.Length == w.Length == 32
    requires u != v && u != z && w != u && w != v
    requires n >= 2 && n % 2 == 0
    requires F(z) == FPow(x, Pow2(m) - 1) && F(w) == FPow(x, Pow2(n) - 1)
    modifies out, u, v
    ensures F(out) == FPow(x, Pow2(m + n) - 1)
  {
    hide FMul, FPow, Squared, F, Pow2;
    SquareRun(u, v, z, n);
    FeMul(out, v, w);
    JoinRuns(x, m, n);
  }

  /** The line from x^(2^5-1) to x^(2^10-1), whose five squarings are written out. */
  method Power10(z10: array<Byte>, t0: array<Byte>, t1: array<Byte>, z5: array<Byte>, ghost x: int)
    requires z10.Length == t0.Length == t1.Length == z5.Length == 32
    requires t0 != t1 && t0 != z5 && t1 != z5
    requires F(z5) == FPow(x, Pow2(5) - 1)
    modifies z10, t0, t1
    ensures F(z10) == FPow(x, Pow2(10) - 1)
  {
    hide FMul, FPow, Squared, F, Pow2;
    SquareFive(t0, t1, z5);
    FeMul(z10, t0, z5);
    JoinRuns(x, 5, 5);
  }

  lemma LastFive(x: int)
    ensures FMul(Squared(FPow(x, Pow2(250) - 1), 5), FPow(x, 11)) == FPow(x, P - 2)
  {
    hide FMul, FPow, Squared, Pow2;
    Pow2Of255();
    SmallPowers();
    SquaredPow(x, Pow2(250) - 1, 5);
    PowSum(x, (Pow2(250) - 1) * 32, 11);
  }

  /** The lines from x^(2^10-1) to x^(2^50-1). */
  method Power50(z50: array<Byte>, t0: array<Byte>, t1: array<Byte>, z10: array<Byte>, ghost x: int)
    requires z50.Length == z10.Length == t0.Length == t1.Length == 32
    requires t0 != t1 && t0 != z10 && t1 != z10
    requires F(z10) == FPow(x, Pow2(10) - 1)
    modifies z50, t0, t1
    ensures F(z50) == FPow(x, Pow2(50) - 1)
  {
    hide FMul, FPow, Squared, F, Pow2;
    var z2_20_0 := new Byte[32];
    RunThenMul(z2_20_0, t0, t1, z10, z10, 10, x, 10);
    RunThenMul(t0, t0, t1, z2_20_0, z2_20_0, 20, x, 20);
    RunThenMul(z50, t1, t0, t0, z10, 10, x, 40);
  }

  /** The lines from x^(2^50-1) to x^(2^250-1), which ends in t0. */
  method Power250(t0: array<Byte>, t1: array<Byte>, z50: array<Byte>, ghost x: int)
    requires z50.Length == t0.Length == t1.Length == 32
    requires t0 != t1 && t0 != z50 && t1 != z50
    requires F(z50) == FPow(x, Pow2(50) - 1)
    modifies t0, t1
    ensures F(t0) == FPow(x, Pow2(250) - 1)
  {
    hide FMul, FPow, Squared, F, Pow2;
    var z2_100_0 := new Byte[32];
    RunThenMul(z2_100_0, t0, t1, z50, z50, 50, x, 50);
    RunThenMul(t1, t1, t0, z2_100_0, z2_100_0, 100, x, 100);
    RunThenMul(t0, t0, t1, t1, z50, 50, x, 200);
  }

  method FeInvert(r: array<Byte>, x: array<Byte>)
    requires r.Length == x.Length == 32
    modifies r
    ensures F(r) == FPow(old(F(x)), P - 2)
  {
    hide FMul, FPow, Squared, F, Pow2;
    ghost var e := F(x);
    var z9, z11, z2_5_0 := new Byte[32], new Byte[32], new Byte[32];
    var z2_10_0, z2_50_0 := new Byte[32], new Byte[32];
    var t0, t1 := new Byte[32], new Byte[32];
    SmallPowers();
    Power31(x, z9, z11, z2_5_0, t0, t1);
    Power10(z2_10_0, t0, t1, z2_5_0, e);
    Power50(z2_50_0, t0, t1, z2_10_0, e);
    Power250(t0, t1, z2_50_0, e);
    SquareFive(t1, t0, t0);
    FeMul(r, t1, z11);
    LastFive(e);
  }

  // ----- x^(2^252-3) -----

  /** One squaring of z into t and n-1 more in place; z may be t. */
  method SquareInPlace(t: array<Byte>, z: array<Byte>, n: nat)
    requires t.Length == z.Length == 32 && n >= 1
    modifies t
    ensures F(t) == Squared(old(F(z)), n)
  {
    hide FMul, F;
    ghost var y := F(z);
    FeSquare(t, z);
    assert F(t) == Squared(y, 1) by { assert Squared(y, 0) == y; }
    for i := 1 to n
      invariant F(t) == Squared(y, i)
    {
      FeSquare(t, t);
    }
  }

  method InPlaceThenMul(out: array<Byte>, t: array<Byte>, z: array<Byte>, w: array<Byte>, n: nat, ghost x: int, ghost m: nat)
    requires out.Length == t.Length == z.Length == w.Length == 32
    requires w != t && n >= 1
    requires F(z) == FPow(x, Pow2(m) - 1) && F(w) == FPow(x, Pow2(n) - 1)
    modifies out, t
    ensures F(out) == FPow(x, Pow2(m + n) - 1)
  {
    hide FMul, FPow, Squared, F, Pow2;
    SquareInPlace(t, z, n);
    FeMul(out, t, w);
    JoinRuns(x, m, n);
  }

  /** The first seven lines of fe25519_pow2523, where one scratch element does for two. */
  method Power31InPlace(x: array<Byte>, z31: array<Byte>, t: array<Byte>)
    requires x.Length == z31.Length == t.Length == 32
    requires t != z31 && x != t && x != z31
    modifies z31, t
    ensures F(z31) == FPow(F(x), 31)
  {
    hide FMul, FPow, F;
    FRange(x);
    Chain31(F(x));
    var z2, z9, z11 := new Byte[32], new Byte[32], new Byte[32];
    FeSquare(z2, x);
    FeSquare(t, z2);
    FeSquare(t, t);
    FeMul(z9, t, x);
    FeMul(z11, z9, z2);
    FeSquare(t, z11);
    FeMul(z31, t, z9);
  }

  lemma LastTwo(x: int)
    requires 0 <= x < P
    ensures FMul(Squared(FPow(x, Pow2(250) - 1), 2), x) == FPow(x, Pow2(252) - 3)
  {
    hide FMul, FPow, Squared, Pow2;
    Pow2Of255();
    SmallPowers();
    SquaredPow(x, Pow2(250) - 1, 2);
    PowOne(x);
    PowSum(x, (Pow2(250) - 1) * 4, 1);
  }

  method FePow2523(r: array<Byte>, x: array<Byte>)
    requires r.Length == x.Length == 32
    modifies r
    ensures F(r) == FPow(old(F(x)), Pow2(252) - 3)
  {
    hide FMul, FPow, Squared, F, Pow2;
    ghost var e := F(x);
    FRange(x);
    var z2_5_0, z2_10_0, z2_20_0 := new Byte[32], new Byte[32], new Byte[32];
    var z2_50_0, z2_100_0, t := new Byte[32], new Byte[32], new Byte[32];
    SmallPowers();
    Pow2Of255();
    Power31InPlace(x, z2_5_0, t);
    InPlaceThenMul(z2_10_0, t, z2_5_0, z2_5_0, 5, e, 5);
    InPlaceThenMul(z2_20_0, t, z2_10_0, z2_10_0, 10, e, 10);
    InPlaceThenMul(t, t, z2_20_0, z2_20_0, 20, e, 20);
    InPlaceThenMul(z2_50_0, t, t, z2_10_0, 10, e, 40);
    InPlaceThenMul(z2_100_0, t, z2_50_0, z2_50_0, 50, e, 50);
    InPlaceThenMul(t, t, z2_100_0, z2_100_0, 100, e, 100);
    InPlaceThenMul(t, t, t, z2_50_0, 50, e, 200);
    SquareInPlace(t, t, 2);
    FeMul(r, t, x);
    LastTwo(e);
  }
}
