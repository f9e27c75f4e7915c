/** What x^(p-2) is, under the hypothesis that p is prime. */
module Fermat {
  import opened Field25519
  import opened Ladder

  ghost predicate IsPrime(n: nat)
  {
    n > 1 && forall d {:trigger n % d} :: 1 < d < n ==> n % d != 0
  }

  lemma {:induction false} Euclid(x: int, y: int)
    requires IsPrime(P) && 0 < x < P && y % P != 0
    ensures (x * y) % P != 0
    decreases x
  {
    if x > 1 {
      var r, q := P % x, P / x;
      assert P == x * q + r;
      Euclid(r, y);
      if (x * y) % P == 0 {
        var k := (x * y) / P;
        RemainderTimes(x, y, q, r, k);
        SameResidue(r * y, 0, y - q * k);
      }
    }
  }

  lemma RemainderTimes(x: int, y: int, q: int, r: int, k: int)
    requires P == x * q + r && x * y == P * k
    ensures r * y == P * (y - q * k)
  {
    calc {
      r * y;
      (P - x * q) * y;
      P * y - x * q * y;
      P * y - q * (x * y);
      P * y - q * (P * k);
      P * (y - q * k);
    }
  }

  /** Multiplying by a nonzero residue keeps residues nonzero and apart. */
  lemma Injective(a: int, x: int, y: int)
    requires IsPrime(P) && 0 < a < P && 0 <= y < x < P
    ensures FMul(a, x) != FMul(a, y)
  {
    Euclid(a, x - y);
    if FMul(a, x) == FMul(a, y) {
      var k := (a * x) / P - (a * y) / P;
      Distributed(a, x, y);
      SameResidue(a * (x - y), 0, k);
    }
  }

  lemma Distributed(a: int, x: int, y: int)
    ensures a * (x - y) == a * x - a * y
  {
  }

  // ----- products over sets of residues -----

  lemma NonEmpty(s: set<int>)
    ensures s == {} || exists x :: x in s
  {
    if forall x :: x !in s {
      assert s == {};
    }
  }

  ghost function Product(s: set<int>): (r: int)
    ensures 0 <= r < P
    decreases s
  {
    if s == {} then 1 else NonEmpty(s); var x :| x in s; FMul(x, Product(s - {x}))
  }

  /** The order of the factors does not matter. */
  lemma {:induction false} ProductTake(s: set<int>, x: int)
    requires x in s
    ensures Product(s) == FMul(x, Product(s - {x}))
    decreases s
  {
    hide FMul;
    var y :| y in s && Product(s) == FMul(y, Product(s - {y}));
    if y != x {
      ProductTake(s - {y}, x);
      ProductTake(s - {x}, y);
      var t := s - {x} - {y};
      assert s - {y} - {x} == t;
      MulUnder(x, y, Product(t));
    }
  }

  ghost function Times(a: int, s: set<int>): set<int>
  {
    set x | x in s :: FMul(a, x)
  }

  /** The multiple of x is not among the multiples of the others. */
  lemma NewMultiple(a: int, x: int, t: set<int>)
    requires IsPrime(P) && 0 < a < P && 0 <= x < P && x !in t && forall y | y in t :: 0 <= y < P
    ensures FMul(a, x) !in Times(a, t)
  {
    hide FMul, IsPrime;
    if FMul(a, x) in Times(a, t) {
      var y :| y in t && FMul(a, x) == FMul(a, y);
      if x < y { Injective(a, y, x); } else { Injective(a, x, y); }
    }
  }

  lemma TimesTake(a: int, x: int, s: set<int>)
    requires x in s
    ensures Times(a, s) == Times(a, s - {x}) + {FMul(a, x)}
  {
    hide FMul;
  }

  lemma {:induction false} ProductTimes(a: int, s: set<int>)
    requires IsPrime(P) && 0 < a < P && forall x | x in s :: 0 <= x < P
    ensures Product(Times(a, s)) == FMul(FPow(a, |s|), Product(s)) && |Times(a, s)| == |s|
    decreases s
  {
    hide FMul, IsPrime, Times;
    NonEmpty(s);
    if s == {} {
      MulOne(1);
      NoMultiples(a);
    } else {
      var x :| x in s;
      var t := s - {x};
      var ax := FMul(a, x);
      ProductTimes(a, t);
      NewMultiple(a, x, t);
      TimesTake(a, x, s);
      assert Times(a, s) - {ax} == Times(a, t);
      ProductTake(Times(a, s), ax);
      ProductTake(s, x);
      MulOfProducts(a, x, FPow(a, |t|), Product(t));
    }
  }

  lemma NoMultiples(a: int)
    ensures Times(a, {}) == {} && FPow(a, 0) == 1
  {
  }

  lemma {:induction false} ProductNonzero(s: set<int>)
    requires IsPrime(P) && forall x | x in s :: 0 < x < P
    ensures Product(s) != 0
    decreases s
  {
    hide IsPrime, FMul;
    if s != {} {
      NonEmpty(s);
      var x :| x in s;
      ProductTake(s, x);
      ProductNonzero(s - {x});
      Euclid(x, Product(s - {x}));
      MulIs(x, Product(s - {x}));
    }
  }

  // ----- Fermat's little theorem -----

  ghost function Below(n: nat): (s: set<int>)
    ensures forall x :: x in s <==> 0 < x <= n
    ensures |s| == n
  {
    if n == 0 then {} else Below(n - 1) + {n}
  }

  lemma SubsetOfSameSize(s: set<int>, t: set<int>)
    requires s <= t && |s| == |t|
    ensures s == t
  {
    var d := t - s;
    assert s + d == t && s * d == {};
    assert |d| == 0;
    assert d == {};
  }

  /** Multiplying by a permutes the nonzero residues. */
  lemma TimesPermutes(a: int)
    requires IsPrime(P) && 0 < a < P
    ensures Times(a, Below(P - 1)) == Below(P - 1)
  {
    hide IsPrime, FMul, Below;
    var s := Below(P - 1);
    ProductTimes(a, s);
    forall y | y in Times(a, s)
      ensures y in s
    {
      var x :| x in s && y == FMul(a, x);
      Euclid(a, x);
      MulIs(a, x);
    }
    SubsetOfSameSize(Times(a, s), s);
  }

  lemma Fermat(a: int)
    requires IsPrime(P) && 0 < a < P
    ensures FPow(a, P - 1) == 1
  {
    hide IsPrime, FMul, Below, FPow, Product;
    var s := Below(P - 1);
    var q, e := Product(s), FPow(a, P - 1);
    TimesPermutes(a);
    ProductTimes(a, s);
    ProductNonzero(s);
    PowRange(a, P - 1);
    if e != 1 {
      Swap(e, q);
      MulOne(q);
      Swap(1, q);
      if e > 1 { Injective(q, e, 1); } else { Injective(q, 1, e); }
    }
  }

  /** fe25519_invert inverts: x^(p-2) * x = 1 for every x that is not 0. */
  lemma InverseIs(x: int)
    requires IsPrime(P) && 0 < x < P
    ensures FMul(FPow(x, P - 2), x) == 1
  {
    hide FMul, IsPrime;
    Fermat(x);
    Swap(FPow(x, P - 2), x);
  }
}
