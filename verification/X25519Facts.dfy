/** What the result of the scalar multiplication means, and which inputs share it. */
module X25519Facts {
  import opened Bits
  import opened Bytes
  import opened Field25519
  import opened Ladder
  import opened Fermat
  import Rfc7748
  import FePower

  // ----- multiples, without a ladder -----

  /** The n-fold of the point u, by halving n. */
  function Multiple(u: int, n: nat): Point
  {
    if n == 0 then Point(1, 0)
    else if n == 1 then Point(u, 1)
    else if n % 2 == 0 then Double(Multiple(u, n / 2))
    else Add(u, Multiple(u, n / 2), Multiple(u, n / 2 + 1))
  }

  lemma {:induction false} MultipleInRange(u: int, n: nat)
    requires 0 <= u < P
    ensures var p := Multiple(u, n); 0 <= p.x < P && 0 <= p.z < P
  {
    hide FMul, FAdd, FSub;
    if n > 1 && n % 2 == 0 {
      DoubleInRange(Multiple(u, n / 2));
    } else if n > 1 {
      AddInRange(u, Multiple(u, n / 2), Multiple(u, n / 2 + 1));
    }
  }

  lemma DoubleInRange(p: Point)
    ensures 0 <= Double(p).x < P && 0 <= Double(p).z < P
  {
    hide FAdd, FSub;
  }

  lemma AddInRange(u: int, p: Point, q: Point)
    ensures 0 <= Add(u, p, q).x < P && 0 <= Add(u, p, q).z < P
  {
    hide FAdd, FSub;
  }

  lemma SameReflexive(p: Point)
    requires 0 <= p.x < P && 0 <= p.z < P
    ensures Same(p, p)
  {
    assert FMul(1, 1) == 1;
    assert IsUnit(1);
    assert Scaled(1, p, p);
  }

  /** Twice the neutral point is neutral, and neutral plus u is u, scaled by 4u. */
  lemma FromZero(u: int)
    requires 0 <= u < P
    ensures Double(Point(1, 0)) == Point(1, 0)
    ensures Add(u, Point(1, 0), Point(u, 1)) == Scale(FMul(4, u), Point(u, 1))
  {
    var m, n := FMul(FSub(u, 1), 1), FMul(FAdd(u, 1), 1);
    assert FAdd(1, 0) == 1 && FSub(1, 0) == 1;
    var s, d := FAdd(m, n), FSub(m, n);
    SameResidue(m, u - 1, (m - (u - 1)) / P);
    SumAndDifference(u, m, n);
    FourU(u);
  }

  lemma SumAndDifference(u: int, m: int, n: int)
    requires 0 <= u < P && m == FMul(FSub(u, 1), 1) && n == FMul(FAdd(u, 1), 1)
    ensures FAdd(m, n) == (2 * u) % P && FSub(m, n) == (-2) % P
  {
    assert m == (u - 1) % P && n == (u + 1) % P;
    AddResidues(u - 1, u + 1);
    SubResidues(u - 1, u + 1);
  }

  lemma FourU(u: int)
    requires 0 <= u < P
    ensures var s, d := (2 * u) % P, (-2) % P;
            && FMul(s, s) == FMul(FMul(4, u), u)
            && FMul(u, FMul(d, d)) == FMul(FMul(4, u), 1)
  {
    hide FMul;
    MulResidues(2 * u, 2 * u);
    MulResidues(-2, -2);
    MulIs(4, u);
    MulLeft(4 * u, u);
    Squares(u);
    assert 4 % P == 4;
    Swap(u, 4);
    MulRange(4, u);
    MulOne(FMul(4, u));
  }

  lemma Squares(u: int)
    ensures (2 * u) * (2 * u) == (4 * u) * u
  {
  }

  lemma UnitFour(u: int)
    requires IsUnit(u)
    ensures IsUnit(FMul(4, u))
  {
    hide FMul;
    QuarterIs();
    UnitProduct(4, u);
  }

  lemma QuarterIs()
    ensures IsUnit(4)
  {
    assert FMul(4, (3 * P + 1) / 4) == 1;
  }

  /** The multiples of a point other than 0 are a family: the hypothesis of
      LadderIsFamily can be met. */
  lemma MultiplesAreFamily(u: int)
    requires 0 <= u < P && IsUnit(u)
    ensures Family((n: nat) => Multiple(u, n), u)
  {
    hide FMul, Same, Double, Add;
    var M := (n: nat) => Multiple(u, n);
    SameReflexive(Point(1, 0));
    SameReflexive(Point(u, 1));
    forall n: nat
      ensures FamilyAt(M, u, n)
    {
      MultiplesAt(u, n);
    }
  }

  lemma MultiplesAt(u: int, n: nat)
    requires 0 <= u < P && IsUnit(u)
    ensures Same(Double(Multiple(u, n)), Multiple(u, 2 * n))
    ensures Same(Add(u, Multiple(u, n), Multiple(u, n + 1)), Multiple(u, 2 * n + 1))
  {
    hide FMul, Same, Double, Add, IsUnit, Scale;
    if n == 0 {
      FromZero(u);
      SameReflexive(Point(1, 0));
      UnitFour(u);
      ScaledIsSame(FMul(4, u), Point(u, 1));
    } else {
      MultipleInRange(u, 2 * n);
      MultipleInRange(u, 2 * n + 1);
      SameReflexive(Multiple(u, 2 * n));
      SameReflexive(Multiple(u, 2 * n + 1));
      assert 2 * n / 2 == n && (2 * n + 1) / 2 == n;
    }
  }

  lemma ScaledIsSame(c: int, p: Point)
    requires IsUnit(c)
    ensures Same(Scale(c, p), p)
  {
    hide FMul, IsUnit;
    assert Scaled(c, p, Scale(c, p));
  }

  // ----- the affine result, for a prime p -----

  /** x * z^(p-2). */
  function Affine(p: Point): int
  {
    FMul(p.x, FPow(p.z, P - 2))
  }

  lemma {:induction false} PowOfProduct(c: int, z: int, n: nat)
    ensures FPow(FMul(c, z), n) == FMul(FPow(c, n), FPow(z, n))
  {
    hide FMul;
    if n == 0 {
      MulOne(1);
    } else {
      PowOfProduct(c, z, n - 1);
      MulOfProducts(c, z, FPow(c, n - 1), FPow(z, n - 1));
    }
  }

  lemma {:induction false} PowOfResidue(c: int, n: nat)
    ensures FPow(c % P, n) == FPow(c, n)
  {
    hide FMul;
    if n > 0 {
      PowOfResidue(c, n - 1);
      MulLeft(c, FPow(c, n - 1));
      MulIs(c, FPow(c, n - 1));
    }
  }

  lemma UnitIsNonzero(c: int)
    requires IsUnit(c)
    ensures c % P != 0
  {
    var d :| FMul(c, d) == 1;
    MulLeft(c, d);
  }

  lemma UnitInverse(c: int)
    requires IsPrime(P) && IsUnit(c)
    ensures FMul(c, FPow(c, P - 2)) == 1
  {
    hide FMul, IsPrime, IsUnit;
    UnitIsNonzero(c);
    PowOfResidue(c, P - 2);
    InverseIs(c % P);
    Swap(FPow(c, P - 2), c % P);
    MulLeft(c, FPow(c, P - 2));
    MulIs(c, FPow(c, P - 2));
  }

  /** The affine coordinate does not depend on the scale. */
  lemma SameAffine(p: Point, q: Point)
    requires IsPrime(P) && Same(p, q)
    ensures Affine(p) == Affine(q)
  {
    hide FMul, IsPrime, IsUnit;
    var c :| IsUnit(c) && Scaled(c, q, p);
    PowOfProduct(c, q.z, P - 2);
    MulOfProducts(c, q.x, FPow(c, P - 2), FPow(q.z, P - 2));
    UnitInverse(c);
    MulRange(q.x, FPow(q.z, P - 2));
    MulOne(Affine(q));
  }

  lemma NonzeroIsUnit(u: int)
    requires IsPrime(P) && 0 < u < P
    ensures IsUnit(u)
  {
    hide FMul, IsPrime;
    InverseIs(u);
    Swap(FPow(u, P - 2), u);
    assert FMul(u, FPow(u, P - 2)) == 1;
  }

  lemma Pow2Is(n: nat)
    requires n == 255
    ensures TWO255 == Pow2(n)
  {
    FePower.Pow2Of255();
  }

  /** For a point u that is not 0 and any scalar below 2^255, the scalar multiplication
      gives the affine coordinate of the k-fold of u. */
  lemma ScalarMultIsMultiple(k: nat, u: int)
    requires IsPrime(P) && 0 < u < P && k < TWO255
    ensures Rfc7748.ScalarMult(k, u) == Affine(Multiple(u, k))
  {
    hide FMul, FPow, IsPrime, IsUnit, Same, Family, Rfc7748.Loop, Pow2;
    var M := (n: nat) => Multiple(u, n);
    NonzeroIsUnit(u);
    MultiplesAreFamily(u);
    Pow2Is(255);
    DelayedSwap(k, u, 0);
    PlainIsFamily(M, u, k, 0);
    SameAffine(Plain(k, u, 0).0, Multiple(u, k));
  }

  // ----- the point 0 -----

  lemma ZeroSteps(x: int, y: int)
    ensures Double(Point(x, 0)).z == 0
    ensures Add(0, Point(x, 0), Point(y, 0)).z == 0
    ensures Double(Point(0, 1)).z == 0
    ensures Add(0, Point(1, 0), Point(0, 1)).z == 0
  {
    hide FMul;
    assert forall v {:trigger FMul(0, v)} :: FMul(0, v) == 0 by { ZeroTimes(); }
    assert FAdd(x, 0) == FSub(x, 0);
    var s := FMul(FAdd(x, 0), FAdd(x, 0));
    assert FSub(s, s) == 0;
    MinusOneSquared();
  }

  lemma ZeroTimes()
    ensures forall v {:trigger FMul(0, v)} :: FMul(0, v) == 0
  {
  }

  lemma MinusOneSquared()
    ensures FMul(FAdd(0, 1), FAdd(0, 1)) == 1 && FMul(FSub(0, 1), FSub(0, 1)) == 1
  {
    assert FSub(0, 1) == P - 1 && FAdd(0, 1) == 1;
    assert (P - 1) * (P - 1) == 1 + P * (P - 2);
  }

  lemma {:induction false} PlainAtZero(k: nat, t: nat)
    requires t < 255
    ensures Plain(k, 0, t).0.z == 0 && Plain(k, 0, t).1.z == 0
    decreases 255 - t
  {
    hide Double, Add;
    if t == 254 {
      ZeroSteps(1, 0);
      assert Plain(k, 0, 255) == (Point(1, 0), Point(0, 1));
    } else {
      PlainAtZero(k, t + 1);
      var (r0, r1) := Plain(k, 0, t + 1);
      ZeroSteps(r0.x, r1.x);
      ZeroSteps(r1.x, r0.x);
    }
  }

  /** The point 0 gives 0 for every scalar. */
  lemma ZeroGivesZero(k: nat)
    ensures Rfc7748.ScalarMult(k, 0) == 0
  {
    hide FMul, Plain, Rfc7748.Loop;
    DelayedSwap(k, 0, 0);
    PlainAtZero(k, 0);
    ZeroTimes();
    var w := Rfc7748.CSwap(Rfc7748.Loop(k, 0, 0).swap, Rfc7748.Loop(k, 0, 0).w);
    assert FPow(0, P - 2) == FMul(0, FPow(0, P - 3));
    Swap(w.x2, 0);
  }

  // ----- which inputs share a result -----

  /** Canonical bytes of residues are equal only for equal residues. */
  lemma CanonicalBytes(x: int, y: int)
    requires 0 <= x < P && 0 <= y < P
    ensures Encode(x, 32) == Encode(y, 32) <==> x == y
  {
    hide Encode;
    Shift32(1);
    ValEncode(x, 32);
    ValEncode(y, 32);
  }

  /** u and u + p are the same point, and bit 255 of u is not read. */
  lemma NonCanonicalPoint(k: seq<Byte>, u: seq<Byte>, v: seq<Byte>)
    requires |k| == |u| == |v| == 32
    requires Val(v) % TWO255 == Val(u) % TWO255 + P || Val(v) % TWO255 == Val(u) % TWO255
    ensures Rfc7748.X25519(k, v) == Rfc7748.X25519(k, u)
  {
    hide Val, Rfc7748.ScalarMult, Encode, Rfc7748.DecodeScalar;
    SameDecodedU(Val(u), Val(v));
  }

  lemma SameDecodedU(a: nat, b: nat)
    requires b % TWO255 == a % TWO255 + P || b % TWO255 == a % TWO255
    ensures Rfc7748.DecodeU(b) == Rfc7748.DecodeU(a)
  {
    var x, y := a % TWO255, b % TWO255;
    SameResidue(y, x, if y == x then 0 else 1);
  }

  // ----- the clamp, bit by bit -----

  lemma {:induction false} TopBit(n: nat, m: nat, t: nat)
    requires m < Pow2(n)
    ensures Bit(Pow2(n) + m, t) == if t < n then Bit(m, t) else if t == n then 1 else 0
  {
    if n == 0 {
      OneBit(t);
    } else {
      assert (Pow2(n) + m) / 2 == Pow2(n - 1) + m / 2 && (Pow2(n) + m) % 2 == m % 2;
      if t > 0 {
        TopBit(n - 1, m / 2, t - 1);
      }
    }
  }

  lemma {:induction false} OneBit(t: nat)
    ensures Bit(1, t) == if t == 0 then 1 else 0
  {
    if t > 0 {
      ZeroBit(t - 1);
    }
  }

  lemma {:induction false} ZeroBit(t: nat)
    ensures Bit(0, t) == 0
  {
    if t > 0 {
      ZeroBit(t - 1);
    }
  }

  lemma EightUp(x: nat, t: nat)
    ensures t < 3 ==> Bit(8 * x, t) == 0
    ensures Bit(x, t + 3) == Bit(x / 8, t)
  {
    assert 8 * x / 2 == 4 * x && 4 * x / 2 == 2 * x;
    assert Bit(x, t + 3) == Bit(x / 2, t + 2);
    assert Bit(x / 2, t + 2) == Bit(x / 4, t + 1);
    assert Bit(x / 4, t + 1) == Bit(x / 8, t);
    if 0 < t < 3 {
      assert Bit(8 * x, t) == Bit(4 * x, t - 1);
      if t == 2 {
        assert Bit(4 * x, 1) == Bit(2 * x, 0);
      }
    }
  }

  lemma Is251(n: nat)
    requires n == 251
    ensures Pow2(n) == Rfc7748.TWO251
  {
    hide Pow2;
    FePower.Pow2Of255();
    Pow2Step(255);
    Pow2Step(254);
    Pow2Step(253);
    Pow2Step(252);
  }

  /** The scalar used has its bits 0, 1, 2 and all from 255 on cleared, bit 254 set, and the others as given. */
  lemma ScalarBits(v: nat, t: nat)
    ensures Bit(Rfc7748.DecodeScalar(v), t) == if t < 3 || t > 254 then 0 else if t == 254 then 1 else Bit(v, t)
  {
    hide Pow2, Bit;
    var m := v / 8 % Rfc7748.TWO251;
    var x := Rfc7748.TWO251 + m;
    assert Rfc7748.DecodeScalar(v) == 8 * x;
    if t < 3 {
      EightUp(x, t);
    } else {
      EightUp(8 * x, t - 3);
      EightUp(v, t - 3);
      Is251(251);
      TopBit(251, m, t - 3);
      if t - 3 < 251 {
        BitLow(v / 8, 251, t - 3);
      }
    }
  }
}
