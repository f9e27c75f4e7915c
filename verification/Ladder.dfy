/** What the swapping loop computes: the textbook ladder with one branch for a bit,
    and through it the multiples of a point. */
module Ladder {
  import opened Bits
  import opened Field25519
  import Rfc7748

  /** A projective x-coordinate x : z. */
  datatype Point = Point(x: int, z: int)

  function Double(p: Point): Point
  {
    var s, d := FAdd(p.x, p.z), FSub(p.x, p.z);
    var ss, dd := FMul(s, s), FMul(d, d);
    var e := FSub(ss, dd);
    Point(FMul(ss, dd), FMul(e, FAdd(ss, FMul(Rfc7748.A24, e))))
  }

  /** p + q, for p and q whose difference has the affine x-coordinate u. */
  function Add(u: int, p: Point, q: Point): Point
  {
    var m, n := FMul(FSub(q.x, q.z), FAdd(p.x, p.z)), FMul(FAdd(q.x, q.z), FSub(p.x, p.z));
    var s, d := FAdd(m, n), FSub(m, n);
    Point(FMul(s, s), FMul(u, FMul(d, d)))
  }

  function Pair(p: Point, q: Point): Rfc7748.Ladder
  {
    Rfc7748.Ladder(p.x, p.z, q.x, q.z)
  }

  lemma StepIs(u: int, p: Point, q: Point)
    ensures Rfc7748.Step(u, Pair(p, q)) == Pair(Double(p), Add(u, p, q))
  {
    hide FMul, FAdd, FSub;
  }

  lemma SquareOfNegation(x: int, y: int)
    ensures FMul(FSub(x, y), FSub(x, y)) == FMul(FSub(y, x), FSub(y, x))
  {
    hide FMul;
    SubIs(x, y);
    SubIs(y, x);
    MulResidues(x - y, x - y);
    MulResidues(y - x, y - x);
    SquareNegated(x - y, y - x);
  }

  lemma SubIs(x: int, y: int)
    ensures FSub(x, y) == (x - y) % P
  {
  }

  lemma SquareNegated(a: int, b: int)
    requires a == -b
    ensures a * a == b * b
  {
  }

  lemma AddSwap(x: int, y: int)
    ensures FAdd(x, y) == FAdd(y, x)
  {
  }

  lemma AddSymmetric(u: int, p: Point, q: Point)
    ensures Add(u, p, q) == Add(u, q, p)
  {
    hide FMul, FAdd, FSub;
    var m, n := FMul(FSub(q.x, q.z), FAdd(p.x, p.z)), FMul(FAdd(q.x, q.z), FSub(p.x, p.z));
    Swap(FSub(q.x, q.z), FAdd(p.x, p.z));
    Swap(FAdd(q.x, q.z), FSub(p.x, p.z));
    AddSwap(m, n);
    SquareOfNegation(m, n);
  }

  // ----- one branch for a bit -----

  /** The textbook ladder: after the bits 254 to t, with R1 = R0 + P throughout. */
  function Plain(k: nat, u: int, t: nat): (Point, Point)
    requires t <= 255
    decreases 255 - t
  {
    if t == 255 then
      (Point(1, 0), Point(u, 1))
    else
      var (r0, r1) := Plain(k, u, t + 1);
      if Bit(k, t) == 0 then (Double(r0), Add(u, r0, r1)) else (Add(u, r0, r1), Double(r1))
  }

  function LastBit(k: nat, t: nat): (b: nat)
    ensures b <= 1
  {
    if t >= 255 then 0 else Bit(k, t)
  }

  /** The delayed swap: the two working points are the textbook pair, exchanged
      exactly when the last bit was 1. */
  lemma {:induction false} DelayedSwap(k: nat, u: int, t: nat)
    requires t <= 255
    ensures var (r0, r1) := Plain(k, u, t);
            Rfc7748.Loop(k, u, t) == Rfc7748.LoopState(if LastBit(k, t) == 1 then Pair(r1, r0) else Pair(r0, r1), LastBit(k, t))
    decreases 255 - t
  {
    hide Double, Add, Rfc7748.Step;
    if t < 255 {
      DelayedSwap(k, u, t + 1);
      var (r0, r1) := Plain(k, u, t + 1);
      StepIs(u, r0, r1);
      StepIs(u, r1, r0);
      AddSymmetric(u, r0, r1);
      var a, b := LastBit(k, t + 1), LastBit(k, t);
      XorBits(a, b);
    }
  }

  lemma XorBits(a: nat, b: nat)
    requires a <= 1 && b <= 1
    ensures Xor(a, b) == if a == b then 0 else 1
  {
  }

  // ----- scaling -----

  ghost predicate IsUnit(c: int)
  {
    exists d :: FMul(c, d) == 1
  }

  predicate Scaled(c: int, p: Point, q: Point)
  {
    q == Point(FMul(c, p.x), FMul(c, p.z))
  }

  /** p and q are the same projective coordinate. */
  ghost predicate Same(p: Point, q: Point)
  {
    exists c :: IsUnit(c) && Scaled(c, q, p)
  }

  lemma DistributeAdd(c: int, x: int, y: int)
    ensures FAdd(FMul(c, x), FMul(c, y)) == FMul(c, FAdd(x, y))
  {
    hide FMul, FAdd;
    MulIs(c, x);
    MulIs(c, y);
    AddResidues(c * x, c * y);
    Distribute(c, x, y);
    AddIs(x, y);
    Swap(c, (x + y) % P);
    MulLeft(x + y, c);
    Swap(x + y, c);
  }

  lemma Distribute(c: int, x: int, y: int)
    ensures c * x + c * y == c * (x + y)
    ensures c * x - c * y == c * (x - y)
  {
  }

  lemma AddIs(x: int, y: int)
    ensures FAdd(x, y) == (x + y) % P
  {
  }

  lemma DistributeSub(c: int, x: int, y: int)
    ensures FSub(FMul(c, x), FMul(c, y)) == FMul(c, FSub(x, y))
  {
    hide FMul, FSub;
    MulIs(c, x);
    MulIs(c, y);
    SubResidues(c * x, c * y);
    Distribute(c, x, y);
    SubIs(x, y);
    Swap(c, (x - y) % P);
    MulLeft(x - y, c);
    Swap(x - y, c);
  }

  lemma MulOfProducts(c: int, x: int, d: int, y: int)
    ensures FMul(FMul(c, x), FMul(d, y)) == FMul(FMul(c, d), FMul(x, y))
  {
    hide FMul;
    MulAssoc(c, x, FMul(d, y));
    MulAssoc(x, d, y);
    Swap(x, d);
    MulAssoc(d, x, y);
    MulAssoc(c, d, FMul(x, y));
  }

  lemma MulUnder(c: int, x: int, y: int)
    ensures FMul(x, FMul(c, y)) == FMul(c, FMul(x, y))
  {
    hide FMul;
    MulAssoc(x, c, y);
    Swap(x, c);
    MulAssoc(c, x, y);
  }

  function Scale(c: int, p: Point): Point
  {
    Point(FMul(c, p.x), FMul(c, p.z))
  }

  /** Doubling is homogeneous of degree 4. */
  lemma DoubleScaled(c: int, p: Point)
    ensures var cc := FMul(c, c); Double(Scale(c, p)) == Scale(FMul(cc, cc), Double(p))
  {
    hide FMul, FAdd, FSub;
    var cc := FMul(c, c);
    var s, d := FAdd(p.x, p.z), FSub(p.x, p.z);
    var ss, dd := FMul(s, s), FMul(d, d);
    var e := FSub(ss, dd);
    DistributeAdd(c, p.x, p.z);
    DistributeSub(c, p.x, p.z);
    MulOfProducts(c, s, c, s);
    MulOfProducts(c, d, c, d);
    DistributeSub(cc, ss, dd);
    MulUnder(cc, Rfc7748.A24, e);
    DistributeAdd(cc, ss, FMul(Rfc7748.A24, e));
    MulOfProducts(cc, ss, cc, dd);
    MulOfProducts(cc, e, cc, FAdd(ss, FMul(Rfc7748.A24, e)));
  }

  /** Differential addition is homogeneous of degree 2 in both points. */
  lemma AddScaled(u: int, c: int, p: Point, d: int, q: Point)
    ensures var k := FMul(d, c); Add(u, Scale(c, p), Scale(d, q)) == Scale(FMul(k, k), Add(u, p, q))
  {
    hide FMul, FAdd, FSub;
    var k := FMul(d, c);
    var m, n := FMul(FSub(q.x, q.z), FAdd(p.x, p.z)), FMul(FAdd(q.x, q.z), FSub(p.x, p.z));
    var s, t := FAdd(m, n), FSub(m, n);
    DistributeSub(d, q.x, q.z);
    DistributeAdd(d, q.x, q.z);
    DistributeSub(c, p.x, p.z);
    DistributeAdd(c, p.x, p.z);
    MulOfProducts(d, FSub(q.x, q.z), c, FAdd(p.x, p.z));
    MulOfProducts(d, FAdd(q.x, q.z), c, FSub(p.x, p.z));
    DistributeAdd(k, m, n);
    DistributeSub(k, m, n);
    MulOfProducts(k, s, k, s);
    MulOfProducts(k, t, k, t);
    MulUnder(FMul(k, k), u, FMul(t, t));
  }

  lemma UnitProduct(c: int, d: int)
    requires IsUnit(c) && IsUnit(d)
    ensures IsUnit(FMul(c, d))
  {
    hide FMul;
    var c' :| FMul(c, c') == 1;
    var d' :| FMul(d, d') == 1;
    MulOfProducts(c, d, c', d');
    MulOne(1);
    assert FMul(FMul(c, d), FMul(c', d')) == 1;
  }

  lemma SameTransitive(p: Point, q: Point, r: Point)
    requires Same(p, q) && Same(q, r)
    ensures Same(p, r)
  {
    hide FMul;
    var c :| IsUnit(c) && Scaled(c, q, p);
    var d :| IsUnit(d) && Scaled(d, r, q);
    UnitProduct(c, d);
    MulAssoc(c, d, r.x);
    MulAssoc(c, d, r.z);
    assert Scaled(FMul(c, d), r, p);
  }

  lemma SameDouble(p: Point, q: Point)
    requires Same(p, q)
    ensures Same(Double(p), Double(q))
  {
    hide FMul, Double;
    var c :| IsUnit(c) && Scaled(c, q, p);
    var cc := FMul(c, c);
    UnitProduct(c, c);
    UnitProduct(cc, cc);
    DoubleScaled(c, q);
    assert Scaled(FMul(cc, cc), Double(q), Double(p));
  }

  lemma SameAdd(u: int, p: Point, p': Point, q: Point, q': Point)
    requires Same(p, p') && Same(q, q')
    ensures Same(Add(u, p, q), Add(u, p', q'))
  {
    hide FMul, Add;
    var c :| IsUnit(c) && Scaled(c, p', p);
    var d :| IsUnit(d) && Scaled(d, q', q);
    var k := FMul(d, c);
    UnitProduct(d, c);
    UnitProduct(k, k);
    AddScaled(u, c, p', d, q');
    assert Scaled(FMul(k, k), Add(u, p', q'), Add(u, p, q));
  }

  // ----- families of multiples -----

  /** M(n) stands for the n-fold of the point u: doubling takes M(n) to M(2n), and
      adding M(n) and M(n+1), whose difference is M(1), gives M(2n+1). */
  ghost predicate Family(M: nat -> Point, u: int)
  {
    && Same(Point(1, 0), M(0))
    && Same(Point(u, 1), M(1))
    && forall n: nat :: FamilyAt(M, u, n)
  }

  ghost predicate FamilyAt(M: nat -> Point, u: int, n: nat)
  {
    Same(Double(M(n)), M(2 * n)) && Same(Add(u, M(n), M(n + 1)), M(2 * n + 1))
  }

  /** After the bits 254 to t the pair is M(k >> t), M((k >> t) + 1). */
  lemma {:induction false} PlainIsFamily(M: nat -> Point, u: int, k: nat, t: nat)
    requires Family(M, u) && k < Pow2(255) && t <= 255
    ensures var (r0, r1) := Plain(k, u, t); Same(r0, M(Shr(k, t))) && Same(r1, M(Shr(k, t) + 1))
    decreases 255 - t
  {
    hide Double, Add, Same, Pow2, Shr;
    if t == 255 {
      ShrAll(k, 255);
    } else {
      PlainIsFamily(M, u, k, t + 1);
      var (r0, r1) := Plain(k, u, t + 1);
      var n := Shr(k, t + 1);
      ShrStep(k, t);
      assert FamilyAt(M, u, n) && FamilyAt(M, u, n + 1);
      SameAdd(u, r0, M(n), r1, M(n + 1));
      SameTransitive(Add(u, r0, r1), Add(u, M(n), M(n + 1)), M(2 * n + 1));
      if Bit(k, t) == 0 {
        SameDouble(r0, M(n));
        SameTransitive(Double(r0), Double(M(n)), M(2 * n));
      } else {
        SameDouble(r1, M(n + 1));
        SameTransitive(Double(r1), Double(M(n + 1)), M(2 * (n + 1)));
        assert 2 * (n + 1) == Shr(k, t) + 1;
      }
    }
  }

  /** What the ladder without its last swap leaves in work[1], work[2]: M(k) for an
      even k, M(k+1) for an odd one. */
  lemma LadderIsFamily(M: nat -> Point, u: int, k: nat)
    requires Family(M, u) && k < Pow2(255)
    ensures var w := Rfc7748.Loop(k, u, 0).w; Same(Point(w.x2, w.z2), M(if k % 2 == 0 then k else k + 1))
  {
    hide Same, Pow2, Family;
    DelayedSwap(k, u, 0);
    PlainIsFamily(M, u, k, 0);
  }
}
