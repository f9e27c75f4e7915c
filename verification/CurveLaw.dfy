/** The ladder's step beside the chord and tangent law of the curve v^2 = u^3 + 486662 u^2 + u
    (section 4.1 of RFC 7748), modulo p and with denominators multiplied out. */
module CurveLaw {
  import opened Field25519
  import opened Ladder
  import Rfc7748

  const A := 486662

  // ----- identities of integers -----

  lemma SquareDifference(x: int, z: int)
    ensures (x + z) * (x + z) - (x - z) * (x - z) == 4 * x * z
    ensures ((x + z) * (x + z)) * ((x - z) * (x - z)) == (x * x - z * z) * (x * x - z * z)
  {
  }

  lemma CrossTerms(x: int, z: int, x': int, z': int)
    ensures (x' - z') * (x + z) + (x' + z') * (x - z) == 2 * (x * x' - z * z')
    ensures (x' - z') * (x + z) - (x' + z') * (x - z) == 2 * (x' * z - z' * x)
  {
  }

  lemma TangentIdentity(u: int, a: int)
    ensures (3 * u * u + 2 * a * u + 1) * (3 * u * u + 2 * a * u + 1) - 4 * (a + 2 * u) * (u * u * u + a * u * u + u)
      == (u * u - 1) * (u * u - 1)
  {
  }

  lemma ChordSum(u: int, v: int, a: int)
    ensures (u * u * u + a * u * u + u) + (v * v * v + a * v * v + v) - (a + u + v) * ((u - v) * (u - v))
      == 2 * (a * (u * v)) + (u + v) * (1 + u * v)
  {
  }

  lemma ThreeTerms(x: int, y: int, p: int, q: int)
    ensures (x + p + 1) * (y + q + 1) == x * y + x * q + x + p * y + p * q + p + y + q + 1
  {
  }

  lemma ChordProduct(u: int, v: int, a: int)
    ensures (u * u + a * u + 1) * (v * v + a * v + 1)
      == (u * v) * (u * v) + a * (u * v) * (u + v) + ((u + v) * (u + v) - 2 * (u * v)) + a * a * (u * v) + a * (u + v) + 1
  {
    ThreeTerms(u * u, v * v, a * u, a * v);
    ChordTerms(u, v, a);
  }

  lemma ChordTerms(u: int, v: int, a: int)
    ensures (u * u) * (v * v) == (u * v) * (u * v) && (a * u) * (a * v) == a * a * (u * v)
    ensures (u * u) * (a * v) + (a * u) * (v * v) == a * (u * v) * (u + v)
    ensures u * u + v * v == (u + v) * (u + v) - 2 * (u * v) && a * u + a * v == a * (u + v)
  {
  }

  lemma SixTerms(t: int, r: int, x: int, y: int, z: int, v: int, w: int)
    requires r == x + y + (z - 2 * t) + v + w + 1
    ensures t * r == t * x + t * y + t * z - 2 * (t * t) + t * v + t * w + t
  {
  }

  lemma TermsTimes(a: int, s: int, t: int, b: int)
    requires b == a * t
    ensures t * (a * t * s) == t * b * s && t * (a * a * t) == b * b && t * (a * s) == b * s
  {
  }

  lemma SumSquared(s: int, t: int, b: int, q: int)
    requires q == 2 * b + s * (1 + t)
    ensures q * q == 4 * (b * b) + 4 * (b * s) + 4 * (t * b * s) + s * s * ((1 + t) * (1 + t))
  {
  }

  lemma LastSquares(s: int, t: int)
    ensures s * s * ((1 + t) * (1 + t)) - 4 * (t * (t * t) + t * (s * s) - 2 * (t * t) + t) == (s * s - 4 * t) * ((t - 1) * (t - 1))
  {
  }

  lemma ChordSquares(a: int, s: int, t: int, q: int, r: int)
    requires q == 2 * (a * t) + s * (1 + t)
    requires r == t * t + a * t * s + (s * s - 2 * t) + a * a * t + a * s + 1
    ensures q * q - 4 * (t * r) == (s * s - 4 * t) * ((t - 1) * (t - 1))
  {
    var b := a * t;
    SixTerms(t, r, t * t, a * t * s, s * s, a * a * t, a * s);
    TermsTimes(a, s, t, b);
    SumSquared(s, t, b, q);
    LastSquares(s, t);
    Assemble(q * q, t * r, b * b, b * s, t * b * s, s * s * ((1 + t) * (1 + t)), t * (t * t), t * (s * s), t * t, t,
             (s * s - 4 * t) * ((t - 1) * (t - 1)));
  }

  lemma Assemble(qq: int, tr: int, bb: int, bs: int, tbs: int, sm: int, ttt: int, tss: int, tt: int, t: int, final: int)
    requires qq == 4 * bb + 4 * bs + 4 * tbs + sm && tr == ttt + tbs + tss - 2 * tt + bb + bs + t
    requires sm - 4 * (ttt + tss - 2 * tt + t) == final
    ensures qq - 4 * tr == final
  {
  }

  lemma Factored(u: int, a: int)
    ensures u * u * u + a * u * u + u == u * (u * u + a * u + 1)
  {
  }

  lemma Regrouped(u: int, v: int, x: int, y: int)
    ensures (u * x) * (v * y) == (u * v) * (x * y)
  {
  }

  lemma SumAndProduct(u: int, v: int)
    ensures (u - v) * (u - v) == (u + v) * (u + v) - 4 * (u * v)
  {
  }

  lemma ChordIdentity(u: int, v: int, a: int, c: int, d: int, e: int)
    requires c == u * u * u + a * u * u + u && d == v * v * v + a * v * v + v
    requires e == (a + u + v) * ((u - v) * (u - v))
    ensures (c + d - e) * (c + d - e) - 4 * (c * d) == ((u - v) * (u - v)) * ((u * v - 1) * (u * v - 1))
  {
    var x, y := u * u + a * u + 1, v * v + a * v + 1;
    ChordSum(u, v, a);
    ChordProduct(u, v, a);
    Factored(u, a);
    Factored(v, a);
    Regrouped(u, v, x, y);
    SumAndProduct(u, v);
    var t, s := u * v, u + v;
    Combine(a, s, t, c + d - e, x * y, c * d, (u - v) * (u - v));
  }

  lemma Combine(a: int, s: int, t: int, q: int, r: int, cd: int, w: int)
    requires q == 2 * (a * t) + s * (1 + t) && cd == t * r && w == s * s - 4 * t
    requires r == t * t + a * t * s + (s * s - 2 * t) + a * a * t + a * s + 1
    ensures q * q - 4 * cd == w * ((t - 1) * (t - 1))
  {
    ChordSquares(a, s, t, q, r);
  }

  // ----- modulo p -----

  predicate Eq(x: int, y: int)
  {
    x % P == y % P
  }

  lemma EqMul(x: int, x': int, y: int, y': int)
    requires Eq(x, x') && Eq(y, y')
    ensures Eq(x * y, x' * y')
  {
    hide FMul;
    MulResidues(x, y);
    MulResidues(x', y');
  }

  lemma EqSub(x: int, x': int, y: int, y': int)
    requires Eq(x, x') && Eq(y, y')
    ensures Eq(x - y, x' - y')
  {
    hide FSub;
    SubResidues(x, y);
    SubResidues(x', y');
  }

  lemma EqAdd(x: int, x': int, y: int, y': int)
    requires Eq(x, x') && Eq(y, y')
    ensures Eq(x + y, x' + y')
  {
    hide FAdd;
    AddResidues(x, y);
    AddResidues(x', y');
  }

  lemma EqResidue(x: int)
    ensures Eq(x % P, x)
  {
  }

  lemma ProductIs(x: int, y: int)
    ensures Eq(FMul(x, y), x * y)
  {
  }

  lemma SumIs(x: int, y: int)
    ensures Eq(FAdd(x, y), x + y) && Eq(FSub(x, y), x - y)
  {
  }

  lemma InRange(x: int, y: int)
    ensures 0 <= FMul(x, y) < P && 0 <= FAdd(x, y) < P && 0 <= FSub(x, y) < P
  {
  }

  lemma EqIs(x: int, y: int)
    requires Eq(x, y) && 0 <= x < P && 0 <= y < P
    ensures x == y
  {
  }

  lemma EqReflexive(x: int)
    ensures Eq(x, x)
  {
  }

  lemma EqJoin(x: int, y: int, z: int)
    requires Eq(x, y) && Eq(z, y)
    ensures Eq(x, z)
  {
  }

  lemma EqChain(x: int, y: int, z: int)
    requires Eq(x, y) && Eq(y, z)
    ensures Eq(x, z)
  {
  }

  /** A product, sum or difference in the field stands for that of the integers which its operands stand for. */
  lemma Times(x: int, x': int, y: int, y': int)
    requires Eq(x, x') && Eq(y, y')
    ensures Eq(FMul(x, y), x' * y')
  {
    hide FMul, Eq;
    ProductIs(x, y);
    EqMul(x, x', y, y');
    EqChain(FMul(x, y), x * y, x' * y');
  }

  lemma Plus(x: int, x': int, y: int, y': int)
    requires Eq(x, x') && Eq(y, y')
    ensures Eq(FAdd(x, y), x' + y') && Eq(FSub(x, y), x' - y')
  {
    hide FAdd, FSub, Eq;
    SumIs(x, y);
    EqAdd(x, x', y, y');
    EqSub(x, x', y, y');
    EqChain(FAdd(x, y), x + y, x' + y');
    EqChain(FSub(x, y), x - y, x' - y');
  }

  lemma IsResidue(x: int, n: int)
    requires Eq(x, n) && 0 <= x < P
    ensures x == n % P
  {
  }

  /** u^3 + A u^2 + u, the right side of the curve. */
  function Cubic(u: int): int
  {
    FMul(u, FAdd(FAdd(FMul(u, u), FMul(A, u)), 1))
  }

  predicate OnCurve(u: int, v: int)
  {
    FMul(v, v) == Cubic(u)
  }

  /** u is the coordinate of the difference of two points by the chord law, with its denominator w multiplied out. */
  predicate IsDifference(u: int, u1: int, v1: int, u2: int, v2: int, w: int, e: int)
  {
    w == FMul(FSub(u1, u2), FSub(u1, u2)) && e == FMul(FAdd(A, FAdd(u1, u2)), w)
    && FMul(u, w) == FSub(FMul(FAdd(v1, v2), FAdd(v1, v2)), e)
  }

  // ----- doubling -----

  ghost method DoubleParts(x: int, z: int)
    ensures var s, d := x + z, x - z;
      var e := s * s - d * d;
      Double(Point(x, z)) == Point(((s * s) * (d * d)) % P, (e * (s * s + Rfc7748.A24 * e)) % P)
  {
    hide FMul, FAdd, FSub;
    var s, d := x + z, x - z;
    SumsAre(x, z);
    MulResidues(s, s);
    MulResidues(d, d);
    MulResidues(s * s, d * d);
    SubResidues(s * s, d * d);
    var e := s * s - d * d;
    MulResidues(Rfc7748.A24, e);
    AddResidues(s * s, Rfc7748.A24 * e);
    MulResidues(e, s * s + Rfc7748.A24 * e);
  }

  lemma SumsAre(x: int, z: int)
    ensures FAdd(x, z) == (x + z) % P && FSub(x, z) == (x - z) % P && Rfc7748.A24 % P == Rfc7748.A24
  {
  }

  /** The constant of the ladder is (A - 2) / 4 of the curve. */
  lemma ConstantOfCurve(x: int, z: int)
    ensures (x + z) * (x + z) + Rfc7748.A24 * (4 * x * z) == x * x + A * (x * z) + z * z && 4 * x * z == 4 * (x * z)
  {
  }

  /** Doubling x : z on the curve: (x^2 - z^2)^2 : 4xz (x^2 + 486662 xz + z^2). */
  ghost method DoubleIsCurve(x: int, z: int)
    ensures var r, d, xz := Double(Point(x, z)), FSub(FMul(x, x), FMul(z, z)), FMul(x, z);
      r.x == FMul(d, d) && r.z == FMul(FMul(4, xz), FAdd(FAdd(FMul(x, x), FMul(486662, xz)), FMul(z, z)))
  {
    hide FMul, FAdd, FSub, Eq, Double;
    DoubleParts(x, z);
    SquareDifference(x, z);
    ConstantOfCurve(x, z);
    var xx, zz, xz := FMul(x, x), FMul(z, z), FMul(x, z);
    EqReflexive(x);
    EqReflexive(z);
    EqReflexive(4);
    EqReflexive(A);
    Times(x, x, x, x);
    Times(z, z, z, z);
    Times(x, x, z, z);
    Plus(xx, x * x, zz, z * z);
    var d := FSub(xx, zz);
    Times(d, x * x - z * z, d, x * x - z * z);
    InRange(d, d);
    IsResidue(FMul(d, d), (x * x - z * z) * (x * x - z * z));
    Times(4, 4, xz, x * z);
    Times(A, A, xz, x * z);
    Plus(xx, x * x, FMul(A, xz), A * (x * z));
    var q := FAdd(xx, FMul(A, xz));
    Plus(q, x * x + A * (x * z), zz, z * z);
    Times(FMul(4, xz), 4 * (x * z), FAdd(q, zz), x * x + A * (x * z) + z * z);
    InRange(FMul(4, xz), FAdd(q, zz));
    IsResidue(FMul(FMul(4, xz), FAdd(q, zz)), (4 * (x * z)) * (x * x + A * (x * z) + z * z));
  }

  lemma TangentSlope(u: int, n: int, c: int, f: int)
    requires n == 3 * (u * u) + 2 * (A * u) + 1 && c == u * (u * u + A * u + 1) && f == (u * u - 1) * (u * u - 1)
    ensures n * n - (4 * c) * (A + (u + u)) == f
  {
    TangentIdentity(u, A);
    SameSlope(u, n, c);
  }

  lemma SameSlope(u: int, n: int, c: int)
    requires n == 3 * (u * u) + 2 * (A * u) + 1 && c == u * (u * u + A * u + 1)
    ensures n == 3 * u * u + 2 * A * u + 1
    ensures (4 * c) * (A + (u + u)) == 4 * (A + 2 * u) * (u * u * u + A * u * u + u)
  {
  }

  /** Evaluates the right side of the curve. */
  ghost method CubicIs(u: int, uu: int, q: int, c: int)
    requires uu == u * u && q == uu + A * u + 1 && c == u * q
    ensures Eq(Cubic(u), c)
  {
    hide FMul, FAdd, Eq;
    EqReflexive(u);
    EqReflexive(A);
    EqReflexive(1);
    Times(u, u, u, u);
    Times(A, A, u, u);
    Plus(FMul(u, u), uu, FMul(A, u), A * u);
    Plus(FAdd(FMul(u, u), FMul(A, u)), uu + A * u, 1, 1);
    Times(u, u, FAdd(FAdd(FMul(u, u), FMul(A, u)), 1), q);
  }

  /** For a point (u, v) of the curve, the doubled point has the coordinate that the tangent law gives, the square of
      the slope n / 2v less A + 2u, with the denominators multiplied out. */
  ghost method TangentLaw(u: int, v: int)
    ensures var r, n, vv := Double(Point(u, 1)), FAdd(FAdd(FMul(3, FMul(u, u)), FMul(2, FMul(A, u))), 1), FMul(v, v);
      OnCurve(u, v) ==> FMul(FSub(FMul(n, n), FMul(FMul(4, vv), FAdd(A, FAdd(u, u)))), r.z) == FMul(FMul(4, vv), r.x)
  {
    hide FMul, FAdd, FSub, Eq, Double, Cubic;
    if OnCurve(u, v) {
      var uu, au := u * u, A * u;
      var c, f, N := u * (uu + au + 1), (uu - 1) * (uu - 1), 3 * uu + 2 * au + 1;
      var r, vv := Double(Point(u, 1)), FMul(v, v);
      DoubleParts(u, 1);
      SquareDifference(u, 1);
      ConstantOfCurve(u, 1);
      AtOne(u, c);
      EqResidue(f);
      EqResidue(4 * c);
      CubicIs(u, uu, uu + au + 1, c);
      TangentSlope(u, N, c, f);
      EqReflexive(u);
      EqReflexive(A);
      EqReflexive(1);
      EqReflexive(2);
      EqReflexive(3);
      EqReflexive(4);
      Times(u, u, u, u);
      Times(A, A, u, u);
      Times(3, 3, FMul(u, u), uu);
      Times(2, 2, FMul(A, u), au);
      Plus(FMul(3, FMul(u, u)), 3 * uu, FMul(2, FMul(A, u)), 2 * au);
      var m := FAdd(FMul(3, FMul(u, u)), FMul(2, FMul(A, u)));
      Plus(m, 3 * uu + 2 * au, 1, 1);
      var n := FAdd(m, 1);
      Times(n, N, n, N);
      Times(4, 4, vv, c);
      Plus(u, u, u, u);
      Plus(A, A, FAdd(u, u), u + u);
      Times(FMul(4, vv), 4 * c, FAdd(A, FAdd(u, u)), A + (u + u));
      Plus(FMul(n, n), N * N, FMul(FMul(4, vv), FAdd(A, FAdd(u, u))), (4 * c) * (A + (u + u)));
      var l := FSub(FMul(n, n), FMul(FMul(4, vv), FAdd(A, FAdd(u, u))));
      Times(l, f, r.z, 4 * c);
      Times(FMul(4, vv), 4 * c, r.x, f);
      Commutes(f, 4 * c);
      EqJoin(FMul(l, r.z), f * (4 * c), FMul(FMul(4, vv), r.x));
      InRange(l, r.z);
      InRange(FMul(4, vv), r.x);
      EqIs(FMul(l, r.z), FMul(FMul(4, vv), r.x));
    }
  }

  lemma AtOne(u: int, c: int)
    requires c == u * (u * u + A * u + 1)
    ensures (u * u - 1 * 1) * (u * u - 1 * 1) == (u * u - 1) * (u * u - 1)
    ensures (4 * (u * 1)) * (u * u + A * (u * 1) + 1 * 1) == 4 * c
  {
  }

  lemma Commutes(x: int, y: int)
    ensures x * y == y * x
  {
  }

  // ----- adding -----

  /** Adding two points whose difference has the coordinate u: 4 (xx' - zz')^2 : 4u (x'z - z'x)^2. */
  ghost method AddIsCurve(u: int, x: int, z: int, x': int, z': int)
    ensures var r, m, n := Add(u, Point(x, z), Point(x', z')), FSub(FMul(x, x'), FMul(z, z')), FSub(FMul(x', z), FMul(z', x));
      r.x == FMul(FMul(2, m), FMul(2, m)) && r.z == FMul(u, FMul(FMul(2, n), FMul(2, n)))
  {
    hide FMul, FAdd, FSub, Eq;
    EqReflexive(x);
    EqReflexive(z);
    EqReflexive(x');
    EqReflexive(z');
    EqReflexive(2);
    Plus(x', x', z', z');
    Plus(x, x, z, z);
    var a, b := FMul(FSub(x', z'), FAdd(x, z)), FMul(FAdd(x', z'), FSub(x, z));
    Times(FSub(x', z'), x' - z', FAdd(x, z), x + z);
    Times(FAdd(x', z'), x' + z', FSub(x, z), x - z);
    Plus(a, (x' - z') * (x + z), b, (x' + z') * (x - z));
    CrossTerms(x, z, x', z');
    Times(x, x, x', x');
    Times(z, z, z', z');
    Times(x', x', z, z);
    Times(z', z', x, x);
    Plus(FMul(x, x'), x * x', FMul(z, z'), z * z');
    Plus(FMul(x', z), x' * z, FMul(z', x), z' * x);
    var m, n := FSub(FMul(x, x'), FMul(z, z')), FSub(FMul(x', z), FMul(z', x));
    Times(2, 2, m, x * x' - z * z');
    Times(2, 2, n, x' * z - z' * x);
    EqJoin(FAdd(a, b), 2 * (x * x' - z * z'), FMul(2, m));
    EqJoin(FSub(a, b), 2 * (x' * z - z' * x), FMul(2, n));
    InRange(a, b);
    InRange(2, m);
    InRange(2, n);
    EqIs(FAdd(a, b), FMul(2, m));
    EqIs(FSub(a, b), FMul(2, n));
  }

  lemma SumTimesDifference(v: int, v': int, e: int, a: int, b: int)
    requires a == v * v && b == v' * v'
    ensures ((v + v') * (v + v') - e) * ((v' - v) * (v' - v) - e) == (a + b - e) * (a + b - e) - 4 * (a * b)
  {
  }

  lemma FourTimes(x: int, y: int)
    ensures (4 * x) * y == 4 * (x * y)
  {
  }

  lemma SumAtOne(u: int, t: int, n: int, w: int)
    requires w == n * n
    ensures (2 * t) * (2 * t) == 4 * (t * t) && u * ((2 * n) * (2 * n)) == 4 * (u * w)
  {
  }

  /** The sum of (u1 : 1) and (u2 : 1). */
  ghost method AffineSum(u: int, u1: int, u2: int)
    ensures var r, t, w := Add(u, Point(u1, 1), Point(u2, 1)), FSub(FMul(u1, u2), 1), FMul(FSub(u1, u2), FSub(u1, u2));
      r.x == FMul(4, FMul(t, t)) && r.z == FMul(4, FMul(u, w))
  {
    hide Add, FMul, FSub, Eq;
    AddIsCurve(u, u1, 1, u2, 1);
    EqReflexive(u);
    EqReflexive(u1);
    EqReflexive(u2);
    EqReflexive(1);
    EqReflexive(2);
    EqReflexive(4);
    Times(u1, u1, u2, u2);
    Times(1, 1, 1, 1);
    Times(u2, u2, 1, 1);
    Times(1, 1, u1, u1);
    Plus(FMul(u1, u2), u1 * u2, FMul(1, 1), 1 * 1);
    Plus(FMul(u2, 1), u2 * 1, FMul(1, u1), 1 * u1);
    Plus(FMul(u1, u2), u1 * u2, 1, 1);
    Plus(u1, u1, u2, u2);
    var m, n := FSub(FMul(u1, u2), FMul(1, 1)), FSub(FMul(u2, 1), FMul(1, u1));
    var t, w := FSub(FMul(u1, u2), 1), FMul(FSub(u1, u2), FSub(u1, u2));
    var T, W := u1 * u2 - 1, (u1 - u2) * (u1 - u2);
    Times(2, 2, m, T);
    Times(2, 2, n, u2 - u1);
    Times(FMul(2, m), 2 * T, FMul(2, m), 2 * T);
    Times(FMul(2, n), 2 * (u2 - u1), FMul(2, n), 2 * (u2 - u1));
    var nn := FMul(FMul(2, n), FMul(2, n));
    Times(u, u, nn, (2 * (u2 - u1)) * (2 * (u2 - u1)));
    SquareNegated(u2 - u1, u1 - u2);
    SumAtOne(u, T, u2 - u1, W);
    Times(t, T, t, T);
    Times(4, 4, FMul(t, t), T * T);
    Times(FSub(u1, u2), u1 - u2, FSub(u1, u2), u1 - u2);
    Times(u, u, w, W);
    Times(4, 4, FMul(u, w), u * W);
    EqJoin(FMul(FMul(2, m), FMul(2, m)), 4 * (T * T), FMul(4, FMul(t, t)));
    EqJoin(FMul(u, nn), 4 * (u * W), FMul(4, FMul(u, w)));
    InRange(FMul(2, m), FMul(2, m));
    InRange(u, nn);
    InRange(4, FMul(t, t));
    InRange(4, FMul(u, w));
    EqIs(FMul(FMul(2, m), FMul(2, m)), FMul(4, FMul(t, t)));
    EqIs(FMul(u, nn), FMul(4, FMul(u, w)));
  }

  /** For two points of the curve, and u the coordinate of their difference by the chord law, the differential addition
      gives that of their sum by the chord law: w = (u1 - u2)^2 is the common denominator, and e = (A + u1 + u2) w is
      what the law takes off the squared rise of the chord. */
  ghost method ChordLaw(u: int, u1: int, v1: int, u2: int, v2: int, w: int, e: int)
    ensures OnCurve(u1, v1) && OnCurve(u2, v2) && IsDifference(u, u1, v1, u2, v2, w, e) ==>
      var r := Add(u, Point(u1, 1), Point(u2, 1)); FMul(r.x, w) == FMul(r.z, FSub(FMul(FSub(v2, v1), FSub(v2, v1)), e))
  {
    hide FMul, FAdd, FSub, Eq, Add, Cubic;
    if OnCurve(u1, v1) && OnCurve(u2, v2) && IsDifference(u, u1, v1, u2, v2, w, e) {
      var c, d := u1 * (u1 * u1 + A * u1 + 1), u2 * (u2 * u2 + A * u2 + 1);
      var W, f, r := (u1 - u2) * (u1 - u2), (u1 * u2 - 1) * (u1 * u2 - 1), Add(u, Point(u1, 1), Point(u2, 1));
      var E := (A + u1 + u2) * W;
      var plus, minus := (v1 + v2) * (v1 + v2) - E, (v2 - v1) * (v2 - v1) - E;
      AffineSum(u, u1, u2);
      CubicIs(u1, u1 * u1, u1 * u1 + A * u1 + 1, c);
      CubicIs(u2, u2 * u2, u2 * u2 + A * u2 + 1, d);
      SquareIs(v1, c);
      SquareIs(v2, d);
      Factored(u1, A);
      Factored(u2, A);
      ChordIdentity(u1, u2, A, c, d, E);
      EqReflexive(4);
      var a, b := v1 * v1, v2 * v2;
      SumTimesDifference(v1, v2, E, a, b);
      EqReflexive(E);
      EqAdd(a, c, b, d);
      EqSub(a + b, c + d, E, E);
      EqMul(a + b - E, c + d - E, a + b - E, c + d - E);
      EqMul(a, c, b, d);
      EqMul(4, 4, a * b, c * d);
      EqSub((a + b - E) * (a + b - E), (c + d - E) * (c + d - E), 4 * (a * b), 4 * (c * d));
      EqReflexive(u);
      EqReflexive(u1);
      EqReflexive(u2);
      EqReflexive(v1);
      EqReflexive(v2);
      EqReflexive(A);
      EqReflexive(4);
      EqReflexive(1);
      Plus(u1, u1, u2, u2);
      Times(u1, u1, u2, u2);
      Plus(FMul(u1, u2), u1 * u2, 1, 1);
      var t := FSub(FMul(u1, u2), 1);
      Times(t, u1 * u2 - 1, t, u1 * u2 - 1);
      Times(4, 4, FMul(t, t), f);
      Plus(v1, v1, v2, v2);
      Plus(v2, v2, v1, v1);
      Times(FSub(u1, u2), u1 - u2, FSub(u1, u2), u1 - u2);
      Plus(A, A, FAdd(u1, u2), u1 + u2);
      Times(FAdd(A, FAdd(u1, u2)), A + (u1 + u2), w, W);
      Times(FAdd(v1, v2), v1 + v2, FAdd(v1, v2), v1 + v2);
      Times(FSub(v2, v1), v2 - v1, FSub(v2, v1), v2 - v1);
      Plus(FMul(FAdd(v1, v2), FAdd(v1, v2)), (v1 + v2) * (v1 + v2), e, E);
      Plus(FMul(FSub(v2, v1), FSub(v2, v1)), (v2 - v1) * (v2 - v1), e, E);
      Times(4, 4, FMul(u, w), plus);
      var right := FSub(FMul(FSub(v2, v1), FSub(v2, v1)), e);
      Times(r.z, 4 * plus, right, minus);
      FourTimes(plus, minus);
      EqMul(4, 4, plus * minus, W * f);
      EqChain(FMul(r.z, right), 4 * (plus * minus), 4 * (W * f));
      Times(r.x, 4 * f, w, W);
      FourTimes(f, W);
      Commutes(f, W);
      EqJoin(FMul(r.x, w), 4 * (W * f), FMul(r.z, right));
      InRange(r.x, w);
      InRange(r.z, right);
      EqIs(FMul(r.x, w), FMul(r.z, right));
    }
  }

  lemma SquareIs(v: int, c: int)
    requires Eq(FMul(v, v), c)
    ensures Eq(v * v, c)
  {
    hide FMul, Eq;
    ProductIs(v, v);
    EqSwap(FMul(v, v), v * v);
    EqChain(v * v, FMul(v, v), c);
  }

  lemma EqSwap(x: int, y: int)
    requires Eq(x, y)
    ensures Eq(y, x)
  {
  }
}
