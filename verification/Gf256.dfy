/** The field of 256 elements of section 4 of FIPS 197, and the table-free inverse
    of aes256.cpp through logarithms to the base 3. */
module Gf256 {

  /** The sum of section 4.1. It has a name so that proofs can hide what it is. */
  function Plus(x: bv8, y: bv8): bv8
  {
    x ^ y
  }

  /** Multiplication by x, {02}: rj_xtime, and the macro F. */
  function XTime(x: bv8): bv8
  {
    if x & 0x80 != 0 then (x << 1) ^ 0x1b else x << 1
  }

  function Odd(y: bv8): bool
  {
    y & 1 != 0
  }

  function Half(y: bv8): bv8
  {
    y >> 1
  }

  function Part(x: bv8, bit: bool): bv8
  {
    if bit then x else 0
  }

  /** The product of section 4.2 with the n low bits of y: x where bit 0 is set, and
      {02} times the product with the bits above it. */
  function MulBits(x: bv8, y: bv8, n: nat): bv8
  {
    if n == 0 then 0 else Plus(Part(x, Odd(y)), XTime(MulBits(x, Half(y), n - 1)))
  }

  function Mul(x: bv8, y: bv8): bv8
  {
    MulBits(x, y, 8)
  }

  // ----- linearity -----

  /** XTime without a branch: 0x1b is 1 + 2 + 8 + 16. */
  function Reduced(x: bv8): bv8
  {
    var t := x >> 7;
    (x << 1) ^ t ^ (t << 1) ^ (t << 3) ^ (t << 4)
  }

  lemma XTimeIsReduced(x: bv8)
    ensures XTime(x) == Reduced(x)
  {
  }

  lemma ReducedLinear(x: bv8, y: bv8)
    ensures Reduced(Plus(x, y)) == Plus(Reduced(x), Reduced(y))
  {
  }

  lemma XTimeLinear(x: bv8, y: bv8)
    ensures XTime(Plus(x, y)) == Plus(XTime(x), XTime(y))
  {
    hide XTime, Reduced, Plus;
    XTimeIsReduced(x);
    XTimeIsReduced(y);
    XTimeIsReduced(Plus(x, y));
    ReducedLinear(x, y);
  }

  // Sums are compared bit by bit: with Plus hidden, a law of sums is a law of
  // exclusive ors of booleans.

  predicate IsMask(m: bv8)
  {
    m == 1 || m == 2 || m == 4 || m == 8 || m == 16 || m == 32 || m == 64 || m == 128
  }

  function Has(x: bv8, m: bv8): bool
  {
    x & m != 0
  }

  lemma HasPlus(m: bv8)
    requires IsMask(m)
    ensures forall x, y {:trigger Has(Plus(x, y), m)} :: Has(Plus(x, y), m) == (Has(x, m) != Has(y, m))
  {
    forall x, y
      ensures Has(Plus(x, y), m) == (Has(x, m) != Has(y, m))
    {
      HasSum(x, y, m);
    }
  }

  lemma HasSum(x: bv8, y: bv8, m: bv8)
    requires IsMask(m)
    ensures Has(Plus(x, y), m) == (Has(x, m) != Has(y, m))
  {
    if m == 1 {} else if m == 2 {} else if m == 4 {} else if m == 8 {}
    else if m == 16 {} else if m == 32 {} else if m == 64 {} else {}
  }

  lemma SameBits(x: bv8, y: bv8)
    requires forall m | IsMask(m) :: Has(x, m) == Has(y, m)
    ensures x == y
  {
    assert Has(x, 1) == Has(y, 1) && Has(x, 2) == Has(y, 2) && Has(x, 4) == Has(y, 4) && Has(x, 8) == Has(y, 8);
    assert Has(x, 16) == Has(y, 16) && Has(x, 32) == Has(y, 32) && Has(x, 64) == Has(y, 64) && Has(x, 128) == Has(y, 128);
  }

  lemma Plus4(a: bv8, b: bv8, c: bv8, d: bv8)
    ensures Plus(Plus(a, b), Plus(c, d)) == Plus(Plus(a, c), Plus(b, d))
  {
    hide Plus, Has;
    var l, r := Plus(Plus(a, b), Plus(c, d)), Plus(Plus(a, c), Plus(b, d));
    forall m | IsMask(m)
      ensures Has(l, m) == Has(r, m)
    {
      HasPlus(m);
    }
    SameBits(l, r);
  }

  lemma PartLinear(x: bv8, y: bv8, bit: bool)
    ensures Part(Plus(x, y), bit) == Plus(Part(x, bit), Part(y, bit))
  {
  }

  lemma XTimePart(x: bv8, bit: bool)
    ensures XTime(Part(x, bit)) == Part(XTime(x), bit)
  {
  }

  lemma Zeros()
    ensures XTime(0) == 0 && Plus(0, 0) == 0
  {
  }

  /** The product is linear in its first factor. */
  lemma {:induction false} MulLinear(x: bv8, z: bv8, y: bv8, n: nat)
    ensures MulBits(Plus(x, z), y, n) == Plus(MulBits(x, y, n), MulBits(z, y, n))
    decreases n
  {
    hide Plus, XTime, Part, Odd, Half;
    if n == 0 {
      Zeros();
    } else {
      var p, q := MulBits(x, Half(y), n - 1), MulBits(z, Half(y), n - 1);
      MulLinear(x, z, Half(y), n - 1);
      XTimeLinear(p, q);
      PartLinear(x, z, Odd(y));
      Plus4(Part(x, Odd(y)), Part(z, Odd(y)), XTime(p), XTime(q));
    }
  }

  lemma {:induction false} MulXTime(x: bv8, y: bv8, n: nat)
    ensures MulBits(XTime(x), y, n) == XTime(MulBits(x, y, n))
    decreases n
  {
    hide Plus, XTime, Part, Odd, Half;
    if n == 0 {
      Zeros();
    } else {
      MulXTime(x, Half(y), n - 1);
      XTimePart(x, Odd(y));
      XTimeLinear(Part(x, Odd(y)), XTime(MulBits(x, Half(y), n - 1)));
    }
  }

  /** The product with n bits of y, n <= 8, as a nested sum. */
  lemma MulUnrolled(x: bv8, y: bv8)
    ensures var y1 := Half(y); var y2 := Half(y1); var y3 := Half(y2); var y4 := Half(y3);
            var y5 := Half(y4); var y6 := Half(y5); var y7 := Half(y6);
            Mul(x, y) == Plus(Part(x, Odd(y)), XTime(Plus(Part(x, Odd(y1)), XTime(Plus(Part(x, Odd(y2)), XTime(
              Plus(Part(x, Odd(y3)), XTime(Plus(Part(x, Odd(y4)), XTime(Plus(Part(x, Odd(y5)), XTime(
              Plus(Part(x, Odd(y6)), XTime(Plus(Part(x, Odd(y7)), XTime(0))))))))))))))))
  {
    hide Plus, XTime, Part, Odd, Half;
    var y1 := Half(y);
    var y2 := Half(y1);
    var y3 := Half(y2);
    var y4 := Half(y3);
    var y5 := Half(y4);
    var y6 := Half(y5);
    var y7 := Half(y6);
    assert MulBits(x, y7, 1) == Plus(Part(x, Odd(y7)), XTime(MulBits(x, Half(y7), 0)));
    assert MulBits(x, y5, 3) == Plus(Part(x, Odd(y5)), XTime(MulBits(x, y6, 2)));
    assert MulBits(x, y3, 5) == Plus(Part(x, Odd(y3)), XTime(MulBits(x, y4, 4)));
    assert MulBits(x, y1, 7) == Plus(Part(x, Odd(y1)), XTime(MulBits(x, y2, 6)));
  }

  lemma MulOne(y: bv8)
    ensures Mul(1, y) == y
  {
    hide Mul;
    MulUnrolled(1, y);
  }

  // ----- powers of 3 -----

  /** One turn of the loops of gf_alog and gf_log: {03} times x. */
  function Times3(x: bv8): bv8
  {
    Plus(XTime(x), x)
  }

  function Alog(n: nat): bv8
  {
    if n == 0 then 1 else Times3(Alog(n - 1))
  }

  lemma Times3Injective(x: bv8, y: bv8)
    requires Times3(x) == Times3(y)
    ensures x == y
  {
  }

  function Times3Five(x: bv8): bv8
  {
    Times3(Times3(Times3(Times3(Times3(x)))))
  }

  function Times3Fifteen(x: bv8): bv8
  {
    Times3Five(Times3Five(Times3Five(x)))
  }

  predicate InFive(x: bv8, a: bv8)
  {
    var b := Times3(a);
    var c := Times3(b);
    var d := Times3(c);
    x == a || x == b || x == c || x == d || x == Times3(d)
  }

  predicate InFifteen(x: bv8, a: bv8)
  {
    InFive(x, a) || InFive(x, Times3Five(a)) || InFive(x, Times3Five(Times3Five(a)))
  }

  lemma AlogFive(n: nat)
    ensures Alog(n + 5) == Times3Five(Alog(n))
  {
    hide Times3;
    assert Alog(n + 1) == Times3(Alog(n));
    assert Alog(n + 2) == Times3(Alog(n + 1));
    assert Alog(n + 3) == Times3(Alog(n + 2));
    assert Alog(n + 4) == Times3(Alog(n + 3));
  }

  lemma AlogFifteen(n: nat)
    ensures Alog(n + 15) == Times3Fifteen(Alog(n))
  {
    hide Times3Five;
    AlogFive(n);
    AlogFive(n + 5);
    AlogFive(n + 10);
  }

  /** Every nonzero byte is within 14 turns of one of these powers 3^(15q). */
  const STEPS: seq<bv8> := [0x01, 0x35, 0x66, 0xab, 0xd3, 0x08, 0xb3, 0x1d, 0x2f,
                             0xc2, 0x40, 0xef, 0xe8, 0x63, 0x4a, 0x36, 0x39]

  lemma StepsAre()
    ensures |STEPS| == 17
    ensures STEPS[0] == 0x01 && STEPS[1] == 0x35 && STEPS[2] == 0x66 && STEPS[3] == 0xab && STEPS[4] == 0xd3
         && STEPS[5] == 0x08 && STEPS[6] == 0xb3 && STEPS[7] == 0x1d && STEPS[8] == 0x2f && STEPS[9] == 0xc2
         && STEPS[10] == 0x40 && STEPS[11] == 0xef && STEPS[12] == 0xe8 && STEPS[13] == 0x63 && STEPS[14] == 0x4a
         && STEPS[15] == 0x36 && STEPS[16] == 0x39
  {
  }

  lemma Covered(x: bv8)
    requires x != 0
    ensures exists q | 0 <= q < 17 :: InFifteen(x, STEPS[q])
  {
    hide InFifteen;
    CoveredBySteps(x);
    StepsAre();
  }

  lemma CoveredBySteps(x: bv8)
    requires x != 0
    ensures InFifteen(x, 0x01) || InFifteen(x, 0x35) || InFifteen(x, 0x66) || InFifteen(x, 0xab)
         || InFifteen(x, 0xd3) || InFifteen(x, 0x08) || InFifteen(x, 0xb3) || InFifteen(x, 0x1d)
         || InFifteen(x, 0x2f) || InFifteen(x, 0xc2) || InFifteen(x, 0x40) || InFifteen(x, 0xef)
         || InFifteen(x, 0xe8) || InFifteen(x, 0x63) || InFifteen(x, 0x4a) || InFifteen(x, 0x36)
         || InFifteen(x, 0x39)
  {
  }

  // one lemma a step, each a small computation of its own

  lemma Step0()
    ensures Times3Fifteen(0x01) == 0x35
  {
  }

  lemma Step1()
    ensures Times3Fifteen(0x35) == 0x66
  {
  }

  lemma Step2()
    ensures Times3Fifteen(0x66) == 0xab
  {
  }

  lemma Step3()
    ensures Times3Fifteen(0xab) == 0xd3
  {
  }

  lemma Step4()
    ensures Times3Fifteen(0xd3) == 0x08
  {
  }

  lemma Step5()
    ensures Times3Fifteen(0x08) == 0xb3
  {
  }

  lemma Step6()
    ensures Times3Fifteen(0xb3) == 0x1d
  {
  }

  lemma Step7()
    ensures Times3Fifteen(0x1d) == 0x2f
  {
  }

  lemma Step8()
    ensures Times3Fifteen(0x2f) == 0xc2
  {
  }

  lemma Step9()
    ensures Times3Fifteen(0xc2) == 0x40
  {
  }

  lemma Step10()
    ensures Times3Fifteen(0x40) == 0xef
  {
  }

  lemma Step11()
    ensures Times3Fifteen(0xef) == 0xe8
  {
  }

  lemma Step12()
    ensures Times3Fifteen(0xe8) == 0x63
  {
  }

  lemma Step13()
    ensures Times3Fifteen(0x63) == 0x4a
  {
  }

  lemma Step14()
    ensures Times3Fifteen(0x4a) == 0x36
  {
  }

  lemma Step15()
    ensures Times3Fifteen(0x36) == 0x39
  {
  }

  lemma Step16()
    ensures Times3Fifteen(0x39) == 0x01
  {
  }

  lemma MulTimes3(x: bv8, y: bv8)
    ensures Mul(Times3(x), y) == Times3(Mul(x, y))
  {
    hide Plus, XTime, MulBits;
    MulLinear(XTime(x), x, y, 8);
    MulXTime(x, y, 8);
  }

  /** Logarithms add where powers are multiplied. */
  lemma {:induction false} AlogAdds(m: nat, n: nat)
    ensures Mul(Alog(m), Alog(n)) == Alog(m + n)
  {
    hide Mul, Times3;
    if m == 0 {
      MulOne(Alog(n));
    } else {
      AlogAdds(m - 1, n);
      MulTimes3(Alog(m - 1), Alog(n));
    }
  }

  lemma {:induction false} AlogSteps(q: nat)
    requires q < 17
    ensures Alog(15 * q) == STEPS[q]
  {
    hide Times3Fifteen, STEPS;
    StepsAre();
    if q > 0 {
      AlogSteps(q - 1);
      AlogFifteen(15 * (q - 1));
      StepAfter(q - 1);
    }
  }

  lemma StepAfter(q: nat)
    requires q < 17
    ensures Times3Fifteen(STEPS[q]) == if q == 16 then 1 else STEPS[q + 1]
  {
    hide Times3Fifteen, STEPS;
    StepsAre();
    match q
    case 0 => Step0();
    case 1 => Step1();
    case 2 => Step2();
    case 3 => Step3();
    case 4 => Step4();
    case 5 => Step5();
    case 6 => Step6();
    case 7 => Step7();
    case 8 => Step8();
    case 9 => Step9();
    case 10 => Step10();
    case 11 => Step11();
    case 12 => Step12();
    case 13 => Step13();
    case 14 => Step14();
    case 15 => Step15();
    case 16 => Step16();
  }

  /** 3 has an order that divides 255. */
  lemma AlogOrder()
    ensures Alog(255) == 1
  {
    hide Times3Fifteen, STEPS;
    AlogSteps(16);
    AlogFifteen(240);
    StepAfter(16);
  }

  // ----- logarithms and inverses -----

  lemma LogInFive(n: nat, x: bv8)
    requires InFive(x, Alog(n))
    ensures exists l | n <= l < n + 5 :: Alog(l) == x
  {
    hide Times3;
    assert Alog(n + 1) == Times3(Alog(n));
    assert Alog(n + 2) == Times3(Alog(n + 1));
    assert Alog(n + 3) == Times3(Alog(n + 2));
    assert Alog(n + 4) == Times3(Alog(n + 3));
  }

  lemma LogInFifteen(n: nat, x: bv8)
    requires InFifteen(x, Alog(n))
    ensures exists l | n <= l < n + 15 :: Alog(l) == x
  {
    hide InFive, Times3Five;
    AlogFive(n);
    AlogFive(n + 5);
    if InFive(x, Alog(n)) {
      LogInFive(n, x);
    } else if InFive(x, Alog(n + 5)) {
      LogInFive(n + 5, x);
    } else {
      LogInFive(n + 10, x);
    }
  }

  /** 3 generates: every nonzero byte has a logarithm below 255. */
  lemma LogExists(x: bv8)
    requires x != 0
    ensures exists l | 0 <= l < 255 :: Alog(l) == x
  {
    hide InFifteen, STEPS, Alog;
    Covered(x);
    StepsAre();
    var q :| 0 <= q < 17 && InFifteen(x, STEPS[q]);
    AlogSteps(q);
    LogInFifteen(15 * q, x);
  }

  ghost predicate IsInverse(x: bv8, y: bv8)
  {
    Mul(x, y) == 1
  }

  lemma AlogInverse(l: nat)
    requires l <= 255
    ensures IsInverse(Alog(l), Alog(255 - l))
  {
    hide Mul, Alog;
    AlogAdds(l, 255 - l);
    AlogOrder();
  }

  lemma {:induction false} AlogCancels(l: nat, y: bv8, z: bv8)
    requires Mul(Alog(l), y) == Mul(Alog(l), z)
    ensures y == z
  {
    hide Mul, Times3;
    if l == 0 {
      MulOne(y);
      MulOne(z);
    } else {
      MulTimes3(Alog(l - 1), y);
      MulTimes3(Alog(l - 1), z);
      Times3Injective(Mul(Alog(l - 1), y), Mul(Alog(l - 1), z));
      AlogCancels(l - 1, y, z);
    }
  }

  lemma InverseExists(x: bv8)
    requires x != 0
    ensures exists y :: IsInverse(x, y)
  {
    hide Alog, IsInverse;
    LogExists(x);
    var l :| 0 <= l < 255 && Alog(l) == x;
    AlogInverse(l);
  }

  /** The multiplicative inverse of section 4.2, with 0 for 0. */
  ghost function Inverse(x: bv8): bv8
  {
    if x == 0 then 0 else InverseExists(x); var y :| IsInverse(x, y); y
  }

  lemma InverseIs(x: bv8, y: bv8)
    requires x != 0 && Mul(x, y) == 1
    ensures y == Inverse(x)
  {
    hide Mul, Alog;
    LogExists(x);
    InverseExists(x);
    var l :| 0 <= l < 255 && Alog(l) == x;
    AlogCancels(l, y, Inverse(x));
  }

  lemma MulZero(y: bv8)
    ensures Mul(0, y) == 0
  {
    hide Mul;
    MulUnrolled(0, y);
  }

  lemma InverseByLog(l: nat)
    requires l <= 255
    ensures Inverse(Alog(l)) == Alog(255 - l)
  {
    hide Mul, Alog, Inverse;
    AlogInverse(l);
    if Alog(l) == 0 {
      MulZero(Alog(255 - l));
    } else {
      InverseIs(Alog(l), Alog(255 - l));
    }
  }

  lemma InverseOfInverse(x: bv8)
    ensures Inverse(Inverse(x)) == x
  {
    hide Mul, Alog;
    if x != 0 {
      LogExists(x);
      var l :| 0 <= l < 255 && Alog(l) == x;
      InverseByLog(l);
      InverseByLog(255 - l);
    }
  }
}
