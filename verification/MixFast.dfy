/** The sums that aes_mixColumns and aes_mixColumns_inv share between the four bytes
    of a column give the polynomial products of FIPS 197. */
module MixFast {
  import opened Gf256
  import opened Fips197
  import opened CipherFacts

  lemma SumIs(a: bv8, b: bv8, c: bv8, d: bv8)
    ensures Plus(Plus(Plus(a, b), c), d) == Sum4(a, b, c, d)
  {
    hide Plus, Has;
    var l, r := Plus(Plus(Plus(a, b), c), d), Sum4(a, b, c, d);
    forall m | IsMask(m)
      ensures Has(l, m) == Has(r, m)
    {
      HasPlus(m);
    }
    SameBits(l, r);
  }

  /** a + (e + (x + y)) where e is the sum of all four: what is left is b + c + d and x + y. */
  lemma FoldSum(a: bv8, b: bv8, c: bv8, d: bv8, x: bv8, y: bv8)
    ensures Plus(a, Plus(Sum4(a, b, c, d), Plus(x, y))) == Sum4(x, Plus(y, b), c, d)
  {
    hide Plus, Has;
    var l, r := Plus(a, Plus(Sum4(a, b, c, d), Plus(x, y))), Sum4(x, Plus(y, b), c, d);
    forall m | IsMask(m)
      ensures Has(l, m) == Has(r, m)
    {
      HasPlus(m);
    }
    SameBits(l, r);
  }

  /** One byte of the fast form, with e the sum of the column. */
  function FastByte(a: bv8, b: bv8, e: bv8): bv8
  {
    Plus(a, Plus(e, XTime(Plus(a, b))))
  }

  lemma FastByteIs(a: bv8, b: bv8, c: bv8, d: bv8)
    ensures FastByte(a, b, Sum4(a, b, c, d)) == Sum4(XTime(a), Plus(XTime(b), b), c, d)
  {
    hide Plus, XTime, Sum4;
    XTimeLinear(a, b);
    FoldSum(a, b, c, d, XTime(a), XTime(b));
  }

  function FastMix(w: Word): Word
  {
    var e := Plus(Plus(Plus(w.b0, w.b1), w.b2), w.b3);
    Word(FastByte(w.b0, w.b1, e), FastByte(w.b1, w.b2, e), FastByte(w.b2, w.b3, e), FastByte(w.b3, w.b0, e))
  }

  lemma FastMixIs(w: Word)
    ensures FastMix(w) == MixColumn(w)
  {
    hide Plus, XTime, Sum4, FastByte, Circulant;
    var a, b, c, d := w.b0, w.b1, w.b2, w.b3;
    SumIs(a, b, c, d);
    Sum4Turned(a, b, c, d);
    Sum4Turned(b, c, d, a);
    Sum4Turned(c, d, a, b);
    FastByteIs(a, b, c, d);
    FastByteIs(b, c, d, a);
    FastByteIs(c, d, a, b);
    FastByteIs(d, a, b, c);
    MixColumnIs(w);
    Sum4Turned(a, XTime(b), Plus(XTime(c), c), d);
    Sum4Turned(a, b, XTime(c), Plus(XTime(d), d));
    Sum4Turned(b, XTime(c), Plus(XTime(d), d), a);
    Sum4Turned(XTime(d), Plus(XTime(a), a), b, c);
  }

  // ----- the inverse -----

  function FastInvByte(a: bv8, b: bv8, x: bv8): bv8
  {
    Plus(a, Plus(x, XTime(Plus(a, b))))
  }

  /** e + 4*(2*e + a + c). */
  function Shared(e: bv8, a: bv8, c: bv8): bv8
  {
    Plus(e, XTime(XTime(Plus(Plus(XTime(e), a), c))))
  }

  function Eight(x: bv8): bv8
  {
    XTime(XTime(XTime(x)))
  }

  lemma EightLinear(a: bv8, b: bv8, c: bv8, d: bv8)
    ensures Eight(Sum4(a, b, c, d)) == Sum4(Eight(a), Eight(b), Eight(c), Eight(d))
  {
    hide Plus, XTime;
    XTimeOfSum4(a, b, c, d);
    XTimeOfSum4(XTime(a), XTime(b), XTime(c), XTime(d));
    XTimeOfSum4(XTime(XTime(a)), XTime(XTime(b)), XTime(XTime(c)), XTime(XTime(d)));
  }

  lemma XTimeOfSum4(a: bv8, b: bv8, c: bv8, d: bv8)
    ensures XTime(Sum4(a, b, c, d)) == Sum4(XTime(a), XTime(b), XTime(c), XTime(d))
  {
    hide Plus, XTime;
    XTimeLinear(a, b);
    XTimeLinear(c, d);
    XTimeLinear(Plus(a, b), Plus(c, d));
  }

  lemma SharedIs(e: bv8, a: bv8, c: bv8)
    ensures Shared(e, a, c) == Plus(e, Plus(Plus(Eight(e), XTime(XTime(a))), XTime(XTime(c))))
  {
    hide Plus, XTime;
    XTimeLinear(Plus(XTime(e), a), c);
    XTimeLinear(XTime(e), a);
    XTimeLinear(Plus(XTime(XTime(e)), XTime(a)), XTime(c));
    XTimeLinear(XTime(XTime(e)), XTime(a));
  }

  lemma Regroup(a: bv8, s: bv8, q: bv8, r: bv8)
    ensures Plus(a, Plus(Plus(s, q), r)) == Plus(q, Plus(a, Plus(s, r)))
  {
    hide Plus, Has;
    var l, r' := Plus(a, Plus(Plus(s, q), r)), Plus(q, Plus(a, Plus(s, r)));
    forall m | IsMask(m)
      ensures Has(l, m) == Has(r', m)
    {
      HasPlus(m);
    }
    SameBits(l, r');
  }

  lemma MoveFours(e8: bv8, a4: bv8, c4: bv8, a2: bv8, b: bv8, c: bv8, d: bv8)
    ensures Plus(Plus(Plus(e8, a4), c4), Sum4(a2, b, c, d)) == Plus(e8, Sum4(Plus(a4, a2), b, Plus(c4, c), d))
  {
    hide Plus, Has;
    var l, r := Plus(Plus(Plus(e8, a4), c4), Sum4(a2, b, c, d)), Plus(e8, Sum4(Plus(a4, a2), b, Plus(c4, c), d));
    forall m | IsMask(m)
      ensures Has(l, m) == Has(r, m)
    {
      HasPlus(m);
    }
    SameBits(l, r);
  }

  /** The part of a byte of the inverse without the 8-folds. */
  lemma FoldLowSums(a: bv8, b: bv8, c: bv8, d: bv8, a2: bv8, b2: bv8, a4: bv8, c4: bv8, e8: bv8)
    ensures Plus(a, Plus(Plus(Sum4(a, b, c, d), Plus(Plus(e8, a4), c4)), Plus(a2, b2)))
         == Plus(e8, Sum4(Plus(a4, a2), Plus(b2, b), Plus(c4, c), d))
  {
    hide Plus, Sum4;
    Regroup(a, Sum4(a, b, c, d), Plus(Plus(e8, a4), c4), Plus(a2, b2));
    FoldSum(a, b, c, d, a2, b2);
    MoveFours(e8, a4, c4, a2, Plus(b2, b), c, d);
  }

  lemma FastInvByteIs(a: bv8, b: bv8, c: bv8, d: bv8, e: bv8)
    requires e == Sum4(a, b, c, d)
    ensures FastInvByte(a, b, Shared(e, a, c)) == Sum4(Mul(a, 0x0e), Mul(b, 0x0b), Mul(c, 0x0d), Mul(d, 0x09))
  {
    hide Plus, XTime, Sum4, Mul, Shared;
    SharedIs(e, a, c);
    EightLinear(a, b, c, d);
    XTimeLinear(a, b);
    FoldLowSums(a, b, c, d, XTime(a), XTime(b), XTime(XTime(a)), XTime(XTime(c)), Eight(e));
    Sum4Linear(Eight(a), Eight(b), Eight(c), Eight(d),
               Plus(XTime(XTime(a)), XTime(a)), Plus(XTime(b), b), Plus(XTime(XTime(c)), c), d);
    Coefficients(a);
    Coefficients(b);
    Coefficients(c);
    Coefficients(d);
  }

  function FastInvMix(w: Word): Word
  {
    var e := Plus(Plus(Plus(w.b0, w.b1), w.b2), w.b3);
    var x, y := Shared(e, w.b0, w.b2), Shared(e, w.b1, w.b3);
    Word(FastInvByte(w.b0, w.b1, x), FastInvByte(w.b1, w.b2, y), FastInvByte(w.b2, w.b3, x), FastInvByte(w.b3, w.b0, y))
  }

  lemma SharedSwap(e: bv8, a: bv8, c: bv8)
    ensures Shared(e, a, c) == Shared(e, c, a)
  {
    hide Plus, XTime;
    PlusOrder(XTime(e), a, c);
  }

  lemma PlusOrder(e: bv8, a: bv8, c: bv8)
    ensures Plus(Plus(e, a), c) == Plus(Plus(e, c), a)
  {
  }

  lemma FastInvMixIs(w: Word)
    ensures FastInvMix(w) == InvMixColumn(w)
  {
    hide Plus, XTime, Sum4, FastInvByte, Shared, Mul;
    var a, b, c, d := w.b0, w.b1, w.b2, w.b3;
    var e := Plus(Plus(Plus(a, b), c), d);
    SumIs(a, b, c, d);
    Sum4Turned(a, b, c, d);
    Sum4Turned(b, c, d, a);
    Sum4Turned(c, d, a, b);
    SharedSwap(e, a, c);
    SharedSwap(e, b, d);
    FastInvByteIs(a, b, c, d, e);
    FastInvByteIs(b, c, d, a, e);
    FastInvByteIs(c, d, a, b, e);
    FastInvByteIs(d, a, b, c, e);
    Sum4Turned(Mul(a, 0x09), Mul(b, 0x0e), Mul(c, 0x0b), Mul(d, 0x0d));
    Sum4Turned(Mul(a, 0x0d), Mul(b, 0x09), Mul(c, 0x0e), Mul(d, 0x0b));
    Sum4Turned(Mul(b, 0x09), Mul(c, 0x0e), Mul(d, 0x0b), Mul(a, 0x0d));
    Sum4Turned(Mul(d, 0x0e), Mul(a, 0x0b), Mul(b, 0x0d), Mul(c, 0x09));
  }
}
