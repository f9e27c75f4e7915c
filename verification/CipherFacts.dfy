/** The inverse cipher undoes the cipher. */
module CipherFacts {
  import opened Gf256
  import opened Fips197

  // ----- the substitution -----

  lemma InvAffineOfAffine(b: bv8)
    ensures InvAffine(Affine(b)) == b
    ensures Affine(InvAffine(b)) == b
  {
  }

  lemma SBoxes(x: bv8)
    ensures InvSBox(SBox(x)) == x && SBox(InvSBox(x)) == x
  {
    hide Affine, InvAffine, Inverse;
    InvAffineOfAffine(Inverse(x));
    InverseOfInverse(x);
    InverseOfInverse(InvAffine(x));
    InvAffineOfAffine(x);
  }

  lemma SubWords(w: Word)
    ensures InvSubWord(SubWord(w)) == w && SubWord(InvSubWord(w)) == w
  {
    hide SBox, InvSBox;
    SBoxes(w.b0);
    SBoxes(w.b1);
    SBoxes(w.b2);
    SBoxes(w.b3);
  }

  lemma SubBytesUndone(s: Block)
    ensures InvSubBytes(SubBytes(s)) == s && SubBytes(InvSubBytes(s)) == s
  {
    hide SubWord, InvSubWord;
    SubWords(s.c0);
    SubWords(s.c1);
    SubWords(s.c2);
    SubWords(s.c3);
  }

  lemma ShiftRowsUndone(s: Block)
    ensures InvShiftRows(ShiftRows(s)) == s && ShiftRows(InvShiftRows(s)) == s
  {
  }

  // ----- the round keys -----

  /** Row r of column c. */
  function ByteAt(s: Block, r: nat, c: nat): bv8
    requires r < 4 && c < 4
  {
    var w := if c == 0 then s.c0 else if c == 1 then s.c1 else if c == 2 then s.c2 else s.c3;
    if r == 0 then w.b0 else if r == 1 then w.b1 else if r == 2 then w.b2 else w.b3
  }

  /** Row r of column c comes from column c + r, and goes back there. */
  lemma ShiftRowsByIndex(s: Block, r: nat, c: nat)
    requires r < 4 && c < 4
    ensures ByteAt(ShiftRows(s), r, c) == ByteAt(s, r, (c + r) % 4)
    ensures ByteAt(InvShiftRows(s), r, (c + r) % 4) == ByteAt(s, r, c)
  {
    assert 0 <= (c + r) % 4 < 4;
  }

  /** The turn of a word is its product with x^3 (section 5.2, through section 4.3). */
  lemma RotWordIsProduct(w: Word)
    ensures RotWord(w) == Circulant(0x00, 0x00, 0x00, 0x01, w)
  {
    hide Mul, Plus;
    ByZeroAndOne(w.b0);
    ByZeroAndOne(w.b1);
    ByZeroAndOne(w.b2);
    ByZeroAndOne(w.b3);
  }

  lemma ByZeroAndOne(x: bv8)
    ensures Mul(x, 0x00) == 0 && Mul(x, 0x01) == x
    ensures Plus(Plus(x, 0), Plus(0, 0)) == x && Plus(Plus(0, x), Plus(0, 0)) == x
    ensures Plus(Plus(0, 0), Plus(x, 0)) == x && Plus(Plus(0, 0), Plus(0, x)) == x
  {
    hide Mul, MulBits;
    MulUnrolled(x, 0x00);
    MulUnrolled(x, 0x01);
  }

  lemma PlusTwice(x: bv8, y: bv8)
    ensures Plus(Plus(x, y), y) == x
  {
  }

  lemma PlusWTwice(x: Word, y: Word)
    ensures PlusW(PlusW(x, y), y) == x
  {
    hide Plus;
    PlusTwice(x.b0, y.b0);
    PlusTwice(x.b1, y.b1);
    PlusTwice(x.b2, y.b2);
    PlusTwice(x.b3, y.b3);
  }

  lemma AddRoundKeyTwice(s: Block, k: Block)
    ensures AddRoundKey(AddRoundKey(s, k), k) == s
  {
    hide PlusW;
    PlusWTwice(s.c0, k.c0);
    PlusWTwice(s.c1, k.c1);
    PlusWTwice(s.c2, k.c2);
    PlusWTwice(s.c3, k.c3);
  }

  // ----- the columns -----

  lemma Sum4Linear(a: bv8, b: bv8, c: bv8, d: bv8, a': bv8, b': bv8, c': bv8, d': bv8)
    ensures Sum4(Plus(a, a'), Plus(b, b'), Plus(c, c'), Plus(d, d')) == Plus(Sum4(a, b, c, d), Sum4(a', b', c', d'))
  {
    hide Plus;
    Plus4(a, a', b, b');
    Plus4(c, c', d, d');
    Plus4(Plus(a, b), Plus(a', b'), Plus(c, d), Plus(c', d'));
  }

  lemma MulPlus(x: bv8, y: bv8, m: bv8)
    ensures Mul(Plus(x, y), m) == Plus(Mul(x, m), Mul(y, m))
  {
    hide Plus, MulBits;
    MulLinear(x, y, m, 8);
  }

  lemma CirculantLinear(m0: bv8, m1: bv8, m2: bv8, m3: bv8, v: Word, w: Word)
    ensures Circulant(m0, m1, m2, m3, PlusW(v, w))
         == PlusW(Circulant(m0, m1, m2, m3, v), Circulant(m0, m1, m2, m3, w))
  {
    hide Plus, Mul, Sum4;
    ProductsOf(v.b0, w.b0, m0, m1, m2, m3);
    ProductsOf(v.b1, w.b1, m0, m1, m2, m3);
    ProductsOf(v.b2, w.b2, m0, m1, m2, m3);
    ProductsOf(v.b3, w.b3, m0, m1, m2, m3);
    Sum4Linear(Mul(v.b0, m0), Mul(v.b1, m3), Mul(v.b2, m2), Mul(v.b3, m1), Mul(w.b0, m0), Mul(w.b1, m3), Mul(w.b2, m2), Mul(w.b3, m1));
    Sum4Linear(Mul(v.b0, m1), Mul(v.b1, m0), Mul(v.b2, m3), Mul(v.b3, m2), Mul(w.b0, m1), Mul(w.b1, m0), Mul(w.b2, m3), Mul(w.b3, m2));
    Sum4Linear(Mul(v.b0, m2), Mul(v.b1, m1), Mul(v.b2, m0), Mul(v.b3, m3), Mul(w.b0, m2), Mul(w.b1, m1), Mul(w.b2, m0), Mul(w.b3, m3));
    Sum4Linear(Mul(v.b0, m3), Mul(v.b1, m2), Mul(v.b2, m1), Mul(v.b3, m0), Mul(w.b0, m3), Mul(w.b1, m2), Mul(w.b2, m1), Mul(w.b3, m0));
  }

  lemma ProductsOf(x: bv8, y: bv8, m0: bv8, m1: bv8, m2: bv8, m3: bv8)
    ensures Mul(Plus(x, y), m0) == Plus(Mul(x, m0), Mul(y, m0))
    ensures Mul(Plus(x, y), m1) == Plus(Mul(x, m1), Mul(y, m1))
    ensures Mul(Plus(x, y), m2) == Plus(Mul(x, m2), Mul(y, m2))
    ensures Mul(Plus(x, y), m3) == Plus(Mul(x, m3), Mul(y, m3))
  {
    hide Plus, Mul;
    MulPlus(x, y, m0);
    MulPlus(x, y, m1);
    MulPlus(x, y, m2);
    MulPlus(x, y, m3);
  }

  /** The products with the coefficients of the two polynomials. */
  lemma Coefficients(x: bv8)
    ensures Mul(x, 0x01) == x && Mul(x, 0x02) == XTime(x) && Mul(x, 0x03) == Plus(XTime(x), x)
    ensures var x2 := XTime(x); var x4 := XTime(x2); var x8 := XTime(x4);
            && Mul(x, 0x09) == Plus(x8, x) && Mul(x, 0x0b) == Plus(x8, Plus(x2, x))
            && Mul(x, 0x0d) == Plus(x8, Plus(x4, x)) && Mul(x, 0x0e) == Plus(x8, Plus(x4, x2))
  {
    hide Mul;
    MulUnrolled(x, 0x01);
    MulUnrolled(x, 0x02);
    MulUnrolled(x, 0x03);
    MulUnrolled(x, 0x09);
    MulUnrolled(x, 0x0b);
    MulUnrolled(x, 0x0d);
    MulUnrolled(x, 0x0e);
  }

  lemma Sum4Turned(a: bv8, b: bv8, c: bv8, d: bv8)
    ensures Sum4(a, b, c, d) == Sum4(b, c, d, a)
  {
    hide Plus, Has;
    forall m | IsMask(m)
      ensures Has(Sum4(a, b, c, d), m) == Has(Sum4(b, c, d, a), m)
    {
      HasPlus(m);
    }
    SameBits(Sum4(a, b, c, d), Sum4(b, c, d, a));
  }

  /** Circulant maps commute with a turn of the column. */
  lemma CirculantTurned(m0: bv8, m1: bv8, m2: bv8, m3: bv8, w: Word)
    ensures Circulant(m0, m1, m2, m3, RotWord(w)) == RotWord(Circulant(m0, m1, m2, m3, w))
  {
    hide Mul, Sum4;
    Sum4Turned(Mul(w.b0, m1), Mul(w.b1, m0), Mul(w.b2, m3), Mul(w.b3, m2));
    Sum4Turned(Mul(w.b0, m2), Mul(w.b1, m1), Mul(w.b2, m0), Mul(w.b3, m3));
    Sum4Turned(Mul(w.b0, m3), Mul(w.b1, m2), Mul(w.b2, m1), Mul(w.b3, m0));
    Sum4Turned(Mul(w.b0, m0), Mul(w.b1, m3), Mul(w.b2, m2), Mul(w.b3, m1));
  }

  /** A column with one byte set. */
  lemma OneByteColumn(m0: bv8, m1: bv8, m2: bv8, m3: bv8, a: bv8)
    ensures Circulant(m0, m1, m2, m3, Word(a, 0, 0, 0)) == Word(Mul(a, m0), Mul(a, m1), Mul(a, m2), Mul(a, m3))
  {
    hide Mul, Plus;
    MulZero(m0);
    MulZero(m1);
    MulZero(m2);
    MulZero(m3);
    PlusZero(Mul(a, m0));
    PlusZero(Mul(a, m1));
    PlusZero(Mul(a, m2));
    PlusZero(Mul(a, m3));
    PlusZero(0);
  }

  lemma PlusZero(x: bv8)
    ensures Plus(x, 0) == x
  {
  }

  /** The product of the two polynomials is 1, coefficient by coefficient. */
  lemma PolynomialsAreInverse(a: bv8)
    ensures InvMixColumn(Word(XTime(a), a, a, Plus(XTime(a), a))) == Word(a, 0, 0, 0)
  {
    hide Mul;
    Coefficients(XTime(a));
    Coefficients(a);
    Coefficients(Plus(XTime(a), a));
  }

  /** The column of inverse coefficients of one byte. */
  function Unmixed(a: bv8): Word
  {
    var x2 := XTime(a);
    var x4 := XTime(x2);
    var x8 := XTime(x4);
    Word(Plus(x8, Plus(x4, x2)), Plus(x8, a), Plus(x8, Plus(x4, a)), Plus(x8, Plus(x2, a)))
  }

  lemma UnmixedTop(a: bv8)
    ensures MixColumn(Unmixed(a)).b0 == a && MixColumn(Unmixed(a)).b1 == 0
  {
    hide Mul;
    MixColumnIs(Unmixed(a));
  }

  lemma UnmixedBottom(a: bv8)
    ensures MixColumn(Unmixed(a)).b2 == 0 && MixColumn(Unmixed(a)).b3 == 0
  {
    hide Mul;
    MixColumnIs(Unmixed(a));
  }

  lemma MixColumnIs(w: Word)
    ensures MixColumn(w) == Word(Sum4(XTime(w.b0), Plus(XTime(w.b1), w.b1), w.b2, w.b3),
                                 Sum4(w.b0, XTime(w.b1), Plus(XTime(w.b2), w.b2), w.b3),
                                 Sum4(w.b0, w.b1, XTime(w.b2), Plus(XTime(w.b3), w.b3)),
                                 Sum4(Plus(XTime(w.b0), w.b0), w.b1, w.b2, XTime(w.b3)))
  {
    hide Mul, XTime, Plus, Sum4;
    Coefficients(w.b0);
    Coefficients(w.b1);
    Coefficients(w.b2);
    Coefficients(w.b3);
  }

  /** A circulant map, by its four coefficients. */
  datatype Coeffs = Coeffs(m0: bv8, m1: bv8, m2: bv8, m3: bv8)

  function Apply(m: Coeffs, w: Word): Word
  {
    Circulant(m.m0, m.m1, m.m2, m.m3, w)
  }

  const MIX := Coeffs(0x02, 0x01, 0x01, 0x03)
  const UNMIX := Coeffs(0x0e, 0x09, 0x0d, 0x0b)

  predicate UndoesOneByte(n: Coeffs, m: Coeffs, a: bv8)
  {
    Apply(n, Apply(m, Word(a, 0, 0, 0))) == Word(a, 0, 0, 0)
  }

  lemma MixUndone(a: bv8)
    ensures UndoesOneByte(UNMIX, MIX, a) && UndoesOneByte(MIX, UNMIX, a)
  {
    hide Mul, XTime, Plus, Circulant;
    OneByteColumn(0x02, 0x01, 0x01, 0x03, a);
    OneByteColumn(0x0e, 0x09, 0x0d, 0x0b, a);
    Coefficients(a);
    PolynomialsAreInverse(a);
    UnmixedTop(a);
    UnmixedBottom(a);
  }

  lemma TurnedUndone(n: Coeffs, m: Coeffs, w: Word)
    requires Apply(n, Apply(m, w)) == w
    ensures Apply(n, Apply(m, RotWord(w))) == RotWord(w)
  {
    hide Circulant;
    CirculantTurned(m.m0, m.m1, m.m2, m.m3, w);
    CirculantTurned(n.m0, n.m1, n.m2, n.m3, Apply(m, w));
  }

  lemma SumUndone(n: Coeffs, m: Coeffs, v: Word, w: Word)
    requires Apply(n, Apply(m, v)) == v && Apply(n, Apply(m, w)) == w
    ensures Apply(n, Apply(m, PlusW(v, w))) == PlusW(v, w)
  {
    hide Circulant, PlusW;
    CirculantLinear(m.m0, m.m1, m.m2, m.m3, v, w);
    CirculantLinear(n.m0, n.m1, n.m2, n.m3, Apply(m, v), Apply(m, w));
  }

  /** Linear maps that commute with turns are inverse when they are so on one byte. */
  lemma CirculantUndone(n: Coeffs, m: Coeffs, w: Word)
    requires UndoesOneByte(n, m, w.b0) && UndoesOneByte(n, m, w.b1)
    requires UndoesOneByte(n, m, w.b2) && UndoesOneByte(n, m, w.b3)
    ensures Apply(n, Apply(m, w)) == w
  {
    hide Apply;
    var w0, w1 := Word(w.b0, 0, 0, 0), Word(w.b1, 0, 0, 0);
    var w2, w3 := Word(w.b2, 0, 0, 0), Word(w.b3, 0, 0, 0);
    TurnedUndone(n, m, w1);
    TurnedUndone(n, m, RotWord(w1));
    TurnedUndone(n, m, RotWord(RotWord(w1)));
    TurnedUndone(n, m, w2);
    TurnedUndone(n, m, RotWord(w2));
    TurnedUndone(n, m, w3);
    var e1, e2, e3 := Word(0, w.b1, 0, 0), Word(0, 0, w.b2, 0), Word(0, 0, 0, w.b3);
    SumUndone(n, m, w0, e1);
    SumUndone(n, m, e2, e3);
    SumUndone(n, m, PlusW(w0, e1), PlusW(e2, e3));
    FourBytes(w);
  }

  lemma FourBytes(w: Word)
    ensures PlusW(PlusW(Word(w.b0, 0, 0, 0), Word(0, w.b1, 0, 0)), PlusW(Word(0, 0, w.b2, 0), Word(0, 0, 0, w.b3))) == w
  {
  }

  lemma MixColumnUndone(w: Word)
    ensures InvMixColumn(MixColumn(w)) == w && MixColumn(InvMixColumn(w)) == w
  {
    hide Circulant, UndoesOneByte;
    MixUndone(w.b0);
    MixUndone(w.b1);
    MixUndone(w.b2);
    MixUndone(w.b3);
    CirculantUndone(UNMIX, MIX, w);
    CirculantUndone(MIX, UNMIX, w);
  }

  lemma MixColumnsUndone(s: Block)
    ensures InvMixColumns(MixColumns(s)) == s && MixColumns(InvMixColumns(s)) == s
  {
    hide MixColumn, InvMixColumn;
    MixColumnUndone(s.c0);
    MixColumnUndone(s.c1);
    MixColumnUndone(s.c2);
    MixColumnUndone(s.c3);
  }

  // ----- the cipher -----

  /** Where the cipher has done r-1 full rounds, the inverse cipher comes back to the same state. */
  lemma {:induction false} RoundsUndone(k: Key, s: Block, round: nat)
    requires 1 <= round <= 14
    ensures InvRounds(k, Cipher(k, s), round) == Rounds(k, s, round - 1)
    decreases 14 - round
  {
    hide SubBytes, InvSubBytes, ShiftRows, InvShiftRows, MixColumns, InvMixColumns, AddRoundKey, RoundKey;
    if round == 14 {
      var t := Rounds(k, s, 13);
      SubBytesUndone(t);
      ShiftRowsUndone(SubBytes(t));
      AddRoundKeyTwice(ShiftRows(SubBytes(t)), RoundKey(k, 14));
    } else {
      RoundsUndone(k, s, round + 1);
      var t := Rounds(k, s, round - 1);
      AddRoundKeyTwice(MixColumns(ShiftRows(SubBytes(t))), RoundKey(k, round));
      MixColumnsUndone(ShiftRows(SubBytes(t)));
      ShiftRowsUndone(SubBytes(t));
      SubBytesUndone(t);
    }
  }

  /** Decryption undoes encryption. */
  lemma InvCipherOfCipher(k: Key, s: Block)
    ensures InvCipher(k, Cipher(k, s)) == s
  {
    hide AddRoundKey, RoundKey, Cipher, InvRounds;
    RoundsUndone(k, s, 1);
    AddRoundKeyTwice(s, RoundKey(k, 0));
  }

  lemma {:induction false} RoundsRedone(k: Key, s: Block, round: nat)
    requires round <= 13
    ensures Rounds(k, InvCipher(k, s), round) == InvRounds(k, s, round + 1)
  {
    hide SubBytes, InvSubBytes, ShiftRows, InvShiftRows, MixColumns, InvMixColumns, AddRoundKey, RoundKey;
    if round == 0 {
      AddRoundKeyTwice(InvRounds(k, s, 1), RoundKey(k, 0));
    } else {
      RoundsRedone(k, s, round - 1);
      var t := InvRounds(k, s, round + 1);
      var u := InvMixColumns(AddRoundKey(t, RoundKey(k, round)));
      SubBytesUndone(InvShiftRows(u));
      ShiftRowsUndone(u);
      MixColumnsUndone(AddRoundKey(t, RoundKey(k, round)));
      AddRoundKeyTwice(t, RoundKey(k, round));
    }
  }

  /** Encryption undoes decryption. */
  lemma CipherOfInvCipher(k: Key, s: Block)
    ensures Cipher(k, InvCipher(k, s)) == s
  {
    hide SubBytes, InvSubBytes, ShiftRows, InvShiftRows, AddRoundKey, RoundKey, Rounds;
    RoundsRedone(k, s, 13);
    var u := AddRoundKey(s, RoundKey(k, 14));
    SubBytesUndone(InvShiftRows(u));
    ShiftRowsUndone(u);
    AddRoundKeyTwice(s, RoundKey(k, 14));
  }
}
