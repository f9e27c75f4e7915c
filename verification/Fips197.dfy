/** The cipher of FIPS 197 for keys of 256 bits (Nk = 8, Nr = 14), with its key
    schedule written out in full. */
module Fips197 {
  import opened Gf256

  /** A column of the state, or a word of the key schedule. */
  datatype Word = Word(b0: bv8, b1: bv8, b2: bv8, b3: bv8)

  /** The state: four columns. */
  datatype Block = Block(c0: Word, c1: Word, c2: Word, c3: Word)

  /** The cipher key: eight words. */
  datatype Key = Key(w0: Word, w1: Word, w2: Word, w3: Word, w4: Word, w5: Word, w6: Word, w7: Word)

  function PlusW(x: Word, y: Word): Word
  {
    Word(Plus(x.b0, y.b0), Plus(x.b1, y.b1), Plus(x.b2, y.b2), Plus(x.b3, y.b3))
  }

  // ----- section 5.1.1: SubBytes -----

  /** Bit i of the affine map: b_i + b_(i+4) + b_(i+5) + b_(i+6) + b_(i+7) + c_i, indices modulo 8, c = {63}. */
  function AffineBit(b: bv8, i: bv8): bv8
    requires i < 8
  {
    ((b >> i) ^ (b >> (i + 4) % 8) ^ (b >> (i + 5) % 8) ^ (b >> (i + 6) % 8) ^ (b >> (i + 7) % 8) ^ (0x63 >> i)) & 1
  }

  function Affine(b: bv8): bv8
  {
    AffineBit(b, 0) | (AffineBit(b, 1) << 1) | (AffineBit(b, 2) << 2) | (AffineBit(b, 3) << 3)
    | (AffineBit(b, 4) << 4) | (AffineBit(b, 5) << 5) | (AffineBit(b, 6) << 6) | (AffineBit(b, 7) << 7)
  }

  ghost function SBox(x: bv8): bv8
  {
    Affine(Inverse(x))
  }

  ghost function SubWord(w: Word): Word
  {
    Word(SBox(w.b0), SBox(w.b1), SBox(w.b2), SBox(w.b3))
  }

  ghost function SubBytes(s: Block): Block
  {
    Block(SubWord(s.c0), SubWord(s.c1), SubWord(s.c2), SubWord(s.c3))
  }

  // ----- section 5.1.2: ShiftRows -----

  /** Row r moves r columns to the left. */
  function ShiftRows(s: Block): Block
  {
    Block(Word(s.c0.b0, s.c1.b1, s.c2.b2, s.c3.b3), Word(s.c1.b0, s.c2.b1, s.c3.b2, s.c0.b3),
          Word(s.c2.b0, s.c3.b1, s.c0.b2, s.c1.b3), Word(s.c3.b0, s.c0.b1, s.c1.b2, s.c2.b3))
  }

  // ----- section 5.1.3: MixColumns -----

  function Sum4(a: bv8, b: bv8, c: bv8, d: bv8): bv8
  {
    Plus(Plus(a, b), Plus(c, d))
  }

  /** The product of a column and the polynomial with coefficients m3, m2, m1, m0,
      modulo x^4 + 1 (section 4.3). */
  function Circulant(m0: bv8, m1: bv8, m2: bv8, m3: bv8, w: Word): Word
  {
    Word(Sum4(Mul(w.b0, m0), Mul(w.b1, m3), Mul(w.b2, m2), Mul(w.b3, m1)),
         Sum4(Mul(w.b0, m1), Mul(w.b1, m0), Mul(w.b2, m3), Mul(w.b3, m2)),
         Sum4(Mul(w.b0, m2), Mul(w.b1, m1), Mul(w.b2, m0), Mul(w.b3, m3)),
         Sum4(Mul(w.b0, m3), Mul(w.b1, m2), Mul(w.b2, m1), Mul(w.b3, m0)))
  }

  /** a(x) = {03}x^3 + {01}x^2 + {01}x + {02}. */
  function MixColumn(w: Word): Word
  {
    Circulant(0x02, 0x01, 0x01, 0x03, w)
  }

  function MixColumns(s: Block): Block
  {
    Block(MixColumn(s.c0), MixColumn(s.c1), MixColumn(s.c2), MixColumn(s.c3))
  }

  // ----- section 5.2: KeyExpansion -----

  function RotWord(w: Word): Word
  {
    Word(w.b1, w.b2, w.b3, w.b0)
  }

  /** x^(i-1). */
  function Rcon(i: nat): bv8
    requires i > 0
  {
    if i == 1 then 1 else XTime(Rcon(i - 1))
  }

  function KeyWord(k: Key, i: nat): Word
    requires i < 8
  {
    if i == 0 then k.w0 else if i == 1 then k.w1 else if i == 2 then k.w2 else if i == 3 then k.w3
    else if i == 4 then k.w4 else if i == 5 then k.w5 else if i == 6 then k.w6 else k.w7
  }

  /** w[i] of the expanded key. */
  ghost function W(k: Key, i: nat): Word
  {
    if i < 8 then KeyWord(k, i)
    else
      var temp := W(k, i - 1);
      var temp' := if i % 8 == 0 then PlusW(SubWord(RotWord(temp)), Word(Rcon(i / 8), 0, 0, 0))
                   else if i % 8 == 4 then SubWord(temp)
                   else temp;
      PlusW(W(k, i - 8), temp')
  }

  // ----- section 5.1.4 and the cipher -----

  function AddRoundKey(s: Block, k: Block): Block
  {
    Block(PlusW(s.c0, k.c0), PlusW(s.c1, k.c1), PlusW(s.c2, k.c2), PlusW(s.c3, k.c3))
  }

  ghost function RoundKey(k: Key, round: nat): Block
  {
    Block(W(k, 4 * round), W(k, 4 * round + 1), W(k, 4 * round + 2), W(k, 4 * round + 3))
  }

  /** The state after the given number of full rounds. */
  ghost function Rounds(k: Key, s: Block, round: nat): Block
  {
    if round == 0 then AddRoundKey(s, RoundKey(k, 0))
    else AddRoundKey(MixColumns(ShiftRows(SubBytes(Rounds(k, s, round - 1)))), RoundKey(k, round))
  }

  /** Cipher of section 5.1. */
  ghost function Cipher(k: Key, s: Block): Block
  {
    AddRoundKey(ShiftRows(SubBytes(Rounds(k, s, 13))), RoundKey(k, 14))
  }

  // ----- section 5.3: the inverse cipher -----

  /** Row r moves r columns to the right. */
  function InvShiftRows(s: Block): Block
  {
    Block(Word(s.c0.b0, s.c3.b1, s.c2.b2, s.c1.b3), Word(s.c1.b0, s.c0.b1, s.c3.b2, s.c2.b3),
          Word(s.c2.b0, s.c1.b1, s.c0.b2, s.c3.b3), Word(s.c3.b0, s.c2.b1, s.c1.b2, s.c0.b3))
  }

  /** The inverse of SBox (section 5.3.2): the inverse affine map, then the inverse in the field. */
  ghost function InvSBox(y: bv8): bv8
  {
    Inverse(InvAffine(y))
  }

  /** b_i = y_(i+2) + y_(i+5) + y_(i+7) + d_i, indices modulo 8, d = {05}. */
  function InvAffine(y: bv8): bv8
  {
    Turn(y, 1) ^ Turn(y, 3) ^ Turn(y, 6) ^ 0x05
  }

  /** The bits moved up by n places, those that leave at the top coming in below. */
  function Turn(y: bv8, n: bv8): bv8
    requires 0 < n < 8
  {
    (y << n) | (y >> (8 - n))
  }

  ghost function InvSubWord(w: Word): Word
  {
    Word(InvSBox(w.b0), InvSBox(w.b1), InvSBox(w.b2), InvSBox(w.b3))
  }

  ghost function InvSubBytes(s: Block): Block
  {
    Block(InvSubWord(s.c0), InvSubWord(s.c1), InvSubWord(s.c2), InvSubWord(s.c3))
  }

  /** a^-1(x) = {0b}x^3 + {0d}x^2 + {09}x + {0e}. */
  function InvMixColumn(w: Word): Word
  {
    Circulant(0x0e, 0x09, 0x0d, 0x0b, w)
  }

  function InvMixColumns(s: Block): Block
  {
    Block(InvMixColumn(s.c0), InvMixColumn(s.c1), InvMixColumn(s.c2), InvMixColumn(s.c3))
  }

  /** The state of InvCipher when the rounds from 13 down to the given one are done,
      up to the last InvShiftRows and InvSubBytes. */
  ghost function InvRounds(k: Key, s: Block, round: nat): Block
    requires 1 <= round <= 14
    decreases 14 - round
  {
    if round == 14 then InvSubBytes(InvShiftRows(AddRoundKey(s, RoundKey(k, 14))))
    else InvSubBytes(InvShiftRows(InvMixColumns(AddRoundKey(InvRounds(k, s, round + 1), RoundKey(k, round)))))
  }

  ghost function InvCipher(k: Key, s: Block): Block
  {
    AddRoundKey(InvRounds(k, s, 1), RoundKey(k, 0))
  }
}
