/** The Montgomery ladder on byte arrays (curve25519.c). */
module Curve25519 {
  import opened Bits
  import opened Bytes
  import opened Field25519
  import opened Fe25519
  import opened FePower
  import Rfc7748

  /** work[0..4], under the names that ladderstep gives its elements. */
  class Work {
    const x0: array<Byte>
    const xp: array<Byte>
    const zp: array<Byte>
    const xq: array<Byte>
    const zq: array<Byte>

    predicate Valid()
    {
      && x0.Length == xp.Length == zp.Length == xq.Length == zq.Length == 32
      && x0 !in {xp, zp, xq, zq} && xp !in {zp, xq, zq} && zp !in {xq, zq} && xq != zq
    }

    /** The two points that the four coordinates stand for. */
    function Points(): Rfc7748.Ladder
      reads xp, zp, xq, zq
    {
      Rfc7748.Ladder(F(xp), F(zp), F(xq), F(zq))
    }

    constructor ()
      ensures Valid() && fresh({x0, xp, zp, xq, zq})
    {
      x0, xp, zp := new Byte[32], new Byte[32], new Byte[32];
      xq, zq := new Byte[32], new Byte[32];
    }
  }

  /** The three moves that exchange one coordinate through t. */
  method SwapPair(t: array<Byte>, x: array<Byte>, y: array<Byte>, b: Byte)
    requires t.Length == x.Length == y.Length == 32
    requires t != x && t != y && x != y && b <= 1
    modifies t, x, y
    ensures b == 0 ==> x[..] == old(x[..]) && y[..] == old(y[..])
    ensures b == 1 ==> x[..] == old(y[..]) && y[..] == old(x[..])
  {
    FeCmov(t, x, b);
    FeCmov(x, y, b);
    FeCmov(y, t, b);
  }

  method WorkCSwap(work: Work, b: Byte)
    requires work.Valid() && b <= 1
    modifies work.xp, work.zp, work.xq, work.zq
    ensures work.Points() == Rfc7748.CSwap(b, old(work.Points()))
  {
    hide Val;
    var t := new Byte[32];
    FeSetZero(t);
    SwapPair(t, work.xp, work.xq, b);
    SwapPair(t, work.zp, work.zq, b);
  }

  // ----- one step of the ladder -----

  /** The first nine lines: t2 = CB, t3 = DA, t5 = E, t6 = AA, t7 = BB in the RFC's names. */
  method StepFront(work: Work, t2: array<Byte>, t3: array<Byte>, t5: array<Byte>, t6: array<Byte>, t7: array<Byte>)
    requires work.Valid()
    requires t2.Length == t3.Length == t5.Length == t6.Length == t7.Length == 32
    requires t2 !in {t3, t5, t6, t7} && t3 !in {t5, t6, t7} && t5 !in {t6, t7} && t6 != t7
    requires {t2, t3, t5, t6, t7} !! {work.xp, work.zp, work.xq, work.zq}
    modifies t2, t3, t5, t6, t7
    ensures var A := FAdd(F(work.xp), F(work.zp)); var B := FSub(F(work.xp), F(work.zp));
            && F(t6) == FMul(A, A) && F(t7) == FMul(B, B) && F(t5) == FSub(FMul(A, A), FMul(B, B))
            && F(t2) == FMul(FAdd(F(work.xq), F(work.zq)), B)
            && F(t3) == FMul(FSub(F(work.xq), F(work.zq)), A)
  {
    hide F, FAdd, FSub, FMul;
    var t1, t4 := new Byte[32], new Byte[32];
    FeAdd(t1, work.xp, work.zp);
    FeSub(t2, work.xp, work.zp);
    FeSquare(t7, t2);
    FeSquare(t6, t1);
    FeSub(t5, t6, t7);
    FeAdd(t3, work.xq, work.zq);
    FeSub(t4, work.xq, work.zq);
    FeMul(t2, t3, t2);
    FeMul(t3, t4, t1);
  }

  const BYTES_121666: seq<Byte> := [0x42, 0xDB, 0x01] + seq(29, _ => 0)

  lemma Is121666()
    ensures |BYTES_121666| == 32 && Val(BYTES_121666) == 121666
  {
    hide Val, Shift;
    var a: seq<Byte>, z: seq<Byte> := [0x42, 0xDB, 0x01], seq(29, _ => 0);
    ValZeros(z);
    ValAppend(a, z);
    ShiftZero(3);
    assert Val(a) == 121666 by { ThreeBytes(); }
  }

  lemma ThreeBytes()
    ensures Val([0x42, 0xDB, 0x01]) == 121666
  {
    var a: seq<Byte> := [0x42, 0xDB, 0x01];
    assert a[1..] == [0xDB, 0x01] && a[1..][1..] == [0x01];
    ValOne(0x01);
  }

  /** BB + 121666*E is AA + 121665*E, for E = AA - BB. */
  lemma SameMiddle(aa: int, bb: int, e: int)
    requires e == FSub(aa, bb)
    ensures FAdd(FMul(e, 121666), bb) == FAdd(aa, FMul(Rfc7748.A24, e))
  {
    var q := (aa - bb) / P;
    assert aa - bb == e + P * q;
    SameResidue(FMul(e, 121666) + bb, e * 121666 + bb, -(e * 121666 / P));
    SameResidue(aa + FMul(121665, e), aa + 121665 * e, -(121665 * e / P));
    SameResidue(aa + 121665 * e, e * 121666 + bb, q);
  }

  /** The last nine lines. */
  method StepBack(work: Work, t2: array<Byte>, t3: array<Byte>, t5: array<Byte>, t6: array<Byte>, t7: array<Byte>)
    requires work.Valid()
    requires t2.Length == t3.Length == t5.Length == t6.Length == t7.Length == 32
    requires {t2, t3, t5, t6, t7} !! {work.xp, work.zp, work.xq, work.zq}
    requires F(t5) == FSub(F(t6), F(t7))
    modifies work.xp, work.zp, work.xq, work.zq
    ensures var sum := old(FAdd(F(t3), F(t2))); var difference := old(FSub(F(t3), F(t2)));
            work.Points() == Rfc7748.Ladder(
              old(FMul(F(t6), F(t7))), old(FMul(F(t5), FAdd(F(t6), FMul(Rfc7748.A24, F(t5))))),
              FMul(sum, sum), FMul(old(F(work.x0)), FMul(difference, difference)))
  {
    hide F, FAdd, FSub, FMul;
    var c121666 := new Byte[32](i requires 0 <= i < 32 => BYTES_121666[i]);
    assert c121666[..] == BYTES_121666;
    assert F(c121666) == 121666 by { Is121666(); ConstantElement(c121666); }
    FeAdd(work.xq, t3, t2);
    FeSub(work.zq, t3, t2);
    FeSquare(work.xq, work.xq);
    FeSquare(work.zq, work.zq);
    Swap(F(work.zq), F(work.x0));
    FeMul(work.zq, work.zq, work.x0);
    FeMul(work.xp, t6, t7);
    SameMiddle(F(t6), F(t7), F(t5));
    FeMul(work.zp, t5, c121666);
    FeAdd(work.zp, work.zp, t7);
    Swap(F(work.zp), F(t5));
    FeMul(work.zp, work.zp, t5);
  }

  lemma ConstantElement(x: array<Byte>)
    requires Val(x[..]) == 121666
    ensures F(x) == 121666
  {
  }

  method LadderStep(work: Work)
    requires work.Valid()
    modifies work.xp, work.zp, work.xq, work.zq
    ensures work.Points() == Rfc7748.Step(F(work.x0), old(work.Points()))
  {
    hide F, FAdd, FSub, FMul;
    var t2, t3 := new Byte[32], new Byte[32];
    var t5, t6, t7 := new Byte[32], new Byte[32], new Byte[32];
    StepFront(work, t2, t3, t5, t6, t7);
    StepBack(work, t2, t3, t5, t6, t7);
  }

  // ----- the ladder -----

  /** Bit j of byte i is bit 8*i+j of the number. */
  lemma {:induction false} BitOfBytes(s: seq<Byte>, i: nat, j: nat)
    requires i < |s| && j < 8
    ensures Bit(Val(s), 8 * i + j) == And(1, Shr(s[i], j))
  {
    hide And, Shr, Bit;
    if i == 0 {
      BitLow(Val(s), 8, j);
      EightBits();
      BitIs(s[0], j);
    } else {
      BitByte(Val(s), 8 * (i - 1) + j);
      BitOfBytes(s[1..], i - 1, j);
    }
  }

  lemma EightBits()
    ensures Pow2(8) == 256
  {
  }

  lemma XorOfBits(a: nat, b: nat)
    requires a <= 1 && b <= 1
    ensures Xor(a, b) == Xor(b, a) <= 1
  {
  }

  lemma LoopAt(k: nat, u: int, t: nat)
    requires t < 255
    ensures var s := Rfc7748.Loop(k, u, t + 1);
            Rfc7748.Loop(k, u, t) == Rfc7748.LoopState(Rfc7748.Step(u, Rfc7748.CSwap(Xor(s.swap, Bit(k, t)), s.w)), Bit(k, t))
  {
    hide Rfc7748.Step, Rfc7748.CSwap;
  }

  lemma LoopStart(k: nat, u: int)
    ensures Rfc7748.Loop(k, u, 255) == Rfc7748.LoopState(Rfc7748.Ladder(1, 0, u, 1), 0)
  {
  }

  /** One iteration of the inner loop: the bit, the delayed swap, the step. */
  method LadderBit(work: Work, s: array<Byte>, i: nat, j: nat, prevbit: Byte, ghost u: int) returns (bit: Byte)
    requires work.Valid() && s.Length == 32 && i < 32 && j < 8 && 8 * i + j < 255
    requires F(work.x0) == u
    requires s !in {work.xp, work.zp, work.xq, work.zq}
    requires Rfc7748.Loop(Val(s[..]), u, 8 * i + j + 1) == Rfc7748.LoopState(work.Points(), prevbit) && prevbit <= 1
    modifies work.xp, work.zp, work.xq, work.zq
    ensures bit <= 1
    ensures Rfc7748.Loop(Val(s[..]), u, 8 * i + j) == Rfc7748.LoopState(work.Points(), bit)
  {
    hide F, Val, And, Shr, Bit, Xor, Rfc7748.Loop, Rfc7748.Step, Rfc7748.CSwap;
    ghost var k := Val(s[..]);
    BitOfBytes(s[..], i, j);
    XorOfBits(Bit(k, 8 * i + j), prevbit);
    LoopAt(k, u, 8 * i + j);
    bit := And(1, Shr(s[i], j));
    var swap := Xor(bit, prevbit);
    WorkCSwap(work, swap);
    LadderStep(work);
  }

  /** The points (1:0) and (u:1). */
  method StartWork(work: Work, xr: array<Byte>)
    requires work.Valid() && xr.Length == 32
    requires xr !in {work.x0, work.xp, work.zp, work.xq, work.zq}
    modifies work.x0, work.xp, work.zp, work.xq, work.zq
    ensures F(work.x0) == F(xr)
    ensures work.Points() == Rfc7748.Ladder(1, 0, F(xr), 1)
  {
    hide Val;
    Copy(work.x0, xr);
    FeSetOne(work.xp);
    FeSetZero(work.zp);
    Copy(work.xq, xr);
    FeSetOne(work.zq);
  }

  /** The ladder of the RFC on the bits 254 to 0 of the number in s, without its last
      swap: xr and zr get the coordinates x_2 and z_2 that the loop leaves. */
  method MLadder(xr: array<Byte>, zr: array<Byte>, s: array<Byte>)
    requires xr.Length == zr.Length == s.Length == 32 && xr != zr
    modifies xr, zr
    ensures var w := Rfc7748.Loop(old(Val(s[..])), old(F(xr)), 0).w;
            F(xr) == w.x2 && F(zr) == w.z2
  {
    hide F, Val, Rfc7748.Loop;
    ghost var k, u := Val(s[..]), F(xr);
    var work := new Work();
    StartWork(work, xr);
    LoopStart(k, u);
    var prevbit: Byte := 0;
    var j := 6;
    for i := 32 downto 0
      invariant j == if i == 32 then 6 else 7
      invariant prevbit <= 1
      invariant F(work.x0) == u && s[..] == old(s[..])
      invariant Rfc7748.Loop(k, u, if i == 32 then 255 else 8 * i) == Rfc7748.LoopState(work.Points(), prevbit)
    {
      while j >= 0
        invariant -1 <= j <= 7 && 8 * i + j < 255
        invariant prevbit <= 1
        invariant F(work.x0) == u && s[..] == old(s[..])
        invariant Rfc7748.Loop(k, u, 8 * i + j + 1) == Rfc7748.LoopState(work.Points(), prevbit)
      {
        prevbit := LadderBit(work, s, i, j, prevbit, u);
        j := j - 1;
      }
      j := 7;
    }
    Copy(xr, work.xp);
    Copy(zr, work.zp);
  }

  // ----- scalar multiplication -----

  /** The loop reads the bits 254 to 0 only, and after a clamped scalar the swap
      that the RFC's last conditional swap would do is 0. */
  lemma EvenNeedsNoLastSwap(k: nat, u: int)
    requires k % 2 == 0
    ensures Rfc7748.Loop(k, u, 0).swap == 0
    ensures Rfc7748.ScalarMult(k, u) == FMul(Rfc7748.Loop(k, u, 0).w.x2, FPow(Rfc7748.Loop(k, u, 0).w.z2, P - 2))
  {
    hide FMul, FPow, Rfc7748.Step, Rfc7748.CSwap;
    NoSwap(Rfc7748.Loop(k, u, 0).w);
  }

  lemma NoSwap(w: Rfc7748.Ladder)
    ensures Rfc7748.CSwap(0, w) == w
  {
  }

  /** The three masks on the first and the last byte are decodeScalar25519. */
  method Clamp(e: array<Byte>)
    requires e.Length == 32
    modifies e
    ensures Val(e[..]) == Rfc7748.DecodeScalar(Val(old(e[..])))
  {
    hide Val, And, Or;
    ghost var s := e[..];
    ClampBytes(e[0], e[31]);
    e[0] := And(e[0], 248);
    e[31] := And(e[31], 127);
    e[31] := Or(e[31], 64);
    ClampedVal(s, e[..]);
  }

  lemma ClampBytes(x: Byte, y: Byte)
    ensures And(x, 248) == x - x % 8
    ensures And(y, 127) == y % 128
    ensures Or(y % 128, 64) == y % 64 + 64
  {
    hide And, Or, Pow2;
    SmallPow2s();
    AndEights(x);
    AndOnes(7, y);
    OrTop(y % 128, 6);
  }

  lemma SmallPow2s()
    ensures Pow2(5) == 32 && Pow2(6) == 64 && Pow2(7) == 128
  {
    assert Pow2(3) == 8;
  }

  /** 248 is 31 moved up by three bits. */
  lemma AndEights(x: Byte)
    ensures And(x, 248) == x - x % 8
  {
    hide And, Pow2;
    AndDouble(x, 124);
    AndDouble(x / 2, 62);
    AndDouble(x / 2 / 2, 31);
    AndOnes(5, x / 2 / 2 / 2);
    SmallPow2s();
    assert x / 2 / 2 / 2 == x / 8;
  }

  lemma AndDouble(x: nat, m: nat)
    ensures And(x, 2 * m) == 2 * And(x / 2, m)
  {
  }

  /** Setting bit n of a number of n+1 bits. */
  lemma {:induction false} OrTop(y: nat, n: nat)
    requires y < 2 * Pow2(n)
    ensures Or(y, Pow2(n)) == y % Pow2(n) + Pow2(n)
  {
    if n > 0 {
      OrTop(y / 2, n - 1);
      ModTwice(y, Pow2(n - 1));
    } else if y == 1 {
      assert Or(1, 1) == 1 + 2 * Or(0, 0);
    }
  }

  lemma ClampedVal(s: seq<Byte>, e: seq<Byte>)
    requires |s| == |e| == 32 && e[1..31] == s[1..31]
    requires e[0] == s[0] - s[0] % 8 && e[31] == s[31] % 64 + 64
    ensures Val(e) == Rfc7748.DecodeScalar(Val(s))
  {
    hide Val, Shift;
    EndsOf(s);
    EndsOf(e);
    ClampedNumber(Val(s), s[0], Val(s[1..31]), s[31]);
  }

  const TWO240 := 0x1_0000_0000_0000_0000_0000_0000_0000_0000_0000_0000_0000_0000_0000_0000_0000

  lemma EndsOf(s: seq<Byte>)
    requires |s| == 32
    ensures Val(s) == s[0] + 256 * Val(s[1..31]) + TWO248 * s[31]
    ensures Val(s[1..31]) < TWO240
  {
    Top31(s);
    assert s[0..31][1..] == s[1..31];
    ValBound(s[1..31]);
    Shift31(1);
    assert Shift(31, 1) == 256 * Shift(30, 1);
  }

  lemma ClampedQuotient(w: int, low: int, mid: int, top: int)
    requires w == low + 32 * mid + (TWO248 / 8) * top
    requires 0 <= low < 32 && 0 <= mid < TWO240 && 0 <= top < 256
    ensures w % Rfc7748.TWO251 == low + 32 * mid + (TWO248 / 8) * (top % 64)
  {
    RemainderUnique(w, Rfc7748.TWO251, top / 64, low + 32 * mid + (TWO248 / 8) * (top % 64));
  }

  lemma ClampedNumber(v: nat, low: int, mid: int, top: int)
    requires v == low + 256 * mid + TWO248 * top
    requires 0 <= low < 256 && 0 <= mid < TWO240 && 0 <= top < 256
    ensures Rfc7748.DecodeScalar(v) == (low - low % 8) + 256 * mid + TWO248 * (top % 64 + 64)
  {
    var w := low / 8 + 32 * mid + (TWO248 / 8) * top;
    assert v / 8 == w;
    ClampedQuotient(w, low / 8, mid, top);
  }

  /** The affine coordinate of (t : z), in canonical bytes. */
  method PackAffine(r: array<Byte>, t: array<Byte>, z: array<Byte>)
    requires r.Length == t.Length == z.Length == 32 && t != z
    modifies r, t, z
    ensures r[..] == Encode(FMul(old(F(t)), FPow(old(F(z)), P - 2)), 32)
  {
    hide F, FMul, FPow;
    FeInvert(z, z);
    FeMul(t, t, z);
    FePack(r, t);
  }

  /** The clamped copy of the scalar. */
  method ClampedCopy(s: array<Byte>) returns (e: array<Byte>)
    requires s.Length == 32
    ensures fresh(e) && e.Length == 32 && Val(e[..]) == Rfc7748.DecodeScalar(Val(s[..]))
  {
    hide F, Val, Rfc7748.DecodeScalar;
    e := new Byte[32];
    Copy(e, s);
    Clamp(e);
  }

  method CryptoScalarmult(r: array<Byte>, s: array<Byte>, p: array<Byte>)
    requires r.Length == s.Length == p.Length == 32
    modifies r
    ensures r[..] == Rfc7748.X25519(old(s[..]), old(p[..]))
  {
    hide F, Val, FMul, FPow, Encode, Rfc7748.Loop, Rfc7748.DecodeScalar, Rfc7748.DecodeU, Rfc7748.X25519;
    ghost var s0, p0 := s[..], p[..];
    var e := ClampedCopy(s);
    var t, z := new Byte[32], new Byte[32];
    FeUnpack(t, p);
    Unpacked(t, Val(p0));
    MLadder(t, z, e);
    X25519WithoutLastSwap(s0, p0);
    PackAffine(r, t, z);
  }

  lemma X25519WithoutLastSwap(s: seq<Byte>, p: seq<Byte>)
    requires |s| == |p| == 32
    ensures var w := Rfc7748.Loop(Rfc7748.DecodeScalar(Val(s)), Rfc7748.DecodeU(Val(p)), 0).w;
      Rfc7748.X25519(s, p) == Encode(FMul(w.x2, FPow(w.z2, P - 2)), 32)
  {
    hide Val, FMul, FPow, Encode, Rfc7748.Loop, Rfc7748.DecodeScalar, Rfc7748.DecodeU, Rfc7748.ScalarMult;
    DecodedIsEven(Val(s));
    EvenNeedsNoLastSwap(Rfc7748.DecodeScalar(Val(s)), Rfc7748.DecodeU(Val(p)));
  }

  lemma Unpacked(t: array<Byte>, v: nat)
    requires Val(t[..]) == v % TWO255
    ensures F(t) == Rfc7748.DecodeU(v)
  {
  }

  lemma DecodedIsEven(v: nat)
    ensures Rfc7748.DecodeScalar(v) % 8 == 0
    ensures Rfc7748.TWO254 <= Rfc7748.DecodeScalar(v) < TWO255
  {
  }
}
