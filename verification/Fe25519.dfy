/** Field arithmetic on 32 bytes (fe25519.c). Every 32-byte string stands for an
    integer modulo p; only freeze makes the string canonical. A fe25519 is its
    array v; r may be any of the arguments. */
module Fe25519 {
  import opened Bits
  import opened Bytes
  import opened Bigint
  import opened Karatsuba
  import opened Field25519

  /** The element of the field that 32 bytes stand for. */
  function F(x: array<Byte>): int
    reads x
  {
    Val(x[..]) % P
  }

  lemma Whole(x: array<Byte>)
    requires x.Length == 32
    ensures x[..] == x[0..32]
  {
  }

  // ----- addition -----

  const TWO248 := 0x1_0000_0000_0000_0000_0000_0000_0000_0000_0000_0000_0000_0000_0000_0000_0000_00

  lemma Shift31(v: int)
    ensures Shift(31, v) == TWO248 * v
  {
    Shift32(v);
    assert Shift(32, v) == 256 * Shift(31, v);
  }

  /** (carry << 1) | (top >> 7) for a carry bit and a byte. */
  lemma TopBits(carry: Byte, top: Byte)
    requires carry <= 1
    ensures Or(2 * carry, top / 128) == 2 * carry + top / 128
    ensures And(top, 0x7f) == top % 128
  {
    AndOnes(7, top);
    assert Pow2(7) == 128;
    assert top / 128 <= 1;
    assert carry == 1 ==> Or(2, 1) == 1 + 2 * Or(1, 0);
  }

  lemma Top31(s: seq<Byte>)
    requires |s| == 32
    ensures Val(s) == Val(s[0..31]) + TWO248 * s[31]
  {
    hide Val, Shift;
    assert s == s[0..31] + [s[31]];
    ValSnoc(s[0..31], s[31]);
    Shift31(s[31]);
  }

  /** Bits 255 and 256 of a sum come back as 19 and 38. */
  lemma FoldTop(v: int, c: int, low: int, top: int, low': int, u: int, v': int)
    requires v == low + TWO248 * top
    requires low' + TWO248 * u == low + (2 * c + top / 128) * 19
    requires v' == low' + TWO248 * (top % 128 + u)
    ensures v' % P == (v + TWO256 * c) % P
  {
    SameResidue(v + TWO256 * c, v', 2 * c + top / 128);
  }

  /** The second half of fe25519_add: folds the bits from 2^255 up, the carry of the
      addition among them. The last byte does not overflow. */
  method FoldTopBits(r: array<Byte>, carry: Byte)
    requires r.Length == 32 && carry <= 1
    modifies r
    ensures F(r) == (Val(old(r[..])) + TWO256 * carry) % P
  {
    hide Val, Shift, And, Or;
    ghost var s := r[..];
    TopBits(carry, r[31]);
    var tmp := Or(2 * carry, r[31] / 128) * 19;
    tmp := CarryUp(r, 0, 31, tmp);
    ghost var low := r[0..31];
    assert s[31] == r[31];
    assert And(r[31], 0x7f) + tmp <= 184;
    r[31] := (And(r[31], 0x7f) + tmp) % 256;
    FoldedString(s, carry, low, tmp, r[..]);
  }

  lemma FoldedString(s: seq<Byte>, carry: int, low: seq<Byte>, u: int, z: seq<Byte>)
    requires |s| == |z| == 32 && low == z[0..31]
    requires Val(low) + Shift(31, u) == Val(s[0..31]) + (2 * carry + s[31] / 128) * 19
    requires z[31] == s[31] % 128 + u
    ensures Val(z) % P == (Val(s) + TWO256 * carry) % P
  {
    hide Val, Shift;
    Top31(s);
    Top31(z);
    Shift31(u);
    FoldTop(Val(s), carry, Val(s[0..31]), s[31], Val(low), u, Val(z));
  }

  method FeAdd(r: array<Byte>, a: array<Byte>, b: array<Byte>)
    requires r.Length == a.Length == b.Length == 32
    modifies r
    ensures F(r) == FAdd(old(F(a)), old(F(b)))
  {
    hide Val, Shift;
    Whole(a);
    Whole(b);
    ghost var x, y := Val(a[..]), Val(b[..]);
    var carry := BigintAdd(r, 0, a, 0, b, 0, 32);
    Shift32(carry);
    Whole(r);
    FoldTopBits(r, carry);
    AddResidues(x, y);
  }

  // ----- subtraction -----

  /** The loops of fe25519_sub: takes a small number off the len low bytes. */
  method BorrowUp(r: array<Byte>, len: nat, sub: int) returns (tmp: int)
    requires len <= r.Length && 0 <= sub <= 38
    modifies r
    ensures 0 <= tmp && (sub == 0 || 0 < len ==> tmp <= 1)
    ensures Val(r[0..len]) + sub == Val(old(r[0..len])) + Shift(len, tmp)
    ensures forall k | len <= k < r.Length :: r[k] == old(r[k])
  {
    hide Val, Shift;
    ghost var h, z: seq<Byte> := r[0..len], [];
    tmp := sub;
    Start(tmp);
    assert h[..0] == [];
    for i := 0 to len
      invariant 0 <= tmp <= 38 && (sub == 0 || 0 < i ==> tmp <= 1)
      invariant |z| == i && z == r[0..i]
      invariant Val(z) + sub == Val(h[..i]) + Shift(i, tmp)
      invariant forall k | i <= k < r.Length :: r[k] == old(r[k])
    {
      ghost var t := tmp;
      tmp := (r[i] - tmp) % 0x10000;
      r[i] := tmp % 256;
      tmp := tmp / 0x8000;
      BorrowStep(h[i], t, r[i], tmp);
      StepBorrow(z, h, sub, t, r[i], tmp);
      z := z + [r[i]];
    }
    assert h[..len] == h;
  }

  lemma BorrowStep(x: Byte, t: int, lo: Byte, hi: int)
    requires 0 <= t <= 38
    requires lo == (x - t) % 0x10000 % 256 && hi == (x - t) % 0x10000 / 0x8000
    ensures x + 256 * hi == lo + t && 0 <= hi <= 1
  {
    var d := if x < t then x - t + 0x10000 else x - t;
    assert d == (x - t) % 0x10000;
  }

  lemma StepBorrow(z: seq<Byte>, h: seq<Byte>, sub: int, t: int, lo: Byte, hi: int)
    requires |z| < |h| && h[|z|] + 256 * hi == lo + t
    requires Val(z) + sub == Val(h[..|z|]) + Shift(|z|, t)
    ensures Val(z + [lo]) + sub == Val(h[..|z| + 1]) + Shift(|z| + 1, hi)
  {
    hide Val, Shift;
    ValSnoc(z, lo);
    ValTake(h, |z|);
    CarryStep(|z|, h[|z|], hi, lo, t, 0);
    ShiftZero(|z|);
  }

  const TWO24 := 0x100_0000
  const TWO232 := 0x1_0000_0000_0000_0000_0000_0000_0000_0000_0000_0000_0000_0000_0000_0000_00

  lemma Low3(s: seq<Byte>)
    requires |s| == 32
    ensures Val(s) == Val(s[0..3]) + TWO24 * Val(s[3..])
    ensures Val(s[0..3]) < TWO24 && Val(s[3..]) < TWO232
  {
    hide Val, Shift;
    assert s == s[0..3] + s[3..];
    ValAppend(s[0..3], s[3..]);
    ValBound(s[0..3]);
    ValBound(s[3..]);
    Shift3(Val(s[3..]));
    Shift3(1);
    ShiftShift(3, 29, 1);
    Shift3(Shift(29, 1));
    Shift32(1);
  }

  lemma Shift3(v: int)
    ensures Shift(3, v) == TWO24 * v
  {
    assert Shift(1, v) == 256 * v;
    assert Shift(2, v) == 256 * Shift(1, v);
  }

  /** Where the first correction borrows, what is left is within 38 of 2^256, so
      the second one finds enough in the three low bytes. */
  lemma NoThirdCorrection(v0: int, borrow: int, v1: int, c: int, low: int, rest: int, low': int, out: int)
    requires 0 <= borrow <= 1 && 0 <= c <= 1 && 0 <= v0
    requires v1 + 38 * borrow == v0 + TWO256 * c && v1 == low + TWO24 * rest
    requires 0 <= rest < TWO232 && 0 <= low' < TWO24 && 0 <= low && 0 <= out
    requires low' + 38 * c == low + TWO24 * out
    ensures out == 0
    ensures (low' + TWO24 * rest) % P == (v0 - TWO256 * borrow) % P
  {
    SameResidue(low' + TWO24 * rest, v0 - TWO256 * borrow, 2 * c + 2 * borrow);
  }

  /** The second half of fe25519_sub: 2^256 is 38 modulo p. */
  method FoldBorrow(r: array<Byte>, borrow: Byte)
    requires r.Length == 32 && borrow <= 1
    modifies r
    ensures F(r) == (Val(old(r[..])) - TWO256 * borrow) % P
  {
    hide Val, Shift;
    Whole(r);
    ghost var s0 := r[..];
    var tmp := BorrowUp(r, 32, 38 * borrow);
    Whole(r);
    Shift32(tmp);
    ghost var s1, c := r[..], tmp;
    Low3(s1);
    assert s1[0..3] == r[0..3];
    tmp := BorrowUp(r, 3, 38 * tmp);
    ghost var s2 := r[..];
    Low3(s2);
    assert s2[0..3] == r[0..3] && s2[3..] == s1[3..];
    Shift3(tmp);
    NoThirdCorrection(Val(s0), borrow, Val(s1), c, Val(s1[0..3]), Val(s1[3..]), Val(s2[0..3]), tmp);
  }

  method FeSub(r: array<Byte>, a: array<Byte>, b: array<Byte>)
    requires r.Length == a.Length == b.Length == 32
    modifies r
    ensures F(r) == FSub(old(F(a)), old(F(b)))
  {
    hide Val, Shift;
    Whole(a);
    Whole(b);
    ghost var x, y := Val(a[..]), Val(b[..]);
    var borrow := BigintSub(r, 0, a, 0, b, 0, 32);
    Shift32(borrow);
    Whole(r);
    FoldBorrow(r, borrow);
    SubResidues(x, y);
  }

  // ----- multiplication -----

  /** One step of the first pass: 38 times a high byte, a low byte and a carry. */
  lemma FoldStep(z: seq<Byte>, low: seq<Byte>, high: seq<Byte>, c: int, uv: nat)
    requires |z| < |low| == |high|
    requires Val(z) + Shift(|z|, c) == Val(low[..|z|]) + 38 * Val(high[..|z|])
    requires uv == 38 * high[|z|] as int + c + low[|z|]
    ensures Val(z + [uv % 256]) + Shift(|z| + 1, uv / 256) == Val(low[..|z| + 1]) + 38 * Val(high[..|z| + 1])
  {
    hide Val, Shift;
    var i := |z|;
    ValSnoc(z, uv % 256);
    ValTake(low, i);
    ValTake(high, i);
    CarryStep(i, uv % 256, uv / 256, low[i], 38 * high[i] as int, c);
    ShiftTimes(i, 38, high[i]);
  }

  lemma ShiftTimes(n: nat, m: int, v: int)
    ensures Shift(n, m * v) == m * Shift(n, v)
  {
    ShiftMul(n, v, m);
    Swap(Shift(n, v), m);
    Swap(v, m);
  }

  /** The first pass of the reduction: r + 2^256 * (UV >> 8) = low half + 38 * high half.
      UV stays below 2^16 throughout; the carry is at most 38. */
  method FoldHigh(r: array<Byte>, t: array<Byte>) returns (uv: int)
    requires r.Length == 32 && t.Length == 64 && r != t
    modifies r
    ensures 0 <= uv / 256 <= 38
    ensures Val(r[..]) + Shift(32, uv / 256) == Val(t[0..32]) + 38 * Val(t[32..64])
  {
    hide Val, Shift;
    uv := 0;
    ghost var low, high, z: seq<Byte> := t[0..32], t[32..64], [];
    Start(0);
    assert low[..0] == [] && high[..0] == [];
    for i := 0 to 32
      invariant 0 <= uv <= 9983
      invariant |z| == i && z == r[0..i]
      invariant Val(z) + Shift(i, uv / 256) == Val(low[..i]) + 38 * Val(high[..i])
    {
      ghost var c := uv / 256;
      uv := (t[i + 32] as int * 32 + t[i + 32] as int * 4 + t[i + 32] as int * 2 + uv / 256 + t[i]) % 0x10000;
      FoldStep(z, low, high, c, uv);
      r[i] := uv % 256;
      z := z + [r[i]];
    }
    assert r[..] == z && low[..32] == low && high[..32] == high;
  }

  lemma Low2(s: seq<Byte>)
    requires |s| == 32
    ensures Val(s) == Val(s[0..2]) + 0x1_0000 * Val(s[2..])
    ensures Val(s[0..2]) < 0x1_0000 && Val(s) < TWO256
  {
    hide Val, Shift;
    assert s == s[0..2] + s[2..];
    ValAppend(s[0..2], s[2..]);
    ValBound(s[0..2]);
    ValBound(s);
    Shift2(Val(s[2..]));
    Shift2(1);
    Shift32(1);
  }

  lemma Shift2(v: int)
    ensures Shift(2, v) == 0x1_0000 * v
  {
    assert Shift(1, v) == 256 * v;
  }

  /** Where the second pass carries out, what is left is below 1444, so the third
      pass carries nothing out of the two low bytes. */
  lemma TwoBytesAreEnough(v0: int, c0: int, v1: int, c1: int, low: int, rest: int, low': int, out: int)
    requires 0 <= c0 <= 38 && 0 <= c1 && 0 <= v0 < TWO256 && 0 <= v1
    requires v1 + TWO256 * c1 == v0 + 38 * c0
    requires v1 == low + 0x1_0000 * rest && 0 <= low < 0x1_0000 && 0 <= rest
    requires low' + 0x1_0000 * out == low + 38 * c1 && 0 <= low' < 0x1_0000 && 0 <= out
    ensures c1 <= 1 && out == 0
    ensures (low' + 0x1_0000 * rest) % P == (v0 + TWO256 * c0) % P
  {
    SameResidue(v0 + TWO256 * c0, low' + 0x1_0000 * rest, 2 * c0 + 2 * c1);
  }

  /** The second and the third pass of the reduction. The third loop runs over three
      bytes and the source asks whether two are enough: they are, the carry is 0
      when the third byte is reached. */
  method FoldCarry(r: array<Byte>, c: int)
    requires r.Length == 32 && 0 <= c <= 38
    modifies r
    ensures F(r) == (Val(old(r[..])) + TWO256 * c) % P
  {
    hide Val, Shift;
    Whole(r);
    ghost var s0 := r[..];
    Low2(s0);
    var uv := CarryUp(r, 0, 32, 38 * c);
    Whole(r);
    Shift32(uv);
    ghost var s1, c1 := r[..], uv;
    Low2(s1);
    assert s1[0..2] == r[0..2];
    assert uv <= 1 by { OnlyOne(Val(s0), c, Val(s1), uv); }
    uv := CarryUp(r, 0, 2, 38 * uv);
    ghost var s2, low := r[..], r[0..2];
    ValBound(low);
    Shift2(1);
    Shift2(uv);
    TwoBytesAreEnough(Val(s0), c, Val(s1), c1, Val(s1[0..2]), Val(s1[2..]), Val(low), uv);
    assert uv == 0;
    uv := CarryUp(r, 2, 1, uv);
    UnchangedByte(s2[2], r[2], r[2..3], uv);
    assert r[..] == s2 && s2[2..] == s1[2..];
    Low2(s2);
  }

  lemma OnlyOne(v0: int, c0: int, v1: int, c1: int)
    requires 0 <= c0 <= 38 && v0 < TWO256 && 0 <= v1 && v1 + TWO256 * c1 == v0 + 38 * c0
    ensures c1 <= 1
  {
  }

  lemma UnchangedByte(x: Byte, y: Byte, s: seq<Byte>, u: int)
    requires s == [y] && 0 <= u && u <= 0
    requires Val(s) + Shift(1, u) == Val([x])
    ensures x == y
  {
    ValOne(x);
    ValOne(y);
    ShiftZero(1);
  }

  method FeMul(r: array<Byte>, a: array<Byte>, b: array<Byte>)
    requires r.Length == a.Length == b.Length == 32
    modifies r
    ensures F(r) == FMul(old(F(a)), old(F(b)))
  {
    hide Val, Shift;
    ghost var x, y := Val(a[..]), Val(b[..]);
    var t := new Byte[64];
    BigintMul32(t, a, b);
    var uv := FoldHigh(r, t);
    ghost var low, high := t[0..32], t[32..64];
    assert t[..] == low + high;
    FoldProduct(low, high, Val(r[..]), uv / 256);
    FoldCarry(r, uv / 256);
    MulResidues(x, y);
  }

  lemma FoldProduct(low: seq<Byte>, high: seq<Byte>, v: int, c: int)
    requires |low| == 32 && v + Shift(32, c) == Val(low) + 38 * Val(high)
    ensures Val(low + high) % P == (v + TWO256 * c) % P
  {
    hide Val, Shift;
    ValAppend(low, high);
    Shift32(Val(high));
    Shift32(c);
    SameResidue(Val(low + high), v + TWO256 * c, 2 * Val(high));
  }

  method FeSquare(r: array<Byte>, x: array<Byte>)
    requires r.Length == x.Length == 32
    modifies r
    ensures F(r) == FMul(old(F(x)), old(F(x)))
  {
    FeMul(r, x, x);
  }

  // ----- canonical form -----

  /** ECCParam_p. */
  const P_BYTES: seq<Byte> := [0xED] + Ones(30) + [0x7F]

  function Ones(n: nat): (s: seq<Byte>)
    ensures |s| == n
  {
    if n == 0 then [] else [0xFF] + Ones(n - 1)
  }

  lemma {:induction false} ValOnes(n: nat)
    ensures Val(Ones(n)) == Shift(n, 1) - 1
  {
    if n > 0 {
      ValOnes(n - 1);
      assert Ones(n)[1..] == Ones(n - 1);
    }
  }

  lemma PBytesAreP()
    ensures |P_BYTES| == 32 && Val(P_BYTES) == P
  {
    hide Val, Shift, Ones;
    var a: seq<Byte>, b: seq<Byte>, c: seq<Byte> := [0xED], Ones(30), [0x7F];
    ValOnes(30);
    ValAppend(a + b, c);
    ValAppend(a, b);
    ValOne(0xED);
    ValOne(0x7F);
    Shift31(0x7F);
    Shift31(1);
    Shift1(Val(b));
    Shift1(Shift(30, 1));
    ShiftShift(1, 30, 1);
  }

  lemma Shift1(v: int)
    ensures Shift(1, v) == 256 * v
  {
  }

  method FeCmov(r: array<Byte>, x: array<Byte>, b: Byte)
    requires r.Length == x.Length == 32
    modifies r
    ensures b == 0 ==> r[..] == old(r[..])
    ensures b == 1 ==> r[..] == old(x[..])
  {
    BigintCmov(r, x, b, 32);
    assert r[..] == r[..32] && old(x[..]) == old(x[..32]);
  }

  /** One of the two conditional subtractions of freeze. */
  method SubtractPOnce(r: array<Byte>, p: array<Byte>, rt: array<Byte>)
    requires r.Length == p.Length == rt.Length == 32 && r != p && rt != p && r != rt
    requires p[..] == P_BYTES
    modifies r, rt
    ensures var v := Val(old(r[..])); Val(r[..]) == if v < P then v else v - P
  {
    hide Val, Shift, P_BYTES, Ones;
    PBytesAreP();
    Whole(r);
    Whole(p);
    ghost var s := r[..];
    var c := BigintSub(rt, 0, r, 0, p, 0, 32);
    Shift32(c);
    Shift32(1);
    Whole(rt);
    ValBound(rt[..]);
    assert r[..] == s;
    FeCmov(r, rt, 1 - c);
  }

  method FeFreeze(r: array<Byte>)
    requires r.Length == 32
    modifies r
    ensures Val(r[..]) == old(F(r))
  {
    hide Val, Shift, P_BYTES, Ones;
    var rt := new Byte[32];
    PBytesAreP();
    var p := new Byte[32](i requires 0 <= i < 32 => P_BYTES[i]);
    assert p[..] == P_BYTES;
    Low2(r[..]);
    SubtractPOnce(r, p, rt);
    SubtractPOnce(r, p, rt);
  }

  // ----- bytes in and out -----

  /** The assignment of one field element to another. */
  method Copy(r: array<Byte>, x: array<Byte>)
    requires r.Length == x.Length == 32
    modifies r
    ensures r[..] == old(x[..]) && F(r) == old(F(x))
  {
    for i := 0 to 32
      invariant forall k | 0 <= k < i :: r[k] == old(x[k])
      invariant forall k | i <= k < 32 :: x[k] == old(x[k])
    {
      r[i] := x[i];
    }
  }

  method FeSetZero(r: array<Byte>)
    requires r.Length == 32
    modifies r
    ensures Val(r[..]) == 0
  {
    for i := 0 to 32
      invariant forall k | 0 <= k < i :: r[k] == 0
    {
      r[i] := 0;
    }
    ValZeros(r[..]);
  }

  method FeSetOne(r: array<Byte>)
    requires r.Length == 32
    modifies r
    ensures Val(r[..]) == 1
  {
    r[0] := 1;
    for i := 1 to 32
      invariant r[0] == 1
      invariant forall k | 1 <= k < i :: r[k] == 0
    {
      r[i] := 0;
    }
    ValZeros(r[..][1..]);
  }

  /** r := x without bit 255. */
  method FeUnpack(r: array<Byte>, x: array<Byte>)
    requires r.Length == x.Length == 32
    modifies r
    ensures Val(r[..]) == Val(old(x[..])) % TWO255
  {
    hide Val, And, Pow2;
    ghost var s := x[..];
    Copy(r, x);
    AndOnes(7, r[31]);
    assert Pow2(7) == 128 by { SevenBits(); }
    r[31] := And(r[31], 127);
    ClearedTop(s, r[..]);
  }

  lemma SevenBits()
    ensures Pow2(7) == 128
  {
  }

  lemma ClearedTop(s: seq<Byte>, z: seq<Byte>)
    requires |s| == |z| == 32 && z[..31] == s[..31] && z[31] == s[31] % 128
    ensures Val(z) == Val(s) % TWO255
  {
    hide Val;
    Top31(s);
    Top31(z);
    ValBound(s[0..31]);
    Shift31(1);
    assert s[0..31] == s[..31] && z[0..31] == z[..31];
    assert Val(s) == Val(z) + TWO255 * (s[31] / 128);
  }

  /** r := the 32 bytes of the canonical integer. */
  method FePack(r: array<Byte>, x: array<Byte>)
    requires r.Length == x.Length == 32
    modifies r
    ensures r[..] == Encode(old(F(x)), 32)
  {
    hide Val;
    var y := new Byte[32];
    Copy(y, x);
    FeFreeze(y);
    EncodeVal(y[..]);
    Copy(r, y);
  }

  method FeIsEqVartime(x: array<Byte>, y: array<Byte>) returns (eq: int)
    requires x.Length == y.Length == 32
    ensures eq == if F(x) == F(y) then 1 else 0
  {
    hide Val;
    var t1, t2 := new Byte[32], new Byte[32];
    Copy(t1, x);
    Copy(t2, y);
    FeFreeze(t1);
    FeFreeze(t2);
    for i := 0 to 32
      invariant t1[..i] == t2[..i]
    {
      if t1[i] != t2[i] {
        ValDistinguishes(t1[..], t2[..], i);
        return 0;
      }
    }
    assert t1[..] == t1[..32] && t2[..] == t2[..32];
    return 1;
  }

  method FeNeg(r: array<Byte>, x: array<Byte>)
    requires r.Length == x.Length == 32
    modifies r
    ensures F(r) == FSub(0, old(F(x)))
  {
    hide Val;
    var t := new Byte[32];
    FeSetZero(t);
    FeSub(r, t, x);
  }

  method FeGetParity(x: array<Byte>) returns (b: Byte)
    requires x.Length == 32
    ensures b == F(x) % 2
  {
    var t := new Byte[32];
    Copy(t, x);
    FeFreeze(t);
    AndOnes(1, t[0]);
    b := And(t[0], 1);
  }
}
