/** Two-level Karatsuba multiplication (bigint.c, from bigint_mul16c on). */
module Karatsuba {
  import opened Bits
  import opened Bytes
  import opened Bigint

  // ----- the two patterns that the three functions share -----

  /** Subtracts n bytes of r from n+1 bytes of t, the borrow from the top byte. */
  method SubLow(t: array<Byte>, n: nat, r: array<Byte>, ro: nat)
    requires n < t.Length && Inside(r, ro, n) && t != r
    modifies t
    ensures var v := old(Val(t[..n + 1])) - Val(r[ro..ro + n]);
            Val(t[..n + 1]) == if 0 <= v then v else v + Shift(n + 1, 1)
    ensures forall k | n < k < t.Length :: t[k] == old(t[k])
  {
    ghost var top, low := t[n], t[0..n];
    assert t[..n + 1] == low + [top];
    ValSnoc(low, top);
    hide Val, Shift;
    var borrow := BigintSub(t, 0, t, 0, r, ro, n);
    t[n] := (t[n] as int - borrow) % 256;
    ghost var z := t[0..n];
    assert t[..n + 1] == z + [t[n]];
    ValSnoc(z, t[n]);
    TopByte(n, top, borrow, t[n]);
    ValBound(z + [t[n]]);
  }

  lemma TopByte(n: nat, top: Byte, borrow: Byte, new': Byte)
    requires borrow <= 1 && new' == (top as int - borrow) % 256
    ensures Shift(n, top) == Shift(n, borrow) + Shift(n, new') - (if top < borrow then Shift(n + 1, 1) else 0)
    ensures Shift(n + 1, 1) >= 0
  {
    ShiftMonotone(n + 1, 0, 1);
    ShiftZero(n + 1);
    if top < borrow {
      CarryStep(n, top, 1, borrow, new', 0);
      ShiftZero(n);
    } else {
      ShiftAdd(n, borrow, new', top);
    }
  }

  /** Where mid has become mid' with carry c, below it nothing has changed. */
  lemma JoinLow(low: seq<Byte>, mid: seq<Byte>, mid': seq<Byte>, t: int, c: int)
    requires |mid'| == |mid| && Val(mid') + Shift(|mid|, c) == Val(mid) + t
    ensures Val(low + mid') + Shift(|low| + |mid|, c) == Val(low + mid) + Shift(|low|, t)
  {
    hide *;
    ValAppend(low, mid);
    ValAppend(low, mid');
    ShiftShift(|low|, |mid|, c);
    ShiftAdd(|low|, Val(mid'), Shift(|mid|, c), Val(mid) + t);
    ShiftAdd(|low|, Val(mid), t, Val(mid) + t);
  }

  /** Where mid has become mid' with carry u, and high has become high' with carry c. */
  lemma JoinHigh(mid: seq<Byte>, mid': seq<Byte>, high: seq<Byte>, high': seq<Byte>, t: int, u: int, c: int)
    requires |mid'| == |mid| && Val(mid') + Shift(|mid|, u) == Val(mid) + t
    requires |high'| == |high| && Val(high') + Shift(|high|, c) == Val(high) + u
    ensures Val(mid' + high') + Shift(|mid| + |high|, c) == Val(mid + high) + t
  {
    hide *;
    JoinLow(mid, high, high', u, c);
    ValAppend(mid, high);
    ValAppend(mid', high');
    ValAppend(mid, high');
  }

  /** Adds n bytes of t into r at off, then carries up to the end of r's range. */
  method AddMiddle(r: array<Byte>, ro: nat, off: nat, t: array<Byte>, n: nat, total: nat) returns (u: int)
    requires off + n <= total && Inside(r, ro, total) && n <= t.Length && t != r
    modifies r
    ensures 0 <= u <= 1
    ensures Val(r[ro..ro + total]) + Shift(total, u)
         == Val(old(r[ro..ro + total])) + Shift(off, Val(t[0..n]))
    ensures forall k | 0 <= k < r.Length && !(ro <= k < ro + total) :: r[k] == old(r[k])
  {
    hide Val, Shift;
    ghost var before := r[..];
    u := BigintAdd(r, ro + off, r, ro + off, t, 0, n);
    ghost var between, carry := r[..], u;
    SameSlice(before, between, ro + off + n, ro + total);
    u := CarryUp(r, ro + off + n, total - off - n, u);
    SameSlice(between, r[..], ro + off, ro + off + n);
    SameSlice(before, r[..], ro, ro + off);
    MiddleAdded(before, r[..], ro, off, n, total, Val(t[0..n]), carry, u);
  }

  lemma SameSlice(a: seq<Byte>, b: seq<Byte>, i: nat, j: nat)
    requires i <= j <= |a| == |b| && forall k | i <= k < j :: a[k] == b[k]
    ensures a[i..j] == b[i..j]
  {
  }

  lemma MiddleAdded(a: seq<Byte>, b: seq<Byte>, o: nat, off: nat, n: nat, total: nat, t: int, carry: int, u: int)
    requires off + n <= total && o + total <= |a| == |b| && a[o..o + off] == b[o..o + off]
    requires Val(b[o + off..o + off + n]) + Shift(n, carry) == Val(a[o + off..o + off + n]) + t
    requires Val(b[o + off + n..o + total]) + Shift(total - off - n, u) == Val(a[o + off + n..o + total]) + carry
    ensures Val(b[o..o + total]) + Shift(total, u) == Val(a[o..o + total]) + Shift(off, t)
  {
    hide Val, Shift;
    ThreeParts(a, o, off, n, total);
    ThreeParts(b, o, off, n, total);
    var mid, mid' := a[o + off..o + off + n], b[o + off..o + off + n];
    var high, high' := a[o + off + n..o + total], b[o + off + n..o + total];
    JoinHigh(mid, mid', high, high', t, carry, u);
    JoinLow(a[o..o + off], mid + high, mid' + high', t, u);
  }

  lemma ThreeParts(a: seq<Byte>, o: nat, off: nat, n: nat, total: nat)
    requires off + n <= total && o + total <= |a|
    ensures a[o..o + total] == a[o..o + off] + (a[o + off..o + off + n] + a[o + off + n..o + total])
  {
  }

  // ----- the algebra -----

  lemma MiddleTerm(a0: int, a1: int, b0: int, b1: int, s: int, t: int)
    requires s == a0 + a1 && t == b0 + b1
    ensures s * t == a0 * b0 + a1 * b1 + (a0 * b1 + a1 * b0)
  {
    MulSum(a0, a1, s, t);
    MulSum(b0, b1, t, a0);
    MulSum(b0, b1, t, a1);
  }

  lemma Recombine(a0: int, a1: int, a: int, b0: int, b1: int, b: int, n: nat, low: int, mid: int, high: int)
    requires a == a0 + Shift(n, a1) && b == b0 + Shift(n, b1)
    requires low == a0 * b0 && mid == a0 * b1 + a1 * b0 && high == a1 * b1
    ensures a * b == low + Shift(n, mid) + Shift(2 * n, high)
  {
    hide *;
    MulSum(a0, Shift(n, a1), a, b);
    MulSum(b0, Shift(n, b1), b, a0);
    ShiftMul(n, b1, a0);
    ShiftMul(n, a1, b);
    MulSum(b0, Shift(n, b1), b, a1);
    ShiftMul(n, b1, a1);
    ShiftShift(n, n, high);
    ShiftAdd(n, a1 * b0, Shift(n, high), a1 * b);
    ShiftAdd(n, a0 * b1, a1 * b0, mid);
  }

  lemma ProductBound(x: int, y: int, m: int, n: int)
    requires 0 <= x <= m && 0 <= y <= n
    ensures 0 <= x * y <= m * n
  {
    Monotone(x, y, n);
    Monotone(n, x, m);
  }

  // ----- 16 bytes -----

  /** The sum of the two halves of a, its carry in the byte above. */
  method HalfSum(t0: array<Byte>, a: array<Byte>, ao: nat, n: nat)
    requires Inside(a, ao, 2 * n) && n < t0.Length && t0 != a
    modifies t0
    ensures t0[n] <= 1
    ensures Val(t0[0..n + 1]) == Val(a[ao..ao + n]) + Val(a[ao + n..ao + 2 * n])
  {
    hide Val, Shift;
    var carry := BigintAdd(t0, 0, a, ao, a, ao + n, n);
    ghost var z := t0[0..n];
    t0[n] := carry;
    assert t0[0..n + 1] == z + [carry];
    ValSnoc(z, carry);
  }

  /** A number below 256^n has nothing in byte n. */
  lemma TopIsZero(t: seq<Byte>, n: nat)
    requires n < |t| && Val(t) < Shift(n, 1)
    ensures Val(t[0..n]) == Val(t) && t[n] == 0
  {
    var low, high := t[0..n], t[n..];
    assert t == low + high;
    ValAppend(low, high);
    if Val(high) >= 1 {
      ShiftMonotone(n, 1, Val(high));
    }
    ShiftZero(n);
    assert Val(high) == 0 ==> high[0] == 0;
  }

  /** The middle term of the 16-byte product: t = (a0+a1)*(b0+b1) - a0*b0 - a1*b1,
      where r holds a0*b0 and a1*b1. */
  method Middle16(t: array<Byte>, r: array<Byte>, ro: nat, a: array<Byte>, ao: nat, b: array<Byte>, bo: nat)
    requires t.Length == 18 && Inside(r, ro, 32) && Inside(a, ao, 16) && Inside(b, bo, 16)
    requires t != a && t != b && t != r
    requires Val(r[ro..ro + 16]) == Val(a[ao..ao + 8]) * Val(b[bo..bo + 8])
    requires Val(r[ro + 16..ro + 32]) == Val(a[ao + 8..ao + 16]) * Val(b[bo + 8..bo + 16])
    modifies t
    ensures Val(t[0..17]) == Val(a[ao..ao + 8]) * Val(b[bo + 8..bo + 16]) + Val(a[ao + 8..ao + 16]) * Val(b[bo..bo + 8])
  {
    hide Val, Shift;
    ghost var a0, a1 := Val(a[ao..ao + 8]), Val(a[ao + 8..ao + 16]);
    ghost var b0, b1 := Val(b[bo..bo + 8]), Val(b[bo + 8..bo + 16]);
    var t0, t1 := new Byte[9], new Byte[9];
    HalfSum(t0, a, ao, 8);
    HalfSum(t1, b, bo, 8);
    BigintMul(t, 0, t0, 0, t1, 0, 9);
    MiddleFits(a[ao..ao + 8], a[ao + 8..ao + 16], b[bo..bo + 8], b[bo + 8..bo + 16]);
    MiddleTerm(a0, a1, b0, b1, Val(t0[0..9]), Val(t1[0..9]));
    TopIsZero(t[0..18], 17);
    assert t[0..18][0..17] == t[..17];
    SubLow(t, 16, r, ro);
    SubLow(t, 16, r, ro + 16);
    assert t[..17] == t[0..17];
  }

  lemma MiddleFits(a0: seq<Byte>, a1: seq<Byte>, b0: seq<Byte>, b1: seq<Byte>)
    requires |a0| == |a1| == |b0| == |b1| == 8
    ensures 0 <= Val(a0) * Val(b0) && 0 <= Val(a0) * Val(b1) && 0 <= Val(a1) * Val(b0) && 0 <= Val(a1) * Val(b1)
    ensures Val(a0) * Val(b0) + Val(a1) * Val(b1) + (Val(a0) * Val(b1) + Val(a1) * Val(b0)) < Shift(17, 1)
  {
    hide Val, Shift;
    var m := TWO64 - 1;
    Below64(a0);
    Below64(a1);
    Below64(b0);
    Below64(b1);
    ProductBound(Val(a0), Val(b0), m, m);
    ProductBound(Val(a0), Val(b1), m, m);
    ProductBound(Val(a1), Val(b0), m, m);
    ProductBound(Val(a1), Val(b1), m, m);
    ShiftByte(16, 1);
    Shift16(256);
  }

  lemma Below64(s: seq<Byte>)
    requires |s| == 8
    ensures Val(s) <= TWO64 - 1
  {
    ValBound(s);
    Shift8(1);
  }

  /** r := a * b, 32 bytes from 16 bytes each. */
  method BigintMul16(r: array<Byte>, ro: nat, a: array<Byte>, ao: nat, b: array<Byte>, bo: nat)
    requires Inside(r, ro, 32) && Inside(a, ao, 16) && Inside(b, bo, 16)
    requires r != a && r != b
    modifies r
    ensures Val(r[ro..ro + 32]) == Val(a[ao..ao + 16]) * Val(b[bo..bo + 16])
    ensures forall k | 0 <= k < r.Length && !(ro <= k < ro + 32) :: r[k] == old(r[k])
  {
    hide Val, Shift;
    ghost var a0, a1 := a[ao..ao + 8], a[ao + 8..ao + 16];
    ghost var b0, b1 := b[bo..bo + 8], b[bo + 8..bo + 16];
    assert a[ao..ao + 16] == a0 + a1 && b[bo..bo + 16] == b0 + b1;
    var t := new Byte[18];
    BigintMul(r, ro, a, ao, b, bo, 8);
    ghost var low := r[ro..ro + 16];
    BigintMul(r, ro + 16, a, ao + 8, b, bo + 8, 8);
    ghost var high := r[ro + 16..ro + 32];
    assert r[ro..ro + 16] == low;
    assert r[ro..ro + 32] == low + high;
    Middle16(t, r, ro, a, ao, b, bo);
    var u := AddMiddle(r, ro, 8, t, 17, 32);
    Reassemble(a0, a1, b0, b1, low, high, Val(t[0..17]));
    NoCarryOut(a0 + a1, b0 + b1, r[ro..ro + 32], u);
  }

  /** The three products put together are the whole product. */
  lemma Reassemble(a0: seq<Byte>, a1: seq<Byte>, b0: seq<Byte>, b1: seq<Byte>, low: seq<Byte>, high: seq<Byte>, mid: int)
    requires |a0| == |b0| && |low| == 2 * |a0|
    requires Val(low) == Val(a0) * Val(b0) && Val(high) == Val(a1) * Val(b1)
    requires mid == Val(a0) * Val(b1) + Val(a1) * Val(b0)
    ensures Val(low + high) + Shift(|a0|, mid) == Val(a0 + a1) * Val(b0 + b1)
  {
    hide *;
    ValAppend(a0, a1);
    ValAppend(b0, b1);
    ValAppend(low, high);
    Recombine(Val(a0), Val(a1), Val(a0 + a1), Val(b0), Val(b1), Val(b0 + b1), |a0|, Val(low), mid, Val(high));
  }

  lemma NoCarryOut(a: seq<Byte>, b: seq<Byte>, z: seq<Byte>, u: int)
    requires |a| == |b| && |z| == 2 * |a| && 0 <= u
    requires Val(z) + Shift(|z|, u) == Val(a) * Val(b)
    ensures u == 0 && Val(z) == Val(a) * Val(b)
  {
    hide *;
    var n := |a|;
    var s := Shift(n, 1);
    ValBound(a);
    ValBound(b);
    SquareBound(Val(a), Val(b), s);
    ShiftMul(n, 1, s);
    ShiftShift(n, n, 1);
    if u >= 1 {
      ShiftMonotone(2 * n, 1, u);
    }
    ShiftZero(2 * n);
  }

  lemma SquareBound(x: int, y: int, s: int)
    requires 0 <= x < s && 0 <= y < s
    ensures x * y < s * s
  {
    Monotone(x, y, s);
    Monotone(s, x, s);
    if x * s == s * s {
      Monotone(s, x, s - 1);
    }
  }

  // ----- 17 bytes -----

  /** Lines 64 to 70: the subtraction of 16 low bytes whose borrow goes through an
      int. u is what is then taken off t[17]: 0, or -1 where t[16] went negative. */
  method SubLowThroughInt(t: array<Byte>, r: array<Byte>) returns (u: int)
    requires t.Length == 18 && Inside(r, 0, 16) && t != r
    modifies t
    ensures var v := old(Val(t[0..17])) - Val(r[0..16]);
            && (u == if 0 <= v then 0 else -1)
            && Val(t[0..17]) == if 0 <= v then v else v + Shift(17, 1)
  {
    hide Val, Shift;
    u := t[16];
    ghost var top, low := t[16], t[0..16];
    assert t[0..17] == low + [top];
    ValSnoc(low, top);
    var borrow := BigintSub(t, 0, t, 0, r, 0, 16);
    u := u - borrow;
    t[16] := u % 256;
    u := u / 0x8000;
    t[17] := (t[17] - u) % 256;
    ghost var z := t[0..16];
    assert t[0..17] == z + [t[16]];
    ValSnoc(z, t[16]);
    TopByte(16, top, borrow, t[16]);
    ValBound(z + [t[16]]);
  }

  /** The middle term of the 17-byte product, in 17 bytes. The top bytes t[17] and
      r[33] do not matter: the result is right modulo 2^136 and it is below 2^136. */
  method Middle16c(t: array<Byte>, r: array<Byte>, a: array<Byte>, b: array<Byte>) returns (ghost u: int)
    requires t.Length == 18 && r.Length == 34 && a.Length == b.Length == 17
    requires t != a && t != b && t != r
    requires a[16] as int + b[16] as int <= 254
    requires Val(r[0..16]) == Val(a[0..8]) * Val(b[0..8])
    requires Val(r[16..34]) == Val(a[8..17]) * Val(b[8..17])
    modifies t
    ensures Val(t[0..17]) == Val(a[0..8]) * Val(b[8..17]) + Val(a[8..17]) * Val(b[0..8])
    ensures a[16] <= 1 && b[16] <= 1 ==> u == 0
  {
    hide Val, Shift;
    ghost var a0, a1 := a[0..8], a[8..17];
    ghost var b0, b1 := b[0..8], b[8..17];
    var t0, t1 := new Byte[9], new Byte[9];
    HalfSumTop(t0, a);
    HalfSumTop(t1, b);
    BigintMul(t, 0, t0, 0, t1, 0, 9);
    MiddleTerm(Val(a0), Val(a1), Val(b0), Val(b1), Val(t0[0..9]), Val(t1[0..9]));
    MiddleBelow136(a0, a1, b0, b1);
    if a[16] <= 1 && b[16] <= 1 {
      BothBelow136(a0, a1, b0, b1);
    }
    assert t[0..18] == t[..18];
    assert r[16..16 + 17] == r[16..34][..17];
    CutTop(r[16..34]);
    SubLow(t, 17, r, 16);
    CutTop(t[..18]);
    assert t[0..17] == t[..18][..17];
    ghost var v, k := Val(t[0..17]), t[17];
    u := SubLowThroughInt(t, r);
    ValBound(t[0..17]);
    Shift17(1);
    OnlyLow17Matter(Val(r[0..16]), Val(a0) * Val(b1) + Val(a1) * Val(b0), Val(r[16..34]), Val(r[16..33]), r[33], v, k, Val(t[0..17]), u);
  }

  lemma OnlyLow17Matter(low: int, mid: int, high: int, high17: int, r33: int, v: int, k: int, t: int, u: int)
    requires 0 <= mid < TWO136 && 0 <= t < TWO136
    requires high == high17 + TWO136 * r33
    requires low + high + mid - high17 == v + TWO136 * k
    requires u == (if 0 <= v - low then 0 else -1) && t == v - low - TWO136 * u
    ensures t == mid
    ensures 0 <= v < TWO136 && 0 <= high17 && high < TWO136 && 0 <= r33 && low + mid < TWO136 && 0 <= low ==> u == 0
  {
    var n := r33 - k - u;
    assert t - mid == TWO136 * n;
  }

  lemma CutTop(s: seq<Byte>)
    requires |s| == 18
    ensures Val(s) == Val(s[..17]) + TWO136 * s[17] && 0 <= Val(s[..17]) < TWO136
  {
    hide Val, Shift;
    assert s == s[..17] + [s[17]];
    ValSnoc(s[..17], s[17]);
    ValBound(s[..17]);
    Shift17(s[17]);
    Shift17(1);
  }

  lemma Shift17(v: int)
    ensures Shift(17, v) == TWO136 * v
  {
    ShiftByte(16, v);
    Shift16(256 * v);
  }

  const TWO136 := 0x100_0000_0000_0000_0000_0000_0000_0000_0000

  /** The sum of the 8 low and the 9 high bytes of a, the top byte taking the carry. */
  method HalfSumTop(t0: array<Byte>, a: array<Byte>)
    requires a.Length == 17 && t0.Length == 9 && t0 != a && a[16] <= 254
    modifies t0
    ensures Val(t0[0..9]) == Val(a[0..8]) + Val(a[8..17])
  {
    hide Val, Shift;
    var carry := BigintAdd(t0, 0, a, 0, a, 8, 8);
    ghost var z := t0[0..8];
    t0[8] := (a[16] as int + carry) % 256;
    assert t0[0..9] == z + [t0[8]];
    assert a[8..17] == a[8..16] + [a[16]];
    ValSnoc(z, t0[8]);
    ValSnoc(a[8..16], a[16]);
    ShiftAdd(8, a[16], carry, t0[8]);
  }

  lemma MiddleBelow136(a0: seq<Byte>, a1: seq<Byte>, b0: seq<Byte>, b1: seq<Byte>)
    requires |a0| == |b0| == 8 && |a1| == |b1| == 9
    requires a1[8] as int + b1[8] as int <= 254
    ensures 0 <= Val(a0) * Val(b1) + Val(a1) * Val(b0) < TWO136
  {
    hide Val, Shift;
    var m := TWO64 - 1;
    Below64(a0);
    Below64(b0);
    Below72(a1);
    Below72(b1);
    ProductBound(Val(a0), Val(b1), m, TWO64 * (b1[8] as int + 1) - 1);
    ProductBound(Val(b0), Val(a1), m, TWO64 * (a1[8] as int + 1) - 1);
  }

  /** With top bytes 0 or 1 neither product reaches 2^136. */
  lemma BothBelow136(a0: seq<Byte>, a1: seq<Byte>, b0: seq<Byte>, b1: seq<Byte>)
    requires |a0| == |b0| == 8 && |a1| == |b1| == 9
    requires a1[8] <= 1 && b1[8] <= 1
    ensures 0 <= Val(a0) * Val(b0) && Val(a1) * Val(b1) < TWO136
    ensures Val(a0) * Val(b0) + (Val(a0) * Val(b1) + Val(a1) * Val(b0)) < TWO136
  {
    hide Val, Shift;
    var m, n := TWO64, 2 * TWO64;
    Below64(a0);
    Below64(b0);
    Below72(a1);
    Below72(b1);
    ProductBound(Val(a0), Val(b0), m, m);
    ProductBound(Val(a0), Val(b1), m, n);
    ProductBound(Val(b0), Val(a1), m, n);
    ProductBound(Val(a1), Val(b1), n, n);
  }

  lemma Below72(s: seq<Byte>)
    requires |s| == 9
    ensures Val(s) <= TWO64 * (s[8] as int + 1) - 1
  {
    assert s == s[..8] + [s[8]];
    ValSnoc(s[..8], s[8]);
    Below64(s[..8]);
    Shift8(s[8]);
  }

  /** r := a * b, 34 bytes from 17 bytes each. It is enough that the two top bytes
      add up to 254 or less; in the one call they are carries, 0 or 1, and then
      t[16] never goes negative: u, taken off t[17], is 0. */
  method BigintMul16c(r: array<Byte>, a: array<Byte>, b: array<Byte>) returns (ghost u: int)
    requires r.Length == 34 && a.Length == b.Length == 17
    requires r != a && r != b
    requires a[16] as int + b[16] as int <= 254
    modifies r
    ensures Val(r[0..34]) == Val(a[0..17]) * Val(b[0..17])
    ensures a[16] <= 1 && b[16] <= 1 ==> u == 0
  {
    hide Val, Shift;
    ghost var a0, a1 := a[0..8], a[8..17];
    ghost var b0, b1 := b[0..8], b[8..17];
    assert a[0..17] == a0 + a1 && b[0..17] == b0 + b1;
    var t := new Byte[18];
    BigintMul(r, 0, a, 0, b, 0, 8);
    ghost var low := r[0..16];
    BigintMul(r, 16, a, 8, b, 8, 9);
    ghost var high := r[16..34];
    assert r[0..16] == low;
    assert r[0..34] == low + high;
    u := Middle16c(t, r, a, b);
    var c := AddMiddle(r, 0, 8, t, 17, 34);
    Reassemble(a0, a1, b0, b1, low, high, Val(t[0..17]));
    NoCarryOut(a0 + a1, b0 + b1, r[0..34], c);
  }

  // ----- 32 bytes -----

  /** The middle term of the 32-byte product, below 2^258 = 4 * 256^32. */
  method Middle32(t: array<Byte>, r: array<Byte>, a: array<Byte>, b: array<Byte>)
    requires t.Length == 34 && r.Length == 64 && a.Length == b.Length == 32
    requires t != a && t != b && t != r
    requires Val(r[0..32]) == Val(a[0..16]) * Val(b[0..16])
    requires Val(r[32..64]) == Val(a[16..32]) * Val(b[16..32])
    modifies t
    ensures Val(t[0..33]) == Val(a[0..16]) * Val(b[16..32]) + Val(a[16..32]) * Val(b[0..16])
  {
    hide Val, Shift;
    ghost var a0, a1 := a[0..16], a[16..32];
    ghost var b0, b1 := b[0..16], b[16..32];
    var t0, t1 := new Byte[17], new Byte[17];
    HalfSum(t0, a, 0, 16);
    HalfSum(t1, b, 0, 16);
    ghost var u := BigintMul16c(t, t0, t1);
    assert u == 0;
    MiddleTerm(Val(a0), Val(a1), Val(b0), Val(b1), Val(t0[0..17]), Val(t1[0..17]));
    MiddleBelow264(a0, a1, b0, b1);
    TopIsZero(t[0..34], 33);
    assert t[0..34][0..33] == t[..33];
    SubLow(t, 32, r, 0);
    SubLow(t, 32, r, 32);
    assert t[..33] == t[0..33];
  }

  lemma MiddleBelow264(a0: seq<Byte>, a1: seq<Byte>, b0: seq<Byte>, b1: seq<Byte>)
    requires |a0| == |a1| == |b0| == |b1| == 16
    ensures 0 <= Val(a0) * Val(b0) && 0 <= Val(a0) * Val(b1) && 0 <= Val(a1) * Val(b0) && 0 <= Val(a1) * Val(b1)
    ensures Val(a0) * Val(b0) + Val(a1) * Val(b1) + (Val(a0) * Val(b1) + Val(a1) * Val(b0)) < Shift(33, 1)
  {
    hide Val, Shift;
    var m := TWO128 - 1;
    Below128(a0);
    Below128(a1);
    Below128(b0);
    Below128(b1);
    ProductBound(Val(a0), Val(b0), m, m);
    ProductBound(Val(a0), Val(b1), m, m);
    ProductBound(Val(a1), Val(b0), m, m);
    ProductBound(Val(a1), Val(b1), m, m);
    ShiftByte(32, 1);
    Shift32(256);
  }

  lemma Below128(s: seq<Byte>)
    requires |s| == 16
    ensures Val(s) <= TWO128 - 1
  {
    ValBound(s);
    Shift16(1);
  }

  /** r := a * b, 64 bytes from 32 bytes each. */
  method BigintMul32(r: array<Byte>, a: array<Byte>, b: array<Byte>)
    requires r.Length == 64 && a.Length == b.Length == 32
    requires r != a && r != b
    modifies r
    ensures Val(r[..]) == Val(a[..]) * Val(b[..])
  {
    hide Val, Shift;
    ghost var a0, a1 := a[0..16], a[16..32];
    ghost var b0, b1 := b[0..16], b[16..32];
    assert a[..] == a0 + a1 && b[..] == b0 + b1;
    var t := new Byte[34];
    BigintMul16(r, 0, a, 0, b, 0);
    ghost var low := r[0..32];
    BigintMul16(r, 32, a, 16, b, 16);
    ghost var high := r[32..64];
    assert r[0..32] == low;
    assert r[0..64] == low + high;
    Middle32(t, r, a, b);
    var u := AddMiddle(r, 0, 16, t, 33, 64);
    Reassemble(a0, a1, b0, b1, low, high, Val(t[0..33]));
    NoCarryOut(a0 + a1, b0 + b1, r[0..64], u);
    assert r[..] == r[0..64];
  }
}
