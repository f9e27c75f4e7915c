/** Little-endian byte strings in radix 256 and the integers they stand for. */
module Bytes {

  type Byte = x: int | 0 <= x < 256

  /** The integer a byte string stands for, least significant byte first. */
  function Val(s: seq<Byte>): nat
  {
    if s == [] then 0 else s[0] + 256 * Val(s[1..])
  }

  /** v * 256^n: the number v moved n bytes up. */
  function Shift(n: nat, v: int): int
  {
    if n == 0 then v else 256 * Shift(n - 1, v)
  }

  lemma {:induction false} ShiftAdd(n: nat, v: int, w: int, sum: int)
    requires sum == v + w
    ensures Shift(n, sum) == Shift(n, v) + Shift(n, w)
  {
    if n > 0 {
      ShiftAdd(n - 1, v, w, sum);
    }
  }

  lemma {:induction false} ShiftByte(n: nat, v: int)
    ensures Shift(n + 1, v) == Shift(n, 256 * v)
  {
    if n > 0 {
      ShiftByte(n - 1, v);
    }
  }

  lemma {:induction false} ShiftMonotone(n: nat, v: int, w: int)
    requires v <= w
    ensures Shift(n, v) <= Shift(n, w)
  {
    if n > 0 {
      ShiftMonotone(n - 1, v, w);
    }
  }

  /** Where every carry loop starts: nothing written, nothing carried. */
  lemma Start(v: int)
    ensures Val([]) == 0
    ensures Shift(0, v) == v
  {
  }

  lemma ValOne(x: Byte)
    ensures Val([x]) == x
  {
    assert [x][1..] == [];
  }

  lemma {:induction false} ValAppend(a: seq<Byte>, b: seq<Byte>)
    ensures Val(a + b) == Val(a) + Shift(|a|, Val(b))
  {
    if a == [] {
      assert a + b == b;
    } else {
      assert (a + b)[1..] == a[1..] + b;
      ValAppend(a[1..], b);
    }
  }

  lemma ValSnoc(s: seq<Byte>, x: Byte)
    ensures Val(s + [x]) == Val(s) + Shift(|s|, x)
  {
    ValAppend(s, [x]);
    ValOne(x);
  }

  /** A string of n bytes stands for a number below 256^n. */
  lemma {:induction false} ValBound(s: seq<Byte>)
    ensures Val(s) < Shift(|s|, 1)
  {
    if s != [] {
      ValBound(s[1..]);
    }
  }

  /** Two strings of the same length that stand for the same number are equal. */
  lemma {:induction false} ValInjective(a: seq<Byte>, b: seq<Byte>)
    requires |a| == |b| && Val(a) == Val(b)
    ensures a == b
  {
    if a != [] {
      assert a[0] == Val(a) % 256 == Val(b) % 256 == b[0];
      ValInjective(a[1..], b[1..]);
      assert a == [a[0]] + a[1..] && b == [b[0]] + b[1..];
    }
  }

  lemma {:induction false} ShiftShift(m: nat, n: nat, v: int)
    ensures Shift(m, Shift(n, v)) == Shift(m + n, v)
  {
    if m > 0 {
      ShiftShift(m - 1, n, v);
    }
  }

  lemma {:induction false} Shift4(v: int)
    ensures Shift(4, v) == 0x1_0000_0000 * v
  {
    assert Shift(1, v) == 256 * v;
    assert Shift(2, v) == 256 * Shift(1, v);
    assert Shift(3, v) == 256 * Shift(2, v);
    assert Shift(4, v) == 256 * Shift(3, v);
  }

  const TWO64 := 0x1_0000_0000_0000_0000
  const TWO128 := 0x1_0000_0000_0000_0000_0000_0000_0000_0000
  const TWO256 := 0x1_0000_0000_0000_0000_0000_0000_0000_0000_0000_0000_0000_0000_0000_0000_0000_0000

  lemma Shift8(v: int)
    ensures Shift(8, v) == TWO64 * v
  {
    ShiftShift(4, 4, v);
    Shift4(v);
    Shift4(Shift(4, v));
  }

  lemma Shift16(v: int)
    ensures Shift(16, v) == TWO128 * v
  {
    ShiftShift(8, 8, v);
    Shift8(v);
    Shift8(Shift(8, v));
  }

  lemma Shift32(v: int)
    ensures Shift(32, v) == TWO256 * v
  {
    ShiftShift(16, 16, v);
    Shift16(v);
    Shift16(Shift(16, v));
  }

  lemma {:induction false} ShiftZero(n: nat)
    ensures Shift(n, 0) == 0
  {
    if n > 0 {
      ShiftZero(n - 1);
    }
  }

  /** The n low bytes of v, least significant first. */
  function Encode(v: nat, n: nat): (s: seq<Byte>)
    ensures |s| == n
  {
    if n == 0 then [] else [v % 256] + Encode(v / 256, n - 1)
  }

  lemma {:induction false} ValEncode(v: nat, n: nat)
    requires v < Shift(n, 1)
    ensures Val(Encode(v, n)) == v
  {
    if n > 0 {
      ValEncode(v / 256, n - 1);
      assert Encode(v, n)[1..] == Encode(v / 256, n - 1);
    }
  }

  lemma EncodeVal(s: seq<Byte>)
    ensures Encode(Val(s), |s|) == s
  {
    ValBound(s);
    ValEncode(Val(s), |s|);
    ValInjective(Encode(Val(s), |s|), s);
  }

  lemma ValDistinguishes(a: seq<Byte>, b: seq<Byte>, i: nat)
    requires |a| == |b| && i < |a| && a[i] != b[i]
    ensures Val(a) != Val(b)
  {
    if Val(a) == Val(b) {
      ValInjective(a, b);
    }
  }

  lemma {:induction false} ValZeros(z: seq<Byte>)
    requires forall k | 0 <= k < |z| :: z[k] == 0
    ensures Val(z) == 0
  {
    if z != [] {
      ValZeros(z[1..]);
    }
  }

  lemma ValTake(x: seq<Byte>, i: nat)
    requires i < |x|
    ensures Val(x[..i + 1]) == Val(x[..i]) + Shift(i, x[i])
  {
    assert x[..i + 1] == x[..i] + [x[i]];
    ValSnoc(x[..i], x[i]);
  }
}
