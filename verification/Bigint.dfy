/** Radix-256 arithmetic on byte arrays (bigint.c). An argument written r+16 in
    C is here an array with an offset. */
module Bigint {
  import opened Bits
  import opened Bytes

  /** Where a loop that writes r[ro..ro+len] upwards, one byte an iteration,
      does not overwrite bytes of a[ao..ao+len] before it has read them. */
  predicate ReadBeforeWritten(r: array<Byte>, ro: nat, a: array<Byte>, ao: nat, len: nat)
  {
    r == a ==> ro <= ao || ao + len <= ro
  }

  predicate Inside(a: array<Byte>, ao: nat, len: nat)
  {
    ao + len <= a.Length
  }

  // ----- addition and subtraction -----

  /** The step all carry loops share: p*x + p*y + p*t is p*lo + 256*p*hi. */
  lemma CarryStep(n: nat, lo: int, hi: int, x: int, y: int, t: int)
    requires lo + 256 * hi == x + y + t
    ensures Shift(n, lo) + Shift(n + 1, hi) == Shift(n, x) + Shift(n, y) + Shift(n, t)
  {
    ShiftByte(n, hi);
    ShiftAdd(n, lo, 256 * hi, x + y + t);
    ShiftAdd(n, x, y, x + y);
    ShiftAdd(n, x + y, t, x + y + t);
  }

  /** One more byte of a sum: low byte lo, carry hi. */
  lemma SumStep(x: seq<Byte>, y: seq<Byte>, z: seq<Byte>, t: int, lo: Byte, hi: int)
    requires |z| < |x| == |y|
    requires Val(z) + Shift(|z|, t) == Val(x[..|z|]) + Val(y[..|z|])
    requires lo + 256 * hi == x[|z|] + y[|z|] + t
    ensures Val(z + [lo]) + Shift(|z| + 1, hi) == Val(x[..|z| + 1]) + Val(y[..|z| + 1])
  {
    var i := |z|;
    assert x[..i + 1] == x[..i] + [x[i]] && y[..i + 1] == y[..i] + [y[i]];
    ValSnoc(x[..i], x[i]);
    ValSnoc(y[..i], y[i]);
    ValSnoc(z, lo);
    CarryStep(i, lo, hi, x[i], y[i], t);
  }

  /** r := a + b on len bytes; returns the carry out. */
  method BigintAdd(r: array<Byte>, ro: nat, a: array<Byte>, ao: nat, b: array<Byte>, bo: nat, len: nat)
    returns (carry: Byte)
    requires Inside(r, ro, len) && Inside(a, ao, len) && Inside(b, bo, len)
    requires ReadBeforeWritten(r, ro, a, ao, len) && ReadBeforeWritten(r, ro, b, bo, len)
    modifies r
    ensures carry <= 1
    ensures Val(r[ro..ro + len]) + Shift(len, carry)
         == Val(old(a[ao..ao + len])) + Val(old(b[bo..bo + len]))
    ensures forall k | 0 <= k < r.Length && !(ro <= k < ro + len) :: r[k] == old(r[k])
  {
    hide Val, Shift;
    var tmp: int := 0;
    ghost var x, y := a[ao..ao + len], b[bo..bo + len];
    ghost var z: seq<Byte> := [];
    Start(tmp);
    assert x[..0] == [] && y[..0] == [];
    for i := 0 to len
      invariant 0 <= tmp <= 1
      invariant |z| == i && z == r[ro..ro + i]
      invariant Val(z) + Shift(i, tmp) == Val(x[..i]) + Val(y[..i])
      invariant forall k | ao + i <= k < ao + len :: a[k] == old(a[k])
      invariant forall k | bo + i <= k < bo + len :: b[k] == old(b[k])
      invariant forall k | 0 <= k < r.Length && !(ro <= k < ro + i) :: r[k] == old(r[k])
    {
      ghost var t := tmp;
      tmp := (a[ao + i] + b[bo + i] + tmp) % 0x10000;
      r[ro + i] := tmp % 256;
      tmp := tmp / 256;
      SumStep(x, y, z, t, r[ro + i], tmp);
      z := z + [r[ro + i]];
    }
    assert x[..len] == x && y[..len] == y;
    carry := tmp;
  }

  /** One more byte of a difference: low byte lo, borrow hi. */
  lemma DifferenceStep(x: seq<Byte>, y: seq<Byte>, z: seq<Byte>, t: int, lo: Byte, hi: int)
    requires |z| < |x| == |y|
    requires Val(z) + Val(y[..|z|]) == Val(x[..|z|]) + Shift(|z|, t)
    requires x[|z|] + 256 * hi == lo + y[|z|] + t
    ensures Val(z + [lo]) + Val(y[..|z| + 1]) == Val(x[..|z| + 1]) + Shift(|z| + 1, hi)
  {
    var i := |z|;
    assert x[..i + 1] == x[..i] + [x[i]] && y[..i + 1] == y[..i] + [y[i]];
    ValSnoc(x[..i], x[i]);
    ValSnoc(y[..i], y[i]);
    ValSnoc(z, lo);
    CarryStep(i, x[i], hi, lo, y[i], t);
  }

  /** Bit 15 of the 16-bit difference of two bytes and a borrow is the next borrow. */
  lemma BorrowBit(x: Byte, y: Byte, t: int)
    requires 0 <= t <= 1
    ensures var d := (x - y - t) % 0x10000; d / 0x8000 <= 1 && x + 256 * (d / 0x8000) == d % 256 + y + t
  {
    var d := if x < y + t then x - y - t + 0x10000 else x - y - t;
    assert d == (x - y - t) % 0x10000;
  }

  /** r := a - b on len bytes; returns the borrow out. */
  method BigintSub(r: array<Byte>, ro: nat, a: array<Byte>, ao: nat, b: array<Byte>, bo: nat, len: nat)
    returns (borrow: Byte)
    requires Inside(r, ro, len) && Inside(a, ao, len) && Inside(b, bo, len)
    requires ReadBeforeWritten(r, ro, a, ao, len) && ReadBeforeWritten(r, ro, b, bo, len)
    modifies r
    ensures borrow <= 1
    ensures Val(r[ro..ro + len]) + Val(old(b[bo..bo + len]))
         == Val(old(a[ao..ao + len])) + Shift(len, borrow)
    ensures forall k | 0 <= k < r.Length && !(ro <= k < ro + len) :: r[k] == old(r[k])
  {
    hide Val, Shift;
    var tmp: int := 0;
    ghost var x, y := a[ao..ao + len], b[bo..bo + len];
    ghost var z: seq<Byte> := [];
    Start(tmp);
    assert x[..0] == [] && y[..0] == [];
    for i := 0 to len
      invariant 0 <= tmp <= 1
      invariant |z| == i && z == r[ro..ro + i]
      invariant Val(z) + Val(y[..i]) == Val(x[..i]) + Shift(i, tmp)
      invariant forall k | ao + i <= k < ao + len :: a[k] == old(a[k])
      invariant forall k | bo + i <= k < bo + len :: b[k] == old(b[k])
      invariant forall k | 0 <= k < r.Length && !(ro <= k < ro + i) :: r[k] == old(r[k])
    {
      ghost var t := tmp;
      BorrowBit(x[i], y[i], tmp);
      tmp := (a[ao + i] - b[bo + i] - tmp) % 0x10000;
      r[ro + i] := tmp % 256;
      tmp := tmp / 0x8000;
      DifferenceStep(x, y, z, t, r[ro + i], tmp);
      z := z + [r[ro + i]];
    }
    assert x[..len] == x && y[..len] == y;
    borrow := tmp;
  }

  // ----- schoolbook multiplication -----

  lemma {:induction false} ShiftMul(n: nat, v: int, w: int)
    ensures Shift(n, v) * w == Shift(n, v * w)
  {
    if n > 0 {
      ShiftMul(n - 1, v, w);
      ProductAssoc(256, Shift(n - 1, v), w);
    }
  }

  lemma MulAdd(d: int, a: int, b: int)
    ensures d * (a + b) == d * a + d * b
  {
  }

  lemma ByteProduct(x: Byte, y: Byte)
    ensures 0 <= x * y <= 255 * x
    ensures y < 255 ==> x * y <= 254 * x
  {
    Monotone(x, y, 255);
    if y < 255 {
      Monotone(x, y, 254);
    }
  }

  /** The 16-bit accumulator of bigint_mul never overflows; 65535 is reached. */
  lemma AccumulatorFits(w: Byte, x: Byte, y: Byte, c: Byte)
    ensures 0 <= w + x * y + c <= 0xffff
    ensures w + x * y + c == 0xffff <==> w == x == y == c == 255
  {
    ByteProduct(x, y);
    if w == x == y == c == 255 {
      assert x * y == 65025;
    }
  }

  lemma MulSum(a: int, b: int, c: int, d: int)
    requires c == a + b
    ensures c * d == a * d + b * d
  {
  }

  /** One more byte of a row: w + m*y so far is z, with carry t; then lo, hi. */
  lemma RowStep(w: seq<Byte>, m: Byte, y: seq<Byte>, z: seq<Byte>, t: int, lo: Byte, hi: int)
    requires |z| < |w| == |y|
    requires Val(z) + Shift(|z|, t) == Val(w[..|z|]) + m * Val(y[..|z|])
    requires lo + 256 * hi == w[|z|] + m * y[|z|] + t
    ensures Val(z + [lo]) + Shift(|z| + 1, hi) == Val(w[..|z| + 1]) + m * Val(y[..|z| + 1])
  {
    var i := |z|;
    assert w[..i + 1] == w[..i] + [w[i]] && y[..i + 1] == y[..i] + [y[i]];
    ValSnoc(w[..i], w[i]);
    ValSnoc(y[..i], y[i]);
    ValSnoc(z, lo);
    CarryStep(i, lo, hi, w[i], m * y[i], t);
    ShiftMul(i, y[i], m);
    MulAdd(m, Val(y[..i]), Shift(i, y[i]));
  }

  /** The inner loop of bigint_mul: adds a[ai] times b into r[ro..ro+len] and
      stores the last carry in r[ro+len]. */
  method MulRow(r: array<Byte>, ro: nat, a: array<Byte>, ai: nat, b: array<Byte>, bo: nat, len: nat)
    requires Inside(r, ro, len + 1) && ai < a.Length && Inside(b, bo, len)
    requires r != a && r != b
    modifies r
    ensures Val(r[ro..ro + len + 1]) == Val(old(r[ro..ro + len])) + old(a[ai] * Val(b[bo..bo + len]))
    ensures forall k | 0 <= k < r.Length && !(ro <= k < ro + len + 1) :: r[k] == old(r[k])
  {
    hide Val, Shift;
    var t: int := 0;
    ghost var w, y, z: seq<Byte> := r[ro..ro + len], b[bo..bo + len], [];
    Start(0);
    assert w[..0] == [] && y[..0] == [];
    for j := 0 to len
      invariant 0 <= t <= 0xffff
      invariant |z| == j && z == r[ro..ro + j]
      invariant Val(z) + Shift(j, t / 256) == Val(w[..j]) + a[ai] * Val(y[..j])
      invariant forall k | 0 <= k < r.Length && !(ro <= k < ro + j) :: r[k] == old(r[k])
    {
      ghost var c := t / 256;
      AccumulatorFits(r[ro + j], a[ai], b[bo + j], c);
      t := (r[ro + j] + a[ai] * b[bo + j] + t / 256) % 0x10000;
      r[ro + j] := t % 256;
      RowStep(w, a[ai], y, z, c, r[ro + j], t / 256);
      z := z + [r[ro + j]];
    }
    r[ro + len] := t / 256;
    assert w[..len] == w && y[..len] == y && r[ro..ro + len + 1] == z + [r[ro + len]];
    ValSnoc(z, r[ro + len]);
  }

  /** The sum of the first n rows of the multiplication scheme. */
  function Rows(x: seq<Byte>, y: int, n: nat): int
    requires n <= |x|
  {
    if n == 0 then 0 else Rows(x, y, n - 1) + Shift(n - 1, x[n - 1] * y)
  }

  lemma {:induction false} RowsAreProduct(x: seq<Byte>, y: int, n: nat)
    requires n <= |x|
    ensures Rows(x, y, n) == Val(x[..n]) * y
  {
    if n > 0 {
      RowsAreProduct(x, y, n - 1);
      ValTake(x, n - 1);
      ShiftMul(n - 1, x[n - 1], y);
      MulSum(Val(x[..n - 1]), Shift(n - 1, x[n - 1]), Val(x[..n]), y);
    }
  }

  /** The first byte of a row is final: it joins the low bytes of the product. */
  lemma MoveByte(low: seq<Byte>, h: Byte, v: int, row: int)
    requires row == h + 256 * v
    ensures Val(low + [h]) + Shift(|low| + 1, v) == Val(low) + Shift(|low|, row)
  {
    ValSnoc(low, h);
    ShiftByte(|low|, v);
    ShiftAdd(|low|, h, 256 * v, row);
  }

  lemma RowDone(x: seq<Byte>, y: int, low: seq<Byte>, w: seq<Byte>, row: seq<Byte>)
    requires |low| < |x| && row != []
    requires Val(low) + Shift(|low|, Val(w)) == Rows(x, y, |low|)
    requires Val(row) == Val(w) + x[|low|] * y
    ensures Val(low + [row[0]]) + Shift(|low| + 1, Val(row[1..])) == Rows(x, y, |low| + 1)
  {
    ShiftAdd(|low|, Val(w), x[|low|] * y, Val(row));
    MoveByte(low, row[0], Val(row[1..]), Val(row));
  }

  lemma FirstRow(x: seq<Byte>, y: int, w: seq<Byte>)
    requires forall k | 0 <= k < |w| :: w[k] == 0
    ensures Val([]) + Shift(0, Val(w)) == Rows(x, y, 0)
  {
    ValZeros(w);
  }

  /** The first loop of bigint_mul. */
  method Clear(r: array<Byte>, ro: nat, len: nat)
    requires Inside(r, ro, len)
    modifies r
    ensures forall k | ro <= k < ro + len :: r[k] == 0
    ensures forall k | 0 <= k < r.Length && !(ro <= k < ro + len) :: r[k] == old(r[k])
  {
    for i := 0 to len
      invariant forall k | ro <= k < ro + i :: r[k] == 0
      invariant forall k | 0 <= k < r.Length && !(ro <= k < ro + i) :: r[k] == old(r[k])
    {
      r[ro + i] := 0;
    }
  }

  /** The second loop of bigint_mul, from a cleared r: the rows, one for each byte of a. */
  method MulRows(r: array<Byte>, ro: nat, a: array<Byte>, ao: nat, b: array<Byte>, bo: nat, len: nat)
    requires Inside(r, ro, 2 * len) && Inside(a, ao, len) && Inside(b, bo, len)
    requires r != a && r != b
    requires forall k | ro <= k < ro + 2 * len :: r[k] == 0
    modifies r
    ensures Val(r[ro..ro + 2 * len]) == Rows(a[ao..ao + len], Val(b[bo..bo + len]), len)
    ensures forall k | 0 <= k < r.Length && !(ro <= k < ro + 2 * len) :: r[k] == old(r[k])
  {
    hide Val, Shift, Rows;
    ghost var x, ys := a[ao..ao + len], b[bo..bo + len];
    ghost var y := Val(ys);
    ghost var low: seq<Byte>, w := [], r[ro..ro + len];
    FirstRow(x, y, w);
    for i := 0 to len
      invariant |low| == i && low == r[ro..ro + i]
      invariant |w| == len && w == r[ro + i..ro + i + len]
      invariant Val(low) + Shift(i, Val(w)) == Rows(x, y, i)
      invariant forall k | 0 <= k < r.Length && !(ro <= k < ro + 2 * len) :: r[k] == old(r[k])
    {
      assert b[bo..bo + len] == ys && a[ao + i] == x[i];
      MulRow(r, ro + i, a, ao + i, b, bo, len);
      ghost var row := r[ro + i..ro + i + len + 1];
      RowDone(x, y, low, w, row);
      assert r[ro..ro + i] == low;
      low, w := low + [r[ro + i]], r[ro + i + 1..ro + i + 1 + len];
      assert w == row[1..];
    }
    assert r[ro..ro + 2 * len] == low + w;
    ValAppend(low, w);
  }

  /** r := a * b, 2*len bytes from len bytes each. */
  method BigintMul(r: array<Byte>, ro: nat, a: array<Byte>, ao: nat, b: array<Byte>, bo: nat, len: nat)
    requires Inside(r, ro, 2 * len) && Inside(a, ao, len) && Inside(b, bo, len)
    requires r != a && r != b
    modifies r
    ensures Val(r[ro..ro + 2 * len]) == Val(a[ao..ao + len]) * Val(b[bo..bo + len])
    ensures forall k | 0 <= k < r.Length && !(ro <= k < ro + 2 * len) :: r[k] == old(r[k])
  {
    hide Val, Rows;
    ghost var x, y := a[ao..ao + len], Val(b[bo..bo + len]);
    Clear(r, ro, 2 * len);
    MulRows(r, ro, a, ao, b, bo, len);
    RowsAreProduct(x, y, len);
    assert x[..len] == x;
  }

  // ----- carrying up, and the masked move -----

  /** The loop that carries u up through r[at..at+len]. Its accumulator is an int in
      bigint.c and 16 bits wide in fe25519.c, where it starts low enough to fit. */
  method CarryUp(r: array<Byte>, at: nat, len: nat, carry: int) returns (u: int)
    requires Inside(r, at, len) && 0 <= carry <= 0xff00
    modifies r
    ensures 0 <= u <= carry
    ensures Val(r[at..at + len]) + Shift(len, u) == Val(old(r[at..at + len])) + carry
    ensures forall k | 0 <= k < r.Length && !(at <= k < at + len) :: r[k] == old(r[k])
  {
    hide Val, Shift;
    ghost var h, z: seq<Byte> := r[at..at + len], [];
    u := carry;
    Start(u);
    assert h[..0] == [];
    for i := 0 to len
      invariant 0 <= u <= carry
      invariant |z| == i && z == r[at..at + i]
      invariant Val(z) + Shift(i, u) == Val(h[..i]) + carry
      invariant forall k | 0 <= k < r.Length && !(at <= k < at + i) :: r[k] == old(r[k])
    {
      ghost var v := u;
      u := (u + r[at + i]) % 0x10000;
      r[at + i] := u % 256;
      u := u / 256;
      StepCarry(z, h, v, r[at + i], u);
      z := z + [r[at + i]];
    }
    assert h[..len] == h;
  }

  lemma StepCarry(z: seq<Byte>, h: seq<Byte>, v: int, lo: Byte, hi: int)
    requires |z| < |h| && lo + 256 * hi == v + h[|z|]
    ensures Val(z + [lo]) + Shift(|z| + 1, hi) - Val(h[..|z| + 1]) == Val(z) + Shift(|z|, v) - Val(h[..|z|])
  {
    ValSnoc(z, lo);
    ValTake(h, |z|);
    CarryStep(|z|, lo, hi, v, h[|z|], 0);
    ShiftZero(|z|);
  }

  /** One byte of bigint_cmov: r ^ (mask & (x ^ r)). */
  function CmovByte(r: Byte, x: Byte, mask: Byte): nat
  {
    Xor(r, And(mask, Xor(x, r)))
  }

  /** It fits a byte; a mask of no ones keeps r, a mask of eight ones takes x. */
  lemma CmovByteIs(r: Byte, x: Byte, mask: Byte)
    ensures CmovByte(r, x, mask) < 256
    ensures mask == 0 ==> CmovByte(r, x, mask) == r
    ensures mask == 255 ==> CmovByte(r, x, mask) == x
  {
    hide Xor, And;
    XorBound(x, r, 8);
    AndBound(mask, Xor(x, r), 8);
    XorBound(r, And(mask, Xor(x, r)), 8);
    AndOnes(8, Xor(x, r));
    AndOnes(0, Xor(x, r));
    XorBack(r, x);
    XorZero(r);
  }

  lemma XorZero(r: nat)
    ensures Xor(r, 0) == r
  {
  }

  /** r := x where b is 1, r unchanged where b is 0; by masks, for any b. */
  method BigintCmov(r: array<Byte>, x: array<Byte>, b: Byte, len: nat)
    requires len <= r.Length && len <= x.Length
    modifies r
    ensures b == 0 ==> r[..] == old(r[..])
    ensures b == 1 ==> r[..len] == old(x[..len])
    ensures forall k | 0 <= k < len :: r[k] == CmovByte(old(r[k]), old(x[k]), (256 - b as int) % 256)
    ensures forall k | len <= k < r.Length :: r[k] == old(r[k])
  {
    hide CmovByte;
    var mask := (256 - b as int) % 256;
    for i := 0 to len
      invariant forall k | 0 <= k < i :: r[k] == CmovByte(old(r[k]), old(x[k]), mask)
      invariant b == 0 ==> forall k | 0 <= k < i :: r[k] == old(r[k])
      invariant b == 1 ==> forall k | 0 <= k < i :: r[k] == old(x[k])
      invariant forall k | i <= k < r.Length :: r[k] == old(r[k])
      invariant forall k | i <= k < x.Length :: x[k] == old(x[k])
    {
      CmovByteIs(r[i], x[i], mask);
      r[i] := CmovByte(r[i], x[i], mask);
    }
  }
}
