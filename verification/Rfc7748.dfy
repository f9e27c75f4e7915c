/** X25519 as section 5 of RFC 7748 defines it, on integers modulo p. */
module Rfc7748 {
  import opened Bits
  import opened Bytes
  import opened Field25519

  const TWO251 := 0x800_0000_0000_0000_0000_0000_0000_0000_0000_0000_0000_0000_0000_0000_0000_0000
  const TWO254 := 8 * TWO251

  /** decodeScalar25519: the three low bits off, bit 255 off, bit 254 on. */
  function DecodeScalar(v: nat): nat
  {
    TWO254 + 8 * (v / 8 % TWO251)
  }

  /** decodeUCoordinate: bit 255 off; the value is then taken modulo p. */
  function DecodeU(v: nat): nat
  {
    v % TWO255 % P
  }

  datatype Ladder = Ladder(x2: int, z2: int, x3: int, z3: int)

  function CSwap(swap: nat, w: Ladder): Ladder
  {
    if swap == 1 then Ladder(w.x3, w.z3, w.x2, w.z2) else w
  }

  const A24 := 121665

  /** The body of the loop, from A to z_2. */
  function Step(x1: int, w: Ladder): Ladder
  {
    var A := FAdd(w.x2, w.z2);
    var AA := FMul(A, A);
    var B := FSub(w.x2, w.z2);
    var BB := FMul(B, B);
    var E := FSub(AA, BB);
    var C := FAdd(w.x3, w.z3);
    var D := FSub(w.x3, w.z3);
    var DA := FMul(D, A);
    var CB := FMul(C, B);
    var sum := FAdd(DA, CB);
    var difference := FSub(DA, CB);
    Ladder(FMul(AA, BB), FMul(E, FAdd(AA, FMul(A24, E))),
           FMul(sum, sum), FMul(x1, FMul(difference, difference)))
  }

  function Init(u: int): Ladder
  {
    Ladder(1, 0, u, 1)
  }

  datatype LoopState = LoopState(w: Ladder, swap: nat)

  /** The state of the loop when the bits 254 down to t have been processed. */
  function Loop(k: nat, u: int, t: nat): LoopState
    requires t <= 255
    decreases 255 - t
  {
    if t == 255 then
      LoopState(Init(u), 0)
    else
      var s := Loop(k, u, t + 1);
      var kt := Bit(k, t);
      var swap := Xor(s.swap, kt);
      LoopState(Step(u, CSwap(swap, s.w)), kt)
  }

  /** Return x_2 * z_2^(p-2), after the last swap. */
  function ScalarMult(k: nat, u: int): int
  {
    var s := Loop(k, u, 0);
    var w := CSwap(s.swap, s.w);
    FMul(w.x2, FPow(w.z2, P - 2))
  }

  function X25519(k: seq<Byte>, u: seq<Byte>): (r: seq<Byte>)
    requires |k| == |u| == 32
    ensures |r| == 32
  {
    Encode(ScalarMult(DecodeScalar(Val(k)), DecodeU(Val(u))), 32)
  }
}
