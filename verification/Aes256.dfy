/** The table-free cipher on byte arrays (aes256.cpp). */
module Aes256 {
  import opened Gf256
  import opened Fips197
  import opened CipherFacts
  import opened MixFast
  import opened KeyWindow

  // ----- logarithms and the S-boxes -----

  /** The four statements that gf_alog and gf_log turn on. */
  method Turn3(atb: bv8) returns (r: bv8)
    ensures r == Times3(atb)
  {
    var z := atb;
    r := atb << 1;
    if z & 0x80 != 0 {
      r := r ^ 0x1b;
    }
    r := r ^ z;
  }

  method GfAlog(x: nat) returns (atb: bv8)
    requires x < 256
    ensures atb == Alog(x)
  {
    hide Times3;
    atb := 1;
    var n := x;
    while n != 0
      invariant 0 <= n <= x && atb == Alog(x - n)
    {
      n := n - 1;
      atb := Turn3(atb);
    }
  }

  lemma {:induction false} AlogNonzero(n: nat)
    ensures Alog(n) != 0
  {
    hide Times3;
    if n > 0 {
      AlogNonzero(n - 1);
      if Times3(Alog(n - 1)) == 0 {
        ZeroTimes3();
        Times3Injective(Alog(n - 1), 0);
      }
    }
  }

  lemma ZeroTimes3()
    ensures Times3(0) == 0
  {
  }

  /** The first logarithm of x, which is below 255; and 0 for 0, when i has wrapped around. */
  method GfLog(x: bv8) returns (i: nat)
    ensures x == 0 ==> i == 0
    ensures x != 0 ==> i < 255 && Alog(i) == x && forall j | 0 <= j < i :: Alog(j) != x
  {
    hide Times3, Alog;
    var atb: bv8 := 1;
    i := 0;
    AlogZero();
    AlogNonzero(0);
    while true
      invariant 0 <= i <= 255 && atb == Alog(i)
      invariant forall j | 0 <= j < i :: Alog(j) != x
      invariant x != 0 ==> i < 255
      decreases 256 - i
    {
      AlogNonzero(i);
      if atb == x { break; }
      atb := Turn3(atb);
      AlogNext(i);
      if x != 0 { LogBelow(x, i + 1); }
      i := (i + 1) % 256;
      if i == 0 { break; }
    }
  }

  lemma AlogZero()
    ensures Alog(0) == 1
  {
  }

  lemma AlogNext(i: nat)
    ensures Alog(i + 1) == Times3(Alog(i))
  {
  }

  lemma LogBelow(x: bv8, n: nat)
    requires x != 0 && forall j | 0 <= j < n :: Alog(j) != x
    ensures n < 255
  {
    hide Alog;
    LogExists(x);
  }

  method GfMulInv(x: bv8) returns (r: bv8)
    ensures r == Inverse(x)
  {
    hide Alog;
    if x != 0 {
      var l := GfLog(x);
      r := GfAlog(255 - l);
      InverseByLog(l);
    } else {
      r := 0;
    }
  }

  lemma AffineIsTurns(b: bv8)
    ensures Affine(b) == b ^ Turn(b, 1) ^ Turn(Turn(b, 1), 1) ^ Turn(Turn(Turn(b, 1), 1), 1)
                         ^ Turn(Turn(Turn(Turn(b, 1), 1), 1), 1) ^ 0x63
  {
    hide Affine, Turn;
    AffineIsFourTurns(b);
    TurnsAdd(b);
  }

  lemma AffineIsFourTurns(b: bv8)
    ensures Affine(b) == b ^ Turn(b, 1) ^ Turn(b, 2) ^ Turn(b, 3) ^ Turn(b, 4) ^ 0x63
  {
  }

  lemma TurnsAdd(b: bv8)
    ensures Turn(Turn(b, 1), 1) == Turn(b, 2) && Turn(Turn(b, 2), 1) == Turn(b, 3) && Turn(Turn(b, 3), 1) == Turn(b, 4)
  {
  }

  method RjSBox(x: bv8) returns (r: bv8)
    ensures r == SBox(x)
  {
    hide Inverse, Affine;
    var y := GfMulInv(x);
    AffineIsTurns(y);
    var sb := y;
    y := (y << 1) | (y >> 7);
    sb := sb ^ y;
    y := (y << 1) | (y >> 7);
    sb := sb ^ y;
    y := (y << 1) | (y >> 7);
    sb := sb ^ y;
    y := (y << 1) | (y >> 7);
    sb := sb ^ y;
    r := sb ^ 0x63;
  }

  lemma InvAffineIsTurns(x: bv8)
    ensures var y := Turn(x ^ 0x63, 1);
            InvAffine(x) == y ^ Turn(y, 2) ^ Turn(Turn(y, 2), 3)
  {
  }

  method RjSBoxInv(x: bv8) returns (r: bv8)
    ensures r == InvSBox(x)
  {
    hide Inverse, InvAffine;
    InvAffineIsTurns(x);
    var y := x ^ 0x63;
    y := (y << 1) | (y >> 7);
    var sb := y;
    y := (y << 2) | (y >> 6);
    sb := sb ^ y;
    y := (y << 3) | (y >> 5);
    sb := sb ^ y;
    r := GfMulInv(sb);
  }

  // ----- the state and the keys in arrays -----

  function WordAt(a: array<bv8>, o: nat): Word
    requires o + 4 <= a.Length
    reads a
  {
    Word(a[o], a[o + 1], a[o + 2], a[o + 3])
  }

  function BlockAt(a: array<bv8>, o: nat): Block
    requires o + 16 <= a.Length
    reads a
  {
    Block(WordAt(a, o), WordAt(a, o + 4), WordAt(a, o + 8), WordAt(a, o + 12))
  }

  function KeyIn(a: array<bv8>): Key
    requires a.Length >= 32
    reads a
  {
    Key(WordAt(a, 0), WordAt(a, 4), WordAt(a, 8), WordAt(a, 12), WordAt(a, 16), WordAt(a, 20), WordAt(a, 24), WordAt(a, 28))
  }

  // ----- the steps of a round -----

  method SubBytesIn(buf: array<bv8>)
    requires buf.Length >= 16
    modifies buf
    ensures BlockAt(buf, 0) == SubBytes(old(BlockAt(buf, 0)))
    ensures buf[16..] == old(buf[16..])
  {
    hide SBox;
    for i := 16 downto 0
      invariant forall k | i <= k < 16 :: buf[k] == SBox(old(buf[k]))
      invariant forall k | 0 <= k < i :: buf[k] == old(buf[k])
      invariant buf[16..] == old(buf[16..])
    {
      var s := RjSBox(buf[i]);
      buf[i] := s;
    }
  }

  method SubBytesInvIn(buf: array<bv8>)
    requires buf.Length >= 16
    modifies buf
    ensures BlockAt(buf, 0) == InvSubBytes(old(BlockAt(buf, 0)))
    ensures buf[16..] == old(buf[16..])
  {
    hide InvSBox;
    for i := 16 downto 0
      invariant forall k | i <= k < 16 :: buf[k] == InvSBox(old(buf[k]))
      invariant forall k | 0 <= k < i :: buf[k] == old(buf[k])
      invariant buf[16..] == old(buf[16..])
    {
      var s := RjSBoxInv(buf[i]);
      buf[i] := s;
    }
  }

  method AddRoundKeyIn(buf: array<bv8>, key: array<bv8>, ko: nat)
    requires buf.Length >= 16 && ko + 16 <= key.Length && buf != key
    modifies buf
    ensures BlockAt(buf, 0) == AddRoundKey(old(BlockAt(buf, 0)), BlockAt(key, ko))
    ensures buf[16..] == old(buf[16..])
  {
    hide Plus;
    for i := 16 downto 0
      invariant forall k | i <= k < 16 :: buf[k] == Plus(old(buf[k]), key[ko + k])
      invariant forall k | 0 <= k < i :: buf[k] == old(buf[k])
      invariant buf[16..] == old(buf[16..])
    {
      buf[i] := Plus(buf[i], key[ko + i]);
    }
  }

  method AddRoundKeyCpy(buf: array<bv8>, key: array<bv8>, cpk: array<bv8>)
    requires buf.Length >= 16 && key.Length == cpk.Length == 32 && buf != key && buf != cpk && key != cpk
    modifies buf, cpk
    ensures BlockAt(buf, 0) == AddRoundKey(old(BlockAt(buf, 0)), BlockAt(key, 0))
    ensures cpk[..] == key[..]
    ensures buf[16..] == old(buf[16..])
  {
    hide Plus;
    for i := 16 downto 0
      invariant forall k | i <= k < 16 :: buf[k] == Plus(old(buf[k]), key[k]) && cpk[k] == key[k]
      invariant forall k | 16 + i <= k < 32 :: cpk[k] == key[k]
      invariant forall k | 0 <= k < i :: buf[k] == old(buf[k])
      invariant buf[16..] == old(buf[16..])
    {
      cpk[i] := key[i];
      buf[i] := Plus(buf[i], cpk[i]);
      cpk[16 + i] := key[16 + i];
    }
  }

  /** Moves four bytes one place round: buf[i] := buf[j] and so on to buf[l] := buf[i]. */
  method Turn4(buf: array<bv8>, i: nat, j: nat, k: nat, l: nat)
    requires i < buf.Length && j < buf.Length && k < buf.Length && l < buf.Length
    requires i !in {j, k, l} && j !in {k, l} && k != l
    modifies buf
    ensures buf[i] == old(buf[j]) && buf[j] == old(buf[k]) && buf[k] == old(buf[l]) && buf[l] == old(buf[i])
    ensures forall n | 0 <= n < buf.Length && n !in {i, j, k, l} :: buf[n] == old(buf[n])
  {
    var t := buf[i];
    buf[i] := buf[j];
    buf[j] := buf[k];
    buf[k] := buf[l];
    buf[l] := t;
  }

  method Exchange(buf: array<bv8>, i: nat, j: nat)
    requires i < buf.Length && j < buf.Length && i != j
    modifies buf
    ensures buf[i] == old(buf[j]) && buf[j] == old(buf[i])
    ensures forall n | 0 <= n < buf.Length && n !in {i, j} :: buf[n] == old(buf[n])
  {
    var t := buf[i];
    buf[i] := buf[j];
    buf[j] := t;
  }

  method ShiftRowsIn(buf: array<bv8>)
    requires buf.Length >= 16
    modifies buf
    ensures BlockAt(buf, 0) == ShiftRows(old(BlockAt(buf, 0)))
    ensures buf[16..] == old(buf[16..])
  {
    Turn4(buf, 1, 5, 9, 13);
    Exchange(buf, 10, 2);
    Turn4(buf, 3, 15, 11, 7);
    Exchange(buf, 14, 6);
  }

  method ShiftRowsInvIn(buf: array<bv8>)
    requires buf.Length >= 16
    modifies buf
    ensures BlockAt(buf, 0) == InvShiftRows(old(BlockAt(buf, 0)))
    ensures buf[16..] == old(buf[16..])
  {
    Turn4(buf, 1, 13, 9, 5);
    Exchange(buf, 2, 10);
    Turn4(buf, 3, 7, 11, 15);
    Exchange(buf, 6, 14);
  }

  /** The body of the loop of aes_mixColumns. */
  method MixColumnIn(buf: array<bv8>, i: nat)
    requires i + 4 <= buf.Length
    modifies buf
    ensures WordAt(buf, i) == MixColumn(old(WordAt(buf, i)))
    ensures forall k | 0 <= k < buf.Length && !(i <= k < i + 4) :: buf[k] == old(buf[k])
  {
    hide Plus, XTime, MixColumn;
    FastMixIs(WordAt(buf, i));
    var a, b, c, d := buf[i], buf[i + 1], buf[i + 2], buf[i + 3];
    var e := Plus(Plus(Plus(a, b), c), d);
    buf[i] := Plus(buf[i], Plus(e, XTime(Plus(a, b))));
    buf[i + 1] := Plus(buf[i + 1], Plus(e, XTime(Plus(b, c))));
    buf[i + 2] := Plus(buf[i + 2], Plus(e, XTime(Plus(c, d))));
    buf[i + 3] := Plus(buf[i + 3], Plus(e, XTime(Plus(d, a))));
  }

  /** The columns below byte i from s, the others from t. */
  function Columns(s: Block, t: Block, i: nat): Block
  {
    Block(if 4 <= i then s.c0 else t.c0, if 8 <= i then s.c1 else t.c1,
          if 12 <= i then s.c2 else t.c2, if 16 <= i then s.c3 else t.c3)
  }

  method MixColumnsIn(buf: array<bv8>)
    requires buf.Length >= 16
    modifies buf
    ensures BlockAt(buf, 0) == MixColumns(old(BlockAt(buf, 0)))
    ensures buf[16..] == old(buf[16..])
  {
    hide MixColumn;
    var i := 0;
    while i < 16
      invariant 0 <= i <= 16 && i % 4 == 0
      invariant BlockAt(buf, 0) == Columns(MixColumns(old(BlockAt(buf, 0))), old(BlockAt(buf, 0)), i)
      invariant buf[16..] == old(buf[16..])
    {
      MixColumnIn(buf, i);
      i := i + 4;
    }
  }

  method MixColumnInvIn(buf: array<bv8>, i: nat)
    requires i + 4 <= buf.Length
    modifies buf
    ensures WordAt(buf, i) == InvMixColumn(old(WordAt(buf, i)))
    ensures forall k | 0 <= k < buf.Length && !(i <= k < i + 4) :: buf[k] == old(buf[k])
  {
    hide Plus, XTime, InvMixColumn;
    FastInvMixIs(WordAt(buf, i));
    var a, b, c, d := buf[i], buf[i + 1], buf[i + 2], buf[i + 3];
    var e := Plus(Plus(Plus(a, b), c), d);
    var z := XTime(e);
    var x := Plus(e, XTime(XTime(Plus(Plus(z, a), c))));
    var y := Plus(e, XTime(XTime(Plus(Plus(z, b), d))));
    buf[i] := Plus(buf[i], Plus(x, XTime(Plus(a, b))));
    buf[i + 1] := Plus(buf[i + 1], Plus(y, XTime(Plus(b, c))));
    buf[i + 2] := Plus(buf[i + 2], Plus(x, XTime(Plus(c, d))));
    buf[i + 3] := Plus(buf[i + 3], Plus(y, XTime(Plus(d, a))));
  }

  method MixColumnsInvIn(buf: array<bv8>)
    requires buf.Length >= 16
    modifies buf
    ensures BlockAt(buf, 0) == InvMixColumns(old(BlockAt(buf, 0)))
    ensures buf[16..] == old(buf[16..])
  {
    hide InvMixColumn;
    var i := 0;
    while i < 16
      invariant 0 <= i <= 16 && i % 4 == 0
      invariant BlockAt(buf, 0) == Columns(InvMixColumns(old(BlockAt(buf, 0))), old(BlockAt(buf, 0)), i)
      invariant buf[16..] == old(buf[16..])
    {
      MixColumnInvIn(buf, i);
      i := i + 4;
    }
  }

  // ----- the key window in place -----

  /** Word j takes the sum with the word before it. */
  method AddWordBefore(k: array<bv8>, j: nat)
    requires k.Length == 32 && 0 < j < 8
    modifies k
    ensures WordAt(k, 4 * j) == PlusW(old(WordAt(k, 4 * j)), old(WordAt(k, 4 * j - 4)))
    ensures forall n | 0 <= n < 32 && !(4 * j <= n < 4 * j + 4) :: k[n] == old(k[n])
  {
    hide Plus;
    var i := 4 * j;
    k[i] := Plus(k[i], k[i - 4]);
    k[i + 1] := Plus(k[i + 1], k[i - 3]);
    k[i + 2] := Plus(k[i + 2], k[i - 2]);
    k[i + 3] := Plus(k[i + 3], k[i - 1]);
  }

  /** Word 0 takes the sum with the rotated and substituted word 7 and the round constant. */
  method AddRotated(k: array<bv8>, rc: bv8)
    requires k.Length == 32
    modifies k
    ensures WordAt(k, 0) == PlusW(old(WordAt(k, 0)), PlusW(SubWord(RotWord(old(WordAt(k, 28)))), Word(rc, 0, 0, 0)))
    ensures forall n | 4 <= n < 32 :: k[n] == old(k[n])
  {
    hide Plus, SBox;
    var s := RjSBox(k[29]);
    k[0] := Plus(k[0], Plus(s, rc));
    s := RjSBox(k[30]);
    k[1] := Plus(k[1], s);
    PlusZero(s);
    s := RjSBox(k[31]);
    k[2] := Plus(k[2], s);
    PlusZero(s);
    s := RjSBox(k[28]);
    k[3] := Plus(k[3], s);
    PlusZero(s);
  }

  /** Word 4 takes the sum with the substituted word 3. */
  method AddSubstituted(k: array<bv8>)
    requires k.Length == 32
    modifies k
    ensures WordAt(k, 16) == PlusW(old(WordAt(k, 16)), SubWord(old(WordAt(k, 12))))
    ensures forall n | 0 <= n < 32 && !(16 <= n < 20) :: k[n] == old(k[n])
  {
    hide Plus, SBox;
    var s := RjSBox(k[12]);
    k[16] := Plus(k[16], s);
    s := RjSBox(k[13]);
    k[17] := Plus(k[17], s);
    s := RjSBox(k[14]);
    k[18] := Plus(k[18], s);
    s := RjSBox(k[15]);
    k[19] := Plus(k[19], s);
  }

  method ExpandEncKey(k: array<bv8>, rc: bv8) returns (rc': bv8)
    requires k.Length == 32
    modifies k
    ensures KeyIn(k) == Next(old(KeyIn(k)), rc) && rc' == XTime(rc)
  {
    hide PlusW, SubWord, XTime, RotWord;
    ghost var old', new' := KeyIn(k), Next(KeyIn(k), rc);
    AddRotated(k, rc);
    rc' := XTime(rc);
    var j := 1;
    while j < 4
      invariant 1 <= j <= 4 && KeyIn(k) == Mixed(new', old', j)
    {
      AddWordBefore(k, j);
      j := j + 1;
    }
    AddSubstituted(k);
    j := 5;
    while j < 8
      invariant 5 <= j <= 8 && KeyIn(k) == Mixed(new', old', j)
    {
      AddWordBefore(k, j);
      j := j + 1;
    }
  }

  method ExpandDecKey(k: array<bv8>, rc: bv8) returns (rc': bv8)
    requires k.Length == 32
    modifies k
    ensures rc' == Unstep(rc) && KeyIn(k) == Previous(old(KeyIn(k)), rc')
  {
    hide PlusW, SubWord, Unstep, RotWord;
    ghost var old', new' := KeyIn(k), Previous(KeyIn(k), Unstep(rc));
    var j := 7;
    while j > 4
      invariant 4 <= j <= 7 && KeyIn(k) == Mixed(old', new', j + 1)
    {
      AddWordBefore(k, j);
      j := j - 1;
    }
    AddSubstituted(k);
    j := 3;
    while j > 0
      invariant 0 <= j <= 3 && KeyIn(k) == Mixed(old', new', j + 1)
    {
      AddWordBefore(k, j);
      j := j - 1;
    }
    rc' := Unstep(rc);
    AddRotated(k, rc');
  }

  // ----- the context -----

  /** aes256_context: two keys that stay, and the window that every call rewrites. */
  class Context {
    const key: array<bv8>
    const enckey: array<bv8>
    const deckey: array<bv8>

    predicate Valid()
    {
      key.Length == enckey.Length == deckey.Length == 32 && key != enckey && key != deckey && enckey != deckey
    }

    /** The state that aes256_init sets up: deckey is the last window of enckey's schedule. */
    ghost predicate Ready()
      reads enckey, deckey
    {
      Valid() && KeyIn(deckey) == Window(KeyIn(enckey), 7)
    }

    constructor ()
      ensures Valid() && fresh({key, enckey, deckey})
    {
      key, enckey, deckey := new bv8[32], new bv8[32], new bv8[32];
    }

    method Init(k: array<bv8>)
      requires Valid() && k.Length >= 32 && k !in {enckey, deckey}
      modifies enckey, deckey
      ensures Ready() && enckey[..] == k[..32]
    {
      hide Next, Window;
      for i := 0 to 32
        invariant forall n | 0 <= n < i :: enckey[n] == k[n] && deckey[n] == k[n]
      {
        deckey[i] := k[i];
        enckey[i] := deckey[i];
      }
      ghost var cipherKey := KeyIn(enckey);
      FirstWindow(cipherKey);
      RconIs(1);
      var rcon: bv8 := 1;
      var i := 7;
      while i != 0
        invariant 0 <= i <= 7
        invariant KeyIn(deckey) == Window(cipherKey, 7 - i) && rcon == Rcon(8 - i)
        invariant KeyIn(enckey) == cipherKey && enckey[..] == k[..32]
      {
        WindowSteps(cipherKey, 7 - i);
        RconIs(8 - i);
        rcon := ExpandEncKey(deckey, rcon);
        i := i - 1;
      }
    }

    method Done()
      requires Valid()
      modifies key, enckey, deckey
      ensures forall n | 0 <= n < 32 :: key[n] == enckey[n] == deckey[n] == 0
    {
      for i := 0 to 32
        invariant forall n | 0 <= n < i :: key[n] == enckey[n] == deckey[n] == 0
      {
        deckey[i] := 0;
        enckey[i] := deckey[i];
        key[i] := enckey[i];
      }
    }

    /** The round key that round i adds: the right half of the window for an odd i,
        else the left half, after an expansion. */
    method RoundKeyForward(buf: array<bv8>, i: nat, rcon: bv8, ghost k: Key) returns (rc: bv8)
      requires Valid() && buf.Length >= 16 && buf != key && i >= 1
      requires KeyIn(key) == Window(k, (i - 1) / 2) && rcon == Rcon((i - 1) / 2 + 1)
      modifies key, buf
      ensures KeyIn(key) == Window(k, i / 2) && rc == Rcon(i / 2 + 1)
      ensures BlockAt(buf, 0) == AddRoundKey(old(BlockAt(buf, 0)), RoundKey(k, i))
      ensures buf[16..] == old(buf[16..])
    {
      hide Next, Window, AddRoundKey, RoundKey, Rcon, XTime;
      rc := rcon;
      Halves(k, i / 2);
      if i % 2 == 1 {
        AddRoundKeyIn(buf, key, 16);
      } else {
        WindowSteps(k, (i - 1) / 2);
        RconIs((i - 1) / 2 + 1);
        rc := ExpandEncKey(key, rc);
        AddRoundKeyIn(buf, key, 0);
      }
    }

    /** aes256_encrypt_ecb is the cipher of FIPS 197, for every key and block. */
    method EncryptEcb(buf: array<bv8>)
      requires Valid() && buf.Length >= 16 && buf !in {key, enckey, deckey}
      modifies key, buf
      ensures BlockAt(buf, 0) == Cipher(KeyIn(enckey), old(BlockAt(buf, 0)))
      ensures buf[16..] == old(buf[16..])
    {
      hide SubBytes, ShiftRows, MixColumns, AddRoundKey, RoundKey, Window, Rcon;
      ghost var k, s := KeyIn(enckey), BlockAt(buf, 0);
      AddRoundKeyCpy(buf, enckey, key);
      FirstWindow(k);
      Halves(k, 0);
      RconIs(1);
      assert key[..32] == key[..] == enckey[..] == enckey[..32];
      SameKey(key, enckey);
      var rcon: bv8 := 1;
      for i := 1 to 14
        invariant BlockAt(buf, 0) == Rounds(k, s, i - 1)
        invariant KeyIn(key) == Window(k, (i - 1) / 2) && rcon == Rcon((i - 1) / 2 + 1)
        invariant buf[16..] == old(buf[16..]) && KeyIn(enckey) == k
      {
        SubBytesIn(buf);
        ShiftRowsIn(buf);
        MixColumnsIn(buf);
        rcon := RoundKeyForward(buf, i, rcon, k);
      }
      SubBytesIn(buf);
      ShiftRowsIn(buf);
      rcon := RoundKeyForward(buf, 14, rcon, k);
    }

    /** The round key that round i of the inverse adds, the window moving back before an odd i. */
    method RoundKeyBackward(buf: array<bv8>, i: nat, rcon: bv8, ghost k: Key) returns (rc: bv8)
      requires Valid() && buf.Length >= 16 && buf != key && i >= 1
      requires KeyIn(key) == Window(k, (i + 1) / 2) && rcon == Rcon((i + 1) / 2 + 1)
      modifies key, buf
      ensures KeyIn(key) == Window(k, i / 2) && rc == Rcon(i / 2 + 1)
      ensures BlockAt(buf, 0) == AddRoundKey(old(BlockAt(buf, 0)), RoundKey(k, i))
      ensures buf[16..] == old(buf[16..])
    {
      hide Previous, Window, AddRoundKey, RoundKey, Rcon, XTime, Unstep;
      rc := rcon;
      Halves(k, i / 2);
      if i % 2 == 1 {
        WindowStepsBack(k, i / 2);
        RconIs(i / 2 + 1);
        StepBack(Rcon(i / 2 + 1));
        rc := ExpandDecKey(key, rc);
        AddRoundKeyIn(buf, key, 16);
      } else {
        AddRoundKeyIn(buf, key, 0);
      }
    }

    /** aes256_decrypt_ecb is the inverse cipher of FIPS 197. */
    method DecryptEcb(buf: array<bv8>)
      requires Ready() && buf.Length >= 16 && buf !in {key, enckey, deckey}
      modifies key, buf
      ensures BlockAt(buf, 0) == InvCipher(KeyIn(enckey), old(BlockAt(buf, 0)))
      ensures buf[16..] == old(buf[16..])
    {
      hide InvSubBytes, InvShiftRows, InvMixColumns, AddRoundKey, RoundKey, Window, Rcon;
      ghost var k, s := KeyIn(enckey), BlockAt(buf, 0);
      AddRoundKeyCpy(buf, deckey, key);
      Halves(k, 7);
      assert key[..32] == key[..] == deckey[..] == deckey[..32];
      SameKey(key, deckey);
      RconOfEight();
      ShiftRowsInvIn(buf);
      SubBytesInvIn(buf);
      var rcon: bv8 := 0x80;
      for i := 14 downto 1
        invariant BlockAt(buf, 0) == InvRounds(k, s, i)
        invariant KeyIn(key) == Window(k, i / 2) && rcon == Rcon(i / 2 + 1)
        invariant buf[16..] == old(buf[16..]) && KeyIn(enckey) == k
      {
        rcon := RoundKeyBackward(buf, i, rcon, k);
        MixColumnsInvIn(buf);
        ShiftRowsInvIn(buf);
        SubBytesInvIn(buf);
      }
      Halves(k, 0);
      AddRoundKeyIn(buf, key, 0);
    }
  }

  lemma SameKey(a: array<bv8>, b: array<bv8>)
    requires a.Length >= 32 && b.Length >= 32 && a[..32] == b[..32]
    ensures KeyIn(a) == KeyIn(b)
  {
    forall n | 0 <= n < 32
      ensures a[n] == b[n]
    {
      assert a[n] == a[..32][n] == b[..32][n];
    }
  }
}
