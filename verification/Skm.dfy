/** The block loops of skm.cpp: zero padding on the way in, C strings on the way out. */
module Skm {
  import opened Fips197
  import opened CipherFacts
  import opened Aes256
  import Utf8

  datatype Option<T> = None | Some(value: T)

  // ----- blocks as strings -----

  function Bytes(b: Block): (s: seq<bv8>)
    ensures |s| == 16
  {
    [b.c0.b0, b.c0.b1, b.c0.b2, b.c0.b3, b.c1.b0, b.c1.b1, b.c1.b2, b.c1.b3,
     b.c2.b0, b.c2.b1, b.c2.b2, b.c2.b3, b.c3.b0, b.c3.b1, b.c3.b2, b.c3.b3]
  }

  function BlockOf(s: seq<bv8>): Block
    requires |s| == 16
  {
    Block(Word(s[0], s[1], s[2], s[3]), Word(s[4], s[5], s[6], s[7]),
          Word(s[8], s[9], s[10], s[11]), Word(s[12], s[13], s[14], s[15]))
  }

  lemma BytesOfBlock(s: seq<bv8>)
    requires |s| == 16
    ensures Bytes(BlockOf(s)) == s
  {
  }

  function Zeros(n: nat): (s: seq<bv8>)
    ensures |s| == n && forall k | 0 <= k < n :: s[k] == 0
  {
    seq(n, _ => 0)
  }

  /** The first block of s, its missing bytes left as the buffer had them. */
  function Over(s: seq<bv8>, stale: seq<bv8>): (b: seq<bv8>)
    requires |stale| == 16
    ensures |b| == 16
  {
    if |s| < 16 then s + stale[|s|..] else s[..16]
  }

  /** The first block of s, filled up with zeros. */
  function Padded(s: seq<bv8>): (b: seq<bv8>)
    ensures |b| == 16
  {
    Over(s, Zeros(16))
  }

  function Rest(s: seq<bv8>): seq<bv8>
  {
    if |s| < 16 then [] else s[16..]
  }

  /** Every block padded and encrypted on its own. */
  ghost function Encrypted(k: Key, s: seq<bv8>): seq<bv8>
    decreases |s|
  {
    if s == [] then [] else Bytes(Cipher(k, BlockOf(Padded(s)))) + Encrypted(k, Rest(s))
  }

  /** What a C string takes from an array: the bytes before the first zero. */
  function CString(s: seq<bv8>): (c: seq<bv8>)
    ensures c <= s && 0 !in c
    ensures |c| < |s| ==> s[|c|] == 0
  {
    if s == [] || s[0] == 0 then [] else [s[0]] + CString(s[1..])
  }

  /** Every block decrypted over the buffer of the block before it and cut at its first zero. */
  ghost function Decrypted(k: Key, s: seq<bv8>, stale: seq<bv8>): seq<bv8>
    requires |stale| == 16
    decreases |s|
  {
    if s == [] then [] else
      var plain := Bytes(InvCipher(k, BlockOf(Over(s, stale))));
      CString(plain) + Decrypted(k, Rest(s), plain)
  }

  // ----- the round trip -----

  lemma {:induction false} EncryptedLength(k: Key, s: seq<bv8>)
    ensures |Encrypted(k, s)| == (|s| + 15) / 16 * 16
    decreases |s|
  {
    hide Cipher;
    if s != [] {
      EncryptedLength(k, Rest(s));
    }
  }

  lemma {:induction false} CStringOfPadded(s: seq<bv8>, n: nat)
    ensures CString(s + Zeros(n)) == CString(s)
  {
    if s == [] {
      assert s + Zeros(n) == Zeros(n);
    } else {
      assert (s + Zeros(n))[1..] == s[1..] + Zeros(n);
      CStringOfPadded(s[1..], n);
    }
  }

  lemma {:induction false} NothingCut(s: seq<bv8>)
    requires 0 !in s
    ensures CString(s) == s
  {
    if s != [] {
      NothingCut(s[1..]);
    }
  }

  lemma FirstBlockBack(s: seq<bv8>)
    requires 0 !in s
    ensures CString(Padded(s)) == if |s| < 16 then s else s[..16]
  {
    NothingCut(if |s| < 16 then s else s[..16]);
    if |s| < 16 {
      assert Zeros(16)[|s|..] == Zeros(16 - |s|);
      CStringOfPadded(s, 16 - |s|);
    } else {
      assert Padded(s) == s[..16];
    }
  }

  lemma DecryptedFirst(k: Key, b: seq<bv8>, rest: seq<bv8>, stale: seq<bv8>)
    requires |b| == |stale| == 16
    ensures Decrypted(k, Bytes(Cipher(k, BlockOf(b))) + rest, stale) == CString(b) + Decrypted(k, rest, b)
  {
    hide Cipher, InvCipher, CString;
    var c := Cipher(k, BlockOf(b));
    var e := Bytes(c) + rest;
    assert Over(e, stale) == Bytes(c) && Rest(e) == rest;
    BlockOfBytes(c);
    InvCipherOfCipher(k, BlockOf(b));
    BytesOfBlock(b);
  }

  lemma BlockOfBytes(b: Block)
    ensures BlockOf(Bytes(b)) == b
  {
  }

  lemma {:induction false} RoundTrip(k: Key, s: seq<bv8>, stale: seq<bv8>)
    requires 0 !in s && |stale| == 16
    ensures Decrypted(k, Encrypted(k, s), stale) == s
    decreases |s|
  {
    hide Cipher, InvCipher, CString, Padded;
    if s != [] {
      DecryptedFirst(k, Padded(s), Encrypted(k, Rest(s)), stale);
      FirstBlockBack(s);
      RoundTrip(k, Rest(s), Padded(s));
    }
  }

  lemma {:induction false} DecryptedHasNoZero(k: Key, s: seq<bv8>, stale: seq<bv8>)
    requires |stale| == 16
    ensures 0 !in Decrypted(k, s, stale)
    decreases |s|
  {
    hide InvCipher;
    if s != [] {
      DecryptedHasNoZero(k, Rest(s), Bytes(InvCipher(k, BlockOf(Over(s, stale)))));
    }
  }

  /** The round trip restores exactly the strings without a zero byte. */
  lemma RoundTripExactly(k: Key, s: seq<bv8>, stale: seq<bv8>)
    requires |stale| == 16
    ensures Decrypted(k, Encrypted(k, s), stale) == s <==> 0 !in s
  {
    hide Encrypted, Decrypted;
    DecryptedHasNoZero(k, Encrypted(k, s), stale);
    if 0 !in s {
      RoundTrip(k, s, stale);
    }
  }

  /** After a whole first block, or with none at all, the buffer's old bytes do not show. */
  lemma WholeBlockForgets(k: Key, s: seq<bv8>, stale: seq<bv8>, stale': seq<bv8>)
    requires |stale| == |stale'| == 16 && (s == [] || |s| >= 16)
    ensures Decrypted(k, s, stale) == Decrypted(k, s, stale')
  {
    hide Cipher, InvCipher, CString;
    if s != [] {
      assert Over(s, stale) == Over(s, stale');
    }
  }

  /** With a shorter first block they do: the block decrypted is the same only if the
      old bytes behind it are. */
  lemma ShortBlockShows(k: Key, s: seq<bv8>, stale: seq<bv8>, stale': seq<bv8>)
    requires |stale| == |stale'| == 16 && |s| < 16
    ensures InvCipher(k, BlockOf(Over(s, stale))) == InvCipher(k, BlockOf(Over(s, stale'))) <==> stale[|s|..] == stale'[|s|..]
  {
    hide Cipher, InvCipher, BlockOf, Bytes;
    var b, b' := Over(s, stale), Over(s, stale');
    CipherOfInvCipher(k, BlockOf(b));
    CipherOfInvCipher(k, BlockOf(b'));
    BytesOfBlock(b);
    BytesOfBlock(b');
    assert b[|s|..] == stale[|s|..] && b'[|s|..] == stale'[|s|..];
  }

  // ----- block by block, in terms of the bytes -----

  ghost function BlockEncrypted(k: Key, plain: seq<bv8>): (c: seq<bv8>)
    requires |plain| == 16
    ensures |c| == 16
  {
    Bytes(Cipher(k, BlockOf(plain)))
  }

  ghost function BlockDecrypted(k: Key, c: seq<bv8>): (plain: seq<bv8>)
    requires |c| == 16
    ensures |plain| == 16
  {
    Bytes(InvCipher(k, BlockOf(c)))
  }

  lemma BlockBack(k: Key, plain: seq<bv8>)
    requires |plain| == 16
    ensures BlockDecrypted(k, BlockEncrypted(k, plain)) == plain
  {
    hide Cipher, InvCipher, Bytes, BlockOf;
    BlockOfBytes(Cipher(k, BlockOf(plain)));
    InvCipherOfCipher(k, BlockOf(plain));
    BytesOfBlock(plain);
  }

  lemma PaddedBytes(s: seq<bv8>)
    ensures forall j | 0 <= j < 16 :: Padded(s)[j] == if j < |s| then s[j] else 0
  {
  }

  lemma EncryptedIs(k: Key, s: seq<bv8>)
    requires s != []
    ensures |s| >= 16 ==> Encrypted(k, s) == BlockEncrypted(k, Padded(s)) + Encrypted(k, s[16..])
    ensures |s| < 16 ==> Encrypted(k, s) == BlockEncrypted(k, Padded(s))
  {
    hide Cipher, Bytes, BlockOf, Padded;
  }

  /** Block i of what encrypt returns is the encryption of the 16 bytes of the source from 16*i on,
      with zeros for those past its end. */
  lemma {:induction false} EncryptedBlock(k: Key, s: seq<bv8>, i: nat, plain: seq<bv8>)
    requires 16 * i < |s| && |plain| == 16
    requires forall j | 0 <= j < 16 :: plain[j] == if 16 * i + j < |s| then s[16 * i + j] else 0
    ensures 16 * i + 16 <= |Encrypted(k, s)| && Encrypted(k, s)[16 * i..16 * i + 16] == BlockEncrypted(k, plain)
    decreases i
  {
    hide BlockEncrypted, Encrypted, Padded;
    EncryptedIs(k, s);
    if i == 0 {
      PaddedBytes(s);
      assert Padded(s) == plain;
      assert Encrypted(k, s)[..16] == BlockEncrypted(k, Padded(s));
    } else {
      EncryptedBlock(k, s[16..], i - 1, plain);
      var o := 16 * (i - 1);
      assert Encrypted(k, s)[o + 16..o + 32] == Encrypted(k, s[16..])[o..o + 16];
    }
  }

  /** The inverse cipher takes the last block back to the rest of the source and literal zeros. */
  lemma LastBlockBack(k: Key, i: nat, head: seq<bv8>, rest: seq<bv8>, front: seq<bv8>, last: seq<bv8>, b: seq<bv8>)
    requires |head| == 16 * i && 0 < |rest| < 16 && |last| == |b| == 16
    requires Encrypted(k, head + rest) == front + last && b == BlockDecrypted(k, last)
    ensures rest <= b && forall j | |rest| <= j < 16 :: b[j] == 0
  {
    hide BlockEncrypted, BlockDecrypted, Encrypted;
    var plain := rest + Zeros(16 - |rest|);
    EncryptedLength(k, head + rest);
    RoundedUp(|head + rest|, i);
    RestFilled(i, head, rest, plain);
    EncryptedBlock(k, head + rest, i, plain);
    BlockBack(k, plain);
    LastSlice(Encrypted(k, head + rest), front, last, 16 * i);
  }

  lemma RoundedUp(n: nat, i: nat)
    requires 16 * i < n < 16 * i + 16
    ensures (n + 15) / 16 * 16 == 16 * i + 16
  {
  }

  lemma RestFilled(i: nat, head: seq<bv8>, rest: seq<bv8>, plain: seq<bv8>)
    requires |head| == 16 * i && |rest| < 16 && plain == rest + Zeros(16 - |rest|)
    ensures forall j | 0 <= j < 16 :: plain[j] == if 16 * i + j < |head + rest| then (head + rest)[16 * i + j] else 0
  {
  }

  lemma LastSlice(e: seq<bv8>, front: seq<bv8>, last: seq<bv8>, o: nat)
    requires e == front + last && |last| == 16 && |e| == o + 16
    ensures e[o..o + 16] == last
  {
  }

  /** One block decrypted: b is its 16 bytes, or fewer and the old bytes of the buffer behind them; what comes
      out are the plain bytes up to the first zero. */
  lemma DecryptedBlock(k: Key, s: seq<bv8>, stale: seq<bv8>, b: seq<bv8>, plain: seq<bv8>, d: seq<bv8>)
    requires 0 < |s| <= 16 && |stale| == |b| == |plain| == 16
    requires forall j | 0 <= j < 16 :: b[j] == if j < |s| then s[j] else stale[j]
    requires plain == BlockDecrypted(k, b) && d == Decrypted(k, s, stale)
    ensures 0 !in d && (d == plain || d + [0] <= plain)
  {
    hide InvCipher, Bytes, BlockOf, CString;
    assert Over(s, stale) == b;
    assert Rest(s) == [];
    NothingDecrypted(k, plain);
    CutAtZero(plain);
    assert d == CString(plain);
  }

  lemma CutAtZero(plain: seq<bv8>)
    ensures var d := CString(plain); 0 !in d && (d == plain || d + [0] <= plain)
  {
  }

  lemma NothingDecrypted(k: Key, stale: seq<bv8>)
    requires |stale| == 16
    ensures Decrypted(k, [], stale) == []
  {
  }

  /** The blocks are decrypted one after the other, each over the plain bytes of the one before. */
  lemma DecryptedFirstBlock(k: Key, s: seq<bv8>, stale: seq<bv8>)
    requires |s| >= 16 && |stale| == 16
    ensures Decrypted(k, s, stale) == Decrypted(k, s[..16], stale) + Decrypted(k, s[16..], BlockDecrypted(k, s[..16]))
  {
    hide InvCipher, Bytes, BlockOf, CString;
    assert Over(s, stale) == s[..16] == Over(s[..16], stale);
    assert Rest(s[..16]) == [];
  }

  // ----- the loops -----

  function Tail(s: seq<bv8>, i: nat): seq<bv8>
  {
    if i < |s| then s[i..] else []
  }

  lemma RestOfTail(s: seq<bv8>, i: nat)
    ensures Rest(Tail(s, i)) == Tail(s, i + 16)
  {
  }

  lemma WholeTail(s: seq<bv8>)
    ensures Tail(s, 0) == s
  {
  }

  lemma PastTail(s: seq<bv8>, i: nat)
    requires i >= |s|
    ensures Tail(s, i) == []
  {
  }

  lemma BlockIn(buf: array<bv8>)
    requires buf.Length >= 16
    ensures BlockAt(buf, 0) == BlockOf(buf[..16]) && Bytes(BlockAt(buf, 0)) == buf[..16]
  {
  }

  method Load(source: array<bv8>, i: nat, buf: array<bv8>)
    requires buf.Length >= 16 && buf != source && i < source.Length
    modifies buf
    ensures buf[..16] == Over(Tail(source[..], i), old(buf[..16]))
  {
    for k := 0 to 16
      invariant forall n | 0 <= n < k :: buf[n] == if i + n < source.Length then source[i + n] else old(buf[n])
      invariant forall n | k <= n < 16 :: buf[n] == old(buf[n])
    {
      if i + k < source.Length {
        buf[k] := source[k + i];
      }
    }
  }

  predicate Apart(ctx: Context, a: array<bv8>)
  {
    a != ctx.key && a != ctx.enckey && a != ctx.deckey
  }

  /** aes256_init, aes256_encrypt_ecb and aes256_done, as both loops call them for every block. */
  method InitEncryptDone(ctx: Context, charParam: array<bv8>, buf: array<bv8>)
    requires ctx.Valid() && charParam.Length >= 32 && buf.Length >= 16
    requires Apart(ctx, buf) && Apart(ctx, charParam) && buf != charParam
    modifies buf, ctx.key, ctx.enckey, ctx.deckey
    ensures BlockAt(buf, 0) == Cipher(KeyIn(charParam), old(BlockAt(buf, 0)))
  {
    hide Cipher, KeyIn, BlockAt, Context.Ready;
    ctx.Init(charParam);
    assert ctx.enckey[..32] == ctx.enckey[..];
    SameKey(ctx.enckey, charParam);
    ctx.EncryptEcb(buf);
    ctx.Done();
  }

  method InitDecryptDone(ctx: Context, charParam: array<bv8>, buf: array<bv8>)
    requires ctx.Valid() && charParam.Length >= 32 && buf.Length >= 16
    requires Apart(ctx, buf) && Apart(ctx, charParam) && buf != charParam
    modifies buf, ctx.key, ctx.enckey, ctx.deckey
    ensures BlockAt(buf, 0) == InvCipher(KeyIn(charParam), old(BlockAt(buf, 0)))
  {
    hide InvCipher, KeyIn, BlockAt, Context.Ready;
    ctx.Init(charParam);
    assert ctx.enckey[..32] == ctx.enckey[..];
    SameKey(ctx.enckey, charParam);
    ctx.DecryptEcb(buf);
    ctx.Done();
  }

  method Clear(buf: array<bv8>)
    requires buf.Length >= 16
    modifies buf
    ensures buf[..16] == Zeros(16)
  {
    for k := 0 to 16
      invariant forall n | 0 <= n < k :: buf[n] == 0
    {
      buf[k] := 0;
    }
  }

  /** memset, the copy loop, aes256_init, aes256_encrypt_ecb and aes256_done for the block at i. */
  method EncryptOne(source: array<bv8>, i: nat, buf: array<bv8>, ctx: Context, charParam: array<bv8>)
    requires ctx.Valid() && charParam.Length >= 32 && buf.Length == 16 && i < source.Length
    requires Apart(ctx, buf) && Apart(ctx, source) && Apart(ctx, charParam) && buf != source && buf != charParam
    modifies buf, ctx.key, ctx.enckey, ctx.deckey
    ensures buf[..] == Bytes(Cipher(KeyIn(charParam), BlockOf(Padded(Tail(source[..], i)))))
  {
    hide Cipher, Tail, KeyIn, BlockAt, BlockOf, Bytes, Over, Zeros;
    Clear(buf);
    Load(source, i, buf);
    BlockIn(buf);
    InitEncryptDone(ctx, charParam, buf);
    BlockIn(buf);
    assert buf[..16] == buf[..];
  }

  method CopyInto(to: array<bv8>, i: nat, from: array<bv8>)
    requires from.Length == 16 && i + 16 <= to.Length && to != from
    modifies to
    ensures to[..i + 16] == old(to[..i]) + from[..]
  {
    for k := 0 to 16
      invariant forall n | 0 <= n < i :: to[n] == old(to[n])
      invariant forall n | 0 <= n < k :: to[i + n] == from[n]
    {
      to[i + k] := from[k];
    }
    assert forall n | i <= n < i + 16 :: to[n] == to[i + (n - i)];
  }

  lemma EncryptedStep(k: Key, s: seq<bv8>, i: nat)
    requires i < |s|
    ensures Encrypted(k, Tail(s, i)) == Bytes(Cipher(k, BlockOf(Padded(Tail(s, i))))) + Encrypted(k, Tail(s, i + 16))
  {
    hide Cipher, Padded;
    RestOfTail(s, i);
  }

  /** encrypt of skm.cpp: every block of the source, the last one filled up with zeros. */
  method EncryptBlocks(source: array<bv8>, charParam: array<bv8>) returns (encodedBytes: array<bv8>)
    requires charParam.Length >= 32
    ensures fresh(encodedBytes) && encodedBytes[..] == Encrypted(KeyIn(charParam), source[..])
  {
    hide Encrypted, Cipher, Padded, Tail, BlockOf, Bytes, KeyIn, Context.Ready;
    var len := source.Length;
    var ctx := new Context();
    ctx.Init(charParam);
    var encodeBase := new bv8[16];
    var size := if len % 16 == 0 then len else len + 16 - len % 16;
    encodedBytes := new bv8[size];
    ghost var k := KeyIn(charParam);
    WholeTail(source[..]);
    var i := 0;
    while i < len
      invariant 0 <= i <= size && i % 16 == 0
      invariant Encrypted(k, source[..]) == encodedBytes[..i] + Encrypted(k, Tail(source[..], i))
    {
      BlockFits(len, size, i);
      EncryptOne(source, i, encodeBase, ctx, charParam);
      CopyInto(encodedBytes, i, encodeBase);
      EncryptedStep(k, source[..], i);
      i := i + 16;
    }
    PastTail(source[..], i);
    LoopEnds(len, size, i);
    NothingEncrypted(k);
    assert encodedBytes[..i] == encodedBytes[..];
  }

  lemma BlockFits(len: nat, size: nat, i: nat)
    requires i < len && i % 16 == 0 && size == if len % 16 == 0 then len else len + 16 - len % 16
    ensures i + 16 <= size && (i + 16) % 16 == 0
  {
  }

  lemma LoopEnds(len: nat, size: nat, i: nat)
    requires len <= i <= size && i % 16 == 0 && size == if len % 16 == 0 then len else len + 16 - len % 16
    ensures i == size
  {
  }

  lemma NothingEncrypted(k: Key)
    ensures Encrypted(k, []) == []
  {
  }

  /** The copy loop, aes256_init, aes256_decrypt_ecb, the closing zero and aes256_done for the block at i. */
  method DecryptOne(source: array<bv8>, i: nat, buf: array<bv8>, ctx: Context, charParam: array<bv8>)
    requires ctx.Valid() && charParam.Length >= 32 && buf.Length == 17 && i < source.Length
    requires Apart(ctx, buf) && Apart(ctx, source) && Apart(ctx, charParam) && buf != source && buf != charParam
    modifies buf, ctx.key, ctx.enckey, ctx.deckey
    ensures buf[16] == 0
    ensures buf[..16] == Bytes(InvCipher(KeyIn(charParam), BlockOf(Over(Tail(source[..], i), old(buf[..16])))))
  {
    hide InvCipher, Tail, KeyIn, BlockAt, BlockOf, Bytes, Over;
    Load(source, i, buf);
    BlockIn(buf);
    InitDecryptDone(ctx, charParam, buf);
    BlockIn(buf);
    ghost var plain := buf[..16];
    buf[16] := 0;
    assert buf[..16] == plain;
  }

  lemma DecryptedStep(k: Key, s: seq<bv8>, i: nat, stale: seq<bv8>, plain: seq<bv8>)
    requires i < |s| && |stale| == 16
    requires plain == Bytes(InvCipher(k, BlockOf(Over(Tail(s, i), stale))))
    ensures Decrypted(k, Tail(s, i), stale) == CString(plain) + Decrypted(k, Tail(s, i + 16), plain)
  {
    hide InvCipher, Over, CString;
    RestOfTail(s, i);
  }

  /** What decrypt returns for the characters d: none when they are not accepted as UTF-8. */
  ghost function Shown(d: seq<bv8>): Option<seq<bv8>>
  {
    if Utf8.Accepted(d) then Some(d) else None
  }

  /** decrypt returns what was encrypted exactly for the accepted strings without a zero byte. */
  lemma TextComesBack(k: Key, s: seq<bv8>, stale: seq<bv8>)
    requires |stale| == 16
    ensures Shown(Decrypted(k, Encrypted(k, s), stale)) == Some(s) <==> 0 !in s && Utf8.Accepted(s)
  {
    hide Encrypted, Decrypted, Utf8.Accepted;
    RoundTripExactly(k, s, stale);
  }

  /** The check on sName.c_str(), whose characters end at the first zero. */
  method Checked(sName: seq<bv8>) returns (text: Option<seq<bv8>>)
    ensures text == Shown(CString(sName))
  {
    hide Utf8.Accepted;
    var c := CString(sName);
    var chars := new bv8[|c|](k requires 0 <= k < |c| => c[k]);
    assert chars[..] == c;
    var valid := Utf8.CheckIsValid(chars);
    text := if valid then Some(c) else None;
  }

  /** decrypt of skm.cpp. stale is what the stack held where decodeBase is placed. */
  method DecryptBlocks(source: array<bv8>, charParam: array<bv8>, stale: seq<bv8>) returns (text: Option<seq<bv8>>)
    requires charParam.Length >= 32 && |stale| == 17
    ensures text == Shown(Decrypted(KeyIn(charParam), source[..], stale[..16]))
    ensures text.None? <==> !Utf8.Accepted(Decrypted(KeyIn(charParam), source[..], stale[..16]))
    ensures text.Some? ==> text.value == Decrypted(KeyIn(charParam), source[..], stale[..16])
  {
    hide Decrypted, InvCipher, Over, Tail, BlockOf, Bytes, KeyIn, CString, Utf8.Accepted, Context.Ready;
    var len, sName: seq<bv8> := source.Length, [];
    var ctx := new Context();
    ctx.Init(charParam);
    var decodeBase := new bv8[17](i requires 0 <= i < 17 => stale[i]);
    ghost var k := KeyIn(charParam);
    assert decodeBase[..16] == stale[..16];
    WholeTail(source[..]);
    var i := 0;
    while i < len
      invariant 0 <= i
      invariant Decrypted(k, source[..], stale[..16]) == sName + Decrypted(k, Tail(source[..], i), decodeBase[..16])
    {
      ghost var was := decodeBase[..16];
      DecryptOne(source, i, decodeBase, ctx, charParam);
      DecryptedStep(k, source[..], i, was, decodeBase[..16]);
      var bufS := CString(decodeBase[..]);
      assert decodeBase[..] == decodeBase[..16] + Zeros(1);
      CStringOfPadded(decodeBase[..16], 1);
      sName := sName + if |bufS| < 16 then bufS else bufS[..16];
      i := i + 16;
    }
    PastTail(source[..], i);
    NothingDecrypted(k, decodeBase[..16]);
    assert sName == Decrypted(k, source[..], stale[..16]);
    DecryptedHasNoZero(k, source[..], stale[..16]);
    NothingCut(sName);
    text := Checked(sName);
  }
}
