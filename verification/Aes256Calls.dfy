/** What a caller of aes256.cpp sees over several calls on one context. */
module Aes256Calls {
  import opened Fips197
  import opened CipherFacts
  import opened Aes256
  import Fips197Example
  import Skm

  datatype Call = Encrypt | Decrypt

  /** The block after some calls, by the ciphers of FIPS 197. */
  ghost function After(k: Key, b: Block, calls: seq<Call>): Block
  {
    if calls == [] then b else
      var n := |calls| - 1;
      var c := After(k, b, calls[..n]);
      if calls[n] == Encrypt then Cipher(k, c) else InvCipher(k, c)
  }

  lemma AfterSnoc(k: Key, b: Block, calls: seq<Call>, n: nat)
    requires n < |calls|
    ensures After(k, b, calls[..n + 1]) ==
      if calls[n] == Encrypt then Cipher(k, After(k, b, calls[..n])) else InvCipher(k, After(k, b, calls[..n]))
  {
    assert calls[..n + 1][..n] == calls[..n];
  }

  lemma {:induction false} AfterAppend(k: Key, b: Block, x: seq<Call>, y: seq<Call>)
    ensures After(k, b, x + y) == After(k, After(k, b, x), y)
    decreases |y|
  {
    hide Cipher, InvCipher;
    if y == [] {
      assert x + y == x;
    } else {
      var n := |y| - 1;
      assert (x + y)[..|x + y| - 1] == x + y[..n];
      AfterAppend(k, b, x, y[..n]);
    }
  }

  function Inverse(c: Call): Call
  {
    if c == Encrypt then Decrypt else Encrypt
  }

  lemma InverseUndoes(k: Key, b: Block, c: Call)
    ensures After(k, b, [c, Inverse(c)]) == b
  {
    hide Cipher, InvCipher;
    var calls := [c, Inverse(c)];
    assert calls[..0] == [] && calls[..2] == calls;
    AfterSnoc(k, b, calls, 0);
    AfterSnoc(k, b, calls, 1);
    InvCipherOfCipher(k, b);
    CipherOfInvCipher(k, b);
  }

  /** A call and its inverse leave no trace in what the calls after them do. */
  lemma UndoneCallsVanish(k: Key, b: Block, before: seq<Call>, c: Call, after: seq<Call>)
    ensures After(k, b, before + [c, Inverse(c)] + after) == After(k, b, before + after)
  {
    hide After;
    AfterAppend(k, b, before + [c, Inverse(c)], after);
    AfterAppend(k, b, before, [c, Inverse(c)]);
    InverseUndoes(k, After(k, b, before), c);
    AfterAppend(k, b, before, after);
  }

  /** Any calls on one context: each works with the key given to aes256_init, and the context stays as it was. */
  method Perform(ctx: Context, buf: array<bv8>, calls: seq<Call>)
    requires ctx.Ready() && buf.Length >= 16 && buf !in {ctx.key, ctx.enckey, ctx.deckey}
    modifies buf, ctx.key
    ensures ctx.Ready() && ctx.enckey[..] == old(ctx.enckey[..]) && ctx.deckey[..] == old(ctx.deckey[..])
    ensures BlockAt(buf, 0) == After(KeyIn(ctx.enckey), old(BlockAt(buf, 0)), calls)
    ensures buf[16..] == old(buf[16..])
  {
    hide Cipher, InvCipher, BlockAt, KeyIn, After;
    ghost var k, b := KeyIn(ctx.enckey), BlockAt(buf, 0);
    AfterNone(k, b, calls);
    for n := 0 to |calls|
      invariant BlockAt(buf, 0) == After(k, b, calls[..n])
      invariant buf[16..] == old(buf[16..])
    {
      if calls[n] == Encrypt {
        ctx.EncryptEcb(buf);
      } else {
        ctx.DecryptEcb(buf);
      }
      AfterSnoc(k, b, calls, n);
    }
    assert calls[..|calls|] == calls;
  }

  lemma AfterNone(k: Key, b: Block, calls: seq<Call>)
    ensures After(k, b, calls[..0]) == b
  {
  }

  /** aes256_encrypt_ecb and then aes256_decrypt_ecb leave the buffer as it was. */
  method EncryptDecrypt(ctx: Context, buf: array<bv8>)
    requires ctx.Ready() && buf.Length >= 16 && buf !in {ctx.key, ctx.enckey, ctx.deckey}
    modifies buf, ctx.key
    ensures ctx.Ready() && buf[..] == old(buf[..])
  {
    hide Cipher, InvCipher, KeyIn, BlockAt, Skm.Bytes, Skm.BlockOf;
    ghost var before, b := buf[..], BlockAt(buf, 0);
    Skm.BlockIn(buf);
    ctx.EncryptEcb(buf);
    ctx.DecryptEcb(buf);
    InvCipherOfCipher(KeyIn(ctx.enckey), b);
    Skm.BlockIn(buf);
    assert buf[..] == buf[..16] + buf[16..] && before == before[..16] + before[16..];
  }

  // ----- the example of FIPS 197 -----

  lemma ExampleKey(a: array<bv8>)
    requires a.Length == 32 && forall n | 0 <= n < 32 :: a[n] == n as bv8
    ensures KeyIn(a) == Fips197Example.KEY0
  {
  }

  lemma ExampleBlock(a: array<bv8>)
    requires a[..] == [0x00, 0x11, 0x22, 0x33, 0x44, 0x55, 0x66, 0x77, 0x88, 0x99, 0xaa, 0xbb, 0xcc, 0xdd, 0xee, 0xff]
    ensures BlockAt(a, 0) == Fips197Example.PLAIN
  {
    hide BlockAt;
    assert a[..] == a[..16];
    Skm.BlockIn(a);
  }

  lemma ExampleBytes()
    ensures Skm.Bytes(Cipher(Fips197Example.KEY0, Fips197Example.PLAIN))
      == [0x8e, 0xa2, 0xb7, 0xca, 0x51, 0x67, 0x45, 0xbf, 0xea, 0xfc, 0x49, 0x90, 0x4b, 0x49, 0x60, 0x89]
  {
    hide Cipher;
    Fips197Example.Example();
  }

  /** The key 00 01 .. 1f and the block 00 11 .. ff of appendix C.3: the bytes that aes256_encrypt_ecb leaves. */
  method EncryptExample() returns (c: seq<bv8>)
    ensures c == [0x8e, 0xa2, 0xb7, 0xca, 0x51, 0x67, 0x45, 0xbf, 0xea, 0xfc, 0x49, 0x90, 0x4b, 0x49, 0x60, 0x89]
  {
    hide Cipher, KeyIn, BlockAt, Skm.Bytes, Skm.BlockOf;
    var ctx := new Context();
    var key := new bv8[32](n requires 0 <= n < 32 => n as bv8);
    var buf := new bv8[16] [0x00, 0x11, 0x22, 0x33, 0x44, 0x55, 0x66, 0x77, 0x88, 0x99, 0xaa, 0xbb, 0xcc, 0xdd, 0xee, 0xff];
    ExampleKey(key);
    ExampleBlock(buf);
    c := EncryptWith(ctx, key, buf);
    ExampleBytes();
  }

  method EncryptWith(ctx: Context, key: array<bv8>, buf: array<bv8>) returns (c: seq<bv8>)
    requires ctx.Valid() && key.Length == 32 && buf.Length == 16 && key != buf
    requires Skm.Apart(ctx, key) && Skm.Apart(ctx, buf)
    modifies buf, ctx.key, ctx.enckey, ctx.deckey
    ensures c == Skm.Bytes(Cipher(KeyIn(key), old(BlockAt(buf, 0))))
  {
    hide Cipher, KeyIn, BlockAt, Skm.Bytes, Skm.BlockOf;
    Skm.InitEncryptDone(ctx, key, buf);
    Skm.BlockIn(buf);
    c := buf[..16];
  }
}
