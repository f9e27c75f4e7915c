/** The key schedule in a window of 32 bytes: eight words of KeyExpansion at a time. */
module KeyWindow {
  import opened Gf256
  import opened Fips197
  import opened CipherFacts

  /** The words w[8n] to w[8n+7] of the expanded key. */
  ghost function Window(k: Key, n: nat): Key
  {
    Key(W(k, 8 * n), W(k, 8 * n + 1), W(k, 8 * n + 2), W(k, 8 * n + 3),
        W(k, 8 * n + 4), W(k, 8 * n + 5), W(k, 8 * n + 6), W(k, 8 * n + 7))
  }

  /** What aes_expandEncKey makes of a window. */
  ghost function Next(k: Key, rc: bv8): Key
  {
    var v0 := PlusW(k.w0, PlusW(SubWord(RotWord(k.w7)), Word(rc, 0, 0, 0)));
    var v1 := PlusW(k.w1, v0);
    var v2 := PlusW(k.w2, v1);
    var v3 := PlusW(k.w3, v2);
    var v4 := PlusW(k.w4, SubWord(v3));
    var v5 := PlusW(k.w5, v4);
    var v6 := PlusW(k.w6, v5);
    Key(v0, v1, v2, v3, v4, v5, v6, PlusW(k.w7, v6))
  }

  /** What aes_expandDecKey makes of a window, with rc already stepped back. */
  ghost function Previous(k: Key, rc: bv8): Key
  {
    var v7 := PlusW(k.w7, k.w6);
    Key(PlusW(k.w0, PlusW(SubWord(RotWord(v7)), Word(rc, 0, 0, 0))),
        PlusW(k.w1, k.w0), PlusW(k.w2, k.w1), PlusW(k.w3, k.w2),
        PlusW(k.w4, SubWord(k.w3)), PlusW(k.w5, k.w4), PlusW(k.w6, k.w5), v7)
  }

  /** Stepping forward and back is the identity, for every window and every rc. */
  lemma PreviousOfNext(k: Key, rc: bv8)
    ensures Previous(Next(k, rc), rc) == k
  {
    hide PlusW, SubWord;
    var n := Next(k, rc);
    PlusWTwice(k.w7, n.w6);
    PlusWTwice(k.w6, n.w5);
    PlusWTwice(k.w5, n.w4);
    PlusWTwice(k.w4, SubWord(n.w3));
    PlusWTwice(k.w3, n.w2);
    PlusWTwice(k.w2, n.w1);
    PlusWTwice(k.w1, n.w0);
    PlusWTwice(k.w0, PlusW(SubWord(RotWord(k.w7)), Word(rc, 0, 0, 0)));
  }

  lemma NextOfPrevious(k: Key, rc: bv8)
    ensures Next(Previous(k, rc), rc) == k
  {
    hide PlusW, SubWord;
    var p := Previous(k, rc);
    PlusWTwice(k.w0, PlusW(SubWord(RotWord(p.w7)), Word(rc, 0, 0, 0)));
    PlusWTwice(k.w1, k.w0);
    PlusWTwice(k.w2, k.w1);
    PlusWTwice(k.w3, k.w2);
    PlusWTwice(k.w4, SubWord(k.w3));
    PlusWTwice(k.w5, k.w4);
    PlusWTwice(k.w6, k.w5);
    PlusWTwice(k.w7, k.w6);
  }

  lemma WordIs(k: Key, i: nat)
    requires i >= 8
    ensures i % 8 == 0 ==> W(k, i) == PlusW(W(k, i - 8), PlusW(SubWord(RotWord(W(k, i - 1))), Word(Rcon(i / 8), 0, 0, 0)))
    ensures i % 8 == 4 ==> W(k, i) == PlusW(W(k, i - 8), SubWord(W(k, i - 1)))
    ensures i % 8 != 0 && i % 8 != 4 ==> W(k, i) == PlusW(W(k, i - 8), W(k, i - 1))
  {
    hide PlusW, SubWord, RotWord;
  }

  /** One expansion moves the window eight words on. */
  lemma WindowSteps(k: Key, n: nat)
    ensures Window(k, n + 1) == Next(Window(k, n), Rcon(n + 1))
  {
    hide PlusW, SubWord, RotWord, W, Rcon;
    WordIs(k, 8 * n + 8);
    WordIs(k, 8 * n + 9);
    WordIs(k, 8 * n + 10);
    WordIs(k, 8 * n + 11);
    WordIs(k, 8 * n + 12);
    WordIs(k, 8 * n + 13);
    WordIs(k, 8 * n + 14);
    WordIs(k, 8 * n + 15);
    assert (8 * n + 8) / 8 == n + 1;
  }

  lemma WindowStepsBack(k: Key, n: nat)
    ensures Previous(Window(k, n + 1), Rcon(n + 1)) == Window(k, n)
  {
    hide Next, Previous, Window, Rcon;
    WindowSteps(k, n);
    PreviousOfNext(Window(k, n), Rcon(n + 1));
  }

  lemma FirstWindow(k: Key)
    ensures Window(k, 0) == k
  {
    hide PlusW, SubWord;
  }

  /** The two halves of a window are the round keys 2n and 2n+1. */
  lemma Halves(k: Key, n: nat)
    ensures var w := Window(k, n);
            && RoundKey(k, 2 * n) == Block(w.w0, w.w1, w.w2, w.w3)
            && RoundKey(k, 2 * n + 1) == Block(w.w4, w.w5, w.w6, w.w7)
  {
    hide W;
  }

  // ----- the round constant -----

  /** The macro FD. */
  function Unstep(x: bv8): bv8
  {
    (x >> 1) ^ (if x & 1 != 0 then 0x8d else 0)
  }

  lemma StepBack(x: bv8)
    ensures Unstep(XTime(x)) == x && XTime(Unstep(x)) == x
  {
  }

  lemma RconIs(i: nat)
    requires i > 0
    ensures Rcon(1) == 1 && Rcon(i + 1) == XTime(Rcon(i))
  {
    hide XTime;
  }

  /** The last constant, with which decryption starts. */
  lemma RconOfEight()
    ensures Rcon(8) == 0x80
  {
    hide XTime;
    RconIs(1);
    RconIs(2);
    RconIs(3);
    RconIs(4);
    RconIs(5);
    RconIs(6);
    RconIs(7);
    Doublings();
  }

  lemma Doublings()
    ensures XTime(1) == 2 && XTime(2) == 4 && XTime(4) == 8 && XTime(8) == 0x10
    ensures XTime(0x10) == 0x20 && XTime(0x20) == 0x40 && XTime(0x40) == 0x80
  {
  }

  // ----- a window that is partly rewritten -----

  /** The first n words from s, the others from t. */
  function Mixed(s: Key, t: Key, n: nat): Key
  {
    Key(if 0 < n then s.w0 else t.w0, if 1 < n then s.w1 else t.w1,
        if 2 < n then s.w2 else t.w2, if 3 < n then s.w3 else t.w3,
        if 4 < n then s.w4 else t.w4, if 5 < n then s.w5 else t.w5,
        if 6 < n then s.w6 else t.w6, if 7 < n then s.w7 else t.w7)
  }
}
