/** The example of appendix C.3 of FIPS 197, by way of the tables: it fixes every step of the cipher
    and of the key schedule in literals. */
module Fips197Example {
  import opened Gf256
  import opened Fips197
  import opened KeyWindow
  import opened MixFast
  import opened SBoxTables

  // ----- the steps in a form that computes -----

  function TableWord(w: Word): Word
  {
    Word(Table(w.b0), Table(w.b1), Table(w.b2), Table(w.b3))
  }

  lemma SubWordIs(w: Word)
    ensures SubWord(w) == TableWord(w)
  {
    hide Table, SBox;
    SBoxIsTable(w.b0);
    SBoxIsTable(w.b1);
    SBoxIsTable(w.b2);
    SBoxIsTable(w.b3);
  }

  function TableBytes(s: Block): Block
  {
    Block(TableWord(s.c0), TableWord(s.c1), TableWord(s.c2), TableWord(s.c3))
  }

  lemma SubBytesIs(s: Block)
    ensures SubBytes(s) == TableBytes(s)
  {
    hide SubWord, TableWord;
    SubWordIs(s.c0);
    SubWordIs(s.c1);
    SubWordIs(s.c2);
    SubWordIs(s.c3);
  }

  function FastRound(s: Block, k: Block): Block
  {
    var t := ShiftRows(TableBytes(s));
    AddRoundKey(Block(FastMix(t.c0), FastMix(t.c1), FastMix(t.c2), FastMix(t.c3)), k)
  }

  lemma RoundIs(k: Key, s: Block, round: nat)
    requires round > 0
    ensures Rounds(k, s, round) == FastRound(Rounds(k, s, round - 1), RoundKey(k, round))
  {
    hide AddRoundKey, FastMix, MixColumn, ShiftRows, SubBytes, TableBytes, RoundKey;
    var u := Rounds(k, s, round - 1);
    SubBytesIs(u);
    var t := ShiftRows(TableBytes(u));
    FastMixIs(t.c0);
    FastMixIs(t.c1);
    FastMixIs(t.c2);
    FastMixIs(t.c3);
  }

  function FastNext(k: Key, rc: bv8): Key
  {
    var v0 := PlusW(k.w0, PlusW(TableWord(Word(k.w7.b1, k.w7.b2, k.w7.b3, k.w7.b0)), Word(rc, 0, 0, 0)));
    var v1 := PlusW(k.w1, v0);
    var v2 := PlusW(k.w2, v1);
    var v3 := PlusW(k.w3, v2);
    var v4 := PlusW(k.w4, TableWord(v3));
    var v5 := PlusW(k.w5, v4);
    var v6 := PlusW(k.w6, v5);
    Key(v0, v1, v2, v3, v4, v5, v6, PlusW(k.w7, v6))
  }

  lemma NextIs(k: Key, rc: bv8)
    ensures Next(k, rc) == FastNext(k, rc)
  {
    hide PlusW, SubWord, TableWord;
    SubWordIs(RotWord(k.w7));
    var v3 := PlusW(k.w3, PlusW(k.w2, PlusW(k.w1, PlusW(k.w0, PlusW(SubWord(RotWord(k.w7)), Word(rc, 0, 0, 0))))));
    SubWordIs(v3);
  }

  // ----- the table in literals -----

  lemma InRow(x: bv8)
    ensures match x >> 4
      case 0x0 => Table(x) == Row0(x)
      case 0x1 => Table(x) == Row1(x)
      case 0x2 => Table(x) == Row2(x)
      case 0x3 => Table(x) == Row3(x)
      case 0x4 => Table(x) == Row4(x)
      case 0x5 => Table(x) == Row5(x)
      case 0x6 => Table(x) == Row6(x)
      case 0x7 => Table(x) == Row7(x)
      case 0x8 => Table(x) == Row8(x)
      case 0x9 => Table(x) == Row9(x)
      case 0xa => Table(x) == RowA(x)
      case 0xb => Table(x) == RowB(x)
      case 0xc => Table(x) == RowC(x)
      case 0xd => Table(x) == RowD(x)
      case 0xe => Table(x) == RowE(x)
      case 0xf => Table(x) == RowF(x)
      case _ => true
  {
    hide Row0, Row1, Row2, Row3, Row4, Row5, Row6, Row7, Row8, Row9, RowA, RowB, RowC, RowD, RowE, RowF;
  }

  lemma Literals0()
    ensures Table(0x00) == 0x63 && Table(0x01) == 0x7c && Table(0x02) == 0x77 && Table(0x03) == 0x7b
    ensures Table(0x04) == 0xf2 && Table(0x05) == 0x6b && Table(0x06) == 0x6f && Table(0x07) == 0xc5
    ensures Table(0x08) == 0x30 && Table(0x09) == 0x01 && Table(0x0a) == 0x67 && Table(0x0b) == 0x2b
    ensures Table(0x0c) == 0xfe && Table(0x0d) == 0xd7 && Table(0x0e) == 0xab && Table(0x0f) == 0x76
  {
    hide Table;
    forall x: bv8 | x >> 4 == 0x0
      ensures Table(x) == Row0(x)
    {
      InRow(x);
    }
  }

  lemma Literals1()
    ensures Table(0x10) == 0xca && Table(0x11) == 0x82 && Table(0x12) == 0xc9 && Table(0x13) == 0x7d
    ensures Table(0x14) == 0xfa && Table(0x15) == 0x59 && Table(0x16) == 0x47 && Table(0x17) == 0xf0
    ensures Table(0x18) == 0xad && Table(0x19) == 0xd4 && Table(0x1a) == 0xa2 && Table(0x1b) == 0xaf
    ensures Table(0x1c) == 0x9c && Table(0x1d) == 0xa4 && Table(0x1e) == 0x72 && Table(0x1f) == 0xc0
  {
    hide Table;
    forall x: bv8 | x >> 4 == 0x1
      ensures Table(x) == Row1(x)
    {
      InRow(x);
    }
  }

  lemma Literals2()
    ensures Table(0x20) == 0xb7 && Table(0x21) == 0xfd && Table(0x22) == 0x93 && Table(0x23) == 0x26
    ensures Table(0x24) == 0x36 && Table(0x25) == 0x3f && Table(0x26) == 0xf7 && Table(0x27) == 0xcc
    ensures Table(0x28) == 0x34 && Table(0x29) == 0xa5 && Table(0x2a) == 0xe5 && Table(0x2b) == 0xf1
    ensures Table(0x2c) == 0x71 && Table(0x2d) == 0xd8 && Table(0x2e) == 0x31 && Table(0x2f) == 0x15
  {
    hide Table;
    forall x: bv8 | x >> 4 == 0x2
      ensures Table(x) == Row2(x)
    {
      InRow(x);
    }
  }

  lemma Literals3()
    ensures Table(0x30) == 0x04 && Table(0x31) == 0xc7 && Table(0x32) == 0x23 && Table(0x33) == 0xc3
    ensures Table(0x34) == 0x18 && Table(0x35) == 0x96 && Table(0x36) == 0x05 && Table(0x37) == 0x9a
    ensures Table(0x38) == 0x07 && Table(0x39) == 0x12 && Table(0x3a) == 0x80 && Table(0x3b) == 0xe2
    ensures Table(0x3c) == 0xeb && Table(0x3d) == 0x27 && Table(0x3e) == 0xb2 && Table(0x3f) == 0x75
  {
    hide Table;
    forall x: bv8 | x >> 4 == 0x3
      ensures Table(x) == Row3(x)
    {
      InRow(x);
    }
  }

  lemma Literals4()
    ensures Table(0x40) == 0x09 && Table(0x41) == 0x83 && Table(0x42) == 0x2c && Table(0x43) == 0x1a
    ensures Table(0x44) == 0x1b && Table(0x45) == 0x6e && Table(0x46) == 0x5a && Table(0x47) == 0xa0
    ensures Table(0x48) == 0x52 && Table(0x49) == 0x3b && Table(0x4a) == 0xd6 && Table(0x4b) == 0xb3
    ensures Table(0x4c) == 0x29 && Table(0x4d) == 0xe3 && Table(0x4e) == 0x2f && Table(0x4f) == 0x84
  {
    hide Table;
    forall x: bv8 | x >> 4 == 0x4
      ensures Table(x) == Row4(x)
    {
      InRow(x);
    }
  }

  lemma Literals5()
    ensures Table(0x50) == 0x53 && Table(0x51) == 0xd1 && Table(0x52) == 0x00 && Table(0x53) == 0xed
    ensures Table(0x54) == 0x20 && Table(0x55) == 0xfc && Table(0x56) == 0xb1 && Table(0x57) == 0x5b
    ensures Table(0x58) == 0x6a && Table(0x59) == 0xcb && Table(0x5a) == 0xbe && Table(0x5b) == 0x39
    ensures Table(0x5c) == 0x4a && Table(0x5d) == 0x4c && Table(0x5e) == 0x58 && Table(0x5f) == 0xcf
  {
    hide Table;
    forall x: bv8 | x >> 4 == 0x5
      ensures Table(x) == Row5(x)
    {
      InRow(x);
    }
  }

  lemma Literals6()
    ensures Table(0x60) == 0xd0 && Table(0x61) == 0xef && Table(0x62) == 0xaa && Table(0x63) == 0xfb
    ensures Table(0x64) == 0x43 && Table(0x65) == 0x4d && Table(0x66) == 0x33 && Table(0x67) == 0x85
    ensures Table(0x68) == 0x45 && Table(0x69) == 0xf9 && Table(0x6a) == 0x02 && Table(0x6b) == 0x7f
    ensures Table(0x6c) == 0x50 && Table(0x6d) == 0x3c && Table(0x6e) == 0x9f && Table(0x6f) == 0xa8
  {
    hide Table;
    forall x: bv8 | x >> 4 == 0x6
      ensures Table(x) == Row6(x)
    {
      InRow(x);
    }
  }

  lemma Literals7()
    ensures Table(0x70) == 0x51 && Table(0x71) == 0xa3 && Table(0x72) == 0x40 && Table(0x73) == 0x8f
    ensures Table(0x74) == 0x92 && Table(0x75) == 0x9d && Table(0x76) == 0x38 && Table(0x77) == 0xf5
    ensures Table(0x78) == 0xbc && Table(0x79) == 0xb6 && Table(0x7a) == 0xda && Table(0x7b) == 0x21
    ensures Table(0x7c) == 0x10 && Table(0x7d) == 0xff && Table(0x7e) == 0xf3 && Table(0x7f) == 0xd2
  {
    hide Table;
    forall x: bv8 | x >> 4 == 0x7
      ensures Table(x) == Row7(x)
    {
      InRow(x);
    }
  }

  lemma Literals8()
    ensures Table(0x80) == 0xcd && Table(0x81) == 0x0c && Table(0x82) == 0x13 && Table(0x83) == 0xec
    ensures Table(0x84) == 0x5f && Table(0x85) == 0x97 && Table(0x86) == 0x44 && Table(0x87) == 0x17
    ensures Table(0x88) == 0xc4 && Table(0x89) == 0xa7 && Table(0x8a) == 0x7e && Table(0x8b) == 0x3d
    ensures Table(0x8c) == 0x64 && Table(0x8d) == 0x5d && Table(0x8e) == 0x19 && Table(0x8f) == 0x73
  {
    hide Table;
    forall x: bv8 | x >> 4 == 0x8
      ensures Table(x) == Row8(x)
    {
      InRow(x);
    }
  }

  lemma Literals9()
    ensures Table(0x90) == 0x60 && Table(0x91) == 0x81 && Table(0x92) == 0x4f && Table(0x93) == 0xdc
    ensures Table(0x94) == 0x22 && Table(0x95) == 0x2a && Table(0x96) == 0x90 && Table(0x97) == 0x88
    ensures Table(0x98) == 0x46 && Table(0x99) == 0xee && Table(0x9a) == 0xb8 && Table(0x9b) == 0x14
    ensures Table(0x9c) == 0xde && Table(0x9d) == 0x5e && Table(0x9e) == 0x0b && Table(0x9f) == 0xdb
  {
    hide Table;
    forall x: bv8 | x >> 4 == 0x9
      ensures Table(x) == Row9(x)
    {
      InRow(x);
    }
  }

  lemma LiteralsA()
    ensures Table(0xa0) == 0xe0 && Table(0xa1) == 0x32 && Table(0xa2) == 0x3a && Table(0xa3) == 0x0a
    ensures Table(0xa4) == 0x49 && Table(0xa5) == 0x06 && Table(0xa6) == 0x24 && Table(0xa7) == 0x5c
    ensures Table(0xa8) == 0xc2 && Table(0xa9) == 0xd3 && Table(0xaa) == 0xac && Table(0xab) == 0x62
    ensures Table(0xac) == 0x91 && Table(0xad) == 0x95 && Table(0xae) == 0xe4 && Table(0xaf) == 0x79
  {
    hide Table;
    forall x: bv8 | x >> 4 == 0xa
      ensures Table(x) == RowA(x)
    {
      InRow(x);
    }
  }

  lemma LiteralsB()
    ensures Table(0xb0) == 0xe7 && Table(0xb1) == 0xc8 && Table(0xb2) == 0x37 && Table(0xb3) == 0x6d
    ensures Table(0xb4) == 0x8d && Table(0xb5) == 0xd5 && Table(0xb6) == 0x4e && Table(0xb7) == 0xa9
    ensures Table(0xb8) == 0x6c && Table(0xb9) == 0x56 && Table(0xba) == 0xf4 && Table(0xbb) == 0xea
    ensures Table(0xbc) == 0x65 && Table(0xbd) == 0x7a && Table(0xbe) == 0xae && Table(0xbf) == 0x08
  {
    hide Table;
    forall x: bv8 | x >> 4 == 0xb
      ensures Table(x) == RowB(x)
    {
      InRow(x);
    }
  }

  lemma LiteralsC()
    ensures Table(0xc0) == 0xba && Table(0xc1) == 0x78 && Table(0xc2) == 0x25 && Table(0xc3) == 0x2e
    ensures Table(0xc4) == 0x1c && Table(0xc5) == 0xa6 && Table(0xc6) == 0xb4 && Table(0xc7) == 0xc6
    ensures Table(0xc8) == 0xe8 && Table(0xc9) == 0xdd && Table(0xca) == 0x74 && Table(0xcb) == 0x1f
    ensures Table(0xcc) == 0x4b && Table(0xcd) == 0xbd && Table(0xce) == 0x8b && Table(0xcf) == 0x8a
  {
    hide Table;
    forall x: bv8 | x >> 4 == 0xc
      ensures Table(x) == RowC(x)
    {
      InRow(x);
    }
  }

  lemma LiteralsD()
    ensures Table(0xd0) == 0x70 && Table(0xd1) == 0x3e && Table(0xd2) == 0xb5 && Table(0xd3) == 0x66
    ensures Table(0xd4) == 0x48 && Table(0xd5) == 0x03 && Table(0xd6) == 0xf6 && Table(0xd7) == 0x0e
    ensures Table(0xd8) == 0x61 && Table(0xd9) == 0x35 && Table(0xda) == 0x57 && Table(0xdb) == 0xb9
    ensures Table(0xdc) == 0x86 && Table(0xdd) == 0xc1 && Table(0xde) == 0x1d && Table(0xdf) == 0x9e
  {
    hide Table;
    forall x: bv8 | x >> 4 == 0xd
      ensures Table(x) == RowD(x)
    {
      InRow(x);
    }
  }

  lemma LiteralsE()
    ensures Table(0xe0) == 0xe1 && Table(0xe1) == 0xf8 && Table(0xe2) == 0x98 && Table(0xe3) == 0x11
    ensures Table(0xe4) == 0x69 && Table(0xe5) == 0xd9 && Table(0xe6) == 0x8e && Table(0xe7) == 0x94
    ensures Table(0xe8) == 0x9b && Table(0xe9) == 0x1e && Table(0xea) == 0x87 && Table(0xeb) == 0xe9
    ensures Table(0xec) == 0xce && Table(0xed) == 0x55 && Table(0xee) == 0x28 && Table(0xef) == 0xdf
  {
    hide Table;
    forall x: bv8 | x >> 4 == 0xe
      ensures Table(x) == RowE(x)
    {
      InRow(x);
    }
  }

  lemma LiteralsF()
    ensures Table(0xf0) == 0x8c && Table(0xf1) == 0xa1 && Table(0xf2) == 0x89 && Table(0xf3) == 0x0d
    ensures Table(0xf4) == 0xbf && Table(0xf5) == 0xe6 && Table(0xf6) == 0x42 && Table(0xf7) == 0x68
    ensures Table(0xf8) == 0x41 && Table(0xf9) == 0x99 && Table(0xfa) == 0x2d && Table(0xfb) == 0x0f
    ensures Table(0xfc) == 0xb0 && Table(0xfd) == 0x54 && Table(0xfe) == 0xbb && Table(0xff) == 0x16
  {
    hide Table;
    forall x: bv8 | x >> 4 == 0xf
      ensures Table(x) == RowF(x)
    {
      InRow(x);
    }
  }

  lemma Literals()
    ensures Table(0x00) == 0x63 && Table(0x01) == 0x7c && Table(0x02) == 0x77 && Table(0x03) == 0x7b
    ensures Table(0x04) == 0xf2 && Table(0x05) == 0x6b && Table(0x06) == 0x6f && Table(0x07) == 0xc5
    ensures Table(0x08) == 0x30 && Table(0x09) == 0x01 && Table(0x0a) == 0x67 && Table(0x0b) == 0x2b
    ensures Table(0x0c) == 0xfe && Table(0x0d) == 0xd7 && Table(0x0e) == 0xab && Table(0x0f) == 0x76
    ensures Table(0x10) == 0xca && Table(0x11) == 0x82 && Table(0x12) == 0xc9 && Table(0x13) == 0x7d
    ensures Table(0x14) == 0xfa && Table(0x15) == 0x59 && Table(0x16) == 0x47 && Table(0x17) == 0xf0
    ensures Table(0x18) == 0xad && Table(0x19) == 0xd4 && Table(0x1a) == 0xa2 && Table(0x1b) == 0xaf
    ensures Table(0x1c) == 0x9c && Table(0x1d) == 0xa4 && Table(0x1e) == 0x72 && Table(0x1f) == 0xc0
    ensures Table(0x20) == 0xb7 && Table(0x21) == 0xfd && Table(0x22) == 0x93 && Table(0x23) == 0x26
    ensures Table(0x24) == 0x36 && Table(0x25) == 0x3f && Table(0x26) == 0xf7 && Table(0x27) == 0xcc
    ensures Table(0x28) == 0x34 && Table(0x29) == 0xa5 && Table(0x2a) == 0xe5 && Table(0x2b) == 0xf1
    ensures Table(0x2c) == 0x71 && Table(0x2d) == 0xd8 && Table(0x2e) == 0x31 && Table(0x2f) == 0x15
    ensures Table(0x30) == 0x04 && Table(0x31) == 0xc7 && Table(0x32) == 0x23 && Table(0x33) == 0xc3
    ensures Table(0x34) == 0x18 && Table(0x35) == 0x96 && Table(0x36) == 0x05 && Table(0x37) == 0x9a
    ensures Table(0x38) == 0x07 && Table(0x39) == 0x12 && Table(0x3a) == 0x80 && Table(0x3b) == 0xe2
    ensures Table(0x3c) == 0xeb && Table(0x3d) == 0x27 && Table(0x3e) == 0xb2 && Table(0x3f) == 0x75
    ensures Table(0x40) == 0x09 && Table(0x41) == 0x83 && Table(0x42) == 0x2c && Table(0x43) == 0x1a
    ensures Table(0x44) == 0x1b && Table(0x45) == 0x6e && Table(0x46) == 0x5a && Table(0x47) == 0xa0
    ensures Table(0x48) == 0x52 && Table(0x49) == 0x3b && Table(0x4a) == 0xd6 && Table(0x4b) == 0xb3
    ensures Table(0x4c) == 0x29 && Table(0x4d) == 0xe3 && Table(0x4e) == 0x2f && Table(0x4f) == 0x84
    ensures Table(0x50) == 0x53 && Table(0x51) == 0xd1 && Table(0x52) == 0x00 && Table(0x53) == 0xed
    ensures Table(0x54) == 0x20 && Table(0x55) == 0xfc && Table(0x56) == 0xb1 && Table(0x57) == 0x5b
    ensures Table(0x58) == 0x6a && Table(0x59) == 0xcb && Table(0x5a) == 0xbe && Table(0x5b) == 0x39
    ensures Table(0x5c) == 0x4a && Table(0x5d) == 0x4c && Table(0x5e) == 0x58 && Table(0x5f) == 0xcf
    ensures Table(0x60) == 0xd0 && Table(0x61) == 0xef && Table(0x62) == 0xaa && Table(0x63) == 0xfb
    ensures Table(0x64) == 0x43 && Table(0x65) == 0x4d && Table(0x66) == 0x33 && Table(0x67) == 0x85
    ensures Table(0x68) == 0x45 && Table(0x69) == 0xf9 && Table(0x6a) == 0x02 && Table(0x6b) == 0x7f
    ensures Table(0x6c) == 0x50 && Table(0x6d) == 0x3c && Table(0x6e) == 0x9f && Table(0x6f) == 0xa8
    ensures Table(0x70) == 0x51 && Table(0x71) == 0xa3 && Table(0x72) == 0x40 && Table(0x73) == 0x8f
    ensures Table(0x74) == 0x92 && Table(0x75) == 0x9d && Table(0x76) == 0x38 && Table(0x77) == 0xf5
    ensures Table(0x78) == 0xbc && Table(0x79) == 0xb6 && Table(0x7a) == 0xda && Table(0x7b) == 0x21
    ensures Table(0x7c) == 0x10 && Table(0x7d) == 0xff && Table(0x7e) == 0xf3 && Table(0x7f) == 0xd2
    ensures Table(0x80) == 0xcd && Table(0x81) == 0x0c && Table(0x82) == 0x13 && Table(0x83) == 0xec
    ensures Table(0x84) == 0x5f && Table(0x85) == 0x97 && Table(0x86) == 0x44 && Table(0x87) == 0x17
    ensures Table(0x88) == 0xc4 && Table(0x89) == 0xa7 && Table(0x8a) == 0x7e && Table(0x8b) == 0x3d
    ensures Table(0x8c) == 0x64 && Table(0x8d) == 0x5d && Table(0x8e) == 0x19 && Table(0x8f) == 0x73
    ensures Table(0x90) == 0x60 && Table(0x91) == 0x81 && Table(0x92) == 0x4f && Table(0x93) == 0xdc
    ensures Table(0x94) == 0x22 && Table(0x95) == 0x2a && Table(0x96) == 0x90 && Table(0x97) == 0x88
    ensures Table(0x98) == 0x46 && Table(0x99) == 0xee && Table(0x9a) == 0xb8 && Table(0x9b) == 0x14
    ensures Table(0x9c) == 0xde && Table(0x9d) == 0x5e && Table(0x9e) == 0x0b && Table(0x9f) == 0xdb
    ensures Table(0xa0) == 0xe0 && Table(0xa1) == 0x32 && Table(0xa2) == 0x3a && Table(0xa3) == 0x0a
    ensures Table(0xa4) == 0x49 && Table(0xa5) == 0x06 && Table(0xa6) == 0x24 && Table(0xa7) == 0x5c
    ensures Table(0xa8) == 0xc2 && Table(0xa9) == 0xd3 && Table(0xaa) == 0xac && Table(0xab) == 0x62
    ensures Table(0xac) == 0x91 && Table(0xad) == 0x95 && Table(0xae) == 0xe4 && Table(0xaf) == 0x79
    ensures Table(0xb0) == 0xe7 && Table(0xb1) == 0xc8 && Table(0xb2) == 0x37 && Table(0xb3) == 0x6d
    ensures Table(0xb4) == 0x8d && Table(0xb5) == 0xd5 && Table(0xb6) == 0x4e && Table(0xb7) == 0xa9
    ensures Table(0xb8) == 0x6c && Table(0xb9) == 0x56 && Table(0xba) == 0xf4 && Table(0xbb) == 0xea
    ensures Table(0xbc) == 0x65 && Table(0xbd) == 0x7a && Table(0xbe) == 0xae && Table(0xbf) == 0x08
    ensures Table(0xc0) == 0xba && Table(0xc1) == 0x78 && Table(0xc2) == 0x25 && Table(0xc3) == 0x2e
    ensures Table(0xc4) == 0x1c && Table(0xc5) == 0xa6 && Table(0xc6) == 0xb4 && Table(0xc7) == 0xc6
    ensures Table(0xc8) == 0xe8 && Table(0xc9) == 0xdd && Table(0xca) == 0x74 && Table(0xcb) == 0x1f
    ensures Table(0xcc) == 0x4b && Table(0xcd) == 0xbd && Table(0xce) == 0x8b && Table(0xcf) == 0x8a
    ensures Table(0xd0) == 0x70 && Table(0xd1) == 0x3e && Table(0xd2) == 0xb5 && Table(0xd3) == 0x66
    ensures Table(0xd4) == 0x48 && Table(0xd5) == 0x03 && Table(0xd6) == 0xf6 && Table(0xd7) == 0x0e
    ensures Table(0xd8) == 0x61 && Table(0xd9) == 0x35 && Table(0xda) == 0x57 && Table(0xdb) == 0xb9
    ensures Table(0xdc) == 0x86 && Table(0xdd) == 0xc1 && Table(0xde) == 0x1d && Table(0xdf) == 0x9e
    ensures Table(0xe0) == 0xe1 && Table(0xe1) == 0xf8 && Table(0xe2) == 0x98 && Table(0xe3) == 0x11
    ensures Table(0xe4) == 0x69 && Table(0xe5) == 0xd9 && Table(0xe6) == 0x8e && Table(0xe7) == 0x94
    ensures Table(0xe8) == 0x9b && Table(0xe9) == 0x1e && Table(0xea) == 0x87 && Table(0xeb) == 0xe9
    ensures Table(0xec) == 0xce && Table(0xed) == 0x55 && Table(0xee) == 0x28 && Table(0xef) == 0xdf
    ensures Table(0xf0) == 0x8c && Table(0xf1) == 0xa1 && Table(0xf2) == 0x89 && Table(0xf3) == 0x0d
    ensures Table(0xf4) == 0xbf && Table(0xf5) == 0xe6 && Table(0xf6) == 0x42 && Table(0xf7) == 0x68
    ensures Table(0xf8) == 0x41 && Table(0xf9) == 0x99 && Table(0xfa) == 0x2d && Table(0xfb) == 0x0f
    ensures Table(0xfc) == 0xb0 && Table(0xfd) == 0x54 && Table(0xfe) == 0xbb && Table(0xff) == 0x16
  {
    hide Table;
    Literals0();
    Literals1();
    Literals2();
    Literals3();
    Literals4();
    Literals5();
    Literals6();
    Literals7();
    Literals8();
    Literals9();
    LiteralsA();
    LiteralsB();
    LiteralsC();
    LiteralsD();
    LiteralsE();
    LiteralsF();
  }

  // ----- the key schedule of the key 00 01 .. 1f -----

  const KEY0 := Key(Word(0x00, 0x01, 0x02, 0x03), Word(0x04, 0x05, 0x06, 0x07),
                    Word(0x08, 0x09, 0x0a, 0x0b), Word(0x0c, 0x0d, 0x0e, 0x0f),
                    Word(0x10, 0x11, 0x12, 0x13), Word(0x14, 0x15, 0x16, 0x17),
                    Word(0x18, 0x19, 0x1a, 0x1b), Word(0x1c, 0x1d, 0x1e, 0x1f))

  const KEY1 := Key(Word(0xa5, 0x73, 0xc2, 0x9f), Word(0xa1, 0x76, 0xc4, 0x98),
                    Word(0xa9, 0x7f, 0xce, 0x93), Word(0xa5, 0x72, 0xc0, 0x9c),
                    Word(0x16, 0x51, 0xa8, 0xcd), Word(0x02, 0x44, 0xbe, 0xda),
                    Word(0x1a, 0x5d, 0xa4, 0xc1), Word(0x06, 0x40, 0xba, 0xde))

  const KEY2 := Key(Word(0xae, 0x87, 0xdf, 0xf0), Word(0x0f, 0xf1, 0x1b, 0x68),
                    Word(0xa6, 0x8e, 0xd5, 0xfb), Word(0x03, 0xfc, 0x15, 0x67),
                    Word(0x6d, 0xe1, 0xf1, 0x48), Word(0x6f, 0xa5, 0x4f, 0x92),
                    Word(0x75, 0xf8, 0xeb, 0x53), Word(0x73, 0xb8, 0x51, 0x8d))

  const KEY3 := Key(Word(0xc6, 0x56, 0x82, 0x7f), Word(0xc9, 0xa7, 0x99, 0x17),
                    Word(0x6f, 0x29, 0x4c, 0xec), Word(0x6c, 0xd5, 0x59, 0x8b),
                    Word(0x3d, 0xe2, 0x3a, 0x75), Word(0x52, 0x47, 0x75, 0xe7),
                    Word(0x27, 0xbf, 0x9e, 0xb4), Word(0x54, 0x07, 0xcf, 0x39))

  const KEY4 := Key(Word(0x0b, 0xdc, 0x90, 0x5f), Word(0xc2, 0x7b, 0x09, 0x48),
                    Word(0xad, 0x52, 0x45, 0xa4), Word(0xc1, 0x87, 0x1c, 0x2f),
                    Word(0x45, 0xf5, 0xa6, 0x60), Word(0x17, 0xb2, 0xd3, 0x87),
                    Word(0x30, 0x0d, 0x4d, 0x33), Word(0x64, 0x0a, 0x82, 0x0a))

  const KEY5 := Key(Word(0x7c, 0xcf, 0xf7, 0x1c), Word(0xbe, 0xb4, 0xfe, 0x54),
                    Word(0x13, 0xe6, 0xbb, 0xf0), Word(0xd2, 0x61, 0xa7, 0xdf),
                    Word(0xf0, 0x1a, 0xfa, 0xfe), Word(0xe7, 0xa8, 0x29, 0x79),
                    Word(0xd7, 0xa5, 0x64, 0x4a), Word(0xb3, 0xaf, 0xe6, 0x40))

  const KEY6 := Key(Word(0x25, 0x41, 0xfe, 0x71), Word(0x9b, 0xf5, 0x00, 0x25),
                    Word(0x88, 0x13, 0xbb, 0xd5), Word(0x5a, 0x72, 0x1c, 0x0a),
                    Word(0x4e, 0x5a, 0x66, 0x99), Word(0xa9, 0xf2, 0x4f, 0xe0),
                    Word(0x7e, 0x57, 0x2b, 0xaa), Word(0xcd, 0xf8, 0xcd, 0xea))

  const KEY7 := Key(Word(0x24, 0xfc, 0x79, 0xcc), Word(0xbf, 0x09, 0x79, 0xe9),
                    Word(0x37, 0x1a, 0xc2, 0x3c), Word(0x6d, 0x68, 0xde, 0x36),
                    Word(0x72, 0x1f, 0x7b, 0x9c), Word(0xdb, 0xed, 0x34, 0x7c),
                    Word(0xa5, 0xba, 0x1f, 0xd6), Word(0x68, 0x42, 0xd2, 0x3c))

  lemma Compute1()
    ensures FastNext(KEY0, 0x01) == KEY1
  {
    hide Table;
    Literals();
  }

  lemma Compute2()
    ensures FastNext(KEY1, 0x02) == KEY2
  {
    hide Table;
    Literals();
  }

  lemma Compute3()
    ensures FastNext(KEY2, 0x04) == KEY3
  {
    hide Table;
    Literals();
  }

  lemma Compute4()
    ensures FastNext(KEY3, 0x08) == KEY4
  {
    hide Table;
    Literals();
  }

  lemma Compute5()
    ensures FastNext(KEY4, 0x10) == KEY5
  {
    hide Table;
    Literals();
  }

  lemma Compute6()
    ensures FastNext(KEY5, 0x20) == KEY6
  {
    hide Table;
    Literals();
  }

  lemma Compute7()
    ensures FastNext(KEY6, 0x40) == KEY7
  {
    hide Table;
    Literals();
  }

  lemma Schedule0()
    ensures Window(KEY0, 0) == KEY0 && Rcon(1) == 0x01
  {
    hide Window, XTime;
    FirstWindow(KEY0);
    RconIs(1);
  }

  lemma Schedule1()
    ensures Window(KEY0, 1) == KEY1 && Rcon(2) == 0x02
  {
    hide Window, Next, FastNext, XTime, Rcon;
    Schedule0();
    WindowSteps(KEY0, 0);
    NextIs(KEY0, 0x01);
    Compute1();
    RconIs(1);
    Doublings();
  }

  lemma Schedule2()
    ensures Window(KEY0, 2) == KEY2 && Rcon(3) == 0x04
  {
    hide Window, Next, FastNext, XTime, Rcon;
    Schedule1();
    WindowSteps(KEY0, 1);
    NextIs(KEY1, 0x02);
    Compute2();
    RconIs(2);
    Doublings();
  }

  lemma Schedule3()
    ensures Window(KEY0, 3) == KEY3 && Rcon(4) == 0x08
  {
    hide Window, Next, FastNext, XTime, Rcon;
    Schedule2();
    WindowSteps(KEY0, 2);
    NextIs(KEY2, 0x04);
    Compute3();
    RconIs(3);
    Doublings();
  }

  lemma Schedule4()
    ensures Window(KEY0, 4) == KEY4 && Rcon(5) == 0x10
  {
    hide Window, Next, FastNext, XTime, Rcon;
    Schedule3();
    WindowSteps(KEY0, 3);
    NextIs(KEY3, 0x08);
    Compute4();
    RconIs(4);
    Doublings();
  }

  lemma Schedule5()
    ensures Window(KEY0, 5) == KEY5 && Rcon(6) == 0x20
  {
    hide Window, Next, FastNext, XTime, Rcon;
    Schedule4();
    WindowSteps(KEY0, 4);
    NextIs(KEY4, 0x10);
    Compute5();
    RconIs(5);
    Doublings();
  }

  lemma Schedule6()
    ensures Window(KEY0, 6) == KEY6 && Rcon(7) == 0x40
  {
    hide Window, Next, FastNext, XTime, Rcon;
    Schedule5();
    WindowSteps(KEY0, 5);
    NextIs(KEY5, 0x20);
    Compute6();
    RconIs(6);
    Doublings();
  }

  lemma Schedule7()
    ensures Window(KEY0, 7) == KEY7 && Rcon(8) == 0x80
  {
    hide Window, Next, FastNext, XTime, Rcon;
    Schedule6();
    WindowSteps(KEY0, 6);
    NextIs(KEY6, 0x40);
    Compute7();
    RconIs(7);
    Doublings();
  }

  /** The first words after the key, and the last of the schedule. */
  lemma ScheduleWords()
    ensures W(KEY0, 8) == Word(0xa5, 0x73, 0xc2, 0x9f) && W(KEY0, 9) == Word(0xa1, 0x76, 0xc4, 0x98)
    ensures W(KEY0, 12) == Word(0x16, 0x51, 0xa8, 0xcd) && W(KEY0, 59) == Word(0x6d, 0x68, 0xde, 0x36)
  {
    hide W;
    Schedule1();
    Schedule7();
  }

  // ----- the rounds of the block 00 11 .. ff -----

  const PLAIN := Block(Word(0x00, 0x11, 0x22, 0x33), Word(0x44, 0x55, 0x66, 0x77),
                       Word(0x88, 0x99, 0xaa, 0xbb), Word(0xcc, 0xdd, 0xee, 0xff))

  const STATE0 := Block(Word(0x00, 0x10, 0x20, 0x30), Word(0x40, 0x50, 0x60, 0x70),
                        Word(0x80, 0x90, 0xa0, 0xb0), Word(0xc0, 0xd0, 0xe0, 0xf0))

  const STATE1 := Block(Word(0x4f, 0x63, 0x76, 0x06), Word(0x43, 0xe0, 0xaa, 0x85),
                        Word(0xef, 0xa7, 0x21, 0x32), Word(0x01, 0xa4, 0xe7, 0x05))

  const STATE2 := Block(Word(0x18, 0x59, 0xfb, 0xc2), Word(0x8a, 0x1c, 0x00, 0xa0),
                        Word(0x78, 0xed, 0x8a, 0xad), Word(0xc4, 0x2f, 0x61, 0x09))

  const STATE3 := Block(Word(0x97, 0x5c, 0x66, 0xc1), Word(0xcb, 0x9f, 0x3f, 0xa8),
                        Word(0xa9, 0x3a, 0x28, 0xdf), Word(0x8e, 0xe1, 0x0f, 0x63))

  const STATE4 := Block(Word(0x1c, 0x05, 0xf2, 0x71), Word(0xa4, 0x17, 0xe0, 0x4f),
                        Word(0xf9, 0x21, 0xc5, 0xc1), Word(0x04, 0x70, 0x15, 0x54))

  const STATE5 := Block(Word(0xc3, 0x57, 0xaa, 0xe1), Word(0x1b, 0x45, 0xb7, 0xb0),
                        Word(0xa2, 0xc7, 0xbd, 0x28), Word(0xa8, 0xdc, 0x99, 0xfa))

  const STATE6 := Block(Word(0x7f, 0x07, 0x41, 0x43), Word(0xcb, 0x4e, 0x24, 0x3e),
                        Word(0xc1, 0x0c, 0x81, 0x5d), Word(0x83, 0x75, 0xd5, 0x4c))

  const STATE7 := Block(Word(0xd6, 0x53, 0xa4, 0x69), Word(0x6c, 0xa0, 0xbc, 0x0f),
                        Word(0x5a, 0xca, 0xab, 0x5d), Word(0xb9, 0x6c, 0x5e, 0x7d))

  const STATE8 := Block(Word(0x5a, 0xa8, 0x58, 0x39), Word(0x5f, 0xd2, 0x8d, 0x7d),
                        Word(0x05, 0xe1, 0xa3, 0x88), Word(0x68, 0xf3, 0xb9, 0xc5))

  const STATE9 := Block(Word(0x4a, 0x82, 0x48, 0x51), Word(0xc5, 0x7e, 0x7e, 0x47),
                        Word(0x64, 0x3d, 0xe5, 0x0c), Word(0x2a, 0xf3, 0xe8, 0xc9))

  const STATE10 := Block(Word(0xc1, 0x49, 0x07, 0xf6), Word(0xca, 0x3b, 0x3a, 0xa0),
                         Word(0x70, 0xe9, 0xaa, 0x31), Word(0x3b, 0x52, 0xb5, 0xec))

  const STATE11 := Block(Word(0x5f, 0x9c, 0x6a, 0xbf), Word(0xba, 0xc6, 0x34, 0xaa),
                         Word(0x50, 0x40, 0x9f, 0xa7), Word(0x66, 0x67, 0x76, 0x53))

  const STATE12 := Block(Word(0x51, 0x66, 0x04, 0x95), Word(0x43, 0x53, 0x95, 0x03),
                         Word(0x14, 0xfb, 0x86, 0xe4), Word(0x01, 0x92, 0x25, 0x21))

  const STATE13 := Block(Word(0x62, 0x7b, 0xce, 0xb9), Word(0x99, 0x9d, 0x5a, 0xaa),
                         Word(0xc9, 0x45, 0xec, 0xf4), Word(0x23, 0xf5, 0x6d, 0xa5))

  const RESULT := Block(Word(0x8e, 0xa2, 0xb7, 0xca), Word(0x51, 0x67, 0x45, 0xbf),
                        Word(0xea, 0xfc, 0x49, 0x90), Word(0x4b, 0x49, 0x60, 0x89))

  function Left(k: Key): Block
  {
    Block(k.w0, k.w1, k.w2, k.w3)
  }

  function Right(k: Key): Block
  {
    Block(k.w4, k.w5, k.w6, k.w7)
  }

  lemma ComputeRound1()
    ensures FastRound(STATE0, Right(KEY0)) == STATE1
  {
    hide Table;
    Literals();
  }

  lemma ComputeRound2()
    ensures FastRound(STATE1, Left(KEY1)) == STATE2
  {
    hide Table;
    Literals();
  }

  lemma ComputeRound3()
    ensures FastRound(STATE2, Right(KEY1)) == STATE3
  {
    hide Table;
    Literals();
  }

  lemma ComputeRound4()
    ensures FastRound(STATE3, Left(KEY2)) == STATE4
  {
    hide Table;
    Literals();
  }

  lemma ComputeRound5()
    ensures FastRound(STATE4, Right(KEY2)) == STATE5
  {
    hide Table;
    Literals();
  }

  lemma ComputeRound6()
    ensures FastRound(STATE5, Left(KEY3)) == STATE6
  {
    hide Table;
    Literals();
  }

  lemma ComputeRound7()
    ensures FastRound(STATE6, Right(KEY3)) == STATE7
  {
    hide Table;
    Literals();
  }

  lemma ComputeRound8()
    ensures FastRound(STATE7, Left(KEY4)) == STATE8
  {
    hide Table;
    Literals();
  }

  lemma ComputeRound9()
    ensures FastRound(STATE8, Right(KEY4)) == STATE9
  {
    hide Table;
    Literals();
  }

  lemma ComputeRound10()
    ensures FastRound(STATE9, Left(KEY5)) == STATE10
  {
    hide Table;
    Literals();
  }

  lemma ComputeRound11()
    ensures FastRound(STATE10, Right(KEY5)) == STATE11
  {
    hide Table;
    Literals();
  }

  lemma ComputeRound12()
    ensures FastRound(STATE11, Left(KEY6)) == STATE12
  {
    hide Table;
    Literals();
  }

  lemma ComputeRound13()
    ensures FastRound(STATE12, Right(KEY6)) == STATE13
  {
    hide Table;
    Literals();
  }

  lemma Round0()
    ensures Rounds(KEY0, PLAIN, 0) == STATE0
  {
    hide Window, RoundKey;
    Schedule0();
    Halves(KEY0, 0);
  }

  lemma Round1()
    ensures Rounds(KEY0, PLAIN, 1) == STATE1
  {
    hide Window, RoundKey, FastRound, Rounds;
    Round0();
    Schedule0();
    Halves(KEY0, 0);
    RoundIs(KEY0, PLAIN, 1);
    ComputeRound1();
  }

  lemma Round2()
    ensures Rounds(KEY0, PLAIN, 2) == STATE2
  {
    hide Window, RoundKey, FastRound, Rounds;
    Round1();
    Schedule1();
    Halves(KEY0, 1);
    RoundIs(KEY0, PLAIN, 2);
    ComputeRound2();
  }

  lemma Round3()
    ensures Rounds(KEY0, PLAIN, 3) == STATE3
  {
    hide Window, RoundKey, FastRound, Rounds;
    Round2();
    Schedule1();
    Halves(KEY0, 1);
    RoundIs(KEY0, PLAIN, 3);
    ComputeRound3();
  }

  lemma Round4()
    ensures Rounds(KEY0, PLAIN, 4) == STATE4
  {
    hide Window, RoundKey, FastRound, Rounds;
    Round3();
    Schedule2();
    Halves(KEY0, 2);
    RoundIs(KEY0, PLAIN, 4);
    ComputeRound4();
  }

  lemma Round5()
    ensures Rounds(KEY0, PLAIN, 5) == STATE5
  {
    hide Window, RoundKey, FastRound, Rounds;
    Round4();
    Schedule2();
    Halves(KEY0, 2);
    RoundIs(KEY0, PLAIN, 5);
    ComputeRound5();
  }

  lemma Round6()
    ensures Rounds(KEY0, PLAIN, 6) == STATE6
  {
    hide Window, RoundKey, FastRound, Rounds;
    Round5();
    Schedule3();
    Halves(KEY0, 3);
    RoundIs(KEY0, PLAIN, 6);
    ComputeRound6();
  }

  lemma Round7()
    ensures Rounds(KEY0, PLAIN, 7) == STATE7
  {
    hide Window, RoundKey, FastRound, Rounds;
    Round6();
    Schedule3();
    Halves(KEY0, 3);
    RoundIs(KEY0, PLAIN, 7);
    ComputeRound7();
  }

  lemma Round8()
    ensures Rounds(KEY0, PLAIN, 8) == STATE8
  {
    hide Window, RoundKey, FastRound, Rounds;
    Round7();
    Schedule4();
    Halves(KEY0, 4);
    RoundIs(KEY0, PLAIN, 8);
    ComputeRound8();
  }

  lemma Round9()
    ensures Rounds(KEY0, PLAIN, 9) == STATE9
  {
    hide Window, RoundKey, FastRound, Rounds;
    Round8();
    Schedule4();
    Halves(KEY0, 4);
    RoundIs(KEY0, PLAIN, 9);
    ComputeRound9();
  }

  lemma Round10()
    ensures Rounds(KEY0, PLAIN, 10) == STATE10
  {
    hide Window, RoundKey, FastRound, Rounds;
    Round9();
    Schedule5();
    Halves(KEY0, 5);
    RoundIs(KEY0, PLAIN, 10);
    ComputeRound10();
  }

  lemma Round11()
    ensures Rounds(KEY0, PLAIN, 11) == STATE11
  {
    hide Window, RoundKey, FastRound, Rounds;
    Round10();
    Schedule5();
    Halves(KEY0, 5);
    RoundIs(KEY0, PLAIN, 11);
    ComputeRound11();
  }

  lemma Round12()
    ensures Rounds(KEY0, PLAIN, 12) == STATE12
  {
    hide Window, RoundKey, FastRound, Rounds;
    Round11();
    Schedule6();
    Halves(KEY0, 6);
    RoundIs(KEY0, PLAIN, 12);
    ComputeRound12();
  }

  lemma Round13()
    ensures Rounds(KEY0, PLAIN, 13) == STATE13
  {
    hide Window, RoundKey, FastRound, Rounds;
    Round12();
    Schedule6();
    Halves(KEY0, 6);
    RoundIs(KEY0, PLAIN, 13);
    ComputeRound13();
  }

  lemma ComputeLast()
    ensures AddRoundKey(ShiftRows(TableBytes(STATE13)), Left(KEY7)) == RESULT
  {
    hide Table;
    Literals();
  }

  /** The answer of appendix C.3. */
  lemma Example()
    ensures Cipher(KEY0, PLAIN) == RESULT
  {
    hide Window, RoundKey, Rounds, AddRoundKey, ShiftRows, SubBytes, TableBytes;
    Round13();
    Schedule7();
    Halves(KEY0, 7);
    SubBytesIs(STATE13);
    ComputeLast();
  }
}
