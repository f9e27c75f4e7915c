/** The S-boxes as tables, beside the ones that are computed. */
module SBoxTables {
  import opened Gf256
  import opened Fips197
  import opened CipherFacts

  // ----- the table sbox, sixteen bytes a row -----

  function Row0(x: bv8): bv8
  {
    match x
    case 0x00 => 0x63 case 0x01 => 0x7c case 0x02 => 0x77 case 0x03 => 0x7b
    case 0x04 => 0xf2 case 0x05 => 0x6b case 0x06 => 0x6f case 0x07 => 0xc5
    case 0x08 => 0x30 case 0x09 => 0x01 case 0x0a => 0x67 case 0x0b => 0x2b
    case 0x0c => 0xfe case 0x0d => 0xd7 case 0x0e => 0xab case 0x0f => 0x76
    case _ => 0x00
  }

  function Row1(x: bv8): bv8
  {
    match x
    case 0x10 => 0xca case 0x11 => 0x82 case 0x12 => 0xc9 case 0x13 => 0x7d
    case 0x14 => 0xfa case 0x15 => 0x59 case 0x16 => 0x47 case 0x17 => 0xf0
    case 0x18 => 0xad case 0x19 => 0xd4 case 0x1a => 0xa2 case 0x1b => 0xaf
    case 0x1c => 0x9c case 0x1d => 0xa4 case 0x1e => 0x72 case 0x1f => 0xc0
    case _ => 0x00
  }

  function Row2(x: bv8): bv8
  {
    match x
    case 0x20 => 0xb7 case 0x21 => 0xfd case 0x22 => 0x93 case 0x23 => 0x26
    case 0x24 => 0x36 case 0x25 => 0x3f case 0x26 => 0xf7 case 0x27 => 0xcc
    case 0x28 => 0x34 case 0x29 => 0xa5 case 0x2a => 0xe5 case 0x2b => 0xf1
    case 0x2c => 0x71 case 0x2d => 0xd8 case 0x2e => 0x31 case 0x2f => 0x15
    case _ => 0x00
  }

  function Row3(x: bv8): bv8
  {
    match x
    case 0x30 => 0x04 case 0x31 => 0xc7 case 0x32 => 0x23 case 0x33 => 0xc3
    case 0x34 => 0x18 case 0x35 => 0x96 case 0x36 => 0x05 case 0x37 => 0x9a
    case 0x38 => 0x07 case 0x39 => 0x12 case 0x3a => 0x80 case 0x3b => 0xe2
    case 0x3c => 0xeb case 0x3d => 0x27 case 0x3e => 0xb2 case 0x3f => 0x75
    case _ => 0x00
  }

  function Row4(x: bv8): bv8
  {
    match x
    case 0x40 => 0x09 case 0x41 => 0x83 case 0x42 => 0x2c case 0x43 => 0x1a
    case 0x44 => 0x1b case 0x45 => 0x6e case 0x46 => 0x5a case 0x47 => 0xa0
    case 0x48 => 0x52 case 0x49 => 0x3b case 0x4a => 0xd6 case 0x4b => 0xb3
    case 0x4c => 0x29 case 0x4d => 0xe3 case 0x4e => 0x2f case 0x4f => 0x84
    case _ => 0x00
  }

  function Row5(x: bv8): bv8
  {
    match x
    case 0x50 => 0x53 case 0x51 => 0xd1 case 0x52 => 0x00 case 0x53 => 0xed
    case 0x54 => 0x20 case 0x55 => 0xfc case 0x56 => 0xb1 case 0x57 => 0x5b
    case 0x58 => 0x6a case 0x59 => 0xcb case 0x5a => 0xbe case 0x5b => 0x39
    case 0x5c => 0x4a case 0x5d => 0x4c case 0x5e => 0x58 case 0x5f => 0xcf
    case _ => 0x00
  }

  function Row6(x: bv8): bv8
  {
    match x
    case 0x60 => 0xd0 case 0x61 => 0xef case 0x62 => 0xaa case 0x63 => 0xfb
    case 0x64 => 0x43 case 0x65 => 0x4d case 0x66 => 0x33 case 0x67 => 0x85
    case 0x68 => 0x45 case 0x69 => 0xf9 case 0x6a => 0x02 case 0x6b => 0x7f
    case 0x6c => 0x50 case 0x6d => 0x3c case 0x6e => 0x9f case 0x6f => 0xa8
    case _ => 0x00
  }

  function Row7(x: bv8): bv8
  {
    match x
    case 0x70 => 0x51 case 0x71 => 0xa3 case 0x72 => 0x40 case 0x73 => 0x8f
    case 0x74 => 0x92 case 0x75 => 0x9d case 0x76 => 0x38 case 0x77 => 0xf5
    case 0x78 => 0xbc case 0x79 => 0xb6 case 0x7a => 0xda case 0x7b => 0x21
    case 0x7c => 0x10 case 0x7d => 0xff case 0x7e => 0xf3 case 0x7f => 0xd2
    case _ => 0x00
  }

  function Row8(x: bv8): bv8
  {
    match x
    case 0x80 => 0xcd case 0x81 => 0x0c case 0x82 => 0x13 case 0x83 => 0xec
    case 0x84 => 0x5f case 0x85 => 0x97 case 0x86 => 0x44 case 0x87 => 0x17
    case 0x88 => 0xc4 case 0x89 => 0xa7 case 0x8a => 0x7e case 0x8b => 0x3d
    case 0x8c => 0x64 case 0x8d => 0x5d case 0x8e => 0x19 case 0x8f => 0x73
    case _ => 0x00
  }

  function Row9(x: bv8): bv8
  {
    match x
    case 0x90 => 0x60 case 0x91 => 0x81 case 0x92 => 0x4f case 0x93 => 0xdc
    case 0x94 => 0x22 case 0x95 => 0x2a case 0x96 => 0x90 case 0x97 => 0x88
    case 0x98 => 0x46 case 0x99 => 0xee case 0x9a => 0xb8 case 0x9b => 0x14
    case 0x9c => 0xde case 0x9d => 0x5e case 0x9e => 0x0b case 0x9f => 0xdb
    case _ => 0x00
  }

  function RowA(x: bv8): bv8
  {
    match x
    case 0xa0 => 0xe0 case 0xa1 => 0x32 case 0xa2 => 0x3a case 0xa3 => 0x0a
    case 0xa4 => 0x49 case 0xa5 => 0x06 case 0xa6 => 0x24 case 0xa7 => 0x5c
    case 0xa8 => 0xc2 case 0xa9 => 0xd3 case 0xaa => 0xac case 0xab => 0x62
    case 0xac => 0x91 case 0xad => 0x95 case 0xae => 0xe4 case 0xaf => 0x79
    case _ => 0x00
  }

  function RowB(x: bv8): bv8
  {
    match x
    case 0xb0 => 0xe7 case 0xb1 => 0xc8 case 0xb2 => 0x37 case 0xb3 => 0x6d
    case 0xb4 => 0x8d case 0xb5 => 0xd5 case 0xb6 => 0x4e case 0xb7 => 0xa9
    case 0xb8 => 0x6c case 0xb9 => 0x56 case 0xba => 0xf4 case 0xbb => 0xea
    case 0xbc => 0x65 case 0xbd => 0x7a case 0xbe => 0xae case 0xbf => 0x08
    case _ => 0x00
  }

  function RowC(x: bv8): bv8
  {
    match x
    case 0xc0 => 0xba case 0xc1 => 0x78 case 0xc2 => 0x25 case 0xc3 => 0x2e
    case 0xc4 => 0x1c case 0xc5 => 0xa6 case 0xc6 => 0xb4 case 0xc7 => 0xc6
    case 0xc8 => 0xe8 case 0xc9 => 0xdd case 0xca => 0x74 case 0xcb => 0x1f
    case 0xcc => 0x4b case 0xcd => 0xbd case 0xce => 0x8b case 0xcf => 0x8a
    case _ => 0x00
  }

  function RowD(x: bv8): bv8
  {
    match x
    case 0xd0 => 0x70 case 0xd1 => 0x3e case 0xd2 => 0xb5 case 0xd3 => 0x66
    case 0xd4 => 0x48 case 0xd5 => 0x03 case 0xd6 => 0xf6 case 0xd7 => 0x0e
    case 0xd8 => 0x61 case 0xd9 => 0x35 case 0xda => 0x57 case 0xdb => 0xb9
    case 0xdc => 0x86 case 0xdd => 0xc1 case 0xde => 0x1d case 0xdf => 0x9e
    case _ => 0x00
  }

  function RowE(x: bv8): bv8
  {
    match x
    case 0xe0 => 0xe1 case 0xe1 => 0xf8 case 0xe2 => 0x98 case 0xe3 => 0x11
    case 0xe4 => 0x69 case 0xe5 => 0xd9 case 0xe6 => 0x8e case 0xe7 => 0x94
    case 0xe8 => 0x9b case 0xe9 => 0x1e case 0xea => 0x87 case 0xeb => 0xe9
    case 0xec => 0xce case 0xed => 0x55 case 0xee => 0x28 case 0xef => 0xdf
    case _ => 0x00
  }

  function RowF(x: bv8): bv8
  {
    match x
    case 0xf0 => 0x8c case 0xf1 => 0xa1 case 0xf2 => 0x89 case 0xf3 => 0x0d
    case 0xf4 => 0xbf case 0xf5 => 0xe6 case 0xf6 => 0x42 case 0xf7 => 0x68
    case 0xf8 => 0x41 case 0xf9 => 0x99 case 0xfa => 0x2d case 0xfb => 0x0f
    case 0xfc => 0xb0 case 0xfd => 0x54 case 0xfe => 0xbb case 0xff => 0x16
    case _ => 0x00
  }

  function Table(x: bv8): bv8
  {
    match x >> 4
    case 0x0 => Row0(x) case 0x1 => Row1(x) case 0x2 => Row2(x) case 0x3 => Row3(x)
    case 0x4 => Row4(x) case 0x5 => Row5(x) case 0x6 => Row6(x) case 0x7 => Row7(x)
    case 0x8 => Row8(x) case 0x9 => Row9(x) case 0xa => RowA(x) case 0xb => RowB(x)
    case 0xc => RowC(x) case 0xd => RowD(x) case 0xe => RowE(x) case 0xf => RowF(x)
    case _ => 0x00
  }

  lemma Row0Is(x: bv8)
    requires x >> 4 == 0x0 && x != 0
    ensures Mul(x, InvAffine(Row0(x))) == 1
  {
    hide Mul, MulBits;
    MulUnrolled(x, InvAffine(Row0(x)));
  }

  lemma Row1Is(x: bv8)
    requires x >> 4 == 0x1
    ensures Mul(x, InvAffine(Row1(x))) == 1
  {
    hide Mul, MulBits;
    MulUnrolled(x, InvAffine(Row1(x)));
  }

  lemma Row2Is(x: bv8)
    requires x >> 4 == 0x2
    ensures Mul(x, InvAffine(Row2(x))) == 1
  {
    hide Mul, MulBits;
    MulUnrolled(x, InvAffine(Row2(x)));
  }

  lemma Row3Is(x: bv8)
    requires x >> 4 == 0x3
    ensures Mul(x, InvAffine(Row3(x))) == 1
  {
    hide Mul, MulBits;
    MulUnrolled(x, InvAffine(Row3(x)));
  }

  lemma Row4Is(x: bv8)
    requires x >> 4 == 0x4
    ensures Mul(x, InvAffine(Row4(x))) == 1
  {
    hide Mul, MulBits;
    MulUnrolled(x, InvAffine(Row4(x)));
  }

  lemma Row5Is(x: bv8)
    requires x >> 4 == 0x5
    ensures Mul(x, InvAffine(Row5(x))) == 1
  {
    hide Mul, MulBits;
    MulUnrolled(x, InvAffine(Row5(x)));
  }

  lemma Row6Is(x: bv8)
    requires x >> 4 == 0x6
    ensures Mul(x, InvAffine(Row6(x))) == 1
  {
    hide Mul, MulBits;
    MulUnrolled(x, InvAffine(Row6(x)));
  }

  lemma Row7Is(x: bv8)
    requires x >> 4 == 0x7
    ensures Mul(x, InvAffine(Row7(x))) == 1
  {
    hide Mul, MulBits;
    MulUnrolled(x, InvAffine(Row7(x)));
  }

  lemma Row8Is(x: bv8)
    requires x >> 4 == 0x8
    ensures Mul(x, InvAffine(Row8(x))) == 1
  {
    hide Mul, MulBits;
    MulUnrolled(x, InvAffine(Row8(x)));
  }

  lemma Row9Is(x: bv8)
    requires x >> 4 == 0x9
    ensures Mul(x, InvAffine(Row9(x))) == 1
  {
    hide Mul, MulBits;
    MulUnrolled(x, InvAffine(Row9(x)));
  }

  lemma RowAIs(x: bv8)
    requires x >> 4 == 0xa
    ensures Mul(x, InvAffine(RowA(x))) == 1
  {
    hide Mul, MulBits;
    MulUnrolled(x, InvAffine(RowA(x)));
  }

  lemma RowBIs(x: bv8)
    requires x >> 4 == 0xb
    ensures Mul(x, InvAffine(RowB(x))) == 1
  {
    hide Mul, MulBits;
    MulUnrolled(x, InvAffine(RowB(x)));
  }

  lemma RowCIs(x: bv8)
    requires x >> 4 == 0xc
    ensures Mul(x, InvAffine(RowC(x))) == 1
  {
    hide Mul, MulBits;
    MulUnrolled(x, InvAffine(RowC(x)));
  }

  lemma RowDIs(x: bv8)
    requires x >> 4 == 0xd
    ensures Mul(x, InvAffine(RowD(x))) == 1
  {
    hide Mul, MulBits;
    MulUnrolled(x, InvAffine(RowD(x)));
  }

  lemma RowEIs(x: bv8)
    requires x >> 4 == 0xe
    ensures Mul(x, InvAffine(RowE(x))) == 1
  {
    hide Mul, MulBits;
    MulUnrolled(x, InvAffine(RowE(x)));
  }

  lemma RowFIs(x: bv8)
    requires x >> 4 == 0xf
    ensures Mul(x, InvAffine(RowF(x))) == 1
  {
    hide Mul, MulBits;
    MulUnrolled(x, InvAffine(RowF(x)));
  }

  /** The S-box computed through logarithms is the table, byte for byte. */
  lemma SBoxIsTable(x: bv8)
    ensures SBox(x) == Table(x)
  {
    if x == 0 {
      TableAtZero();
    } else {
      TableInverts(x);
      InverseIs(x, InvAffine(Table(x)));
      InvAffineOfAffine(Table(x));
    }
  }

  lemma TableAtZero()
    ensures SBox(0) == 0x63 && Table(0) == 0x63
  {
  }

  lemma TableInverts(x: bv8)
    requires x != 0
    ensures Mul(x, InvAffine(Table(x))) == 1
  {
    hide Mul, InvAffine, Row0, Row1, Row2, Row3, Row4, Row5, Row6, Row7, Row8, Row9, RowA, RowB, RowC, RowD, RowE, RowF;
    match x >> 4
    case 0x0 => Row0Is(x);
    case 0x1 => Row1Is(x);
    case 0x2 => Row2Is(x);
    case 0x3 => Row3Is(x);
    case 0x4 => Row4Is(x);
    case 0x5 => Row5Is(x);
    case 0x6 => Row6Is(x);
    case 0x7 => Row7Is(x);
    case 0x8 => Row8Is(x);
    case 0x9 => Row9Is(x);
    case 0xa => RowAIs(x);
    case 0xb => RowBIs(x);
    case 0xc => RowCIs(x);
    case 0xd => RowDIs(x);
    case 0xe => RowEIs(x);
    case 0xf => RowFIs(x);
    case _ =>
  }

  // ----- the table sboxinv -----

  function InvRow0(x: bv8): bv8
  {
    match x
    case 0x00 => 0x52 case 0x01 => 0x09 case 0x02 => 0x6a case 0x03 => 0xd5
    case 0x04 => 0x30 case 0x05 => 0x36 case 0x06 => 0xa5 case 0x07 => 0x38
    case 0x08 => 0xbf case 0x09 => 0x40 case 0x0a => 0xa3 case 0x0b => 0x9e
    case 0x0c => 0x81 case 0x0d => 0xf3 case 0x0e => 0xd7 case 0x0f => 0xfb
    case _ => 0x00
  }

  function InvRow1(x: bv8): bv8
  {
    match x
    case 0x10 => 0x7c case 0x11 => 0xe3 case 0x12 => 0x39 case 0x13 => 0x82
    case 0x14 => 0x9b case 0x15 => 0x2f case 0x16 => 0xff case 0x17 => 0x87
    case 0x18 => 0x34 case 0x19 => 0x8e case 0x1a => 0x43 case 0x1b => 0x44
    case 0x1c => 0xc4 case 0x1d => 0xde case 0x1e => 0xe9 case 0x1f => 0xcb
    case _ => 0x00
  }

  function InvRow2(x: bv8): bv8
  {
    match x
    case 0x20 => 0x54 case 0x21 => 0x7b case 0x22 => 0x94 case 0x23 => 0x32
    case 0x24 => 0xa6 case 0x25 => 0xc2 case 0x26 => 0x23 case 0x27 => 0x3d
    case 0x28 => 0xee case 0x29 => 0x4c case 0x2a => 0x95 case 0x2b => 0x0b
    case 0x2c => 0x42 case 0x2d => 0xfa case 0x2e => 0xc3 case 0x2f => 0x4e
    case _ => 0x00
  }

  function InvRow3(x: bv8): bv8
  {
    match x
    case 0x30 => 0x08 case 0x31 => 0x2e case 0x32 => 0xa1 case 0x33 => 0x66
    case 0x34 => 0x28 case 0x35 => 0xd9 case 0x36 => 0x24 case 0x37 => 0xb2
    case 0x38 => 0x76 case 0x39 => 0x5b case 0x3a => 0xa2 case 0x3b => 0x49
    case 0x3c => 0x6d case 0x3d => 0x8b case 0x3e => 0xd1 case 0x3f => 0x25
    case _ => 0x00
  }

  function InvRow4(x: bv8): bv8
  {
    match x
    case 0x40 => 0x72 case 0x41 => 0xf8 case 0x42 => 0xf6 case 0x43 => 0x64
    case 0x44 => 0x86 case 0x45 => 0x68 case 0x46 => 0x98 case 0x47 => 0x16
    case 0x48 => 0xd4 case 0x49 => 0xa4 case 0x4a => 0x5c case 0x4b => 0xcc
    case 0x4c => 0x5d case 0x4d => 0x65 case 0x4e => 0xb6 case 0x4f => 0x92
    case _ => 0x00
  }

  function InvRow5(x: bv8): bv8
  {
    match x
    case 0x50 => 0x6c case 0x51 => 0x70 case 0x52 => 0x48 case 0x53 => 0x50
    case 0x54 => 0xfd case 0x55 => 0xed case 0x56 => 0xb9 case 0x57 => 0xda
    case 0x58 => 0x5e case 0x59 => 0x15 case 0x5a => 0x46 case 0x5b => 0x57
    case 0x5c => 0xa7 case 0x5d => 0x8d case 0x5e => 0x9d case 0x5f => 0x84
    case _ => 0x00
  }

  function InvRow6(x: bv8): bv8
  {
    match x
    case 0x60 => 0x90 case 0x61 => 0xd8 case 0x62 => 0xab case 0x63 => 0x00
    case 0x64 => 0x8c case 0x65 => 0xbc case 0x66 => 0xd3 case 0x67 => 0x0a
    case 0x68 => 0xf7 case 0x69 => 0xe4 case 0x6a => 0x58 case 0x6b => 0x05
    case 0x6c => 0xb8 case 0x6d => 0xb3 case 0x6e => 0x45 case 0x6f => 0x06
    case _ => 0x00
  }

  function InvRow7(x: bv8): bv8
  {
    match x
    case 0x70 => 0xd0 case 0x71 => 0x2c case 0x72 => 0x1e case 0x73 => 0x8f
    case 0x74 => 0xca case 0x75 => 0x3f case 0x76 => 0x0f case 0x77 => 0x02
    case 0x78 => 0xc1 case 0x79 => 0xaf case 0x7a => 0xbd case 0x7b => 0x03
    case 0x7c => 0x01 case 0x7d => 0x13 case 0x7e => 0x8a case 0x7f => 0x6b
    case _ => 0x00
  }

  function InvRow8(x: bv8): bv8
  {
    match x
    case 0x80 => 0x3a case 0x81 => 0x91 case 0x82 => 0x11 case 0x83 => 0x41
    case 0x84 => 0x4f case 0x85 => 0x67 case 0x86 => 0xdc case 0x87 => 0xea
    case 0x88 => 0x97 case 0x89 => 0xf2 case 0x8a => 0xcf case 0x8b => 0xce
    case 0x8c => 0xf0 case 0x8d => 0xb4 case 0x8e => 0xe6 case 0x8f => 0x73
    case _ => 0x00
  }

  function InvRow9(x: bv8): bv8
  {
    match x
    case 0x90 => 0x96 case 0x91 => 0xac case 0x92 => 0x74 case 0x93 => 0x22
    case 0x94 => 0xe7 case 0x95 => 0xad case 0x96 => 0x35 case 0x97 => 0x85
    case 0x98 => 0xe2 case 0x99 => 0xf9 case 0x9a => 0x37 case 0x9b => 0xe8
    case 0x9c => 0x1c case 0x9d => 0x75 case 0x9e => 0xdf case 0x9f => 0x6e
    case _ => 0x00
  }

  function InvRowA(x: bv8): bv8
  {
    match x
    case 0xa0 => 0x47 case 0xa1 => 0xf1 case 0xa2 => 0x1a case 0xa3 => 0x71
    case 0xa4 => 0x1d case 0xa5 => 0x29 case 0xa6 => 0xc5 case 0xa7 => 0x89
    case 0xa8 => 0x6f case 0xa9 => 0xb7 case 0xaa => 0x62 case 0xab => 0x0e
    case 0xac => 0xaa case 0xad => 0x18 case 0xae => 0xbe case 0xaf => 0x1b
    case _ => 0x00
  }

  function InvRowB(x: bv8): bv8
  {
    match x
    case 0xb0 => 0xfc case 0xb1 => 0x56 case 0xb2 => 0x3e case 0xb3 => 0x4b
    case 0xb4 => 0xc6 case 0xb5 => 0xd2 case 0xb6 => 0x79 case 0xb7 => 0x20
    case 0xb8 => 0x9a case 0xb9 => 0xdb case 0xba => 0xc0 case 0xbb => 0xfe
    case 0xbc => 0x78 case 0xbd => 0xcd case 0xbe => 0x5a case 0xbf => 0xf4
    case _ => 0x00
  }

  function InvRowC(x: bv8): bv8
  {
    match x
    case 0xc0 => 0x1f case 0xc1 => 0xdd case 0xc2 => 0xa8 case 0xc3 => 0x33
    case 0xc4 => 0x88 case 0xc5 => 0x07 case 0xc6 => 0xc7 case 0xc7 => 0x31
    case 0xc8 => 0xb1 case 0xc9 => 0x12 case 0xca => 0x10 case 0xcb => 0x59
    case 0xcc => 0x27 case 0xcd => 0x80 case 0xce => 0xec case 0xcf => 0x5f
    case _ => 0x00
  }

  function InvRowD(x: bv8): bv8
  {
    match x
    case 0xd0 => 0x60 case 0xd1 => 0x51 case 0xd2 => 0x7f case 0xd3 => 0xa9
    case 0xd4 => 0x19 case 0xd5 => 0xb5 case 0xd6 => 0x4a case 0xd7 => 0x0d
    case 0xd8 => 0x2d case 0xd9 => 0xe5 case 0xda => 0x7a case 0xdb => 0x9f
    case 0xdc => 0x93 case 0xdd => 0xc9 case 0xde => 0x9c case 0xdf => 0xef
    case _ => 0x00
  }

  function InvRowE(x: bv8): bv8
  {
    match x
    case 0xe0 => 0xa0 case 0xe1 => 0xe0 case 0xe2 => 0x3b case 0xe3 => 0x4d
    case 0xe4 => 0xae case 0xe5 => 0x2a case 0xe6 => 0xf5 case 0xe7 => 0xb0
    case 0xe8 => 0xc8 case 0xe9 => 0xeb case 0xea => 0xbb case 0xeb => 0x3c
    case 0xec => 0x83 case 0xed => 0x53 case 0xee => 0x99 case 0xef => 0x61
    case _ => 0x00
  }

  function InvRowF(x: bv8): bv8
  {
    match x
    case 0xf0 => 0x17 case 0xf1 => 0x2b case 0xf2 => 0x04 case 0xf3 => 0x7e
    case 0xf4 => 0xba case 0xf5 => 0x77 case 0xf6 => 0xd6 case 0xf7 => 0x26
    case 0xf8 => 0xe1 case 0xf9 => 0x69 case 0xfa => 0x14 case 0xfb => 0x63
    case 0xfc => 0x55 case 0xfd => 0x21 case 0xfe => 0x0c case 0xff => 0x7d
    case _ => 0x00
  }

  function InvTable(x: bv8): bv8
  {
    match x >> 4
    case 0x0 => InvRow0(x) case 0x1 => InvRow1(x) case 0x2 => InvRow2(x) case 0x3 => InvRow3(x)
    case 0x4 => InvRow4(x) case 0x5 => InvRow5(x) case 0x6 => InvRow6(x) case 0x7 => InvRow7(x)
    case 0x8 => InvRow8(x) case 0x9 => InvRow9(x) case 0xa => InvRowA(x) case 0xb => InvRowB(x)
    case 0xc => InvRowC(x) case 0xd => InvRowD(x) case 0xe => InvRowE(x) case 0xf => InvRowF(x)
    case _ => 0x00
  }

  lemma InvRow0Is(y: bv8)
    requires y >> 4 == 0x0
    ensures Mul(InvAffine(y), InvRow0(y)) == 1 && InvAffine(y) != 0
  {
    hide Mul, MulBits;
    MulUnrolled(InvAffine(y), InvRow0(y));
  }

  lemma InvRow1Is(y: bv8)
    requires y >> 4 == 0x1
    ensures Mul(InvAffine(y), InvRow1(y)) == 1 && InvAffine(y) != 0
  {
    hide Mul, MulBits;
    MulUnrolled(InvAffine(y), InvRow1(y));
  }

  lemma InvRow2Is(y: bv8)
    requires y >> 4 == 0x2
    ensures Mul(InvAffine(y), InvRow2(y)) == 1 && InvAffine(y) != 0
  {
    hide Mul, MulBits;
    MulUnrolled(InvAffine(y), InvRow2(y));
  }

  lemma InvRow3Is(y: bv8)
    requires y >> 4 == 0x3
    ensures Mul(InvAffine(y), InvRow3(y)) == 1 && InvAffine(y) != 0
  {
    hide Mul, MulBits;
    MulUnrolled(InvAffine(y), InvRow3(y));
  }

  lemma InvRow4Is(y: bv8)
    requires y >> 4 == 0x4
    ensures Mul(InvAffine(y), InvRow4(y)) == 1 && InvAffine(y) != 0
  {
    hide Mul, MulBits;
    MulUnrolled(InvAffine(y), InvRow4(y));
  }

  lemma InvRow5Is(y: bv8)
    requires y >> 4 == 0x5
    ensures Mul(InvAffine(y), InvRow5(y)) == 1 && InvAffine(y) != 0
  {
    hide Mul, MulBits;
    MulUnrolled(InvAffine(y), InvRow5(y));
  }

  lemma InvRow6Is(y: bv8)
    requires y >> 4 == 0x6 && y != 0x63
    ensures Mul(InvAffine(y), InvRow6(y)) == 1 && InvAffine(y) != 0
  {
    hide Mul, MulBits;
    MulUnrolled(InvAffine(y), InvRow6(y));
  }

  lemma InvRow7Is(y: bv8)
    requires y >> 4 == 0x7
    ensures Mul(InvAffine(y), InvRow7(y)) == 1 && InvAffine(y) != 0
  {
    hide Mul, MulBits;
    MulUnrolled(InvAffine(y), InvRow7(y));
  }

  lemma InvRow8Is(y: bv8)
    requires y >> 4 == 0x8
    ensures Mul(InvAffine(y), InvRow8(y)) == 1 && InvAffine(y) != 0
  {
    hide Mul, MulBits;
    MulUnrolled(InvAffine(y), InvRow8(y));
  }

  lemma InvRow9Is(y: bv8)
    requires y >> 4 == 0x9
    ensures Mul(InvAffine(y), InvRow9(y)) == 1 && InvAffine(y) != 0
  {
    hide Mul, MulBits;
    MulUnrolled(InvAffine(y), InvRow9(y));
  }

  lemma InvRowAIs(y: bv8)
    requires y >> 4 == 0xa
    ensures Mul(InvAffine(y), InvRowA(y)) == 1 && InvAffine(y) != 0
  {
    hide Mul, MulBits;
    MulUnrolled(InvAffine(y), InvRowA(y));
  }

  lemma InvRowBIs(y: bv8)
    requires y >> 4 == 0xb
    ensures Mul(InvAffine(y), InvRowB(y)) == 1 && InvAffine(y) != 0
  {
    hide Mul, MulBits;
    MulUnrolled(InvAffine(y), InvRowB(y));
  }

  lemma InvRowCIs(y: bv8)
    requires y >> 4 == 0xc
    ensures Mul(InvAffine(y), InvRowC(y)) == 1 && InvAffine(y) != 0
  {
    hide Mul, MulBits;
    MulUnrolled(InvAffine(y), InvRowC(y));
  }

  lemma InvRowDIs(y: bv8)
    requires y >> 4 == 0xd
    ensures Mul(InvAffine(y), InvRowD(y)) == 1 && InvAffine(y) != 0
  {
    hide Mul, MulBits;
    MulUnrolled(InvAffine(y), InvRowD(y));
  }

  lemma InvRowEIs(y: bv8)
    requires y >> 4 == 0xe
    ensures Mul(InvAffine(y), InvRowE(y)) == 1 && InvAffine(y) != 0
  {
    hide Mul, MulBits;
    MulUnrolled(InvAffine(y), InvRowE(y));
  }

  lemma InvRowFIs(y: bv8)
    requires y >> 4 == 0xf
    ensures Mul(InvAffine(y), InvRowF(y)) == 1 && InvAffine(y) != 0
  {
    hide Mul, MulBits;
    MulUnrolled(InvAffine(y), InvRowF(y));
  }

  lemma InvTableInverts(y: bv8)
    requires y != 0x63
    ensures Mul(InvAffine(y), InvTable(y)) == 1 && InvAffine(y) != 0
  {
    hide Mul, InvAffine, InvRow0, InvRow1, InvRow2, InvRow3, InvRow4, InvRow5, InvRow6, InvRow7, InvRow8, InvRow9, InvRowA, InvRowB, InvRowC, InvRowD, InvRowE, InvRowF;
    match y >> 4
    case 0x0 => InvRow0Is(y);
    case 0x1 => InvRow1Is(y);
    case 0x2 => InvRow2Is(y);
    case 0x3 => InvRow3Is(y);
    case 0x4 => InvRow4Is(y);
    case 0x5 => InvRow5Is(y);
    case 0x6 => InvRow6Is(y);
    case 0x7 => InvRow7Is(y);
    case 0x8 => InvRow8Is(y);
    case 0x9 => InvRow9Is(y);
    case 0xa => InvRowAIs(y);
    case 0xb => InvRowBIs(y);
    case 0xc => InvRowCIs(y);
    case 0xd => InvRowDIs(y);
    case 0xe => InvRowEIs(y);
    case 0xf => InvRowFIs(y);
    case _ =>
  }

  lemma InvTableAt63()
    ensures InvSBox(0x63) == 0x00 && InvTable(0x63) == 0x00
  {
  }

  /** The inverse S-box computed is the table sboxinv. */
  lemma InvSBoxIsTable(y: bv8)
    ensures InvSBox(y) == InvTable(y)
  {
    hide InvTable, Mul, InvAffine;
    if y == 0x63 {
      InvTableAt63();
    } else {
      InvTableInverts(y);
      InverseIs(InvAffine(y), InvTable(y));
    }
  }
}
