/**
 The checksum of frames and of the store: a byte-wise table-driven CRC, with the table as
 the program has it. Detection needs one fact about the table, that no two entries share
 their top byte.
 */
module Crc {
  import opened Basics

  // ----- the table -----

  function Pick(i: bv8, a0: bv32, a1: bv32, a2: bv32, a3: bv32, a4: bv32, a5: bv32, a6: bv32, a7: bv32,
                a8: bv32, a9: bv32, a10: bv32, a11: bv32, a12: bv32, a13: bv32, a14: bv32, a15: bv32): bv32
  {
    if i < 8 then
      if i < 4 then (if i < 2 then (if i == 0 then a0 else a1) else (if i == 2 then a2 else a3))
      else (if i < 6 then (if i == 4 then a4 else a5) else (if i == 6 then a6 else a7))
    else
      if i < 12 then (if i < 10 then (if i == 8 then a8 else a9) else (if i == 10 then a10 else a11))
      else (if i < 14 then (if i == 12 then a12 else a13) else (if i == 14 then a14 else a15))
  }

  function Quarter0(i: bv8): bv32 {
    if i < 0x10 then Pick(i & 0xF,
      0x0000_0000, 0x7707_3096, 0xEE0E_612C, 0x9909_51BA, 0x076D_C419, 0x706A_F48F, 0xE963_A535, 0x9E64_95A3,
      0x0EDB_8832, 0x79DC_B8A4, 0xE0D5_E91E, 0x97D2_D988, 0x09B6_4C2B, 0x7EB1_7CBD, 0xE7B8_2D07, 0x90BF_1D91)
    else if i < 0x20 then Pick(i & 0xF,
      0x1DB7_1064, 0x6AB0_20F2, 0xF3B9_7148, 0x84BE_41DE, 0x1ADA_D47D, 0x6DDD_E4EB, 0xF4D4_B551, 0x83D3_85C7,
      0x136C_9856, 0x646B_A8C0, 0xFD62_F97A, 0x8A65_C9EC, 0x1401_5C4F, 0x6306_6CD9, 0xFA0F_3D63, 0x8D08_0DF5)
    else if i < 0x30 then Pick(i & 0xF,
      0x3B6E_20C8, 0x4C69_105E, 0xD560_41E4, 0xA267_7172, 0x3C03_E4D1, 0x4B04_D447, 0xD20D_85FD, 0xA50A_B56B,
      0x35B5_A8FA, 0x42B2_986C, 0xDBBB_9F86, 0xACBC_F940, 0x32D8_6CE3, 0x45DF_5C75, 0xDCD6_0DCF, 0xABD1_3D59)
    else Pick(i & 0xF,
      0x26D9_30AC, 0x51DE_003A, 0xC8D7_5180, 0xBFD0_6116, 0x21B4_F4B5, 0x56B3_C423, 0xCFBA_9599, 0xB8BD_A50F,
      0x2802_B89E, 0x5F05_8808, 0xC60C_D9B2, 0xB10B_E924, 0x2F6F_7C87, 0x5868_4C11, 0xC161_1DAB, 0xB666_2D3D)
  }

  function Quarter1(i: bv8): bv32 {
    if i < 0x50 then Pick(i & 0xF,
      0x76DC_4190, 0x01DB_7106, 0x98D2_20BC, 0xEFD5_102A, 0x71B1_8589, 0x06B6_B51F, 0x9FBF_E4A5, 0xE8B8_D433,
      0x7807_C9A2, 0x0F00_F934, 0x9609_A88E, 0xE10E_9818, 0x7F6A_0DBB, 0x086D_3D2D, 0x9164_6C97, 0xE663_5C01)
    else if i < 0x60 then Pick(i & 0xF,
      0x6B6B_51F4, 0x1C6C_6162, 0x8565_30D8, 0xF262_004E, 0x6C06_95ED, 0x1B01_A57B, 0x8208_F4C1, 0xF50F_C457,
      0x65B0_D9C6, 0x12B7_E950, 0x8BBE_B8EA, 0xFCB9_887C, 0x62DD_1DDF, 0x15DA_2D49, 0x8CD3_7CF3, 0xFBD4_4C65)
    else if i < 0x70 then Pick(i & 0xF,
      0x4DB2_6158, 0x3AB5_51CE, 0xA3BC_0074, 0xD4BB_30E2, 0x4ADF_A541, 0x3DD8_95D7, 0xA4D1_C46D, 0xD3D6_F4FB,
      0x4369_E96A, 0x346E_D9FC, 0xAD67_8846, 0xDA60_B8D0, 0x4404_2D73, 0x3303_1DE5, 0xAA0A_4C5F, 0xDD0D_7CC9)
    else Pick(i & 0xF,
      0x5005_713C, 0x2702_41AA, 0xBE0B_1010, 0xC90C_2086, 0x5768_B525, 0x206F_85B3, 0xB966_D409, 0xCE61_E49F,
      0x5EDE_F90E, 0x29D9_C998, 0xB0D0_9822, 0xC7D7_A8B4, 0x59B3_3D17, 0x2EB4_0D81, 0xB7BD_5C3B, 0xC0BA_6CAD)
  }

  function Quarter2(i: bv8): bv32 {
    if i < 0x90 then Pick(i & 0xF,
      0xEDB8_8320, 0x9ABF_B3B6, 0x03B6_E20C, 0x74B1_D29A, 0xEAD5_4739, 0x9DD2_77AF, 0x04DB_2615, 0x73DC_1683,
      0xE363_0B12, 0x9464_3B84, 0x0D6D_6A3E, 0x7A6A_5AA8, 0xE40E_CF0B, 0x9309_FF9D, 0x0A00_AE27, 0x7D07_9EB1)
    else if i < 0xA0 then Pick(i & 0xF,
      0xF00F_9344, 0x8708_A3D2, 0x1E01_F268, 0x6906_C2FE, 0xF762_575D, 0x8065_67CB, 0x196C_3671, 0x6E6B_06E7,
      0xFED4_1B76, 0x89D3_2BE0, 0x10DA_7A5A, 0x67DD_4ACC, 0xF9B9_DF6F, 0x8EBE_EFF9, 0x17B7_BE43, 0x60B0_8ED5)
    else if i < 0xB0 then Pick(i & 0xF,
      0xD6D6_A3E8, 0xA1D1_937E, 0x38D8_C2C4, 0x4FDF_F252, 0xD1BB_67F1, 0xA6BC_5767, 0x3FB5_06DD, 0x48B2_364B,
      0xD80D_2BDA, 0xAF0A_1B4C, 0x3603_4AF6, 0x4104_7A60, 0xDF60_EFC3, 0xA867_DF55, 0x316E_8EEF, 0x4669_BE79)
    else Pick(i & 0xF,
      0xCB61_B38C, 0xBC66_831A, 0x256F_D2A0, 0x5268_E236, 0xCC0C_7795, 0xBB0B_4703, 0x2202_16B9, 0x5505_262F,
      0xC5BA_3BBE, 0xB2BD_0B28, 0x2BB4_5A92, 0x5CB3_6A04, 0xC2D7_FFA7, 0xB5D0_CF31, 0x2CD9_9E8B, 0x5BDE_AE1D)
  }

  function Quarter3(i: bv8): bv32 {
    if i < 0xD0 then Pick(i & 0xF,
      0x9B64_C2B0, 0xEC63_F226, 0x756A_A39C, 0x026D_930A, 0x9C09_06A9, 0xEB0E_363F, 0x7207_6785, 0x0500_5713,
      0x95BF_4A82, 0xE2B8_7A14, 0x7BB1_2BAE, 0x0CB6_1B38, 0x92D2_8E9B, 0xE5D5_BE0D, 0x7CDC_EFB7, 0x0BDB_DF21)
    else if i < 0xE0 then Pick(i & 0xF,
      0x86D3_D2D4, 0xF1D4_E242, 0x68DD_B3F8, 0x1FDA_836E, 0x81BE_16CD, 0xF6B9_265B, 0x6FB0_77E1, 0x18B7_4777,
      0x8808_5AE6, 0xFF0F_6A70, 0x6606_3BCA, 0x1101_0B5C, 0x8F65_9EFF, 0xF862_AE69, 0x616B_FFD3, 0x166C_CF45)
    else if i < 0xF0 then Pick(i & 0xF,
      0xA00A_E278, 0xD70D_D2EE, 0x4E04_8354, 0x3903_B3C2, 0xA767_2661, 0xD060_16F7, 0x4969_474D, 0x3E6E_77DB,
      0xAED1_6A4A, 0xD9D6_5ADC, 0x40DF_0B66, 0x37D8_3BF0, 0xA9BC_AE53, 0xDEBB_9EC5, 0x47B2_CF7F, 0x30B5_FFE9)
    else Pick(i & 0xF,
      0xBDBD_F21C, 0xCABA_C28A, 0x53B3_9330, 0x24B4_A3A6, 0xBAD0_3605, 0xCDD7_0693, 0x54DE_5729, 0x23D9_67BF,
      0xB366_7A2E, 0xC461_4AB8, 0x5D68_1B02, 0x2A6F_2B94, 0xB40B_BE37, 0xC30C_8EA1, 0x5A05_DF1B, 0x2D02_EF8D)
  }

  function Table(i: bv8): bv32 {
    if i < 0x40 then Quarter0(i) else if i < 0x80 then Quarter1(i)
    else if i < 0xC0 then Quarter2(i) else Quarter3(i)
  }

  function Top(c: bv32): bv8 {
    (c >> 24) as bv8
  }

  // ----- top bytes are distinct -----

  function Bit(i: bv8, mask: bv8, t: bv8): bv8 {
    if i & mask == 0 then 0 else t
  }

  /** The top byte of entry `i`, as a linear function of the bits of `i`. */
  function TopOf(i: bv8): bv8 {
    Bit(i, 1, 0x77) ^ Bit(i, 2, 0xEE) ^ Bit(i, 4, 0x07) ^ Bit(i, 8, 0x0E)
    ^ Bit(i, 16, 0x1D) ^ Bit(i, 32, 0x3B) ^ Bit(i, 64, 0x76) ^ Bit(i, 128, 0xED)
  }

  lemma TopOfInjective(i: bv8, j: bv8)
    requires TopOf(i) == TopOf(j)
    ensures i == j
  {
  }

  lemma Quarter0Top(i: bv8)
    requires i < 0x40
    ensures Top(Quarter0(i)) == TopOf(i)
  {
  }

  lemma Quarter1Top(i: bv8)
    requires 0x40 <= i < 0x80
    ensures Top(Quarter1(i)) == TopOf(i)
  {
  }

  lemma Quarter2Top(i: bv8)
    requires 0x80 <= i < 0xC0
    ensures Top(Quarter2(i)) == TopOf(i)
  {
  }

  lemma Quarter3Top(i: bv8)
    requires 0xC0 <= i
    ensures Top(Quarter3(i)) == TopOf(i)
  {
  }

  lemma TopBytesDistinct(i: bv8, j: bv8)
    requires Top(Table(i)) == Top(Table(j))
    ensures i == j
  {
    TopIs(i);
    TopIs(j);
    hide Table, TopOf;
    TopOfInjective(i, j);
  }

  lemma TopIs(i: bv8)
    ensures Top(Table(i)) == TopOf(i)
  {
    hide Quarter0, Quarter1, Quarter2, Quarter3, TopOf;
    if i < 0x40 { Quarter0Top(i); }
    else if i < 0x80 { Quarter1Top(i); }
    else if i < 0xC0 { Quarter2Top(i); }
    else { Quarter3Top(i); }
  }

  // ----- one step -----

  function Mask(on: bool, mask: bv8): bv8 {
    if on then mask else 0
  }

  function Below(n: nat, m: nat): nat {
    if n >= m then n - m else n
  }

  datatype Eight = Eight(b7: bool, b6: bool, b5: bool, b4: bool, b3: bool, b2: bool, b1: bool, b0: bool)

  /** The binary digits of a byte. */
  function Digits(b: Byte): Eight {
    var b6 := Below(b, 128);
    var b5 := Below(b6, 64);
    var b4 := Below(b5, 32);
    var b3 := Below(b4, 16);
    var b2 := Below(b3, 8);
    var b1 := Below(b2, 4);
    var b0 := Below(b1, 2);
    Eight(b >= 128, b6 >= 64, b5 >= 32, b4 >= 16, b3 >= 8, b2 >= 4, b1 >= 2, b0 >= 1)
  }

  function Pack(e: Eight): bv8 {
    Mask(e.b7, 0x80) | Mask(e.b6, 0x40) | Mask(e.b5, 0x20) | Mask(e.b4, 0x10)
    | Mask(e.b3, 0x08) | Mask(e.b2, 0x04) | Mask(e.b1, 0x02) | Mask(e.b0, 0x01)
  }

  /** The bit pattern of a byte. */
  function Bits(b: Byte): bv8 {
    Pack(Digits(b))
  }

  lemma PackInjective(e: Eight, f: Eight)
    requires Pack(e) == Pack(f)
    ensures e == f
  {
  }

  function One(on: bool, n: nat): nat {
    if on then n else 0
  }

  function Sum(e: Eight): nat {
    One(e.b7, 128) + One(e.b6, 64) + One(e.b5, 32) + One(e.b4, 16) + One(e.b3, 8) + One(e.b2, 4) + One(e.b1, 2)
    + One(e.b0, 1)
  }

  lemma BelowSum(n: nat, m: nat)
    requires n < 2 * m
    ensures n == One(n >= m, m) + Below(n, m) && Below(n, m) < m
  {
  }

  lemma HighSum(b: Byte)
    ensures var b6 := Below(b, 128); var b5 := Below(b6, 64); var b4 := Below(b5, 32); var b3 := Below(b4, 16);
            && b == One(b >= 128, 128) + One(b6 >= 64, 64) + One(b5 >= 32, 32) + One(b4 >= 16, 16) + b3 && b3 < 16
  {
    var b6 := Below(b, 128);
    var b5 := Below(b6, 64);
    BelowSum(b, 128);
    BelowSum(b6, 64);
    BelowSum(b5, 32);
    BelowSum(Below(b5, 32), 16);
    hide Below, One;
  }

  lemma LowSum(b3: nat)
    requires b3 < 16
    ensures var b2 := Below(b3, 8); var b1 := Below(b2, 4); var b0 := Below(b1, 2);
            b3 == One(b3 >= 8, 8) + One(b2 >= 4, 4) + One(b1 >= 2, 2) + One(b0 >= 1, 1)
  {
    var b2 := Below(b3, 8);
    var b1 := Below(b2, 4);
    BelowSum(b3, 8);
    BelowSum(b2, 4);
    BelowSum(b1, 2);
    BelowSum(Below(b1, 2), 1);
    hide Below, One;
  }

  lemma DigitsSum(b: Byte)
    ensures Sum(Digits(b)) == b
  {
    hide Below, One;
    HighSum(b);
    LowSum(Below(Below(Below(Below(b, 128), 64), 32), 16));
  }

  lemma BitsInjective(a: Byte, b: Byte)
    requires Bits(a) == Bits(b)
    ensures a == b
  {
    hide Pack, Digits;
    PackInjective(Digits(a), Digits(b));
    DigitsSum(a);
    DigitsSum(b);
  }

  function Index(c: bv32, b: bv8): bv8 {
    ((c ^ b as bv32) & 0xFF) as bv8
  }

  function Mixed(c: bv32, t: bv32): bv32 {
    (c >> 8) ^ t
  }

  function Step(c: bv32, b: bv8): bv32 {
    Mixed(c, Table(Index(c, b)))
  }

  function High3(c: bv32): bv32 {
    c >> 8
  }

  function High2(c: bv32): bv32 {
    c >> 16
  }

  /** The top byte of a result tells which entry went into it. */
  lemma TopTells(c: bv32, d: bv32, a: bv8, b: bv8)
    requires Top(Step(c, a)) == Top(Step(d, b))
    ensures Index(c, a) == Index(d, b)
  {
    TopOfXor(c, Table(Index(c, a)));
    TopOfXor(d, Table(Index(d, b)));
    hide Table, Index, Top, Mixed;
    TopBytesDistinct(Index(c, a), Index(d, b));
  }

  lemma TopOfXor(c: bv32, t: bv32)
    ensures Top(Mixed(c, t)) == Top(t)
  {
  }

  /** With the entry taken out, agreement of the results in their top 4, 3 or 2 bytes is
      agreement of the states before in their top 3, 2 or 1. */
  lemma Peel4(c: bv32, d: bv32, t: bv32)
    requires Mixed(c, t) == Mixed(d, t)
    ensures High3(c) == High3(d)
  {
  }

  lemma Peel3(c: bv32, d: bv32, t: bv32)
    requires High3(Mixed(c, t)) == High3(Mixed(d, t))
    ensures High2(c) == High2(d)
  {
  }

  lemma Peel2(c: bv32, d: bv32, t: bv32)
    requires High2(Mixed(c, t)) == High2(Mixed(d, t))
    ensures Top(c) == Top(d)
  {
  }

  lemma StepTells(c: bv32, d: bv32, a: bv8, b: bv8)
    requires Top(Step(c, a)) == Top(Step(d, b))
    ensures Index(c, a) == Index(d, b)
    ensures Step(c, a) == Step(d, b) ==> High3(c) == High3(d)
    ensures High3(Step(c, a)) == High3(Step(d, b)) ==> High2(c) == High2(d)
    ensures High2(Step(c, a)) == High2(Step(d, b)) ==> Top(c) == Top(d)
  {
    TopTells(c, d, a, b);
    hide Table, Index, Mixed, Top, High2, High3;
    var t := Table(Index(c, a));
    if Mixed(c, t) == Mixed(d, t) { Peel4(c, d, t); }
    if High3(Mixed(c, t)) == High3(Mixed(d, t)) { Peel3(c, d, t); }
    if High2(Mixed(c, t)) == High2(Mixed(d, t)) { Peel2(c, d, t); }
  }

  /** Agreement of the top bytes, however many. */
  lemma Tops(x: bv32, y: bv32)
    ensures High3(x) == High3(y) ==> Top(x) == Top(y)
    ensures High2(x) == High2(y) ==> Top(x) == Top(y)
  {
  }

  /** With the same byte, different states step to different states. */
  lemma StepInjective(c: bv32, d: bv32, b: bv8)
    requires Step(c, b) == Step(d, b)
    ensures c == d
  {
    hide Table, Step, Index, High3, Top;
    StepTells(c, d, b, b);
    SameHighAndLow(c, d, b);
  }

  lemma SameHighAndLow(c: bv32, d: bv32, b: bv8)
    requires Index(c, b) == Index(d, b) && High3(c) == High3(d)
    ensures c == d
  {
  }

  // ----- the checksum -----

  function Update(c: bv32, s: Bytes): bv32
    decreases |s|
  {
    if s == [] then c else Update(Step(c, Bits(s[0])), s[1..])
  }

  function Flip(c: bv32): bv32 {
    c ^ 0xFFFF_FFFF
  }

  const INITIAL: bv32 := 0xFFFF_FFFF

  function Checksum(s: Bytes): bv32 {
    Flip(Update(INITIAL, s))
  }

  method ComputeUpdate(crc: bv32, s: Bytes) returns (r: bv32)
    ensures r == Update(crc, s)
  {
    hide Step;
    r := crc;
    for i := 0 to |s|
      invariant Update(r, s[i..]) == Update(crc, s)
    {
      assert s[i..][0] == s[i] && s[i..][1..] == s[i + 1..];
      r := Step(r, Bits(s[i]));
    }
  }

  lemma {:induction false} UpdateAppend(c: bv32, s: Bytes, t: Bytes)
    ensures Update(c, s + t) == Update(Update(c, s), t)
    decreases |s|
  {
    hide Step;
    if s == [] {
      assert s + t == t;
    } else {
      assert (s + t)[1..] == s[1..] + t;
      UpdateAppend(Step(c, Bits(s[0])), s[1..], t);
    }
  }

  lemma {:induction false} SuffixKeepsDifference(c: bv32, d: bv32, s: Bytes)
    requires c != d
    ensures Update(c, s) != Update(d, s)
    decreases |s|
  {
    hide Step;
    if s != [] {
      if Step(c, Bits(s[0])) == Step(d, Bits(s[0])) { StepInjective(c, d, Bits(s[0])); }
      SuffixKeepsDifference(Step(c, Bits(s[0])), Step(d, Bits(s[0])), s[1..]);
    }
  }

  /** Four steps from one state to another fix the four bytes. */
  lemma FourStepsTell(c: bv32, a0: bv8, a1: bv8, a2: bv8, a3: bv8, b0: bv8, b1: bv8, b2: bv8, b3: bv8)
    requires Step(Step(Step(Step(c, a0), a1), a2), a3) == Step(Step(Step(Step(c, b0), b1), b2), b3)
    ensures a0 == b0 && a1 == b1 && a2 == b2 && a3 == b3
  {
    var x1, y1 := Step(c, a0), Step(c, b0);
    var x2, y2 := Step(x1, a1), Step(y1, b1);
    var x3, y3 := Step(x2, a2), Step(y2, b2);
    hide Step, Index, Top, High2, High3;
    StepTells(x3, y3, a3, b3);
    Tops(x3, y3);
    StepTells(x2, y2, a2, b2);
    Tops(x2, y2);
    StepTells(x1, y1, a1, b1);
    StepTells(c, c, a0, b0);
    SameIndex(c, a0, b0);
    SameIndex(x1, a1, b1);
    SameIndex(x2, a2, b2);
    SameIndex(x3, a3, b3);
  }

  lemma SameIndex(c: bv32, a: bv8, b: bv8)
    requires Index(c, a) == Index(c, b)
    ensures a == b
  {
  }

  lemma WindowTells(c: bv32, s: Bytes, t: Bytes)
    requires |s| == |t| == 4 && Update(c, s) == Update(c, t)
    ensures s == t
  {
    hide Step;
    Unroll(c, s);
    Unroll(c, t);
    FourStepsTell(c, Bits(s[0]), Bits(s[1]), Bits(s[2]), Bits(s[3]), Bits(t[0]), Bits(t[1]), Bits(t[2]), Bits(t[3]));
    BitsInjective(s[0], t[0]);
    BitsInjective(s[1], t[1]);
    BitsInjective(s[2], t[2]);
    BitsInjective(s[3], t[3]);
  }

  lemma Unroll(c: bv32, s: Bytes)
    requires |s| == 4
    ensures Update(c, s) == Step(Step(Step(Step(c, Bits(s[0])), Bits(s[1])), Bits(s[2])), Bits(s[3]))
  {
    hide Step, Bits;
    assert s[1..][1..] == s[2..] && s[2..][1..] == s[3..] && s[3..][1..] == [];
    var c1 := Step(c, Bits(s[0]));
    var c2 := Step(c1, Bits(s[1]));
    var c3 := Step(c2, Bits(s[2]));
    assert Update(c, s) == Update(c1, s[1..]);
    assert Update(c1, s[1..]) == Update(c2, s[2..]);
    assert Update(c2, s[2..]) == Update(c3, s[3..]);
    assert Update(c3, s[3..]) == Update(Step(c3, Bits(s[3])), []);
  }

  /** Detection: two strings that differ only within four consecutive bytes have different
      checksums, whatever surrounds them. */
  lemma WindowDetected(before: Bytes, s: Bytes, t: Bytes, after: Bytes)
    requires |s| == |t| == 4 && s != t
    ensures Checksum(before + s + after) != Checksum(before + t + after)
  {
    var c := Update(INITIAL, before);
    hide Update, Flip;
    UpdateAppend(INITIAL, before + s, after);
    UpdateAppend(INITIAL, before, s);
    UpdateAppend(INITIAL, before + t, after);
    UpdateAppend(INITIAL, before, t);
    if Update(c, s) == Update(c, t) { WindowTells(c, s, t); }
    SuffixKeepsDifference(Update(c, s), Update(c, t), after);
    FinalXor(Update(Update(c, s), after), Update(Update(c, t), after));
  }

  lemma FlipTwice(x: bv32)
    ensures Flip(Flip(x)) == x
  {
    assert (x ^ 0xFFFF_FFFF) ^ 0xFFFF_FFFF == x;
  }

  lemma FinalXor(x: bv32, y: bv32)
    requires x != y
    ensures Flip(x) != Flip(y)
  {
    FlipTwice(x);
    FlipTwice(y);
    hide Flip;
  }

  // ----- as a number -----

  function AsNumber(c: bv32): U32 {
    c as nat
  }

  function Crc32(s: Bytes): U32 {
    AsNumber(Checksum(s))
  }

  lemma SameNumber(x: bv32, y: bv32)
    requires AsNumber(x) == AsNumber(y)
    ensures x == y
  {
    assert (x as nat) as bv32 == x;
    assert (y as nat) as bv32 == y;
  }

  /** Equal length, and equal outside the four bytes from `i`. */
  ghost predicate DifferWithin(s: Bytes, t: Bytes, i: nat) {
    && |s| == |t| && s != t
    && forall k :: 0 <= k < |s| && !(i <= k < i + 4) ==> s[k] == t[k]
  }

  lemma LongDetected(s: Bytes, t: Bytes, i: nat)
    requires DifferWithin(s, t, i) && i + 4 <= |s|
    ensures Checksum(s) != Checksum(t)
  {
    var a, b := s[i..i + 4], t[i..i + 4];
    assert s[..i] == t[..i] && s[i + 4..] == t[i + 4..];
    assert s == s[..i] + a + s[i + 4..];
    assert t == s[..i] + b + s[i + 4..];
    hide Checksum;
    WindowDetected(s[..i], a, b, s[i + 4..]);
  }

  lemma SameWithSuffix(s: Bytes, t: Bytes, z: Bytes)
    requires Checksum(s) == Checksum(t)
    ensures Checksum(s + z) == Checksum(t + z)
  {
    var x, y := Update(INITIAL, s), Update(INITIAL, t);
    hide Update, Flip;
    if x != y { FinalXor(x, y); }
    UpdateAppend(INITIAL, s, z);
    UpdateAppend(INITIAL, t, z);
  }

  /** Detection: two strings of one length, however short or long, that differ only within
      four consecutive bytes have different checksums. */
  lemma DifferenceDetected(s: Bytes, t: Bytes, i: nat)
    requires DifferWithin(s, t, i)
    ensures Crc32(s) != Crc32(t)
  {
    hide Checksum;
    var z: Bytes := [0, 0, 0, 0];
    var k :| 0 <= k < |s| && s[k] != t[k];
    assert (s + z)[k] != (t + z)[k];
    assert DifferWithin(s + z, t + z, i);
    LongDetected(s + z, t + z, i);
    if Crc32(s) == Crc32(t) {
      SameNumber(Checksum(s), Checksum(t));
      SameWithSuffix(s, t, z);
    }
  }
}
