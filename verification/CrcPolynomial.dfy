/**
 The checksum against the polynomial it is named after (section 8 of RFC 1952): the table
 departs from it in one entry, and the checksum where that entry is used.
 */
module CrcPolynomial {
  import opened Basics
  import opened Crc

  // ----- one entry -----

  function Xor(x: bv32, y: bv32): bv32 {
    x ^ y
  }

  function Half(c: bv32): bv32 {
    c >> 1
  }

  /** What the low bit feeds back: the reflected polynomial, or nothing. */
  function Feed(c: bv32): bv32 {
    if c & 1 == 0 then 0 else 0xEDB8_8320
  }

  /** One bit of the division. */
  function Shift(c: bv32): bv32 {
    Xor(Half(c), Feed(c))
  }

  function Shift4(c: bv32): bv32 {
    Shift(Shift(Shift(Shift(c))))
  }

  function Shift8(c: bv32): bv32 {
    Shift4(Shift4(c))
  }

  /** The entry the polynomial gives for `i`. */
  function Entry(i: bv8): bv32 {
    Shift8(i as bv32)
  }

  const ODD_ONE: bv8 := 42

  // ----- entries as sums of eight -----

  function On(i: bv8, mask: bv8, t: bv32): bv32 {
    if i & mask == 0 then 0 else t
  }

  /** The entry for `i`, from those for its bits. */
  function Summed(i: bv8): bv32 {
    Xor(Xor(Xor(On(i, 1, 0x7707_3096), On(i, 2, 0xEE0E_612C)), Xor(On(i, 4, 0x076D_C419), On(i, 8, 0x0EDB_8832))),
        Xor(Xor(On(i, 16, 0x1DB7_1064), On(i, 32, 0x3B6E_20C8)), Xor(On(i, 64, 0x76DC_4190), On(i, 128, 0xEDB8_8320))))
  }

  lemma Eighth0Entries(i: bv8)
    requires i < 0x20
    ensures Quarter0(i) == Summed(i)
  {
  }

  lemma Eighth1Entries(i: bv8)
    requires 0x20 <= i < 0x40
    ensures Quarter0(i) == Summed(i) <==> i != ODD_ONE
  {
  }

  lemma Eighth2Entries(i: bv8)
    requires 0x40 <= i < 0x60
    ensures Quarter1(i) == Summed(i)
  {
  }

  lemma Eighth3Entries(i: bv8)
    requires 0x60 <= i < 0x80
    ensures Quarter1(i) == Summed(i)
  {
  }

  lemma Eighth4Entries(i: bv8)
    requires 0x80 <= i < 0xA0
    ensures Quarter2(i) == Summed(i)
  {
  }

  lemma Eighth5Entries(i: bv8)
    requires 0xA0 <= i < 0xC0
    ensures Quarter2(i) == Summed(i)
  {
  }

  lemma Eighth6Entries(i: bv8)
    requires 0xC0 <= i < 0xE0
    ensures Quarter3(i) == Summed(i)
  {
  }

  lemma Eighth7Entries(i: bv8)
    requires 0xE0 <= i
    ensures Quarter3(i) == Summed(i)
  {
  }

  // ----- the division is linear -----

  lemma HalfLinear(x: bv32, y: bv32)
    ensures Half(Xor(x, y)) == Xor(Half(x), Half(y))
  {
    assert (x ^ y) >> 1 == (x >> 1) ^ (y >> 1);
  }

  lemma LowBit(x: bv32, y: bv32)
    ensures x & 1 == 0 || x & 1 == 1
    ensures (x ^ y) & 1 == (x & 1) ^ (y & 1)
  {
  }

  lemma FeedLinear(x: bv32, y: bv32)
    ensures Feed(Xor(x, y)) == Xor(Feed(x), Feed(y))
  {
    LowBit(x, y);
    LowBit(y, x);
    if x & 1 == 0 {
      assert (x ^ y) & 1 == y & 1;
    } else if y & 1 == 0 {
      assert (x ^ y) & 1 == 1;
    } else {
      assert (x ^ y) & 1 == 0;
    }
  }

  lemma XorAssociative(a: bv32, b: bv32, c: bv32)
    ensures Xor(Xor(a, b), c) == Xor(a, Xor(b, c))
  {
    assert (a ^ b) ^ c == a ^ (b ^ c);
  }

  lemma XorCommutative(a: bv32, b: bv32)
    ensures Xor(a, b) == Xor(b, a)
  {
    assert a ^ b == b ^ a;
  }

  lemma Exchange(a: bv32, b: bv32, c: bv32, d: bv32)
    ensures Xor(Xor(a, b), Xor(c, d)) == Xor(Xor(a, c), Xor(b, d))
  {
    hide Xor;
    XorAssociative(a, b, Xor(c, d));
    XorAssociative(b, c, d);
    XorCommutative(b, c);
    XorAssociative(c, b, d);
    XorAssociative(a, c, Xor(b, d));
  }

  lemma ShiftLinear(x: bv32, y: bv32)
    ensures Shift(Xor(x, y)) == Xor(Shift(x), Shift(y))
  {
    hide Xor, Half, Feed;
    HalfLinear(x, y);
    FeedLinear(x, y);
    Exchange(Half(x), Half(y), Feed(x), Feed(y));
  }

  lemma Shift4Linear(x: bv32, y: bv32)
    ensures Shift4(Xor(x, y)) == Xor(Shift4(x), Shift4(y))
  {
    hide Shift, Xor;
    ShiftLinear(x, y);
    ShiftLinear(Shift(x), Shift(y));
    ShiftLinear(Shift(Shift(x)), Shift(Shift(y)));
    ShiftLinear(Shift(Shift(Shift(x))), Shift(Shift(Shift(y))));
  }

  lemma Shift8Linear(x: bv32, y: bv32)
    ensures Shift8(Xor(x, y)) == Xor(Shift8(x), Shift8(y))
  {
    hide Shift4, Xor;
    Shift4Linear(x, y);
    Shift4Linear(Shift4(x), Shift4(y));
  }

  lemma FourOf(x: bv32, y: bv32, z: bv32, w: bv32)
    ensures Shift8(Xor(Xor(x, y), Xor(z, w))) == Xor(Xor(Shift8(x), Shift8(y)), Xor(Shift8(z), Shift8(w)))
  {
    hide Shift8, Xor;
    Shift8Linear(Xor(x, y), Xor(z, w));
    Shift8Linear(x, y);
    Shift8Linear(z, w);
  }

  lemma ShiftsOfBits()
    ensures Shift8(0) == 0
    ensures Shift8(1) == 0x7707_3096 && Shift8(2) == 0xEE0E_612C && Shift8(4) == 0x076D_C419 && Shift8(8) == 0x0EDB_8832
    ensures Shift8(16) == 0x1DB7_1064 && Shift8(32) == 0x3B6E_20C8 && Shift8(64) == 0x76DC_4190 && Shift8(128) == 0xEDB8_8320
  {
  }

  function Kept(i: bv8, mask: bv8): bv32 {
    (i & mask) as bv32
  }

  lemma TwoBits(i: bv8)
    ensures Xor(On(i, 1, 1), On(i, 2, 2)) == Kept(i, 3)
    ensures Xor(On(i, 4, 4), On(i, 8, 8)) == Kept(i, 12)
    ensures Xor(On(i, 16, 16), On(i, 32, 32)) == Kept(i, 48)
    ensures Xor(On(i, 64, 64), On(i, 128, 128)) == Kept(i, 192)
  {
  }

  lemma MoreBits(i: bv8)
    ensures Xor(Kept(i, 3), Kept(i, 12)) == Kept(i, 15) && Xor(Kept(i, 48), Kept(i, 192)) == Kept(i, 240)
    ensures Xor(Kept(i, 15), Kept(i, 240)) == i as bv32
  {
  }

  lemma LowBits(i: bv8)
    ensures i as bv32 == Xor(Xor(Xor(On(i, 1, 1), On(i, 2, 2)), Xor(On(i, 4, 4), On(i, 8, 8))),
                             Xor(Xor(On(i, 16, 16), On(i, 32, 32)), Xor(On(i, 64, 64), On(i, 128, 128))))
  {
    TwoBits(i);
    MoreBits(i);
    hide Xor, On, Kept;
  }

  /** The division is linear, so an entry is the sum of those for its bits. */
  lemma EntryIsSummed(i: bv8)
    ensures Entry(i) == Summed(i)
  {
    ShiftsOfBits();
    LowBits(i);
    hide Shift8, Xor;
    var x := Xor(Xor(On(i, 1, 1), On(i, 2, 2)), Xor(On(i, 4, 4), On(i, 8, 8)));
    var y := Xor(Xor(On(i, 16, 16), On(i, 32, 32)), Xor(On(i, 64, 64), On(i, 128, 128)));
    Shift8Linear(x, y);
    FourOf(On(i, 1, 1), On(i, 2, 2), On(i, 4, 4), On(i, 8, 8));
    FourOf(On(i, 16, 16), On(i, 32, 32), On(i, 64, 64), On(i, 128, 128));
  }

  /** Every entry but one is the polynomial's. */
  lemma TableIsPolynomialIff(i: bv8)
    ensures Table(i) == Entry(i) <==> i != ODD_ONE
  {
    EntryIsSummed(i);
    hide Quarter0, Quarter1, Quarter2, Quarter3, Entry, Summed;
    if i < 0x20 { Eighth0Entries(i); }
    else if i < 0x40 { Eighth1Entries(i); }
    else if i < 0x60 { Eighth2Entries(i); }
    else if i < 0x80 { Eighth3Entries(i); }
    else if i < 0xA0 { Eighth4Entries(i); }
    else if i < 0xC0 { Eighth5Entries(i); }
    else if i < 0xE0 { Eighth6Entries(i); }
    else { Eighth7Entries(i); }
  }

  // ----- one byte -----

  /** A byte fed in bit by bit, without a table. */
  function BitStep(c: bv32, b: bv8): bv32 {
    Shift8(Xor(c, b as bv32))
  }

  function Upper(c: bv32): bv32 {
    c & 0xFFFF_FF00
  }

  lemma Shift4High(c: bv32)
    ensures c & 0xF == 0 ==> Shift4(c) == c >> 4
  {
  }

  /** Where the low byte is zero, shifting is all there is. */
  lemma Shift8High(c: bv32)
    ensures Shift8(Upper(c)) == c >> 8
  {
    Shift4High(Upper(c));
    Shift4High(Upper(c) >> 4);
    hide Shift4;
    assert (c & 0xFFFF_FF00) >> 4 >> 4 == c >> 8;
  }

  lemma Split(c: bv32, z: bv32)
    requires z & 0xFFFF_FF00 == 0
    ensures c ^ z == (c & 0xFFFF_FF00) ^ ((c ^ z) & 0xFF)
  {
  }

  lemma IndexIs(c: bv32, b: bv8)
    ensures Index(c, b) as bv32 == (c ^ b as bv32) & 0xFF
    ensures (b as bv32) & 0xFFFF_FF00 == 0
  {
  }

  lemma UpperAndIndex(c: bv32, b: bv8)
    ensures Xor(c, b as bv32) == Xor(Upper(c), Index(c, b) as bv32)
  {
    IndexIs(c, b);
    hide Index;
    Split(c, b as bv32);
  }

  lemma MixedIs(c: bv32, t: bv32)
    ensures Mixed(c, t) == Xor(c >> 8, t)
  {
  }

  /** Bit by bit is the same as by a table of the polynomial's entries. */
  lemma BitStepIs(c: bv32, b: bv8)
    ensures BitStep(c, b) == Mixed(c, Entry(Index(c, b)))
  {
    hide Shift8, Index, Upper, Xor, Mixed;
    UpperAndIndex(c, b);
    Shift8Linear(Upper(c), Index(c, b) as bv32);
    Shift8High(c);
    MixedIs(c, Entry(Index(c, b)));
  }

  lemma MixedInjective(c: bv32, t: bv32, u: bv32)
    ensures Mixed(c, t) == Mixed(c, u) <==> t == u
  {
  }

  /** A step of the program is the polynomial's exactly when it does not use the odd entry. */
  lemma StepIsPolynomialIff(c: bv32, b: bv8)
    ensures Step(c, b) == BitStep(c, b) <==> Index(c, b) != ODD_ONE
  {
    BitStepIs(c, b);
    TableIsPolynomialIff(Index(c, b));
    hide Table, Entry, Mixed, BitStep, Index;
    MixedInjective(c, Table(Index(c, b)), Entry(Index(c, b)));
  }

  // ----- whole strings -----

  /** The polynomial's register after the bytes of `s`. */
  function BitUpdate(c: bv32, s: Bytes): bv32
    decreases |s|
  {
    if s == [] then c else BitUpdate(BitStep(c, Bits(s[0])), s[1..])
  }

  /** The polynomial's checksum. */
  function Reference(s: Bytes): U32 {
    AsNumber(Flip(BitUpdate(INITIAL, s)))
  }

  /** No step over `s` from `c` uses the odd entry. */
  predicate Regular(c: bv32, s: Bytes)
    decreases |s|
  {
    s == [] || (Index(c, Bits(s[0])) != ODD_ONE && Regular(Step(c, Bits(s[0])), s[1..]))
  }

  lemma {:induction false} RegularUpdate(c: bv32, s: Bytes)
    requires Regular(c, s)
    ensures Update(c, s) == BitUpdate(c, s)
    decreases |s|
  {
    hide Step, BitStep, Index;
    if s != [] {
      StepIsPolynomialIff(c, Bits(s[0]));
      RegularUpdate(Step(c, Bits(s[0])), s[1..]);
    }
  }

  /** The checksum is the polynomial's on every string that never uses the odd entry. */
  lemma ChecksumIsPolynomial(s: Bytes)
    requires Regular(INITIAL, s)
    ensures Crc32(s) == Reference(s)
  {
    hide Regular, Update, BitUpdate;
    RegularUpdate(INITIAL, s);
  }

  ghost predicate AgreeThroughout(c: bv32, s: Bytes) {
    forall k :: 0 <= k <= |s| ==> Update(c, s[..k]) == BitUpdate(c, s[..k])
  }

  lemma FirstBytes(c: bv32, s: Bytes)
    requires s != [] && AgreeThroughout(c, s)
    ensures Step(c, Bits(s[0])) == BitStep(c, Bits(s[0]))
    ensures AgreeThroughout(Step(c, Bits(s[0])), s[1..])
  {
    hide Step, BitStep;
    assert s[..1][1..] == [];
    assert Update(c, s[..1]) == Update(Step(c, Bits(s[0])), []);
    assert BitUpdate(c, s[..1]) == BitUpdate(BitStep(c, Bits(s[0])), []);
    forall k | 0 <= k <= |s| - 1
      ensures Update(Step(c, Bits(s[0])), s[1..][..k]) == BitUpdate(Step(c, Bits(s[0])), s[1..][..k])
    {
      assert s[..k + 1][1..] == s[1..][..k];
    }
  }

  lemma {:induction false} RegularPrefix(c: bv32, s: Bytes, k: nat)
    requires Regular(c, s) && k <= |s|
    ensures Regular(c, s[..k])
    decreases |s|
  {
    hide Step, Index;
    if k > 0 {
      assert s[..k][1..] == s[1..][..k - 1];
      RegularPrefix(Step(c, Bits(s[0])), s[1..], k - 1);
    }
  }

  /** Program and polynomial agree after every byte of a string if and only if no step uses
      the odd entry. */
  lemma {:induction false} AgreeIff(c: bv32, s: Bytes)
    ensures AgreeThroughout(c, s) <==> Regular(c, s)
    decreases |s|
  {
    if AgreeThroughout(c, s) && s != [] {
      FirstBytes(c, s);
      hide Step, BitStep, Index, AgreeThroughout;
      StepIsPolynomialIff(c, Bits(s[0]));
      AgreeIff(Step(c, Bits(s[0])), s[1..]);
    }
    hide Update, BitUpdate;
    if Regular(c, s) {
      forall k | 0 <= k <= |s|
        ensures Update(c, s[..k]) == BitUpdate(c, s[..k])
      {
        RegularPrefix(c, s, k);
        RegularUpdate(c, s[..k]);
      }
    }
  }

  /** The shortest string on which they differ. */
  lemma OneByteDiffers()
    ensures Crc32([213]) != Reference([213])
  {
    var b := Bits(213);
    assert b == 0xD5;
    assert Index(INITIAL, b) == ODD_ONE;
    StepIsPolynomialIff(INITIAL, b);
    hide Step, BitStep;
    var x, y := Step(INITIAL, b), BitStep(INITIAL, b);
    assert [213][1..] == [];
    assert Update(INITIAL, [213]) == Update(x, []) == x;
    assert BitUpdate(INITIAL, [213]) == BitUpdate(y, []) == y;
    FinalXor(x, y);
    hide Flip;
    if AsNumber(Flip(x)) == AsNumber(Flip(y)) {
      SameNumber(Flip(x), Flip(y));
    }
  }
}
