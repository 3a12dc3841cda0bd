/**
 What the inputs and the digest of the vector-transform workload tell apart: every step of
 both mixers can be undone, so nothing is lost in them.
 */
module VectorDigest {
  import opened Basics
  import opened VectorKernel
  import opened VectorRuns

  // ----- inputs -----

  function Unfold16(x: bv32): bv32 {
    x ^ (x >> 16)
  }

  function Unfold15(x: bv32): bv32 {
    x ^ (x >> 15) ^ (x >> 30)
  }

  function Unspread(x: bv32): bv32 {
    x * 0x1D69_E2A5
  }

  function UnspreadAgain(x: bv32): bv32 {
    x * 0x4302_1123
  }

  lemma Shifted(x: bv32)
    ensures Unfold16(x ^ (x >> 16)) == x && Unfold15(x ^ (x >> 15)) == x
  {
  }

  lemma Folds16(x: bv32)
    ensures Unfold16(Fold16(x)) == x && Unfold15(Fold15(x)) == x
  {
    hide Unfold16, Unfold15;
    Shifted(x);
  }

  lemma Product(x: bv32)
    ensures Unspread(x * 0x7FEB_352D) == x
  {
  }

  lemma ProductAgain(x: bv32)
    ensures UnspreadAgain(x * 0x846C_A68B) == x
  {
  }

  lemma Spreads(x: bv32)
    ensures Unspread(Spread(x)) == x && UnspreadAgain(SpreadAgain(x)) == x
  {
    hide Unspread, UnspreadAgain;
    Product(x);
    ProductAgain(x);
  }

  lemma Unmixed(x: bv32)
    ensures Unfold16(Unspread(Unfold15(UnspreadAgain(Unfold16(Mix(x)))))) == x
  {
    hide Fold16, Fold15, Spread, SpreadAgain, Unfold16, Unfold15, Unspread, UnspreadAgain;
    Folds16(x);
    Spreads(Fold16(x));
    Folds16(Spread(Fold16(x)));
    Spreads(Fold15(Spread(Fold16(x))));
    Folds16(SpreadAgain(Fold15(Spread(Fold16(x)))));
  }

  /** Different words give different inputs. */
  lemma MixTells(x: bv32, y: bv32)
    ensures Mix(x) == Mix(y) <==> x == y
  {
    hide Mix, Unfold16, Unfold15, Unspread, UnspreadAgain;
    Unmixed(x);
    Unmixed(y);
  }

  // ----- the digest -----

  function Unfold30(x: bv64): bv64 {
    x ^ (x >> 30) ^ (x >> 60)
  }

  function Unfold27(x: bv64): bv64 {
    x ^ (x >> 27) ^ (x >> 54)
  }

  function Unfold31(x: bv64): bv64 {
    x ^ (x >> 31) ^ (x >> 62)
  }

  function Unstretch(x: bv64): bv64 {
    x * 0x96DE_1B17_3F11_9089
  }

  function UnstretchAgain(x: bv64): bv64 {
    x * 0x3196_42B2_D24D_8EC3
  }

  function Unstir(x: bv64, b: bv64): bv64 {
    (x * 0xCE96_5057_AFF6_957B) ^ b
  }

  lemma LongShifted(x: bv64)
    ensures Unfold30(x ^ (x >> 30)) == x && Unfold27(x ^ (x >> 27)) == x && Unfold31(x ^ (x >> 31)) == x
  {
  }

  lemma Folds(x: bv64)
    ensures Unfold30(Fold30(x)) == x && Unfold27(Fold27(x)) == x && Unfold31(Fold31(x)) == x
  {
    hide Unfold30, Unfold27, Unfold31;
    LongShifted(x);
  }

  lemma LongProduct(x: bv64)
    ensures Unstretch(x * 0xBF58_476D_1CE4_E5B9) == x
  {
  }

  lemma LongProductAgain(x: bv64)
    ensures UnstretchAgain(x * 0x94D0_49BB_1331_11EB) == x
  {
  }

  lemma Stretches(x: bv64)
    ensures Unstretch(Stretch(x)) == x && UnstretchAgain(StretchAgain(x)) == x
  {
    hide Unstretch, UnstretchAgain;
    LongProduct(x);
    LongProductAgain(x);
  }

  lemma Unfinished(x: bv64)
    ensures Unfold30(Unstretch(Unfold27(UnstretchAgain(Unfold31(Finish(x)))))) == x
  {
    hide Fold30, Fold27, Fold31, Stretch, StretchAgain, Unfold30, Unfold27, Unfold31, Unstretch, UnstretchAgain;
    Folds(x);
    Stretches(Fold30(x));
    Folds(Stretch(Fold30(x)));
    Stretches(Fold27(Stretch(Fold30(x))));
    Folds(StretchAgain(Fold27(Stretch(Fold30(x)))));
  }

  lemma FinishTells(x: bv64, y: bv64)
    ensures Finish(x) == Finish(y) <==> x == y
  {
    hide Finish, Unfold30, Unfold27, Unfold31, Unstretch, UnstretchAgain;
    Unfinished(x);
    Unfinished(y);
  }

  lemma StirProduct(h: bv64, b: bv64)
    ensures Unstir((h ^ b) * 0x100_0000_01B3, b) == h
  {
  }

  lemma Stirs(h: bv64, b: bv64)
    ensures Unstir(Stir(h, b), b) == h
  {
    hide Unstir;
    StirProduct(h, b);
  }

  /** The same bytes into different hashes give different hashes. */
  lemma {:induction false} AbsorbTells(g: bv64, h: bv64, w: bv64, k: nat)
    ensures Absorb(g, w, k) == Absorb(h, w, k) <==> g == h
    decreases k
  {
    hide Stir, Unstir;
    if k > 0 {
      AbsorbTells(Stir(g, w & 0xFF), Stir(h, w & 0xFF), w >> 8, k - 1);
      Stirs(g, w & 0xFF);
      Stirs(h, w & 0xFF);
    }
  }

  lemma XorTells(h: bv64, x: bv64, y: bv64)
    ensures Joined(h, x) == Joined(h, y) <==> x == y
  {
  }

  /** Two digests are the same if and only if the hashes and the sizes are: neither word loses
      anything. */
  lemma DigestTells(a: (nat, bv64), b: (nat, bv64), n: U64, m: U64, s: U32, t: U32)
    requires a.0 < TWO_64 && b.0 < TWO_64
    ensures Digest(a, n, s) == Digest(b, m, t) <==> Hashed(a, s) == Hashed(b, t) && Long(n) == Long(m)
  {
    hide Finish, Hashed, Long, Joined;
    FinishTells(Hashed(a, s), Hashed(b, t));
    var h := Finish(Hashed(a, s));
    FinishTells(Joined(h, Long(n)), Joined(h, Long(m)));
    XorTells(h, Long(n), Long(m));
  }

  /** The same accumulators and size under different seeds never give the same digest. */
  lemma SeedsTell(acc: (nat, bv64), n: U64, s: U32, t: U32)
    requires acc.0 < TWO_64
    ensures Digest(acc, n, s) == Digest(acc, n, t) <==> Long(s) == Long(t)
  {
    hide Digest, Absorb, Long, Joined;
    DigestTells(acc, acc, n, n, s, t);
    var g, h, w := Joined(OFFSET, Long(s)), Joined(OFFSET, Long(t)), Long(acc.0);
    AbsorbTells(Absorb(g, w, 8), Absorb(h, w, 8), acc.1, 8);
    AbsorbTells(g, h, w, 8);
    XorTells(OFFSET, Long(s), Long(t));
  }

  // ----- one digest in full -----

  lemma FirstWord()
    ensures Absorb(0xCBF2_9CE4_8422_2324, 0x102, 8) == 0x8D15_3AC5_84DD_56C1
  {
  }

  lemma SecondWord()
    ensures Absorb(0x8D15_3AC5_84DD_56C1, 0x3, 8) == 0x17FE_36B7_AEBA_4302
  {
  }

  lemma Ends()
    ensures Finish(0x17FE_36B7_AEBA_4302) == 0x4DE2_97BD_4232_6CCF
    ensures Finish(0x4DE2_97BD_4232_6CCD) == 0xBD18_B8C6_8921_8E15
  {
  }

  lemma Longs()
    ensures Long(1) == 1 && Long(2) == 2 && Long(258) == 0x102
  {
  }

  /** The digest of the sum 258 and the XOR 3 for a run of two elements from seed 1. */
  lemma KnownDigest()
    ensures Digest((258, 3), 2, 1) == (0x4DE2_97BD_4232_6CCF, 0xBD18_B8C6_8921_8E15)
  {
    Longs();
    FirstWord();
    SecondWord();
    Ends();
    hide Finish, Absorb, Long;
  }
}
