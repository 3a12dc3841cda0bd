/**
 Whole runs of the vector-transform workload: the inputs, the accumulators, the digest, and
 what becomes of elements the GPU never computes.
 */
module VectorRuns {
  import opened Basics
  import opened VectorKernel

  const CPU_LIMIT := 64_000_000
  const GPU_LIMIT := 4_000_000
  const COVERED := THREADS * MAX_BLOCKS  // the most elements a launch computes

  // ----- inputs -----

  function Fold16(x: bv32): bv32 {
    x ^ (x >> 16)
  }

  function Fold15(x: bv32): bv32 {
    x ^ (x >> 15)
  }

  function Spread(x: bv32): bv32 {
    x * 0x7FEB_352D
  }

  function SpreadAgain(x: bv32): bv32 {
    x * 0x846C_A68B
  }

  function Mix(x: bv32): bv32 {
    Fold16(SpreadAgain(Fold15(Spread(Fold16(x)))))
  }

  /** The input of element `i`. */
  function Input(i: nat, seed: U32): U32 {
    Number(Mix(Word((i + seed) % TWO_32)))
  }

  function Word(n: U32): bv32 {
    n as bv32
  }

  function Number(x: bv32): U32 {
    x as nat
  }

  function Inputs(n: nat, seed: U32): (x: seq<U32>)
    ensures |x| == n && forall i :: 0 <= i < n ==> x[i] == Input(i, seed)
  {
    if n == 0 then [] else Inputs(n - 1, seed) + [Input(n - 1, seed)]
  }

  /** The size asked for; none means one. */
  function Asked(n: U64): U64 {
    if n > 0 then n else 1
  }

  /** The GPU does no more than its limit, whatever was asked. */
  function GpuSize(n: U64): U64 {
    if Asked(n) > GPU_LIMIT then GPU_LIMIT else Asked(n)
  }

  const MULTIPLIER: U32 := 4007239790

  lemma MixOne()
    ensures Mix(1) == 0x6889_90C0
  {
  }

  lemma WordOne()
    ensures Word(1) == 1
  {
  }

  lemma NumberOne()
    ensures Number(0x6889_90C0) == 1753845952
  {
  }

  lemma FirstInput()
    ensures Input(0, 1) == 1753845952
  {
    MixOne();
    WordOne();
    NumberOne();
    hide Mix, Word, Number;
  }

  lemma FirstProduct()
    ensures 1753845952 * MULTIPLIER % MODULUS == MODULUS - 1
  {
    assert 1753845952 * MULTIPLIER == 1636352690 * MODULUS + (MODULUS - 1);
  }

  /** For every addend above five some generated element wraps. */
  lemma WrapsSomewhere(b: U32)
    requires b > 5
    ensures Wraps(Input(0, 1), MULTIPLIER, b)
  {
    FirstInput();
    FirstProduct();
    hide Input;
  }

  // ----- accumulators -----

  function MixIn(hi: bv64, y: U32): bv64 {
    hi ^ ((y as bv64) << 1)
  }

  /** The XOR of the doubled elements. */
  function Mixed(y: seq<U32>, m: nat): bv64
    requires m <= |y|
  {
    if m == 0 then 0 else MixIn(Mixed(y, m - 1), y[m - 1])
  }

  /** What the digest is made from. */
  function Accumulated(y: seq<U32>): (nat, bv64) {
    (SumTo(y, |y|), Mixed(y, |y|))
  }

  method Accumulate(lo: nat, hi: bv64, y: U32) returns (lo1: nat, hi1: bv64)
    ensures lo1 == (lo + y) % TWO_64 && hi1 == MixIn(hi, y)
  {
    lo1, hi1 := (lo + y) % TWO_64, MixIn(hi, y);
  }

  /** A sum that does not leave 64 bits. */
  lemma Fits(y: seq<U32>, i: nat)
    requires i < |y| <= CPU_LIMIT
    ensures (SumTo(y, i) + y[i]) % TWO_64 == SumTo(y, i + 1)
  {
    SumBound(y, i + 1);
    TotalBound(i + 1);
  }

  lemma TotalBound(m: nat)
    requires m <= CPU_LIMIT
    ensures m * (TWO_32 - 1) < TWO_64
  {
  }

  /** The accumulator loop over elements already computed. */
  method HostFold(y: seq<U32>) returns (lo: nat, hi: bv64)
    requires |y| <= CPU_LIMIT
    ensures (lo, hi) == Accumulated(y)
  {
    hide MixIn, Mixed, SumTo;
    lo, hi := 0, 0;
    Nothing(y);
    for i := 0 to |y|
      invariant lo == SumTo(y, i) && hi == Mixed(y, i)
    {
      NextElement(y, i, y[i]);
      lo, hi := Accumulate(lo, hi, y[i]);
    }
  }

  // ----- the CPU -----

  function CpuElements(n: nat, a: U32, b: U32, seed: U32): (y: seq<U32>)
    ensures |y| == n && forall i :: 0 <= i < n ==> y[i] == CpuElement(Input(i, seed), a, b)
  {
    if n == 0 then [] else CpuElements(n - 1, a, b, seed) + [CpuElement(Input(n - 1, seed), a, b)]
  }

  lemma Nothing(y: seq<U32>)
    ensures SumTo(y, 0) == 0 && Mixed(y, 0) == 0
  {
  }

  /** One more element accumulated. */
  lemma NextElement(y: seq<U32>, i: nat, e: U32)
    requires i < |y| <= CPU_LIMIT && y[i] == e
    ensures (SumTo(y, i) + e) % TWO_64 == SumTo(y, i + 1) && MixIn(Mixed(y, i), e) == Mixed(y, i + 1)
  {
    Fits(y, i);
  }

  method CpuFold(size: nat, a: U32, b: U32, seed: U32) returns (lo: nat, hi: bv64)
    requires size <= CPU_LIMIT
    ensures (lo, hi) == Accumulated(CpuElements(size, a, b, seed))
  {
    hide CpuElement, CpuElements, MixIn, Mixed, SumTo, Input;
    ghost var ys := CpuElements(size, a, b, seed);
    lo, hi := 0, 0;
    Nothing(ys);
    for i := 0 to size
      invariant lo == SumTo(ys, i) && hi == Mixed(ys, i)
    {
      var e := CpuElement(Input(i, seed), a, b);
      NextElement(ys, i, e);
      lo, hi := Accumulate(lo, hi, e);
    }
  }

  /** The sequential sum and XOR over the CPU's elements; too large a size is refused. */
  method CpuRun(n: U64, a: U32, b: U32, seed: U32) returns (r: Option<(nat, bv64)>)
    ensures Asked(n) > CPU_LIMIT ==> r == None
    ensures Asked(n) <= CPU_LIMIT ==> r == Some(Accumulated(CpuElements(Asked(n), a, b, seed)))
  {
    hide CpuElements, Accumulated;
    if Asked(n) > CPU_LIMIT {
      return None;
    }
    var lo, hi := CpuFold(Asked(n), a, b, seed);
    return Some((lo, hi));
  }

  // ----- the GPU -----

  /** What the device memory holds after the launch: elements as far as the launch reaches,
      and beyond that whatever was there before. */
  function DeviceOutput(n: nat, a: U32, b: U32, seed: U32, memory: seq<U32>): (y: seq<U32>)
    requires |memory| == n
    ensures |y| == n
    ensures forall i :: 0 <= i < n ==> y[i] == if i < COVERED then GpuElement(Input(i, seed), a, b) else memory[i]
  {
    seq(n, i requires 0 <= i < n => if i < COVERED then GpuElement(Input(i, seed), a, b) else memory[i])
  }

  lemma {:induction false} TailSum(y: seq<U32>, k: nat, m: nat)
    requires k <= m <= |y|
    ensures SumTo(y, k) <= SumTo(y, m)
    ensures SumTo(y, k) == SumTo(y, m) <==> forall i :: k <= i < m ==> y[i] == 0
    decreases m - k
  {
    if k < m {
      TailSum(y, k, m - 1);
    }
  }

  lemma Reach(n: nat)
    ensures Min(THREADS * Blocks(n), n) == Min(COVERED, n)
  {
  }

  /** The elements are reduced on the device and again on the host, and the run succeeds only
      if the sums match. They do if and only if the memory beyond the launch happens to be
      zero: always up to 4096 blocks of 256. */
  method GpuRun(n: U64, a: U32, b: U32, seed: U32, memory: seq<U32>) returns (r: Option<(nat, bv64)>)
    requires |memory| == GpuSize(n)
    ensures r.Some? <==> forall i :: COVERED <= i < |memory| ==> memory[i] == 0
    ensures r.Some? ==> r.value == Accumulated(DeviceOutput(GpuSize(n), a, b, seed, memory))
  {
    var size := GpuSize(n);
    var y := DeviceOutput(size, a, b, seed, memory);
    hide DeviceOutput, MixIn, GpuElement, Input;
    SumBound(y, |y|);
    TotalBound(|y|);
    var device := ReduceAll(y, Blocks(|y|));
    Reach(|y|);
    var lo, hi := HostFold(y);
    if COVERED < size {
      TailSum(y, COVERED, size);
    }
    if device != lo {
      return None;
    }
    return Some((lo, hi));
  }

  // ----- the two together -----

  function Fold30(x: bv64): bv64 {
    x ^ (x >> 30)
  }

  function Fold27(x: bv64): bv64 {
    x ^ (x >> 27)
  }

  function Fold31(x: bv64): bv64 {
    x ^ (x >> 31)
  }

  function Stretch(x: bv64): bv64 {
    x * 0xBF58_476D_1CE4_E5B9
  }

  function StretchAgain(x: bv64): bv64 {
    x * 0x94D0_49BB_1331_11EB
  }

  /** 64-bit finaliser of the digest. */
  function Finish(x: bv64): bv64 {
    Fold31(StretchAgain(Fold27(Stretch(Fold30(x)))))
  }

  /** One byte into the hash. */
  function Stir(h: bv64, b: bv64): bv64 {
    (h ^ b) * 0x100_0000_01B3
  }

  /** The next `k` bytes of a word, lowest first, into the hash. */
  function Absorb(h: bv64, w: bv64, k: nat): bv64
    decreases k
  {
    if k == 0 then h else Absorb(Stir(h, w & 0xFF), w >> 8, k - 1)
  }

  function Long(n: U64): bv64 {
    n as bv64
  }

  function Joined(x: bv64, y: bv64): bv64 {
    x ^ y
  }

  const OFFSET: bv64 := 0xCBF2_9CE4_8422_2325

  /** The two accumulators into the hash that starts from the seed. */
  function Hashed(acc: (nat, bv64), seed: U32): bv64
    requires acc.0 < TWO_64
  {
    Absorb(Absorb(Joined(OFFSET, Long(seed)), Long(acc.0), 8), acc.1, 8)
  }

  /** The sixteen output bytes, as two words. */
  function Digest(acc: (nat, bv64), n: U64, seed: U32): (bv64, bv64)
    requires acc.0 < TWO_64
  {
    var h0 := Finish(Hashed(acc, seed));
    (h0, Finish(Joined(h0, Long(n))))
  }

  lemma AccumulatedFits(y: seq<U32>)
    requires |y| <= CPU_LIMIT
    ensures Accumulated(y).0 < TWO_64
  {
    SumBound(y, |y|);
    TotalBound(|y|);
  }

  /** On every size a launch covers, whatever the memory held: the GPU's elements are the
      CPU's if and only if no element wraps, and then both come to the same accumulators and
      the same digest. */
  lemma DevicesAgreeIff(n: U64, a: U32, b: U32, seed: U32, memory: seq<U32>)
    requires Asked(n) <= COVERED && |memory| == GpuSize(n)
    ensures GpuSize(n) == Asked(n)
    ensures var cpu, gpu := CpuElements(Asked(n), a, b, seed), DeviceOutput(GpuSize(n), a, b, seed, memory);
            && (gpu == cpu <==> forall i :: 0 <= i < Asked(n) ==> !Wraps(Input(i, seed), a, b))
            && Accumulated(cpu).0 < TWO_64 && Accumulated(gpu).0 < TWO_64
            && (gpu == cpu ==> Digest(Accumulated(gpu), n, seed) == Digest(Accumulated(cpu), n, seed))
  {
    var size := Asked(n);
    var cpu, gpu := CpuElements(size, a, b, seed), DeviceOutput(size, a, b, seed, memory);
    AccumulatedFits(cpu);
    AccumulatedFits(gpu);
    hide Accumulated, Digest, CpuElements, DeviceOutput, Input;
    forall i | 0 <= i < size
      ensures gpu[i] == cpu[i] <==> !Wraps(Input(i, seed), a, b)
    {
      ElementsAgreeIff(Input(i, seed), a, b);
    }
    hide CpuElement, GpuElement, Wraps;
    if gpu == cpu {
      forall i | 0 <= i < size ensures !Wraps(Input(i, seed), a, b) {
        assert gpu[i] == cpu[i];
      }
    }
  }

  /** Beyond that the GPU's elements are the CPU's only if the memory held them already. */
  lemma UncoveredElements(n: U64, a: U32, b: U32, seed: U32, memory: seq<U32>, i: nat)
    requires |memory| == GpuSize(n) && COVERED <= i < GpuSize(n)
    ensures DeviceOutput(GpuSize(n), a, b, seed, memory)[i] == CpuElements(GpuSize(n), a, b, seed)[i]
            <==> memory[i] == CpuElement(Input(i, seed), a, b)
  {
  }
}
