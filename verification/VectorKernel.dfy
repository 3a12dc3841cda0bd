/**
 The vector-transform workload on the CPU and on the GPU: the element arithmetic and the tree
 reduction between barriers.
 */
module VectorKernel {
  import opened Basics

  const MODULUS := 0xFFFF_FFFB
  const THREADS := 256
  const MAX_BLOCKS := 4096

  // ----- one element -----

  /** Multiply in 64 bits and reduce, then add in 32 bits and reduce. */
  function CpuElement(x: U32, a: U32, b: U32): U32 {
    (x * a % MODULUS + b) % TWO_32 % MODULUS
  }

  /** Multiply and add in 64 bits, then reduce. */
  function GpuElement(x: U32, a: U32, b: U32): U32 {
    (x * a + b) % TWO_64 % MODULUS
  }

  /** The CPU's 32-bit addition leaves its range. */
  predicate Wraps(x: U32, a: U32, b: U32) {
    x * a % MODULUS + b >= TWO_32
  }

  lemma ProductFits(x: U32, a: U32, b: U32)
    ensures 0 <= x * a + b < TWO_64
  {
    Monotone(x, TWO_32 - 1, a);
  }

  lemma Monotone(x: nat, y: nat, z: nat)
    requires x <= y
    ensures x * z <= y * z
  {
  }

  /** Both reduce the same number when nothing wraps; when the addition wraps, the GPU's
      element is the CPU's plus five, modulo the modulus. */
  lemma ElementsCompared(x: U32, a: U32, b: U32)
    ensures !Wraps(x, a, b) ==> GpuElement(x, a, b) == CpuElement(x, a, b)
    ensures Wraps(x, a, b) ==> GpuElement(x, a, b) == (CpuElement(x, a, b) + 5) % MODULUS
  {
    ProductFits(x, a, b);
    Compared(x * a, b);
  }

  lemma Compared(p: nat, b: U32)
    requires p + b < TWO_64
    ensures var c := (p % MODULUS + b) % TWO_32 % MODULUS;
            var g := (p + b) % TWO_64 % MODULUS;
            g == if p % MODULUS + b < TWO_32 then c else (c + 5) % MODULUS
  {
    AddThenReduce(p, b);
    Small(p % MODULUS, b);
  }

  lemma AddThenReduce(p: nat, b: nat)
    ensures (p + b) % MODULUS == (p % MODULUS + b) % MODULUS
  {
    var q, r := p / MODULUS, p % MODULUS;
    assert p == q * MODULUS + r;
  }

  lemma Small(r: nat, b: U32)
    requires r < MODULUS
    ensures var c := (r + b) % TWO_32 % MODULUS;
            (r + b) % MODULUS == if r + b < TWO_32 then c else (c + 5) % MODULUS
  {
    if r + b >= TWO_32 {
      var w := r + b - TWO_32;
      assert w < MODULUS && (r + b) % TWO_32 == w;
      assert r + b == w + 5 + MODULUS;
    }
  }

  /** The two devices agree on an element exactly when the CPU's addition does not wrap, and
      it never does for an addend of at most five. */
  lemma ElementsAgreeIff(x: U32, a: U32, b: U32)
    ensures GpuElement(x, a, b) == CpuElement(x, a, b) <==> !Wraps(x, a, b)
    ensures b <= 5 ==> !Wraps(x, a, b)
  {
    ElementsCompared(x, a, b);
    FiveApart(CpuElement(x, a, b));
  }

  lemma FiveApart(c: nat)
    requires c < MODULUS
    ensures (c + 5) % MODULUS != c
  {
  }

  // ----- sums -----

  function SumTo(q: seq<nat>, m: nat): nat
    requires m <= |q|
  {
    if m == 0 then 0 else SumTo(q, m - 1) + q[m - 1]
  }

  lemma {:induction false} TermBound(q: seq<nat>, i: nat, m: nat)
    requires i < m <= |q|
    ensures q[i] <= SumTo(q, m)
    decreases m
  {
    if i < m - 1 {
      TermBound(q, i, m - 1);
    }
  }

  lemma {:induction false} TwoTerms(q: seq<nat>, i: nat, j: nat, m: nat)
    requires i < j < m <= |q|
    ensures q[i] + q[j] <= SumTo(q, m)
    decreases m
  {
    if j < m - 1 {
      TwoTerms(q, i, j, m - 1);
    } else {
      TermBound(q, i, m - 1);
    }
  }

  // ----- one block: the tree reduction -----

  /** One round between barriers: the lower threads each add the entry `s` above. */
  function Round(q: seq<nat>, s: nat): (r: seq<nat>)
    requires 2 * s <= |q|
    ensures |r| == |q|
  {
    seq(|q|, k requires 0 <= k < |q| => if k < s then (q[k] + q[k + s]) % TWO_64 else q[k])
  }

  lemma {:induction false} PairsAdded(q: seq<nat>, r: seq<nat>, s: nat, k: nat)
    requires 2 * s <= |q| && |r| == |q| && k <= s
    requires forall i :: 0 <= i < s ==> r[i] == q[i] + q[i + s]
    ensures SumTo(r, k) + SumTo(q, s) == SumTo(q, k) + SumTo(q, s + k)
    decreases k
  {
    if k > 0 {
      PairsAdded(q, r, s, k - 1);
    }
  }

  /** A round keeps the sum of the live entries, as long as it fits in 64 bits. */
  lemma RoundKeepsSum(q: seq<nat>, s: nat)
    requires 2 * s <= |q| && SumTo(q, 2 * s) < TWO_64
    ensures SumTo(Round(q, s), s) == SumTo(q, 2 * s)
  {
    hide Round, SumTo;
    forall i | 0 <= i < s ensures Round(q, s)[i] == q[i] + q[i + s] {
      RoundEntry(q, s, i);
    }
    PairsAdded(q, Round(q, s), s, s);
  }

  lemma RoundEntry(q: seq<nat>, s: nat, i: nat)
    requires 2 * s <= |q| && SumTo(q, 2 * s) < TWO_64 && i < s
    ensures Round(q, s)[i] == q[i] + q[i + s]
  {
    TwoTerms(q, i, i + s, 2 * s);
    hide SumTo;
  }

  function Below(s: nat): (r: set<nat>)
    ensures forall k: nat :: k in r <==> k < s
  {
    if s == 0 then {} else Below(s - 1) + {s - 1}
  }

  /** The threads of a round run in any order. */
  method RunRound(sh: array<nat>, s: nat)
    requires 2 * s <= sh.Length
    modifies sh
    ensures sh[..] == Round(old(sh[..]), s)
  {
    ghost var q := sh[..];
    var todo := Below(s);
    while todo != {}
      invariant forall k: nat :: k in todo ==> k < s
      invariant forall k: nat :: k in todo ==> sh[k] == q[k]
      invariant forall k: nat :: s <= k < sh.Length ==> sh[k] == q[k]
      invariant forall k: nat :: k < s && k !in todo ==> sh[k] == (q[k] + q[k + s]) % TWO_64
    {
      var tid: nat :| tid in todo;
      sh[tid] := (sh[tid] + sh[tid + s]) % TWO_64;
      todo := todo - {tid};
    }
  }

  /** Halving rounds leave the block's sum in the first entry, whatever the order of the
      threads within each. */
  method ReduceBlock(sh: array<nat>)
    requires sh.Length == THREADS && SumTo(sh[..], THREADS) < TWO_64
    modifies sh
    ensures sh[0] == SumTo(old(sh[..]), THREADS)
  {
    ghost var total := SumTo(sh[..], THREADS);
    var s := THREADS / 2;
    while s > 0
      invariant s in {0, 1, 2, 4, 8, 16, 32, 64, 128}
      invariant SumTo(sh[..], if s == 0 then 1 else 2 * s) == total
    {
      RoundKeepsSum(sh[..], s);
      RunRound(sh, s);
      s := s / 2;
    }
    assert SumTo(sh[..], 1) == SumTo(sh[..], 0) + sh[0];
  }

  // ----- all blocks -----

  function Min(a: nat, b: nat): nat {
    if a <= b then a else b
  }

  function Blocks(n: nat): nat {
    Min((n + THREADS - 1) / THREADS, MAX_BLOCKS)
  }

  ghost predicate Loaded(q: seq<nat>, y: seq<nat>, base: nat) {
    |q| == THREADS && forall k :: 0 <= k < THREADS ==> q[k] == if base + k < |y| then y[base + k] else 0
  }

  lemma {:induction false} LoadedSum(q: seq<nat>, y: seq<nat>, base: nat, k: nat)
    requires Loaded(q, y, base) && k <= THREADS
    ensures SumTo(q, k) + SumTo(y, Min(base, |y|)) == SumTo(y, Min(base + k, |y|))
    decreases k
  {
    if k > 0 {
      LoadedSum(q, y, base, k - 1);
    }
  }

  /** The first `blocks` blocks together cover the first `256 * blocks` elements. */
  method ReduceAll(y: seq<U32>, blocks: nat) returns (sum: nat)
    requires blocks <= MAX_BLOCKS && SumTo(y, |y|) < TWO_64
    ensures sum == SumTo(y, Min(THREADS * blocks, |y|))
  {
    var partial := new nat[blocks];
    for j := 0 to blocks
      invariant forall i :: 0 <= i < j ==>
                  partial[i] + SumTo(y, Min(THREADS * i, |y|)) == SumTo(y, Min(THREADS * (i + 1), |y|))
    {
      partial[j] := OneBlock(y, j);
    }
    sum := 0;
    for j := 0 to blocks
      invariant sum == SumTo(y, Min(THREADS * j, |y|))
      invariant forall i :: 0 <= i < blocks ==>
                  partial[i] + SumTo(y, Min(THREADS * i, |y|)) == SumTo(y, Min(THREADS * (i + 1), |y|))
    {
      SumGrows(y, Min(THREADS * (j + 1), |y|), |y|);
      assert sum + partial[j] == SumTo(y, Min(THREADS * (j + 1), |y|));
      sum := (sum + partial[j]) % TWO_64;
    }
  }

  method OneBlock(y: seq<U32>, j: nat) returns (out: nat)
    requires SumTo(y, |y|) < TWO_64
    ensures out + SumTo(y, Min(THREADS * j, |y|)) == SumTo(y, Min(THREADS * (j + 1), |y|))
  {
    var sh := new nat[THREADS](k => 0);
    for tid := 0 to THREADS
      invariant forall k :: 0 <= k < tid ==> sh[k] == if THREADS * j + k < |y| then y[THREADS * j + k] else 0
    {
      var i := THREADS * j + tid;
      sh[tid] := if i < |y| then y[i] else 0;
    }
    assert Loaded(sh[..], y, THREADS * j);
    LoadedSum(sh[..], y, THREADS * j, THREADS);
    SumGrows(y, Min(THREADS * j + THREADS, |y|), |y|);
    ReduceBlock(sh);
    out := sh[0];
  }

  lemma {:induction false} SumGrows(q: seq<nat>, i: nat, m: nat)
    requires i <= m <= |q|
    ensures SumTo(q, i) <= SumTo(q, m)
    decreases m - i
  {
    if i < m {
      SumGrows(q, i, m - 1);
    }
  }

  lemma {:induction false} SumBound(q: seq<U32>, m: nat)
    requires m <= |q|
    ensures SumTo(q, m) <= m * (TWO_32 - 1)
    decreases m
  {
    if m > 0 {
      SumBound(q, m - 1);
    }
  }
}
