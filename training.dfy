/**
 * The bookkeeping of the training script `train_mn.py`: the observation
 * variance schedule with its in-place refilled buffers, the assembly of the
 * loss from the latent-parameter list, and the choice of this process's
 * shard of the dataset directory.
 */
module Training {
  import opened LstmModel

  // ---------------------------------------------------------------------
  // Observation variance schedule
  // ---------------------------------------------------------------------

  function Max(a: real, b: real): real
  {
    if a >= b then a else b
  }

  /**
   * The pixel standard deviation after `n` updates: linear from `si` at no
   * update to `sf` at `pixelN` updates, never below `sf`. The division is
   * Python's true division, which raises for `pixelN == 0`.
   */
  function Sigma(si: real, sf: real, n: nat, pixelN: real): (sigma: real)
    requires pixelN != 0.0
    ensures sigma >= sf
    ensures sigma == sf || sigma == sf + (si - sf) * (1.0 - n as real / pixelN)
  {
    Max(sf + (si - sf) * (1.0 - n as real / pixelN), sf)
  }

  /** A factor's sign is read off its product with a positive number. */
  lemma FactorSign(x: real, p: real)
    requires p > 0.0
    ensures x * p >= 0.0 ==> x >= 0.0
    ensures x * p > 0.0 ==> x > 0.0
  {
    if x < 0.0 {
      var m := -x;
      assert m * p > 0.0;
    } else if x == 0.0 {
      assert x * p == 0.0;
    }
  }

  /** Dividing by a positive number keeps the order of the numerators. */
  lemma QuotientOrder(a: real, b: real, p: real)
    requires p > 0.0 && a <= b
    ensures a / p <= b / p
    ensures a < b ==> a / p < b / p
  {
    var diff := b / p - a / p;
    assert diff * p == b - a;
    FactorSign(diff, p);
  }

  /** The linear part of the schedule does not grow, and strictly shrinks when `sf < si`, as the fraction of the horizon grows. */
  lemma LinearOrder(si: real, sf: real, qa: real, qb: real)
    requires sf <= si && qa <= qb
    ensures sf + (si - sf) * (1.0 - qb) <= sf + (si - sf) * (1.0 - qa)
    ensures sf < si && qa < qb ==> sf + (si - sf) * (1.0 - qb) < sf + (si - sf) * (1.0 - qa)
  {
    var d, gap := si - sf, qb - qa;
    assert (si - sf) * (1.0 - qa) - (si - sf) * (1.0 - qb) == d * gap;
    assert d * gap >= 0.0;
    if sf < si && qa < qb {
      assert d * gap > 0.0;
    }
  }

  /** With `sf < si`, the linear part of the schedule is not above `sf` exactly from `pixelN` updates on. */
  lemma LinearPartBelowFinal(si: real, sf: real, n: nat, pixelN: real)
    requires sf < si && pixelN > 0.0
    ensures sf + (si - sf) * (1.0 - n as real / pixelN) <= sf <==> n as real >= pixelN
  {
    assert pixelN / pixelN == 1.0;
    if n as real >= pixelN {
      QuotientOrder(pixelN, n as real, pixelN);
      LinearOrder(si, sf, 1.0, n as real / pixelN);
    } else {
      QuotientOrder(n as real, pixelN, pixelN);
      LinearOrder(si, sf, n as real / pixelN, 1.0);
    }
  }

  /** When `sf < si` the schedule equals `sf` exactly once `n >= pixelN`. */
  lemma SigmaReachesFinal(si: real, sf: real, n: nat, pixelN: real)
    requires sf < si && pixelN > 0.0
    ensures Sigma(si, sf, n, pixelN) == sf <==> n as real >= pixelN
  {
    LinearPartBelowFinal(si, sf, n, pixelN);
  }

  /** When `sf <= si` the schedule never increases from one update to a later one. */
  lemma SigmaNonIncreasing(si: real, sf: real, n: nat, m: nat, pixelN: real)
    requires sf <= si && pixelN > 0.0 && n <= m
    ensures Sigma(si, sf, m, pixelN) <= Sigma(si, sf, n, pixelN)
  {
    QuotientOrder(n as real, m as real, pixelN);
    LinearOrder(si, sf, n as real / pixelN, m as real / pixelN);
  }

  /** When `sf < si` the schedule strictly decreases until it reaches `sf`. */
  lemma SigmaDecreasing(si: real, sf: real, n: nat, m: nat, pixelN: real)
    requires sf < si && pixelN > 0.0 && n < m && m as real <= pixelN
    ensures Sigma(si, sf, m, pixelN) < Sigma(si, sf, n, pixelN)
  {
    assert pixelN / pixelN == 1.0;
    QuotientOrder(n as real, m as real, pixelN);
    QuotientOrder(m as real, pixelN, pixelN);
    LinearOrder(si, sf, n as real / pixelN, m as real / pixelN);
    LinearOrder(si, sf, m as real / pixelN, 1.0);
  }

  /** Before any update the formula gives `si` back whenever `si >= sf`. */
  lemma SigmaAtZero(si: real, sf: real, pixelN: real)
    requires sf <= si && pixelN != 0.0
    ensures Sigma(si, sf, 0, pixelN) == si
  {
    assert 0 as real / pixelN == 0.0;
  }

  /**
   * The observation variance state of the training loop: the update
   * counter, the current standard deviation and the two buffers
   * `pixel_var` and `pixel_ln_var` handed to the likelihood. The natural
   * logarithm is the parameter `ln`.
   */
  class PixelVariance {
    const sigmaI: real
    const sigmaF: real
    const pixelN: real
    const ln: real -> real
    var numUpdates: nat
    var sigmaT: real
    const pixelVar: array<real>
    const pixelLnVar: array<real>

    /** Every entry of both buffers holds the variance `s²` and its logarithm. */
    ghost predicate FilledWith(s: real)
      reads this, pixelVar, pixelLnVar
    {
      && (forall i :: 0 <= i < pixelVar.Length ==> pixelVar[i] == s * s)
      && (forall i :: 0 <= i < pixelLnVar.Length ==> pixelLnVar[i] == ln(s * s))
    }

    ghost predicate Valid()
      reads this, pixelVar, pixelLnVar
    {
      pixelVar != pixelLnVar && pixelVar.Length == pixelLnVar.Length && FilledWith(sigmaT)
    }

    /** `sigma_t = pixel_sigma_i` with both buffers of `size` entries filled from it, and no update yet. */
    constructor (si: real, sf: real, n: real, logarithm: real -> real, size: nat)
      ensures Valid() && sigmaT == si && numUpdates == 0
      ensures sigmaI == si && sigmaF == sf && pixelN == n && ln == logarithm
      ensures pixelVar.Length == size && fresh(pixelVar) && fresh(pixelLnVar)
    {
      sigmaI, sigmaF, pixelN, ln := si, sf, n, logarithm;
      numUpdates, sigmaT := 0, si;
      pixelVar := new real[size](_ => si * si);
      pixelLnVar := new real[size](_ => logarithm(si * si));
    }

    /** `buffer[...] = value`: overwrite every entry in place. */
    static method Fill(buffer: array<real>, value: real)
      modifies buffer
      ensures forall i :: 0 <= i < buffer.Length ==> buffer[i] == value
    {
      var i := 0;
      while i < buffer.Length
        invariant 0 <= i <= buffer.Length
        invariant forall k :: 0 <= k < i ==> buffer[k] == value
      {
        buffer[i] := value;
        i := i + 1;
      }
    }

    /**
     * After one optimiser update: count it, recompute the standard
     * deviation from the new count, and refill both buffers in place.
     */
    method RecordUpdate()
      requires Valid() && pixelN != 0.0
      modifies this, pixelVar, pixelLnVar
      ensures Valid()
      ensures numUpdates == old(numUpdates) + 1
      ensures sigmaT == Sigma(sigmaI, sigmaF, numUpdates, pixelN)
    {
      numUpdates := numUpdates + 1;
      sigmaT := Sigma(sigmaI, sigmaF, numUpdates, pixelN);
      var variance := sigmaT * sigmaT;
      var lnVariance := ln(variance);
      Fill(pixelVar, variance);
      Fill(pixelLnVar, lnVariance);
      assert sigmaT * sigmaT == variance;
    }
  }

  /**
   * `updates` optimiser updates from any valid state: the standard deviation
   * never falls below `sf`, and equals the schedule at the update count.
   */
  method RunUpdates(v: PixelVariance, updates: nat)
    requires v.Valid() && v.pixelN != 0.0
    modifies v, v.pixelVar, v.pixelLnVar
    ensures v.Valid() && v.numUpdates == old(v.numUpdates) + updates
    ensures updates > 0 ==> v.sigmaT == Sigma(v.sigmaI, v.sigmaF, v.numUpdates, v.pixelN) && v.sigmaT >= v.sigmaF
  {
    var k := 0;
    while k < updates
      invariant 0 <= k <= updates
      invariant v.Valid() && v.numUpdates == old(v.numUpdates) + k
      invariant k > 0 ==> v.sigmaT == Sigma(v.sigmaI, v.sigmaF, v.numUpdates, v.pixelN)
    {
      v.RecordUpdate();
      k := k + 1;
    }
  }

  // ---------------------------------------------------------------------
  // Loss assembly
  // ---------------------------------------------------------------------

  /** The KL term summed over the first `|params|` latent tuples, left to right. */
  function TotalKl(params: seq<LatentParams>, kl: LatentParams -> real): real
  {
    if params == [] then 0.0 else TotalKl(params[..|params| - 1], kl) + kl(params[|params| - 1])
  }

  /** The KL total of a concatenation is the sum of the totals. */
  lemma {:induction false} TotalKlAppend(a: seq<LatentParams>, b: seq<LatentParams>, kl: LatentParams -> real)
    ensures TotalKl(a + b, kl) == TotalKl(a, kl) + TotalKl(b, kl)
    decreases |b|
  {
    if b != [] {
      assert (a + b)[..|a + b| - 1] == a + b[..|b| - 1];
      TotalKlAppend(a, b[..|b| - 1], kl);
    } else {
      assert a + b == a;
    }
  }

  /** Non-negative per-tuple KL terms give a non-negative total. */
  lemma {:induction false} TotalKlNonNegative(params: seq<LatentParams>, kl: LatentParams -> real)
    requires forall p | p in params :: kl(p) >= 0.0
    ensures TotalKl(params, kl) >= 0.0
    decreases |params|
  {
    if params != [] {
      TotalKlNonNegative(params[..|params| - 1], kl);
    }
  }

  /**
   * The loss of one batch: the summed negative log-likelihood and the KL
   * terms of every latent tuple, each divided by the batch size.
   */
  method AssembleLoss(params: seq<LatentParams>, kl: LatentParams -> real, nllSum: real, batchSize: nat)
    returns (loss: real, lossNll: real, lossKld: real)
    requires batchSize != 0
    ensures lossKld == TotalKl(params, kl) / batchSize as real
    ensures lossNll == nllSum / batchSize as real
    ensures loss == lossNll + lossKld
  {
    lossKld := 0.0;
    var i := 0;
    while i < |params|
      invariant 0 <= i <= |params|
      invariant lossKld == TotalKl(params[..i], kl)
    {
      assert params[..i + 1][..i] == params[..i];
      lossKld := lossKld + kl(params[i]);
      i := i + 1;
    }
    assert params[..i] == params;
    lossNll := nllSum / batchSize as real;
    lossKld := lossKld / batchSize as real;
    loss := lossNll + lossKld;
  }

  // ---------------------------------------------------------------------
  // Dataset shard
  // ---------------------------------------------------------------------

  /** Python's string order: code point by code point, a proper prefix first. */
  predicate StrLe(a: string, b: string)
  {
    if |a| == 0 then true
    else if |b| == 0 then false
    else if a[0] != b[0] then a[0] < b[0]
    else StrLe(a[1..], b[1..])
  }

  /** Any two strings are ordered one way or the other. */
  lemma {:induction false} StrLeTotal(a: string, b: string)
    ensures StrLe(a, b) || StrLe(b, a)
    decreases |a|
  {
    if |a| > 0 && |b| > 0 && a[0] == b[0] {
      StrLeTotal(a[1..], b[1..]);
    }
  }

  /** Neighbouring entries are in order. */
  predicate SortedStrings(s: seq<string>)
  {
    forall i :: 0 <= i < |s| - 1 ==> StrLe(s[i], s[i + 1])
  }

  /** Insert `x` into a sorted list before the first entry not below it. */
  function Insert(x: string, s: seq<string>): (r: seq<string>)
    ensures multiset(r) == multiset(s) + multiset{x}
    ensures |r| == |s| + 1
    ensures r != [] && (r[0] == x || (s != [] && r[0] == s[0]))
  {
    if s == [] then [x]
    else if StrLe(x, s[0]) then [x] + s
    else
      assert s == [s[0]] + s[1..];
      [s[0]] + Insert(x, s[1..])
  }

  lemma {:induction false} InsertSorted(x: string, s: seq<string>)
    requires SortedStrings(s)
    ensures SortedStrings(Insert(x, s))
    decreases |s|
  {
    if s != [] && !StrLe(x, s[0]) {
      StrLeTotal(x, s[0]);
      InsertSorted(x, s[1..]);
      var tail := Insert(x, s[1..]);
      assert Insert(x, s) == [s[0]] + tail;
    }
  }

  /** `files.sort()`: the listing in Python's string order. */
  function SortFiles(files: seq<string>): (sorted: seq<string>)
    ensures multiset(sorted) == multiset(files)
    ensures |sorted| == |files|
  {
    if files == [] then []
    else
      assert files == files[..|files| - 1] + [files[|files| - 1]];
      Insert(files[|files| - 1], SortFiles(files[..|files| - 1]))
  }

  /** The sorted listing is in order. */
  lemma {:induction false} SortFilesSorted(files: seq<string>)
    ensures SortedStrings(SortFiles(files))
    decreases |files|
  {
    if files != [] {
      SortFilesSorted(files[..|files| - 1]);
      InsertSorted(files[|files| - 1], SortFiles(files[..|files| - 1]));
    }
  }

  /** `int(math.ceil(n / size))`, in exact integer arithmetic. */
  function SubsetSize(n: nat, size: nat): nat
    requires size > 0
  {
    (n + size - 1) / size
  }

  /** The subset size is the least count whose `size` copies hold all `n` files. */
  lemma SubsetSizeIsCeiling(n: nat, size: nat)
    requires size > 0
    ensures SubsetSize(n, size) * size >= n
    ensures SubsetSize(n, size) == 0 || (SubsetSize(n, size) - 1) * size < n
  {
    var subset := SubsetSize(n, size);
    assert n + size - 1 == subset * size + (n + size - 1) % size;
  }

  /** A value written as `q * n + r` with `0 <= r < n` leaves remainder `r`. */
  lemma ModOfDecomposition(a: nat, q: nat, n: nat, r: nat)
    requires 0 <= r < n && a == q * n + r
    ensures a % n == r && a / n == q
  {
    var q', r' := a / n, a % n;
    assert a == q' * n + r';
    assert (q - q') * n == r' - r && (q' - q) * n == r - r';
    if q' < q {
      MulAtLeast(q - q', n);
    } else if q' > q {
      MulAtLeast(q' - q, n);
    }
  }

  lemma MulAtLeast(x: nat, n: nat)
    requires x >= 1
    ensures x * n >= n
  {
    assert x * n == (x - 1) * n + n;
  }

  /** Shifting an index by `i` past the cyclic offset `k mod n` wraps at most once. */
  lemma ShiftedIndex(k: nat, i: nat, n: nat)
    requires i < n
    ensures (k + i) % n == if k % n + i < n then k % n + i else k % n + i - n
  {
    var q := k / n;
    assert k == q * n + k % n;
    if k % n + i < n {
      ModOfDecomposition(k + i, q, n, k % n + i);
    } else {
      assert k + i == (q + 1) * n + (k % n + i - n);
      ModOfDecomposition(k + i, q + 1, n, k % n + i - n);
    }
  }

  /** `deque.rotate(-k)`: the first `k` entries, cyclically, move to the end. */
  function RotateLeft(s: seq<string>, k: nat): (r: seq<string>)
    ensures |r| == |s|
    ensures forall i :: 0 <= i < |s| ==> r[i] == s[(k + i) % |s|]
  {
    if s == [] then s
    else
      var r := s[k % |s|..] + s[..k % |s|];
      assert forall i :: 0 <= i < |s| ==> r[i] == s[(k + i) % |s|] by {
        forall i | 0 <= i < |s|
          ensures r[i] == s[(k + i) % |s|]
        {
          ShiftedIndex(k, i, |s|);
        }
      }
      r
  }

  /** The files process `rank` of `size` loads: its window of the rotated sorted listing. */
  function SelectShard(files: seq<string>, size: nat, rank: nat): (shard: seq<string>)
    requires size > 0
    ensures |shard| == if SubsetSize(|files|, size) <= |files| then SubsetSize(|files|, size) else |files|
  {
    var subset := SubsetSize(|files|, size);
    RotateLeft(SortFiles(files), subset * rank)[..if subset <= |files| then subset else |files|]
  }

  /** Entry `i` of the shard is entry `subset * rank + i`, cyclically, of the sorted listing. */
  lemma ShardEntries(files: seq<string>, size: nat, rank: nat)
    requires size > 0
    ensures forall i :: 0 <= i < |SelectShard(files, size, rank)| ==>
              SelectShard(files, size, rank)[i] == SortFiles(files)[(SubsetSize(|files|, size) * rank + i) % |files|]
  {
    var offset := SubsetSize(|files|, size) * rank;
    var rotated := RotateLeft(SortFiles(files), offset);
    assert forall i :: 0 <= i < |SelectShard(files, size, rank)| ==>
             SelectShard(files, size, rank)[i] == rotated[i];
  }

  /** Every file of the listing is loaded by some process `rank < size`. */
  lemma ShardsCover(files: seq<string>, size: nat, j: nat)
    requires size > 0 && j < |files|
    ensures exists rank, i :: 0 <= rank < size && 0 <= i < |SelectShard(files, size, rank)|
                              && SelectShard(files, size, rank)[i] == SortFiles(files)[j]
  {
    var rank, i := ShardPosition(|files|, size, j);
    ShardHolds(files, size, rank, i, j);
  }

  /** The shard of process `rank` holds sorted file `j` at a position whose cyclic offset is `j`. */
  lemma ShardHolds(files: seq<string>, size: nat, rank: nat, i: nat, j: nat)
    requires size > 0 && j < |files|
    requires i < SubsetSize(|files|, size) && i < |files|
    requires (SubsetSize(|files|, size) * rank + i) % |files| == j
    ensures i < |SelectShard(files, size, rank)|
    ensures SelectShard(files, size, rank)[i] == SortFiles(files)[j]
  {
    ShardEntries(files, size, rank);
  }

  /** Position `j` of a listing of `n` falls in the window of process `j / subset`, at offset `j % subset`. */
  lemma ShardPosition(n: nat, size: nat, j: nat) returns (rank: nat, i: nat)
    requires size > 0 && j < n
    ensures rank < size
    ensures i < SubsetSize(n, size) && i < n
    ensures (SubsetSize(n, size) * rank + i) % n == j
  {
    var subset := SubsetSize(n, size);
    SubsetSizeIsCeiling(n, size);
    assert subset > 0;
    rank, i := j / subset, j % subset;
    ModOfDecomposition(j, rank, subset, i);
    assert rank < size by {
      if rank >= size {
        MulMonotone(size, rank, subset);
      }
    }
    ModOfDecomposition(subset * rank + i, 0, n, j);
  }

  lemma MulMonotone(a: nat, b: nat, c: nat)
    requires a <= b
    ensures a * c <= b * c
  {
    assert b * c == a * c + (b - a) * c;
  }

  /** Adding the period does not change the remainder. */
  lemma ModAddPeriod(a: nat, n: nat)
    requires n > 0
    ensures (a + n) % n == a % n
  {
    assert a == (a / n) * n + a % n;
    assert a + n == (a / n + 1) * n + a % n;
    ModOfDecomposition(a + n, a / n + 1, n, a % n);
  }

  /** Moving the head of a deque rotated by `steps` to its end rotates it by `steps + 1`. */
  lemma RotateOnce(sorted: seq<string>, d: seq<string>, steps: nat)
    requires |d| == |sorted| > 0
    requires forall i :: 0 <= i < |d| ==> d[i] == sorted[(steps + i) % |d|]
    ensures var next := d[1..] + [d[0]];
            forall i :: 0 <= i < |next| ==> next[i] == sorted[(steps + 1 + i) % |next|]
  {
    var n := |d|;
    var next := d[1..] + [d[0]];
    forall i | 0 <= i < n
      ensures next[i] == sorted[(steps + 1 + i) % n]
    {
      if i == n - 1 {
        ModAddPeriod(steps, n);
        assert steps + 1 + i == steps + n;
      } else {
        assert next[i] == d[i + 1];
        assert steps + (i + 1) == steps + 1 + i;
      }
    }
  }

  /** Rotating by `k + 1` is rotating by `k` and then moving the head to the end. */
  lemma RotateLeftStep(s: seq<string>, k: nat)
    requires s != []
    ensures RotateLeft(s, k + 1) == RotateLeft(s, k)[1..] + [RotateLeft(s, k)[0]]
  {
    var d := RotateLeft(s, k);
    RotateOnce(s, d, k);
    var next := d[1..] + [d[0]];
    assert forall i :: 0 <= i < |next| ==> next[i] == RotateLeft(s, k + 1)[i];
  }

  /** Rotating by nothing leaves the listing as it is. */
  lemma RotateLeftZero(s: seq<string>)
    ensures RotateLeft(s, 0) == s
  {
    forall i | 0 <= i < |s|
      ensures RotateLeft(s, 0)[i] == s[i]
    {
      ModOfDecomposition(i, 0, |s|, i);
    }
  }

  /** `deque.rotate(-k)` carried out one position at a time: the head moves to the end `k` times. */
  method RotateDeque(sorted: seq<string>, k: nat) returns (d: seq<string>)
    ensures d == RotateLeft(sorted, k)
  {
    RotateLeftZero(sorted);
    d := sorted;
    if d == [] {
      return;
    }
    var steps := 0;
    while steps < k
      invariant 0 <= steps <= k
      invariant d == RotateLeft(sorted, steps)
    {
      RotateLeftStep(sorted, steps);
      d, steps := d[1..] + [d[0]], steps + 1;
    }
  }

  /**
   * The sharding of the listing as the script runs it: sort, rotate the
   * deque left by `subset * rank`, and keep the first `subset` entries.
   */
  method ShardFiles(listing: seq<string>, size: nat, rank: nat) returns (files: seq<string>)
    requires size > 0
    ensures files == SelectShard(listing, size, rank)
  {
    var sorted := SortFiles(listing);
    var subset := SubsetSize(|listing|, size);
    var d := RotateDeque(sorted, subset * rank);
    files := d[..if subset <= |d| then subset else |d|];
  }
}
