/** Purged k-fold splitting with an embargo on both sides of each test block. */
module KFold {
  import opened Numbers

  datatype Fold = Fold(train: seq<int>, test: seq<int>)

  /** `np.arange(lo, hi)`. */
  function Range(lo: int, hi: int): (r: seq<int>)
    ensures |r| == if lo < hi then hi - lo else 0
    ensures forall i :: 0 <= i < |r| ==> r[i] == lo + i
  {
    if lo < hi then seq(hi - lo, i => lo + i) else []
  }

  predicate EnoughData(n: nat, nSplits: int, embargo: int)
  {
    nSplits >= 2 && n >= nSplits * (embargo * 2 + 2)
  }

  /** `int(n * (1 - 1 / max(n_splits, 2)))`, in exact arithmetic. */
  function FallbackCutoff(n: nat, nSplits: int): int
  {
    var m := MaxInt(nSplits, 2);
    n * (m - 1) / m
  }

  function TestStart(n: nat, nSplits: int, k: int): int
    requires nSplits >= 1
  {
    k * (n / nSplits)
  }

  function TestEnd(n: nat, nSplits: int, k: int): int
    requires nSplits >= 1
  {
    if k < nSplits - 1 then (k + 1) * (n / nSplits) else n
  }

  function FoldAt(n: nat, nSplits: int, embargo: int, k: int): Fold
    requires nSplits >= 1
  {
    var testStart := TestStart(n, nSplits, k);
    var testEnd := TestEnd(n, nSplits, k);
    Fold(Range(0, MaxInt(0, testStart - embargo)) + Range(MinInt(n, testEnd + embargo), n), Range(testStart, testEnd))
  }

  method PurgedKFoldIndexes(n: nat, nSplits: int, embargo: int) returns (splits: seq<Fold>)
    ensures EnoughData(n, nSplits, embargo) ==>
              |splits| == nSplits && forall k :: 0 <= k < nSplits ==> splits[k] == FoldAt(n, nSplits, embargo, k)
    ensures !EnoughData(n, nSplits, embargo) ==>
              var cutoff := FallbackCutoff(n, nSplits);
              splits == [Fold(Range(0, MaxInt(0, cutoff - embargo)), Range(cutoff, n))]
  {
    if nSplits < 2 || n < nSplits * (embargo * 2 + 2) {
      var cutoff := FallbackCutoff(n, nSplits);
      return [Fold(Range(0, MaxInt(0, cutoff - embargo)), Range(cutoff, n))];
    }
    var foldSize := n / nSplits;
    splits := [];
    var k := 0;
    while k < nSplits
      invariant 0 <= k <= nSplits
      invariant |splits| == k
      invariant forall j :: 0 <= j < k ==> splits[j] == FoldAt(n, nSplits, embargo, j)
    {
      var testStart := k * foldSize;
      var testEnd := if k < nSplits - 1 then (k + 1) * foldSize else n;
      var trainLo := MaxInt(0, testStart - embargo);
      var trainHi := MinInt(n, testEnd + embargo);
      splits := splits + [Fold(Range(0, trainLo) + Range(trainHi, n), Range(testStart, testEnd))];
      k := k + 1;
    }
  }

  /** All test blocks before fold `k`, one after the other. */
  function TestsBefore(n: nat, nSplits: int, embargo: int, k: nat): seq<int>
    requires nSplits >= 1
  {
    if k == 0 then [] else TestsBefore(n, nSplits, embargo, k - 1) + FoldAt(n, nSplits, embargo, k - 1).test
  }

  lemma FoldSizes(n: nat, nSplits: int, embargo: int)
    requires embargo >= 0 && EnoughData(n, nSplits, embargo)
    ensures n / nSplits >= 2 * embargo + 2
    ensures 0 <= n - nSplits * (n / nSplits) < nSplits
  {
    var q := n / nSplits;
    assert n == nSplits * q + n % nSplits;
    QuotientAtLeast(n, nSplits, embargo * 2 + 2);
  }

  lemma QuotientAtLeast(n: nat, d: int, m: int)
    requires d > 0 && n >= d * m
    ensures n / d >= m
  {
    if n / d + 1 <= m {
      ProductOrder(d, n / d + 1, m);
    }
  }

  lemma ProductOrder(a: int, x: int, y: int)
    requires a >= 0 && x <= y
    ensures a * x <= a * y
  {
    assert a * (y - x) >= 0;
  }

  /** Test block `k` lies inside the data and is at least `2 * embargo + 2` bars long; all blocks but
      the last have the same length, which the last exceeds by less than the number of folds. */
  lemma TestBlockSize(n: nat, nSplits: int, embargo: int, k: int)
    requires embargo >= 0 && EnoughData(n, nSplits, embargo) && 0 <= k < nSplits
    ensures 0 <= TestStart(n, nSplits, k) < TestEnd(n, nSplits, k) <= n
    ensures |FoldAt(n, nSplits, embargo, k).test| >= 2 * embargo + 2
    ensures k < nSplits - 1 ==> |FoldAt(n, nSplits, embargo, k).test| == n / nSplits
    ensures k == nSplits - 1 ==> n / nSplits <= |FoldAt(n, nSplits, embargo, k).test| < n / nSplits + nSplits
  {
    FoldSizes(n, nSplits, embargo);
    var q := n / nSplits;
    ProductOrder(q, 0, k);
    ProductOrder(q, k + 1, nSplits);
    assert (k + 1) * q == k * q + q;
    assert k == nSplits - 1 ==> (k + 1) * q == nSplits * q;
  }

  lemma {:induction false} TestsBeforeRange(n: nat, nSplits: int, embargo: int, k: nat)
    requires embargo >= 0 && EnoughData(n, nSplits, embargo) && k <= nSplits
    ensures TestsBefore(n, nSplits, embargo, k) == Range(0, if k < nSplits then TestStart(n, nSplits, k) else n)
  {
    assert nSplits >= 2;
    hide TestEnd, FoldAt, EnoughData;
    if k > 0 {
      TestsBeforeRange(n, nSplits, embargo, k - 1);
      TestBlockSize(n, nSplits, embargo, k - 1);
      AdjacentBlocks(n, nSplits, embargo, k - 1);
    } else {
      assert TestStart(n, nSplits, 0) == 0;
    }
  }

  lemma AdjacentBlocks(n: nat, nSplits: int, embargo: int, k: int)
    requires nSplits >= 1 && 0 <= k < nSplits
    requires 0 <= TestStart(n, nSplits, k) < TestEnd(n, nSplits, k)
    ensures Range(0, TestStart(n, nSplits, k)) + FoldAt(n, nSplits, embargo, k).test
         == Range(0, if k + 1 < nSplits then TestStart(n, nSplits, k + 1) else n)
  {
    assert TestEnd(n, nSplits, k) == if k + 1 < nSplits then TestStart(n, nSplits, k + 1) else n;
    hide TestStart, TestEnd;
  }

  /** Concatenated in order, the test blocks are exactly the indices 0..n-1. */
  lemma TestBlocksPartition(n: nat, nSplits: int, embargo: int)
    requires embargo >= 0 && EnoughData(n, nSplits, embargo)
    ensures TestsBefore(n, nSplits, embargo, nSplits) == Range(0, n)
  {
    TestsBeforeRange(n, nSplits, embargo, nSplits);
  }

  /** A fold trains on exactly the indices at least the embargo away from its test block, each once
      and in order, and always on something. */
  lemma TrainIsPurged(n: nat, nSplits: int, embargo: int, k: int)
    requires embargo >= 0 && EnoughData(n, nSplits, embargo) && 0 <= k < nSplits
    ensures var f := FoldAt(n, nSplits, embargo, k);
            && (forall i :: i in f.train <==>
                  0 <= i < n && (i < TestStart(n, nSplits, k) - embargo || i >= TestEnd(n, nSplits, k) + embargo))
            && (forall i, j :: 0 <= i < j < |f.train| ==> f.train[i] < f.train[j])
            && f.train != []
  {
    TestBlockSize(n, nSplits, embargo, k);
    SomethingToTrain(n, nSplits, embargo, k);
    var lo := MaxInt(0, TestStart(n, nSplits, k) - embargo);
    var hi := MinInt(n, TestEnd(n, nSplits, k) + embargo);
    assert FoldAt(n, nSplits, embargo, k).train == Range(0, lo) + Range(hi, n);
    hide TestStart, TestEnd, FoldAt, EnoughData, Range;
    TwoRanges(lo, hi, n);
  }

  /** Bars remain before the first fold's embargo or after any other's. */
  lemma SomethingToTrain(n: nat, nSplits: int, embargo: int, k: int)
    requires embargo >= 0 && EnoughData(n, nSplits, embargo) && 0 <= k < nSplits
    ensures TestStart(n, nSplits, k) - embargo > 0 || TestEnd(n, nSplits, k) + embargo < n
  {
    FoldSizes(n, nSplits, embargo);
    if k == 0 {
      TestBlockSize(n, nSplits, embargo, 1);
    } else {
      ProductOrder(n / nSplits, 1, k);
    }
  }

  lemma TwoRanges(lo: int, hi: int, n: int)
    requires 0 <= lo <= hi <= n
    ensures var s := Range(0, lo) + Range(hi, n);
            && (forall i :: i in s <==> 0 <= i < lo || hi <= i < n)
            && (forall i, j :: 0 <= i < j < |s| ==> s[i] < s[j])
            && |s| == lo + (n - hi)
  {
    var s := Range(0, lo) + Range(hi, n);
    forall i
      ensures i in s <==> 0 <= i < lo || hi <= i < n
    {
      if 0 <= i < lo { assert s[i] == i; }
      if hi <= i < n { assert s[lo + (i - hi)] == i; }
    }
  }

  /** The fallback tests on the smallest number of bars that is at least one part in `n_splits`, or one half. */
  lemma FallbackTestShare(n: nat, nSplits: int)
    ensures var m, test := MaxInt(nSplits, 2), n - FallbackCutoff(n, nSplits);
            0 <= test <= n && m * test >= n && (n > 0 ==> m * (test - 1) < n)
  {
    var m := MaxInt(nSplits, 2);
    var c := FallbackCutoff(n, nSplits);
    QuotientBounds(n * (m - 1), m);
    Distribute(n, m, c);
    hide FallbackCutoff;
    CutoffRange(n, m, c);
  }

  lemma QuotientBounds(x: int, m: int)
    requires m > 0
    ensures m * (x / m) <= x < m * (x / m) + m
  {
  }

  lemma Distribute(n: int, m: int, c: int)
    ensures n * (m - 1) == m * n - n
    ensures m * (n - c) == m * n - m * c
    ensures m * (n - c - 1) == m * n - m * c - m
  {
  }

  lemma CutoffRange(n: nat, m: int, c: int)
    requires m >= 2 && m * c <= m * n - n < m * c + m
    ensures 0 <= c <= n
  {
    if c > n { ProductOrder(m, n + 1, c); }
    if c < 0 {
      ProductOrder(m, c, -1);
      ProductOrder(n, 1, m);
    }
  }

  /** Without enough data the one fold still keeps train and test apart by the embargo. */
  lemma FallbackIsPurged(n: nat, nSplits: int, embargo: int, i: int, j: int)
    requires embargo >= 0
    requires var cutoff := FallbackCutoff(n, nSplits);
             i in Range(0, MaxInt(0, cutoff - embargo)) && j in Range(cutoff, n)
    ensures 0 <= i && i + embargo < j < n
  {
  }
}
