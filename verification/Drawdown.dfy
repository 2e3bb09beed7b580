/** Maximum drawdown: the single-pass running-peak form against the pairwise definition. */
module Drawdown {
  import opened Numbers

  /** `np.maximum.accumulate(eq)[-1]`. */
  function Peak(eq: seq<real>): real
    requires eq != []
  {
    if |eq| == 1 then eq[0] else MaxReal(Peak(eq[..|eq| - 1]), eq[|eq| - 1])
  }

  function LastDrawdown(eq: seq<real>): real
    requires eq != []
  {
    var peak := Peak(eq);
    if peak > 0.0 then (peak - eq[|eq| - 1]) / peak else 0.0
  }

  /** The `max_dd` statistic: the largest drawdown from the running peak, at least zero. */
  function MaxDrawdown(eq: seq<real>): real
  {
    if eq == [] then 0.0 else MaxReal(MaxDrawdown(eq[..|eq| - 1]), LastDrawdown(eq))
  }

  /** The fall from point `i` to point `j`, relative to point `i`. */
  function Fall(eq: seq<real>, i: int, j: int): real
    requires 0 <= i < |eq| && 0 <= j < |eq| && eq[i] != 0.0
  {
    (eq[i] - eq[j]) / eq[i]
  }

  ghost predicate NonNegative(eq: seq<real>) { forall i :: 0 <= i < |eq| ==> eq[i] >= 0.0 }

  lemma {:induction false} PeakIsMaximum(eq: seq<real>) returns (p: nat)
    requires eq != []
    ensures p < |eq| && eq[p] == Peak(eq)
    ensures forall i :: 0 <= i < |eq| ==> eq[i] <= Peak(eq)
  {
    if |eq| == 1 {
      p := 0;
    } else {
      var init := eq[..|eq| - 1];
      p := PeakIsMaximum(init);
      forall i | 0 <= i < |eq| ensures eq[i] <= Peak(eq) {
        assert i < |eq| - 1 ==> eq[i] == init[i];
      }
      if eq[|eq| - 1] > Peak(init) { p := |eq| - 1; }
    }
  }

  lemma CancelFactor(a: real, b: real, c: real)
    requires c > 0.0
    ensures a * c <= b * c <==> a <= b
  {
    if a > b { assert (a - b) * c > 0.0; } else { assert (b - a) * c >= 0.0; }
  }

  lemma RelativeFall(start: real, x: real)
    requires start > 0.0
    ensures (start - x) / start == 1.0 - x / start
    ensures x >= 0.0 ==> x / start >= 0.0
  {
    var f, a := (start - x) / start, x / start;
    assert f * start == start - x && a * start == x;
    assert (1.0 - a) * start == start - x;
    CancelFactor(f, 1.0 - a, start);
    CancelFactor(1.0 - a, f, start);
    CancelFactor(0.0, a, start);
  }

  /** A fall to the same non-negative point is relatively larger from a higher start. */
  lemma FallFromHigher(hi: real, lo: real, x: real)
    requires 0.0 < lo <= hi && x >= 0.0
    ensures (lo - x) / lo <= (hi - x) / hi <= 1.0
  {
    RelativeFall(lo, x);
    RelativeFall(hi, x);
    SharesOfOne(lo, hi, x);
  }

  lemma SharesOfOne(lo: real, hi: real, x: real)
    requires 0.0 < lo <= hi && x >= 0.0
    ensures 0.0 <= x / hi <= x / lo
  {
    var a, b := x / lo, x / hi;
    assert a * lo == x && b * hi == x;
    CancelFactor(0.0, b, hi);
    ScaleUp(lo, hi, b);
    assert b * lo <= a * lo;
    CancelFactor(b, a, lo);
  }

  lemma ScaleUp(x: real, y: real, c: real)
    requires x <= y && c >= 0.0
    ensures c * x <= c * y
  {
    assert c * (y - x) >= 0.0;
  }

  lemma LastDrawdownIsWorstFall(eq: seq<real>)
    requires eq != [] && NonNegative(eq)
    ensures 0.0 <= LastDrawdown(eq) <= 1.0
    ensures forall i :: 0 <= i < |eq| && eq[i] > 0.0 ==> Fall(eq, i, |eq| - 1) <= LastDrawdown(eq)
    ensures LastDrawdown(eq) == 0.0
            || exists i :: 0 <= i < |eq| && eq[i] > 0.0 && Fall(eq, i, |eq| - 1) == LastDrawdown(eq)
  {
    hide Peak;
    var p := PeakIsMaximum(eq);
    var x := eq[|eq| - 1];
    if Peak(eq) > 0.0 {
      PeakFallRange(Peak(eq), x);
      forall i | 0 <= i < |eq| && eq[i] > 0.0 ensures Fall(eq, i, |eq| - 1) <= LastDrawdown(eq) {
        FallFromHigher(Peak(eq), eq[i], x);
      }
      assert Fall(eq, p, |eq| - 1) == LastDrawdown(eq);
    }
  }

  lemma PeakFallRange(peak: real, x: real)
    requires 0.0 < peak && 0.0 <= x <= peak
    ensures 0.0 <= (peak - x) / peak <= 1.0
  {
    var f := (peak - x) / peak;
    assert f * peak == peak - x;
    CancelFactor(0.0, f, peak);
    CancelFactor(f, 1.0, peak);
  }

  /** `d` is the largest relative fall between any two points in order, or zero without one. */
  ghost predicate IsWorstFall(eq: seq<real>, d: real)
  {
    && d >= 0.0
    && (forall i, j :: 0 <= i <= j < |eq| && eq[i] > 0.0 ==> Fall(eq, i, j) <= d)
    && (d == 0.0 || exists i, j :: 0 <= i <= j < |eq| && eq[i] > 0.0 && Fall(eq, i, j) == d)
  }

  /** On an equity curve that never goes negative, one pass with a running peak finds the largest of
      all pairwise falls, and that is a number in [0, 1]. */
  lemma {:induction false} MaxDrawdownIsWorstFall(eq: seq<real>)
    requires NonNegative(eq)
    ensures IsWorstFall(eq, MaxDrawdown(eq))
    ensures 0.0 <= MaxDrawdown(eq) <= 1.0
  {
    hide LastDrawdown;
    if eq != [] {
      var n := |eq| - 1;
      var init := eq[..n];
      MaxDrawdownIsWorstFall(init);
      LastDrawdownIsWorstFall(eq);
      var d := MaxDrawdown(eq);
      forall i, j | 0 <= i <= j < |eq| && eq[i] > 0.0 ensures Fall(eq, i, j) <= d {
        if j < n { assert Fall(eq, i, j) == Fall(init, i, j); }
      }
      if d != 0.0 && d == MaxDrawdown(init) {
        var i, j :| 0 <= i <= j < n && init[i] > 0.0 && Fall(init, i, j) == d;
        assert Fall(eq, i, j) == d;
      }
    }
  }

  lemma FallSign(x: real, y: real)
    requires x > 0.0
    ensures (x - y) / x <= 0.0 <==> x <= y
  {
    var f := (x - y) / x;
    assert f * x == x - y;
    CancelFactor(f, 0.0, x);
  }

  /** A zero drawdown means exactly that the curve never falls. */
  lemma ZeroDrawdownIff(eq: seq<real>)
    requires NonNegative(eq)
    ensures MaxDrawdown(eq) == 0.0 <==> forall i, j :: 0 <= i <= j < |eq| ==> eq[i] <= eq[j]
  {
    hide MaxDrawdown;
    MaxDrawdownIsWorstFall(eq);
    var d := MaxDrawdown(eq);
    if d == 0.0 {
      forall i, j | 0 <= i <= j < |eq| ensures eq[i] <= eq[j] {
        if eq[i] > 0.0 {
          assert Fall(eq, i, j) <= d;
          FallSign(eq[i], eq[j]);
        }
      }
    } else {
      var i, j :| 0 <= i <= j < |eq| && eq[i] > 0.0 && Fall(eq, i, j) == d;
      FallSign(eq[i], eq[j]);
    }
  }

  /** A fall to a negative point is relatively larger from a lower start, and more than the whole of it. */
  lemma NegativeFall(lo: real, hi: real, x: real)
    requires 0.0 < lo < hi && x < 0.0
    ensures (lo - x) / lo > (hi - x) / hi > 1.0
  {
    RelativeFall(lo, x);
    RelativeFall(hi, x);
    var a, b := x / lo, x / hi;
    assert a * lo == x && b * hi == x;
    assert b < 0.0 by { CancelFactor(0.0, b, hi); }
    assert (-b) * lo < (-b) * hi by { CancelFactor(hi, lo, -b); }
    CancelFactor(b, a, lo);
  }

  // ---- Curves that go negative ------------------------------------------

  /** `p` is a highest point up to `j`, and positive. */
  ghost predicate PeakUpTo(eq: seq<real>, p: int, j: int)
  {
    0 <= p <= j < |eq| && eq[p] > 0.0 && forall i :: 0 <= i <= j ==> eq[i] <= eq[p]
  }

  lemma PeakAt(eq: seq<real>, p: int)
    requires PeakUpTo(eq, p, |eq| - 1)
    ensures Peak(eq) == eq[p] && LastDrawdown(eq) == Fall(eq, p, |eq| - 1)
  {
    hide Peak;
    var q := PeakIsMaximum(eq);
  }

  /** On any curve the statistic bounds every fall from a running peak. */
  lemma {:induction false} PeakFallsAreBounded(eq: seq<real>, p: int, j: int)
    requires PeakUpTo(eq, p, j)
    ensures Fall(eq, p, j) <= MaxDrawdown(eq)
  {
    hide LastDrawdown;
    if j == |eq| - 1 {
      PeakAt(eq, p);
    } else {
      PeakFallsAreBounded(eq[..|eq| - 1], p, j);
    }
  }

  /** On any curve it is one of them, unless it is zero. */
  lemma {:induction false} StatisticIsPeakFall(eq: seq<real>) returns (p: int, j: int)
    requires MaxDrawdown(eq) > 0.0
    ensures PeakUpTo(eq, p, j) && Fall(eq, p, j) == MaxDrawdown(eq)
  {
    var n := |eq| - 1;
    if MaxDrawdown(eq[..n]) == MaxDrawdown(eq) {
      p, j := StatisticIsPeakFall(eq[..n]);
    } else {
      hide Peak;
      j := n;
      p := PeakIsMaximum(eq);
    }
  }

  lemma {:induction false} StatisticIsNotNegative(eq: seq<real>)
    ensures MaxDrawdown(eq) >= 0.0
  {
    if eq != [] { StatisticIsNotNegative(eq[..|eq| - 1]); }
  }

  /** So it is the worst fall exactly if it bounds all of them. */
  lemma WorstIfBound(eq: seq<real>)
    requires forall i, j :: 0 <= i <= j < |eq| && eq[i] > 0.0 ==> Fall(eq, i, j) <= MaxDrawdown(eq)
    ensures IsWorstFall(eq, MaxDrawdown(eq))
  {
    StatisticIsNotNegative(eq);
    hide MaxDrawdown, Fall;
    if MaxDrawdown(eq) > 0.0 { var p, j := StatisticIsPeakFall(eq); }
  }

  /** Comparing two falls without dividing. */
  lemma FallOrder(u: real, x: real, v: real, y: real)
    requires u > 0.0 && v > 0.0
    ensures (u - x) / u <= (v - y) / v <==> x * v >= y * u
    ensures (u - x) / u > 1.0 <==> x < 0.0
  {
    RelativeFall(u, x);
    RelativeFall(v, y);
    var a, b := x / u, y / v;
    assert a * u == x && b * v == y;
    CancelFactor(0.0, a, u);
    assert x * v == a * (u * v) && y * u == b * (u * v);
    assert u * v > 0.0;
    CancelFactor(b, a, u * v);
  }

  lemma FallsCompare(eq: seq<real>, i: int, k: int, a: int, j: int)
    requires 0 <= i < |eq| && 0 <= k < |eq| && 0 <= a < |eq| && 0 <= j < |eq| && eq[i] > 0.0 && eq[a] > 0.0
    ensures Fall(eq, i, k) <= Fall(eq, a, j) <==> eq[k] * eq[a] >= eq[j] * eq[i]
    ensures Fall(eq, i, k) > 1.0 <==> eq[k] < 0.0
  {
    FallOrder(eq[i], eq[k], eq[a], eq[j]);
  }

  /** After the curve was positive it never goes below zero. */
  ghost predicate StaysAfloat(eq: seq<real>)
  {
    forall a, j :: 0 <= a < j < |eq| && eq[a] > 0.0 ==> eq[j] >= 0.0
  }

  /** No fall below zero is relatively deeper than the one from `a` to `j`, and every positive point before
      `j` is as high as `a`. */
  ghost predicate DeepestFromPeak(eq: seq<real>, a: int, j: int)
  {
    && 0 <= a < j < |eq| && eq[a] > 0.0 > eq[j]
    && (forall i :: 0 <= i < j && eq[i] > 0.0 ==> eq[i] == eq[a])
    && (forall i, k :: 0 <= i < k < |eq| && eq[i] > 0.0 > eq[k] ==> eq[k] * eq[a] >= eq[j] * eq[i])
  }

  lemma AfloatIsWorst(eq: seq<real>)
    requires StaysAfloat(eq)
    ensures IsWorstFall(eq, MaxDrawdown(eq))
  {
    hide MaxDrawdown, Peak;
    forall i, j | 0 <= i <= j < |eq| && eq[i] > 0.0 ensures Fall(eq, i, j) <= MaxDrawdown(eq) {
      var p := PeakIsMaximum(eq[..j + 1]);
      assert eq[..j + 1][p] == eq[p] && eq[i] == eq[..j + 1][i];
      assert PeakUpTo(eq, p, j) by {
        assert forall m :: 0 <= m <= j ==> eq[m] == eq[..j + 1][m];
      }
      PeakFallsAreBounded(eq, p, j);
      FallFromHigher(eq[p], eq[i], eq[j]);
    }
    WorstIfBound(eq);
  }

  lemma DeepestIsWorst(eq: seq<real>, a: int, j: int)
    requires DeepestFromPeak(eq, a, j)
    ensures IsWorstFall(eq, MaxDrawdown(eq))
  {
    hide MaxDrawdown, Fall;
    assert PeakUpTo(eq, a, j);
    PeakFallsAreBounded(eq, a, j);
    FallsCompare(eq, a, j, a, j);
    forall i, k | 0 <= i <= k < |eq| && eq[i] > 0.0 ensures Fall(eq, i, k) <= MaxDrawdown(eq) {
      FallsCompare(eq, i, k, a, j);
    }
    WorstIfBound(eq);
  }

  lemma WorstIsDeepest(eq: seq<real>, a: int, j: int) returns (p: int, q: int)
    requires IsWorstFall(eq, MaxDrawdown(eq))
    requires 0 <= a < j < |eq| && eq[a] > 0.0 > eq[j]
    ensures DeepestFromPeak(eq, p, q)
  {
    hide MaxDrawdown, Fall;
    FallsCompare(eq, a, j, a, j);
    assert MaxDrawdown(eq) > 1.0;
    p, q := StatisticIsPeakFall(eq);
    FallsCompare(eq, p, q, p, q);
    forall i | 0 <= i < q && eq[i] > 0.0 ensures eq[i] == eq[p] {
      FallsCompare(eq, i, q, p, q);
      CancelFactor(eq[p], eq[i], -eq[q]);
    }
    forall i, k | 0 <= i < k < |eq| && eq[i] > 0.0 > eq[k] ensures eq[k] * eq[p] >= eq[q] * eq[i] {
      FallsCompare(eq, i, k, p, q);
    }
  }

  /** Exactly when the statistic is the worst fall, for every curve: the curve never goes below zero after
      it was positive, or some deepest fall below zero starts at the height of all positive points before
      its end. */
  lemma WorstFallIff(eq: seq<real>)
    ensures IsWorstFall(eq, MaxDrawdown(eq)) <==> StaysAfloat(eq) || exists a, j :: DeepestFromPeak(eq, a, j)
  {
    hide MaxDrawdown, IsWorstFall, DeepestFromPeak;
    if StaysAfloat(eq) {
      AfloatIsWorst(eq);
    } else {
      if a, j :| DeepestFromPeak(eq, a, j) { DeepestIsWorst(eq, a, j); }
      var a, j :| 0 <= a < j < |eq| && eq[a] > 0.0 > eq[j];
      if IsWorstFall(eq, MaxDrawdown(eq)) { var p, q := WorstIsDeepest(eq, a, j); }
    }
  }

  /** Two different heights before the first fall below zero misstate the drawdown, whatever follows. */
  lemma DifferentHeightsMisstate(eq: seq<real>, a: int, b: int, j: int)
    requires 0 <= a < j < |eq| && 0 <= b < j && eq[a] > 0.0 && eq[b] > 0.0 && eq[a] != eq[b] && eq[j] < 0.0
    requires forall i, k :: 0 <= i < k < j && eq[i] > 0.0 ==> eq[k] >= 0.0
    ensures !IsWorstFall(eq, MaxDrawdown(eq))
  {
    hide MaxDrawdown, IsWorstFall;
    WorstFallIff(eq);
    forall p: int, q: int ensures !DeepestFromPeak(eq, p, q) {
    }
  }

  /** In particular a curve that stops at its first negative point is stated right exactly if all its
      positive points are at the peak. */
  lemma FirstNegativePointIff(eq: seq<real>, x: real)
    requires eq != [] && NonNegative(eq) && Peak(eq) > 0.0
    ensures IsWorstFall(eq + [x], MaxDrawdown(eq + [x]))
            <==> x >= 0.0 || forall i :: 0 <= i < |eq| && eq[i] > 0.0 ==> eq[i] == Peak(eq)
  {
    hide MaxDrawdown, IsWorstFall, Peak;
    var more, n := eq + [x], |eq|;
    var p := PeakIsMaximum(eq);
    assert more[p] == eq[p] > 0.0 && more[n] == x;
    WorstFallIff(more);
    if x < 0.0 {
      if forall i :: 0 <= i < n && eq[i] > 0.0 ==> eq[i] == Peak(eq) {
        assert DeepestFromPeak(more, p, n);
      }
      if a, j :| DeepestFromPeak(more, a, j) {
        assert j == n;
        forall i | 0 <= i < n && eq[i] > 0.0 ensures eq[i] == Peak(eq) { assert more[i] == eq[i]; }
      }
    }
  }

  /** Right up to its first negative point and wrong later: the second fall is deeper, but from below the
      peak. */
  lemma LaterFallIsMissed()
    ensures IsWorstFall([2.0, -1.0], MaxDrawdown([2.0, -1.0]))
    ensures !IsWorstFall([2.0, -1.0, 1.0, -9.0], MaxDrawdown([2.0, -1.0, 1.0, -9.0]))
  {
    var two, four := [2.0, -1.0], [2.0, -1.0, 1.0, -9.0];
    hide MaxDrawdown, IsWorstFall;
    WorstFallIff(two);
    assert DeepestFromPeak(two, 0, 1);
    WorstFallIff(four);
    assert four[0] > 0.0 > four[1];
    forall a: int, j: int ensures !DeepestFromPeak(four, a, j) { NoDeepestFromPeak(a, j); }
  }

  lemma NoDeepestFromPeak(a: int, j: int)
    ensures !DeepestFromPeak([2.0, -1.0, 1.0, -9.0], a, j)
  {
    var four := [2.0, -1.0, 1.0, -9.0];
    assert four[0] == 2.0 && four[1] == -1.0 && four[2] == 1.0 && four[3] == -9.0;
    if a == 0 && j == 1 {
      assert four[3] * four[0] < four[1] * four[2];
    } else if j == 3 {
      assert four[0] != four[2];
    }
  }

  /** Once the curve goes negative the two definitions part: the running peak is not the worst start. */
  lemma NegativeEquityBreaksWorstFall()
    ensures MaxDrawdown([1.0, 2.0, -1.0]) == 1.5
    ensures Fall([1.0, 2.0, -1.0], 0, 2) == 2.0
    ensures !IsWorstFall([1.0, 2.0, -1.0], MaxDrawdown([1.0, 2.0, -1.0]))
  {
    var a, b, c := [1.0], [1.0, 2.0], [1.0, 2.0, -1.0];
    assert c[..2] == b && b[..1] == a && a[..0] == [];
    assert MaxDrawdown(a) == 0.0;
    assert MaxDrawdown(b) == 0.0;
    assert Fall(c, 0, 2) == 2.0;
  }
}
