/** Fractal swings, trend classification and breaks of structure. */
module Structure {
  import opened Market
  import opened Numbers

  /** One boolean per bar: is it a swing high, is it a swing low. */
  datatype Swings = Swings(high: seq<bool>, low: seq<bool>)

  datatype Trend = Uptrend | Downtrend | Ranging
  datatype Direction = Bullish | Bearish

  /** A close that crossed the most recent swing level before it. */
  datatype Break = Break(direction: Direction, barIndex: nat, level: real)

  // ---- Swings -----------------------------------------------------------

  /** Strictly above every bar in the confirmation windows on both sides, which must exist in full. */
  predicate IsSwingHigh(bars: seq<Bar>, left: int, right: int, i: int)
  {
    && left <= i < |bars| - right && 0 <= i - left && 0 <= i < |bars|
    && forall j :: i - left <= j <= i + right && j != i ==> bars[j].high < bars[i].high
  }

  predicate IsSwingLow(bars: seq<Bar>, left: int, right: int, i: int)
  {
    && left <= i < |bars| - right && 0 <= i - left && 0 <= i < |bars|
    && forall j :: i - left <= j <= i + right && j != i ==> bars[j].low > bars[i].low
  }

  function SwingLabels(bars: seq<Bar>, left: int, right: int): (s: Swings)
    ensures |s.high| == |s.low| == |bars|
    ensures forall i :: 0 <= i < |bars| ==> s.high[i] == IsSwingHigh(bars, left, right, i)
    ensures forall i :: 0 <= i < |bars| ==> s.low[i] == IsSwingLow(bars, left, right, i)
  {
    Swings(seq(|bars|, i => IsSwingHigh(bars, left, right, i)),
           seq(|bars|, i => IsSwingLow(bars, left, right, i)))
  }

  function MaxHigh(bars: seq<Bar>): (m: real)
    requires bars != []
    ensures forall i :: 0 <= i < |bars| ==> bars[i].high <= m
    ensures exists i :: 0 <= i < |bars| && bars[i].high == m
  {
    if |bars| == 1 then bars[0].high else MaxReal(bars[0].high, MaxHigh(bars[1..]))
  }

  function MinLow(bars: seq<Bar>): (m: real)
    requires bars != []
    ensures forall i :: 0 <= i < |bars| ==> m <= bars[i].low
    ensures exists i :: 0 <= i < |bars| && bars[i].low == m
  {
    if |bars| == 1 then bars[0].low else MinReal(bars[0].low, MinLow(bars[1..]))
  }

  lemma WindowIsSwingHigh(bars: seq<Bar>, left: int, right: int, i: int)
    requires left >= 1 && right >= 1 && left <= i < |bars| - right
    ensures bars[i].high > MaxHigh(bars[i - left..i]) && bars[i].high > MaxHigh(bars[i + 1..i + 1 + right])
            <==> IsSwingHigh(bars, left, right, i)
  {
    var before, after := bars[i - left..i], bars[i + 1..i + 1 + right];
    assert forall j :: i - left <= j < i ==> bars[j] == before[j - (i - left)];
    assert forall j :: i < j <= i + right ==> bars[j] == after[j - (i + 1)];
    assert forall k :: 0 <= k < left ==> before[k] == bars[i - left + k];
    assert forall k :: 0 <= k < right ==> after[k] == bars[i + 1 + k];
  }

  lemma WindowIsSwingLow(bars: seq<Bar>, left: int, right: int, i: int)
    requires left >= 1 && right >= 1 && left <= i < |bars| - right
    ensures bars[i].low < MinLow(bars[i - left..i]) && bars[i].low < MinLow(bars[i + 1..i + 1 + right])
            <==> IsSwingLow(bars, left, right, i)
  {
    var before, after := bars[i - left..i], bars[i + 1..i + 1 + right];
    assert forall j :: i - left <= j < i ==> bars[j] == before[j - (i - left)];
    assert forall j :: i < j <= i + right ==> bars[j] == after[j - (i + 1)];
    assert forall k :: 0 <= k < left ==> before[k] == bars[i - left + k];
    assert forall k :: 0 <= k < right ==> after[k] == bars[i + 1 + k];
  }

  /** Fills the two label arrays bar by bar; no result stands for the error on empty windows. */
  method DetectSwings(bars: seq<Bar>, left: int, right: int) returns (r: Option<Swings>)
    ensures r == if left < 1 || right < 1 then None else Some(SwingLabels(bars, left, right))
  {
    if left < 1 || right < 1 {
      return None;
    }
    var n := |bars|;
    ghost var labels := SwingLabels(bars, left, right);
    var sh := new bool[n](_ => false);
    var sl := new bool[n](_ => false);
    if n >= left + right + 1 {
      var i := left;
      while i < n - right
        invariant left <= i <= n - right
        invariant forall j :: 0 <= j < n ==> sh[j] == (j < i && IsSwingHigh(bars, left, right, j))
        invariant forall j :: 0 <= j < n ==> sl[j] == (j < i && IsSwingLow(bars, left, right, j))
      {
        WindowIsSwingHigh(bars, left, right, i);
        WindowIsSwingLow(bars, left, right, i);
        if bars[i].high > MaxHigh(bars[i - left..i]) && bars[i].high > MaxHigh(bars[i + 1..i + 1 + right]) {
          sh[i] := true;
        }
        if bars[i].low < MinLow(bars[i - left..i]) && bars[i].low < MinLow(bars[i + 1..i + 1 + right]) {
          sl[i] := true;
        }
        i := i + 1;
      }
    }
    assert sh[..] == labels.high && sl[..] == labels.low;
    r := Some(Swings(sh[..], sl[..]));
  }

  /** Labels are stable: on the first `m` bars they agree with the labels of the whole series below
      `m - right` and are false from there on. */
  lemma PrefixStability(bars: seq<Bar>, left: int, right: int, m: nat, i: nat)
    requires left >= 1 && right >= 1
    requires i < m <= |bars|
    ensures var cut, full := SwingLabels(bars[..m], left, right), SwingLabels(bars, left, right);
            if i < m - right then cut.high[i] == full.high[i] && cut.low[i] == full.low[i]
            else !cut.high[i] && !cut.low[i]
  {
    if left <= i < m - right {
      assert forall j :: i - left <= j <= i + right ==> bars[..m][j] == bars[j];
    }
  }

  /** Two swing highs (and two swing lows) are more than the shorter confirmation window apart. */
  lemma SwingsAreSpaced(bars: seq<Bar>, left: int, right: int, i: int, j: int)
    requires left >= 1 && right >= 1 && i < j
    ensures IsSwingHigh(bars, left, right, i) && IsSwingHigh(bars, left, right, j) ==> j - i > MinInt(left, right)
    ensures IsSwingLow(bars, left, right, i) && IsSwingLow(bars, left, right, j) ==> j - i > MinInt(left, right)
  {
    if j - i <= MinInt(left, right) && IsSwingHigh(bars, left, right, i) {
      assert bars[j].high < bars[i].high;
    }
    if j - i <= MinInt(left, right) && IsSwingLow(bars, left, right, i) {
      assert bars[j].low > bars[i].low;
    }
  }

  // ---- Trend ------------------------------------------------------------

  /** The values at the labelled positions below `m`, in order. */
  function Levels(labels: seq<bool>, values: seq<real>, m: nat): seq<real>
    requires m <= |labels| && m <= |values|
  {
    if m == 0 then []
    else if labels[m - 1] then Levels(labels, values, m - 1) + [values[m - 1]]
    else Levels(labels, values, m - 1)
  }

  function Highs(bars: seq<Bar>): (h: seq<real>)
    ensures |h| == |bars| && forall i :: 0 <= i < |bars| ==> h[i] == bars[i].high
  {
    seq(|bars|, i requires 0 <= i < |bars| => bars[i].high)
  }

  function Lows(bars: seq<Bar>): (l: seq<real>)
    ensures |l| == |bars| && forall i :: 0 <= i < |bars| ==> l[i] == bars[i].low
  {
    seq(|bars|, i requires 0 <= i < |bars| => bars[i].low)
  }

  function TrendOfLevels(highs: seq<real>, lows: seq<real>): Trend
  {
    if |highs| < 2 || |lows| < 2 then Ranging
    else
      var h0, h1 := highs[|highs| - 2], highs[|highs| - 1];
      var l0, l1 := lows[|lows| - 2], lows[|lows| - 1];
      if h1 > h0 && l1 > l0 then Uptrend
      else if h1 < h0 && l1 < l0 then Downtrend
      else Ranging
  }

  function ClassifyTrend(bars: seq<Bar>, swings: Swings): Trend
    requires |swings.high| == |swings.low| == |bars|
  {
    TrendOfLevels(Levels(swings.high, Highs(bars), |bars|), Levels(swings.low, Lows(bars), |bars|))
  }

  /** The trend an observer sees after the first `cut` bars. */
  function TrendAfter(bars: seq<Bar>, left: int, right: int, cut: nat): Trend
    requires cut <= |bars|
  {
    ClassifyTrend(bars[..cut], SwingLabels(bars[..cut], left, right))
  }

  lemma {:induction false} LevelsAgree(a: seq<bool>, x: seq<real>, b: seq<bool>, y: seq<real>, m: nat)
    requires m <= |a| && m <= |x| && m <= |b| && m <= |y|
    requires forall i :: 0 <= i < m ==> a[i] == b[i] && x[i] == y[i]
    ensures Levels(a, x, m) == Levels(b, y, m)
  {
    if m > 0 { LevelsAgree(a, x, b, y, m - 1); }
  }

  lemma {:induction false} LevelsStop(labels: seq<bool>, values: seq<real>, k: nat, m: nat)
    requires k <= m <= |labels| && m <= |values|
    requires forall i :: k <= i < m ==> !labels[i]
    ensures Levels(labels, values, m) == Levels(labels, values, k)
  {
    if k < m { LevelsStop(labels, values, k, m - 1); }
  }

  /** The last two labelled values. */
  lemma LevelsTail(labels: seq<bool>, values: seq<real>, a: nat, b: nat, m: nat)
    requires a < b < m <= |labels| && m <= |values| && labels[a] && labels[b]
    requires forall i :: a < i < m && i != b ==> !labels[i]
    ensures var l := Levels(labels, values, m);
            |l| >= 2 && l[|l| - 2] == values[a] && l[|l| - 1] == values[b]
  {
    LevelsStop(labels, values, b + 1, m);
    LevelsStop(labels, values, a + 1, b);
  }

  lemma OneLevel(labels: seq<bool>, values: seq<real>, a: nat, m: nat)
    requires a < m <= |labels| && m <= |values|
    requires forall i :: 0 <= i < m && i != a ==> !labels[i]
    ensures |Levels(labels, values, m)| <= 1
  {
    LevelsStop(labels, values, a + 1, m);
    LevelsStop(labels, values, 0, a);
  }

  /** The last two labelled positions below `m` are `a` and `b`. */
  ghost predicate LastTwo(labels: seq<bool>, m: nat, a: int, b: int)
    requires m <= |labels|
  {
    0 <= a < b < m && labels[a] && labels[b] && forall i :: a < i < m && i != b ==> !labels[i]
  }

  /** The last two levels, if there are two, are the values at the last two labelled positions. */
  lemma LevelsPick(labels: seq<bool>, values: seq<real>, m: nat)
    requires m <= |labels| && m <= |values|
    ensures var l := Levels(labels, values, m);
            if |l| >= 2 then exists a, b :: LastTwo(labels, m, a, b)
            else forall a, b :: !LastTwo(labels, m, a, b)
    ensures var l := Levels(labels, values, m);
            forall a, b :: LastTwo(labels, m, a, b) ==>
              |l| >= 2 && l[|l| - 2] == values[a] && l[|l| - 1] == values[b]
  {
    forall a, b | LastTwo(labels, m, a, b)
      ensures var l := Levels(labels, values, m);
              |l| >= 2 && l[|l| - 2] == values[a] && l[|l| - 1] == values[b]
    {
      LevelsTail(labels, values, a, b, m);
    }
    var b := LastBefore(labels, m);
    if b == None {
      LevelsStop(labels, values, 0, m);
    } else {
      var a := LastBefore(labels, b.value);
      if a == None {
        OneLevel(labels, values, b.value, m);
      } else {
        assert LastTwo(labels, m, a.value, b.value);
      }
    }
  }

  /** The two latest swing highs confirmed within the first `cut` bars are at `a` and `b`. */
  ghost predicate LatestSwingHighs(bars: seq<Bar>, left: int, right: int, cut: int, a: int, b: int)
  {
    && a < b < cut - right && IsSwingHigh(bars, left, right, a) && IsSwingHigh(bars, left, right, b)
    && forall i :: a < i < cut - right && i != b ==> !IsSwingHigh(bars, left, right, i)
  }

  ghost predicate LatestSwingLows(bars: seq<Bar>, left: int, right: int, cut: int, a: int, b: int)
  {
    && a < b < cut - right && IsSwingLow(bars, left, right, a) && IsSwingLow(bars, left, right, b)
    && forall i :: a < i < cut - right && i != b ==> !IsSwingLow(bars, left, right, i)
  }

  ghost predicate HighsRise(bars: seq<Bar>, left: int, right: int, cut: int)
  {
    exists a, b :: LatestSwingHighs(bars, left, right, cut, a, b) && bars[a].high < bars[b].high
  }

  ghost predicate HighsFall(bars: seq<Bar>, left: int, right: int, cut: int)
  {
    exists a, b :: LatestSwingHighs(bars, left, right, cut, a, b) && bars[a].high > bars[b].high
  }

  ghost predicate LowsRise(bars: seq<Bar>, left: int, right: int, cut: int)
  {
    exists a, b :: LatestSwingLows(bars, left, right, cut, a, b) && bars[a].low < bars[b].low
  }

  ghost predicate LowsFall(bars: seq<Bar>, left: int, right: int, cut: int)
  {
    exists a, b :: LatestSwingLows(bars, left, right, cut, a, b) && bars[a].low > bars[b].low
  }

  lemma HighPairs(bars: seq<Bar>, left: int, right: int, cut: nat, a: int, b: int)
    requires left >= 1 && right >= 1 && cut <= |bars|
    ensures LatestSwingHighs(bars, left, right, cut, a, b)
            <==> LastTwo(SwingLabels(bars, left, right).high, MaxInt(0, cut - right), a, b)
    ensures LatestSwingHighs(bars, left, right, cut, a, b) ==> 0 <= a < b < |bars|
  {
    var labels, m := SwingLabels(bars, left, right).high, MaxInt(0, cut - right);
    assert forall i :: 0 <= i < m ==> labels[i] == IsSwingHigh(bars, left, right, i);
    assert forall i :: IsSwingHigh(bars, left, right, i) ==> 0 <= i < |bars|;
    hide SwingLabels, IsSwingHigh;
  }

  lemma LowPairs(bars: seq<Bar>, left: int, right: int, cut: nat, a: int, b: int)
    requires left >= 1 && right >= 1 && cut <= |bars|
    ensures LatestSwingLows(bars, left, right, cut, a, b)
            <==> LastTwo(SwingLabels(bars, left, right).low, MaxInt(0, cut - right), a, b)
    ensures LatestSwingLows(bars, left, right, cut, a, b) ==> 0 <= a < b < |bars|
  {
    var labels, m := SwingLabels(bars, left, right).low, MaxInt(0, cut - right);
    assert forall i :: 0 <= i < m ==> labels[i] == IsSwingLow(bars, left, right, i);
    assert forall i :: IsSwingLow(bars, left, right, i) ==> 0 <= i < |bars|;
    hide SwingLabels, IsSwingLow;
  }

  lemma LastTwoIsOne(labels: seq<bool>, m: nat, a: int, b: int, c: int, d: int)
    requires m <= |labels| && LastTwo(labels, m, a, b) && LastTwo(labels, m, c, d)
    ensures a == c && b == d
  {
  }

  lemma HighLevelsMove(bars: seq<Bar>, left: int, right: int, cut: nat)
    requires left >= 1 && right >= 1 && cut <= |bars|
    ensures var l := Levels(SwingLabels(bars, left, right).high, Highs(bars), MaxInt(0, cut - right));
            && (HighsRise(bars, left, right, cut) <==> |l| >= 2 && l[|l| - 2] < l[|l| - 1])
            && (HighsFall(bars, left, right, cut) <==> |l| >= 2 && l[|l| - 2] > l[|l| - 1])
  {
    hide LastTwo, LatestSwingHighs, SwingLabels, Levels, IsSwingHigh;
    var labels, values, m := SwingLabels(bars, left, right).high, Highs(bars), MaxInt(0, cut - right);
    LevelsPick(labels, values, m);
    if a, b :| LastTwo(labels, m, a, b) {
      HighPairs(bars, left, right, cut, a, b);
      forall c, d | LatestSwingHighs(bars, left, right, cut, c, d) ensures c == a && d == b {
        HighPairs(bars, left, right, cut, c, d);
        LastTwoIsOne(labels, m, a, b, c, d);
      }
    } else {
      forall c, d ensures !LatestSwingHighs(bars, left, right, cut, c, d) {
        HighPairs(bars, left, right, cut, c, d);
      }
    }
  }

  lemma LowLevelsMove(bars: seq<Bar>, left: int, right: int, cut: nat)
    requires left >= 1 && right >= 1 && cut <= |bars|
    ensures var l := Levels(SwingLabels(bars, left, right).low, Lows(bars), MaxInt(0, cut - right));
            && (LowsRise(bars, left, right, cut) <==> |l| >= 2 && l[|l| - 2] < l[|l| - 1])
            && (LowsFall(bars, left, right, cut) <==> |l| >= 2 && l[|l| - 2] > l[|l| - 1])
  {
    hide LastTwo, LatestSwingLows, SwingLabels, Levels, IsSwingLow;
    var labels, values, m := SwingLabels(bars, left, right).low, Lows(bars), MaxInt(0, cut - right);
    LevelsPick(labels, values, m);
    if a, b :| LastTwo(labels, m, a, b) {
      LowPairs(bars, left, right, cut, a, b);
      forall c, d | LatestSwingLows(bars, left, right, cut, c, d) ensures c == a && d == b {
        LowPairs(bars, left, right, cut, c, d);
        LastTwoIsOne(labels, m, a, b, c, d);
      }
    } else {
      forall c, d ensures !LatestSwingLows(bars, left, right, cut, c, d) {
        LowPairs(bars, left, right, cut, c, d);
      }
    }
  }

  /** Re-running swing detection on every cut sees what one pass over the whole series shows: the
      trend after `cut` bars is read off the full labels below `cut - right`. */
  lemma TrendFromSinglePass(bars: seq<Bar>, left: int, right: int, cut: nat)
    requires left >= 1 && right >= 1 && cut <= |bars|
    ensures var full := SwingLabels(bars, left, right);
            var m := MaxInt(0, cut - right);
            TrendAfter(bars, left, right, cut)
            == TrendOfLevels(Levels(full.high, Highs(bars), m), Levels(full.low, Lows(bars), m))
  {
    var full, sub := SwingLabels(bars, left, right), SwingLabels(bars[..cut], left, right);
    var m := MaxInt(0, cut - right);
    forall i | 0 <= i < cut
      ensures if i < m then sub.high[i] == full.high[i] && sub.low[i] == full.low[i] else !sub.high[i] && !sub.low[i]
    {
      PrefixStability(bars, left, right, cut, i);
    }
    LevelsStop(sub.high, Highs(bars[..cut]), m, cut);
    LevelsStop(sub.low, Lows(bars[..cut]), m, cut);
    LevelsAgree(sub.high, Highs(bars[..cut]), full.high, Highs(bars), m);
    LevelsAgree(sub.low, Lows(bars[..cut]), full.low, Lows(bars), m);
  }

  /** What the classification means: an uptrend is exactly two latest confirmed swing highs that rise and two
      latest confirmed swing lows that rise, a downtrend exactly two of each that fall. */
  lemma TrendIff(bars: seq<Bar>, left: int, right: int, cut: nat)
    requires left >= 1 && right >= 1 && cut <= |bars|
    ensures TrendAfter(bars, left, right, cut) == Uptrend
            <==> HighsRise(bars, left, right, cut) && LowsRise(bars, left, right, cut)
    ensures TrendAfter(bars, left, right, cut) == Downtrend
            <==> HighsFall(bars, left, right, cut) && LowsFall(bars, left, right, cut)
  {
    hide TrendAfter, SwingLabels, Levels, Highs, Lows, HighsRise, HighsFall, LowsRise, LowsFall;
    TrendFromSinglePass(bars, left, right, cut);
    HighLevelsMove(bars, left, right, cut);
    LowLevelsMove(bars, left, right, cut);
  }

  // ---- Breaks of structure ----------------------------------------------

  /** The most recent labelled index before `i`. */
  function LastBefore(labels: seq<bool>, i: nat): (r: Option<nat>)
    requires i <= |labels|
    ensures r.Some? ==> r.value < i && labels[r.value] && forall j :: r.value < j < i ==> !labels[j]
    ensures r.None? ==> forall j :: 0 <= j < i ==> !labels[j]
  {
    if i == 0 then None else if labels[i - 1] then Some(i - 1) else LastBefore(labels, i - 1)
  }

  predicate BreaksUp(bars: seq<Bar>, swings: Swings, i: nat)
    requires |swings.high| == |swings.low| == |bars| && i < |bars|
  {
    var p := LastBefore(swings.high, i);
    p.Some? && bars[i].close > bars[p.value].high
  }

  predicate BreaksDown(bars: seq<Bar>, swings: Swings, i: nat)
    requires |swings.high| == |swings.low| == |bars| && i < |bars|
  {
    var p := LastBefore(swings.low, i);
    p.Some? && bars[i].close < bars[p.value].low
  }

  /** What the walk ends with: the last bar from 1 on that broke either way, up before down. */
  ghost predicate IsLastBreak(bars: seq<Bar>, swings: Swings, n: nat, r: Option<Break>)
    requires |swings.high| == |swings.low| == |bars| && n <= |bars|
  {
    match r
    case None => forall i :: 1 <= i < n ==> !BreaksUp(bars, swings, i) && !BreaksDown(bars, swings, i)
    case Some(b) =>
      && 1 <= b.barIndex < n
      && (forall i :: b.barIndex < i < n ==> !BreaksUp(bars, swings, i) && !BreaksDown(bars, swings, i))
      && (if BreaksUp(bars, swings, b.barIndex)
          then b.direction == Bullish && b.level == bars[LastBefore(swings.high, b.barIndex).value].high
          else BreaksDown(bars, swings, b.barIndex)
               && b.direction == Bearish && b.level == bars[LastBefore(swings.low, b.barIndex).value].low)
  }

  function BreakAt(bars: seq<Bar>, swings: Swings, i: nat): Option<Break>
    requires |swings.high| == |swings.low| == |bars| && i < |bars|
  {
    if BreaksUp(bars, swings, i) then Some(Break(Bullish, i, bars[LastBefore(swings.high, i).value].high))
    else if BreaksDown(bars, swings, i) then Some(Break(Bearish, i, bars[LastBefore(swings.low, i).value].low))
    else None
  }

  function LastBreak(bars: seq<Bar>, swings: Swings, n: nat): (r: Option<Break>)
    requires |swings.high| == |swings.low| == |bars| && n <= |bars|
    ensures IsLastBreak(bars, swings, n, r)
  {
    if n <= 1 then None
    else if BreakAt(bars, swings, n - 1).Some? then BreakAt(bars, swings, n - 1)
    else LastBreak(bars, swings, n - 1)
  }

  /** The forward walk of the source: the bullish test runs first and each test only records an event
      later than the one on record. */
  method LastBreakOfStructure(bars: seq<Bar>, swings: Swings) returns (lastEvent: Option<Break>)
    requires |swings.high| == |swings.low| == |bars|
    ensures lastEvent == LastBreak(bars, swings, |bars|)
    ensures IsLastBreak(bars, swings, |bars|, lastEvent)
  {
    hide IsLastBreak, LastBefore;
    lastEvent := None;
    var i := 1;
    while i < |bars|
      invariant 1 <= i
      invariant |bars| > 0 ==> i <= |bars|
      invariant lastEvent == LastBreak(bars, swings, if i <= |bars| then i else 0)
      invariant lastEvent.Some? ==> lastEvent.value.barIndex < i
    {
      ghost var before := lastEvent;
      assert LastBreak(bars, swings, i + 1) ==
                if BreakAt(bars, swings, i).Some? then BreakAt(bars, swings, i) else before;
      var ph := LastBefore(swings.high, i);
      var pl := LastBefore(swings.low, i);
      if ph.Some? {
        var level := bars[ph.value].high;
        if bars[i].close > level && (lastEvent.None? || i > lastEvent.value.barIndex) {
          lastEvent := Some(Break(Bullish, i, level));
        }
      }
      if pl.Some? {
        var level := bars[pl.value].low;
        if bars[i].close < level && (lastEvent.None? || i > lastEvent.value.barIndex) {
          lastEvent := Some(Break(Bearish, i, level));
        }
      }
      i := i + 1;
    }
  }
}
