/** The trend-following signal: higher-timeframe bias, break of structure, stop and target. */
module TrendSignal {
  import opened Market
  import opened Numbers
  import opened Structure

  const PREMIUM_FIB_LO := 0.618
  const PREMIUM_FIB_HI := 0.786

  datatype Params = Params(
    swingLeft: int,
    swingRight: int,
    tpRMultiple: real,
    atrPeriod: int,
    atrSlMultiplier: real,
    slAtrBuffer: real,
    reversalLookback: int,
    premium: bool)

  /** What the strategy takes from library code: resampling (which may fail), the last ATR value
      (absent for NaN) and the pin-bar test of the last bar. */
  datatype Indicators = Indicators(
    resample: seq<Bar> -> Option<seq<Bar>>,
    atr: seq<Bar> -> Option<real>,
    pinBar: (seq<Bar>, Direction) -> bool)

  datatype HoldReason =
    | InsufficientBars | ResampleFailed | InsufficientHtfBars | ReversalInProgress | HtfRange
    | NoBreak | BreakAgainstBias | NotInPremiumZone | NoPinBar | ZeroRisk

  datatype Outcome =
    | Held(reason: HoldReason)
    | Trade(side: Side, close: real, sl: real, tp: real)

  /** What the constructor accepts, with multipliers that are not negative. */
  ghost predicate ValidParams(p: Params)
  {
    p.swingLeft >= 1 && p.swingRight >= 1 && p.tpRMultiple >= 1.0 && p.atrSlMultiplier >= 0.0 && p.slAtrBuffer >= 0.0
  }

  // ---- Higher-timeframe bias --------------------------------------------

  function FirstCut(p: Params, n: nat): int
  {
    MaxInt(p.swingLeft + p.swingRight + 1, n - p.reversalLookback)
  }

  /** The trend seen after each of the cuts `from..n`. */
  function BiasHistory(p: Params, htf: seq<Bar>, from: nat): (h: seq<Trend>)
    ensures |h| == if from <= |htf| then |htf| + 1 - from else 0
    ensures forall k :: 0 <= k < |h| ==> h[k] == TrendAfter(htf, p.swingLeft, p.swingRight, from + k)
  {
    if from <= |htf|
    then seq(|htf| + 1 - from, k requires 0 <= k < |htf| + 1 - from =>
           TrendAfter(htf, p.swingLeft, p.swingRight, from + k))
    else []
  }

  method HtfBiasRecentHistory(p: Params, htf: seq<Bar>) returns (history: seq<Trend>)
    requires ValidParams(p)
    ensures history == BiasHistory(p, htf, FirstCut(p, |htf|))
  {
    history := [];
    var n := |htf|;
    ghost var expected := BiasHistory(p, htf, FirstCut(p, n));
    var first := FirstCut(p, n);
    var cut := first;
    while cut < n + 1
      invariant first <= cut <= MaxInt(first, n + 1)
      invariant |history| == cut - first <= |expected|
      invariant forall k :: 0 <= k < |history| ==> history[k] == expected[k]
    {
      var sub := htf[..cut];
      var swings := DetectSwings(sub, p.swingLeft, p.swingRight);
      assert expected[cut - first] == TrendAfter(htf, p.swingLeft, p.swingRight, cut);
      history := history + [ClassifyTrend(sub, swings.value)];
      cut := cut + 1;
    }
    assert history == expected;
  }

  /** A decided trend in the history that disagrees with the current one. */
  predicate ReversalSeen(bias: Trend, history: seq<Trend>)
  {
    var prior := if |history| > 1 then history[..|history| - 1] else history;
    bias != Ranging && exists t :: t in prior && t != Ranging && t != bias
  }

  // ---- Stop, target and zone --------------------------------------------

  /** Distance of the stop beyond the opposing swing. */
  function Buffer(p: Params, atr: real): real { atr * p.slAtrBuffer }

  /** Distance of the stop from the entry when there is no opposing swing. */
  function Fallback(p: Params, atr: real): real { p.atrSlMultiplier * atr }

  function TargetDistance(p: Params, risk: real): real { p.tpRMultiple * risk }

  function StructuralSl(p: Params, bars: seq<Bar>, swings: Swings, direction: Direction, atr: real, entry: real): real
    requires |swings.high| == |swings.low| == |bars|
  {
    match direction
    case Bullish =>
      var l := LastBefore(swings.low, |bars|);
      if l.Some? then bars[l.value].low - Buffer(p, atr) else entry - Fallback(p, atr)
    case Bearish =>
      var h := LastBefore(swings.high, |bars|);
      if h.Some? then bars[h.value].high + Buffer(p, atr) else entry + Fallback(p, atr)
  }

  predicate PremiumZone(bars: seq<Bar>, swings: Swings, direction: Direction)
    requires |swings.high| == |swings.low| == |bars| && bars != []
  {
    var h, l := LastBefore(swings.high, |bars|), LastBefore(swings.low, |bars|);
    h.Some? && l.Some? &&
    var hi, lo := bars[h.value].high, bars[l.value].low;
    hi > lo &&
    var span := hi - lo;
    var close := bars[|bars| - 1].close;
    match direction
    case Bullish => hi - PREMIUM_FIB_HI * span <= close <= hi - PREMIUM_FIB_LO * span
    case Bearish => lo + PREMIUM_FIB_LO * span <= close <= lo + PREMIUM_FIB_HI * span
  }

  /** The stop and the fixed-multiple target around the last close. */
  function BuildTrade(p: Params, bars: seq<Bar>, swings: Swings, direction: Direction, atr: real): Outcome
    requires |swings.high| == |swings.low| == |bars| && bars != []
  {
    var close := bars[|bars| - 1].close;
    var sl := StructuralSl(p, bars, swings, direction, atr, close);
    var risk := AbsReal(close - sl);
    if risk <= 0.0 then Held(ZeroRisk)
    else if direction == Bullish then Trade(Buy, close, sl, close + TargetDistance(p, risk))
    else Trade(Sell, close, sl, close - TargetDistance(p, risk))
  }

  function MinBars(p: Params): int
  {
    MaxInt(MaxInt(p.swingLeft + p.swingRight + 4, p.atrPeriod + 2), 20)
  }

  function AtrValue(ind: Indicators, bars: seq<Bar>): real
  {
    if ind.atr(bars).Some? then ind.atr(bars).value else 0.0
  }

  function GenerateSignal(p: Params, ind: Indicators, bars: seq<Bar>): Outcome
  {
    if |bars| < MinBars(p) then Held(InsufficientBars)
    else
      var resampled := ind.resample(bars);
      if resampled.None? then Held(ResampleFailed)
      else
        var htf := resampled.value;
        if |htf| < p.swingLeft + p.swingRight + 4 then Held(InsufficientHtfBars)
        else
          var bias := ClassifyTrend(htf, SwingLabels(htf, p.swingLeft, p.swingRight));
          if ReversalSeen(bias, BiasHistory(p, htf, MaxInt(0, FirstCut(p, |htf|)))) then Held(ReversalInProgress)
          else if bias == Ranging then Held(HtfRange)
          else LowerTimeframe(p, ind, bars, bias)
  }

  function LowerTimeframe(p: Params, ind: Indicators, bars: seq<Bar>, bias: Trend): Outcome
    requires bars != []
  {
    var swings := SwingLabels(bars, p.swingLeft, p.swingRight);
    var bos := LastBreak(bars, swings, |bars|);
    if bos.None? then Held(NoBreak)
    else
      var direction := bos.value.direction;
      if !((bias == Uptrend && direction == Bullish) || (bias == Downtrend && direction == Bearish))
      then Held(BreakAgainstBias)
      else if p.premium && !PremiumZone(bars, swings, direction) then Held(NotInPremiumZone)
      else if p.premium && !ind.pinBar(bars, direction) then Held(NoPinBar)
      else BuildTrade(p, bars, swings, direction, AtrValue(ind, bars))
  }

  // ---- Properties -------------------------------------------------------

  function DirectionOf(side: Side): Direction { if side == Buy then Bullish else Bearish }

  /** The last break has the trade's direction and the levels come from it. */
  ghost predicate FollowsBreak(p: Params, ind: Indicators, bars: seq<Bar>, t: Outcome)
    requires t.Trade?
  {
    && bars != []
    && var s, direction := SwingLabels(bars, p.swingLeft, p.swingRight), DirectionOf(t.side);
    && LastBreak(bars, s, |bars|).Some? && LastBreak(bars, s, |bars|).value.direction == direction
    && t == BuildTrade(p, bars, s, direction, AtrValue(ind, bars))
    && (p.premium ==> PremiumZone(bars, s, direction))
  }

  lemma SignalShape(p: Params, ind: Indicators, bars: seq<Bar>)
    requires ValidParams(p)
    ensures var t := GenerateSignal(p, ind, bars); t.Trade? ==> FollowsBreak(p, ind, bars, t)
  {
    hide PremiumZone, ReversalSeen, ClassifyTrend, IsLastBreak, LastBreak,
         StructuralSl, SwingLabels, FirstCut, BiasHistory;
  }

  /** The trade goes with the higher-timeframe trend, and cut `k` of the lookback does not show the
      opposite one. */
  ghost predicate FollowsTrend(p: Params, ind: Indicators, bars: seq<Bar>, t: Outcome, k: nat)
    requires t.Trade?
  {
    var trend := if t.side == Buy then Uptrend else Downtrend;
    && ind.resample(bars).Some?
    && var htf := ind.resample(bars).value;
    && TrendAfter(htf, p.swingLeft, p.swingRight, |htf|) == trend
    && (p.swingLeft + p.swingRight < k <= |htf| && |htf| - k <= p.reversalLookback ==>
          TrendAfter(htf, p.swingLeft, p.swingRight, k) in {trend, Ranging})
  }

  /** A trade is only signalled with the higher-timeframe trend, and with no cut of the recent history
      showing the opposite trend. */
  lemma TradesFollowTheBias(p: Params, ind: Indicators, bars: seq<Bar>, k: nat)
    requires ValidParams(p)
    ensures var t := GenerateSignal(p, ind, bars); t.Trade? ==> FollowsTrend(p, ind, bars, t, k)
  {
    hide PremiumZone, ClassifyTrend, IsLastBreak, LastBreak, StructuralSl, SwingLabels;
    if GenerateSignal(p, ind, bars).Trade? {
      var htf := ind.resample(bars).value;
      assert htf[..|htf|] == htf;
      FirstCutPositive(p, |htf|);
      if FirstCut(p, |htf|) <= k < |htf| {
        NoReversal(p, htf, ClassifyTrend(htf, SwingLabels(htf, p.swingLeft, p.swingRight)), k);
      }
    }
  }

  lemma FirstCutPositive(p: Params, n: nat)
    requires ValidParams(p)
    ensures FirstCut(p, n) >= 3
  {
  }

  lemma NoReversal(p: Params, htf: seq<Bar>, bias: Trend, k: nat)
    requires ValidParams(p) && bias != Ranging && FirstCut(p, |htf|) <= k < |htf|
    requires FirstCut(p, |htf|) >= 0 && !ReversalSeen(bias, BiasHistory(p, htf, FirstCut(p, |htf|)))
    ensures TrendAfter(htf, p.swingLeft, p.swingRight, k) in {bias, Ranging}
  {
    hide ClassifyTrend, SwingLabels;
    var first := FirstCut(p, |htf|);
    var history := BiasHistory(p, htf, first);
    assert !ReversalSeen(bias, history);
    var prior := history[..|history| - 1];
    assert prior[k - first] == history[k - first] == TrendAfter(htf, p.swingLeft, p.swingRight, first + (k - first));
    assert TrendAfter(htf, p.swingLeft, p.swingRight, k) in prior;
  }

  lemma HistoryIsSteadyIff(p: Params, htf: seq<Bar>, bias: Trend)
    requires ValidParams(p) && FirstCut(p, |htf|) >= 0
    requires bias == TrendAfter(htf, p.swingLeft, p.swingRight, |htf|) != Ranging
    ensures !ReversalSeen(bias, BiasHistory(p, htf, FirstCut(p, |htf|))) <==> NoOppositeTrend(p, htf, bias)
  {
    hide TrendAfter;
    var first := FirstCut(p, |htf|);
    var history := BiasHistory(p, htf, first);
    if !ReversalSeen(bias, history) {
      forall k | first <= k < |htf| ensures TrendAfter(htf, p.swingLeft, p.swingRight, k) in {bias, Ranging} {
        NoReversal(p, htf, bias, k);
      }
    } else {
      var t :| t in (if |history| > 1 then history[..|history| - 1] else history) && t != Ranging && t != bias;
      var j :| 0 <= j < |history| && history[j] == t;
      assert t == TrendAfter(htf, p.swingLeft, p.swingRight, first + j);
      assert first + j < |htf|;
    }
  }

  /** `i` is the latest swing low of the series. */
  ghost predicate LatestLow(p: Params, bars: seq<Bar>, i: int)
  {
    IsSwingLow(bars, p.swingLeft, p.swingRight, i)
    && forall j :: i < j ==> !IsSwingLow(bars, p.swingLeft, p.swingRight, j)
  }

  ghost predicate LatestHigh(p: Params, bars: seq<Bar>, i: int)
  {
    IsSwingHigh(bars, p.swingLeft, p.swingRight, i)
    && forall j :: i < j ==> !IsSwingHigh(bars, p.swingLeft, p.swingRight, j)
  }

  lemma LatestLowIsLast(p: Params, bars: seq<Bar>, i: int)
    ensures var l := LastBefore(SwingLabels(bars, p.swingLeft, p.swingRight).low, |bars|);
            && (LatestLow(p, bars, i) <==> l.Some? && l.value == i)
            && (l.None? <==> forall j :: !IsSwingLow(bars, p.swingLeft, p.swingRight, j))
  {
    assert forall j :: IsSwingLow(bars, p.swingLeft, p.swingRight, j) ==> 0 <= j < |bars|;
    hide IsSwingLow, IsSwingHigh;
    var labels := SwingLabels(bars, p.swingLeft, p.swingRight).low;
    assert forall j :: 0 <= j < |bars| ==> labels[j] == IsSwingLow(bars, p.swingLeft, p.swingRight, j);
    hide SwingLabels;
  }

  lemma LatestHighIsLast(p: Params, bars: seq<Bar>, i: int)
    ensures var h := LastBefore(SwingLabels(bars, p.swingLeft, p.swingRight).high, |bars|);
            && (LatestHigh(p, bars, i) <==> h.Some? && h.value == i)
            && (h.None? <==> forall j :: !IsSwingHigh(bars, p.swingLeft, p.swingRight, j))
  {
    assert forall j :: IsSwingHigh(bars, p.swingLeft, p.swingRight, j) ==> 0 <= j < |bars|;
    hide IsSwingLow, IsSwingHigh;
    var labels := SwingLabels(bars, p.swingLeft, p.swingRight).high;
    assert forall j :: 0 <= j < |bars| ==> labels[j] == IsSwingHigh(bars, p.swingLeft, p.swingRight, j);
    hide SwingLabels;
  }

  /** Between the latest swing low and the latest, higher, swing high the close has given back from 61.8 to
      78.6 percent of the move. */
  ghost predicate PremiumRetrace(p: Params, bars: seq<Bar>, direction: Direction, high: int, low: int)
    requires bars != []
  {
    && LatestHigh(p, bars, high) && LatestLow(p, bars, low)
    && var hi, lo, close := bars[high].high, bars[low].low, bars[|bars| - 1].close;
    && hi > lo
    && (if direction == Bullish then 0.618 * (hi - lo) <= hi - close <= 0.786 * (hi - lo)
        else 0.618 * (hi - lo) <= close - lo <= 0.786 * (hi - lo))
  }

  lemma PremiumZoneIff(p: Params, bars: seq<Bar>, direction: Direction)
    requires bars != []
    ensures PremiumZone(bars, SwingLabels(bars, p.swingLeft, p.swingRight), direction)
            <==> exists high, low :: PremiumRetrace(p, bars, direction, high, low)
  {
    hide SwingLabels, LastBefore, LatestHigh, LatestLow, IsSwingHigh, IsSwingLow;
    var s := SwingLabels(bars, p.swingLeft, p.swingRight);
    var h, l := LastBefore(s.high, |bars|), LastBefore(s.low, |bars|);
    if PremiumZone(bars, s, direction) {
      LatestHighIsLast(p, bars, h.value);
      LatestLowIsLast(p, bars, l.value);
      assert PremiumRetrace(p, bars, direction, h.value, l.value);
    } else {
      forall high, low ensures !PremiumRetrace(p, bars, direction, high, low) {
        LatestHighIsLast(p, bars, high);
        LatestLowIsLast(p, bars, low);
      }
    }
  }

  /** No cut of the lookback before the whole series shows the opposite trend. */
  ghost predicate NoOppositeTrend(p: Params, htf: seq<Bar>, trend: Trend)
  {
    forall k: nat :: p.swingLeft + p.swingRight < k < |htf| && |htf| - k <= p.reversalLookback ==>
      TrendAfter(htf, p.swingLeft, p.swingRight, k) in {trend, Ranging}
  }

  /** Enough data, a steady higher-timeframe trend, a last break in its direction, the premium
      confirmations where asked for, and a stop that is not the close itself. */
  ghost predicate Confirmed(p: Params, ind: Indicators, bars: seq<Bar>)
  {
    && |bars| >= 20 && |bars| >= p.atrPeriod + 2 && |bars| >= p.swingLeft + p.swingRight + 4
    && ind.resample(bars).Some?
    && var htf := ind.resample(bars).value;
    && |htf| >= p.swingLeft + p.swingRight + 4
    && var trend := TrendAfter(htf, p.swingLeft, p.swingRight, |htf|);
    && trend != Ranging
    && NoOppositeTrend(p, htf, trend)
    && var direction := if trend == Uptrend then Bullish else Bearish;
    && BreakConfirms(p, ind, bars, direction)
  }

  ghost predicate BreakConfirms(p: Params, ind: Indicators, bars: seq<Bar>, direction: Direction)
    requires bars != []
  {
    var s := SwingLabels(bars, p.swingLeft, p.swingRight);
    var close := bars[|bars| - 1].close;
    && LastBreak(bars, s, |bars|).Some? && LastBreak(bars, s, |bars|).value.direction == direction
    && (p.premium ==> ind.pinBar(bars, direction))
    && (p.premium ==> exists high, low :: PremiumRetrace(p, bars, direction, high, low))
    && StructuralSl(p, bars, s, direction, AtrValue(ind, bars), close) != close
  }

  lemma BreakConfirmsIff(p: Params, ind: Indicators, bars: seq<Bar>, bias: Trend)
    requires bars != [] && bias != Ranging
    ensures LowerTimeframe(p, ind, bars, bias).Trade?
            <==> BreakConfirms(p, ind, bars, if bias == Uptrend then Bullish else Bearish)
  {
    hide PremiumZone, PremiumRetrace, LastBreak, IsLastBreak, StructuralSl, SwingLabels, AtrValue;
    PremiumZoneIff(p, bars, if bias == Uptrend then Bullish else Bearish);
  }

  /** A trade is signalled exactly when everything confirms it. */
  lemma SignalIff(p: Params, ind: Indicators, bars: seq<Bar>)
    requires ValidParams(p)
    ensures GenerateSignal(p, ind, bars).Trade? <==> Confirmed(p, ind, bars)
  {
    hide LowerTimeframe, BreakConfirms, ReversalSeen, BiasHistory, ClassifyTrend,
         SwingLabels, NoOppositeTrend, FirstCut;
    if |bars| >= MinBars(p) && ind.resample(bars).Some? {
      var htf := ind.resample(bars).value;
      assert htf[..|htf|] == htf;
      FirstCutPositive(p, |htf|);
      var bias := ClassifyTrend(htf, SwingLabels(htf, p.swingLeft, p.swingRight));
      if bias != Ranging {
        HistoryIsSteadyIff(p, htf, bias);
        BreakConfirmsIff(p, ind, bars, bias);
      }
    }
  }

  /** Why a break with a steady higher-timeframe trend in a direction is not traded. */
  ghost predicate BreakFails(p: Params, ind: Indicators, bars: seq<Bar>, direction: Direction, reason: HoldReason)
    requires bars != []
  {
    var s := SwingLabels(bars, p.swingLeft, p.swingRight);
    var bos, close := LastBreak(bars, s, |bars|), bars[|bars| - 1].close;
    if bos == None then reason == NoBreak
    else if bos.value.direction != direction then reason == BreakAgainstBias
    else if p.premium && !(exists high, low :: PremiumRetrace(p, bars, direction, high, low))
    then reason == NotInPremiumZone
    else if p.premium && !ind.pinBar(bars, direction) then reason == NoPinBar
    else reason == ZeroRisk && StructuralSl(p, bars, s, direction, AtrValue(ind, bars), close) == close
  }

  /** The reason for holding is the first thing that is missing. */
  ghost predicate HeldFor(p: Params, ind: Indicators, bars: seq<Bar>, reason: HoldReason)
  {
    if |bars| < 20 || |bars| < p.atrPeriod + 2 || |bars| < p.swingLeft + p.swingRight + 4
    then reason == InsufficientBars
    else if ind.resample(bars) == None then reason == ResampleFailed
    else
      var htf := ind.resample(bars).value;
      if |htf| < p.swingLeft + p.swingRight + 4 then reason == InsufficientHtfBars
      else
        var trend := TrendAfter(htf, p.swingLeft, p.swingRight, |htf|);
        if trend == Ranging then reason == HtfRange
        else if !NoOppositeTrend(p, htf, trend) then reason == ReversalInProgress
        else bars != [] && BreakFails(p, ind, bars, if trend == Uptrend then Bullish else Bearish, reason)
  }

  lemma BreakFailsFor(p: Params, ind: Indicators, bars: seq<Bar>, bias: Trend)
    requires bars != [] && bias != Ranging && LowerTimeframe(p, ind, bars, bias).Held?
    ensures BreakFails(p, ind, bars, if bias == Uptrend then Bullish else Bearish,
                       LowerTimeframe(p, ind, bars, bias).reason)
  {
    hide PremiumZone, PremiumRetrace, LastBreak, IsLastBreak, StructuralSl, SwingLabels, AtrValue;
    PremiumZoneIff(p, bars, if bias == Uptrend then Bullish else Bearish);
  }

  /** Whatever is not traded is held for the first reason there is. */
  lemma HoldReasons(p: Params, ind: Indicators, bars: seq<Bar>)
    requires ValidParams(p)
    ensures var t := GenerateSignal(p, ind, bars); t.Held? ==> HeldFor(p, ind, bars, t.reason)
  {
    hide LowerTimeframe, BreakFails, ReversalSeen, BiasHistory, ClassifyTrend, SwingLabels, NoOppositeTrend, FirstCut;
    if |bars| >= MinBars(p) && ind.resample(bars).Some? {
      var htf := ind.resample(bars).value;
      assert htf[..|htf|] == htf;
      FirstCutPositive(p, |htf|);
      var bias := ClassifyTrend(htf, SwingLabels(htf, p.swingLeft, p.swingRight));
      if bias != Ranging {
        HistoryIsSteadyIff(p, htf, bias);
        if LowerTimeframe(p, ind, bars, bias).Held? { BreakFailsFor(p, ind, bars, bias); }
      } else {
        RangingHasNoReversal(BiasHistory(p, htf, MaxInt(0, FirstCut(p, |htf|))));
      }
    }
  }

  lemma RangingHasNoReversal(history: seq<Trend>)
    ensures !ReversalSeen(Ranging, history)
  {
  }

  /** The last swings precede the last bar, so the last bar's break test looks at exactly them. */
  lemma LastSwingPrecedesLastBar(bars: seq<Bar>, left: int, right: int)
    requires left >= 1 && right >= 1 && bars != []
    ensures var s := SwingLabels(bars, left, right);
            && LastBefore(s.high, |bars|) == LastBefore(s.high, |bars| - 1)
            && LastBefore(s.low, |bars|) == LastBefore(s.low, |bars| - 1)
  {
    var s := SwingLabels(bars, left, right);
    assert !s.high[|bars| - 1] && !s.low[|bars| - 1];
  }

  /** How the walk's result constrains the last bar: a bearish end means no upward break there, and a
      bullish end means an upward break there or no downward one (up is tested first). */
  lemma LastBarOfWalk(bars: seq<Bar>, swings: Swings)
    requires |swings.high| == |swings.low| == |bars|
    requires LastBreak(bars, swings, |bars|).Some?
    ensures |bars| >= 2
    ensures LastBreak(bars, swings, |bars|).value.direction == Bearish ==> !BreaksUp(bars, swings, |bars| - 1)
    ensures LastBreak(bars, swings, |bars|).value.direction == Bullish
            ==> BreaksUp(bars, swings, |bars| - 1) || !BreaksDown(bars, swings, |bars| - 1)
  {
    hide BreaksUp, BreaksDown;
    assert IsLastBreak(bars, swings, |bars|, LastBreak(bars, swings, |bars|));
  }

  lemma DistancesNonNegative(p: Params, atr: real)
    requires ValidParams(p) && atr >= 0.0
    ensures Buffer(p, atr) >= 0.0 && Fallback(p, atr) >= 0.0
  {
  }

  lemma TargetIsFarther(p: Params, risk: real)
    requires p.tpRMultiple >= 1.0 && risk > 0.0
    ensures TargetDistance(p, risk) >= risk
  {
    assert (p.tpRMultiple - 1.0) * risk >= 0.0;
  }

  lemma BuiltTarget(p: Params, bars: seq<Bar>, swings: Swings, direction: Direction, atr: real)
    requires |swings.high| == |swings.low| == |bars| && bars != []
    requires p.tpRMultiple >= 1.0
    requires BuildTrade(p, bars, swings, direction, atr).Trade?
    ensures var t := BuildTrade(p, bars, swings, direction, atr);
            && t.close == bars[|bars| - 1].close
            && t.sl == StructuralSl(p, bars, swings, direction, atr, t.close) != t.close
            && DirectionOf(t.side) == direction
            && AbsReal(t.tp - t.close) == TargetDistance(p, AbsReal(t.close - t.sl))
            && (if t.side == Buy then t.tp > t.close else t.tp < t.close)
  {
    hide StructuralSl, TargetDistance;
    var t := BuildTrade(p, bars, swings, direction, atr);
    TargetIsFarther(p, AbsReal(t.close - t.sl));
  }

  /** Whatever is signalled, the target lies `tp_r_multiple` times as far from the close as the stop. */
  lemma TargetIsMultipleOfRisk(p: Params, ind: Indicators, bars: seq<Bar>)
    requires ValidParams(p)
    ensures var t := GenerateSignal(p, ind, bars);
            t.Trade? ==>
              && AbsReal(t.tp - t.close) == p.tpRMultiple * AbsReal(t.close - t.sl)
              && t.sl != t.close
              && (if t.side == Buy then t.tp > t.close else t.tp < t.close)
  {
    hide GenerateSignal, BuildTrade, StructuralSl, TargetDistance, LastBreak, IsLastBreak,
         PremiumZone, SwingLabels, AbsReal;
    SignalShape(p, ind, bars);
    var t := GenerateSignal(p, ind, bars);
    if t.Trade? {
      BuiltTarget(p, bars, SwingLabels(bars, p.swingLeft, p.swingRight), DirectionOf(t.side), AtrValue(ind, bars));
      TargetIsTimesRisk(p, AbsReal(t.close - t.sl));
    }
  }

  lemma TargetIsTimesRisk(p: Params, risk: real)
    ensures TargetDistance(p, risk) == p.tpRMultiple * risk
  {
  }

  /** A BUY's stop: `sl_atr_buffer` ATRs under the latest swing low, or `atr_sl_multiplier` ATRs under the
      close when there is no swing low. An absent ATR counts as zero. */
  ghost predicate BuyStop(p: Params, ind: Indicators, bars: seq<Bar>, t: Outcome)
    requires t.Trade?
  {
    var atr := if ind.atr(bars).Some? then ind.atr(bars).value else 0.0;
    && (forall i :: LatestLow(p, bars, i) ==> t.sl == bars[i].low - atr * p.slAtrBuffer)
    && ((forall i :: !IsSwingLow(bars, p.swingLeft, p.swingRight, i)) ==> t.sl == t.close - p.atrSlMultiplier * atr)
  }

  /** A SELL's stop: the same distances above the latest swing high, or above the close. */
  ghost predicate SellStop(p: Params, ind: Indicators, bars: seq<Bar>, t: Outcome)
    requires t.Trade?
  {
    var atr := if ind.atr(bars).Some? then ind.atr(bars).value else 0.0;
    && (forall i :: LatestHigh(p, bars, i) ==> t.sl == bars[i].high + atr * p.slAtrBuffer)
    && ((forall i :: !IsSwingHigh(bars, p.swingLeft, p.swingRight, i)) ==> t.sl == t.close + p.atrSlMultiplier * atr)
  }

  lemma BuiltFromClose(p: Params, bars: seq<Bar>, swings: Swings, direction: Direction, atr: real)
    requires |swings.high| == |swings.low| == |bars| && bars != []
    requires BuildTrade(p, bars, swings, direction, atr).Trade?
    ensures var t := BuildTrade(p, bars, swings, direction, atr);
            && t.close == bars[|bars| - 1].close
            && t.sl == StructuralSl(p, bars, swings, direction, atr, t.close)
  {
    hide StructuralSl, TargetDistance;
  }

  lemma BuyStopFromSwing(p: Params, ind: Indicators, bars: seq<Bar>, t: Outcome)
    requires t.Trade?
    requires t.sl == StructuralSl(p, bars, SwingLabels(bars, p.swingLeft, p.swingRight), Bullish,
                                  AtrValue(ind, bars), t.close)
    ensures BuyStop(p, ind, bars, t)
  {
    hide SwingLabels, IsSwingLow, LatestLow, LastBefore;
    var l := LastBefore(SwingLabels(bars, p.swingLeft, p.swingRight).low, |bars|);
    LatestLowIsLast(p, bars, if l.Some? then l.value else 0);
    forall i | LatestLow(p, bars, i) ensures l == Some(i) {
      LatestLowIsLast(p, bars, i);
    }
  }

  lemma SellStopFromSwing(p: Params, ind: Indicators, bars: seq<Bar>, t: Outcome)
    requires t.Trade?
    requires t.sl == StructuralSl(p, bars, SwingLabels(bars, p.swingLeft, p.swingRight), Bearish,
                                  AtrValue(ind, bars), t.close)
    ensures SellStop(p, ind, bars, t)
  {
    hide SwingLabels, IsSwingHigh, LatestHigh, LastBefore;
    var h := LastBefore(SwingLabels(bars, p.swingLeft, p.swingRight).high, |bars|);
    LatestHighIsLast(p, bars, if h.Some? then h.value else 0);
    forall i | LatestHigh(p, bars, i) ensures h == Some(i) {
      LatestHighIsLast(p, bars, i);
    }
  }

  /** Every signalled stop is the structural one. */
  lemma StopIsStructural(p: Params, ind: Indicators, bars: seq<Bar>)
    requires ValidParams(p)
    ensures var t := GenerateSignal(p, ind, bars);
            t.Trade? ==> (if t.side == Buy then BuyStop(p, ind, bars, t) else SellStop(p, ind, bars, t))
  {
    hide GenerateSignal, BuildTrade, SwingLabels, LastBreak, IsLastBreak, PremiumZone, BuyStop, SellStop,
         StructuralSl, AtrValue;
    SignalShape(p, ind, bars);
    var t := GenerateSignal(p, ind, bars);
    if t.Trade? {
      var s := SwingLabels(bars, p.swingLeft, p.swingRight);
      BuiltFromClose(p, bars, s, DirectionOf(t.side), AtrValue(ind, bars));
      if t.side == Buy {
        BuyStopFromSwing(p, ind, bars, t);
      } else {
        SellStopFromSwing(p, ind, bars, t);
      }
    }
  }

  /** The last swing low, less the buffer, lies above the last swing high. */
  ghost predicate Inverted(p: Params, bars: seq<Bar>, swings: Swings, atr: real)
    requires |swings.high| == |swings.low| == |bars|
  {
    var h, l := LastBefore(swings.high, |bars|), LastBefore(swings.low, |bars|);
    h.Some? && l.Some? && bars[l.value].low - Buffer(p, atr) > bars[h.value].high
  }

  /** Had the last close been above the last swing high, the walk would have ended with a bullish
      break; so a bearish stop is never below the close. */
  lemma BearishStopAboveClose(p: Params, bars: seq<Bar>, atr: real)
    requires ValidParams(p) && atr >= 0.0 && bars != []
    requires var s := SwingLabels(bars, p.swingLeft, p.swingRight);
             LastBreak(bars, s, |bars|).Some? && LastBreak(bars, s, |bars|).value.direction == Bearish
    ensures StructuralSl(p, bars, SwingLabels(bars, p.swingLeft, p.swingRight), Bearish, atr, bars[|bars| - 1].close)
            >= bars[|bars| - 1].close
  {
    hide LastBreak, IsLastBreak, LastBefore, SwingLabels, Buffer, Fallback;
    LastBarOfWalk(bars, SwingLabels(bars, p.swingLeft, p.swingRight));
    LastSwingPrecedesLastBar(bars, p.swingLeft, p.swingRight);
    DistancesNonNegative(p, atr);
  }

  lemma BullishStopBelowClose(p: Params, bars: seq<Bar>, atr: real)
    requires ValidParams(p) && atr >= 0.0 && bars != []
    requires var s := SwingLabels(bars, p.swingLeft, p.swingRight);
             && !Inverted(p, bars, s, atr)
             && LastBreak(bars, s, |bars|).Some? && LastBreak(bars, s, |bars|).value.direction == Bullish
    ensures StructuralSl(p, bars, SwingLabels(bars, p.swingLeft, p.swingRight), Bullish, atr, bars[|bars| - 1].close)
            <= bars[|bars| - 1].close
  {
    hide LastBreak, IsLastBreak, LastBefore, SwingLabels, Buffer, Fallback;
    LastBarOfWalk(bars, SwingLabels(bars, p.swingLeft, p.swingRight));
    LastSwingPrecedesLastBar(bars, p.swingLeft, p.swingRight);
    DistancesNonNegative(p, atr);
  }

  /** Every SELL is bracketed: target below, stop above the close. */
  lemma SellIsBracketed(p: Params, ind: Indicators, bars: seq<Bar>)
    requires ValidParams(p) && AtrValue(ind, bars) >= 0.0
    ensures var t := GenerateSignal(p, ind, bars); t.Trade? && t.side == Sell ==> t.tp < t.close < t.sl
  {
    hide GenerateSignal, BuildTrade, StructuralSl, LastBreak, IsLastBreak;
    SignalShape(p, ind, bars);
    if GenerateSignal(p, ind, bars).Trade? && GenerateSignal(p, ind, bars).side == Sell {
      BuiltTarget(p, bars, SwingLabels(bars, p.swingLeft, p.swingRight), Bearish, AtrValue(ind, bars));
      BearishStopAboveClose(p, bars, AtrValue(ind, bars));
    }
  }

  /** A BUY is bracketed whenever the last swings are not inverted, in particular whenever the last
      swing high is at or above the last swing low. */
  lemma BuyIsBracketed(p: Params, ind: Indicators, bars: seq<Bar>)
    requires ValidParams(p) && AtrValue(ind, bars) >= 0.0
    requires !Inverted(p, bars, SwingLabels(bars, p.swingLeft, p.swingRight), AtrValue(ind, bars))
    ensures var t := GenerateSignal(p, ind, bars); t.Trade? && t.side == Buy ==> t.sl < t.close < t.tp
  {
    hide GenerateSignal, BuildTrade, StructuralSl, LastBreak, IsLastBreak, Inverted;
    SignalShape(p, ind, bars);
    if GenerateSignal(p, ind, bars).Trade? && GenerateSignal(p, ind, bars).side == Buy {
      BuiltTarget(p, bars, SwingLabels(bars, p.swingLeft, p.swingRight), Bullish, AtrValue(ind, bars));
      BullishStopBelowClose(p, bars, AtrValue(ind, bars));
    }
  }

  /** Premium BUYs are always bracketed: the zone demands a last swing high above the last swing low. */
  lemma PremiumBuyIsBracketed(p: Params, ind: Indicators, bars: seq<Bar>)
    requires ValidParams(p) && AtrValue(ind, bars) >= 0.0 && p.premium
    ensures var t := GenerateSignal(p, ind, bars); t.Trade? && t.side == Buy ==> t.sl < t.close < t.tp
  {
    hide GenerateSignal, BuildTrade, LastBreak, IsLastBreak, LastBefore, Buffer, Fallback;
    SignalShape(p, ind, bars);
    if GenerateSignal(p, ind, bars).Trade? && GenerateSignal(p, ind, bars).side == Buy {
      DistancesNonNegative(p, AtrValue(ind, bars));
      BuyIsBracketed(p, ind, bars);
    }
  }

  function WithLastClose(bars: seq<Bar>, close: real): seq<Bar>
    requires bars != []
  {
    bars[|bars| - 1 := bars[|bars| - 1].(close := close)]
  }

  lemma LastCloseKeepsSwings(p: Params, bars: seq<Bar>, close: real, atr: real)
    requires bars != []
    ensures var s := SwingLabels(bars, p.swingLeft, p.swingRight);
            && SwingLabels(WithLastClose(bars, close), p.swingLeft, p.swingRight) == s
            && (Inverted(p, WithLastClose(bars, close), s, atr) <==> Inverted(p, bars, s, atr))
  {
    var b := WithLastClose(bars, close);
    assert forall i :: 0 <= i < |bars| ==> b[i].high == bars[i].high && b[i].low == bars[i].low;
    var s := SwingLabels(bars, p.swingLeft, p.swingRight);
    assert SwingLabels(b, p.swingLeft, p.swingRight) == s;
    hide LastBefore, SwingLabels, IsSwingHigh, IsSwingLow;
  }

  /** If the walk over the series ends bullish, the structural stop is not above the close. */
  ghost predicate BuyStopHolds(p: Params, bars: seq<Bar>, atr: real)
    requires bars != []
  {
    var s := SwingLabels(bars, p.swingLeft, p.swingRight);
    var bos := LastBreak(bars, s, |bars|);
    var close := bars[|bars| - 1].close;
    bos.Some? && bos.value.direction == Bullish ==> StructuralSl(p, bars, s, Bullish, atr, close) <= close
  }

  /** The level of the last swing high, and the stop under the last swing low. */
  ghost predicate LastSwings(p: Params, bars: seq<Bar>, atr: real, high: real, stop: real)
  {
    var s := SwingLabels(bars, p.swingLeft, p.swingRight);
    var h, l := LastBefore(s.high, |bars|), LastBefore(s.low, |bars|);
    h.Some? && l.Some? && high == bars[h.value].high && stop == bars[l.value].low - Buffer(p, atr)
  }

  /** The swings are inverted and the last candle reaches between the last swing high and the stop. */
  ghost predicate Misplaceable(p: Params, bars: seq<Bar>, atr: real)
    requires bars != []
  {
    var last := bars[|bars| - 1];
    exists high, stop :: LastSwings(p, bars, atr, high, stop) && high < stop && last.low < stop && high < last.high
  }

  /** A stop above the close means that the close lies between the last swing high and the stop. */
  lemma StopAboveClose(p: Params, bars: seq<Bar>, atr: real) returns (high: real, stop: real)
    requires ValidParams(p) && atr >= 0.0 && bars != [] && !BuyStopHolds(p, bars, atr)
    ensures LastSwings(p, bars, atr, high, stop) && high < bars[|bars| - 1].close < stop
  {
    var s := SwingLabels(bars, p.swingLeft, p.swingRight);
    var n := |bars|;
    LastSwingPrecedesLastBar(bars, p.swingLeft, p.swingRight);
    DistancesNonNegative(p, atr);
    hide IsLastBreak, LastBreak, SwingLabels, Buffer, Fallback, LastBefore;
    LastBarOfWalk(bars, s);
    assert LastBefore(s.low, n).Some?;
    stop := bars[LastBefore(s.low, n).value].low - Buffer(p, atr);
    assert BreaksDown(bars, s, n - 1) && BreaksUp(bars, s, n - 1);
    high := bars[LastBefore(s.high, n).value].high;
  }

  /** A close strictly between the last swing high and a stop above it breaks upwards on the last bar,
      below its own stop. */
  lemma CloseBetweenMisplacesStop(p: Params, bars: seq<Bar>, atr: real, high: real, stop: real)
    requires ValidParams(p) && |bars| >= 2
    requires LastSwings(p, bars, atr, high, stop) && high < bars[|bars| - 1].close < stop
    ensures !BuyStopHolds(p, bars, atr)
    ensures LastBreak(bars, SwingLabels(bars, p.swingLeft, p.swingRight), |bars|)
            == Some(Break(Bullish, |bars| - 1, high))
  {
    var s := SwingLabels(bars, p.swingLeft, p.swingRight);
    LastSwingPrecedesLastBar(bars, p.swingLeft, p.swingRight);
    hide IsLastBreak, LastBefore, SwingLabels, Buffer, LastBreak;
    UpBreakOnLastBar(bars, s);
    assert StructuralSl(p, bars, s, Bullish, atr, bars[|bars| - 1].close) == stop;
  }

  lemma UpBreakOnLastBar(bars: seq<Bar>, swings: Swings)
    requires |swings.high| == |swings.low| == |bars| >= 2 && BreaksUp(bars, swings, |bars| - 1)
    ensures LastBreak(bars, swings, |bars|)
         == Some(Break(Bullish, |bars| - 1, bars[LastBefore(swings.high, |bars| - 1).value].high))
  {
    hide LastBefore, IsLastBreak;
    assert BreakAt(bars, swings, |bars| - 1).Some?;
  }

  /** The last close lies between the last swing high and the stop. */
  ghost predicate CloseBetween(p: Params, bars: seq<Bar>, atr: real)
    requires bars != []
  {
    exists high, stop :: LastSwings(p, bars, atr, high, stop) && high < bars[|bars| - 1].close < stop
  }

  /** A signalled BUY is bracketed exactly if the close does not lie between the last swing high and the
      stop. */
  lemma BuyBracketIff(p: Params, ind: Indicators, bars: seq<Bar>)
    requires ValidParams(p) && AtrValue(ind, bars) >= 0.0
    ensures var t := GenerateSignal(p, ind, bars);
            t.Trade? && t.side == Buy ==>
              bars != [] && (t.sl < t.close < t.tp <==> !CloseBetween(p, bars, AtrValue(ind, bars)))
  {
    hide GenerateSignal, BuildTrade, StructuralSl, LastBreak, IsLastBreak, LastSwings, PremiumZone;
    SignalShape(p, ind, bars);
    var t := GenerateSignal(p, ind, bars);
    if t.Trade? && t.side == Buy {
      var atr := AtrValue(ind, bars);
      var s := SwingLabels(bars, p.swingLeft, p.swingRight);
      BuiltTarget(p, bars, s, Bullish, atr);
      LastBarOfWalk(bars, s);
      if CloseBetween(p, bars, atr) {
        var high, stop :| LastSwings(p, bars, atr, high, stop) && high < bars[|bars| - 1].close < stop;
        CloseBetweenMisplacesStop(p, bars, atr, high, stop);
      } else if !BuyStopHolds(p, bars, atr) {
        var high, stop := StopAboveClose(p, bars, atr);
      }
    }
  }

  lemma LastSwingsIgnoreClose(p: Params, bars: seq<Bar>, atr: real, c: real, high: real, stop: real)
    requires bars != []
    ensures LastSwings(p, WithLastClose(bars, c), atr, high, stop) <==> LastSwings(p, bars, atr, high, stop)
  {
    LastCloseKeepsSwings(p, bars, c, atr);
    var b := WithLastClose(bars, c);
    assert |b| == |bars| && forall i :: 0 <= i < |bars| ==> b[i].high == bars[i].high && b[i].low == bars[i].low;
    hide LastBefore, SwingLabels, Buffer, WithLastClose, Inverted;
  }

  /** A close the last candle can have that misplaces the stop. */
  lemma MisplacingClose(p: Params, bars: seq<Bar>, atr: real) returns (c: real)
    requires ValidParams(p) && |bars| >= 2 && bars[|bars| - 1].low <= bars[|bars| - 1].high
    requires Misplaceable(p, bars, atr)
    ensures bars[|bars| - 1].low <= c <= bars[|bars| - 1].high
    ensures !BuyStopHolds(p, WithLastClose(bars, c), atr)
  {
    hide LastSwings, BuyStopHolds;
    var last := bars[|bars| - 1];
    var high, stop :| LastSwings(p, bars, atr, high, stop) && high < stop && last.low < stop && high < last.high;
    c := if last.low > high then last.low else if last.high < stop then last.high else (high + stop) / 2.0;
    LastSwingsIgnoreClose(p, bars, atr, c, high, stop);
    CloseBetweenMisplacesStop(p, WithLastClose(bars, c), atr, high, stop);
  }

  /** Exactly when BUY stops are safe: the stop of a bullish break is at or below the close for every
      close the last candle can have, if and only if that candle does not reach between the last swing
      high and a stop above it. */
  lemma BuyStopIff(p: Params, bars: seq<Bar>, atr: real)
    requires ValidParams(p) && atr >= 0.0 && |bars| >= 2 && bars[|bars| - 1].low <= bars[|bars| - 1].high
    ensures (forall c: real :: bars[|bars| - 1].low <= c <= bars[|bars| - 1].high ==>
               BuyStopHolds(p, WithLastClose(bars, c), atr))
            <==> !Misplaceable(p, bars, atr)
  {
    hide BuyStopHolds, LastSwings;
    var last := bars[|bars| - 1];
    if Misplaceable(p, bars, atr) {
      var c := MisplacingClose(p, bars, atr);
    } else {
      forall c: real | last.low <= c <= last.high
        ensures BuyStopHolds(p, WithLastClose(bars, c), atr)
      {
        if !BuyStopHolds(p, WithLastClose(bars, c), atr) {
          var high, stop := StopAboveClose(p, WithLastClose(bars, c), atr);
          LastSwingsIgnoreClose(p, bars, atr, c, high, stop);
        }
      }
    }
  }
}
