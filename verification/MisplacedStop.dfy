/** A series of valid candles on which the strategy, as configured by default, signals a BUY whose stop is
    above the entry. */
module MisplacedStop {
  import opened Market
  import opened Numbers
  import opened Structure
  import opened TrendSignal

  /** The constructor's defaults. */
  const DEFAULTS := Params(2, 2, 1.5, 14, 1.5, 1.0, 10, false)

  const COUNT := 30

  /** Flat, two rising waves, a gap up after which a swing low forms but no swing high is confirmed, and a
      last candle that falls back into the gap. */
  function Low(i: int): real
  {
    if i <= 9 then 10.0
    else if i <= 12 then 1.0 + i as real
    else if i <= 15 then 37.0 - 2.0 * i as real
    else if i <= 18 then 3.0 * i as real - 38.0
    else if i <= 21 then 52.0 - 2.0 * i as real
    else if i <= 23 then i as real - 11.0
    else if i <= 26 then 76.0 - i as real
    else if i <= 28 then 24.0 + i as real
    else 24.0
  }

  function High(i: int): real { if i <= 23 then Low(i) + 1.0 else 29.0 + i as real }

  function Close(i: int): real { if i < 29 then (Low(i) + High(i)) / 2.0 else 25.0 }

  /** Candles on the four-hour grid, so resampling to four hours changes nothing. */
  function Candle(i: int): Bar { Bar(14400 * i, (Low(i) + High(i)) / 2.0, High(i), Low(i), Close(i), 1) }

  function Candles(): (bars: seq<Bar>)
    ensures |bars| == COUNT && forall i :: 0 <= i < COUNT ==> bars[i] == Candle(i)
  {
    seq(COUNT, i requires 0 <= i < COUNT => Candle(i))
  }

  ghost predicate ValidCandles(bars: seq<Bar>)
  {
    && (forall i :: 0 <= i < |bars| ==> bars[i].low <= bars[i].open <= bars[i].high)
    && (forall i :: 0 <= i < |bars| ==> bars[i].low <= bars[i].close <= bars[i].high)
    && forall i :: 0 < i < |bars| ==> bars[i - 1].time < bars[i].time
  }

  lemma CandlesAreValid()
    ensures ValidCandles(Candles())
  {
  }

  lemma HighsAt(i: int)
    requires 0 <= i < COUNT
    ensures IsSwingHigh(Candles(), 2, 2, i) <==> i == 12 || i == 18
  {
    var bars := Candles();
    hide Low, High;
    if 2 <= i < COUNT - 2 {
      assert bars[i].high == High(i) && bars[i - 1].high == High(i - 1) && bars[i + 1].high == High(i + 1);
      if i == 12 || i == 18 {
        forall j | i - 2 <= j <= i + 2 && j != i ensures bars[j].high < bars[i].high { HighIsTop(i, j); }
      } else {
        NoOtherHigh(i);
      }
    }
  }

  lemma NoOtherHigh(i: int)
    requires 2 <= i < COUNT - 2 && i != 12 && i != 18
    ensures High(i - 1) >= High(i) || High(i + 1) >= High(i)
  {
  }

  lemma HighIsTop(i: int, j: int)
    requires (i == 12 || i == 18) && i - 2 <= j <= i + 2 && j != i
    ensures High(j) < High(i)
  {
  }

  lemma LowsAt(i: int)
    requires 0 <= i < COUNT
    ensures IsSwingLow(Candles(), 2, 2, i) <==> i == 15 || i == 21 || i == 26
  {
    var bars := Candles();
    hide Low, High;
    if 2 <= i < COUNT - 2 {
      assert bars[i].low == Low(i) && bars[i - 1].low == Low(i - 1) && bars[i + 1].low == Low(i + 1);
      if i == 15 || i == 21 || i == 26 {
        forall j | i - 2 <= j <= i + 2 && j != i ensures bars[j].low > bars[i].low { LowIsBottom(i, j); }
      } else {
        NoOtherLow(i);
      }
    }
  }

  lemma NoOtherLow(i: int)
    requires 2 <= i < COUNT - 2 && i != 15 && i != 21 && i != 26
    ensures Low(i - 1) <= Low(i) || Low(i + 1) <= Low(i)
  {
  }

  lemma LowIsBottom(i: int, j: int)
    requires (i == 15 || i == 21 || i == 26) && i - 2 <= j <= i + 2 && j != i
    ensures Low(j) > Low(i)
  {
  }

  function Labels(): (s: Swings)
    ensures |s.high| == |s.low| == COUNT
  {
    SwingLabels(Candles(), 2, 2)
  }

  lemma LabelsAre()
    ensures forall i :: 0 <= i < COUNT ==> (Labels().high[i] <==> i == 12 || i == 18)
    ensures forall i :: 0 <= i < COUNT ==> (Labels().low[i] <==> i == 15 || i == 21 || i == 26)
  {
    hide IsSwingHigh, IsSwingLow, Candle;
    forall i | 0 <= i < COUNT
      ensures Labels().high[i] <==> i == 12 || i == 18
      ensures Labels().low[i] <==> i == 15 || i == 21 || i == 26
    {
      HighsAt(i);
      LowsAt(i);
    }
  }

  // ---- The trend --------------------------------------------------------

  /** The second swing high is above the first, as far as they are in sight. */
  lemma HighLevels(m: nat)
    requires 18 <= m <= COUNT - 2
    ensures var l := Levels(Labels().high, Highs(Candles()), m);
            |l| < 2 || (l[|l| - 2] == 14.0 && l[|l| - 1] == 17.0)
    ensures m > 18 ==> |Levels(Labels().high, Highs(Candles()), m)| >= 2
  {
    LabelsAre();
    assert Highs(Candles())[12] == 14.0 && Highs(Candles())[18] == 17.0;
    hide Levels, Labels, Highs, Candles;
    if m <= 18 {
      OneLevel(Labels().high, Highs(Candles()), 12, m);
    } else {
      LevelsTail(Labels().high, Highs(Candles()), 12, 18, m);
    }
  }

  lemma LowLevels()
    ensures var l := Levels(Labels().low, Lows(Candles()), COUNT - 2);
            |l| >= 2 && l[|l| - 2] == 10.0 && l[|l| - 1] == 50.0
  {
    LabelsAre();
    assert Lows(Candles())[21] == 10.0 && Lows(Candles())[26] == 50.0;
    hide Levels, Labels, Lows, Candles;
    LevelsTail(Labels().low, Lows(Candles()), 21, 26, COUNT - 2);
  }

  lemma TrendAt(cut: nat)
    requires 20 <= cut <= COUNT
    ensures TrendAfter(Candles(), 2, 2, cut) in {Uptrend, Ranging}
    ensures cut == COUNT ==> TrendAfter(Candles(), 2, 2, cut) == Uptrend
  {
    hide Levels, Highs, Lows, SwingLabels, TrendAfter, Candles;
    TrendFromSinglePass(Candles(), 2, 2, cut);
    HighLevels(cut - 2);
    if cut == COUNT { LowLevels(); }
  }

  // ---- The signal -------------------------------------------------------

  lemma SwingsAre(atr: real)
    ensures LastBefore(Labels().high, COUNT) == Some(18) && LastBefore(Labels().low, COUNT) == Some(26)
    ensures Candles()[18].high == 17.0 && Candles()[26].low == 50.0 && Candles()[29].close == 25.0
    ensures LastSwings(DEFAULTS, Candles(), atr, 17.0, 50.0 - atr)
  {
    LabelsAre();
    hide SwingLabels;
    var h, l := LastBefore(Labels().high, COUNT), LastBefore(Labels().low, COUNT);
    assert Labels().high[18] && Labels().low[26];
    assert h == Some(18) && l == Some(26);
  }

  lemma StopIs(atr: real)
    ensures StructuralSl(DEFAULTS, Candles(), Labels(), Bullish, atr, 25.0) == 50.0 - atr
  {
    SwingsAre(atr);
    hide SwingLabels, Candles, LastSwings, LastBefore;
  }

  lemma BreakIs(atr: real)
    requires 0.0 <= atr <= 20.0
    ensures LastBreak(Candles(), Labels(), COUNT) == Some(Break(Bullish, COUNT - 1, 17.0))
  {
    SwingsAre(atr);
    hide SwingLabels, LastBreak, IsLastBreak, Candle, LastSwings, BuyStopHolds;
    CloseBetweenMisplacesStop(DEFAULTS, Candles(), atr, 17.0, 50.0 - atr);
  }

  lemma LastClose()
    ensures Candles()[COUNT - 1].close == 25.0
  {
  }

  lemma SteadyTrend()
    ensures NoOppositeTrend(DEFAULTS, Candles(), Uptrend)
  {
    hide TrendAfter;
    forall k: nat | FirstCut(DEFAULTS, COUNT) <= k < COUNT
      ensures TrendAfter(Candles(), 2, 2, k) in {Uptrend, Ranging} {
      TrendAt(k);
    }
  }

  lemma CandlesAreConfirmed(ind: Indicators, atr: real)
    requires ind.resample(Candles()) == Some(Candles())
    requires ind.atr(Candles()) == Some(atr) && 0.0 <= atr <= 20.0
    ensures Confirmed(DEFAULTS, ind, Candles())
  {
    hide TrendAfter, SwingLabels, LastBreak, IsLastBreak, Candle, StructuralSl, NoOppositeTrend;
    TrendAt(COUNT);
    SteadyTrend();
    BreakIs(atr);
    StopIs(atr);
    LastClose();
  }

  lemma TradeIs(atr: real)
    requires 0.0 <= atr <= 20.0
    ensures BuildTrade(DEFAULTS, Candles(), Labels(), Bullish, atr)
         == Trade(Buy, 25.0, 50.0 - atr, 25.0 + 1.5 * (25.0 - atr))
  {
    hide SwingLabels, Candle, StructuralSl;
    StopIs(atr);
    LastClose();
  }

  lemma SideIs(ind: Indicators, atr: real, t: Outcome)
    requires t.Trade? && FollowsBreak(DEFAULTS, ind, Candles(), t)
    requires ind.atr(Candles()) == Some(atr) && 0.0 <= atr <= 20.0
    ensures t == BuildTrade(DEFAULTS, Candles(), Labels(), Bullish, atr)
  {
    hide SwingLabels, Candle, BuildTrade, PremiumZone, LastBreak, IsLastBreak;
    BreakIs(atr);
  }

  /** Whatever the ATR up to 20, the default strategy signals a BUY on these candles with the stop above
      the close. */
  lemma BuyWithStopAboveClose(ind: Indicators, atr: real)
    requires ind.resample(Candles()) == Some(Candles())
    requires ind.atr(Candles()) == Some(atr) && 0.0 <= atr <= 20.0
    ensures ValidCandles(Candles())
    ensures var t := GenerateSignal(DEFAULTS, ind, Candles());
            t == Trade(Buy, 25.0, 50.0 - atr, 25.0 + 1.5 * (25.0 - atr)) && t.sl > t.close
  {
    hide GenerateSignal, Confirmed, ValidCandles, FollowsBreak, Candles, BuildTrade;
    CandlesAreValid();
    CandlesAreConfirmed(ind, atr);
    SignalIff(DEFAULTS, ind, Candles());
    SignalShape(DEFAULTS, ind, Candles());
    SideIs(ind, atr, GenerateSignal(DEFAULTS, ind, Candles()));
    TradeIs(atr);
  }
}
