/** A series of valid candles on which the strategy, as configured by default, signals a SELL. */
module SellSignal {
  import opened Market
  import opened MisplacedStop
  import opened Numbers
  import opened Structure
  import opened TrendSignal

  const LENGTH := 26

  /** Flat, then two falling waves, the second closing below the first wave's low. */
  function Floor(i: int): real
  {
    if i <= 9 then 40.0
    else if i <= 12 then 49.0 - i as real
    else if i <= 15 then 2.0 * i as real + 13.0
    else if i <= 18 then 88.0 - 3.0 * i as real
    else if i <= 21 then 2.0 * i as real - 2.0
    else 103.0 - 3.0 * i as real
  }

  function Falling(): (bars: seq<Bar>)
    ensures |bars| == LENGTH
    ensures forall i :: 0 <= i < LENGTH ==>
              bars[i] == Bar(14400 * i, Floor(i) + 0.5, Floor(i) + 1.0, Floor(i), Floor(i) + 0.5, 1)
  {
    seq(LENGTH, i requires 0 <= i < LENGTH =>
      Bar(14400 * i, Floor(i) + 0.5, Floor(i) + 1.0, Floor(i), Floor(i) + 0.5, 1))
  }

  lemma FallingIsValid()
    ensures ValidCandles(Falling())
  {
    hide Floor;
  }

  lemma TopsAt(i: int)
    ensures IsSwingHigh(Falling(), 2, 2, i) <==> i == 15 || i == 21
  {
    var bars := Falling();
    hide Floor;
    if 2 <= i < LENGTH - 2 {
      assert bars[i].high == Floor(i) + 1.0;
      assert bars[i - 1].high == Floor(i - 1) + 1.0 && bars[i + 1].high == Floor(i + 1) + 1.0;
      if i == 15 || i == 21 {
        forall j | i - 2 <= j <= i + 2 && j != i ensures bars[j].high < bars[i].high { FloorAt(i, j); }
      } else {
        NoOtherTurn(i);
      }
    }
  }

  lemma BottomsAt(i: int)
    ensures IsSwingLow(Falling(), 2, 2, i) <==> i == 12 || i == 18
  {
    var bars := Falling();
    hide Floor;
    if 2 <= i < LENGTH - 2 {
      assert bars[i].low == Floor(i) && bars[i - 1].low == Floor(i - 1) && bars[i + 1].low == Floor(i + 1);
      if i == 12 || i == 18 {
        forall j | i - 2 <= j <= i + 2 && j != i ensures bars[j].low > bars[i].low { FloorAt(i, j); }
      } else {
        NoOtherTurn(i);
      }
    }
  }

  lemma FloorAt(i: int, j: int)
    requires i - 2 <= j <= i + 2 && j != i
    ensures i == 15 || i == 21 ==> Floor(j) < Floor(i)
    ensures i == 12 || i == 18 ==> Floor(j) > Floor(i)
  {
  }

  lemma NoOtherTurn(i: int)
    requires 2 <= i < LENGTH - 2
    ensures i != 15 && i != 21 ==> Floor(i - 1) >= Floor(i) || Floor(i + 1) >= Floor(i)
    ensures i != 12 && i != 18 ==> Floor(i - 1) <= Floor(i) || Floor(i + 1) <= Floor(i)
  {
  }

  lemma Turns()
    ensures forall i :: IsSwingHigh(Falling(), 2, 2, i) <==> i == 15 || i == 21
    ensures forall i :: IsSwingLow(Falling(), 2, 2, i) <==> i == 12 || i == 18
  {
    hide IsSwingHigh, IsSwingLow, Falling;
    forall i
      ensures IsSwingHigh(Falling(), 2, 2, i) <==> i == 15 || i == 21
      ensures IsSwingLow(Falling(), 2, 2, i) <==> i == 12 || i == 18
    {
      TopsAt(i);
      BottomsAt(i);
    }
  }

  lemma LevelsAre()
    ensures Falling()[15].high == 44.0 && Falling()[21].high == 41.0
    ensures Falling()[12].low == 37.0 && Falling()[18].low == 34.0
    ensures Falling()[LENGTH - 1].close == 28.5
  {
  }

  lemma NeverUp(cut: nat)
    requires cut <= LENGTH
    ensures TrendAfter(Falling(), 2, 2, cut) in {Downtrend, Ranging}
    ensures cut == LENGTH ==> TrendAfter(Falling(), 2, 2, cut) == Downtrend
  {
    hide TrendAfter, IsSwingHigh, IsSwingLow, Falling;
    Turns();
    LevelsAre();
    TrendIff(Falling(), 2, 2, cut);
    if cut == LENGTH {
      assert LatestSwingHighs(Falling(), 2, 2, cut, 15, 21);
      assert LatestSwingLows(Falling(), 2, 2, cut, 12, 18);
    }
  }

  lemma SteadyFall()
    ensures NoOppositeTrend(DEFAULTS, Falling(), Downtrend)
  {
    hide TrendAfter, Falling;
    forall k: nat | k <= LENGTH
      ensures TrendAfter(Falling(), 2, 2, k) in {Downtrend, Ranging}
    {
      NeverUp(k);
    }
  }

  function Marks(): (s: Swings)
    ensures |s.high| == |s.low| == LENGTH
  {
    SwingLabels(Falling(), 2, 2)
  }

  lemma LatestTurns(n: nat)
    requires LENGTH - 1 <= n <= LENGTH
    ensures LastBefore(Marks().high, n) == Some(21) && LastBefore(Marks().low, n) == Some(18)
  {
    Turns();
    hide IsSwingHigh, IsSwingLow, Falling;
    assert Marks().high[21] && Marks().low[18];
    assert forall i :: 21 < i < n ==> !Marks().high[i];
    assert forall i :: 18 < i < n ==> !Marks().low[i];
    hide SwingLabels;
  }

  lemma BreakIsDown()
    ensures LastBreak(Falling(), Marks(), LENGTH) == Some(Break(Bearish, LENGTH - 1, 34.0))
  {
    LatestTurns(LENGTH - 1);
    LevelsAre();
    hide Falling, Marks, LastBefore, IsLastBreak;
    assert BreakAt(Falling(), Marks(), LENGTH - 1) == Some(Break(Bearish, LENGTH - 1, 34.0));
  }

  lemma SellStop(atr: real)
    ensures StructuralSl(DEFAULTS, Falling(), Marks(), Bearish, atr, 28.5) == 41.0 + atr
  {
    LatestTurns(LENGTH);
    LevelsAre();
    hide Falling, Marks, LastBefore;
  }

  lemma SellIsConfirmed(ind: Indicators, atr: real)
    requires ind.resample(Falling()) == Some(Falling())
    requires ind.atr(Falling()) == Some(atr) && atr >= 0.0
    ensures Confirmed(DEFAULTS, ind, Falling())
  {
    NeverUp(LENGTH);
    SteadyFall();
    BreakIsDown();
    SellStop(atr);
    LevelsAre();
    hide TrendAfter, SwingLabels, LastBreak, IsLastBreak, Falling, StructuralSl, NoOppositeTrend;
  }

  lemma SellIsBuilt(ind: Indicators, atr: real, t: Outcome)
    requires t.Trade? && FollowsBreak(DEFAULTS, ind, Falling(), t)
    requires ind.atr(Falling()) == Some(atr) && atr >= 0.0
    ensures t == Trade(Sell, 28.5, 41.0 + atr, 28.5 - 1.5 * (12.5 + atr))
  {
    BreakIsDown();
    SellStop(atr);
    LevelsAre();
    hide SwingLabels, LastBreak, IsLastBreak, Falling, StructuralSl, PremiumZone;
  }

  /** Whatever the ATR, the default strategy signals exactly this SELL on these candles: the stop an ATR above
      the last swing high, the target one and a half times as far below the close. */
  lemma SellOnFallingWaves(ind: Indicators, atr: real)
    requires ind.resample(Falling()) == Some(Falling())
    requires ind.atr(Falling()) == Some(atr) && atr >= 0.0
    ensures ValidCandles(Falling())
    ensures GenerateSignal(DEFAULTS, ind, Falling()) == Trade(Sell, 28.5, 41.0 + atr, 28.5 - 1.5 * (12.5 + atr))
  {
    hide GenerateSignal, Confirmed, ValidCandles, FollowsBreak, Falling;
    FallingIsValid();
    SellIsConfirmed(ind, atr);
    SignalIff(DEFAULTS, ind, Falling());
    SignalShape(DEFAULTS, ind, Falling());
    SellIsBuilt(ind, atr, GenerateSignal(DEFAULTS, ind, Falling()));
  }
}
