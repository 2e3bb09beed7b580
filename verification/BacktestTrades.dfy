/** Every trade of a finished run in terms of its bars and settings alone: where it ends, at which price,
    and what it pays. */
module BacktestTrades {
  import opened Backtest
  import opened BacktestEntries
  import opened BacktestRuns
  import opened Market
  import opened Numbers
  import opened Risk

  /** A trade of the run: opened by a signal and ended by the first touch. */
  ghost predicate IsTradeOf(setup: Setup, bars: seq<Bar>, before: seq<Trade>, t: Trade)
  {
    OpenedBySignal(setup, bars, before, t.pos) && FirstTouchExit(setup, bars, t)
  }

  lemma TradeOfRun(setup: Setup, bars: seq<Bar>, j: nat)
    requires j < |Run(setup, bars).closed|
    ensures IsTradeOf(setup, bars, Run(setup, bars).closed[..j], Run(setup, bars).closed[j])
  {
    hide Run, OpenedBySignal, FirstTouchExit;
    RunIsFirstTouch(setup, bars);
  }

  // ---- Where a trade ends -----------------------------------------------

  predicate ReachesStop(bar: Bar, p: Position)
  {
    match p.side
    case Buy => bar.low <= p.sl
    case Sell => bar.high >= p.sl
  }

  predicate ReachesTarget(bar: Bar, p: Position)
  {
    match p.side
    case Buy => bar.high >= p.tp
    case Sell => bar.low <= p.tp
  }

  ghost predicate EndsAtFirstReach(bars: seq<Bar>, t: Trade)
  {
    && 0 < t.pos.entryIdx <= t.exitIdx < |bars|
    && t.exitTime == bars[t.exitIdx].time
    && (forall k :: t.pos.entryIdx <= k < t.exitIdx ==>
          !ReachesStop(bars[k], t.pos) && !ReachesTarget(bars[k], t.pos))
    && (match t.reason
        case EndOfSeries => t.exitIdx == |bars| - 1 && t.exit == bars[t.exitIdx].close
        case SlHit => t.exitIdx < |bars| - 1 && ReachesStop(bars[t.exitIdx], t.pos) && t.exit == t.pos.sl
        case TpHit =>
          && t.exitIdx < |bars| - 1 && t.exit == t.pos.tp
          && ReachesTarget(bars[t.exitIdx], t.pos) && !ReachesStop(bars[t.exitIdx], t.pos))
  }

  lemma TouchReaches(bar: Bar, p: Position)
    ensures Touch(bar, p) == (if ReachesStop(bar, p) then Some(SlHit)
                              else if ReachesTarget(bar, p) then Some(TpHit) else None)
  {
  }

  lemma FirstTouchIsFirstReach(setup: Setup, bars: seq<Bar>, t: Trade)
    requires FirstTouchExit(setup, bars, t) && t.pos.entryIdx > 0
    ensures EndsAtFirstReach(bars, t)
  {
    hide GrossPnl, TradeCosts, Touch, ReachesStop, ReachesTarget;
    forall k | t.pos.entryIdx <= k < t.exitIdx
      ensures !ReachesStop(bars[k], t.pos) && !ReachesTarget(bars[k], t.pos)
    {
      TouchReaches(bars[k], t.pos);
    }
    TouchReaches(bars[t.exitIdx], t.pos);
  }

  /** Every bar from the entry up to the exit stays strictly between the levels; the exit bar reaches the
      stop, or the target but not the stop, and pays exactly that level; what no bar before the last
      one ends is closed at the last close. */
  lemma TradesEndAtFirstReach(setup: Setup, bars: seq<Bar>, j: nat)
    requires j < |Run(setup, bars).closed|
    ensures EndsAtFirstReach(bars, Run(setup, bars).closed[j])
  {
    hide Run, FirstTouchExit, EndsAtFirstReach;
    TradeOfRun(setup, bars, j);
    FirstTouchIsFirstReach(setup, bars, Run(setup, bars).closed[j]);
  }

  // ---- What a trade pays ------------------------------------------------

  /** The position's profit at a price, before costs: ten dollars a lot for every pip in its favour. */
  function PriceGain(setup: Setup, p: Position, price: real): real
  {
    var move := if p.side == Buy then price - p.entry else p.entry - price;
    10.0 * p.volume * move / (if setup.jpyQuoted then 0.01 else 0.0001)
  }

  lemma GrossIsPriceGain(setup: Setup, p: Position, price: real)
    ensures GrossPnl(p.side, p.entry, price, p.volume, PipSize(setup)) == PriceGain(setup, p, price)
  {
    var delta := price - p.entry;
    var pip := if setup.jpyQuoted then 0.01 else 0.0001;
    assert PipSize(setup) == pip;
    ScaledMove(delta, p.volume, pip);
    ScaledMove(-delta, p.volume, pip);
    assert -delta / pip == -(delta / pip);
  }

  lemma ScaledMove(delta: real, volume: real, pip: real)
    requires pip > 0.0
    ensures delta / pip * 10.0 * volume == 10.0 * volume * delta / pip
  {
    var d := delta / pip;
    assert d * pip == delta;
    assert (d * 10.0 * volume) * pip == 10.0 * volume * delta;
  }

  /** Booked at the gain of the exit price over the entry price, less the spread, the slippage if stopped
      out, and the commission both ways; entered half a spread from the open, on the worse side. */
  ghost predicate PaysItsMove(setup: Setup, bars: seq<Bar>, t: Trade)
  {
    var pip := if setup.jpyQuoted then 0.01 else 0.0001;
    && 0 < t.pos.entryIdx < |bars|
    && t.gross == PriceGain(setup, t.pos, t.exit)
    && t.cost == 10.0 * t.pos.volume * setup.costs.spreadPips
                 + (if t.reason == SlHit then 10.0 * t.pos.volume * setup.costs.slippagePips else 0.0)
                 + 2.0 * t.pos.volume * setup.costs.commissionPerLot
    && t.profit == t.gross - t.cost
    && t.pos.entry == (if t.pos.side == Buy then bars[t.pos.entryIdx].open + setup.costs.spreadPips * pip / 2.0
                       else bars[t.pos.entryIdx].open - setup.costs.spreadPips * pip / 2.0)
  }

  lemma CostIs(volume: real, costs: SymbolCosts, stopped: bool)
    ensures TradeCosts(volume, costs, stopped)
         == 10.0 * volume * costs.spreadPips
            + (if stopped then 10.0 * volume * costs.slippagePips else 0.0)
            + 2.0 * volume * costs.commissionPerLot
  {
  }

  lemma TradePaysItsMove(setup: Setup, bars: seq<Bar>, before: seq<Trade>, t: Trade)
    requires IsTradeOf(setup, bars, before, t)
    ensures PaysItsMove(setup, bars, t)
  {
    hide Quiet, Touch, PriceGain, GrossPnl, TradeCosts;
    GrossIsPriceGain(setup, t.pos, t.exit);
    CostIs(t.pos.volume, setup.costs, t.reason == SlHit);
  }

  /** Every trade of a run pays its move. */
  lemma TradesPayTheirMove(setup: Setup, bars: seq<Bar>, j: nat)
    requires j < |Run(setup, bars).closed|
    ensures PaysItsMove(setup, bars, Run(setup, bars).closed[j])
  {
    hide Run, IsTradeOf, PaysItsMove;
    TradeOfRun(setup, bars, j);
    TradePaysItsMove(setup, bars, Run(setup, bars).closed[..j], Run(setup, bars).closed[j]);
  }

  lemma GainSign(setup: Setup, p: Position, price: real)
    requires p.volume > 0.0
    ensures PriceGain(setup, p, price) > 0.0 <==> (if p.side == Buy then price > p.entry else price < p.entry)
    ensures PriceGain(setup, p, price) < 0.0 <==> (if p.side == Buy then price < p.entry else price > p.entry)
  {
    var move := if p.side == Buy then price - p.entry else p.entry - price;
    var pip := if setup.jpyQuoted then 0.01 else 0.0001;
    ProductSign(move, 10.0 * p.volume);
    ProductSign(-move, 10.0 * p.volume);
    QuotientSign(10.0 * p.volume * move, pip);
    QuotientSign(10.0 * p.volume * -move, pip);
    assert 10.0 * p.volume * -move / pip == -(10.0 * p.volume * move / pip);
  }

  lemma CostsNonNegative(volume: real, costs: SymbolCosts, stopped: bool)
    requires volume > 0.0 && costs.spreadPips >= 0.0 && costs.slippagePips >= 0.0 && costs.commissionPerLot >= 0.0
    ensures TradeCosts(volume, costs, stopped) >= 0.0
  {
    assert costs.spreadPips * volume >= 0.0 && costs.slippagePips * volume >= 0.0;
    assert costs.commissionPerLot * volume >= 0.0;
  }

  predicate NonNegativeCosts(c: SymbolCosts)
  {
    c.spreadPips >= 0.0 && c.slippagePips >= 0.0 && c.commissionPerLot >= 0.0
  }

  lemma StopLosesTargetWins(setup: Setup, bars: seq<Bar>, before: seq<Trade>, t: Trade)
    requires IsTradeOf(setup, bars, before, t)
    ensures NonNegativeCosts(setup.costs) && t.reason == SlHit
            && (if t.pos.side == Buy then t.pos.sl < t.pos.entry else t.pos.sl > t.pos.entry)
            ==> t.profit < 0.0
    ensures t.reason == TpHit && (if t.pos.side == Buy then t.pos.tp > t.pos.entry else t.pos.tp < t.pos.entry)
            ==> t.gross > 0.0
  {
    hide Quiet, Touch, PriceGain, GrossPnl, TradeCosts, EntryPrice;
    GrossIsPriceGain(setup, t.pos, t.exit);
    GainSign(setup, t.pos, t.exit);
    if NonNegativeCosts(setup.costs) {
      CostsNonNegative(t.pos.volume, setup.costs, t.reason == SlHit);
    }
  }

  /** With costs that are not negative, a trade stopped out on the losing side of its entry loses money,
      and a target on the winning side is a gross win. */
  lemma StopsLoseTargetsWin(setup: Setup, bars: seq<Bar>, j: nat)
    requires j < |Run(setup, bars).closed|
    ensures var t := Run(setup, bars).closed[j];
            && (NonNegativeCosts(setup.costs) && t.reason == SlHit
                && (if t.pos.side == Buy then t.pos.sl < t.pos.entry else t.pos.sl > t.pos.entry)
                ==> t.profit < 0.0)
            && (t.reason == TpHit && (if t.pos.side == Buy then t.pos.tp > t.pos.entry else t.pos.tp < t.pos.entry)
                ==> t.gross > 0.0)
  {
    hide Run, IsTradeOf, NonNegativeCosts;
    TradeOfRun(setup, bars, j);
    StopLosesTargetWins(setup, bars, Run(setup, bars).closed[..j], Run(setup, bars).closed[j]);
  }

  // ---- What the curve shows ---------------------------------------------

  lemma OpenPnlOfOne(setup: Setup, ps: seq<Position>, price: real)
    requires |ps| <= 1
    ensures OpenPnl(ps, price, PipSize(setup)) == if ps == [] then 0.0 else PriceGain(setup, ps[0], price)
  {
    hide PriceGain, GrossPnl;
    if ps != [] {
      assert ps[..0] == [];
      GrossIsPriceGain(setup, ps[0], price);
    }
  }

  lemma StepMarks(setup: Setup, bars: seq<Bar>, i: nat, s: State)
    requires i + 1 < |bars|
    ensures var r := Step(setup, bars, i, s);
            r.curve != [] && r.curve[|r.curve| - 1]
            == EquityPoint(bars[i].time, r.equity + OpenPnl(r.positions, bars[i].close, PipSize(setup)))
  {
    hide OpenPnl, AfterExits, EntryAt;
  }

  /** The point a bar adds to the curve: the booked equity plus what the open position would gain at that
      bar's close. The booked equity is the starting equity plus the profits of the trades closed so far. */
  lemma CurveMarksTheOpenPosition(setup: Setup, bars: seq<Bar>, k: nat)
    requires setup.warmup < k < |bars|
    ensures var s := RunTo(setup, bars, k);
            && |s.positions| <= 1 && s.curve != []
            && s.equity == setup.startingEquity + Sum(Profits(s.closed))
            && s.curve[|s.curve| - 1]
               == EquityPoint(bars[k - 1].time,
                              s.equity + if s.positions == [] then 0.0
                                         else PriceGain(setup, s.positions[0], bars[k - 1].close))
  {
    hide Step, PriceGain, FirstTouchLog, OpenPosition;
    RunKeepsLoop(setup, bars, k);
    StepMarks(setup, bars, k - 1, RunTo(setup, bars, k - 1));
    OpenPnlOfOne(setup, RunTo(setup, bars, k).positions, bars[k - 1].close);
  }

  // ---- Size -------------------------------------------------------------

  /** A whole number of lot steps. */
  ghost predicate WholeSteps(volume: real) { (volume * 100.0).Floor as real == volume * 100.0 }

  lemma AdjustedClose(volume: real, adjustment: real)
    requires volume * adjustment >= 0.0
    ensures -0.005 <= AdjustVolume(volume, adjustment) - volume * adjustment <= 0.005
    ensures WholeSteps(AdjustVolume(volume, adjustment))
  {
    var v := volume * adjustment;
    assert AdjustVolume(volume, adjustment) == (if v > 0.0 then RoundHalfEven(v * 100.0) else 0) as real / 100.0;
  }

  /** The volume is what the risk manager gives for the booked equity, the ATR of the bars before the entry and
      the profits so far, scaled by the drawdown tier to the nearest whole lot step and never up. */
  ghost predicate SizedBy(setup: Setup, window: seq<Bar>, s: State, volume: real)
  {
    var sized := SizePosition(setup.risk, s.equity, setup.atr(window), Profits(s.closed), 0.0);
    && s.equity == setup.startingEquity + Sum(Profits(s.closed))
    && volume <= sized && WholeSteps(volume)
    && -0.005 <= volume - sized * PositionAdjustment(setup.risk, s.equity, s.peakEquity) <= 0.005
  }

  lemma EntryIsSized(setup: Setup, window: seq<Bar>, s: State)
    requires s.equity == setup.startingEquity + Sum(Profits(s.closed))
    ensures SizedBy(setup, window, s, EntryVolume(setup, window, s))
  {
    hide SizePosition, PositionAdjustment, AdjustVolume, Sum;
    var sized := SizePosition(setup.risk, s.equity, setup.atr(window), Profits(s.closed), 0.0);
    var adjustment := PositionAdjustment(setup.risk, s.equity, s.peakEquity);
    AdjustmentNeverIncreases(setup.risk, s.equity, setup.atr(window), Profits(s.closed), 0.0, s.equity, s.peakEquity);
    AdjustmentInRange(setup.risk, s.equity, s.peakEquity);
    SizedIsPositive(setup.risk, s.equity, setup.atr(window), Profits(s.closed));
    ProductNonNegative(sized, adjustment);
    AdjustedClose(sized, adjustment);
  }

  /** Every trade is sized in the state after the exits of the bar before its entry, and is at least the
      smallest lot. */
  lemma TradesAreSized(setup: Setup, bars: seq<Bar>, j: nat)
    requires j < |Run(setup, bars).closed|
    ensures var p := Run(setup, bars).closed[j].pos;
            && setup.warmup < p.entryIdx < |bars|
            && p.volume >= 0.01
            && SizedBy(setup, bars[..p.entryIdx], AtEntry(setup, bars, p.entryIdx - 1), p.volume)
  {
    hide Run, AtEntry, Eligible, FirstTouchExit, EntryVolume, SizedBy;
    TradeOfRun(setup, bars, j);
    var i := Run(setup, bars).closed[j].pos.entryIdx - 1;
    EligibleSignalsAreTraded(setup, bars, i);
    EquityAtEntry(setup, bars, i);
    EntryIsSized(setup, bars[..i + 1], AtEntry(setup, bars, i));
  }

  lemma ProductNonNegative(x: real, y: real)
    requires x >= 0.0 && y >= 0.0
    ensures x * y >= 0.0
  {
  }

  lemma SizedIsPositive(cfg: RiskConfig, balance: real, atr: Option<real>, profits: seq<real>)
    ensures SizePosition(cfg, balance, atr, profits, 0.0) >= LOT_STEP
  {
    hide IdealLots, StopPips, RoundToStep;
  }

  lemma AdjustmentInRange(cfg: RiskConfig, equity: real, peak: real)
    ensures 0.0 <= PositionAdjustment(cfg, equity, peak) <= 1.0
  {
  }

  lemma EquityAtEntry(setup: Setup, bars: seq<Bar>, i: nat)
    requires setup.warmup <= i && i + 1 < |bars|
    ensures var s := AtEntry(setup, bars, i); s.equity == setup.startingEquity + Sum(Profits(s.closed))
  {
    hide FirstTouchLog, OpenPosition, AfterExits, RunTo;
    RunKeepsLoop(setup, bars, i);
    ExitsKeepLoop(setup, bars, i, RunTo(setup, bars, i));
  }
}
