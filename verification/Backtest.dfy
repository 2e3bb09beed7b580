/** The bar-by-bar simulator: accounting, exits, entries and the event loop as functions of the bars. */
module Backtest {
  import opened Market
  import opened Numbers
  import opened Risk

  datatype SymbolCosts = SymbolCosts(spreadPips: real, slippagePips: real, commissionPerLot: real)

  datatype Position = Position(side: Side, entry: real, sl: real, tp: real, volume: real, entryIdx: int, entryTime: int)

  datatype Reason = SlHit | TpHit | EndOfSeries

  /** A row of the closed-trade list. `exitIdx` is the index of the bar the exit was read from. */
  datatype Trade = Trade(pos: Position, exit: real, exitIdx: int, exitTime: int,
                         gross: real, cost: real, profit: real, reason: Reason)

  datatype EquityPoint = EquityPoint(time: int, equity: real)

  datatype State = State(
    equity: real,
    peakEquity: real,
    dayStartEquity: real,
    lastDay: Option<int>,
    positions: seq<Position>,
    closed: seq<Trade>,
    curve: seq<EquityPoint>)

  /** One simulation's settings. The strategy sees the closed-bar window and the trades closed so
      far (the latter is what an outcome-trained wrapper depends on); `regimeLabel` sees the whole
      series, as the regime detector does. */
  datatype Setup = Setup(
    risk: RiskConfig,
    costs: SymbolCosts,
    jpyQuoted: bool,
    startingEquity: real,
    warmup: nat,
    strategy: (seq<Bar>, seq<Trade>) -> Signal,
    atr: seq<Bar> -> Option<real>,
    tradingAllowed: int -> bool,
    regimeLabel: (seq<Bar>, int) -> int,
    allowedRegimes: Option<set<int>>)

  function PipSize(setup: Setup): (p: real)
    ensures p > 0.0
  {
    if setup.jpyQuoted then 0.01 else 0.0001
  }

  function Day(time: int): int { time / 86400 }

  // ---- Accounting -------------------------------------------------------

  function GrossPnl(side: Side, entry: real, exit: real, volume: real, pipSize: real): real
    requires pipSize > 0.0
  {
    var deltaPips := (exit - entry) / pipSize;
    (if side == Sell then -deltaPips else deltaPips) * PIP_VALUE_USD_PER_LOT * volume
  }

  function TradeCosts(volume: real, costs: SymbolCosts, isStop: bool): real
  {
    costs.spreadPips * PIP_VALUE_USD_PER_LOT * volume
    + (if isStop then costs.slippagePips * PIP_VALUE_USD_PER_LOT * volume else 0.0)
    + 2.0 * costs.commissionPerLot * volume
  }

  function CloseTrade(setup: Setup, pos: Position, exit: real, exitIdx: int, exitTime: int, reason: Reason): Trade
  {
    var gross := GrossPnl(pos.side, pos.entry, exit, pos.volume, PipSize(setup));
    var cost := TradeCosts(pos.volume, setup.costs, reason == SlHit);
    Trade(pos, exit, exitIdx, exitTime, gross, cost, gross - cost, reason)
  }

  /** `_close_position`: book the trade and its profit. The open list is the caller's business. */
  function Book(s: State, t: Trade): State
  {
    s.(equity := s.equity + t.profit, closed := s.closed + [t])
  }

  function OpenPnl(positions: seq<Position>, mark: real, pipSize: real): real
    requires pipSize > 0.0
  {
    if positions == [] then 0.0
    else
      var last := positions[|positions| - 1];
      OpenPnl(positions[..|positions| - 1], mark, pipSize)
      + GrossPnl(last.side, last.entry, mark, last.volume, pipSize)
  }

  function Profits(closed: seq<Trade>): (p: seq<real>)
    ensures |p| == |closed|
    ensures forall i :: 0 <= i < |closed| ==> p[i] == closed[i].profit
  {
    seq(|closed|, i requires 0 <= i < |closed| => closed[i].profit)
  }

  // ---- Exits ------------------------------------------------------------

  /** What the bar's range does to a position: the stop is looked at before the target. */
  function Touch(bar: Bar, p: Position): Option<Reason>
  {
    match p.side
    case Buy => if bar.low <= p.sl then Some(SlHit) else if bar.high >= p.tp then Some(TpHit) else None
    case Sell => if bar.high >= p.sl then Some(SlHit) else if bar.low <= p.tp then Some(TpHit) else None
  }

  function ExitTrade(setup: Setup, bar: Bar, i: int, p: Position, reason: Reason): Trade
  {
    CloseTrade(setup, p, if reason == SlHit then p.sl else p.tp, i, bar.time, reason)
  }

  function RemoveFirst<T(==)>(xs: seq<T>, x: T): seq<T>
  {
    if xs == [] then [] else if xs[0] == x then xs[1..] else [xs[0]] + RemoveFirst(xs[1..], x)
  }

  function ExitOne(setup: Setup, bar: Bar, i: int, p: Position, s: State): State
  {
    match Touch(bar, p)
    case None => s
    case Some(reason) =>
      Book(s, ExitTrade(setup, bar, i, p, reason)).(positions := RemoveFirst(s.positions, p))
  }

  function ExitAll(setup: Setup, bar: Bar, i: int, ps: seq<Position>, s: State): State
  {
    if ps == [] then s else ExitAll(setup, bar, i, ps[1..], ExitOne(setup, bar, i, ps[0], s))
  }

  // ---- Entries ----------------------------------------------------------

  function BreakerVerdict(setup: Setup, s: State): Verdict
  {
    CheckBreakers(setup.risk, s.equity, Profits(s.closed), s.peakEquity, s.dayStartEquity)
  }

  predicate RegimeOk(setup: Setup, bars: seq<Bar>, i: int)
  {
    setup.allowedRegimes.None? || setup.regimeLabel(bars, i) in setup.allowedRegimes.value
  }

  function EntryVolume(setup: Setup, window: seq<Bar>, s: State): real
  {
    var volume := SizePosition(setup.risk, s.equity, setup.atr(window), Profits(s.closed), 0.0);
    AdjustVolume(volume, PositionAdjustment(setup.risk, s.equity, s.peakEquity))
  }

  function EntryPrice(setup: Setup, side: Side, nextOpen: real): real
  {
    var halfSpread := setup.costs.spreadPips * PipSize(setup) / 2.0;
    if side == Buy then nextOpen + halfSpread else nextOpen - halfSpread
  }

  /** The position bar `i` opens at the open of bar `i + 1`, if any. */
  function EntryAt(setup: Setup, bars: seq<Bar>, i: nat, s: State): Option<Position>
    requires i + 1 < |bars|
  {
    var signal := setup.strategy(bars[..i + 1], s.closed);
    if && BreakerVerdict(setup, s) == Ok
       && s.positions == []
       && signal.action.Go?
       && signal.sl.Some?
       && signal.tp.Some?
       && setup.tradingAllowed(bars[i].time)
       && RegimeOk(setup, bars, i)
    then
      var volume := EntryVolume(setup, bars[..i + 1], s);
      if volume >= LOT_STEP then
        Some(Position(signal.action.side, EntryPrice(setup, signal.action.side, bars[i + 1].open),
                      signal.sl.value, signal.tp.value, volume, i + 1, bars[i + 1].time))
      else None
    else None
  }

  // ---- The loop ---------------------------------------------------------

  function NewDay(bar: Bar, s: State): State
  {
    if s.lastDay == Some(Day(bar.time)) then s
    else s.(dayStartEquity := s.equity, lastDay := Some(Day(bar.time)))
  }

  function Enter(entry: Option<Position>, s: State): State
  {
    if entry.Some? then s.(positions := s.positions + [entry.value]) else s
  }

  function Mark(setup: Setup, bar: Bar, s: State): State
  {
    var equity := s.equity + OpenPnl(s.positions, bar.close, PipSize(setup));
    s.(peakEquity := MaxReal(s.peakEquity, equity), curve := s.curve + [EquityPoint(bar.time, equity)])
  }

  /** State after the exits of bar `i`. */
  function AfterExits(setup: Setup, bars: seq<Bar>, i: nat, s: State): State
    requires i < |bars|
  {
    var s1 := NewDay(bars[i], s);
    ExitAll(setup, bars[i], i, s1.positions, s1)
  }

  function Step(setup: Setup, bars: seq<Bar>, i: nat, s: State): State
    requires i + 1 < |bars|
  {
    var s2 := AfterExits(setup, bars, i, s);
    Mark(setup, bars[i], Enter(EntryAt(setup, bars, i, s2), s2))
  }

  function Start(setup: Setup): State
  {
    State(setup.startingEquity, setup.startingEquity, setup.startingEquity, None, [], [], [])
  }

  /** State once the loop has processed every bar before `k`. */
  function RunTo(setup: Setup, bars: seq<Bar>, k: nat): State
    requires k < |bars|
  {
    if k <= setup.warmup then Start(setup)
    else Step(setup, bars, k - 1, RunTo(setup, bars, k - 1))
  }

  function CloseAll(setup: Setup, bars: seq<Bar>, ps: seq<Position>, s: State): State
    requires bars != []
  {
    if ps == [] then s
    else
      var last := bars[|bars| - 1];
      CloseAll(setup, bars, ps[1..], Book(s, CloseTrade(setup, ps[0], last.close, |bars| - 1, last.time, EndOfSeries)))
  }

  /** Force-close what is still open at the last close. */
  function Finish(setup: Setup, bars: seq<Bar>, s: State): State
    requires bars != []
  {
    if s.positions == [] then s
    else
      var c := CloseAll(setup, bars, s.positions, s);
      c.(positions := [], curve := c.curve + [EquityPoint(bars[|bars| - 1].time, c.equity)])
  }

  function Run(setup: Setup, bars: seq<Bar>): State
  {
    if |bars| < setup.warmup + 2 then Start(setup)
    else Finish(setup, bars, RunTo(setup, bars, |bars| - 1))
  }
}
