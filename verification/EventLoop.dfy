/** The simulator in its own form: a state object that the bar loop updates in place. */
module EventLoop {
  import opened Backtest
  import opened Market
  import opened Numbers

  class SimState {
    var equity: real
    var peakEquity: real
    var dayStartEquity: real
    var lastDay: Option<int>
    var positions: seq<Position>
    var closed: seq<Trade>
    var curve: seq<EquityPoint>

    function Value(): State
      reads this
    {
      State(equity, peakEquity, dayStartEquity, lastDay, positions, closed, curve)
    }

    constructor (setup: Setup)
      ensures Value() == Start(setup)
    {
      equity, peakEquity, dayStartEquity := setup.startingEquity, setup.startingEquity, setup.startingEquity;
      lastDay, positions, closed, curve := None, [], [], [];
    }

    method ClosePosition(setup: Setup, pos: Position, exit: real, exitIdx: int, exitTime: int, reason: Reason)
      modifies this
      ensures Value() == Book(old(Value()), CloseTrade(setup, pos, exit, exitIdx, exitTime, reason))
    {
      var gross := GrossPnl(pos.side, pos.entry, exit, pos.volume, PipSize(setup));
      var cost := TradeCosts(pos.volume, setup.costs, reason == SlHit);
      var pnl := gross - cost;
      equity := equity + pnl;
      closed := closed + [Trade(pos, exit, exitIdx, exitTime, gross, cost, pnl, reason)];
    }

    method StartDay(bar: Bar)
      modifies this
      ensures Value() == NewDay(bar, old(Value()))
    {
      var today := Day(bar.time);
      if lastDay != Some(today) {
        dayStartEquity := equity;
        lastDay := Some(today);
      }
    }

    method ProcessExits(setup: Setup, bar: Bar, i: int)
      modifies this
      ensures Value() == ExitAll(setup, bar, i, old(positions), old(Value()))
    {
      var snapshot := positions;
      var k := 0;
      while k < |snapshot|
        invariant 0 <= k <= |snapshot|
        invariant ExitAll(setup, bar, i, snapshot[k..], Value())
               == ExitAll(setup, bar, i, snapshot, old(Value()))
      {
        var pos := snapshot[k];
        assert snapshot[k..][1..] == snapshot[k + 1..];
        var hit := Touch(bar, pos);
        if hit.Some? {
          ClosePosition(setup, pos, if hit.value == SlHit then pos.sl else pos.tp, i, bar.time, hit.value);
          positions := RemoveFirst(positions, pos);
        }
        k := k + 1;
      }
    }

    method MarkToMarket(setup: Setup, mark: real) returns (mtm: real)
      ensures mtm == equity + OpenPnl(positions, mark, PipSize(setup))
    {
      mtm := equity;
      var k := 0;
      while k < |positions|
        invariant 0 <= k <= |positions|
        invariant mtm == equity + OpenPnl(positions[..k], mark, PipSize(setup))
      {
        var pos := positions[k];
        assert positions[..k + 1][..k] == positions[..k];
        mtm := mtm + GrossPnl(pos.side, pos.entry, mark, pos.volume, PipSize(setup));
        k := k + 1;
      }
      assert positions[..k] == positions;
    }

    method RecordBar(setup: Setup, bar: Bar)
      modifies this
      ensures Value() == Mark(setup, bar, old(Value()))
    {
      var mtm := MarkToMarket(setup, bar.close);
      peakEquity := MaxReal(peakEquity, mtm);
      curve := curve + [EquityPoint(bar.time, mtm)];
    }

    method ProcessBar(setup: Setup, bars: seq<Bar>, i: nat)
      requires i + 1 < |bars|
      modifies this
      ensures Value() == Step(setup, bars, i, old(Value()))
    {
      StartDay(bars[i]);
      ProcessExits(setup, bars[i], i);
      var entry := EntryAt(setup, bars, i, Value());
      if entry.Some? {
        positions := positions + [entry.value];
      }
      RecordBar(setup, bars[i]);
    }

    method CloseRemaining(setup: Setup, bars: seq<Bar>)
      requires bars != []
      modifies this
      ensures Value() == Finish(setup, bars, old(Value()))
    {
      if positions != [] {
        var last := bars[|bars| - 1];
        var k := 0;
        while k < |positions|
          invariant 0 <= k <= |positions|
          invariant positions == old(positions)
          invariant CloseAll(setup, bars, positions[k..], Value()) == CloseAll(setup, bars, positions, old(Value()))
        {
          assert positions[k..][1..] == positions[k + 1..];
          ClosePosition(setup, positions[k], last.close, |bars| - 1, last.time, EndOfSeries);
          k := k + 1;
        }
        positions := [];
        curve := curve + [EquityPoint(last.time, equity)];
      }
    }
  }

  /** `_run_event_loop`, up to the statistics: the closed trades and the equity curve. */
  method RunEventLoop(setup: Setup, bars: seq<Bar>) returns (closed: seq<Trade>, curve: seq<EquityPoint>)
    ensures closed == Run(setup, bars).closed
    ensures curve == Run(setup, bars).curve
  {
    hide Step, Finish, Start;
    var state := new SimState(setup);
    var n := |bars|;
    if n < setup.warmup + 2 {
      return state.closed, state.curve;
    }
    var i := setup.warmup;
    while i < n - 1
      invariant setup.warmup <= i <= n - 1
      invariant state.Value() == RunTo(setup, bars, i)
    {
      state.ProcessBar(setup, bars, i);
      i := i + 1;
    }
    state.CloseRemaining(setup, bars);
    closed, curve := state.closed, state.curve;
  }
}
