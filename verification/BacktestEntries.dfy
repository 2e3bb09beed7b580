/** Which signals a backtest turns into trades: all that pass its gates, and no others. */
module BacktestEntries {
  import opened Backtest
  import opened BacktestRuns
  import opened Market
  import opened Numbers
  import opened Risk

  /** The state bar `i` decides its entry in: after its exits. */
  function AtEntry(setup: Setup, bars: seq<Bar>, i: nat): State
    requires i < |bars|
  {
    AfterExits(setup, bars, i, RunTo(setup, bars, i))
  }

  /** Flat, no breaker tripped, a complete signal on the closed bars, open gates, a tradable volume. */
  ghost predicate Eligible(setup: Setup, bars: seq<Bar>, i: nat, s: State)
    requires i < |bars|
  {
    var signal := setup.strategy(bars[..i + 1], s.closed);
    && s.positions == []
    && !DrawdownHalts(setup.risk, s.equity, s.peakEquity)
    && !StreakHalts(setup.risk, Profits(s.closed))
    && !DailyLossHalts(setup.risk, s.equity, s.dayStartEquity)
    && signal.action != Hold && signal.sl != None && signal.tp != None
    && setup.tradingAllowed(bars[i].time)
    && (setup.allowedRegimes == None || setup.regimeLabel(bars, i) in setup.allowedRegimes.value)
    && EntryVolume(setup, bars[..i + 1], s) >= LOT_STEP
  }

  lemma EntryIff(setup: Setup, bars: seq<Bar>, i: nat, s: State)
    requires i + 1 < |bars|
    ensures EntryAt(setup, bars, i, s).Some? <==> Eligible(setup, bars, i, s)
    ensures var entry := EntryAt(setup, bars, i, s);
            entry.Some? ==> entry.value.entryIdx == i + 1 && entry.value.volume == EntryVolume(setup, bars[..i + 1], s)
  {
    hide EntryVolume, EntryPrice, DrawdownHalts, StreakHalts, DailyLossHalts;
  }

  /** The positions taken at the bars before `k`, in order. */
  function Entries(setup: Setup, bars: seq<Bar>, k: nat): seq<Position>
    requires k < |bars|
  {
    if k <= setup.warmup then []
    else
      var entry := EntryAt(setup, bars, k - 1, AtEntry(setup, bars, k - 1));
      Entries(setup, bars, k - 1) + (if entry.Some? then [entry.value] else [])
  }

  function PositionsOf(closed: seq<Trade>): (ps: seq<Position>)
    ensures |ps| == |closed| && forall j :: 0 <= j < |ps| ==> ps[j] == closed[j].pos
  {
    seq(|closed|, j requires 0 <= j < |closed| => closed[j].pos)
  }

  /** The positions a state knows of: the closed ones and then the open one. */
  function Known(s: State): seq<Position> { PositionsOf(s.closed) + s.positions }

  lemma BookedIsKnown(s: State, t: Trade)
    requires s.positions == [t.pos]
    ensures Known(Book(s, t).(positions := [])) == Known(s)
  {
    assert PositionsOf(s.closed + [t]) == PositionsOf(s.closed) + [t.pos];
  }

  /** Exits move the open position to the closed ones. */
  lemma ExitsKeepKnown(setup: Setup, bars: seq<Bar>, i: nat, s: State)
    requires i < |bars| && |s.positions| <= 1
    ensures Known(AfterExits(setup, bars, i, s)) == Known(s) && |AfterExits(setup, bars, i, s).positions| <= 1
  {
    var s1 := NewDay(bars[i], s);
    assert s1.positions == s.positions && s1.closed == s.closed;
    ExitsOfOne(setup, bars[i], i, s1);
    hide Touch, CloseTrade, ExitAll, Known;
    if s1.positions != [] && Touch(bars[i], s1.positions[0]).Some? {
      assert s1.positions == [s1.positions[0]];
      BookedIsKnown(s1, ExitTrade(setup, bars[i], i, s1.positions[0], Touch(bars[i], s1.positions[0]).value));
    }
    assert Known(s1) == Known(s) by { KnownReadsTheBook(s, s1); }
  }

  lemma KnownReadsTheBook(s: State, r: State)
    requires r.positions == s.positions && r.closed == s.closed
    ensures Known(r) == Known(s)
  {
  }

  lemma StepAddsEntry(setup: Setup, bars: seq<Bar>, i: nat)
    requires setup.warmup <= i && i + 1 < |bars|
    ensures var entry := EntryAt(setup, bars, i, AtEntry(setup, bars, i));
            Known(RunTo(setup, bars, i + 1))
            == Known(RunTo(setup, bars, i)) + (if entry.Some? then [entry.value] else [])
  {
    var s := RunTo(setup, bars, i);
    AtMostOneOpen(setup, bars, i);
    assert RunTo(setup, bars, i + 1) == Step(setup, bars, i, s);
    hide RunTo, EntryAt, OpenPnl, AfterExits, PositionsOf;
    ExitsKeepKnown(setup, bars, i, s);
  }

  lemma NothingKnownAtStart(setup: Setup)
    ensures Known(Start(setup)) == []
  {
  }

  lemma {:induction false} KnownAreEntries(setup: Setup, bars: seq<Bar>, k: nat)
    requires setup.warmup <= k < |bars|
    ensures Known(RunTo(setup, bars, k)) == Entries(setup, bars, k)
  {
    hide Step, EntryAt, AtEntry, Known;
    if k == setup.warmup {
      NothingKnownAtStart(setup);
    } else {
      hide RunTo;
      KnownAreEntries(setup, bars, k - 1);
      StepAddsEntry(setup, bars, k - 1);
    }
  }

  /** No entry is lost and none invented: the closed trades are, in order, exactly the positions taken. */
  lemma TradesAreEntries(setup: Setup, bars: seq<Bar>)
    requires |bars| >= setup.warmup + 2
    ensures PositionsOf(Run(setup, bars).closed) == Entries(setup, bars, |bars| - 1)
  {
    hide RunTo, Entries, Finish, CloseTrade;
    var s := RunTo(setup, bars, |bars| - 1);
    KnownAreEntries(setup, bars, |bars| - 1);
    AtMostOneOpen(setup, bars, |bars| - 1);
    FinishOfOne(setup, bars, s);
    if s.positions != [] {
      var last := bars[|bars| - 1];
      var t := CloseTrade(setup, s.positions[0], last.close, |bars| - 1, last.time, EndOfSeries);
      assert t.pos == s.positions[0] by { ClosedPosition(setup, s.positions[0], last.close, |bars| - 1, last.time); }
      assert s.positions == [t.pos];
      assert PositionsOf(s.closed + [t]) == PositionsOf(s.closed) + [t.pos];
    } else {
      assert PositionsOf(s.closed) + [] == PositionsOf(s.closed);
    }
  }

  lemma ClosedPosition(setup: Setup, p: Position, exit: real, exitIdx: int, exitTime: int)
    ensures CloseTrade(setup, p, exit, exitIdx, exitTime, EndOfSeries).pos == p
  {
  }

  predicate TakenAt(ps: seq<Position>, i: nat)
  {
    exists j :: 0 <= j < |ps| && ps[j].entryIdx == i + 1
  }

  lemma {:induction false} EntriesIff(setup: Setup, bars: seq<Bar>, k: nat, i: nat)
    requires setup.warmup <= i < k < |bars|
    ensures TakenAt(Entries(setup, bars, k), i) <==> Eligible(setup, bars, i, AtEntry(setup, bars, i))
    ensures forall j :: 0 <= j < |Entries(setup, bars, k)| && Entries(setup, bars, k)[j].entryIdx == i + 1
              ==> Entries(setup, bars, k)[j].volume == EntryVolume(setup, bars[..i + 1], AtEntry(setup, bars, i))
  {
    hide Eligible, EntryAt, AtEntry, EntryVolume;
    var before, after := Entries(setup, bars, k - 1), Entries(setup, bars, k);
    var entry := EntryAt(setup, bars, k - 1, AtEntry(setup, bars, k - 1));
    EntryIff(setup, bars, k - 1, AtEntry(setup, bars, k - 1));
    EntriesAreEarlier(setup, bars, k - 1);
    if i < k - 1 {
      EntriesIff(setup, bars, k - 1, i);
      assert TakenAt(after, i) <==> TakenAt(before, i) by {
        if TakenAt(before, i) {
          var j :| 0 <= j < |before| && before[j].entryIdx == i + 1;
          assert after[j] == before[j];
        }
      }
    } else if entry.Some? {
      assert after[|before|].entryIdx == i + 1;
    }
  }

  lemma {:induction false} EntriesAreEarlier(setup: Setup, bars: seq<Bar>, k: nat)
    requires setup.warmup <= k < |bars|
    ensures forall j :: 0 <= j < |Entries(setup, bars, k)| ==> Entries(setup, bars, k)[j].entryIdx <= k
  {
    hide EntryAt, AtEntry, Eligible, EntryVolume;
    if k > setup.warmup {
      EntriesAreEarlier(setup, bars, k - 1);
      EntryIff(setup, bars, k - 1, AtEntry(setup, bars, k - 1));
    }
  }

  /** A bar's signal becomes a trade of the finished run, entered at the next bar, if and only if it is
      eligible; the trade then has exactly the sized and drawdown-adjusted volume. */
  lemma EligibleSignalsAreTraded(setup: Setup, bars: seq<Bar>, i: nat)
    requires setup.warmup <= i && i + 1 < |bars|
    ensures var closed := Run(setup, bars).closed;
            var s := AtEntry(setup, bars, i);
            && (TakenAt(PositionsOf(closed), i) <==> Eligible(setup, bars, i, s))
            && forall j :: 0 <= j < |closed| && closed[j].pos.entryIdx == i + 1
                 ==> closed[j].pos.volume == EntryVolume(setup, bars[..i + 1], s)
  {
    hide Run, Entries, Eligible, AtEntry, EntryVolume;
    TradesAreEntries(setup, bars);
    EntriesIff(setup, bars, |bars| - 1, i);
  }
}
