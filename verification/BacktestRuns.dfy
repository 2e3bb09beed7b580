/** Properties of whole simulator runs: first-touch trades, absorbing halts and no look-ahead. */
module BacktestRuns {
  import opened Backtest
  import opened Market
  import opened Numbers
  import opened Risk

  // ---- First-touch trades -----------------------------------------------

  /** No bar in `from..to` touches the position's stop or target. */
  ghost predicate Quiet(bars: seq<Bar>, p: Position, from: int, to: int)
    requires 0 <= from && to <= |bars|
  {
    forall j :: from <= j < to ==> Touch(bars[j], p) == None
  }

  /** The position was opened at the open of its entry bar by the signal computed from exactly the
      bars before that one, when `before` was the list of closed trades. */
  ghost predicate OpenedBySignal(setup: Setup, bars: seq<Bar>, before: seq<Trade>, p: Position)
  {
    && setup.warmup < p.entryIdx < |bars|
    && setup.strategy(bars[..p.entryIdx], before) == Signal(Go(p.side), Some(p.sl), Some(p.tp))
    && setup.tradingAllowed(bars[p.entryIdx - 1].time)
    && RegimeOk(setup, bars, p.entryIdx - 1)
    && p.entry == EntryPrice(setup, p.side, bars[p.entryIdx].open)
    && p.entryTime == bars[p.entryIdx].time
    && p.volume >= LOT_STEP
  }

  /** The trade ends at the first bar from its entry on that touches it, at exactly the stop or
      target price, or else at the last close. */
  ghost predicate FirstTouchExit(setup: Setup, bars: seq<Bar>, t: Trade)
  {
    var n := |bars|;
    && 0 <= t.pos.entryIdx <= t.exitIdx < n
    && Quiet(bars, t.pos, t.pos.entryIdx, t.exitIdx)
    && (match t.reason
        case EndOfSeries => t.exitIdx == n - 1 && t.exit == bars[n - 1].close
        case SlHit => t.exitIdx < n - 1 && Touch(bars[t.exitIdx], t.pos) == Some(SlHit) && t.exit == t.pos.sl
        case TpHit => t.exitIdx < n - 1 && Touch(bars[t.exitIdx], t.pos) == Some(TpHit) && t.exit == t.pos.tp)
    && t == CloseTrade(setup, t.pos, t.exit, t.exitIdx, bars[t.exitIdx].time, t.reason)
  }

  /** Every trade is a first-touch trade opened by its signal after the previous trade had closed. */
  ghost predicate FirstTouchLog(setup: Setup, bars: seq<Bar>, closed: seq<Trade>)
  {
    forall j :: 0 <= j < |closed| ==>
      && OpenedBySignal(setup, bars, closed[..j], closed[j].pos)
      && FirstTouchExit(setup, bars, closed[j])
      && (j > 0 ==> closed[j - 1].exitIdx < closed[j].pos.entryIdx)
  }

  ghost predicate OpenPosition(setup: Setup, bars: seq<Bar>, k: int, closed: seq<Trade>, p: Position)
    requires k < |bars|
  {
    && OpenedBySignal(setup, bars, closed, p)
    && p.entryIdx <= k
    && Quiet(bars, p, p.entryIdx, k)
    && (closed != [] ==> closed[|closed| - 1].exitIdx < p.entryIdx)
  }

  /** What holds between bars: at most one open position, a first-touch log, conserved equity. */
  ghost predicate InLoop(setup: Setup, bars: seq<Bar>, k: int, s: State)
    requires k < |bars|
  {
    && FirstTouchLog(setup, bars, s.closed)
    && (forall j :: 0 <= j < |s.closed| ==> s.closed[j].exitIdx < k && s.closed[j].reason != EndOfSeries)
    && |s.positions| <= 1
    && (s.positions != [] ==> OpenPosition(setup, bars, k, s.closed, s.positions[0]))
    && s.equity == setup.startingEquity + Sum(Profits(s.closed))
  }

  lemma ProfitsAppend(closed: seq<Trade>, t: Trade)
    ensures Profits(closed + [t]) == Profits(closed) + [t.profit]
    ensures Sum(Profits(closed + [t])) == Sum(Profits(closed)) + t.profit
  {
    SumAppend(Profits(closed), t.profit);
    assert Profits(closed + [t]) == Profits(closed) + [t.profit];
  }

  lemma LogAppend(setup: Setup, bars: seq<Bar>, closed: seq<Trade>, t: Trade)
    requires FirstTouchLog(setup, bars, closed)
    requires OpenedBySignal(setup, bars, closed, t.pos) && FirstTouchExit(setup, bars, t)
    requires closed != [] ==> closed[|closed| - 1].exitIdx < t.pos.entryIdx
    ensures FirstTouchLog(setup, bars, closed + [t])
  {
    hide OpenedBySignal, FirstTouchExit;
    var log := closed + [t];
    forall j | 0 <= j < |log|
      ensures OpenedBySignal(setup, bars, log[..j], log[j].pos)
      ensures FirstTouchExit(setup, bars, log[j])
      ensures j > 0 ==> log[j - 1].exitIdx < log[j].pos.entryIdx
    {
      assert log[..j] == closed[..j];
    }
  }

  /** With at most one position the exit pass either leaves the state alone or closes that one. */
  lemma ExitsOfOne(setup: Setup, bar: Bar, i: int, s: State)
    requires |s.positions| <= 1
    ensures var r := ExitAll(setup, bar, i, s.positions, s);
            if s.positions == [] || Touch(bar, s.positions[0]) == None then r == s
            else r == Book(s, ExitTrade(setup, bar, i, s.positions[0], Touch(bar, s.positions[0]).value))
                   .(positions := [])
  {
    if s.positions != [] {
      var p := s.positions[0];
      assert s.positions[1..] == [];
      assert ExitAll(setup, bar, i, s.positions, s) == ExitOne(setup, bar, i, p, s);
      assert RemoveFirst(s.positions, p) == [];
    }
  }

  lemma TouchExitIsFirst(setup: Setup, bars: seq<Bar>, k: nat, p: Position)
    requires k + 1 < |bars| && 0 <= p.entryIdx <= k
    requires Quiet(bars, p, p.entryIdx, k)
    requires Touch(bars[k], p).Some?
    ensures FirstTouchExit(setup, bars, ExitTrade(setup, bars[k], k, p, Touch(bars[k], p).value))
  {
    hide GrossPnl, TradeCosts, Quiet;
    assert Touch(bars[k], p) != Some(EndOfSeries);
  }

  lemma TouchKeepsLoop(setup: Setup, bars: seq<Bar>, k: nat, s: State)
    requires k + 1 < |bars|
    requires InLoop(setup, bars, k, s)
    requires s.positions != [] && Touch(bars[k], s.positions[0]).Some?
    ensures var t := ExitTrade(setup, bars[k], k, s.positions[0], Touch(bars[k], s.positions[0]).value);
            InLoop(setup, bars, k + 1, Book(s, t).(positions := []))
  {
    var p := s.positions[0];
    var t := ExitTrade(setup, bars[k], k, p, Touch(bars[k], p).value);
    assert t.pos == p && t.exitIdx == k && t.reason != EndOfSeries;
    TouchExitIsFirst(setup, bars, k, p);
    hide ExitTrade, Touch;
    BookKeepsLoop(setup, bars, k, s, t);
  }

  lemma BookKeepsLoop(setup: Setup, bars: seq<Bar>, k: nat, s: State, t: Trade)
    requires k + 1 < |bars|
    requires InLoop(setup, bars, k, s)
    requires s.positions != [] && t.pos == s.positions[0] && t.exitIdx == k && t.reason != EndOfSeries
    requires FirstTouchExit(setup, bars, t)
    ensures InLoop(setup, bars, k + 1, Book(s, t).(positions := []))
  {
    hide FirstTouchLog, FirstTouchExit, OpenedBySignal, Quiet, Profits, Sum;
    LogAppend(setup, bars, s.closed, t);
    ProfitsAppend(s.closed, t);
  }

  lemma QuietBarKeepsLoop(setup: Setup, bars: seq<Bar>, k: nat, s: State)
    requires k + 1 < |bars|
    requires InLoop(setup, bars, k, s)
    requires s.positions != [] ==> Touch(bars[k], s.positions[0]) == None
    ensures InLoop(setup, bars, k + 1, s)
  {
    hide FirstTouchLog, OpenedBySignal, Touch;
  }

  /** The invariant only speaks of the book: equity, open positions and closed trades. */
  lemma LoopReadsTheBook(setup: Setup, bars: seq<Bar>, k: nat, s: State, r: State)
    requires k < |bars|
    requires InLoop(setup, bars, k, s)
    requires r.equity == s.equity && r.positions == s.positions && r.closed == s.closed
    ensures InLoop(setup, bars, k, r)
  {
    hide FirstTouchLog, OpenPosition;
  }

  lemma ExitsKeepLoop(setup: Setup, bars: seq<Bar>, k: nat, s: State)
    requires k + 1 < |bars|
    requires InLoop(setup, bars, k, s)
    ensures InLoop(setup, bars, k + 1, AfterExits(setup, bars, k, s))
  {
    var s1 := NewDay(bars[k], s);
    LoopReadsTheBook(setup, bars, k, s, s1);
    assert |s1.positions| <= 1;
    ExitsByTouch(setup, bars, k, s1);
  }

  lemma ExitsByTouch(setup: Setup, bars: seq<Bar>, k: nat, s: State)
    requires k + 1 < |bars|
    requires InLoop(setup, bars, k, s)
    ensures InLoop(setup, bars, k + 1, ExitAll(setup, bars[k], k, s.positions, s))
  {
    assert |s.positions| <= 1;
    hide InLoop, ExitAll, ExitTrade, Touch;
    ExitsOfOne(setup, bars[k], k, s);
    if s.positions != [] && Touch(bars[k], s.positions[0]).Some? {
      TouchKeepsLoop(setup, bars, k, s);
    } else {
      QuietBarKeepsLoop(setup, bars, k, s);
    }
  }

  lemma EntryKeepsLoop(setup: Setup, bars: seq<Bar>, k: nat, s: State)
    requires setup.warmup <= k && k + 1 < |bars|
    requires InLoop(setup, bars, k + 1, s)
    ensures InLoop(setup, bars, k + 1, Enter(EntryAt(setup, bars, k, s), s))
  {
    hide FirstTouchLog, EntryVolume, EntryPrice, BreakerVerdict;
    var entry := EntryAt(setup, bars, k, s);
    if entry.Some? {
      var signal := setup.strategy(bars[..k + 1], s.closed);
      assert signal == Signal(Go(entry.value.side), Some(entry.value.sl), Some(entry.value.tp));
      assert OpenPosition(setup, bars, k + 1, s.closed, entry.value);
    }
  }

  lemma StepKeepsLoop(setup: Setup, bars: seq<Bar>, k: nat, s: State)
    requires setup.warmup <= k && k + 1 < |bars|
    requires InLoop(setup, bars, k, s)
    ensures InLoop(setup, bars, k + 1, Step(setup, bars, k, s))
  {
    hide InLoop, AfterExits, EntryAt, OpenPnl;
    ExitsKeepLoop(setup, bars, k, s);
    var s2 := AfterExits(setup, bars, k, s);
    EntryKeepsLoop(setup, bars, k, s2);
    var s3 := Enter(EntryAt(setup, bars, k, s2), s2);
    LoopReadsTheBook(setup, bars, k + 1, s3, Mark(setup, bars[k], s3));
  }

  lemma StartInLoop(setup: Setup, bars: seq<Bar>, k: nat)
    requires k < |bars|
    ensures InLoop(setup, bars, k, Start(setup))
  {
    assert Profits([]) == [];
  }

  lemma {:induction false} RunKeepsLoop(setup: Setup, bars: seq<Bar>, k: nat)
    requires setup.warmup <= k < |bars|
    ensures InLoop(setup, bars, k, RunTo(setup, bars, k))
  {
    hide InLoop, Step, Start;
    if k == setup.warmup {
      StartInLoop(setup, bars, k);
    } else {
      RunKeepsLoop(setup, bars, k - 1);
      StepKeepsLoop(setup, bars, k - 1, RunTo(setup, bars, k - 1));
    }
  }

  lemma FinishOfOne(setup: Setup, bars: seq<Bar>, s: State)
    requires bars != [] && |s.positions| <= 1
    ensures var r := Finish(setup, bars, s);
            && r.positions == []
            && (if s.positions == [] then r == s
                else
                  var last := bars[|bars| - 1];
                  var t := CloseTrade(setup, s.positions[0], last.close, |bars| - 1, last.time, EndOfSeries);
                  && r.closed == s.closed + [t]
                  && r.equity == s.equity + t.profit
                  && r.curve == s.curve + [EquityPoint(last.time, r.equity)])
  {
    if s.positions != [] {
      var last := bars[|bars| - 1];
      var t := CloseTrade(setup, s.positions[0], last.close, |bars| - 1, last.time, EndOfSeries);
      assert s.positions[1..] == [];
      assert CloseAll(setup, bars, [], Book(s, t)) == Book(s, t);
      assert CloseAll(setup, bars, s.positions, s) == Book(s, t);
    }
  }

  lemma ForcedExitIsFirst(setup: Setup, bars: seq<Bar>, p: Position)
    requires bars != [] && 0 <= p.entryIdx <= |bars| - 1
    requires Quiet(bars, p, p.entryIdx, |bars| - 1)
    ensures var last := bars[|bars| - 1];
            FirstTouchExit(setup, bars, CloseTrade(setup, p, last.close, |bars| - 1, last.time, EndOfSeries))
  {
    hide GrossPnl, TradeCosts, Quiet;
  }

  lemma FinishKeepsLog(setup: Setup, bars: seq<Bar>, s: State)
    requires bars != [] && InLoop(setup, bars, |bars| - 1, s)
    ensures var r := Finish(setup, bars, s);
            && r.positions == []
            && FirstTouchLog(setup, bars, r.closed)
            && r.equity == setup.startingEquity + Sum(Profits(r.closed))
  {
    FinishOfOne(setup, bars, s);
    if s.positions != [] {
      var p, last := s.positions[0], bars[|bars| - 1];
      var t := CloseTrade(setup, p, last.close, |bars| - 1, last.time, EndOfSeries);
      ForcedExitIsFirst(setup, bars, p);
      hide FirstTouchLog, FirstTouchExit, OpenedBySignal, Finish, CloseTrade, Quiet, Profits, Sum;
      LogAppend(setup, bars, s.closed, t);
      ProfitsAppend(s.closed, t);
    }
  }

  /** Main result for a run: its trades are exactly first-touch trades, they do not overlap, the run
      ends flat, and the final equity is the starting equity plus the booked profits. */
  lemma RunIsFirstTouch(setup: Setup, bars: seq<Bar>)
    ensures var r := Run(setup, bars);
            && r.positions == []
            && FirstTouchLog(setup, bars, r.closed)
            && r.equity == setup.startingEquity + Sum(Profits(r.closed))
  {
    if |bars| < setup.warmup + 2 {
      assert Profits([]) == [];
    } else {
      hide RunTo, InLoop, Finish;
      RunKeepsLoop(setup, bars, |bars| - 1);
      FinishKeepsLog(setup, bars, RunTo(setup, bars, |bars| - 1));
    }
  }

  /** A stop-out wins a tie: a bar that reaches both levels of a position is read as its stop. */
  lemma TieGoesToTheStop(setup: Setup, bars: seq<Bar>, j: nat)
    requires j < |Run(setup, bars).closed|
    ensures var t := Run(setup, bars).closed[j];
            && 0 <= t.exitIdx < |bars|
            && var bar := bars[t.exitIdx];
            (t.reason == TpHit ==> if t.pos.side == Buy then bar.low > t.pos.sl else bar.high < t.pos.sl)
  {
    hide Run, OpenedBySignal;
    RunIsFirstTouch(setup, bars);
  }

  // ---- Absorbing breakers -----------------------------------------------

  /** Flat, with the drawdown or the losing-streak breaker tripped. */
  ghost predicate Halted(setup: Setup, s: State)
  {
    && s.positions == []
    && (DrawdownHalts(setup.risk, s.equity, s.peakEquity) || StreakHalts(setup.risk, Profits(s.closed)))
  }

  ghost predicate SameBook(s: State, t: State)
  {
    t.equity == s.equity && t.closed == s.closed && t.positions == s.positions == []
  }

  lemma HaltedStep(setup: Setup, bars: seq<Bar>, i: nat, s: State)
    requires i + 1 < |bars|
    requires Halted(setup, s)
    ensures Halted(setup, Step(setup, bars, i, s)) && SameBook(s, Step(setup, bars, i, s))
  {
    var s2 := AfterExits(setup, bars, i, s);
    assert EntryAt(setup, bars, i, s2) == None;
    assert OpenPnl([], bars[i].close, PipSize(setup)) == 0.0;
    var r := Step(setup, bars, i, s);
    assert r.peakEquity == MaxReal(s.peakEquity, s.equity);
  }

  lemma {:induction false} HaltedFrom(setup: Setup, bars: seq<Bar>, k: nat, m: nat)
    requires setup.warmup <= k <= m < |bars|
    requires Halted(setup, RunTo(setup, bars, k))
    ensures Halted(setup, RunTo(setup, bars, m)) && SameBook(RunTo(setup, bars, k), RunTo(setup, bars, m))
  {
    hide Step, DrawdownHalts, StreakHalts;
    if k < m {
      HaltedFrom(setup, bars, k, m - 1);
      HaltedStep(setup, bars, m - 1, RunTo(setup, bars, m - 1));
    }
  }

  /** Once the run is flat with the drawdown or streak breaker tripped, nothing is ever traded again. */
  lemma HaltIsAbsorbing(setup: Setup, bars: seq<Bar>, k: nat)
    requires setup.warmup <= k < |bars| && |bars| >= setup.warmup + 2
    requires Halted(setup, RunTo(setup, bars, k))
    ensures SameBook(RunTo(setup, bars, k), Run(setup, bars))
  {
    hide RunTo;
    HaltedFrom(setup, bars, k, |bars| - 1);
  }

  /** The daily-loss breaker absorbs for the rest of its day: flat and past the limit, nothing is
      traded while the bars stay on that day. */
  lemma {:induction false} DailyHaltLastsTheDay(setup: Setup, bars: seq<Bar>, k: nat, m: nat)
    requires setup.warmup <= k <= m < |bars|
    requires var s := RunTo(setup, bars, k);
             && s.positions == [] && DailyLossHalts(setup.risk, s.equity, s.dayStartEquity)
             && forall j :: k <= j < m ==> s.lastDay == Some(bars[j].time / 86400)
    ensures SameBook(RunTo(setup, bars, k), RunTo(setup, bars, m))
    ensures RunTo(setup, bars, m).dayStartEquity == RunTo(setup, bars, k).dayStartEquity
    ensures RunTo(setup, bars, m).lastDay == RunTo(setup, bars, k).lastDay
  {
    hide Step, DailyLossHalts;
    if k < m {
      DailyHaltLastsTheDay(setup, bars, k, m - 1);
      DailyHaltStep(setup, bars, m - 1, RunTo(setup, bars, m - 1));
    }
  }

  lemma DailyHaltStep(setup: Setup, bars: seq<Bar>, i: nat, s: State)
    requires i + 1 < |bars|
    requires s.positions == [] && DailyLossHalts(setup.risk, s.equity, s.dayStartEquity)
    requires s.lastDay == Some(Day(bars[i].time))
    ensures var r := Step(setup, bars, i, s);
            SameBook(s, r) && r.dayStartEquity == s.dayStartEquity && r.lastDay == s.lastDay
  {
    hide DailyLossHalts, EntryVolume, EntryPrice, GrossPnl;
    assert EntryAt(setup, bars, i, s) == None by {
      assert BreakerVerdict(setup, s) != Ok;
    }
    assert OpenPnl([], bars[i].close, PipSize(setup)) == 0.0;
  }

  ghost predicate LosingRun(closed: seq<Trade>, j: int, count: int)
    requires 0 <= j && j + count <= |closed|
  {
    forall i :: j <= i < j + count ==> closed[i].profit < 0.0
  }

  /** No losing streak of the halting length ends before the last trade, and none at all while a
      position is open. */
  ghost predicate StreakInvariant(setup: Setup, s: State)
    requires setup.risk.consecutiveLossHalt >= 1
  {
    var L := setup.risk.consecutiveLossHalt;
    && (s.positions != [] ==> !StreakHalts(setup.risk, Profits(s.closed)))
    && forall j :: 0 <= j < |s.closed| - L ==> !LosingRun(s.closed, j, L)
  }

  lemma StreakIsLosingRun(setup: Setup, closed: seq<Trade>)
    requires 1 <= setup.risk.consecutiveLossHalt <= |closed|
    ensures var L := setup.risk.consecutiveLossHalt;
            StreakHalts(setup.risk, Profits(closed)) <==> LosingRun(closed, |closed| - L, L)
  {
    var L := setup.risk.consecutiveLossHalt;
    var d := |closed| - L;
    var tail := LastSlice(Profits(closed), L);
    assert forall i :: 0 <= i < L ==> tail[i] == closed[d + i].profit;
    if StreakHalts(setup.risk, Profits(closed)) {
      forall i | d <= i < d + L ensures closed[i].profit < 0.0 {
        assert tail[i - d] < 0.0;
      }
    }
  }

  /** Booking a trade while no streak is running keeps every earlier window free of streaks. */
  lemma BookKeepsStreaks(setup: Setup, closed: seq<Trade>, t: Trade)
    requires setup.risk.consecutiveLossHalt >= 1
    requires !StreakHalts(setup.risk, Profits(closed))
    requires forall j :: 0 <= j < |closed| - setup.risk.consecutiveLossHalt
                         ==> !LosingRun(closed, j, setup.risk.consecutiveLossHalt)
    ensures forall j :: 0 <= j < |closed + [t]| - setup.risk.consecutiveLossHalt
                        ==> !LosingRun(closed + [t], j, setup.risk.consecutiveLossHalt)
  {
    var L := setup.risk.consecutiveLossHalt;
    var log := closed + [t];
    if |closed| >= L { StreakIsLosingRun(setup, closed); }
    forall j | 0 <= j < |log| - L
      ensures !LosingRun(log, j, L)
    {
      assert !LosingRun(closed, j, L);
      var i :| j <= i < j + L && closed[i].profit >= 0.0;
      assert log[i] == closed[i];
    }
  }

  lemma ExitKeepsStreaks(setup: Setup, bar: Bar, i: int, s: State)
    requires setup.risk.consecutiveLossHalt >= 1
    requires |s.positions| <= 1
    requires StreakInvariant(setup, s)
    ensures StreakInvariant(setup, ExitAll(setup, bar, i, s.positions, s))
  {
    hide ExitAll, ExitTrade, StreakHalts, LosingRun, Touch, Profits;
    ExitsOfOne(setup, bar, i, s);
    if s.positions != [] && Touch(bar, s.positions[0]).Some? {
      BookKeepsStreaks(setup, s.closed, ExitTrade(setup, bar, i, s.positions[0], Touch(bar, s.positions[0]).value));
    }
  }

  lemma StreakStep(setup: Setup, bars: seq<Bar>, i: nat, s: State)
    requires i + 1 < |bars|
    requires setup.risk.consecutiveLossHalt >= 1
    requires |s.positions| <= 1
    requires StreakInvariant(setup, s)
    ensures StreakInvariant(setup, Step(setup, bars, i, s))
  {
    hide ExitAll, StreakHalts, LosingRun, Profits, DrawdownHalts, DailyLossHalts, EntryVolume, EntryPrice, OpenPnl;
    ExitKeepsStreaks(setup, bars[i], i, NewDay(bars[i], s));
  }

  lemma StartHasNoStreak(setup: Setup)
    requires setup.risk.consecutiveLossHalt >= 1
    ensures StreakInvariant(setup, Start(setup))
  {
  }

  lemma {:induction false} StreaksUpTo(setup: Setup, bars: seq<Bar>, k: nat)
    requires setup.warmup <= k < |bars|
    requires setup.risk.consecutiveLossHalt >= 1
    ensures StreakInvariant(setup, RunTo(setup, bars, k))
  {
    hide Step, InLoop, StreakInvariant;
    if k == setup.warmup {
      StartHasNoStreak(setup);
    } else {
      StreaksUpTo(setup, bars, k - 1);
      AtMostOneOpen(setup, bars, k - 1);
      StreakStep(setup, bars, k - 1, RunTo(setup, bars, k - 1));
    }
  }

  /** In a finished run, `consecutive_loss_halt` losing trades in a row can only be the last trades. */
  lemma LosingStreakEndsTheRun(setup: Setup, bars: seq<Bar>, j: nat)
    requires setup.risk.consecutiveLossHalt >= 1
    requires j + setup.risk.consecutiveLossHalt <= |Run(setup, bars).closed|
    requires LosingRun(Run(setup, bars).closed, j, setup.risk.consecutiveLossHalt)
    ensures j + setup.risk.consecutiveLossHalt == |Run(setup, bars).closed|
  {
    var n := |bars| - 1;
    StreaksUpTo(setup, bars, n);
    RunKeepsLoop(setup, bars, n);
    var s := RunTo(setup, bars, n);
    FinishOfOne(setup, bars, s);
    if s.positions != [] {
      BookKeepsStreaks(setup, s.closed, Run(setup, bars).closed[|s.closed|]);
    }
  }

  /** A zero or negative `consecutive_loss_halt` reads an empty tail as all-losing: nothing trades. */
  lemma NonPositiveStreakNeverTrades(setup: Setup, bars: seq<Bar>)
    requires setup.risk.consecutiveLossHalt <= 0
    ensures Run(setup, bars).closed == []
    ensures Run(setup, bars).equity == setup.startingEquity
  {
    if |bars| >= setup.warmup + 2 {
      assert Profits([]) == [];
      HaltIsAbsorbing(setup, bars, setup.warmup);
    }
  }

  // ---- Baselines --------------------------------------------------------

  /** The peak is the highest mark-to-market equity of the bars so far (or the starting equity), and
      the curve holds one point per processed bar. */
  ghost predicate PeakOfCurve(setup: Setup, bars: seq<Bar>, k: nat, s: State)
    requires setup.warmup <= k < |bars|
  {
    && |s.curve| == k - setup.warmup
    && (forall j :: 0 <= j < |s.curve| ==> s.curve[j].time == bars[setup.warmup + j].time)
    && (forall j :: 0 <= j < |s.curve| ==> s.curve[j].equity <= s.peakEquity)
    && setup.startingEquity <= s.peakEquity
    && (s.peakEquity == setup.startingEquity
        || exists j :: 0 <= j < |s.curve| && s.curve[j].equity == s.peakEquity)
  }

  /** The peak the breakers and the sizing compare against is the running maximum of the curve. */
  lemma {:induction false} PeakTracksTheCurve(setup: Setup, bars: seq<Bar>, k: nat)
    requires setup.warmup <= k < |bars|
    ensures PeakOfCurve(setup, bars, k, RunTo(setup, bars, k))
  {
    hide Step;
    if k > setup.warmup {
      PeakTracksTheCurve(setup, bars, k - 1);
      RunPeakStep(setup, bars, k);
      PeakAppend(setup, bars, k, RunTo(setup, bars, k - 1), RunTo(setup, bars, k));
    }
  }

  lemma RunPeakStep(setup: Setup, bars: seq<Bar>, k: nat)
    requires setup.warmup < k < |bars|
    ensures var s, r := RunTo(setup, bars, k - 1), RunTo(setup, bars, k);
            && |r.curve| == |s.curve| + 1
            && r.curve[..|s.curve|] == s.curve
            && r.curve[|s.curve|].time == bars[k - 1].time
            && r.peakEquity == MaxReal(s.peakEquity, r.curve[|s.curve|].equity)
  {
    hide Step, InLoop;
    AtMostOneOpen(setup, bars, k - 1);
    PeakStep(setup, bars, k - 1, RunTo(setup, bars, k - 1));
  }

  lemma PeakAppend(setup: Setup, bars: seq<Bar>, k: nat, s: State, r: State)
    requires setup.warmup < k < |bars|
    requires PeakOfCurve(setup, bars, k - 1, s)
    requires |r.curve| == |s.curve| + 1 && r.curve[..|s.curve|] == s.curve
    requires r.curve[|s.curve|].time == bars[k - 1].time
    requires r.peakEquity == MaxReal(s.peakEquity, r.curve[|s.curve|].equity)
    ensures PeakOfCurve(setup, bars, k, r)
  {
    assert forall j :: 0 <= j < |s.curve| ==> r.curve[j] == s.curve[j];
  }

  lemma PeakStep(setup: Setup, bars: seq<Bar>, i: nat, s: State)
    requires i + 1 < |bars| && |s.positions| <= 1
    ensures var r := Step(setup, bars, i, s);
            && |r.curve| == |s.curve| + 1
            && r.curve[..|s.curve|] == s.curve
            && r.curve[|s.curve|].time == bars[i].time
            && r.peakEquity == MaxReal(s.peakEquity, r.curve[|s.curve|].equity)
  {
    ExitsOfOne(setup, bars[i], i, NewDay(bars[i], s));
  }

  /** The daily-loss baseline is the equity that was booked when the first bar of the current day
      arrived. `d` is that bar. */
  lemma {:induction false} DayBaseline(setup: Setup, bars: seq<Bar>, d: nat, k: nat)
    requires setup.warmup <= d < k < |bars|
    requires d == setup.warmup || bars[d - 1].time / 86400 != bars[d].time / 86400
    requires forall j :: d <= j < k ==> bars[j].time / 86400 == bars[d].time / 86400
    ensures RunTo(setup, bars, k).dayStartEquity == RunTo(setup, bars, d).equity
    ensures RunTo(setup, bars, k).lastDay == Some(bars[d].time / 86400)
  {
    hide Step;
    RunDayStep(setup, bars, k);
    if k == d + 1 {
      if d > setup.warmup { RunDayStep(setup, bars, d); }
    } else {
      DayBaseline(setup, bars, d, k - 1);
    }
  }

  lemma RunDayStep(setup: Setup, bars: seq<Bar>, k: nat)
    requires setup.warmup < k < |bars|
    ensures var s, r := RunTo(setup, bars, k - 1), RunTo(setup, bars, k);
            && r.lastDay == Some(Day(bars[k - 1].time))
            && r.dayStartEquity == (if s.lastDay == r.lastDay then s.dayStartEquity else s.equity)
  {
    hide Step, InLoop, Day;
    AtMostOneOpen(setup, bars, k - 1);
    DayStep(setup, bars, k - 1, RunTo(setup, bars, k - 1));
  }

  lemma DayStep(setup: Setup, bars: seq<Bar>, i: nat, s: State)
    requires i + 1 < |bars| && |s.positions| <= 1
    ensures var r := Step(setup, bars, i, s);
            && r.lastDay == Some(Day(bars[i].time))
            && r.dayStartEquity == (if s.lastDay == r.lastDay then s.dayStartEquity else s.equity)
  {
    ExitsOfOne(setup, bars[i], i, NewDay(bars[i], s));
  }

  // ---- No look-ahead ----------------------------------------------------

  /** The two series agree before bar `k` and on the open and time of bar `k`, and the regime gate
      decides the same on the bars before `k` (always so when entries are not regime-gated). */
  ghost predicate AgreeUpTo(setup: Setup, a: seq<Bar>, b: seq<Bar>, k: nat)
  {
    && k < |a| && k < |b|
    && a[..k] == b[..k]
    && a[k].open == b[k].open && a[k].time == b[k].time
    && forall i :: setup.warmup <= i < k ==> RegimeOk(setup, a, i) == RegimeOk(setup, b, i)
  }

  /** The state before bar `k` depends only on the bars before it and on the open and time of bar `k`. */
  lemma {:induction false} NoLookAhead(setup: Setup, a: seq<Bar>, b: seq<Bar>, k: nat)
    requires AgreeUpTo(setup, a, b, k)
    ensures RunTo(setup, a, k) == RunTo(setup, b, k)
  {
    if k > setup.warmup {
      var i := k - 1;
      assert a[i] == a[..k][i] == b[..k][i] == b[i];
      assert a[..i] == a[..k][..i] == b[..k][..i] == b[..i];
      NoLookAhead(setup, a, b, i);
      var s := AfterExits(setup, a, i, RunTo(setup, a, i));
      assert s == AfterExits(setup, b, i, RunTo(setup, b, i));
      assert a[..i + 1] == b[..i + 1];
      assert EntryAt(setup, a, i, s) == EntryAt(setup, b, i, s);
    }
  }

  lemma StepExtends(setup: Setup, bars: seq<Bar>, i: nat, s: State)
    requires i + 1 < |bars| && |s.positions| <= 1
    ensures s.closed <= Step(setup, bars, i, s).closed
  {
    ExitsOfOne(setup, bars[i], i, NewDay(bars[i], s));
  }

  lemma AtMostOneOpen(setup: Setup, bars: seq<Bar>, k: nat)
    requires setup.warmup <= k < |bars|
    ensures |RunTo(setup, bars, k).positions| <= 1
  {
    RunKeepsLoop(setup, bars, k);
  }

  lemma {:induction false} RunExtends(setup: Setup, bars: seq<Bar>, k: nat, m: nat)
    requires setup.warmup <= k <= m < |bars|
    ensures RunTo(setup, bars, k).closed <= RunTo(setup, bars, m).closed
  {
    hide Step, InLoop;
    if k < m {
      RunExtends(setup, bars, k, m - 1);
      AtMostOneOpen(setup, bars, m - 1);
      StepExtends(setup, bars, m - 1, RunTo(setup, bars, m - 1));
    }
  }

  /** The trades the bars themselves decided: all but a final forced close. */
  function DecidedTrades(closed: seq<Trade>): seq<Trade>
  {
    if closed != [] && closed[|closed| - 1].reason == EndOfSeries then closed[..|closed| - 1] else closed
  }

  /** Cutting a series short can only cut the trade list short: a shorter run's trades, without its
      forced close, are a prefix of the longer run's. */
  lemma ShorterRunIsPrefix(setup: Setup, bars: seq<Bar>, m: nat)
    requires m <= |bars|
    requires forall i :: setup.warmup <= i < m ==> RegimeOk(setup, bars[..m], i) == RegimeOk(setup, bars, i)
    ensures DecidedTrades(Run(setup, bars[..m]).closed) <= Run(setup, bars).closed
  {
    hide RunTo, Finish, RegimeOk;
    if m < setup.warmup + 2 {
      assert Run(setup, bars[..m]).closed == [];
    } else {
      var cut := DecidedTrades(Run(setup, bars[..m]).closed);
      assert cut == RunTo(setup, bars, m - 1).closed by {
        FinishAddsForcedClose(setup, bars[..m]);
        CutStateAgrees(setup, bars, m);
      }
      assert RunTo(setup, bars, m - 1).closed <= RunTo(setup, bars, |bars| - 1).closed by {
        RunExtends(setup, bars, m - 1, |bars| - 1);
      }
      FinishAddsForcedClose(setup, bars);
    }
  }

  lemma CutStateAgrees(setup: Setup, bars: seq<Bar>, m: nat)
    requires setup.warmup + 2 <= m <= |bars|
    requires forall i :: setup.warmup <= i < m ==> RegimeOk(setup, bars[..m], i) == RegimeOk(setup, bars, i)
    ensures RunTo(setup, bars[..m], m - 1) == RunTo(setup, bars, m - 1)
  {
    hide RunTo, RegimeOk;
    if m == |bars| {
      assert bars[..m] == bars;
    } else {
      assert bars[..m][..m - 1] == bars[..m - 1];
      NoLookAhead(setup, bars[..m], bars, m - 1);
    }
  }

  lemma FinishAddsForcedClose(setup: Setup, bars: seq<Bar>)
    requires |bars| >= setup.warmup + 2
    ensures RunTo(setup, bars, |bars| - 1).closed == DecidedTrades(Run(setup, bars).closed)
    ensures RunTo(setup, bars, |bars| - 1).closed <= Run(setup, bars).closed
  {
    hide RunTo, FirstTouchLog, OpenPosition, Finish;
    RunKeepsLoop(setup, bars, |bars| - 1);
    var s := RunTo(setup, bars, |bars| - 1);
    FinishOfOne(setup, bars, s);
    if s.positions == [] && s.closed != [] {
      assert s.closed[|s.closed| - 1].reason != EndOfSeries;
    }
  }
}
