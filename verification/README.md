# Trading bot verification

A Dafny model of the trading bot's decision-making core and proofs about whole runs of it. Each part is
a functional specification, the mutable-state code proved equal to it, and theorems about the
specification that hold for all inputs, runs or crash points.

- **Backtest** (`Market`, `Risk`, `Backtest`, `EventLoop`, `BacktestRuns`, `BacktestEntries`,
  `BacktestTrades`, `Drawdown`, `KFold`): the bar-by-bar simulator with its risk gate, position sizing,
  the drawdown statistic and the purged cross-validation folds. The strategy is an arbitrary function of
  the closed bars and the trades closed so far; money and prices are reals.
- **Trend signal** (`Structure`, `TrendSignal`, `MisplacedStop`, `SellSignal`): swing detection, the last break of
  structure, and the bracket of stop, entry and target built from them.
- **Bars** (`TimeSeries`, `BarStore`, `TickBars`, `HistoryStore`, `HistoryClient`,
  `LocalBridge`): the bounded bar buffer fed by ticks and batches, the parquet merge, and the paging client
  against an unpadded server that may grow meanwhile and against the repository's own, which pads.
- **Paper broker** (`PaperBroker`, `QuoteCache`, `BrokerRuns`, `BrokerOrders`): memory, state file and trade
  journal over runs with crashes, restarts and damaged files. Prices are points of 0.00001, volumes
  hundredths of a lot, profits cents.
- **Book pipeline** (`Chunking`, `ChunkTiling`, `Extraction`): greedy chunk packing, candidate
  deduplication and the resumable extraction phase.
- **Control loops** (`Supervisor`, `SupervisorRuns`, `SupervisorResume`, `Autoresearch`, `SearchSteps`): the
  supervisor over its database tables, where a process dies after any number of durable effects, and the
  autoresearch hill climb.

`Numbers` holds the shared arithmetic, including Python's round-half-to-even.

Where the code does not do what one would expect from its documentation or its own guards, the model
follows the code, and the lemma named here says exactly when it does:

- A BUY stop can lie above the close when the last swing low, less the ATR buffer, is above the last
  swing high and the last candle falls back in between (`TrendSignal.BuyStopIff`, and
  `MisplacedStop.BuyWithStopAboveClose` for candles on which the default configuration signals it); SELL
  has no such case.
- A fetch of more bars than this repository's bridge holds returns synthetic bars, although the client
  promises never to, and a synthetic bar displaces a live one of the same time
  (`LocalBridge.LiveOnlyIff`, `LocalBridge.SyntheticRowsWin`). The walk never runs against that bridge.
- The paged walk is therefore described against a bridge that does not pad, as its documentation assumes
  (`HistoryClient.GapFreeIff`, `HistoryClient.StaticFetchIsNewest`). An answer cap below the
  client's page of 500 would make it stop early (`HistoryClient.FullFetchIff`); no server here has one.
- A history batch that contains the bar still forming leaves a duplicate time in the buffer once that bar
  is sealed (`BarStore.OrderedIffTimely`), and flushing such a buffer can shrink the file
  (`BarStore.FlushShrinksIff`).
- A crash between saving the broker's state and writing the journal loses the row
  (`BrokerRuns.CrashBeforeJournalIff`, `BrokerRuns.LostRowOpensUnlogged`), and a deleted state file
  restarts the ticket counter although the journal knows better (`BrokerRuns.RestartIsFreshIff`). A
  damaged state file forgets the open positions (`BrokerRuns.DamagedFileIff`).
- Requiring a challenger strategy to score 1.10 times the current one loosens the requirement when the
  current score is negative (`Autoresearch.SwitchImprovesIff`), and a kept change can score worse, but only
  with a passed guard (`Autoresearch.ScoreFallsOnlyOnGuardPass`).
- A bridge that answers with more rows than asked for would have its oldest rows kept, not its newest
  (`HistoryClient.OverAnswerKeepsOldest`); no server here does.
- The supervisor records a combo before it starts it, so a process that dies in between leaves that one
  combo out of the resumed sweep (`SupervisorResume.OnlyDeathsLoseCombos`).
- The running-peak drawdown can miss the worst fall once equity goes negative
  (`Drawdown.WorstFallIff`), and a non-positive `consecutive_loss_halt` blocks all trading
  (`BacktestRuns.NonPositiveStreakNeverTrades`).

To verify: `dafny verify dfyconfig.toml`

## Model

| member | source | states |
|---|---|---|
| Numbers.RoundHalfEvenIff | bot/core/risk/manager.py:28-29 | the rounding used throughout is the one integer within a half, and of two the even one |
| Risk.KellyMultiplierBounds | bot/core/risk/manager.py:50-81 | the Kelly multiplier lies between zero and the configured fraction for every history |
| Risk.KellyPositiveMeansProfit | bot/core/risk/manager.py:66-81 | from 30 trades with a win and a loss on, a positive multiplier implies the history made money, and without break-even trades it is positive exactly then |
| Risk.KellyIsHalfTheEdge | bot/core/risk/manager.py:66-81 | without break-even trades the multiplier is half the average profit over the average win, kept in range |
| Risk.KellyOfOneSidedHistory | bot/core/risk/manager.py:66-74 | fewer than 30 trades, or no losing trade, give the configured fraction, and 30 trades without a winning one give zero, read off the profits |
| Risk.KellyIsHalfKelly | bot/core/risk/manager.py:69-81 | from 30 trades on, break-even trades included, the multiplier is half of the winning share of all trades less the rest weighed by average loss over average win, kept in range; the winning share is a count of the profits above zero |
| Risk.SizedRiskBound | bot/core/risk/manager.py:138-156 | above the minimum lot, what a position of 100000 units a lot loses at `atr x atr_multiplier` exceeds balance x risk x Kelly x (1 - rho) by at most half a lot step and, unless capped at the largest lot, falls short by no more than that; the size stays in the configured range |
| Risk.DegenerateSizes | bot/core/risk/manager.py:138-149 | without a positive balance, ATR or stop distance the size is 0.01 |
| Risk.AdjustmentNeverIncreases | bot/core/risk/manager.py:199-209 | scaling a sized volume by the drawdown tier and rounding again never enlarges it |
| Risk.AdjustmentTiers | bot/core/risk/manager.py:199-209 | the scale is 0, 0.5, 0.7 or 1 by whether equity is at or below peak x (1 - threshold) for the halt, reduce and warn thresholds |
| Risk.EquityBreakersIff | bot/core/risk/manager.py:179-195 | the drawdown breaker trips exactly at or below peak x (1 - halt), the daily one exactly at or below the day's first equity x (1 - limit) |
| Risk.PassedBreakersKeepSize | bot/core/risk/manager.py:179-209 | an entry the breakers let through is scaled by at least one half, so the halt tier never silently zeroes it |
| EventLoop.RunEventLoop | bot/backtest/engine.py:485-698 | the bar loop on mutable state returns exactly the closed list and curve of the specified run, for every series, strategy and risk setting |
| EventLoop.SimState.ClosePosition | bot/backtest/engine.py:444-473 | one position is booked: row appended, profit added, nothing else touched |
| EventLoop.SimState.StartDay | bot/backtest/engine.py:556-561 | the day baseline moves only on a new calendar day |
| EventLoop.SimState.ProcessExits | bot/backtest/engine.py:563-592 | iterating over a copy while removing from the list equals the specified exit pass |
| EventLoop.SimState.MarkToMarket | bot/backtest/engine.py:476-482 | equity plus the open positions' gross profit at the mark |
| EventLoop.SimState.RecordBar | bot/backtest/engine.py:674-677 | peak and curve are updated from the marked equity |
| EventLoop.SimState.ProcessBar | bot/backtest/engine.py:550-677 | one loop pass: day, exits, breakers, signal, entry, mark, in that order |
| EventLoop.SimState.CloseRemaining | bot/backtest/engine.py:679-691 | everything still open is closed at the last close and the final point recorded |
| BacktestRuns.RunIsFirstTouch | bot/backtest/engine.py:550-691 | in every run each trade was opened by the signal of exactly the bars before its entry, exits at the first bar touching its levels at exactly that price or else at the last close, trades do not overlap, the run ends flat, and equity is the starting equity plus all booked profits |
| BacktestTrades.TradesEndAtFirstReach | bot/backtest/engine.py:563-592 | for every trade of every run, in bar and level terms: each bar before the exit stays strictly between stop and target, a stop exit's bar reaches the stop, a target exit's bar the target and not the stop, at exactly that price, and only the last close ends a trade otherwise |
| BacktestTrades.TradesPayTheirMove | bot/backtest/engine.py:277-296 | every trade of every run books ten dollars a lot and pip of its move from entry to exit, less spread, slippage on stops only and commission twice, and was entered half a spread from the next open on the worse side |
| BacktestTrades.StopsLoseTargetsWin | bot/backtest/engine.py:277-296 | with costs that are not negative a stop on the losing side of the entry loses, and a target on the winning side is a gross win |
| BacktestTrades.CurveMarksTheOpenPosition | bot/backtest/engine.py:476-482 | each point of the curve is the starting equity plus the booked profits plus the move of the open position, if any, at that close |
| BacktestTrades.TradesAreSized | bot/backtest/engine.py:640-653 | every trade's volume is the sized one for the booked equity, the window's ATR and the profits so far, times the drawdown tier, to the nearest whole lot step and never above the sized one |
| BacktestEntries.EligibleSignalsAreTraded | bot/backtest/engine.py:594-672 | a bar's signal becomes a trade of the finished run if and only if the run is flat, no breaker is tripped, the signal is complete, the gates are open and the volume is tradable; the trade has exactly that volume |
| BacktestEntries.TradesAreEntries | bot/backtest/engine.py:550-691 | the closed trades are, in order, exactly the positions taken: none lost, none invented |
| BacktestRuns.AtMostOneOpen | bot/backtest/engine.py:620-622 | at no bar of any run is more than one position open |
| BacktestRuns.TieGoesToTheStop | bot/backtest/engine.py:566-582 | a trade booked at its target never had its stop inside the exit bar's range |
| BacktestRuns.HaltIsAbsorbing | bot/backtest/engine.py:594-629 | once flat with the drawdown or streak breaker tripped, equity and closed trades are those of the finished run |
| BacktestRuns.DailyHaltLastsTheDay | bot/backtest/engine.py:556-629 | once flat past the daily loss limit, nothing is traded while the bars stay on that day |
| BacktestRuns.LosingStreakEndsTheRun | bot/core/risk/manager.py:185-189 | a run of `consecutive_loss_halt` losing trades can only be the tail of the closed list |
| Risk.StreakHaltsIff | bot/core/risk/manager.py:185-189 | the streak breaker trips exactly when the last `consecutive_loss_halt` trades exist and all lost; for a count of zero or less, when all trades from that many on lost |
| BacktestRuns.NonPositiveStreakNeverTrades | bot/core/risk/manager.py:185-189 | with a zero or negative `consecutive_loss_halt` no run ever trades |
| BacktestRuns.PeakTracksTheCurve | bot/backtest/engine.py:674-677 | the peak used by breakers and sizing is the maximum of the starting equity and the curve, which has one point per processed bar |
| BacktestRuns.DayBaseline | bot/backtest/engine.py:556-561 | the daily-loss baseline is the equity booked when the day's first bar arrived |
| BacktestRuns.NoLookAhead | bot/backtest/engine.py:550-677 | two series agreeing before bar k and on bar k's open and time give the same state before bar k (given equal regime gating) |
| BacktestRuns.ShorterRunIsPrefix | bot/backtest/engine.py:550-691 | a shorter run's closed trades, without its forced close, are a prefix of a longer run's |
| Drawdown.MaxDrawdownIsWorstFall | bot/backtest/engine.py:354-359 | on a non-negative curve the running-peak statistic equals the largest pairwise relative fall and lies in [0, 1] |
| Drawdown.ZeroDrawdownIff | bot/backtest/engine.py:354-359 | it is zero exactly when the curve never falls |
| Drawdown.WorstFallIff | bot/backtest/engine.py:354-359 | for every curve the statistic is the worst fall if and only if the curve never goes below zero after it was positive, or some deepest fall below zero starts at the height of all positive points before its end |
| Drawdown.DifferentHeightsMisstate | bot/backtest/engine.py:354-359 | two different positive heights before the first fall below zero misstate the drawdown, whatever follows |
| Drawdown.LaterFallIsMissed | bot/backtest/engine.py:354-359 | a concrete curve stated right up to its first negative point and wrong as a whole |
| Drawdown.FirstNegativePointIff | bot/backtest/engine.py:354-359 | a curve that stops at its first negative point is stated right if and only if every earlier positive point is at the peak |
| Drawdown.NegativeEquityBreaksWorstFall | bot/backtest/engine.py:354-359 | a concrete curve with a negative point on which the two differ |
| KFold.PurgedKFoldIndexes | bot/backtest/engine.py:238-270 | the loop builds exactly the specified folds, or the single fallback fold |
| KFold.TestBlockSize | bot/backtest/engine.py:257-262 | every test block has at least 2 x embargo + 2 bars; the last exceeds the others by less than the number of folds |
| KFold.TestBlocksPartition | bot/backtest/engine.py:257-262 | the test blocks in order are exactly 0..n-1 |
| KFold.TrainIsPurged | bot/backtest/engine.py:263-269 | train is exactly the indices at least the embargo outside the test block, ascending and non-empty |
| KFold.FallbackIsPurged | bot/backtest/engine.py:251-255 | the fallback fold keeps every train index more than the embargo before every test index |
| KFold.FallbackTestShare | bot/backtest/engine.py:251-255 | the fallback tests on the smallest number of bars that is at least one part in n_splits, or one half |
| Structure.DetectSwings | bot/core/strategy/structure.py:24-78 | the array-filling loop labels exactly the strict fractal highs and lows with both windows in full |
| Structure.PrefixStability | bot/core/strategy/structure.py:64-74 | labels on a prefix agree with the full labels up to `right` bars from its end and are false from there on |
| Structure.SwingsAreSpaced | bot/core/strategy/structure.py:64-74 | two swing highs, or two swing lows, are more than min(left, right) bars apart |
| Structure.TrendFromSinglePass | bot/core/strategy/trend_following.py:127-140 | re-running detection on a cut classifies the trend exactly as one pass over the whole series read up to `cut - right` |
| Structure.TrendIff | bot/core/strategy/structure.py:81-118 | after any cut the trend is up exactly if the two latest confirmed swing highs exist and rise and the two latest confirmed swing lows exist and rise, and down exactly if both pairs exist and fall |
| Structure.LastBreakOfStructure | bot/core/strategy/structure.py:121-177 | the forward walk ends with the last bar that closed beyond the most recent earlier swing, upward tested first, with that swing's level |
| TrendSignal.HtfBiasRecentHistory | bot/core/strategy/trend_following.py:127-140 | one trend per cut of the lookback, each seen from that cut alone |
| TrendSignal.SignalIff | bot/core/strategy/trend_following.py:219-338 | a trade is signalled exactly when there is enough data, a steady higher-timeframe trend, a last break in its direction, the premium confirmations where asked for, and a stop off the close |
| TrendSignal.HoldReasons | bot/core/strategy/trend_following.py:219-333 | what is not traded is held for the first reason there is: too few bars, no or too few higher-timeframe bars, a ranging or a reversing trend, no break or one against it, no premium zone or pin bar, or no risk |
| TrendSignal.TradesFollowTheBias | bot/core/strategy/trend_following.py:243-286 | a trade's direction is the higher-timeframe trend and no cut in the lookback showed the opposite one |
| TrendSignal.TargetIsMultipleOfRisk | bot/core/strategy/trend_following.py:335-345 | the target lies exactly `tp_r_multiple` times as far from the close as the stop, on the trade's side |
| TrendSignal.StopIsStructural | bot/core/strategy/trend_following.py:142-164 | a BUY stops `sl_atr_buffer` ATRs below the latest swing low, a SELL above the latest swing high, or `atr_sl_multiplier` ATRs from the close when there is no such swing; an absent ATR counts as zero |
| TrendSignal.PremiumZoneIff | bot/core/strategy/trend_following.py:166-208 | the zone test holds exactly if between the latest swing low and a higher latest swing high the close has given back 61.8 to 78.6 percent of the move |
| TrendSignal.BearishStopAboveClose | bot/core/strategy/structure.py:150-177 | because the walk tests upward breaks first and the last swings precede the last bar, a bearish structural stop is never below the close |
| TrendSignal.SellIsBracketed | bot/core/strategy/trend_following.py:142-164 | every SELL has target < close < stop, unconditionally |
| TrendSignal.BuyIsBracketed | bot/core/strategy/trend_following.py:142-164 | every BUY has stop < close < target unless the last swing low less the buffer lies above the last swing high |
| TrendSignal.PremiumBuyIsBracketed | bot/core/strategy/trend_following.py:166-207 | with the premium zone check on, every BUY is bracketed |
| TrendSignal.BuyBracketIff | bot/core/strategy/trend_following.py:142-160 | a signalled BUY has stop < close < target exactly if the close does not lie between the last swing high and the stop |
| TrendSignal.MisplacingClose | bot/core/strategy/trend_following.py:157-160 | whenever the last candle reaches between the last swing high and a higher stop, it can close there and the stop is above that close |
| MisplacedStop.BuyWithStopAboveClose | bot/core/strategy/trend_following.py:219-373 | on thirty concrete valid candles the default configuration signals a BUY whose stop is above its entry, for every ATR up to 20 |
| SellSignal.SellOnFallingWaves | bot/core/strategy/trend_following.py:219-345 | concrete falling candles on which the default configuration signals exactly one SELL for every ATR: stop an ATR above the last swing high, target one and a half times as far below |
| TrendSignal.BuyStopIff | bot/core/strategy/trend_following.py:142-160 | the stop of a bullish break is at or below the close for every close the last candle can have, if and only if that candle does not reach between the last swing high and a higher stop |
| BarStore.MergeBatch | bot/core/bridge/http_server.py:435-450 | sorting the batch, overlaying it on a dictionary of the buffer and sorting the values gives the one ascending sequence in which the latest entry of each time wins |
| BarStore.BarBuffer.PushHistoryBatch | bot/core/bridge/http_server.py:422-457 | the buffer becomes the newest bars of that merge; an empty batch changes nothing |
| BarStore.BarBuffer.AccumulateBar | bot/core/bridge/http_server.py:191-229 | a tick updates the open bar or seals it and opens the next one |
| TickBars.OpenBarSummarizesTicks | bot/core/bridge/http_server.py:208-229 | after any ticks of one bar the previous bar was sealed once and the open bar has the first open, highest high, lowest low, last close and latest volume, however often values were rounded on the way |
| TickBars.BarTimeIff | bot/core/bridge/http_server.py:197-199 | the bar of a tick is the one grid time less than a timeframe before it |
| TickBars.Round5IsNear | bot/core/bridge/http_server.py:218-228 | stored prices lie on the grid of fifth decimals within half of one |
| BarStore.BarBuffer.GetHistory | bot/core/bridge/http_server.py:389-418 | in pagination mode, or with enough bars, exactly the newest n live bars past the offset; otherwise the number of padding bars |
| BarStore.UpToKeeps | bot/core/bridge/http_server.py:389-390 | `from_time` keeps exactly the bars up to it, as often as they are there, and none given keeps all |
| BarStore.UpToIsPrefix | bot/core/bridge/http_server.py:389-390 | of bars in time order that is the front part |
| BarStore.ChunkedIngestion | bot/core/bridge/http_server.py:435-454 | two batches one after the other leave the same buffer as their concatenation, despite the truncation in between, for every starting buffer |
| BarStore.IngestAscending | bot/core/bridge/http_server.py:446-454 | after every non-empty batch the buffer is strictly ascending whatever it was before |
| BarStore.OrderedIffTimely | bot/core/bridge/http_server.py:208-229 | an event keeps the buffer ordered if and only if a batch is older than the open bar, or a tick does not go back |
| BarStore.OrderedRunIff | bot/core/bridge/http_server.py:191-229 | over any run of ticks and batches the buffer is ordered throughout exactly when every event was timely on arrival |
| BarStore.BatchWithOpenBarDuplicates | bot/core/bridge/http_server.py:435-454 | a concrete run in which a batch containing the forming bar leaves two bars of one time |
| BarStore.FlushKeepsRows | bot/core/bridge/http_server.py:74-102 | flushing an ordered buffer never shrinks the file, and a flush that happened loads back as exactly the buffer |
| BarStore.FlushShrinksIff | bot/core/bridge/http_server.py:74-102 | for every buffer a flush shrinks the file if and only if the buffer has at least as many rows as the file but fewer distinct times |
| BarStore.FlushOfDuplicatesShrinks | bot/core/bridge/http_server.py:74-102 | the duplicate bars of the run above, flushed over a file of two bars, leave one |
| HistoryStore.CoerceUnique | bot/core/data/history_store.py:73-77 | coercion yields the only ascending sequence holding the first row given for each time |
| HistoryStore.MergeProps | bot/core/data/history_store.py:93-111 | the merge is ascending, a cached row wins over every fetched row of its time, and no time is lost |
| HistoryStore.MergeAssociative | bot/core/data/history_store.py:93-111 | backfilling in pieces equals backfilling at once |
| HistoryStore.MergeIdempotent | bot/core/data/history_store.py:93-111 | merging the same data again changes nothing |
| HistoryStore.WritableIffAscending | bot/core/data/history_store.py:123-126 | the write's two checks accept exactly the strictly ascending frames |
| HistoryClient.Fetch | bot/core/data/historical_client.py:55-145 | bulk request then paged walk, error cases included, against any bridge |
| HistoryClient.FetchIsBounded | bot/core/data/historical_client.py:141-145 | whatever the bridge answers, a fetch is ascending without repeats and at most as long as asked for |
| HistoryClient.OverAnswerKeepsOldest | bot/core/data/historical_client.py:141-145 | of a first answer with more rows than asked for the oldest are kept |
| HistoryClient.StaticFetchIsNewest | bot/core/data/historical_client.py:115-145 | against an unpadded bridge with an unchanging buffer the fetch returns exactly the newest bars within reach, ascending: all min(bars, total) with a cap of at least 500 |
| HistoryClient.GrowingFetchHasNoGaps | bot/core/data/historical_client.py:115-145 | against an unpadded bridge whose buffer gains and drops bars during the fetch, but by each page that brings bars no more than were collected before it, the result is one gap-free stretch ending at the bulk request's newest bar |
| HistoryClient.GapFreeIff | bot/core/data/historical_client.py:115-145 | the result is such a stretch if and only if the growth is covered in that way |
| HistoryClient.GrowthBeyondCoverLeavesAGap | bot/core/data/historical_client.py:122-133 | a concrete buffer that grows faster, and the bar missing from the result |
| HistoryClient.FullFetchIff | bot/core/data/historical_client.py:115-145 | every fetch from every unchanging unpadded server with a given answer cap delivers all min(bars, total) newest bars if and only if the cap is at least the client's page |
| HistoryClient.SmallCapStopsShort | bot/core/data/historical_client.py:122-133 | for every smaller cap a concrete server and count for which the fetch is one bar short |
| LocalBridge.FetchIsFirstAnswer | bot/core/bridge/http_server.py:389-418 | against this repository's bridge the bulk answer always has as many rows as asked for, so the walk never runs and the fetch is that answer coerced |
| LocalBridge.SyntheticRowsWin | bot/core/bridge/http_server.py:406-411 | the fetch holds every synthetic row of the answer, also over a live bar of the same time |
| LocalBridge.LiveIffPaddingIs | bot/core/data/historical_client.py:80-82 | answer by answer the fetch holds only live bars exactly if the rows filled in happen to be live bars |
| LocalBridge.EnoughIsLive | bot/core/data/historical_client.py:80-82 | with enough live bars the fetch is exactly the newest ones |
| LocalBridge.LiveOnlyIff | bot/core/data/historical_client.py:80-82 | the promise never to return synthetic data is kept for all answers if and only if the bridge holds at least as many live bars as asked for |
| LocalBridge.ShortBufferLosesItsBar | bot/core/bridge/http_server.py:406-411 | a concrete one-bar buffer of which a fetch of two returns only a synthetic bar, over the live one's time |
| PaperBroker.PnlIsExact | bot/core/execution/paper_broker.py:187-192 | with five-decimal prices and hundredth lots the rounding to cents never rounds: profit is points times hundredths |
| PaperBroker.Broker.constructor | bot/core/execution/paper_broker.py:118-131 | a new broker's memory is what the state file says, or the initial counter, or the counter reseeded from the journal |
| PaperBroker.Broker.ReseedTicketSeq | bot/core/execution/paper_broker.py:133-142 | one past the highest journalled ticket, or the initial ticket |
| PaperBroker.Broker.FetchPrices | bot/core/execution/paper_broker.py:154-185 | an answered price is the symbol's cached one and at most five seconds old, without one the cache is as before, and no other symbol's price changes; the branches together are the lookup that `QuoteCache.PricesAreLatest` characterizes |
| PaperBroker.Broker.Place | bot/core/execution/paper_broker.py:198-227 | memory, state file, journal and reply after an order or a stale tick |
| PaperBroker.Broker.Close | bot/core/execution/paper_broker.py:229-249 | the same for a full close, including putting the position back after a stale tick |
| PaperBroker.Broker.ClosePart | bot/core/execution/paper_broker.py:251-291 | the same for a partial close, including both argument errors |
| PaperBroker.Broker.ModifyStop | bot/core/execution/paper_broker.py:293-301 | the same for a stop change, which is saved but not journalled |
| QuoteCache.PricesAreLatest | bot/core/execution/paper_broker.py:154-185 | over any request history a price is the request's own usable tick, or else exactly the symbol's latest usable tick while it is at most five seconds old |
| BrokerRuns.RoundTripCrossesTheSpread | bot/core/execution/paper_broker.py:198-249 | opening and closing restores the book and earns the exit side of one quote minus the entry side of the other, so the spread at an unchanged quote |
| BrokerOrders.PartialCloseSplits | bot/core/execution/paper_broker.py:251-291 | case by case: a bad fraction, an unknown ticket and a stale price change no position; otherwise, for a volume of at least zero, the closed volume is volume x fraction to within half a hundredth and between zero and the volume, half of an even volume at one half, closed and remaining add up, the row has the side's exit price and profit, and nothing else about any position changes |
| BrokerOrders.PositionsKeepTheirOrders | bot/core/execution/paper_broker.py:198-301 | over every run without damaged files, whatever crashes: each open position goes back to one carried-out order with its ticket, symbol, side, time, target and fill on the right side of the quote, and its stop is the last one asked for |
| BrokerRuns.LogAgreement | bot/core/execution/paper_broker.py:109-124 | from any world in agreement, over any run of calls, failures, crashes before the save and restarts, replaying the journal gives exactly the open volumes and memory equals the state file |
| BrokerRuns.LogAgreesFromFirstBoot | bot/core/execution/paper_broker.py:109-124 | the same for every such run from the first boot |
| BrokerRuns.CrashBeforeJournalIff | bot/core/execution/paper_broker.py:224-226 | a crash between save and journal keeps the agreement if and only if the lost row carried no volume |
| BrokerRuns.LostRowOpensUnlogged | bot/core/execution/paper_broker.py:224-226 | a concrete run from the first boot after which a position is open that the journal does not know |
| BrokerRuns.TicketsAreUnique | bot/core/execution/paper_broker.py:118-148 | from any world whose tickets are in order, tickets of completed orders are pairwise distinct over any run with crashes at any point, restarts and damaged state files |
| BrokerRuns.TicketsUniqueFromFirstBoot | bot/core/execution/paper_broker.py:118-148 | the same for every such run from the first boot |
| BrokerRuns.RestartIsFreshIff | bot/core/execution/paper_broker.py:118-120 | a restart counts past every ticket handed out if and only if the state file is there or none was |
| BrokerRuns.DamagedFileIff | bot/core/execution/paper_broker.py:118-131 | a restart through a state file that became unreadable keeps the log agreement if and only if no open position carried volume |
| BrokerRuns.DeletedFileReusesTicket | bot/core/execution/paper_broker.py:118-120 | a concrete run in which a deleted state file hands out a ticket twice |
| BrokerRuns.EqualPriceExitsSum | bot/core/execution/paper_broker.py:240-291 | partial exits at one price earn together exactly what one full exit earns |
| BrokerRuns.ClosedPositionBalances | bot/core/execution/paper_broker.py:198-291 | in every orderly run a ticket that is not open any more has exits for exactly its opened volume, all of one side and entry price, and earned exit by exit the points gained times the volume |
| BrokerRuns.EqualPricesEarnOneExit | bot/core/execution/paper_broker.py:240-291 | if its exits filled at one price, together what one full exit at that price earns |
| Chunking.PackIntoChunks | research/pipeline/book_agent.py:85-139 | the packing loop with its buffers equals the specified greedy packing |
| Chunking.SplitIntoChunks | research/pipeline/book_agent.py:107-130 | the paragraph loop on an oversize section equals the specified split |
| Chunking.FlushParts | research/pipeline/book_agent.py:93-104 | pending parts become one chunk under their first heading, or nothing happens |
| Chunking.JoinOfSplit | research/pipeline/book_agent.py:109-116 | splitting at blank lines and joining again gives back every text |
| Chunking.SplitSectionKeepsText | research/pipeline/book_agent.py:107-130 | the chunks of an oversize section joined by blank lines read exactly as its body |
| Chunking.SplitPieces | research/pipeline/book_agent.py:109 | the pieces contain no separator and do not run into one, so the cuts are every separator from the left |
| Chunking.SmallSectionReads | research/pipeline/book_agent.py:93-104 | a chunk of one small section reads as its headings joined by arrows after three hashes, a blank line and the text, and is filed under the root without headings |
| Chunking.PackingIsLossless | research/pipeline/book_agent.py:85-139 | all chunk bodies joined read exactly as all rendered sections joined |
| ChunkTiling.PackingTiles | research/pipeline/book_agent.py:85-139 | the chunks are those of a tiling of all sections: each section once and in order, whole in one packed chunk or cut on its own, and no packed run stops while the next small section still fits |
| ChunkTiling.CutsTileTheSection | research/pipeline/book_agent.py:107-130 | the cuts of a section tile its paragraphs in order, each under the section's path with a quarter of its count as estimate, and each is filled for exactly as long as the next paragraph fitted |
| Chunking.ChunksAreBounded | research/pipeline/book_agent.py:85-139 | a packed chunk starts with its first section and exceeds the target by at most its last section's prefix + 6; a split chunk by at most 2 unless it is one longer paragraph |
| Extraction.Overlay | research/pipeline/book_agent.py:294-297 | assigning into the dictionary keeps a known name's slot and replaces it only for strictly more parameters |
| Extraction.SameKeyIff | research/pipeline/book_agent.py:295 | two names share a key exactly if, whatever whitespace surrounds them, they are the same letters up to case |
| Extraction.DedupCandidates | research/pipeline/book_agent.py:289-298 | the dictionary loop equals the specified deduplication |
| Extraction.DedupKeepsBest | research/pipeline/book_agent.py:289-298 | each name keeps the first of its candidates with the most parameters |
| Extraction.DedupKeepsOrder | research/pipeline/book_agent.py:289-298 | names come once each, in order of first appearance |
| Extraction.DedupResumes | research/pipeline/book_agent.py:289-298 | deduplicating a deduplicated prefix followed by more equals deduplicating everything |
| Extraction.AgentCheckpoint.ExtractPhase | research/pipeline/book_agent.py:354-380 | the extraction loop from any saved state, dying after any number of saves, the final phase mark included, leaves the specified checkpoint |
| Extraction.ResumeEqualsUninterrupted | research/pipeline/book_agent.py:354-380 | after any succession of deaths and restarts the saved strategies are those of one uninterrupted pass |
| Extraction.SavesAddUp | research/pipeline/book_agent.py:354-380 | over all restarts as many chunks are done as there were saves, and the phase is marked if and only if there was one more save than chunks |
| Supervisor.SupervisorLoop.Iterate | bot/supervisor/loop.py:720-814 | one cycle over the database, resuming or creating an iteration, dying after any number of durable effects |
| Supervisor.SupervisorLoop.Run | bot/supervisor/loop.py:695-830 | a process is its cycles in order |
| Supervisor.SupervisorLoop.Phase2Autoresearch | bot/supervisor/loop.py:184-217 | combos before the start index are skipped; each other one is recorded before it is started |
| Supervisor.SupervisorLoop.Handle | bot/supervisor/loop.py:435-499 | one regression: duplicate check, insert, issue, both limits, charge, patch, outcome |
| Supervisor.SupervisorLoop.Phase5IssuesAndPatches | bot/supervisor/loop.py:413-501 | the patching loop with its running count |
| Supervisor.SupervisorLoop.Phase6CiGate | bot/supervisor/loop.py:508-525 | verdicts are written back for the events in review |
| Supervisor.SupervisorLoop.SetIteration | bot/supervisor/checkpoint.py:116-147 | an update without a combo index leaves the recorded one |
| Supervisor.SupervisorLoop.SetEvent | bot/supervisor/checkpoint.py:343-370 | only the given columns of one row change |
| Supervisor.SupervisorLoop.CountInReview | bot/supervisor/checkpoint.py:383-390 | the number of events patching with a pull request |
| Supervisor.SupervisorLoop.ChargeToday | bot/supervisor/checkpoint.py:420-436 | today's counter goes up by one, starting from zero |
| SupervisorRuns.CombosStartOnce | bot/supervisor/loop.py:195-203 | over all processes and resumes combos are started in strictly increasing (iteration, index) order, so none twice for one iteration |
| SupervisorRuns.SweepUntilDeath | bot/supervisor/loop.py:195-217 | exactly which combos a dying sweep started and recorded: at most one is recorded and never started |
| SupervisorRuns.BeginIsReady | bot/supervisor/loop.py:683-693 | the index resumed at is past every combo already started for that iteration |
| SupervisorResume.OnlyDeathsLoseCombos | bot/supervisor/loop.py:683-693 | in every succession of processes a combo up to its iteration's recorded index was started, or is the one that some process died on right after recording it: at most one a death |
| SupervisorResume.CyclesGoOn | bot/supervisor/loop.py:683-751 | a cycle that researches goes on with the interrupted iteration at the combo after the recorded one, or with the first combo of a new one, and starts the combos from there in order for as long as it lives |
| SupervisorResume.DeathInSweepResumes | bot/supervisor/loop.py:683-751 | a death at any effect of the sweep and the next process: the same iteration goes on with the index after the recorded one, and the starts of both are given exactly |
| SupervisorResume.SurvivedCycleIsComplete | bot/supervisor/loop.py:683-808 | a cycle that the process survives leaves nothing to resume |
| SupervisorRuns.FindingOutcome | bot/supervisor/loop.py:435-499 | the whole outcome of a new regression for a process that lives on: its final row, the charge and the launch, exactly when both limits leave room |
| SupervisorRuns.OneOpenEventPerSlug | bot/supervisor/loop.py:435-448 | at most one open event per type and combo in every reachable database |
| SupervisorRuns.DuplicateQueryIff | bot/supervisor/checkpoint.py:393-413 | the query finds exactly the open events of a regression for every slug but the empty string, which the detector never gives |
| SupervisorRuns.ClosedEventsStay | bot/supervisor/checkpoint.py:343-370 | no later process changes a merged or closed event |
| SupervisorRuns.GateMovesReviews | bot/supervisor/loop.py:512-525 | the gate changes only events in review, to merged or failed, and nothing but their status |
| SupervisorRuns.GateOutcome | bot/supervisor/loop.py:508-530 | a process with an effect left for every event merges those in review whose verdict is merge, fails those whose verdict is fail, and leaves all others |
| SupervisorRuns.ReviewsWithinLimit | bot/supervisor/loop.py:433-495 | events patching with a pull request never exceed the concurrency limit, wherever processes die |
| SupervisorRuns.LaunchesWithinBudget | bot/supervisor/loop.py:472-491 | patch agents charged to a UTC day never exceed that day's counter, which never exceeds the daily limit |
| SupervisorRuns.LivesKeep | bot/supervisor/loop.py:720-830 | all of these from any database in order, not only a fresh one |
| Autoresearch.AutoresearchLoop.PhaseIdeate | bot/autoresearch/loop.py:289-313 | the nested search from the cursor proposes the first fresh candidate and advances the cursor past it |
| Autoresearch.AutoresearchLoop.FarProposal | bot/autoresearch/loop.py:301-313 | then the first fresh larger step, then the fallback with an emptied visited set |
| Autoresearch.AutoresearchLoop.PhaseModify | bot/autoresearch/loop.py:315-319 | the changed parameters are saved |
| Autoresearch.AutoresearchLoop.PhaseCompareStrategies | bot/autoresearch/loop.py:465-493 | both strategies are scored through the file, which ends up holding the parameters returned |
| Autoresearch.AutoresearchLoop.Run | bot/autoresearch/loop.py:667-717 | the whole climb, including the early stop on convergence |
| Autoresearch.ProposalsInRange | bot/autoresearch/loop.py:289-313 | every proposal, rounded or not, is in its parameter's range |
| SearchSteps.ProposalsAreSteps | bot/autoresearch/loop.py:289-313 | every proposal moves one parameter of the strategy's table by one, two, three or five of its steps either way, kept in its range and rounded to the nearest ten-thousandth |
| SearchSteps.AllStaleIff | bot/autoresearch/loop.py:292-313 | the fallback is reached exactly when every such step on every parameter gives the current value or a visited one |
| SearchSteps.GivingUp | bot/autoresearch/loop.py:309-313 | the fallback empties the visited set, leaves the cursor and takes one unrounded step up on the table's first parameter, in its range |
| SearchSteps.FirstProposal | bot/autoresearch/loop.py:289-300 | with the default parameters and nothing visited the first proposal takes the fast average from 9 to 10 and moves the cursor on |
| SearchSteps.IterationKeepsIff | bot/autoresearch/loop.py:410-437 | an iteration keeps the proposed change exactly if the guard passed or the score is strictly better with a win rate no lower; the file, baseline, count and verdict follow, and otherwise are as before or reset |
| SearchSteps.ComparedIff | bot/autoresearch/loop.py:465-493 | the strategy is switched exactly if the other one scores more than 1.1 times as much |
| Autoresearch.FreshUnlessAllStale | bot/autoresearch/loop.py:289-313 | a proposal is new and unvisited unless every candidate is stale, and exactly then the visited set is emptied |
| Autoresearch.NothingVisitedNothingStale | bot/autoresearch/loop.py:309-313 | with nothing visited there is always a fresh candidate |
| Autoresearch.FallbackRepeatsIff | bot/autoresearch/loop.py:309-313 | the fallback proposes the current value exactly when that is the upper bound |
| Autoresearch.SwitchImprovesIff | bot/autoresearch/loop.py:483-491 | switching strategies improves the score for all challengers if and only if the current score is not negative |
| Autoresearch.WorseChallengerCanWin | bot/autoresearch/loop.py:483-491 | a concrete pair in which the worse strategy wins |
| Autoresearch.RunStaysInSync | bot/autoresearch/loop.py:667-717 | after every iteration the file holds the run's parameters, the baseline is their score, and nothing was tried twice since the last reset |
| Autoresearch.ScoreFallsOnlyOnGuardPass | bot/autoresearch/loop.py:691-717 | the baseline falls between two points of a run only if parameters kept in between passed the guard |

## Left out

- HTTP handlers, SQLite, parquet, locks and threads, subprocesses, notifications: files and tables are values, the bridge a function from requests to answers, a crash the loss of what is in memory.
- Two broker calls overlapping in time: operations are sequential, so a partial close racing a full close is not covered.
- Floating-point rounding noise: prices, lots and scores are exact; the source's explicit roundings are modelled.
- `_run_event_loop_pairs`: repeats the single-symbol loop.
- Indicators (EMA, RSI, Bollinger, ATR), resampling, the pin-bar test and the regime detector: arbitrary functions of the bars they see. The regime labels depend on the whole series, so look-ahead freedom is stated for runs that gate alike.
- The meta-labeller: a strategy may depend on the trades closed so far, which is what it is trained on; its features, probabilities and the annotation fields of a trade (intent, expected reward-to-risk, regime at entry) are not modelled.
- Frames without a time column, and bars whose time is not a timestamp: every bar has an epoch time.
- Sharpe, Sortino, Calmar and both deflated-Sharpe formulas.
- Negative embargo in cross-validation, which the source does not reject: the fold properties are stated for embargo at least zero.
- The prices of synthetic bars, drawn from a seeded random walk: any rows with the walk's number and stamps are allowed.
- One symbol and timeframe per bar buffer; loading from disk at start-up; the polling that asks the terminal for more bars before a fetch.
- `_split_by_headings`: packing starts from the sections. Lower-casing and stripping of names is modelled for ASCII.
- Dry-run extraction, which advances the chunk counter without extracting, and the later phases of the book pipeline. Candidates that no longer validate on reload are not modelled.
- Pairing of results with combos or candidates after a resume, which the source does by position.
- Promotion and rollback of parameters, regression detection and escalation in the supervisor: regressions and gate verdicts are inputs, with combo slugs that are directory names and so never empty. Limits are constant over a succession of processes, one process runs at a time, and the UTC clock does not run backwards.
- The columns of the supervisor's tables that no decision modelled here reads (timestamps, descriptions, evidence, counters).
- A pull request opened by a patch agent whose process died before recording it: it is not counted, because the table does not know it.
- Optuna searches, the results file and the saved visited set of autoresearch; a run with no iterations, whose summary the source cannot build.
- Dashboards, reports, argument parsing and configuration loading.
