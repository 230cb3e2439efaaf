# binance-analyze, modelled in Dafny

binance-analyze watches Binance spot symbols quoted in USDT. Each minute a
new 1-minute event number arrives. The storage service does two things with it:

- it broadcasts the newest row of every symbol to the paper-trading engine;
- on every quarter hour it works out the event numbers of the longer candles and
  analyses the 1-hour, 2-hour and 4-hour charts.

The analysis works like this:

- Each symbol's chart goes through a chain of detectors: RSI divergence, then
  Bollinger band, then pump-or-dump. The first detector that answers wins.
- Signals are kept at most once per symbol.
- Signals are enriched with the band percentage and the RSI.
- 4-hour charts also feed four extreme trackers.
- At the end of the session the signals are ranked. Entries of the dominant
  symbol BTCUSDT are carved out first.
- Signals that repeat too soon are suppressed before the list is sent.

The paper-trading engine keeps a book of orders:

- Pending buy orders are placed from bullish candidates.
- A pending buy becomes an active order when the live price reaches its buy
  price and there is a free slot.
- Active orders are sold at their stop-profit or stop-loss, when they expire,
  or when their timeframe turns bearish.
- Every sale updates the balance, the trade counters, the stack of recent
  outcomes and the list of recently lost symbols.
- After a loss, trading pauses: every order placed from then on is hidden
  (simulated without touching the balance). After three wins in a row,
  trading resumes.

The model has one Dafny module per source component:

| module | covers |
|---|---|
| `Types` | shared entities |
| `Utils` | quote-currency trimming |
| `RsiWindow` | the shared RSI window |
| `RsiDivergenceDetector` | the RSI divergence detector |
| `RsiThreePeriodDetector` | the 3-period RSI detector |
| `BollingerBandDetector` | the Bollinger-band detector |
| `PumpDumpDetector` | the pump-or-dump detector |
| `SwingDetector` | the swing check |
| `LinearRegression` | the regression trend check |
| `StrategyChain` | the detector chain and its candidate log |
| `OpportunityFilter` | the ranking |
| `SessionAnalysis` | the analysis session |
| `SignalHistory` | repeat-signal suppression |
| `ChartSchedule` | the storage service's schedule and data shaping |
| `TradeLevels` | price levels and hold times |
| `TradeAccount` | account bookkeeping helpers |
| `PaperTradeBook` | the order book |

Everything is pure functions over immutable datatypes. A few loops are
written as methods. Mutation in the source becomes a returned new state.

A JavaScript `forEach` that calls `splice` on the list it is iterating is
modelled exactly as it runs. The visited index always advances, and the loop
stops once the index reaches the current length. As a result:

- the ranking's carve-out visits only the even positions;
- selling everything during a pause skips every second order;
- evicting outbid pending buys skips the neighbour of an evicted entry.

Lemmas show each of these effects.

Money is tracked by one invariant, `Capital`: balance − total profit + 100 ×
(number of visible active orders). Every book operation leaves it unchanged.

## Model

| member | source | states |
|---|---|---|
| Utils.FindUsdt | src/services/utils.ts:1-3 | finds the first occurrence of "USDT" from a position, or reports there is none |
| Utils.TrimUsdt | src/services/utils.ts:1-3 | `replace` removes only the first "USDT": a symbol without it is unchanged, otherwise the result is exactly four characters shorter, with the first occurrence cut out |
| Utils.TrimAppendedUsdt | src/services/utils.ts:1-3 | a base without "USDT" followed by "USDT" and any rest trims to base + rest |
| Utils.TrimKeepsSecondUsdt | src/services/utils.ts:1-3 | only the first occurrence goes: "USDTUSDT" trims to "USDT" |
| Types.LastClosed | src/services/analyze-strategies/bollinger-bands.ts:16-17 | the last closed value is the one before the live value; it exists only for series of at least two values |
| RsiWindow.Unshifted | src/services/analyze-strategies/rsi-divergence.ts:21-27 | the window built by `unshift` holds, oldest first, the RSI, close and event number of the last `count` entries of both series |
| RsiWindow.LowestIndex | src/services/analyze-strategies/rsi-divergence.ts:32-40 | the scan finds a minimum of the window; ties go to the last entry when it is minimal, otherwise to the earliest minimum |
| RsiWindow.HighestIndex | src/services/analyze-strategies/rsi-divergence.ts:121-129 | mirror of LowestIndex for the maximum |
| RsiDivergenceDetector.PercentageLimit | src/services/analyze-strategies/rsi-divergence.ts:406-423 | the price gap required between bottoms lies between 1 and 20 percent and is 1 for timeframes under 30 minutes |
| RsiDivergenceDetector.PercentageLimitGrowsWithTimeframe | src/services/analyze-strategies/rsi-divergence.ts:406-423 | a longer timeframe never requires a smaller price gap |
| RsiDivergenceDetector.LowerTimeFrame | src/services/analyze-strategies/rsi-divergence.ts:208-217 | for 1h, 2h and 4h the confirmation timeframe is shorter and its event number covers the same instant (event × minutes agree); other timeframes fall back to 15 minutes with the same number |
| RsiDivergenceDetector.FindOpportunity | src/services/analyze-strategies/rsi-divergence.ts:8-249 | silent for 70 or fewer RSI values; answers exactly when the bullish or the bearish divergence conditions hold, bullish first; the answer describes the candle three from the end |
| RsiDivergenceDetector.BullishSignalMeansOversoldDivergence | src/services/analyze-strategies/rsi-divergence.ts:42-118 | a bullish answer means, in raw-series terms, that the second bottom is below 37 and was just turned up from, and that a window minimum below 27 lies more than 10 events earlier at a higher close |
| RsiDivergenceDetector.BearishSignalMeansOverboughtDivergence | src/services/analyze-strategies/rsi-divergence.ts:131-206 | the mirror: the second top is above 63 and was just turned down from; a window maximum above 73 lies more than 10 events earlier at a lower close |
| RsiDivergenceDetector.RunClosesAtLeast | src/services/analyze-strategies/rsi-divergence.ts:251-404 | the backward scan accepts exactly when every close after the earlier divergence's event stays at or above the new bottom |
| RsiDivergenceDetector.RunClosesAtMost | src/services/analyze-strategies/rsi-divergence.ts:251-404 | mirror of RunClosesAtLeast for tops |
| RsiDivergenceDetector.RsiTripleDivergenceFormed | src/services/analyze-strategies/rsi-divergence.ts:251-404 | false with fewer than five RSI values or no RSI on the earlier divergence; otherwise a bullish earlier divergence is extended exactly when all of these hold: the new bottom is more than 10 events later; its RSI is higher and its close lower; the RSI turned up from it; no candle since the earlier bottom closed below it; and either its close is below the earlier close by the timeframe's percentage or its RSI is more than 10 higher. Any other direction is the mirror on tops |
| RsiDivergenceDetector.TripleDivergenceHoldsOnShorterTimeframe | src/services/analyze-strategies/rsi-divergence.ts:256-324 | with a non-negative earlier close, a third divergence found for a divergence on one timeframe is also found for the same divergence on any timeframe no longer, whose percentage limit is no larger |
| RsiThreePeriodDetector.PercentageLimit | src/services/analyze-strategies/rsi-3-period.ts:240-257 | the price gap required lies between 1 and 10 percent and is 1 under 30 minutes |
| RsiThreePeriodDetector.PercentageLimitGrowsWithTimeframe | src/services/analyze-strategies/rsi-3-period.ts:240-257 | a longer timeframe never requires a smaller gap |
| RsiThreePeriodDetector.FindOpportunity | src/services/analyze-strategies/rsi-3-period.ts:8-238 | silent for 55 or fewer values; answers exactly when a bullish or bearish 3-period divergence holds, bullish first |
| RsiThreePeriodDetector.BullishSignalMeansDeepOversold | src/services/analyze-strategies/rsi-3-period.ts:8-238 | a bullish answer means the series is still falling and the last closed 3-period RSI is below 20, with a window minimum at or below every window value |
| RsiThreePeriodDetector.BearishSignalMeansDeepOverbought | src/services/analyze-strategies/rsi-3-period.ts:8-238 | mirror for a bearish answer, above 80 |
| RsiThreePeriodDetector.FindOverextended | src/services/analyze-strategies/rsi-3-period.ts:259-299 | answers exactly on 4-hour charts whose last 3-period RSI is below 2.5 (bullish) or above 97.5 (bearish), carrying the last candle's event, close and 14-period RSI |
| BollingerBandDetector.FindOpportunity | src/services/analyze-strategies/bollinger-bands.ts:8-101 | silent for five or fewer band values; bullish exactly when the last closed candle dipped to the lower band, closed inside it, had RSI below 35 and no candle 3 to 14 back broke the band; bearish only for the mirrored upper-band conditions |
| BollingerBandDetector.RecentLowerBreakSuppressesBullish | src/services/analyze-strategies/bollinger-bands.ts:29-44 | a recent break of the lower band rules out a bullish answer |
| BollingerBandDetector.BandPercentage | src/services/analyze-strategies/bollinger-bands.ts:103-119 | zero exactly at the middle band, 100 at the band on the signal's side, positive exactly on that side of the middle, and at least 100 exactly at or beyond that band |
| BollingerBandDetector.BandScore | src/services/analyze-strategies/bollinger-bands.ts:121-137 | the signed position between the bands: 0 at the middle band, −1 at the lower band and +1 at the upper; its sign is the side of the middle band, and beyond ±0.8 exactly when the price is past 80 percent of that half-width |
| PumpDumpDetector.DumpLimit | src/services/analyze-strategies/pump-dump.ts:23-25 | the dump threshold is half a half-width below the lower band |
| PumpDumpDetector.PumpLimit | src/services/analyze-strategies/pump-dump.ts:40-42 | the pump threshold is half a half-width above the upper band |
| PumpDumpDetector.FindOpportunity | src/services/analyze-strategies/pump-dump.ts:8-76 | answers exactly when the last closed candle dumped or pumped; bearish exactly for a dump, which wins |
| PumpDumpDetector.NoCandleBothDumpsAndPumps | src/services/analyze-strategies/pump-dump.ts:30-60 | with ordered bands no candle both dumps and pumps, so the dump's precedence hides nothing |
| SwingDetector.LowScanFinds | src/services/analyze-strategies/swing-high-low.ts:11-23 | the downward scan ends on a low no higher than any scanned one, and leaves its starting candidate only for a strictly lower low with nothing as low after it |
| SwingDetector.HighScanFinds | src/services/analyze-strategies/swing-high-low.ts:42-54 | the mirror statement for the highest high |
| SwingDetector.LatestLowestLow | src/services/analyze-strategies/swing-high-low.ts:11-23 | the scan finds the newest candle holding the lowest low of the last nineteen |
| SwingDetector.LatestHighestHigh | src/services/analyze-strategies/swing-high-low.ts:42-54 | the newest candle holding the highest high of the last nineteen |
| SwingDetector.FormedSwingHighOrLow | src/services/analyze-strategies/swing-high-low.ts:5-77 | for more than 25 candles: bullish exactly when some candle from the lowest low on made a higher high, bearish exactly when some candle from the highest high on made a lower low; otherwise false |
| SwingDetector.SwingDependsOnNewestTwenty | src/services/analyze-strategies/swing-high-low.ts:5-77 | the answer depends only on the newest twenty candles and the candle count |
| LinearRegression.Accumulate | src/services/analyze-strategies/linear-regression.ts:24-32 | the running sums count the last `count` positions and sum them and their squares |
| LinearRegression.LinearRegressionTrend | src/services/analyze-strategies/linear-regression.ts:3-67 | false for fewer than two points (NaN slope) and for more points than the series holds (undefined values make the sums NaN); otherwise bullish exactly when the least-squares slope is positive and bearish exactly when it is negative |
| LinearRegression.PositionDenominatorSign | src/services/analyze-strategies/linear-regression.ts:38 | the slope's denominator is zero for fewer than two points and positive otherwise |
| LinearRegression.DenominatorSign | src/services/analyze-strategies/linear-regression.ts:38 | the slope is defined exactly when at least two points are fitted |
| LinearRegression.SumsMeasureDistances | src/services/analyze-strategies/linear-regression.ts:24-32 | the position sums measure the squared distances from any position |
| LinearRegression.FitReadsOnlyTail | src/services/analyze-strategies/linear-regression.ts:24-32 | the trend check reads only the last `count` values, for any `count` |
| StrategyChain.FindOpportunity | src/services/analyze-strategy-service.ts:23-70 | no answer exactly when all three detectors are silent; an answer is logged exactly once and carries the asked symbol and timeframe; the band readiness is needed only when the divergence detector is silent, as only then is the band detector asked |
| StrategyChain.FirstMatchWins | src/services/analyze-strategy-service.ts:23-70 | the answer is the first detector's that answered, and every detector before it was silent |
| StrategyChain.LogSessionSignals | src/services/analyze-strategy-service.ts:136-145 | a message is written exactly for a non-empty log, starting with the header; the log is always emptied |
| StrategyChain.EntriesOfConcatenation | src/services/analyze-strategy-service.ts:139-141 | the entries of a split log are the older part's followed by the newer part's |
| StrategyChain.AppendedCandidateIsListed | src/services/analyze-strategy-service.ts:36-38 | a logged candidate appears in the next message right after the earlier ones |
| OpportunityFilter.TimeframeWeight | src/services/analyze-strategies/filter-best-opportunities.ts:26-53 | the weight lies between 1 and 1.5; it is 1 exactly under an hour and 1.5 exactly from 12 hours |
| OpportunityFilter.WeightGrowsWithTimeframe | src/services/analyze-strategies/filter-best-opportunities.ts:26-53 | a longer timeframe never weighs less |
| OpportunityFilter.ScoreFollowsRsi | src/services/analyze-strategies/filter-best-opportunities.ts:21-57 | other things equal, a bullish entry outranks exactly when its RSI is lower, any other exactly when it is higher |
| OpportunityFilter.CarveLoopSplitsRest | src/services/analyze-strategies/filter-best-opportunities.ts:11-16 | the splicing loop collects the dominant entries among the even positions and leaves the odd positions behind |
| OpportunityFilter.CarveOut | src/services/analyze-strategies/filter-best-opportunities.ts:9-16 | the carve-out yields the dominant entries of the even positions and the pool of odd positions |
| OpportunityFilter.Insert | src/services/analyze-strategies/filter-best-opportunities.ts:18-60 | insertion keeps the list descending in score and adds exactly the new entry |
| OpportunityFilter.Rank | src/services/analyze-strategies/filter-best-opportunities.ts:18-60 | the ranking is a descending permutation of its input |
| OpportunityFilter.Best | src/services/analyze-strategies/filter-best-opportunities.ts:83 | the head of the ranking holds min(limit, pool size) entries of the pool, descending in score |
| OpportunityFilter.BestBeatsTheRest | src/services/analyze-strategies/filter-best-opportunities.ts:18-83 | every entry of the head scores at least as high as every ranked entry after it |
| OpportunityFilter.FilterBestOpportunities | src/services/analyze-strategies/filter-best-opportunities.ts:5-86 | the result is the carved-out dominant entries followed by min(limit, pool size) descending entries drawn from the odd positions |
| OpportunityFilter.KeptEntriesBeatTheRest | src/services/analyze-strategies/filter-best-opportunities.ts:83-85 | every kept pool entry scores at least as high as every pool entry left out |
| OpportunityFilter.EvenPositionsNeverRanked | src/services/analyze-strategies/filter-best-opportunities.ts:11-16 | without dominant entries nothing is carved out and only odd positions can be returned |
| OpportunityFilter.EvensOddsPartition | src/services/analyze-strategies/filter-best-opportunities.ts:11-16 | the even and odd positions together are the whole list |
| SessionAnalysis.InitialSessionInv | src/services/data-analyze.service.ts:23-38 | the start-up state satisfies the session invariant |
| SessionAnalysis.Enriched | src/services/data-analyze.service.ts:96-107 | the retained signal gains the last RSI and its band percentage and is otherwise unchanged |
| SessionAnalysis.Retain | src/services/data-analyze.service.ts:84-112 | only 1h/2h/4h answers are kept; overextension signals always go to the important list; others are kept, enriched, only for a symbol not yet selected |
| SessionAnalysis.RetainKeepsInv | src/services/data-analyze.service.ts:84-112 | retention keeps one enriched opportunity per selected symbol |
| SessionAnalysis.SelectionKeepsLists | src/services/data-analyze.service.ts:95-110 | selecting a symbol not yet selected, with a scored entry of its own, keeps one entry per selected symbol and no symbol twice |
| SessionAnalysis.Track | src/services/data-analyze.service.ts:116-176 | on 4-hour charts each tracker takes the chart exactly when its reading passes the threshold and strictly beats the tracked value; other timeframes leave the trackers alone |
| SessionAnalysis.TrackKeepsInv | src/services/data-analyze.service.ts:116-176 | tracking keeps the session invariant: a tracker only ever holds a reading past its threshold, tagged with its own strategy, and the lists are untouched |
| SessionAnalysis.AnalyzeSymbol | src/services/data-analyze.service.ts:48-177 | one chart's analysis keeps the session invariant |
| SessionAnalysis.AnalyzeData | src/services/data-analyze.service.ts:44-178 | the session invariant is kept, earlier opportunities stay in place, and non-4-hour runs leave the trackers unchanged |
| SessionAnalysis.TrackersBoundEveryChart | src/services/data-analyze.service.ts:125-175 | after a 4-hour run each tracker is at or beyond every chart reading that passed its threshold, and never behind its starting score |
| SessionAnalysis.TrackStepBounds | src/services/data-analyze.service.ts:125-175 | a tracking step never loses ground and reaches the chart's passing reading |
| SessionAnalysis.TrackStepSource | src/services/data-analyze.service.ts:125-175 | a tracking step either keeps a tracker or hands it the chart's entry together with the chart's reading |
| SessionAnalysis.RetainKeepsTracker | src/services/data-analyze.service.ts:84-112 | retention never touches the four trackers |
| SessionAnalysis.TrackedExtremesComeFromCharts | src/services/data-analyze.service.ts:125-175 | a tracked extreme is the entry of one of the charts (the returned index), whose reading equals the tracked score |
| SessionAnalysis.SourceStep | src/services/data-analyze.service.ts:125-175 | analysing one more chart keeps each tracked extreme tied to a chart: the earlier source or the new chart |
| SessionAnalysis.OneOpportunityPerSymbol | src/services/data-analyze.service.ts:95-110 | a session holds at most one opportunity per symbol |
| SessionAnalysis.ExtrasAreTheTrackers | src/services/data-analyze.service.ts:188-202 | an entry is among the extras exactly when it is one of the four tracked extremes |
| SessionAnalysis.ExtrasInRankOrder | src/services/data-analyze.service.ts:188-202 | the extras come in the order lowest band score, lowest RSI, highest band score, highest RSI |
| SessionAnalysis.FinishSession | src/services/data-analyze.service.ts:180-225 | the emitted list is the ranked opportunities (limit 3), then the important ones, then the extras; the candidate log is flushed and the state is reset |
| SignalHistory.PushToRecentSignals | src/services/message-construct-service.ts:109-114 | the signal goes to the front, older entries keep their order, and the history never exceeds 100 entries |
| SignalHistory.NewestMatch | src/services/message-construct-service.ts:119-134 | the search finds the newest entry of the same symbol, strategy and timeframe; it finds none for divergence and swing signals |
| SignalHistory.SignalNotInRecentList | src/services/message-construct-service.ts:116-145 | divergence and swing signals and signals with no earlier match always pass |
| SignalHistory.SuppressionMeansRecentRepeat | src/services/message-construct-service.ts:116-145 | a signal is suppressed exactly when the newest match has a non-zero event number within 20 events of it |
| SignalHistory.SentSignalSuppressesItsRepeat | src/services/message-construct-service.ts:99-145 | right after a signal with a non-zero event number is sent, its exact repeat passes only when its strategy is never suppressed |
| SignalHistory.RepeatPassesAfterGap | src/services/message-construct-service.ts:136-141 | a repeat more than 20 events newer passes again |
| SignalHistory.Select | src/services/message-construct-service.ts:27-101 | the passed signals are a sub-multiset of the results, and the history stays bounded |
| SignalHistory.Reversed | src/services/message-construct-service.ts:109-114 | the newest-first order a run of pushes leaves: entry i is the i-th from the end |
| SignalHistory.SelectKeepsNewestFirst | src/services/message-construct-service.ts:99-114 | after the batch the history is the passed signals, newest first, in front of the old history, cut to the length the pushes allow (100 once reached) |
| SignalHistory.SelectKeepsOrder | src/services/message-construct-service.ts:27-101 | the passed signals are the results at increasing positions, in their original order, and every divergence or swing signal is among them |
| SignalHistory.PassedAfterSeparated | src/services/message-construct-service.ts:116-145 | a signal that passes is more than 20 events after each earlier passed signal of its kind with a positive event number that is still in the history |
| SignalHistory.SelectSeparatesRepeats | src/services/message-construct-service.ts:27-145 | within one batch, two passed signals of one suppressible kind, the earlier with a positive event number and at most 100 passes before, are more than 20 events apart |
| SignalHistory.ConstructAndSendOpportunityList | src/services/message-construct-service.ts:20-107 | a message is sent exactly when some signal passed; the passed signals are those of the recursive selection: every divergence and swing signal passes, repeats of a suppressible kind are more than 20 events apart when the earlier one has a positive event number and lies at most 100 passes back, and the new history is the passed signals, newest first, in front of the old one, cut to 100 |
| ChartSchedule.LatestOf | src/services/data-storage.service.ts:65-71 | the latest values keep each symbol's last fetched row only |
| ChartSchedule.Fetch1MinuteChartData | src/services/data-storage.service.ts:56-85 | a non-newer event changes nothing; a newer one is recorded, sends the latest rows when the query succeeded, keeps the old latest rows when it failed, and starts the chart analysis exactly on multiples of 15 |
| ChartSchedule.MinuteNumberOnlyGrows | src/services/data-storage.service.ts:57-58 | over any sequence of events the recorded minute never decreases and stays at or above the start value and every minute seen |
| ChartSchedule.WrittenCascade | src/services/data-storage.service.ts:87-95 | the cascade as written: the 15-minute to 4-hour numbers are n divided by the candle minutes, but the 12-hour number is n/480 and the day number n/960 |
| ChartSchedule.WrittenCascadeMiscountsLongCandles | src/services/data-storage.service.ts:94-95 | at minute 480 the written cascade is already on 12-hour candle 1 although a 12-hour candle is 720 minutes; likewise the day at 960 |
| ChartSchedule.Cascade | src/services/data-storage.service.ts:87-95 | the corrected cascade: every event number is n divided by that candle's minutes, agreeing with the written one on all analysed timeframes |
| ChartSchedule.NestedDivision | src/services/data-storage.service.ts:88-95 | flooring twice equals flooring once by the product |
| ChartSchedule.ScheduledAnalyses | src/services/data-storage.service.ts:119-147 | at most three analyses, of 4h, 2h and 1h charts |
| ChartSchedule.RunsByFlags | src/services/data-storage.service.ts:120-147 | each timeframe runs exactly when the quarter-hour number is a multiple of 16, 8 or 4, with the cascade's event number |
| ChartSchedule.ScheduleFollowsTheClock | src/services/data-storage.service.ts:77-147 | on a quarter hour the 4h, 2h and 1h charts are analysed exactly on multiples of 240, 120 and 60 minutes, each with its candle number; the 4h run implies the 2h, which implies the 1h |
| ChartSchedule.GroupRows | src/services/data-storage.service.ts:204-228 | the grouped chart has a key exactly for each traded symbol with rows, holding those rows in query order |
| ChartSchedule.GroupingKeepsTradedRows | src/services/data-storage.service.ts:218-226 | every row of a traded symbol lands under its symbol and every grouped row comes from the query |
| ChartSchedule.FillLatestSymbolData | src/services/data-storage.service.ts:235-242 | the same symbols; a symbol with a latest value gets that row appended once; the others are untouched |
| ChartSchedule.FillAppendsNewestMinuteRow | src/services/data-storage.service.ts:176-190 | a chart filled after a successful minute fetch ends with that symbol's newest minute row |
| TradeLevels.StopProfitPercentage | src/services/paper-trade-service.ts:560-604 | the stop-profit percentage lies between 1 and 15 and is 1 for strategies outside the two tables |
| TradeLevels.StopLossPercentage | src/services/paper-trade-service.ts:606-635 | the stop-loss percentage lies between 3 and 24 and is 5 for strategies outside the table |
| TradeLevels.WiderStopsForLongerCandles | src/services/paper-trade-service.ts:560-635 | longer candles never get narrower stops, and a divergence never gets less profit than a plain bullish signal |
| TradeLevels.LevelsOrdered | src/services/paper-trade-service.ts:130-143 | for a positive buy price: stop-loss < buy < zero-loss < minimum profit < stop-profit |
| TradeLevels.ProfitGatePassesIffPriceNonNegative | src/services/paper-trade-service.ts:161-166 | the stop-profit ≥ minimum-profit gate passes exactly for a non-negative buy price |
| TradeLevels.BuyPriceBelowClose | src/services/paper-trade-service.ts:130 | the buy price sits strictly below a positive close |
| TradeLevels.OrderExpireLimit | src/services/paper-trade-service.ts:637-654 | a whole number of hours between 2 and 10, in milliseconds; 2 hours outside the table |
| TradeLevels.HoldTimeGrowsWithTimeframe | src/services/paper-trade-service.ts:637-654 | longer candles are held longer, and the hold time exceeds one candle exactly up to 2-hour candles |
| TradeAccount.PushToRecentOrderStatusStack | src/services/paper-trade-service.ts:478-483 | the outcome goes to the front; an eleventh entry cuts the stack to nine; never more than ten |
| TradeAccount.PushKeepsNewestOutcomes | src/services/paper-trade-service.ts:478-483 | the newest outcomes, up to the kept length, are the pushed one and the earlier stack in order |
| TradeAccount.IndexOf | src/services/paper-trade-service.ts:490 | `indexOf`: the first position of the element, or -1 exactly when it is absent |
| TradeAccount.RemoveFromRecentlyLostSymbolList | src/services/paper-trade-service.ts:489-494 | removes the symbol's first occurrence only when its index is above 0; a symbol at the front stays |
| TradeAccount.AddToRecentlyLostSymbolList | src/services/paper-trade-service.ts:496-500 | appends the symbol exactly when it is absent |
| TradeAccount.LostListStaysDuplicateFree | src/services/paper-trade-service.ts:489-500 | both list updates keep the list free of duplicates |
| TradeAccount.WinClearsSymbolUnlessOldest | src/services/paper-trade-service.ts:489-494 | after a win the symbol is still listed exactly when it is the oldest entry |
| TradeAccount.OnlyLoserStaysListedAfterWin | src/services/paper-trade-service.ts:489-500 | a symbol that is the only loser stays listed after a win |
| TradeAccount.LossThenWinRestoresList | src/services/paper-trade-service.ts:489-500 | a loss then a win of a new symbol on a non-empty list restores the list |
| TradeAccount.VisibleCountOfConcatenation | src/services/paper-trade-service.ts:510-515 | the visible count of a concatenation is the sum of the counts |
| TradeAccount.HasAvailableTradeSlot | src/services/paper-trade-service.ts:506-518 | a slot is free exactly for a hidden order or when fewer visible active orders than the limit exist |
| TradeAccount.HasPendingOrder | src/services/paper-trade-service.ts:520-552 | true exactly when a visible order of that symbol exists, whatever the timeframe |
| TradeAccount.SetHidden | src/services/paper-trade-service.ts:460-470 | every order is kept, with only its hidden flag set |
| TradeAccount.VisibilityAfterSetHidden | src/services/paper-trade-service.ts:460-470 | hiding all leaves nothing visible or pending; showing all makes every order visible |
| PaperTradeBook.ExitOf | src/services/paper-trade-service.ts:265-273 | the report of a closed trade: stop-profit, stop-loss, sold without loss or sold with loss, each exactly under its price condition |
| PaperTradeBook.CloseTrade | src/services/paper-trade-service.ts:198-275 | removes the trade; a stop-profit records a win and clears the symbol, a stop-loss records a loss and lists it; only visible trades move the balance by the rounded proceeds and count; the invariants and the capital are kept |
| PaperTradeBook.NextPlacingAllowed | src/services/paper-trade-service.ts:425-458 | with more than three outcomes, trading pauses exactly after a loss and resumes exactly after three wins; otherwise the flag stays |
| PaperTradeBook.SellActiveOrder | src/services/paper-trade-service.ts:198-286 | a sale removes an order, never adds one, changes pending buys only in their hidden flags, and keeps the invariants and the capital |
| PaperTradeBook.PauseOrResume | src/services/paper-trade-service.ts:425-458 | without a pause only the flag and the hidden flags may change, and a resume shows every pending buy; a pause sells at least one active order, and with no active order it leaves trading paused and nothing visible pending |
| PaperTradeBook.Pause | src/services/paper-trade-service.ts:427-438 | the pause sells at least one active order when there is one, keeps the invariants and the capital, and with no active order leaves the flag cleared and nothing visible pending |
| PaperTradeBook.SellAll | src/services/paper-trade-service.ts:472-476 | selling from a position below the length removes at least one order, and from past it changes nothing |
| PaperTradeBook.OddPositions | src/services/paper-trade-service.ts:472-476 | the entries at odd positions, in order: half the length, entry j being entry 2j+1 |
| PaperTradeBook.SellAllWhilePaused | src/services/paper-trade-service.ts:472-476 | while paused after a loss, when no order the loop sells reaches its stop-profit, the loop from a position keeps the orders before it and every second order from it, the flag stays cleared and the pending buys stay |
| PaperTradeBook.SellBelowStopProfitWhilePaused | src/services/paper-trade-service.ts:198-286 | a sale below the stop-profit while paused after a loss removes just that order and records another loss, so nothing resumes |
| PaperTradeBook.PauseSellsEvenPositions | src/services/paper-trade-service.ts:425-476 | a pause in which no sold order reaches its stop-profit leaves trading paused, every pending buy hidden and none visible, and exactly the active orders at odd positions |
| PaperTradeBook.PauseLeavesSecondOrderActive | src/services/paper-trade-service.ts:472-476 | a pause over two orders at neither stop sells the first and leaves the second active |
| PaperTradeBook.TriggerActiveSellOrders | src/services/paper-trade-service.ts:357-382 | the sell trigger never adds orders and keeps the invariants and the capital |
| PaperTradeBook.QuietTickOnlyUpdatesPrices | src/services/paper-trade-service.ts:357-382 | when no order with a live price hits a stop or expires, the trigger records that live price on each such order from the position on and changes nothing else in the book |
| PaperTradeBook.RepricedAt | src/services/paper-trade-service.ts:359-363 | the repricing keeps every order but its price, leaves earlier positions alone and gives later ones the live price of their symbol when it has one |
| PaperTradeBook.SellMatching | src/services/paper-trade-service.ts:387-394 | an order of the bearish symbol and timeframe is sold if one exists from the position; otherwise the book is unchanged |
| PaperTradeBook.SellIfTimeFrameIsBearish | src/services/paper-trade-service.ts:385-396 | the bearish check never adds orders and keeps the invariants and the capital |
| PaperTradeBook.NoMatchingBearKeepsBook | src/services/paper-trade-service.ts:385-396 | when no active order matches a bearish item, the book is unchanged |
| PaperTradeBook.VisitPendingBuy | src/services/paper-trade-service.ts:291-337 | an order without a live price is skipped; otherwise it is priced and filled exactly when the balance exceeds 100, the live price is at or below its buy price and a slot is free; else it expires exactly when older than its hour and is removed; else it stays at its place with the live price |
| PaperTradeBook.TriggerPendingBuyOrders | src/services/paper-trade-service.ts:289-354 | each original order ends at one distinct place: kept, filled (appended to the active orders) or expired; a kept order that was visited was not fillable and is at most an hour old, an unvisited one keeps its price; every expired order was not fillable and is older than the hour; fills are at the live price, at or below the buy price, with at most one visible fill, which debits 100 and hides the rest; with no removal every order with a live price is visited; orders without a tick stay |
| PaperTradeBook.FillingKeepsCapital | src/services/paper-trade-service.ts:301-315 | moving 100 from the balance into a visible active order keeps the capital |
| PaperTradeBook.NewTrade | src/services/paper-trade-service.ts:129-159 | the new order takes the candidate's symbol, timeframe and strategy at the rounded buy price, and is hidden exactly for a recently lost symbol or while paused |
| PaperTradeBook.Evict | src/services/paper-trade-service.ts:169-177 | eviction only removes entries, and keeps every entry the new order does not outbid |
| PaperTradeBook.EvictionSkipsNeighbour | src/services/paper-trade-service.ts:169-177 | of two adjacent outbid entries only the first is evicted |
| PaperTradeBook.PlaceFor | src/services/paper-trade-service.ts:108-195 | an order is placed exactly with no visible pending buy or sell of the symbol, a positive price and a count of at most one, at the front after eviction; a signal is reported exactly for symbols not recently lost; a dominant divergence raises the limit to 10 |
| PaperTradeBook.PlaceOne | src/services/paper-trade-service.ts:108-195 | one candidate is placed exactly when `PlacementAllowed` holds, as the new order at the front; a signal is reported exactly for a symbol not recently lost, and it is the new order; only the pending buys and the limit change |
| PaperTradeBook.PlaceAll | src/services/paper-trade-service.ts:105-196 | a run of candidates changes only the pending buys and the limit, places at most two orders and adds no more orders than it places |
| PaperTradeBook.PlaceAllTurn | src/services/paper-trade-service.ts:108-195 | each candidate is placed exactly when `PlacementAllowed` holds against the book and count the earlier candidates left, at the front of the pending list |
| PaperTradeBook.PlaceAllBoost | src/services/paper-trade-service.ts:108-122 | the limit ends at 10 exactly when some candidate is a divergence on the dominant symbol; otherwise it is unchanged |
| PaperTradeBook.Signals | src/services/paper-trade-service.ts:145-192 | at most one signal per candidate, none for a recently lost symbol |
| PaperTradeBook.SignalsOfUnlost | src/services/paper-trade-service.ts:145-192 | an order is among the signals exactly when it is the new order of a candidate whose symbol has not recently lost |
| PaperTradeBook.PlacePendingBuyOrder | src/services/paper-trade-service.ts:105-196 | the loop places each candidate exactly when `PlacementAllowed` holds at its turn (through `PlaceAll` and `PlaceAllTurn`), reports the new order of each candidate not recently lost, in order (through `Signals`); at most two orders per call; the limit becomes 10 exactly when a dominant divergence is among the candidates; only the pending buys and the limit change |
| PaperTradeBook.OnLatestPrices | src/services/paper-trade-service.ts:87-96 | a minute's prices fill, then sell, keeping the invariants, the capital and the limit; a solvent book stays solvent when the rounding keeps signs and prices are non-negative |
| PaperTradeBook.OnTradeSource | src/services/paper-trade-service.ts:79-85 | a session's candidates sell bearish orders, then place buys, keeping the invariants and the capital; a solvent book stays solvent when the rounding keeps signs |
| PaperTradeBook.AmountsApartFromHiding | src/services/paper-trade-service.ts:460-470 | changing hidden flags keeps every amount |
| PaperTradeBook.CloseTradeKeepsSolvent | src/services/paper-trade-service.ts:198-245 | a sale credits the rounded proceeds of a non-negative amount at a non-negative price, so the balance stays non-negative |
| PaperTradeBook.SellActiveOrderKeepsSolvent | src/services/paper-trade-service.ts:198-286 | a sale and the pause or resume after it keep the book solvent |
| PaperTradeBook.PauseOrResumeKeepsSolvent | src/services/paper-trade-service.ts:425-458 | pausing or resuming keeps the book solvent |
| PaperTradeBook.PauseKeepsSolvent | src/services/paper-trade-service.ts:427-438 | the pause's hiding and selling keep the book solvent |
| PaperTradeBook.SellAllKeepsSolvent | src/services/paper-trade-service.ts:472-476 | the sell-everything loop keeps the book solvent |
| PaperTradeBook.SellMatchingKeepsSolvent | src/services/paper-trade-service.ts:387-394 | selling matching orders keeps the book solvent |
| PaperTradeBook.BearishSaleKeepsSolvent | src/services/paper-trade-service.ts:385-396 | the bearish check keeps the book solvent |
| PaperTradeBook.TickKeepsSolvent | src/services/paper-trade-service.ts:357-382 | the sell trigger keeps the book solvent under non-negative live prices |
| PaperTradeBook.FillingKeepsSolvent | src/services/paper-trade-service.ts:291-318 | a fill debits 100 only from a balance above 100 and moves a non-negative order at a non-negative live price, so the book stays solvent |
| PaperTradeBook.PlaceForKeepsSolvent | src/services/paper-trade-service.ts:108-195 | a placed order holds a non-negative amount, since it is placed only for a positive close |
| PaperTradeBook.NewTradeAmount | src/services/paper-trade-service.ts:129-157 | the order built for a positive close holds a non-negative amount |
| PaperTradeBook.PlacingKeepsSolvent | src/services/paper-trade-service.ts:105-196 | placing a run of candidates keeps the book solvent |

## Left out

- Telegram messages, the log writer and the session message lists of the message service are left out. These include the buy, sold, expired and stop lists, `notifyTradesPaused`, `notifyTradesResumed`, `sendAccountUpdate` and the `constructAndSend*Message` calls. They only format and send text.
- The MySQL connection and query are left out. `GroupRows` models the grouping of the rows a query returns; a failed query is the `None` input of `Fetch1MinuteChartData`.
- The rxjs subjects, `setInterval`, the singletons and `main.ts` are left out. The handlers are modelled as functions of the state.
- Loading and saving the JSON trade store is left out. The starting `Book` is a parameter.
- RSI and Bollinger-band computation come from an external indicator library. Their results are inputs.
- `roundNum` is a parameter `round`. Its decimal rounding of floating-point numbers is not modelled.
- `TradingSymbols` is a parameter.
- The clock is a parameter (`now`).
- Floating point is not modelled. Prices are mathematical reals, and NaN and Infinity are excluded by preconditions where the source would divide by zero:
  - the band half-widths;
  - the regression with fewer than two points, which returns false as NaN comparisons do.
- PaperTradeBook.PlaceFor: requires a non-zero close, because a zero close makes the amount Infinity.
- PaperTradeBook.PlacePendingBuyOrder: requires a non-zero close on every candidate (`Priced`), for the same reason. `PlaceOne`, `PlaceAll` and `Signals` carry the same requirement.
- PaperTradeBook.OnTradeSource: requires a non-zero close on every bullish candidate, as `PlacePendingBuyOrder` does.
- The one-hour `setTimeout` that resets the active-order limit to 3 is left out. Only the raise to 10 is modelled.
- PaperTradeBook.PauseOrResume: the pause's hiding and selling run after `await notifyTradesPaused()`. They are modelled as happening at once, within the same sale.
- PaperTradeBook.PauseOrResume: when an order sold during a pause reaches its stop-profit, the nested check may resume trading in the middle of the loop. For that case only the invariants, the capital and the shrinking of the active list are stated; the case without such a sale is `PauseSellsEvenPositions`.
- The fetches of the 12-hour, 1-day, 30-minute and 15-minute charts are commented out in `fetchChartData`, so they are not modelled.
- The commented-out candidate processing in the strategy service is not modelled.
- `analyzeData` passes the 3-period RSI series as the band argument of the strategy chain, an arity mismatch in this snapshot. The session model takes the chain's answer per chart as an input (`SymbolChart.found`).
- SessionAnalysis.AnalyzeData: every chart is assumed to carry a band value (`SymbolChart.lastBand`), which takes at least 55 closes for the 55-period bands. With fewer, the band list is empty. Then `bollingerBandScore` on a 4-hour chart and `findBollingerBandPercentage` for an enriched opportunity read a field of `undefined`. That TypeError aborts the whole session, and this error path is not modelled. `Track` and `AnalyzeSymbol` share the assumption.
- OpportunityFilter.FilterBestOpportunities: requires every entry to carry its RSI and band values (`Scored`). The session ranks only enriched entries, and the JavaScript comparator would compute NaN otherwise.
- OpportunityFilter.Rank: states a descending permutation, not the stability of `Array.prototype.sort`.
- PaperTradeBook.TriggerActiveSellOrders: states the invariants it keeps and, through `QuietTickOnlyUpdatesPrices`, the quiet case. It does not list which orders a busy tick sells.
- PaperTradeBook.SellIfTimeFrameIsBearish: states the invariants and the no-match case, not the exact set of orders sold.
- PaperTradeBook.SellMatching: states that some matching order is sold when one exists from the position, not which ones. A sale can pause trading and sell other orders, and each removal shifts later orders past the loop index.
- PaperTradeBook.OnLatestPrices: states the invariants and solvency only. The steps are described by `TriggerPendingBuyOrders` and `TriggerActiveSellOrders`.
- PaperTradeBook.OnTradeSource: states the invariants and solvency only. The steps are described by `SellIfTimeFrameIsBearish` and `PlacePendingBuyOrder`.
- PaperTradeBook.Solvent: a non-negative balance is kept only under two assumptions. The rounding must map non-negative amounts to non-negative ones (`RoundKeepsSign`), and for the minute handler every newest close must be non-negative (`NonNegativePrices`). The rounding is a parameter and the prices are inputs, so neither is known otherwise.
- ChartSchedule.Fetch1MinuteChartData: requires every fetched symbol to have at least one row, which the grouping guarantees.
- `formedSwingHighOrLow` and `rsiTripleDivergenceFormed` are called only from commented-out code. They are modelled as functions on their own.
- BollingerBandDetector.FindOpportunity: requires at least 14 candles and 14 band values once more than five band values are given. With 6 to 13 band values, or too few candles, the scan at bollinger-bands.ts:31-38 reads before the start of the series and throws a TypeError. That error path is not modelled. It is reachable in this snapshot, because `analyzeData` passes the shorter 3-period RSI series as the band argument.
- StrategyChain.FindOpportunity: requires the band detector's readiness whenever the divergence detector is silent (`InputsReady`). Otherwise the band scan throws the TypeError described for `BollingerBandDetector.FindOpportunity`, which is not modelled. `FirstMatchWins` carries the same requirement.
- PumpDumpDetector.FindOpportunity: requires two candles once more than five band values are given. With fewer, reading the last closed candle throws a TypeError, which is not modelled.
- RsiThreePeriodDetector.FindOverextended: requires a candle on the 4-hour chart. Without one, reading the last candle throws a TypeError, which is not modelled.
- RsiDivergenceDetector.RsiTripleDivergenceFormed: requires a candle no later than the earlier divergence at or before the fourth-last position. Without one, the backward scan at rsi-divergence.ts:294-297 (and its mirror) reads before the start of the series and throws a TypeError. That error path is not modelled.
- ChartSchedule.GroupRows: the grouped chart is a map, which drops the order in which symbols first appear in the query rows. `analyzeData` walks the keys in that order, and the order decides the order of the opportunity list and so which entries the ranking carves out. The chart order reaching `AnalyzeData` is therefore an unconstrained input.
- SignalHistory.SelectSeparatesRepeats: the gap is promised only for an earlier signal with a positive event number and at most 100 passes before the later one. An older signal may have left the history. With a negative event number, a later repeat with event number 0 can pass and then no longer blocks a repeat.

## Findings

| source | as written | input that shows it | evidently intended | confidence | as-written member | corrected member |
|---|---|---|---|---|---|---|
| src/services/data-storage.service.ts:94-95 | the 12-hour event number is the 4-hour number halved, and the day number is the 12-hour number halved | 1-minute event 480: the 12-hour number is 1, but only 480 of the 720 minutes of a 12-hour candle have passed (likewise 960 for the day) | divide by 3 (three 4-hour candles per 12 hours), so the numbers are n/720 and n/1440 | high that the arithmetic is wrong; the values are unused while the 12-hour and 1-day fetches stay commented out; not executed | ChartSchedule.WrittenCascadeMiscountsLongCandles | ChartSchedule.Cascade |
