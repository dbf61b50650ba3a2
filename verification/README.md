# Argus-Quant: a verified model of the signal engine's cores

Argus-Quant is a crypto-futures signal bot. This project models its deterministic cores in
Dafny and proves the properties they exist for, over every input, every run and every
interleaving. `dafny verify dfyconfig.toml` checks all of it.

| Module | Models |
|---|---|
| `MarketBars`, `ExitScan`, `Replay`, `ReplayMeaning`, `NoLookAhead`, `Metrics` | the candle-replay backtester: index searches, forward exit scan, cached loop, causality, aggregation |
| `Mtf` | the four-layer multi-timeframe gate |
| `KlinesRange`, `Supertrend`, `LiquidityMap` | batched download, the band recurrence, level clustering and volume histogram |
| `SignalAdmission` | concurrent `_handle_signal` tasks over the signals table, step by step |
| `OrderSizing` | exchange-valid quantities and prices |
| `Tracker`, `TradeOutcome`, `Backfill`, `LifecyclePnl` | the tracker's poll, the outcome fold, its backfill, and blended realized profit |
| `OrderFailures`, `Accounting`, `DailyRace`, `AutoEngine` | the retry machine, the net-profit ledger and its concurrent closings, and stop protection |
| `Common` | options, trade side, decimal rounding |

**Shape.** What the source computes by expressions is a function; what it computes by updating
variables in a loop is a method proved equal to a function, or to a property, of its inputs;
rows and objects updated in place are classes (`SignalRow`, `OrderFailure`, `Ledger`, `AutoPosition`) whose
methods equate the new state with a function of the old one. Lemmas then say what those
functions mean, from prices, bars, rows and settings, without naming them. Python's
`round(x, k)` is written out as rounding half to even on exact reals.

**Where to look first.** `Replay.Run` (the cached loop is the naive replay),
`ReplayMeaning.ReplayTakesEveryChance`, `NoLookAhead.EntriesIgnoreTheFuture`,
`Mtf.AcceptedIff`, `SignalAdmission.AdmissionIsSafe`,
`TradeOutcome.FoldTells`, `LifecyclePnl.AgreementIff`, `SignalAdmission.UniqueIffIndexed`,
`LiquidityMap.ClusteringIsPartition`, `OrderSizing.QuantityIsLeastAdmissible`,
`Accounting.BooksAlwaysBalance`, `OrderFailures.RetriesWithinBudget`,
`Tracker.StopsAreFinalIff`, `AutoEngine.BreakEvenProtects`.

**Promises the code does not keep in full, and the exact line between.**

- Uniqueness of live signals: over all interleavings it holds exactly when the partial unique
  index exists, whatever the guard and auto-trading settings (`UniqueIffIndexed`). Without the
  index, guard on or off, two handlers can both be admitted (`GuardAloneIsNotEnough`); on runs
  whose guard-to-INSERT sections do not overlap the guard suffices (`GuardSufficesWhenSerial`).
- A stop ends a signal's events, over all signals and runs of polls, exactly when protected stops
  are not stored as wins (`StopsAreFinalIff`). With that setting on, as shipped, a signal stopped
  at TP1 or TP2 keeps its polled status: it can receive any further event, and every other stopped
  row is never touched again (`StoppedRowIsFinalIff`). The runs: TP1, stop, TP3 ends as FULL_WIN
  (`StoppedSignalBecomesFullWin`), and a quiet poll after the stop overwrites the booked profit
  (`StopBookingIsOverwritten`). Rows no longer polled do carry the booking of their whole history
  (`TrackedTraced`, `ClosedRowsAgree`).
- "The first timestamp for each level is preserved" holds for take-profits (`FoldTimes`). For the
  stop and for break-even it holds exactly when the first and the last such event carry one time
  (`FirstTimeKeptIff`); TP1 and two stops at different times is the input that fails
  (`StopTimeIsOverwritten`).
- Realized profit and win-rate agree on every finished run, of all ladders and of published
  signals alike, exactly when the stop moves to break-even or the whole position is booked at TP1
  (`AgreementIff`). With a floor k on reward to risk at TP1 the line, before the final rounding, is
  break-even or a TP1 share of at least 1 / (1 + k) (`WinsNeverLoseIff`). The default fractions
  without break-even give an everyday disagreement (`WithoutBreakEvenTheyDisagree`).
- Supertrend's flip bar can have its close on the wrong side of the line
  (`FlipBarCanBeOnWrongSide`). Told from the inputs: it is right whatever the market closes at
  exactly when the bar's basic bands clear the opposite basic bands of the unbroken runs ending
  there (`AlwaysSafeIff`); for one history, exactly when the final bands have not crossed
  (`FlipIsSafeIff`).
- The daily trade count equals the committed trades exactly on the runs in which no transaction
  commits over one it has not seen (`DailyCountIsExactIff`); two closings that read together lose
  one (`AnUpdateCanBeLost`).
- Break-even overwrites the stop without comparing, so the stop can move against a trade whose
  first stop is beyond its entry; it never does exactly when the first stop is on the losing
  side, or there is none yet (`NeverWidensIff`).
- A range download asks nothing when `start >= end`; it is complete exactly when the range is
  proper or empty, and a one-millisecond candle does not end its last full batch just before a
  candle that opens at `end` (`RangeIsComplete`). No exchange interval is that short, so for
  real candles only the first part matters (`RangeExactlyOnce`).

"Once a win, always a win" is kept without condition over take-profit, stop and break-even
events, which are the ones recorded (`LifecycleWinIsPermanent`). For event names of any kind it
holds exactly when the history shows a take-profit (`WinIsPermanentIff`, `ManualWinCanBeLost`).

**Where code and documentation differ, the model follows the code.** Besides the timestamps above,
the gate's comment gives confidence a range from 75; a passing entry layer always adds two points a
factor, so 77 is the least (`AcceptedIsPublishable`, reached by `LowestConfidence`) and the NONE
tier is unreachable.

## Model

| member | source | states |
|---|---|---|
| MarketBars.SearchRightSplits | app/backtesting/historical.py:500-500 | The right-sided binary search separates the bars closed by ts from those still open. |
| MarketBars.SearchLeftSplits | app/backtesting/historical.py:472-475 | The left-sided search separates bars closing before ts from those closing at or after it. |
| MarketBars.ClosedCountIsPrefix | app/backtesting/historical.py:500-504 | The prefix found by the search is exactly the list of bars visible at ts, defined without any search. |
| MarketBars.ClosedByEarlier | app/backtesting/historical.py:500-504 | What was visible at an earlier time is determined by what is visible now. |
| MarketBars.ClosedByOwnClose | app/backtesting/historical.py:498-498 | At the close of bar k bars 0..k are visible, and no others but such as close at that same moment. |
| ExitScan.SimulateExit | app/backtesting/historical.py:151-196 | The scan loop computes the exit the specification function defines, on every input. |
| ExitScan.ExitIsTheScans | app/backtesting/historical.py:151-196 | For any levels the exit is the only one with this description, which names no part of the scan: within 200 candles the first that reaches the stop or a target, the stop first and then the highest target, else expiry at the close of the candle after them (both directions). |
| ExitScan.ExitCharacterised | app/backtesting/historical.py:163-196 | For ordered levels that is the least candle touching the stop or TP1, the stop winning a tie, else the highest target reached, else expiry. |
| ExitScan.ExitRange | app/backtesting/historical.py:172-196 | Exit indices stay in range and at most 201 candles after entry; the status is never OPEN. |
| ExitScan.ShortIsMirroredLong | app/backtesting/historical.py:176-192 | A SHORT scan is a LONG scan of the price-negated chart with negated levels. |
| Mtf.TrendGate | app/ai_scoring/mtf.py:146-164 | A TREND rejection occurs if and only if the 1D snapshot is neither bull nor bear, whatever else the snapshots hold. |
| Mtf.ScoresCountVotes | app/ai_scoring/mtf.py:183-265 | Each layer's score is the number of its named votes (five at 4H, five at 1H, five at 15M, three of them triggers) that its snapshot shows. |
| Mtf.AcceptedIff | app/ai_scoring/mtf.py:125-287 | The pipeline accepts a side if and only if all four timeframes are there, the 1D trends to it, at least two votes show at 4H, three at 1H, the pass score at 15M, and a trigger where required; each rejection names the first layer that fails. |
| Mtf.TrendScoreIs | app/ai_scoring/mtf.py:166-173 | Trend points: ten, five for a break or change of structure on the side, five per percent of EMA separation up to five. |
| Mtf.AcceptedIsScored | app/ai_scoring/mtf.py:289-321 | Confidence is 65 plus the trend points plus two per vote beyond the required ones and per entry vote, at most 100, rounded to one place; tiers at 95, 85 and 75. |
| Mtf.AcceptedIsPublishable | app/ai_scoring/mtf.py:125-322 | Whatever passes has confidence between 75 plus two per entry factor and 100, so 77 at least, a publishable tier, the side of the 1D trend, and layer scores at or above their thresholds. |
| Mtf.LowestConfidence | app/ai_scoring/mtf.py:289-299 | A passing snapshot map with confidence exactly 77. |
| Mtf.ConfidenceRange | app/ai_scoring/mtf.py:289-299 | Confidence of any passing combination lies between 75 plus two per entry factor and 100 after rounding. |
| Mtf.PipelineIsSymmetric | app/ai_scoring/mtf.py:125-322 | Turning the market upside down swaps the decision's side and changes no score, confidence or rejection stage. |
| Mtf.ConfidenceMonotone | app/ai_scoring/mtf.py:289-299 | Confidence is non-decreasing in every layer's score. |
| Mtf.MoreEvidenceNeverHurts | app/ai_scoring/mtf.py:125-322 | A long signal survives any additional bullish evidence with no less confidence. |
| Mtf.MoreBearishEvidenceNeverHurts | app/ai_scoring/mtf.py:125-322 | A short signal survives any additional bearish evidence with no less confidence. |
| Replay.LiveIsTrendGated | app/ai_scoring/mtf.py:146-164 | The shipped pipeline satisfies the one property the replay's short-cut depends on. |
| Replay.NoTrendNoOffer | app/backtesting/historical.py:513-517 | Without a 1D trend the naive replay offers nothing at this candle, whatever the other snapshots are: the short-cut loses no trade. |
| Replay.Refresh | app/backtesting/historical.py:499-511 | The lazy cache, whatever it was built for before, leaves exactly the snapshot of the prefix closed by ts. |
| Replay.Candidate | app/backtesting/historical.py:498-572 | One unblocked candle with lazy caches and early exits finds exactly the entry a full rebuild of four snapshots finds, and keeps all three caches right. |
| Replay.OpenTrade | app/backtesting/historical.py:559-617 | Trade creation, exit scan and rounded profit equal the specification of a trade opened at this candle. |
| Replay.PnlIsEarned | app/backtesting/historical.py:614-617 | Profit is the percentage the price rose from the entry for a LONG and fell for a SHORT, rounded to three places. |
| Replay.Loop | app/backtesting/historical.py:488-620 | The loop with caches and blocked-until cursor produces exactly the fold of the naive per-candle step, its two counters, and the division by a zero entry price where that fold meets one. |
| Replay.Run | app/backtesting/historical.py:428-630 | The cached replay returns the same trades, scanned count and signal count as the naive replay that rebuilds everything at every candle, error results and the division by zero included, on all data. |
| Replay.TradePlaced | app/backtesting/historical.py:577-617 | Every opened trade enters at its own candle and close, exits where the documented exit is, within the holding limit, and books the profit earned on its side. |
| Replay.FoldDisjoint | app/backtesting/historical.py:494-496 | Trades are ordered and disjoint, each entry strictly after the previous exit, all inside the window. |
| Replay.ReplayDisciplined | app/backtesting/historical.py:488-620 | In every replay, also one that raises: ordered, disjoint trades, indices in range, hold between 0 and _MAX_HOLD + 1, signals at most scanned candles. |
| ReplayMeaning.WindowIff | app/backtesting/historical.py:471-476 | The window is exactly the candles from the 251st on that close from the start on and before the end. |
| ReplayMeaning.HigherSnapshotIsView | app/backtesting/historical.py:499-511 | A higher timeframe's snapshot is built from the latest 250 of the bars closed by then, and not before the sixtieth. |
| ReplayMeaning.OpportunityIff | app/backtesting/historical.py:498-572 | An entry is found at a candle, and that one, if and only if the bars closed by its close give four snapshots, the pipeline accepts them and levels are found on its side. |
| ReplayMeaning.ReplayTakesEveryChance | app/backtesting/historical.py:428-630 | Every trade of a replay is a chance of the window, placed as told, one at a time; and in a replay that gets to its end every chance of the window is taken or falls while a trade is held. |
| ReplayMeaning.ReplayEnds | app/backtesting/historical.py:454-480 | Which of its endings a replay has, and that it scans every candle of the window and signals every trade. |
| NoLookAhead.SameOpportunity | app/backtesting/historical.py:498-572 | Two histories that look alike at the close of candle k offer the same entry at every candle up to k. |
| NoLookAhead.SameBlocking | app/backtesting/historical.py:172-196 | As seen from candle k, a forward exit scan blocks the same candles in both histories. |
| NoLookAhead.SameWindowEdge | app/backtesting/historical.py:472-476 | Both histories have the same test-window boundaries as far as candle k can tell. |
| NoLookAhead.EntriesByFold | app/backtesting/historical.py:488-620 | The entries made by candle k are those of a replay that stops at candle k. |
| NoLookAhead.EntriesIgnoreTheFuture | app/backtesting/historical.py:428-630 | No look-ahead: agreement on all bars closed by candle k gives the same entries (index, time, price, side, scores, levels) up to k, for histories of any lengths. |
| Metrics.EquityAndDrawdown | app/backtesting/historical.py:254-266 | The one-pass drawdown is the maximum of curve[i] - curve[j] over all i <= j, zero start included. |
| Metrics.CurveIsRunningTotal | app/backtesting/historical.py:254-259 | On three-place profits every curve point is the exact running total despite rounding inside the loop. |
| Metrics.GroupByMonth | app/backtesting/historical.py:268-276 | The month map holds, for each month with a trade, exactly the trades of that month in order, under ascending keys. |
| Metrics.MonthsPartition | app/backtesting/historical.py:268-292 | Whatever weight is summed, the months' sums add up to the whole. |
| Metrics.FunnelSplits | app/backtesting/historical.py:224-232 | Wins, losses and expired add up to the closed trades. |
| Metrics.ComputeMetrics | app/backtesting/historical.py:202-309 | The report's counts, total, curve, drawdown and monthly rows are those of the closed trades. |
| Metrics.ReportIsExact | app/backtesting/historical.py:242-266 | On three-place profits the total equals the plain sum and the last curve point, and the reported drawdown is the true one. |
| Metrics.MonthlyConserves | app/backtesting/historical.py:268-292 | Monthly signals, wins, losses and profits sum to the totals with no rounding gap. |
| Metrics.ReplayReport | app/backtesting/historical.py:428-630 | Every report built from a replay accounts for every trade of that replay exactly. |
| Metrics.Backtest | app/backtesting/historical.py:428-630 | Replay and report together: the naive replay's trades, and a report exactly accounting for them. |
| KlinesRange.WindowAdvance | app/market_data/binance_client.py:145-148 | Restarting just past the last received open time drops exactly the candles already received. |
| KlinesRange.FetchRange | app/market_data/binance_client.py:123-150 | The batching loop ends and, on a proper range, returns exactly the candles opening in [start, end] if and only if its last candle is not missed. |
| KlinesRange.FetchedExactly | app/market_data/binance_client.py:134-148 | From any point of the download on, the rest is fetched whole except if a one-millisecond candle ends a full batch just before a candle opening at the end. |
| KlinesRange.RangeIsComplete | app/market_data/binance_client.py:134-150 | For candles of any length the download is complete if and only if start < end or no candle opens in the range, and that one case does not arise. |
| KlinesRange.RangeExactlyOnce | app/market_data/binance_client.py:123-150 | For candles longer than a millisecond: no gap, no duplicate, ascending; a candle is returned if and only if it opens in the range. |
| KlinesRange.BatchSizeIrrelevant | app/market_data/binance_client.py:129-129 | Any two batch sizes give the same result. |
| KlinesRange.OneMillisecondCandlesAreMissed | app/market_data/binance_client.py:134-148 | The exceptional case at its smallest: two one-millisecond candles fetched one at a time. |
| Supertrend.Run | app/indicators/ta.py:86-121 | The in-place loop over four arrays computes the band, direction and line recurrences at every bar, holes included. |
| Supertrend.DirectionMeans | app/indicators/ta.py:108-113 | A direction turns down exactly on a close strictly below the lower band and up exactly on one strictly above the upper; the first bar has none, the second starts from up. |
| Supertrend.LineIsBand | app/indicators/ta.py:115-116 | The line is the lower band going up and the upper band going down. |
| Supertrend.UpperIsMinimumSinceBreak | app/indicators/ta.py:100-103 | The upper band is the minimum of the basic upper band since the last bar whose previous close broke it. |
| Supertrend.LowerIsMaximumSinceBreak | app/indicators/ta.py:104-106 | The lower band is the maximum of the basic lower band since its last break. |
| Supertrend.LineOnRightSide | app/indicators/ta.py:108-116 | From the bar after a flip on, the close is never on the wrong side of the line. |
| Supertrend.LineFollowsTrend | app/indicators/ta.py:100-116 | Within a constant-direction stretch, from the bar after the flip on, the line moves only in the trend direction. |
| Supertrend.BandsIgnoreOwnClose | app/indicators/ta.py:100-108 | Bands and carried direction of a bar do not depend on that bar's own close. |
| Supertrend.FlipIsSafeIff | app/indicators/ta.py:108-116 | A flip puts the close on the right side for every possible close if and only if the two bands have not crossed. |
| Supertrend.ClearBandsDoNotCross | app/indicators/ta.py:100-106 | If the bar's basic bands clear the opposite basic bands of their runs, the final bands do not cross under any closes. |
| Supertrend.AlwaysSafeIff | app/indicators/ta.py:94-116 | Whatever all closes are, a flip at the bar puts its close on the right side if and only if the bar's basic bands clear the opposite basic bands of the unbroken runs ending there. |
| Supertrend.FlipBarCanBeOnWrongSide | app/indicators/ta.py:108-116 | A two-bar input whose flip bar closes on the wrong side of the line. |
| LiquidityMap.GrowExplained | app/liquidity/liquidity_map_v2.py:116-121 | Adding a value within tolerance keeps the running mean exact and every member's drift within bounds. |
| LiquidityMap.ClusteringIsPartition | app/liquidity/liquidity_map_v2.py:111-123 | Every value is in exactly one cluster, centre times count is the members' sum, counts sum to the input length, and every member of an n-member cluster is within tol * (H(n) - 1) of the final centre. |
| LiquidityMap.DriftBoundIsTight | app/liquidity/liquidity_map_v2.py:116-121 | For every n there are n values ending in one cluster whose first member is exactly tol * (H(n) - 1) from the centre. |
| LiquidityMap.TouchedTwice | app/liquidity/liquidity_map_v2.py:124-124 | Exactly the clusters touched at least twice are reported, each once, with the centre rounded to ten places. |
| LiquidityMap.SortByTouchesSorts | app/liquidity/liquidity_map_v2.py:125-125 | The final sort is by touches, descending, and a permutation. |
| LiquidityMap.SortIsStable | app/liquidity/liquidity_map_v2.py:125-125 | Equally touched clusters keep their order. |
| LiquidityMap.ClusterLevels | app/liquidity/liquidity_map_v2.py:111-125 | The loops over mutable cells, filter and sort compute the specified clustering, most touched first. |
| LiquidityMap.BinIff | app/liquidity/liquidity_map_v2.py:138-138 | A close falls in bin b if and only if it lies in the b-th of 24 equal price intervals, the first taking also what is below and the last what is at or above the end. |
| LiquidityMap.FillBuckets | app/liquidity/liquidity_map_v2.py:136-140 | Each bucket ends up with exactly the volume traded in its price interval. |
| LiquidityMap.PeakBin | app/liquidity/liquidity_map_v2.py:140-140 | The chosen bin is the first of the largest. |
| LiquidityMap.VolumeProfile | app/liquidity/liquidity_map_v2.py:128-141 | A point of control exists if and only if there is volume, a close and a positive range between the lowest low and the highest high, and it is the middle of the first busiest of 24 equal price intervals, rounded to ten places; an empty high or low list raises exactly when it is reached. |
| LiquidityMap.HistogramConservesVolume | app/liquidity/liquidity_map_v2.py:135-139 | The bins' volumes add up to all paired volume: clamping loses none. |
| LiquidityMap.PeakInsideRange | app/liquidity/liquidity_map_v2.py:141-141 | The middle of any bin lies at least half a bin inside the traded range. |
| SignalAdmission.BookkeepingKept | app/main.py:140-246 | Every step of every handler keeps: a task past its INSERT owns the row that INSERT created, and no other. |
| SignalAdmission.IndexKept | app/database/session.py:39-41 | With the partial unique index, no step leaves two live rows for a symbol. |
| SignalAdmission.EffectsKept | app/main.py:203-246 | Every step keeps: each paper open, auto open and broadcast belongs to a task that passed that point with its own row, once. |
| SignalAdmission.AdmissionIsSafe | app/main.py:140-246 | Under every interleaving: with the index at most one live signal per symbol; in any configuration downstream effects happen only after that task's own INSERT succeeded, at most once. |
| SignalAdmission.EffectsHappen | app/main.py:203-246 | On every run each task past a point has had its effect: paper open, auto open where it is switched on and never where it is off, broadcast. |
| SignalAdmission.ErrorsEndHandlers | app/main.py:146-196 | A database error ends a handler before its guard or its INSERT, changing nothing else. |
| SignalAdmission.GuardAloneIsNotEnough | app/main.py:146-154 | Without the index two handlers that both look before either inserts are both admitted, for any symbol, guard and auto-trading setting. |
| SignalAdmission.UniqueIffIndexed | app/database/session.py:36-41 | For every configuration: all interleavings keep live signals unique per symbol if and only if the index exists. |
| SignalAdmission.GuardSufficesWhenSerial | app/main.py:146-154 | Without the index the guard still gives uniqueness on every run where guard-to-INSERT sections of one symbol do not overlap. |
| SignalAdmission.SomebodyWins | app/main.py:146-196 | While nothing closes and the database does not fail, a handler is turned away only because a live signal for its symbol is in the table. |
| OrderSizing.CeilingMeaning | app/exchange_vault/binance_preflight.py:179-189 | Rounding up gives the least multiple of the step that is at least the value. |
| OrderSizing.FloorMeaning | app/exchange_vault/binance_preflight.py:166-176 | Rounding down gives the greatest multiple of the step that is at most the value. |
| OrderSizing.PriceIsNearestTick | app/exchange_vault/binance_preflight.py:192-202 | Price rounding lands on the tick grid, no grid price is closer, and none as close is farther from zero. |
| OrderSizing.SecondBumpIsDead | app/exchange_vault/binance_preflight.py:241-244 | After the notional bump the second minimum-quantity bump never changes anything. |
| OrderSizing.NotionalFailureIsDead | app/exchange_vault/binance_preflight.py:254-261 | The final minimum-notional failure is unreachable, for any filters, price and target. |
| OrderSizing.QuantityIsMaximum | app/exchange_vault/binance_preflight.py:237-244 | The planned quantity is max(floor(target/price), ceil(min_qty), ceil(min_notional/price)) in steps, on the grid and above all minima. |
| OrderSizing.QuantityIsLeastAdmissible | app/exchange_vault/binance_preflight.py:221-266 | The planned quantity is admissible and no admissible quantity is smaller. |
| OrderSizing.PlanIsOkIffPositive | app/exchange_vault/binance_preflight.py:246-266 | For a tradable symbol the plan is ok exactly when that quantity is positive, and carries it with its notional. |
| OrderSizing.PlanFailsOnlyOnZero | app/exchange_vault/binance_preflight.py:246-253 | A tradable symbol yields no order if and only if the target is below one step and no minimum lifts it. |
| OrderSizing.PlannedQuantityIsPrecise | app/exchange_vault/binance_preflight.py:277-306 | A planned quantity passes order precision unchanged, for every order type. |
| OrderSizing.PlanRefuses | app/exchange_vault/binance_preflight.py:230-238 | Unknown symbol, suspended symbol, and non-positive price or target are refused in this order, with no amount. |
| OrderSizing.FinalChecks | app/exchange_vault/binance_preflight.py:246-266 | For any quantity: refused at zero unless positive, refused as it is below a positive minimum notional, otherwise passed with its notional. |
| OrderSizing.PrecisionMeans | app/exchange_vault/binance_preflight.py:277-306 | The whole result: quantity floored toward zero to the step grid, ok exactly when positive and not below a minimum, and the price of an ok order of a priced kind the nearest tick, ties away from zero. |
| OrderSizing.PrecisionNeverBuysMore | app/exchange_vault/binance_preflight.py:277-306 | For any quantity, negative ones included: what passes precision is at most what was asked, nothing grows or changes sign, and enforcing twice changes nothing more. |
| TradeOutcome.RecordExitEvent | app/analytics/trade_outcome.py:187-235 | Updating the block key by key equals merging the event and storing the classification; other diagnostics keys are unchanged. |
| TradeOutcome.ClassifyMeans | app/analytics/trade_outcome.py:91-183 | Any row, whatever its block holds: the highest target shown by status, time or recorded maximum decides; without one break-even status, stop, open status and the sign of the profit, in this order. |
| TradeOutcome.MaxRankIsMax | app/analytics/trade_outcome.py:223-223 | The running maximum is the greatest rank among the events. |
| TradeOutcome.FoldTimes | app/analytics/trade_outcome.py:207-217 | tpK_hit_at is the time of the first event of rank at least K; stop and break-even times are those of the last such event; absent if there was none. |
| TradeOutcome.FirstTimeKeptIff | app/analytics/trade_outcome.py:195-216 | The documented first-time promise holds of the stop and of break-even if and only if their first and last events carry one time. |
| TradeOutcome.StopTimeIsOverwritten | app/analytics/trade_outcome.py:213-214 | TP1 and two stops at different times: the second time is kept. |
| TradeOutcome.FoldRanks | app/analytics/trade_outcome.py:219-223 | max_tp_hit is the maximum rank, first and final exit the first and last event. |
| TradeOutcome.FoldProfit | app/analytics/trade_outcome.py:224-225 | The recorded profit is the last one an event gave, rounded to four places. |
| TradeOutcome.FoldTells | app/analytics/trade_outcome.py:187-235 | Folding any lifecycle from blank diagnostics leaves exactly the block its events tell, outcome included, and touches no other key. |
| TradeOutcome.StoredVerdict | app/analytics/trade_outcome.py:227-232 | The stored outcome is determined by the highest rank and the last event alone. |
| TradeOutcome.FreshMatchesStored | app/analytics/trade_outcome.py:245-251 | A fresh classification of the row gives the stored outcome whether a protected stop is stored as SL or as the highest target. |
| TradeOutcome.RankNeverFalls | app/analytics/trade_outcome.py:187-235 | From any diagnostics, no event sequence lowers the rank the history testifies to. |
| TradeOutcome.WinIsPermanentIff | app/analytics/trade_outcome.py:91-183 | A trade stays in the WIN bucket under any further events if and only if its history shows a take-profit. |
| TradeOutcome.LifecycleWinIsPermanent | app/analytics/trade_outcome.py:187-235 | Over take-profit, stop and break-even events a trade stored in the WIN bucket never leaves it, whatever follows. |
| TradeOutcome.ManualWinCanBeLost | app/analytics/trade_outcome.py:174-180 | A win by a profitable manual close alone turns into a loss at the next stop (concrete run with another event name). |
| Tracker.SignalRow.CheckOne | app/scanner/tracker.py:167-308 | One poll updates the stored row exactly as specified: entry gate, expiry, events, mark to market. |
| Tracker.SignalRow.ApplyEvents | app/scanner/tracker.py:252-307 | The loop over a poll's events records each with its status, profit and diagnostics, as specified. |
| Tracker.EventShapes | app/scanner/tracker.py:226-234 | A poll sends nothing, TP3 alone, a new highest target, the stop, or a new target and then the stop. |
| Tracker.EventsMean | app/scanner/tracker.py:213-234 | Told from prices: TP3 alone if reached; else TP2 or TP1, the higher reached, if new; and the stop if and only if the price fell to the middle of the entry band after a target with break-even on, to the stop price otherwise, for both sides. |
| Tracker.GetsThroughIff | app/scanner/tracker.py:183-200 | A poll acts if and only if the signal is selected, priced and filled or touching its entry band where that is required. |
| Tracker.GatedMeans | app/scanner/tracker.py:183-200 | A poll that does not act changes nothing but for noting a fill and expiring a signal past its time. |
| Tracker.QuietMeans | app/scanner/tracker.py:236-250 | A poll without events marks to market unless the profit moved less than the setting and no extreme changed. |
| Tracker.ExtremesWiden | app/scanner/tracker.py:202-211 | The stored extremes are the old ones widened by the poll's price, top and bottom, rounded to three places. |
| Tracker.RealizedMeans | app/scanner/tracker.py:254-274 | A target books the gain at the poll's price; without blending TP3 books its own gain and a stop that at the stop in force. |
| Tracker.EventPollStores | app/scanner/tracker.py:281-303 | Events carry the poll's time, the last one the stored profit, and the extremes are widened. |
| Tracker.TargetMovesTheStop | app/scanner/tracker.py:220-234 | On every run, after any target, an acting poll short of TP3 ends with the stop if and only if the price fell to the entry under break-even, to the stop price without. |
| Tracker.CheckedExtends | app/scanner/tracker.py:167-308 | A poll appends exactly its own events, and only if it gets past selection, price and entry gate. |
| Tracker.TrackedTraced | app/scanner/tracker.py:217-299 | Over every run of polls the diagnostics are the fold of the events sent, the status is told by them, and a row no longer polled carries the blended booking of its whole history. |
| Tracker.StoredOutcomeIsFresh | app/scanner/tracker.py:281-300 | Over every run a fresh classification of the row gives the stored outcome. |
| Tracker.ClosedRowsBooked | app/scanner/tracker.py:256-270 | A row no longer polled carries the blended profit of its highest target, told from its own prices and the settings. |
| Tracker.ClosedRowsAgree | app/scanner/tracker.py:252-300 | Under protecting settings a row no longer polled has profit at least 0 if stored as a win and exactly the full stop if stored as a loss. |
| Tracker.StoppedRowIsFinalIff | app/database/repo.py:127-130 | A signal whose last event is a stop can receive further events if and only if protected stops are stored as wins and its highest target is TP1 or TP2; otherwise no poll changes it. |
| Tracker.StopsAreFinalIff | app/scanner/tracker.py:276-283 | Over all signals and runs a stop is the last event if and only if protected stops are not stored as wins. |
| Tracker.StoppedSignalBecomesFullWin | app/scanner/tracker.py:276-283 | TP1, stop, TP3: with protected stops stored as wins the stopped trade becomes a full win. |
| Tracker.StopBookingIsOverwritten | app/scanner/tracker.py:236-250 | Under the shipped settings a quiet poll after a protected stop replaces the booked profit by the mark to market. |
| Backfill.InferMaxTpHit | scripts/backfill_trade_outcomes.py:63-91 | The loop over levels finds the recorded rank, else the greater of status rank and the highest level the excursion reached. |
| Backfill.ExcursionMeans | scripts/backfill_trade_outcomes.py:55-82 | The excursion's rank is that of the highest favourable level, of either side, that the best move in percent went to. |
| Backfill.WrittenBlock | scripts/backfill_trade_outcomes.py:94-122 | The written block member by member: rank, last and first event, note, and everything else as it was. |
| Backfill.BackfillIdempotent | scripts/backfill_trade_outcomes.py:94-122 | Applying the script twice equals applying it once. |
| Backfill.BackfillNeverLowersRank | scripts/backfill_trade_outcomes.py:94-122 | The highest target a row testifies to never falls. |
| Backfill.BackfillOnlyAddsWins | scripts/backfill_trade_outcomes.py:125-165 | A row keeps its win-rate bucket or enters WIN, never leaves it; the stored outcome matches a fresh classification; other keys are untouched. |
| Backfill.RecoveredRows | scripts/backfill_trade_outcomes.py:143-149 | A stopped-out row becomes a win if and only if its history or its best excursion testifies to a target. |
| Backfill.BackfillRespectsTracker | scripts/backfill_trade_outcomes.py:94-122 | On a block a lifecycle recorded, with a protected stop stored as SL or as the highest target, rank, outcome, events and times are all kept if and only if the history shows a target or the excursion does not. |
| LifecyclePnl.BlendIsConvex | app/analytics/lifecycle_pnl.py:60-83 | Every finished run's profit is a convex combination of its legs' returns, with shares adding up to one. |
| LifecyclePnl.BlendedIs | app/analytics/lifecycle_pnl.py:23-86 | The booked profit told from prices and settings: the first two fractions, cut to what is there, at their targets if reached, the rest at TP3, at the entry under break-even or at the stop, rounded to three places. |
| LifecyclePnl.NoEntryNoGain | app/analytics/lifecycle_pnl.py:25-26 | Without a positive entry price every run books zero. |
| LifecyclePnl.UnderReportedTp3LosesShares | app/analytics/lifecycle_pnl.py:64-73 | A TP3 reported with a lower max_tp_hit books exactly the contributions of the legs below it too little, and the whole position only if those legs carry no share. |
| LifecyclePnl.LadderReturns | app/analytics/lifecycle_pnl.py:23-29 | On a well-formed ladder of either side the returns are ordered: stop at most 0, targets rising from 0. |
| LifecyclePnl.OneMoreTargetHelps | app/analytics/lifecycle_pnl.py:60-83 | Reaching one more target never lowers the blend, with or without break-even. |
| LifecyclePnl.PnlMonotone | app/analytics/lifecycle_pnl.py:32-86 | Realized profit is non-decreasing in max_tp_hit. |
| LifecyclePnl.PnlBounded | app/analytics/lifecycle_pnl.py:32-86 | Profit lies between the full stop and the furthest target. |
| LifecyclePnl.EndedBucket | app/analytics/trade_outcome.py:160-170 | Every run ending in TP3 or SL is stored as a win if it reached a target and as a loss otherwise. |
| LifecyclePnl.PnlAgreesWithWinRate | app/analytics/lifecycle_pnl.py:1-18 | With break-even on, or everything booked at TP1, for every run ending in TP3 or SL: the stored WIN bucket means profit at least 0, LOSS means exactly the full stop and at most 0. |
| LifecyclePnl.AgreementIff | app/analytics/lifecycle_pnl.py:60-83 | Profit and win-rate agree on all ladders and finished runs, and on those of strictly ordered positive prices, if and only if the settings move the stop to break-even or close the whole position at TP1. |
| LifecyclePnl.WinsNeverLoseIff | app/analytics/lifecycle_pnl.py:60-83 | With TP1 at least k times as far as the stop, no run that reached a target books less than nothing before rounding if and only if break-even is on or TP1 books at least 1 / (1 + k). |
| LifecyclePnl.WithoutBreakEvenTheyDisagree | app/analytics/lifecycle_pnl.py:76-83 | With the default fractions and break-even off a TP1-then-stop win is booked at -0.8 (concrete ladder). |
| OrderFailures.DecisionIsCoherent | app/order_failures/policy.py:115-228 | Flags and state agree in every decision; retry is granted if and only if the count is below the class's budget. |
| OrderFailures.DelaysAre | app/order_failures/policy.py:110-228 | The seconds each granted retry waits, class by class and count by count. |
| OrderFailures.DueTimes | app/order_failures/service.py:28-105 | A due time is set exactly when a retry is granted at the row's count and lies that retry's delay ahead. |
| OrderFailures.OrderFailure.constructor | app/order_failures/service.py:28-77 | A recorded failure starts at count 0 in the state and due time its first decision gives. |
| OrderFailures.OrderFailure.NoteRetry | app/order_failures/service.py:80-105 | A closed row is left alone; otherwise count, state and due time follow the fresh decision, which is returned. |
| OrderFailures.OrderFailure.MarkResolved | app/order_failures/service.py:108-115 | The row becomes RESOLVED with nothing due, and nothing else changes. |
| OrderFailures.RunsStayConsistent | app/order_failures/service.py:28-115 | Over any run the row's state is the policy's verdict on its count or RESOLVED, and a retry is due exactly when that verdict grants one. |
| OrderFailures.GrantsWithinBudget | app/order_failures/policy.py:110-228 | Grants and total delay never exceed the class's budget and reach it exactly after four recounts. |
| OrderFailures.RetriesWithinBudget | app/order_failures/service.py:28-115 | Over any run at most 5, 1 or 0 retries are scheduled, for at most 31, 155, 30 or recommended + 8 seconds by class. |
| OrderFailures.BudgetIsReached | app/order_failures/service.py:80-105 | The bounds are attained: four recounts schedule the whole budget. |
| OrderFailures.ClosedStaysClosed | app/order_failures/service.py:84-87 | Recounting never leaves RESOLVED or FAILED and schedules nothing; RESOLVED is final under every operation. |
| OrderFailures.UnknownWaitsForOperator | app/order_failures/policy.py:145-171 | UNKNOWN and REDUCE_ONLY_REJECTED rows never become due and stay NEEDS_RECONCILE until resolved. |
| OrderFailures.BreakersCompared | app/order_failures/service.py:118-148 | The stored breaker counts the pure one's failures plus those stamped in the future, so it never trips later, and the two agree for every threshold if and only if there are none. |
| Accounting.Ledger.RecordTradeAccounting | app/accounting/service.py:32-153 | One recorded trade appends its row and events and rolls its day, changing nothing else. |
| Accounting.ClosingItemised | app/accounting/service.py:54-87 | Every figure of a trade row from the closing's arguments: costs as given or estimated, net, return on margin and quality, with their rounding. |
| Accounting.PostAddsEvents | app/accounting/service.py:98-134 | One closing adds its commission event, its slippage and funding events unless zero, each marked as estimated where not given. |
| Accounting.DaySummarises | app/accounting/service.py:168-179 | A daily row's amounts are the column sums of that account and day in the trade table, its wins and losses the numbers of rows with net at least zero and below. |
| Accounting.Ledger.Roll | app/accounting/service.py:156-179 | Select-or-insert and field increments equal the specified update of one daily row. |
| Accounting.RollAgrees | app/accounting/service.py:156-179 | The incremental daily table stays: one row per user, mode and day that traded, each equal to the recomputation from the trade table. |
| Accounting.OtherAccountsUntouched | app/accounting/models.py:4-6 | Any number of trades of other users or the other mode leaves an account's daily rows exactly as they were, none added or lost. |
| Accounting.BreakdownWithin | app/accounting/pnl.py:70-92 | Net differs from gross minus costs by at most five rounding half-units. |
| Accounting.CostsAreCosts | app/accounting/pnl.py:70-92 | Costs are non-negative and the fee total is their sum within four half-units. |
| Accounting.PostKeepsFees | app/accounting/service.py:99-128 | Commission and slippage events keep summing to the trade table's costs, per account, exactly. |
| Accounting.PostKeepsFunding | app/accounting/service.py:129-134 | An account's raw funding events stay within half a unit per trade of its own of its booked funding. |
| Accounting.BooksAlwaysBalance | app/accounting/service.py:32-179 | After any sequence of trades the trade table lists the closings itemised, every daily row summarises it, all of the above hold at once, and net is within 2.5e-8 per trade. |
| Accounting.DailyOrderIrrelevant | app/accounting/service.py:156-179 | Trade tables with the same rows in any order give the same daily figures. |
| DailyRace.DailyCountIsExactIff | app/accounting/service.py:156-179 | Under every interleaving of reads and commits the daily count equals the committed trades if and only if no commit overwrites one it has not seen. |
| DailyRace.AnUpdateCanBeLost | app/accounting/service.py:156-179 | Two closings that read before either writes: three trades, a daily count of two. |
| AutoEngine.AutoPosition.OnSignalEvent | app/auto_engine/engine.py:262-284 | Only an open row is managed, and its new state is the specified one. |
| AutoEngine.AutoPosition.ManagePosition | app/auto_engine/engine.py:287-351 | The in-place updates of stop, protection, status and log equal the specified transition. |
| AutoEngine.EventMeans | app/auto_engine/engine.py:287-351 | One event whole: when break-even fires and when trailing, the stop each leaves, the price TP3 and a stop close at, and what is logged. |
| AutoEngine.TrailingStopBehind | app/auto_engine/risk.py:120-125 | The trailing candidate lies behind its reference by exactly the configured percentage. |
| AutoEngine.TrailStaysBehindTarget | app/auto_engine/engine.py:308-327 | Trailing never carries a stop past the target it trails. |
| AutoEngine.StopNeverWidens | app/auto_engine/engine.py:287-351 | From any point of a run to any later one the stop moves only in the trade's favour, with settings changing at will. |
| AutoEngine.FirstStopNeverWidens | app/auto_engine/engine.py:308-327 | On a position stored without a stop, the stop moves only in the trade's favour from the moment one is set. |
| AutoEngine.BreakEvenProtects | app/auto_engine/engine.py:287-351 | A position, stored with or without a stop, closes at most once, and once break-even has fired a stop-loss close is at the entry or better. |
| AutoEngine.NeverWidensIff | app/auto_engine/engine.py:293-297 | A stop that is set never moves against a fresh position under any events and settings if and only if its first stop, if it has one, is on the losing side of the entry. |

## Left out

- Floating point and Decimal's 28-digit context: numbers are exact reals; only the roundings the code asks for are modelled. Decimal's `InvalidOperation` fallbacks are therefore not reachable here.
- `build_snapshot` and `build_levels` are parameters of the replay (any deterministic functions); the feature and level code is not part of this model.
- NoLookAhead.EntriesIgnoreTheFuture: close times are taken not to decrease on each timeframe, which `np.searchsorted` needs for a meaningful answer.
- The pipeline's texts, risk level, fake-breakout probability, rejection details, and the legacy `aggregate`.
- Metrics.ComputeMetrics: omits the figures that are plain quotients or lists: win rate, averages, Sharpe, profit factor, reward-risk buckets, the 121-point and 200-trade display caps.
- The server behind the download, its failures, retries and pauses; it is assumed to answer with the first `limit` candles opening in the window.
- KlinesRange.FetchRange: completeness assumes candles that do not overlap.
- Supertrend.Run: ATR and the basic bands are inputs, and closes are numbers (no NaN); the other indicators are library expressions.
- The scores, bias and assembly of the liquidity map.
- SignalAdmission.AdmissionIsSafe: INSERT, UPDATE and the guard query are atomic steps that commit or roll back whole, as the session wrapper makes them; paper open, auto open and broadcast are recorded as attempted once (their own failures are swallowed by the code).
- SignalAdmission.GuardSufficesWhenSerial: says when the guard alone is enough on a given run, assuming symbols are not empty and no update brings a closed signal back to life, since the guard checks neither; over all runs UniqueIffIndexed is the exact line.
- SignalAdmission.SomebodyWins: closing updates and database errors are excluded, because either can make a refusal outlive its cause.
- TradeOutcome.RecordExitEvent: event and status strings are taken after upper-casing and JSON after parsing; `max_tp_hit` is an integer or absent; the explicit timestamp arguments of the classifier are left out because no modelled caller passes them.
- Tracker.TrackedTraced: one signal and fixed settings; the entry-fill note is a field of its own instead of a diagnostics key, and fetching prices and fanning out to listeners are not modelled.
- Backfill: the method label, counters and printed summary.
- OrderFailures: `classify_error`'s text matching (the class is an input), the fallback for a class name the policy does not know, idempotency keys and the duplicate query.
- Accounting.BooksAlwaysBalance: trades are recorded one after another; what concurrent closings of one day do to its count is DailyRace. Signal-level net percentages, holding time and the read APIs are left out, and the day is that of the given closing time.
- DailyRace.DailyCountIsExactIff: only the count is modelled; sums of amounts can be restored by coincidence.
- AutoEngine: choosing users and opening positions, leverage scaling and the risk checks (decisions read off one branch); a closed position is recorded with its mark, the paper account's balance is not modelled; a missing account leaves a position unmanaged.
- AutoEngine.StopNeverWidens: prices are positive and the trailing distance is not negative; for positions without a stop it is also below 100 percent. The settings schema admits at most 50.
- Telegram, dashboard, authentication, exchange adapters, logging, clocks and sleeps.
