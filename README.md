# A verified model of the trading core

This project is a Dafny model of the trading site's core logic, with proofs about it.

**Trading simulation, TypeScript side:**
- the backtest engine, which replays one-minute candles through the XAUUSD pullback strategy, keeps at most one open trade, books closed trades into capital and records an equity curve;
- the metrics it reduces a run to;
- the strategy's entry rules and its stop-loss, take-profit and trailing-stop formulas.

**Trading simulation, Python side:**
- the hybrid breakout strategy, with its risk gate, progressive lot sizing, trailing stop, exit order and statistics;
- the multi-symbol backtester that drives it;
- the technical indicators;
- the forex news calendar.

**Site pieces:**
- the candles API route, which paginates klines over three exchange endpoints with retries;
- the video-link parser behind the embedded players;
- the two one-off migrations (blog posts and leaderboard traders);
- the economic-calendar endpoint;
- the cached blog and leaderboard API routes;
- the navigation bar's active-link test;
- the call-to-action routing of the education pages.

**How it is modelled.** Most source files map to one Dafny module each, with two exceptions:
- `engine.ts` is split into `BacktestEngine` (the run) and `BacktestResults` (the metrics of a run);
- `hybrid_optimized_strategy.py` is split into `Hybrid` (the strategy class and its positions), `HybridRisk` (the risk gate and the progressive lot sizing) and `HybridStatistics` (the statistics).

Three modules hold shared helpers: `Common`, `TradingTypes`, and `RouteTypes` (the rows, database answers and replies of the two cached routes).
- Code that changes state in place is modelled as classes. These are the engine, the hybrid strategy and its positions, the backtester, the news calendar and the two route caches. Their methods carry `modifies` clauses and loop invariants, and are proved against specification functions.
- Pure code is modelled as functions and lemmas.
- Prices and money are exact reals.
- A JavaScript division by zero is an explicit infinite or NaN case.

The proofs also pin down behaviour that the code has but that its authors probably did not intend:
- **Python backtester:** it checks `max_positions` once before its entry loop, so one bar can open more positions than the limit (`Backtester.MaxPositionsCanBeExceeded`).
- **Hybrid risk gate:** it returns early while trading is disabled, so its re-enable branch is unreachable. Once refused, it refuses forever (`HybridRisk.DisabledIsAbsorbing`, `HybridRisk.OnceRefusedAlwaysRefused`).
- **Candles pagination:**
  - A page that comes back empty leaves the cursor where it was, so the loop never ends (`CandlesRoute.EmptyPagesNeverEnd`, `CandlesRoute.EmptyAnswersNeverEnd`).
  - A short page is requested again and appended again until the 20000-candle cap (`CandlesRoute.ShortPagesRepeat`, `CandlesRoute.ShortAnswersRepeat`).
- **Navigation bar:** its prefix test ignores segment boundaries, so `/education-x` lights up the `/education` link (`Navbar.PrefixMatchIgnoresSegments`).
- **Leaderboard cache:** traders cached at time zero are never served, because a zero timestamp is falsy (`TopTradersRoute.HitWindow`).

One more behaviour is worth knowing, although it is harmless. A Bilibili player URL produced by the video parser does not parse back as Bilibili. It comes back as a generic embed of itself, so the URL is kept but the platform is lost (`VideoEmbedParser.VideoLinkIsStable`, `VideoEmbedParser.PlayerUrlIsGeneric`).

## Model

| member | source | states |
|---|---|---|
| Common.NumberOr | src/lib/trading/strategies/xauusd-strategy.ts:415-464 | `x || default` on a number: a set, nonzero value is kept; a missing or zero one falls back |
| Common.JsDiv | src/lib/trading/strategies/xauusd-strategy.ts:472 | a JavaScript division is a finite number iff the divisor is nonzero, and then it is the quotient |
| XauusdStrategy.CalculateIndicators | src/lib/trading/strategies/xauusd-strategy.ts:67-74 | fewer than 35 candles give no indicators; from 35 on, the indicators of the window |
| XauusdStrategy.CheckLongEntry | src/lib/trading/strategies/xauusd-strategy.ts:160-216 | a long entry fires exactly when the SuperTrend is up, the price is at most 0.995 of the Bollinger midline, MACD is above its signal, CCI is above -100, the candle is bullish and the aggressiveness filter on CCI passes; the reason is `Entered` exactly when it fires |
| XauusdStrategy.CheckShortEntry | src/lib/trading/strategies/xauusd-strategy.ts:233-289 | the mirror image: down trend, price at least 1.005 of the midline, MACD below signal, CCI below 100, bearish candle, aggressiveness filter |
| XauusdStrategy.LongShortExclusive | src/lib/trading/strategies/xauusd-strategy.ts:173-175 | the long and short rules never fire on the same indicators, since they need opposite trends |
| XauusdStrategy.GenerateSignal | src/lib/trading/strategies/xauusd-strategy.ts:304-402 | an empty window gives no signal at the clock time with price 0; otherwise price and time are the last candle's; a window too short for indicators gives no signal; long exactly when the long rule fires, short exactly when the long rule does not and the short rule does; a signal carries the indicators |
| XauusdStrategy.CalculateStopLoss | src/lib/trading/strategies/xauusd-strategy.ts:409-425 | the stop lies `atr * multiple` from the entry (multiple defaulting to 2.0), below a long and above a short when that distance is not negative |
| XauusdStrategy.CalculateTakeProfitLevels | src/lib/trading/strategies/xauusd-strategy.ts:431-445 | one target per configured R-multiple (3R, 6R, 9R when none are configured), each that many risk distances beyond the entry in the trade's direction |
| XauusdStrategy.TakeProfitPlacement | src/lib/trading/strategies/xauusd-strategy.ts:436-444 | each target is `risk * abs(r)` away from the entry, and on the winning side of it for a positive R-multiple and a nonzero risk |
| XauusdStrategy.FirstTargetDistance | src/lib/trading/strategies/xauusd-strategy.ts:409-445 | with the stop from `calculateStopLoss`, the first target is the first R-multiple of `atr * multiple` beyond the entry |
| XauusdStrategy.TrailLong | src/lib/trading/strategies/xauusd-strategy.ts:466-484 | the long trailing step: active exactly when profit over risk reaches the activation (a zero risk dividing to infinity); the high-water mark never falls and is the old one or the price; an active stop is the larger of entry + 1R and high - ATR distance |
| XauusdStrategy.TrailShort | src/lib/trading/strategies/xauusd-strategy.ts:485-504 | the short trailing step, mirrored around the low-water mark |
| XauusdStrategy.CalculateTrailingStop | src/lib/trading/strategies/xauusd-strategy.ts:452-505 | the side picks the long or short step, with risk = abs(entry - initial stop) and the activation and distance defaulting to 1.5 and 1.0 |
| BacktestEngine.FilterByDate | src/lib/trading/backtest/engine.ts:70-74 | the kept candles are exactly those whose close time lies in `[startDate, endDate]`, none added |
| BacktestEngine.ContractSize | src/lib/trading/backtest/engine.ts:344 | 100 exactly for a symbol containing "XAU", 1 otherwise |
| BacktestEngine.CalculatePnL | src/lib/trading/backtest/engine.ts:333-349 | 0 when the exit price or the size is missing or zero; otherwise the magnitude is price move times size times contract size, and for a positive size the P&L is positive exactly when the price moved the trade's way |
| BacktestEngine.PnLMirror | src/lib/trading/backtest/engine.ts:336-339 | a long and a short over the same prices make exactly opposite P&L |
| BacktestEngine.CheckExit | src/lib/trading/backtest/engine.ts:285-328 | the exit reasons in priority order: stop-loss, trailing stop, take-profit, opposite signal; each reason fires exactly when the earlier ones do not and its own condition holds, at the stop, trailing stop, target or close price; no exit gives price 0 |
| BacktestEngine.OpenTrade | src/lib/trading/backtest/engine.ts:247-280 | no trade exactly when the signal has no indicators; otherwise an open trade at the candle's close and time, long exactly for a long signal, with the computed stop as both current and initial stop, the first target (absent when there is none) and the entry price as the running extreme of its side |
| BacktestEngine.ApplyTrailing | src/lib/trading/backtest/engine.ts:167-179 | only the trailing stop and the running extremes change; the extremes are taken over; a trailing stop is adopted only when active, and an existing one never loosens (never falls for a long, never rises for a short); the stop becomes exactly the new one when that is active and tighter (or there was none), and stays the old one otherwise |
| BacktestEngine.CloseTrade | src/lib/trading/backtest/engine.ts:128-136 | the closed trade has the exit time, price and reason, status closed, its P&L from `calculatePnL` and the P&L as a percentage of the capital; nothing else changes |
| BacktestEngine.Engine.constructor | src/lib/trading/backtest/engine.ts:26-56 | the engine starts at the initial capital with no trades or equity points, and the risk manager runs under a 90% daily loss and a 50% drawdown |
| BacktestEngine.Engine.BookClosed | src/lib/trading/backtest/engine.ts:138-150 | a closed trade adds its P&L to the capital, is appended to the trades, and the risk manager is told of it and of the new capital as a possible peak |
| BacktestEngine.Engine.ProcessOpenTrades | src/lib/trading/backtest/engine.ts:122-182 | the trades booked and the trades left are exactly those of `ProcessSpec` on the open trades at the capital before the loop: the booked ones are appended to the closed trades, and the ones left are all still open |
| BacktestEngine.Engine.Step | src/lib/trading/backtest/engine.ts:98-207 | the closed trades, the open trades and the equity curve after one candle are exactly `StepSpec` of those before it; at most one trade stays open |
| BacktestEngine.Engine.RunCandles | src/lib/trading/backtest/engine.ts:94-207 | the closed trades, open trades and equity curve after the loop are exactly `RunSpec` from the warm-up index on an empty run; after the warm-up of 100 candles there is one equity point per remaining candle, carrying that candle's close time, and at most one trade is open |
| BacktestEngine.ProcessSpec | src/lib/trading/backtest/engine.ts:122-182 | the inner loop as a function, from the last trade to the first: every open trade is either booked or left, so the two counts add up to the open trades |
| BacktestEngine.ProcessRest | src/lib/trading/backtest/engine.ts:152-181 | the trades left after the inner loop are exactly the trades that do not exit, in their original order, each with its trailing step applied |
| BacktestEngine.ProcessBooked | src/lib/trading/backtest/engine.ts:126-151 | the trades booked are exactly the exiting trades, closed from the last to the first, each at the capital plus the P&L booked before it |
| BacktestEngine.CloseLastFirstKeeps | src/lib/trading/backtest/engine.ts:126-151 | a property that every close of an exiting trade has holds for every booked trade, paired with the trade it closed |
| BacktestEngine.ProcessExits | src/lib/trading/backtest/engine.ts:124-151 | one booked trade per exiting trade, in reverse order, each closed at the candle's time with the exit price and reason of `checkExit` and its P&L from `calculatePnL` |
| BacktestEngine.ProcessPartition | src/lib/trading/backtest/engine.ts:122-182 | the trades left are the non-exiting trades trailed, and the booked ones are the exiting trades closed as `checkExit` says |
| BacktestEngine.RestStaysOpen | src/lib/trading/backtest/engine.ts:152-181 | when every trade entering the loop is open, every trade left by it is still open |
| BacktestEngine.Trailed | src/lib/trading/backtest/engine.ts:153-180 | the trailing step changes only the trailing stop and the running extremes; without indicators it changes nothing; an existing stop never loosens |
| BacktestEngine.Entry | src/lib/trading/backtest/engine.ts:184-195 | a new trade exactly when trading is allowed, no trade is left open and the signal is long or short; then it is the trade `openTrade` builds, and never more than one |
| BacktestEngine.StepSpec | src/lib/trading/backtest/engine.ts:98-207 | one candle as a function: closed trades only grow, one equity point is appended with the candle's close time and the capital before its exits, the earlier points are kept, and at most one trade stays open |
| BacktestEngine.StepAgrees | src/lib/trading/backtest/engine.ts:108-195 | the equity point, the risk gate, the inner loop and the entry, taken in that order, give exactly `StepSpec` |
| BacktestEngine.RunSpec | src/lib/trading/backtest/engine.ts:98-207 | the candle loop as a function: closed trades only grow, one equity point per remaining candle, at most one trade open |
| BacktestEngine.RunSpecStep | src/lib/trading/backtest/engine.ts:98 | the loop from candle i is one step at i followed by the loop from i + 1 |
| BacktestEngine.StepStamps | src/lib/trading/backtest/engine.ts:108-112 | a step keeps the earlier equity points and stamps the new one with its candle's close time |
| BacktestEngine.MidwayStep | src/lib/trading/backtest/engine.ts:122-182 | one more trade visited keeps the inner loop's invariant: booked so far plus what the rest of the pass books is the whole pass |
| BacktestEngine.MidwayVisit | src/lib/trading/backtest/engine.ts:122-182 | a visit that books an exiting trade or trails a staying one moves the inner loop's invariant one position down |
| BacktestEngine.Engine.VisitTrade | src/lib/trading/backtest/engine.ts:123-181 | an exiting trade is closed at the current capital, booked and removed from its position; a staying trade is replaced in place by its trailed form; the equity curve is untouched |
| BacktestEngine.Engine.ScanDrawdown | src/lib/trading/backtest/engine.ts:371-386 | the drawdown loop computes exactly `Scan` of the initial capital and the equity curve, so `ScanPeak` and `MaxDrawdownIsMaximum` hold of its answer |
| BacktestEngine.Engine.CloseRemaining | src/lib/trading/backtest/engine.ts:209-220 | the trades appended are exactly `CloseOut` of the open trades from the capital before the close-out, in order, and the capital grows by their P&L; each is exited at the last candle's close and time with reason signal; the risk manager and the equity curve are not touched |
| BacktestEngine.CloseInOrderMeaning | src/lib/trading/backtest/engine.ts:211-219 | closing a list in order: the k-th closed trade is the k-th trade closed at the starting capital plus the P&L of the trades closed before it |
| BacktestEngine.CloseOutMeaning | src/lib/trading/backtest/engine.ts:209-220 | each trade of the close-out is `CloseTrade` of its open trade at the last candle's close and time, reason signal, with its percentage taken on the capital plus the P&L closed before it |
| BacktestEngine.CloseOutExits | src/lib/trading/backtest/engine.ts:212-216 | every closed-out trade is closed, has a P&L, and exits at the last candle's close and time with reason signal |
| BacktestEngine.Engine.Simulate | src/lib/trading/backtest/engine.ts:93-220 | the candle loop and the close-out together: the risk manager's trades and the equity curve are those of `RunSpec` over the window, and the trades are `RunTrades`, the trades `RunSpec` books followed by `CloseOut` of the trades it leaves open, from the capital after the booked ones; at most one trade is closed outside the loop, at the last candle |
| BacktestEngine.Engine.Reset | src/lib/trading/backtest/engine.ts:63-67 | the start of every run: initial capital, no trades, no equity points, a risk manager reset to the initial capital |
| BacktestEngine.Engine.RunBacktest | src/lib/trading/backtest/engine.ts:62-242 | no candle in the window gives the "no candles" outcome with the state reset; otherwise the results of the run, with the risk manager's trades and the curve those of `RunSpec` over the filtered candles, the trades `RunTrades` and the capital the initial capital plus their P&L; one equity point per candle after the warm-up, and at most one trade closed outside the loop, at the last candle |
| BacktestEngine.Engine.RunWindow | src/lib/trading/backtest/engine.ts:93-241 | a run over a non-empty window ends in the metrics of its trades, capital and equity curve; the risk manager's trades and the curve are those of `RunSpec`, the trades are `RunTrades` and the capital is the initial capital plus their P&L |
| BacktestEngine.Engine.CalculateResults | src/lib/trading/backtest/engine.ts:354-431 | the loop's maximum drawdown agrees with the drawdown scan `Scan`, so the result equals `Results` of the trades, capital and curve |
| BacktestEngine.TotalPnlIsBookedPnl | src/lib/trading/backtest/engine.ts:355-368 | the reported total P&L equals the winners' sum plus the losers' sum, and the end capital minus the start capital |
| BacktestEngine.ResultsCapital | src/lib/trading/backtest/engine.ts:368-426 | the total P&L is the capital gained, and the start and end capital are reported as they are |
| BacktestResults.SumPnlAppend | src/lib/trading/backtest/engine.ts:358 | summing the P&L of one more trade adds that trade's P&L (`pnl || 0`) |
| BacktestResults.Partition | src/lib/trading/backtest/engine.ts:355-356 | each trade is winning, losing or flat; the winner filter keeps exactly the trades with positive P&L and the loser filter exactly those with negative P&L |
| BacktestResults.WinsSumPositive | src/lib/trading/backtest/engine.ts:358 | gross profit is never negative, and positive once there is a winner |
| BacktestResults.LossesSumNegative | src/lib/trading/backtest/engine.ts:359-361 | the summed losses are never positive, and negative once there is a loser |
| BacktestResults.SumSplitsIntoWinsAndLosses | src/lib/trading/backtest/engine.ts:355-361 | the total P&L is gross profit plus gross loss: break-even trades add nothing |
| BacktestResults.WinRate | src/lib/trading/backtest/engine.ts:363-364 | between 0 and 100; 0 exactly without winners, 100 exactly when every trade wins |
| BacktestResults.ProfitFactor | src/lib/trading/backtest/engine.ts:366 | never negative infinity or NaN; infinity exactly with winners and no losers; 0 with neither; with losers, the non-negative quotient of gross profit by the absolute gross loss |
| BacktestResults.Quotient | src/lib/trading/backtest/engine.ts:366-407 | the quotient of a non-negative number by a positive one, non-negative |
| BacktestResults.MaxPnl | src/lib/trading/backtest/engine.ts:399-400 | the largest P&L of the list: no trade exceeds it and some trade has it |
| BacktestResults.MinPnl | src/lib/trading/backtest/engine.ts:401-402 | the smallest P&L of the list: no trade is below it and some trade has it |
| BacktestResults.ScanPeak | src/lib/trading/backtest/engine.ts:372-379 | the running peak is the largest of the initial capital and every equity seen |
| BacktestResults.MaxDrawdownIsMaximum | src/lib/trading/backtest/engine.ts:371-386 | the reported maximum drawdown is not negative, is at least the drawdown below the running peak at every point, and is attained at some point unless it is 0 |
| BacktestResults.NoDrawdownWhenNeverBelowStart | src/lib/trading/backtest/engine.ts:371-386 | an equity curve that never falls and never goes below the start has a zero maximum drawdown and peaks at its last point |
| BacktestResults.TradesPerDay | src/lib/trading/backtest/engine.ts:405-407 | 0 for an empty or inverted window; otherwise the trade count divided by the window's length in days |
| BacktestResults.AverageSigns | src/lib/trading/backtest/engine.ts:389-396 | the average win is never negative and the average loss never positive |
| BacktestResults.ExtremeSigns | src/lib/trading/backtest/engine.ts:399-402 | the largest win is positive and the largest loss negative whenever they exist |
| BacktestResults.CountBound | src/lib/trading/backtest/engine.ts:411-413 | the winning and losing counts together never exceed the total count |
| BacktestResults.Results | src/lib/trading/backtest/engine.ts:354-431 | the result carries the trades and their count, winning plus losing never exceeds the count, the win rate lies in [0, 100], the total P&L is the end capital minus the start capital, the maximum drawdown is not negative, the average and largest win are not negative and the average and largest loss not positive |
| Hybrid.CciThreshold | fastq-main/src/strategy/hybrid_optimized_strategy.py:135-142 | the CCI threshold is 50 at level 1, 20 at level 2 and 0 at any other level |
| Hybrid.EntrySide | fastq-main/src/strategy/hybrid_optimized_strategy.py:211-256 | a long entry exactly when the close breaks above both upper bands on an upward MACD crossover and the level's filter passes; a short entry exactly under the mirror conditions |
| Hybrid.ConservativeEntriesAreModerate | fastq-main/src/strategy/hybrid_optimized_strategy.py:211-256 | every entry the conservative level takes, the moderate level takes on the same bars, on the same side |
| Hybrid.Confidence | fastq-main/src/strategy/hybrid_optimized_strategy.py:310-328 | the confidence lies in [0.5, 0.8]; it exceeds 0.5 exactly when both CCIs lie on the side's side of zero, and reaches 0.8 exactly when both lie beyond 100 in that direction |
| Hybrid.ConfidenceBonus | fastq-main/src/strategy/hybrid_optimized_strategy.py:317-326 | the bonus is 0, 0.2 or 0.3, with 0.3 exactly for both CCIs beyond ±100 and a positive bonus exactly for both CCIs on the side's side of zero |
| Hybrid.SignalStop | fastq-main/src/strategy/hybrid_optimized_strategy.py:258-286 | a long's stop is the lower of the two lower bands, a short's the higher of the two upper bands |
| Hybrid.BuildSignal | fastq-main/src/strategy/hybrid_optimized_strategy.py:258-308 | a signal exactly when an entry side exists; it enters at the close with the band stop, the confidence, and three targets at 1.5, 2.5 and 4 risks |
| Hybrid.SignalGeometry | fastq-main/src/strategy/hybrid_optimized_strategy.py:258-292 | with ordered Keltner bands, a long's stop lies below the entry and its targets lie above it in increasing order; a short is the mirror image |
| Hybrid.ProfitR | fastq-main/src/strategy/hybrid_optimized_strategy.py:479-502 | the open profit in multiples of the initial risk, and 0 when the risk is 0 |
| Hybrid.TrailUpdate | fastq-main/src/strategy/hybrid_optimized_strategy.py:477-511 | the stop never loosens; the trail is on exactly when it already was or the profit reached the activation; below the activation the stop is kept; the side's extreme is tracked; once activated the stop is at least as tight as the extreme less `distance` ATRs, and the new stop is either the old one or exactly the new extreme less (for a short, plus) `distance` ATRs |
| Hybrid.FirstTarget | fastq-main/src/strategy/hybrid_optimized_strategy.py:465-473 | the first target in list order that the price has reached, and none exactly when no target is reached |
| Hybrid.ExitRule | fastq-main/src/strategy/hybrid_optimized_strategy.py:448-475 | the exits in priority order: the active trailing stop at the stop price, then the initial stop at its price, then the first reached target at that target's price; otherwise no exit |
| Hybrid.ContractMultiplier | fastq-main/src/strategy/hybrid_optimized_strategy.py:554-558 | 100 exactly for a symbol containing "XAU", 100000 otherwise |
| Hybrid.PositionPnlMeaning | fastq-main/src/strategy/hybrid_optimized_strategy.py:549-558 | the P&L's magnitude is price move times lots times contract size; for a positive size it is a gain exactly when the price moved the position's way |
| Hybrid.PnlsOf | fastq-main/src/strategy/hybrid_optimized_strategy.py:588 | the P&L values of the closed positions, one per position, in closing order |
| Hybrid.Position.constructor | fastq-main/src/strategy/hybrid_optimized_strategy.py:525-536 | a new position copies the signal, starts with its stop as both current and initial stop, has no exit, and tracks the entry as the extreme of its own side only |
| Hybrid.Position.RecordExit | fastq-main/src/strategy/hybrid_optimized_strategy.py:560-562 | the exit price, time and P&L are set and the trailing state is left alone |
| Hybrid.HybridOptimizedStrategy.constructor | fastq-main/src/strategy/hybrid_optimized_strategy.py:80-150 | every parameter takes its configured value or its default (level 2, 0.8 R activation, 1 ATR distance, 10000 capital, 500 daily loss, 20% drawdown, lots off, 20% threshold, 0.05 lots, 7 days); no positions; trading enabled; the news calendar in backtest mode |
| Hybrid.HybridOptimizedStrategy.CheckRiskLimits | fastq-main/src/strategy/hybrid_optimized_strategy.py:330-381 | the answer and the new risk state are those of `HybridRisk.CheckRiskLimits` on the old state and the closed-trade capital; positions and lot sizing are untouched |
| Hybrid.HybridOptimizedStrategy.UpdateDailyPnl | fastq-main/src/strategy/hybrid_optimized_strategy.py:383-390 | the daily P&L grows by the given amount and nothing else changes |
| Hybrid.HybridOptimizedStrategy.UpdateProgressiveLots | fastq-main/src/strategy/hybrid_optimized_strategy.py:392-427 | the lot sizes are raised by the increase, and the time and count of increases are updated, exactly when `LotDecisionAt` says so; a zero monthly start capital is reported as the division error; the risk state and the positions are untouched |
| Hybrid.HybridOptimizedStrategy.UpdateTrailingStop | fastq-main/src/strategy/hybrid_optimized_strategy.py:477-511 | the position's trailing state becomes `TrailUpdate` of the old one at the current price; its exit fields are untouched |
| Hybrid.HybridOptimizedStrategy.CheckExit | fastq-main/src/strategy/hybrid_optimized_strategy.py:429-475 | a news exit at the close exactly when the calendar is live and reports news for the symbol within a minute, with the trail untouched; otherwise the trail is updated and the decision is `ExitRule` on the updated position |
| Hybrid.HybridOptimizedStrategy.OpenPosition | fastq-main/src/strategy/hybrid_optimized_strategy.py:513-539 | after the lot update, a fresh position on the signal with the symbol's lot size (0.1 when it has none), filed under its symbol; none exactly when the lot update divides by zero; the lot sizes, the last increase time and the monthly increase count change exactly as the lot decision at the signal's time says |
| Hybrid.HybridOptimizedStrategy.ClosePosition | fastq-main/src/strategy/hybrid_optimized_strategy.py:541-581 | the P&L is `PositionPnl`; the position records its exit, is appended to the closed list and removed from the open map; the daily P&L grows by the P&L, and so does the capital when the position was not closed before |
| Hybrid.HybridOptimizedStrategy.CloseAddsToCapital | fastq-main/src/strategy/hybrid_optimized_strategy.py:562-566 | appending a newly closed position raises the closed-trade capital by exactly its P&L |
| Hybrid.HybridOptimizedStrategy.GetStatistics | fastq-main/src/strategy/hybrid_optimized_strategy.py:583-608 | no statistics before the first close; afterwards the trade count is the number of closed positions and the total P&L is the capital gained |
| Hybrid.HybridOptimizedStrategy.GenerateSignals | fastq-main/src/strategy/hybrid_optimized_strategy.py:159-308 | the risk state advances as `HybridRisk.CheckRiskLimits` says; no signal when the check refuses or there are fewer than 50 one-minute or 20 five-minute bars; otherwise `BuildSignal` on the latest bars |
| HybridRisk.CheckRiskLimits | fastq-main/src/strategy/hybrid_optimized_strategy.py:330-381 | a disabled strategy is refused and left as it is; otherwise the day is recorded with the daily P&L reset on a new day, the peak never falls, and trading is allowed exactly when the daily P&L is above the loss limit and the drawdown from the peak is below the limit, with the enabled flag set to that answer |
| HybridRisk.RunChecksAppend | fastq-main/src/strategy/hybrid_optimized_strategy.py:330-381 | running two series of checks one after the other is running their concatenation |
| HybridRisk.DisabledIsAbsorbing | fastq-main/src/strategy/hybrid_optimized_strategy.py:337-338 | a disabled strategy is left exactly as it is by any series of checks |
| HybridRisk.OnceRefusedAlwaysRefused | fastq-main/src/strategy/hybrid_optimized_strategy.py:337-359 | once a check refuses, every later check in the series refuses, whatever the days: the new-day re-enable is unreachable |
| HybridRisk.DailyLossRefuses | fastq-main/src/strategy/hybrid_optimized_strategy.py:352-359 | a daily loss at or beyond the limit on the current day refuses trading |
| HybridRisk.LotDecisionAt | fastq-main/src/strategy/hybrid_optimized_strategy.py:399-414 | a division error exactly when lots are enabled and the monthly start capital is 0; an increase exactly when enabled, the monthly return reaches the threshold, and there was no earlier increase or it is at least `frequency_days` whole days old |
| HybridRisk.IncreasesAreSpaced | fastq-main/src/strategy/hybrid_optimized_strategy.py:411-414 | an increase after an earlier one is at least `frequency_days` days after it |
| HybridRisk.RaisedSizes | fastq-main/src/strategy/hybrid_optimized_strategy.py:417-419 | the same symbols, each raised by the increase |
| HybridStatistics.Gains | fastq-main/src/strategy/hybrid_optimized_strategy.py:589 | the winning P&L values: all positive, none longer than the input, and present whenever the input has a positive value |
| HybridStatistics.Losses | fastq-main/src/strategy/hybrid_optimized_strategy.py:590 | the losing P&L values: all negative, none longer than the input, and present whenever the input has a negative value |
| HybridStatistics.GainsAndLossesDisjoint | fastq-main/src/strategy/hybrid_optimized_strategy.py:589-590 | winners and losers together are at most all trades, and all trades win exactly when every P&L is positive |
| HybridStatistics.SumOfPositives | fastq-main/src/strategy/hybrid_optimized_strategy.py:592 | a sum of positive values is never negative, and positive when not empty |
| HybridStatistics.SumOfNegatives | fastq-main/src/strategy/hybrid_optimized_strategy.py:593 | a sum of negative values is never positive, and negative when not empty |
| HybridStatistics.Fraction | fastq-main/src/strategy/hybrid_optimized_strategy.py:601 | the win rate lies in [0, 1], times the count gives the winners, and is 0 or 1 exactly for none or all |
| HybridStatistics.FractionFacts | fastq-main/src/strategy/hybrid_optimized_strategy.py:601 | the same facts for real numerator and denominator |
| HybridStatistics.ProfitFactor | fastq-main/src/strategy/hybrid_optimized_strategy.py:595 | 0 without losses; otherwise times the losses gives the wins, and positive when both are |
| HybridStatistics.Statistics | fastq-main/src/strategy/hybrid_optimized_strategy.py:583-608 | none exactly for no trades; the trade count and total P&L; winners plus losers at most the count; the win rate is 1 exactly when every trade won; the largest win and loss are the extreme P&L values and occur in the list |
| HybridStatistics.GainsAndLossesFilter | fastq-main/src/strategy/hybrid_optimized_strategy.py:589-590 | the winning values are exactly the positive P&L values and the losing values exactly the negative ones, each in order |
| HybridStatistics.StatisticsFigures | fastq-main/src/strategy/hybrid_optimized_strategy.py:596-604 | the winning and losing counts are the sizes of those two lists, and the average win and loss are their means, 0 for an empty list |
| HybridStatistics.StatisticsSigns | fastq-main/src/strategy/hybrid_optimized_strategy.py:592-607 | the average win is positive when there are winners and 0 otherwise; the average loss is negative when there are losers and 0 otherwise; the profit factor is never negative, 0 without losers, and positive with both |
| HybridStatistics.MeanSign | fastq-main/src/strategy/hybrid_optimized_strategy.py:603-604 | a mean has the sign of its sum |
| Backtester.SeriesOf | fastq-main/src/backtesting/backtester.py:81-84 | a symbol's bars exactly when some entry of the data carries that symbol, and then that entry's bars |
| Backtester.BarAt | fastq-main/src/backtesting/backtester.py:83-85 | a close exactly when the bars have a bar at that time, and then that bar's close |
| Backtester.Times | fastq-main/src/backtesting/backtester.py:58-60 | a time occurs exactly when some symbol has a bar at it |
| Backtester.BarTimes | fastq-main/src/backtesting/backtester.py:60 | a time occurs exactly when the bars have a bar at it |
| Backtester.Earliest | fastq-main/src/backtesting/backtester.py:62 | the smallest of a nonempty list of times, and it occurs in the list |
| Backtester.Without | fastq-main/src/backtesting/backtester.py:62 | the list keeps exactly the times other than the removed one, and shrinks when that time occurs |
| Backtester.SortedTimestamps | fastq-main/src/backtesting/backtester.py:58-62 | the timestamps strictly increase and are exactly the times at which some symbol has a bar; they are `Timeline` of the data |
| Backtester.AscendingSorts | fastq-main/src/backtesting/backtester.py:58-62 | `Timeline`'s ordering lists every value once, in strictly increasing order |
| Backtester.IncreasingUnique | fastq-main/src/backtesting/backtester.py:62 | two strictly increasing lists of the same values are equal, so the sorted set of bar times is determined by the data |
| Backtester.TradeValue | fastq-main/src/backtesting/backtester.py:186-210 | the trade value uses 100 oz at 2000 for gold, so 200000 per lot, and 100000 units at 1.0 per lot otherwise |
| Backtester.Commission | fastq-main/src/backtesting/backtester.py:201-213 | the commission is the trade value times the commission rate |
| Backtester.MarginRule | fastq-main/src/backtesting/backtester.py:179-199 | with a positive leverage a position is allowed exactly when its trade value is at most half the capital times the leverage |
| Backtester.LotSize | fastq-main/src/backtesting/backtester.py:183 | the lot is one of the configured `position_sizes`, or 0.1 for a symbol without one |
| Backtester.WithinRiskLimits | fastq-main/src/backtesting/backtester.py:161-177 | the check passes exactly when the day's loss is at most `max_daily_loss` and the drawdown at most `max_drawdown`: both limits are inclusive, so a loss or drawdown exactly at the limit passes |
| Backtester.Slipped | fastq-main/src/backtesting/backtester.py:93-98 | slippage moves the exit price against the position by exactly the slippage |
| Backtester.Settle | fastq-main/src/backtesting/backtester.py:80-108 | settling never adds holdings |
| Backtester.Enter | fastq-main/src/backtesting/backtester.py:111-132 | entering only appends; it adds at most one holding per symbol of the data, each for a symbol not held before and with a bar at the time; distinct symbols stay distinct |
| Backtester.Trade | fastq-main/src/backtesting/backtester.py:80-132 | after one time step the holdings are the old count or fewer, or below `max_positions` plus the number of symbols |
| Backtester.SettleKeepsOpen | fastq-main/src/backtesting/backtester.py:80-108 | settling keeps, in their order, exactly the holdings that the rule does not close |
| Backtester.SettleAmount | fastq-main/src/backtesting/backtester.py:85-105 | the capital realised by settling is the sum, over the holdings, of what closing each one nets (P&L less commission), zero for those that stay open |
| Backtester.EnterAddsOpened | fastq-main/src/backtesting/backtester.py:111-132 | every holding entering adds comes from a symbol with a bar at the time, not held before, whose signal the strategy turned into that position at the symbol's lot size, and whose margin check passed |
| Backtester.EnterOpensAll | fastq-main/src/backtesting/backtester.py:111-132 | conversely, every symbol whose bar, signal and margin check pass at its turn, and that is not yet held, is held among the added holdings |
| Backtester.EnterCharges | fastq-main/src/backtesting/backtester.py:127-130 | entering lowers the capital by exactly the sum of the commissions of the positions it opened |
| Backtester.TradeComposes | fastq-main/src/backtesting/backtester.py:80-132 | one time step is the exit pass followed, when fewer than `max_positions` positions remain, by the entry pass on the capital the exits left; otherwise the exit pass alone; the holdings kept by the exits are kept |
| Backtester.OpenPnlOfUnpricedHoldings | fastq-main/src/backtesting/backtester.py:219-225 | holdings whose symbol has no bar at the time add nothing to the open P&L |
| Backtester.MaxPositionsCanBeExceeded | fastq-main/src/backtesting/backtester.py:111-132 | with a limit of one position, no open position and two symbols that signal at once, both positions are opened: the limit is checked only before the entry loop |
| Backtester.TradeKeepsFramesCovered | fastq-main/src/backtesting/backtester.py:80-132 | after a time step every held symbol with data still has bars, and the symbols held stay distinct |
| Backtester.SettleKeeps | fastq-main/src/backtesting/backtester.py:80-108 | the holdings that stay open are exactly the settled holdings for which settling one gives nothing |
| Backtester.SettleKeepsDistinct | fastq-main/src/backtesting/backtester.py:80-108 | settling keeps the held symbols distinct |
| Backtester.CloseAllLeavesUnpriced | fastq-main/src/backtesting/backtester.py:244-255 | after the closing pass only holdings whose symbol has no data remain |
| Backtester.DrawdownBounds | fastq-main/src/backtesting/backtester.py:147-149 | a drawdown from a positive peak the equity has not passed is at least 0, and at most 1 when the equity is not negative |
| Backtester.SettleOne | fastq-main/src/backtesting/backtester.py:84-105 | settling one position in the loop gives exactly what `SettleNet` says: skipped without a bar at the time, otherwise the strategy's exit with slippage, less the commission |
| Backtester.SettleTurn | fastq-main/src/backtesting/backtester.py:80-108 | one turn of the settling loop extends the settled prefix by one position |
| Backtester.SettlePass | fastq-main/src/backtesting/backtester.py:80-108 | the loop over the snapshot of open positions leaves exactly the holdings of `Settle` and adds its amount to the capital |
| Backtester.SettleNext | fastq-main/src/backtesting/backtester.py:80-108 | the settling loop's state after one more position: the position is removed when settled, kept otherwise |
| Backtester.RecordedTimes | fastq-main/src/backtesting/backtester.py:68-144 | the recorded equity points carry bar times of the data in strictly increasing order, before the next unprocessed time; after all times, every bar time is recorded |
| Backtester.Backtester.constructor | fastq-main/src/backtesting/backtester.py:23-45 | the backtester starts at the initial capital and peak, with no positions, no equity points and a zero drawdown |
| Backtester.Backtester.CheckExits | fastq-main/src/backtesting/backtester.py:80-108 | the positions and capital after the exit loop are those of `Settle` at the current time; the equity curve, peak and drawdown are untouched |
| Backtester.Backtester.CheckEntries | fastq-main/src/backtesting/backtester.py:111-132 | the positions and capital after the entry loop are those of `Enter`; the curve, peak and drawdown are untouched |
| Backtester.Backtester.TradeAt | fastq-main/src/backtesting/backtester.py:80-132 | the positions and capital after one time step are those of `Trade` |
| Backtester.Backtester.CalculateOpenPnl | fastq-main/src/backtesting/backtester.py:215-242 | the total is `OpenPnl` of the positions at that time |
| Backtester.Backtester.RecordEquity | fastq-main/src/backtesting/backtester.py:135-149 | exactly one equity point is appended, with the equity, cash, open P&L and position count; the peak is the larger of old peak and equity; the drawdown is from the peak, and a zero peak is the division error |
| Backtester.Backtester.Step | fastq-main/src/backtesting/backtester.py:68-149 | the day rollover resets the daily start capital; the step breaches exactly when `WithinRiskLimits` fails, and then nothing changes; otherwise the trades of the time and its equity point |
| Backtester.Backtester.TradeAndRecord | fastq-main/src/backtesting/backtester.py:80-149 | after a passed risk check, the trades of the time, then its equity point, peak and drawdown |
| Backtester.Backtester.CloseAllPositions | fastq-main/src/backtesting/backtester.py:244-255 | the positions and capital after the closing pass are those of `Settle` at the end of the data |
| Backtester.RunStep | fastq-main/src/backtesting/backtester.py:68-149 | one bar time: the day is that of the time; the step breaches exactly when the limits fail at the rolled-over daily start, and then the positions, capital, curve, peak and drawdown are unchanged; otherwise exactly one point of that time is appended, under a peak that never falls, and a zero peak is the division error |
| Backtester.StepperShape | fastq-main/src/backtesting/backtester.py:68-149 | every step of `RunStep` has the shape the loop lemmas assume |
| Backtester.StepIsRunStep | fastq-main/src/backtesting/backtester.py:68-149 | a state reached by the rollover, the risk check, `Trade` and the equity point of `Step` is the state `RunStep` gives |
| Backtester.RunFromRecords | fastq-main/src/backtesting/backtester.py:67-149 | the loop from any time keeps its curve and appends one point per time it got through, carrying those times in order, each at most the peak, which never falls; it completes only after every time; a risk stop is at the time right after the last recorded point, in a state where the limits fail, so every earlier time passed; a zero peak stops at the point just recorded |
| Backtester.TimelineRecords | fastq-main/src/backtesting/backtester.py:58-149 | over the sorted bar times: the points are bar times in increasing order under the peak; a completed loop records every bar time; a risk stop is at a bar time after every recorded point, where the limits fail; a zero peak ends at the last point |
| Backtester.LoopRecords | fastq-main/src/backtesting/backtester.py:58-149 | a loop over the sorted bar times that appended one point per time it got through, and stopped as `RunFromRecords` says, leaves the curve `RecordsRun` describes |
| Backtester.Backtester.Advance | fastq-main/src/backtesting/backtester.py:68-149 | the step is `RunStep` from the state before: it breaches exactly when `WithinRiskLimits` fails, otherwise the positions and capital are `Trade`'s and one point of that time is appended under a peak that never falls |
| Backtester.Backtester.RunLoop | fastq-main/src/backtesting/backtester.py:58-149 | the loop over the sorted bar times, from no current day, leaves exactly the outcome, positions, capital, curve, peak and drawdown of the fold `RunFrom` of `RunStep`, and the curve `RecordsRun` describes: points at bar times in increasing order under a peak that never falls, every bar time after a completed loop, a risk stop at a bar time after every point, a zero peak at the last point |
| Backtester.Backtester.Run | fastq-main/src/backtesting/backtester.py:47-159 | the outcome, positions, capital, equity curve, peak and drawdown are exactly `RunResult`: the fold of `RunStep` over the sorted bar times, then the closing pass unless a zero peak raised the division error; the appended points carry bar times in increasing order under the peak; a completed run records every bar time; a risk stop happens at a bar time after all recorded points; a zero peak ends the run at the point just recorded; otherwise only positions without data remain open |
| Indicators.MacdCrossover | fastq-main/src/indicators/indicators.py:186-202 | one flag per bar in {-1, 0, 1}: 1 exactly where the MACD line is above the signal line after being at or below it on the previous bar, -1 exactly for the mirror crossing; never at the first bar |
| Indicators.RsiCrossover | fastq-main/src/indicators/indicators.py:126-140 | one flag per bar: 1 exactly where the RSI rose from the previous bar, -1 exactly where it fell, 0 where it stayed, at the first bar, or where a value is missing |
| Indicators.TrueRange | fastq-main/src/indicators/indicators.py:151-155 | the true range is at least the bar's range and its distances from the previous close, and equals one of them |
| Indicators.TrueRanges | fastq-main/src/indicators/indicators.py:151-155 | one true range per bar |
| Indicators.Ranges | fastq-main/src/indicators/indicators.py:151 | one high-low range per bar |
| Indicators.RollingMean | fastq-main/src/indicators/indicators.py:156 | missing exactly until `period` values exist |
| Indicators.AtrBounds | fastq-main/src/indicators/indicators.py:143-158 | the ATR is at least the mean high-low range over its window, and never negative once the window starts after the first bar |
| Indicators.Atr | fastq-main/src/indicators/indicators.py:143-158 | missing exactly until `period` bars exist (the rolling mean of the true ranges); its bounds are `AtrBounds` |
| Indicators.Band | fastq-main/src/indicators/indicators.py:87-106 | the middle is kept; the bands exist exactly when the middle and the width do, lie `width * multiple` on either side, and enclose the middle for non-negative width and multiple |
| Indicators.KeltnerPrice | fastq-main/src/indicators/indicators.py:71-75 | for a consistent bar the chosen price lies within its range; an unknown `ma_price` uses the close |
| Indicators.KeltnerChannel | fastq-main/src/indicators/indicators.py:56-90 | one channel per bar: the given middle banded by the ATR times the multiple |
| Indicators.KeltnerContainsMiddle | fastq-main/src/indicators/indicators.py:84-88 | past the ATR warm-up, a non-negative multiple gives bands that enclose the middle line |
| Indicators.BollingerBands | fastq-main/src/indicators/indicators.py:92-108 | one channel per bar: the bands exist exactly when the middle and the deviation do, lie `std * deviation` on either side, and enclose the middle for non-negative values |
| Indicators.TypicalPrices | fastq-main/src/indicators/indicators.py:269 | one typical price (high + low + close) / 3 per bar |
| Indicators.Deviations | fastq-main/src/indicators/indicators.py:275 | each value's absolute distance from the mean |
| Indicators.MeanDeviation | fastq-main/src/indicators/indicators.py:275 | the mean absolute deviation is never negative, and zero exactly when every value equals the mean |
| Indicators.CciOf | fastq-main/src/indicators/indicators.py:278 | the CCI is never infinite; it is NaN (0/0) exactly when the window is flat; otherwise it is positive exactly when the last price is above the window mean, and negative exactly when below |
| Indicators.Cci | fastq-main/src/indicators/indicators.py:255-280 | missing exactly until `period` bars exist; afterwards the CCI of the window of the last `period` typical prices, ending at the bar's own |
| Indicators.PyMin | fastq-main/src/indicators/indicators.py:234 | Python's `min` on possibly-NaN values: the minimum of two numbers, and the first argument when either is NaN |
| Indicators.PyMax | fastq-main/src/indicators/indicators.py:237 | Python's `max` on possibly-NaN values: the maximum of two numbers, and the first argument when either is NaN |
| Indicators.BasicBands | fastq-main/src/indicators/indicators.py:222-225 | one band per bar around the high-low average, at the multiplier times the ATR |
| Indicators.UpperBandRatchets | fastq-main/src/indicators/indicators.py:233-234 | the adjusted upper band never rises over a stretch where each close stayed at or below it |
| Indicators.LowerBandRatchets | fastq-main/src/indicators/indicators.py:236-237 | the adjusted lower band never falls over a stretch where each close stayed at or above it |
| Indicators.SuperTrendVisit | fastq-main/src/indicators/indicators.py:231-251 | one turn of the loop sets, at that bar only, the adjusted bands, the direction (-1 exactly when the close is at or below the upper band) and the line (the upper band in a downtrend, the lower otherwise) |
| Indicators.SuperTrend | fastq-main/src/indicators/indicators.py:204-253 | direction 1 and line 0 at the first bar; afterwards -1 exactly when the close is at or below the adjusted upper band, and the line is that band in a downtrend and the adjusted lower band otherwise |
| Indicators.ZigZagTrendMatchesPivot | fastq-main/src/indicators/indicators.py:20-51 | the trend always names the last pivot's kind: 0 before any pivot, -1 after a high, 1 after a low |
| Indicators.ZigZagPivotsAlternate | fastq-main/src/indicators/indicators.py:35-49 | a bar that records a pivot records the other kind than the last one, at its own index, a high above the previous low and a low below the previous high |
| Indicators.ZigZagVisit | fastq-main/src/indicators/indicators.py:26-51 | one turn of the loop gives the state of `ZigZagStep` |
| Indicators.ZigZag | fastq-main/src/indicators/indicators.py:14-53 | one value per bar: 0 before `depth`, and from there the trend of the pivots seen so far, always in {-1, 0, 1} |
| News.HighImpactEvents | fastq-main/src/utils/news_calendar.py:40-62 | the kept events are all high-impact, no more than the raw events, and every raw event whose date and time parse and whose impact is "High" is kept |
| News.ToEvent | fastq-main/src/utils/news_calendar.py:43-62 | a kept event is high-impact and its time is the parse of the raw date and time joined by a space |
| News.DroppedEventsAbsent | fastq-main/src/utils/news_calendar.py:49-62 | every kept event comes from a raw event that parses and is high-impact |
| News.WatchedCurrencies | fastq-main/src/utils/news_calendar.py:123-136 | every symbol watches the dollar and the United States; an unknown symbol watches only those |
| News.ScanForNews | fastq-main/src/utils/news_calendar.py:98-121 | the scan reports news exactly when some loaded event lies between 0 and `minutes_before` minutes ahead and its country is watched for the symbol |
| News.SortByTime | fastq-main/src/utils/news_calendar.py:152 | the sorted list is a permutation of the input, ordered by time |
| News.Insert | fastq-main/src/utils/news_calendar.py:152 | insertion keeps the list sorted and adds exactly the one event |
| News.FilterWithinHours | fastq-main/src/utils/news_calendar.py:146-150 | exactly the events between 0 and `hours_ahead` hours ahead are kept, nothing else |
| News.UpcomingNews | fastq-main/src/utils/news_calendar.py:143-152 | the upcoming events are exactly the loaded events within `hours_ahead` hours, earliest first |
| News.NewsCalendar.constructor | fastq-main/src/utils/news_calendar.py:18-30 | no events and no fetch yet; a calendar not enabled for backtests is in backtest mode |
| News.NewsCalendar.FetchCalendar | fastq-main/src/utils/news_calendar.py:32-73 | success exactly on a 200 response whose XML parses; success replaces the events with the high-impact events and records the fetch time; failure changes nothing |
| News.NewsCalendar.ShouldClosePosition | fastq-main/src/utils/news_calendar.py:75-121 | never in backtest mode, and then nothing changes; otherwise the events are refreshed only when missing or a week old: a refresh answered with 200 loads the feed's high-impact events and records the fetch time, any other answer leaves both as they were; the answer is `ScanForNews` over the events then loaded |
| News.NewsCalendar.GetUpcomingNews | fastq-main/src/utils/news_calendar.py:138-152 | loaded events are not refetched; an empty calendar is fetched, taking the feed's high-impact events and the fetch time on a 200 answer and staying empty otherwise; the answer is `UpcomingNews` over the events then loaded |
| CandlesRoute.ToCandle | src/app/api/trading/candles/route.ts:71-83 | every kline position lands in its candle field, so the optional fields are all present |
| CandlesRoute.KlineOf | src/app/api/trading/candles/route.ts:71-83 | the conversion loses nothing: converting back and forth gives the same candle |
| CandlesRoute.ToCandles | src/app/api/trading/candles/route.ts:71-83 | one candle per kline, in order, each converting back to its kline |
| CandlesRoute.RetryFrom | src/app/api/trading/candles/route.ts:7-30 | with attempts left, the loop makes at least one and at most `retries` fetches |
| CandlesRoute.RetryFromMeaning | src/app/api/trading/candles/route.ts:7-30 | a response comes back exactly when some remaining attempt responds, and it is the first one, whatever its status; when every attempt throws, the last error is rethrown; with no attempt allowed the loop ends with 'All retry attempts failed' |
| CandlesRoute.FetchWithRetry | src/app/api/trading/candles/route.ts:7-30 | the loop's result is `Retry`, with a 1000·(i+1) ms delay after each failed attempt but the last |
| CandlesRoute.TryEndpoint | src/app/api/trading/candles/route.ts:55-98 | one endpoint's turn makes at least one fetch; a short page holds between 1 and 1499 candles; a full page holds at least 1500 and moves the cursor past the last close time |
| CandlesRoute.PageFrom | src/app/api/trading/candles/route.ts:54-103 | the endpoint loop never undoes a fetch; a failed pass has tried every remaining endpoint; its pages satisfy the same size and cursor facts |
| CandlesRoute.AskEndpoint | src/app/api/trading/candles/route.ts:55-98 | one endpoint's turn in the loop gives exactly `TryEndpoint` |
| CandlesRoute.FetchPage | src/app/api/trading/candles/route.ts:52-103 | one pass of the endpoint loop gives exactly `PageFrom` from the first endpoint |
| CandlesRoute.PageServed | src/app/api/trading/candles/route.ts:54-98 | every page the loop returns is what one of the endpoints sent, in this pass, for the current cursor: a 2xx list of klines that converts to it |
| CandlesRoute.AllDownFailsPage | src/app/api/trading/candles/route.ts:95-103 | when every fetch throws or answers non-2xx, the page fails |
| CandlesRoute.Collected | src/app/api/trading/candles/route.ts:65-85 | a non-empty page is appended to the collected candles; an empty page adds nothing |
| CandlesRoute.CursorAfter | src/app/api/trading/candles/route.ts:87-92 | only a full page moves the cursor, to its `next` |
| CandlesRoute.Paginate | src/app/api/trading/candles/route.ts:51-106 | a pagination error is always 'Failed to fetch from all endpoints' |
| CandlesRoute.FetchBinanceCandles | src/app/api/trading/candles/route.ts:35-107 | the cursor loop's result is `Paginate` over the pages its endpoint loop fetches |
| CandlesRoute.PaginateBound | src/app/api/trading/candles/route.ts:47-85 | with pages of at most 1500 candles, the collected candles only grow and a finished run holds fewer than 21500 |
| CandlesRoute.NetworkPagesWithin | src/app/api/trading/candles/route.ts:47-56 | an exchange that never sends more than the requested limit makes pages of at most 1500 candles |
| CandlesRoute.EmptyPagesNeverEnd | src/app/api/trading/candles/route.ts:51-68 | while the window is open, pages that are always empty never end the loop: the cursor does not move |
| CandlesRoute.AnsweredPage | src/app/api/trading/candles/route.ts:54-90 | an exchange that always answers 200 with the same klines gives an empty page for no klines and a short page of those candles for fewer than 1500 |
| CandlesRoute.EmptyAnswersNeverEnd | src/app/api/trading/candles/route.ts:51-68 | an exchange that always answers with an empty list keeps the route looping |
| CandlesRoute.Repeat | src/app/api/trading/candles/route.ts:85 | `k` copies of a list have `k` times its length |
| CandlesRoute.ShortPagesRepeat | src/app/api/trading/candles/route.ts:85-90 | a short page is collected again and again from the unchanged cursor until the 20000 cap is reached: the result is that page repeated, at least twice when a second copy fits |
| CandlesRoute.ShortAnswersRepeat | src/app/api/trading/candles/route.ts:51-92 | an exchange that always answers with the same short list makes the route return that list at least twice over |
| CandlesRoute.Post | src/app/api/trading/candles/route.ts:113-143 | a body that is not JSON answers 500 with the parse error's message; a 400 with 'Missing required parameters' exactly when the body parses and a parameter is missing or falsy; a start or end date that `toISOString` rejects answers 500 'Invalid time value'; otherwise the candles and their count, or a 500 with the all-endpoints message, or no reply while the pagination runs |
| VideoEmbedParser.Run | src/lib/videoEmbedParser.ts:20-41 | a greedy character-class run: it stays within the string, consumes only characters of the class, and stops at the end or at the first character outside it |
| VideoEmbedParser.FirstMatchIsLeftmost | src/lib/videoEmbedParser.ts:24-63 | `String.match` without the global flag: the search finds a match exactly when one exists, and it finds the leftmost |
| VideoEmbedParser.FirstMatchAt | src/lib/videoEmbedParser.ts:24-63 | a match with no match before it is the one the search returns |
| VideoEmbedParser.PrefixAtContains | src/lib/videoEmbedParser.ts:75 | text standing at some position is contained in the string |
| VideoEmbedParser.OccursIff | src/lib/videoEmbedParser.ts:24-63 | a pattern occurs somewhere exactly when the search from the start finds it |
| VideoEmbedParser.YoutubeFromMeaning | src/lib/videoEmbedParser.ts:20 | the YouTube pattern matches at a position exactly when one of its four prefixes stands there, followed by 11 id characters, and it captures those 11 characters |
| VideoEmbedParser.YoutubeStartsWithY | src/lib/videoEmbedParser.ts:20 | every YouTube match starts with a 'y' |
| VideoEmbedParser.BilibiliVideoAtMeaning | src/lib/videoEmbedParser.ts:40 | the video capture stands right after the `bilibili.com/video/` path and is a BV id or "av" followed by digits |
| VideoEmbedParser.LiveAtMeaning | src/lib/videoEmbedParser.ts:41 | the live capture is the room's digits, right after the `live.bilibili.com/` path |
| VideoEmbedParser.RemoveFirst | src/lib/videoEmbedParser.ts:55 | `replace` with a string pattern removes a leading occurrence, and leaves a string without the pattern as it is |
| VideoEmbedParser.NotContainsTail | src/lib/videoEmbedParser.ts:55 | a string without the pattern has no occurrence in its tail either |
| VideoEmbedParser.ParseVideoUrl | src/lib/videoEmbedParser.ts:15-84 | no embed for an empty link; the original link is kept; YouTube exactly when the YouTube pattern occurs; Bilibili exactly when it does not and a video or live pattern does; generic exactly when none occurs and the link mentions 'player.', 'embed' or 'iframe', embedding the link itself |
| VideoEmbedParser.YoutubeEmbed | src/lib/videoEmbedParser.ts:19-33 | a YouTube link embeds the 11-character id that follows the leftmost of its four prefixes |
| VideoEmbedParser.BilibiliVideoEmbed | src/lib/videoEmbedParser.ts:43-61 | a Bilibili video link embeds its BV id as `bvid=`, or the digits after "av" as `aid=` |
| VideoEmbedParser.LiveRoomEmbed | src/lib/videoEmbedParser.ts:63-71 | a Bilibili live link embeds the room page of the digits after the live path |
| VideoEmbedParser.YoutubeLandmarks | src/lib/videoEmbedParser.ts:20 | every YouTube match has fixed characters at fixed offsets from its start |
| VideoEmbedParser.VideoLandmarks | src/lib/videoEmbedParser.ts:40 | every Bilibili video match has '/', 'd' and '/' at offsets 12, 15 and 18 |
| VideoEmbedParser.LiveLandmarks | src/lib/videoEmbedParser.ts:41 | every live match starts with 'l' and has '/' at offset 17 |
| VideoEmbedParser.PlayerUrlChar | src/lib/videoEmbedParser.ts:50-58 | in a Bilibili player URL whose id is alphanumeric, the characters '.', '/' and 'u' stand only at known positions of the fixed page prefix |
| VideoEmbedParser.OptionsChar | src/lib/videoEmbedParser.ts:50-58 | the player options hold neither '.' nor '/' |
| VideoEmbedParser.YoutubeEmbedIsStable | src/lib/videoEmbedParser.ts:29 | a YouTube embed URL of a valid id parses again as YouTube, embedding itself |
| VideoEmbedParser.LiveRoomIsStable | src/lib/videoEmbedParser.ts:68 | a live-room URL of a room number parses again as that live room, embedding itself |
| VideoEmbedParser.YoutubeLinkIsStable | src/lib/videoEmbedParser.ts:19-33 | the embed URL of a YouTube link parses again as YouTube, embedding itself |
| VideoEmbedParser.VideoLinkIsStable | src/lib/videoEmbedParser.ts:43-81 | the embed URL of a Bilibili video link parses again, but as a generic embed of itself |
| VideoEmbedParser.LiveLinkIsStable | src/lib/videoEmbedParser.ts:63-71 | the embed URL of a Bilibili live link parses again as a Bilibili live room, embedding itself |
| VideoEmbedParser.EmbedUrlIsStable | src/lib/videoEmbedParser.ts:15-84 | parsing the embed URL of any parsed link gives back the same embed URL |
| VideoEmbedParser.NoYoutubeInPlayerUrl | src/lib/videoEmbedParser.ts:20-58 | a Bilibili player URL holds no YouTube match |
| VideoEmbedParser.NoVideoInPlayerUrl | src/lib/videoEmbedParser.ts:40-58 | a Bilibili player URL holds no Bilibili video match |
| VideoEmbedParser.NoLiveInPlayerUrl | src/lib/videoEmbedParser.ts:41-58 | a Bilibili player URL holds no live match |
| VideoEmbedParser.PlayerUrlIsGeneric | src/lib/videoEmbedParser.ts:50-81 | a Bilibili player URL parses as a generic embed of itself |
| VideoEmbedParser.LiveRoomsAreLiveStreams | src/lib/videoEmbedParser.ts:63-103 | every link the parser embeds as a live room counts as a live stream |
| VideoEmbedParser.PlatformNamesDistinct | src/lib/videoEmbedParser.ts:108-115 | the display names tell the three platforms apart |
| BlogMigration.SplitTags | src/lib/blogMigration.ts:43-54 | each tag goes to exactly one of the two lists, so their lengths add up to the number of tags; which list is `SplitTagsPartitions` |
| BlogMigration.SplitTagsPartitions | src/lib/blogMigration.ts:43-54 | every tag lands in exactly one list (the two lists together are the tags as a multiset); the Chinese list holds only tags with a CJK ideograph, the English list only tags without |
| BlogMigration.SplitTagsAppend | src/lib/blogMigration.ts:46-54 | the split preserves the order of the tags: the lists of a concatenation are the concatenations of the lists |
| BlogMigration.SplitOneTag | src/lib/blogMigration.ts:47-53 | a single tag goes to the Chinese list iff it holds a CJK ideograph, to the English list otherwise |
| BlogMigration.TagColumnRoundTrip | src/lib/blogMigration.ts:63-64 | non-empty tags without a comma are recovered unchanged from their comma-joined column |
| BlogMigration.RemarkRoundTrip | src/lib/blogMigration.ts:62 | the reading time can be read back from the remark it is written into |
| BlogMigration.ConvertBlogPost | src/lib/blogMigration.ts:41-71 | the new row has no related posts and is never pinned |
| BlogMigration.ConvertBlogPostKeeps | src/lib/blogMigration.ts:41-71 | the row keeps both titles and contents, the author, the reading time and the featured flag, and every tag exactly once, Chinese tags in the main column and the rest in the English one |
| BlogMigration.ConvertBlogPostCopies | src/lib/blogMigration.ts:41-71 | for every post, the row keeps both titles and contents, the author and the featured flag, and its remark gives back the reading time |
| BlogMigration.ResultFor | src/lib/blogMigration.ts:89-99 | a result carries the old post's id; it is a success iff the response was ok, iff it holds a new id, iff it holds no error |
| BlogMigration.Record | src/lib/blogMigration.ts:80-100 | one iteration records exactly the result for its post's attempt |
| BlogMigration.MigrateBlogs | src/lib/blogMigration.ts:76-104 | one result per post, in order, for the upload of that post's converted row; a failure does not stop the loop |
| TopTradersMigration.ConvertTopTrader | src/lib/topTradersMigration.ts:7-28 | the row is undone by ConvertDbTraderToDisplay, keeping the trader id and rank |
| TopTradersMigration.ConvertDbTraderToDisplay | src/lib/topTradersMigration.ts:66-87 | converting the display trader back gives exactly the written columns of the stored row |
| TopTradersMigration.DisplayRoundTrip | src/lib/topTradersMigration.ts:7-87 | storing a converted trader and reading it back gives the same trader, whatever id and timestamps the database adds |
| TopTradersMigration.ConvertTopTraderInjective | src/lib/topTradersMigration.ts:7-28 | distinct traders become distinct rows |
| TopTradersMigration.OrUnknown | src/lib/topTradersMigration.ts:49 | the `error || 'Unknown error'` fallback is never empty and keeps a non-empty error field |
| TopTradersMigration.ThrownMessage | src/lib/topTradersMigration.ts:55 | a thrown `Error` gives its own message (even an empty one), anything else 'Unknown error' |
| TopTradersMigration.ResultFor | src/lib/topTradersMigration.ts:45-57 | a result carries its trader; it is a success iff the response was ok, iff it holds no error; a refused upload always has a non-empty error |
| TopTradersMigration.Record | src/lib/topTradersMigration.ts:37-57 | one iteration records exactly the result for its trader's attempt |
| TopTradersMigration.MigrateTopTraders | src/lib/topTradersMigration.ts:33-61 | one result per trader, in order, for the upload of that trader's converted row, successful iff that response was ok |
| EconomicCalendar.MapCountryCode | src/app/api/economic-calendar/route.ts:59-72 | a known currency code is shown as its country, any other code as itself |
| EconomicCalendar.KnownCountriesDistinct | src/app/api/economic-calendar/route.ts:60-70 | the nine known codes name nine different countries |
| EconomicCalendar.Lower | src/app/api/economic-calendar/route.ts:75 | lower-casing keeps the length |
| EconomicCalendar.MapImpact | src/app/api/economic-calendar/route.ts:74-79 | high iff the impact lower-cases to "high", medium iff it lower-cases to "medium", low otherwise |
| EconomicCalendar.MapImpactIgnoresCase | src/app/api/economic-calendar/route.ts:74-79 | impacts equal up to case map alike, and every importance is read back from its own name |
| EconomicCalendar.Kept | src/app/api/economic-calendar/route.ts:30 | the kept events are exactly the feed's events whose impact is not "Holiday" |
| EconomicCalendar.OrNull | src/app/api/economic-calendar/route.ts:44-45 | a field becomes null iff it is empty |
| EconomicCalendar.Normalize | src/app/api/economic-calendar/route.ts:31-47 | the event at position k gets the id `event-k` |
| EconomicCalendar.Transform | src/app/api/economic-calendar/route.ts:29-47 | the chain succeeds iff every kept event's date parses, and then gives one event per kept event |
| EconomicCalendar.TransformMeaning | src/app/api/economic-calendar/route.ts:29-47 | the k-th output is the k-th non-holiday event: id `event-k`, its title, its country name, the raw code as code and currency, its mapped importance, empty forecast and previous as null, no actual value |
| EconomicCalendar.IdsAreUnique | src/app/api/economic-calendar/route.ts:32 | no two output events share an id |
| EconomicCalendar.Get | src/app/api/economic-calendar/route.ts:16-57 | the events are served iff the feed answered ok and every kept date parses; otherwise a 500 with the fixed failure message |
| RouteTypes.OrEmpty | src/app/api/blogs/route.ts:48-53 | `data || []`: the database's rows when it sent some, the empty list for null |
| BlogsRoute.Pad2 | src/app/api/blogs/route.ts:14 | the padded number is all digits, exactly two of them below 100 |
| BlogsRoute.ParsePad2 | src/app/api/blogs/route.ts:14 | a padded number reads back as itself |
| BlogsRoute.CurrentDateString | src/app/api/blogs/route.ts:12-15 | the dash-separated parts are the year, the month number (index plus one) and the day, both padded |
| BlogsRoute.DateStringRoundTrip | src/app/api/blogs/route.ts:12-15 | the date is read back from its date string |
| BlogsRoute.DateStringInjective | src/app/api/blogs/route.ts:12-15 | two days share a date string only when they are the same day |
| BlogsRoute.HitWindow | src/app/api/blogs/route.ts:25-30 | a cache is served iff no refresh is forced, it was written the same calendar day and it is younger than 24 hours |
| BlogsRoute.ExpiryIsFinal | src/app/api/blogs/route.ts:25-30 | a cache served at some time was also served at every earlier time of the same day |
| BlogsRoute.WriteReply | src/app/api/blogs/route.ts:76-128 | the first returned row exactly when the answer has one; a null answer, or an empty one (whose `data[0]` is `undefined`, which `Response.json` refuses with a `TypeError`), gets 500 'Internal server error' from the catch |
| BlogsRoute.BlogsApi.constructor | src/app/api/blogs/route.ts:8 | the cache starts empty |
| BlogsRoute.BlogsApi.Get | src/app/api/blogs/route.ts:18-58 | on a hit the cached rows and an unchanged cache; otherwise the database's rows (`data || []`), cached with today's date and the read time; an error or exception answers 500 and keeps the cache |
| BlogsRoute.BlogsApi.Post | src/app/api/blogs/route.ts:61-83 | a successful insert drops the cache and answers `WriteReply`: its first row, or 500 when no row came back; an error or exception answers 500 and keeps the cache |
| BlogsRoute.BlogsApi.Put | src/app/api/blogs/route.ts:86-129 | without an id 400 'ID is required' and no change; otherwise as Post, so an update matching no row drops the cache and answers 500 |
| BlogsRoute.BlogsApi.Delete | src/app/api/blogs/route.ts:132-159 | without a query id 400 'ID is required' and no change; a successful delete drops the cache and answers success; an error answers 500 and keeps the cache |
| TopTradersRoute.ThrownMessage | src/app/api/top-traders/route.ts:43 | a thrown `Error` gives its message, anything else 'Unknown error' |
| TopTradersRoute.HitWindow | src/app/api/top-traders/route.ts:19 | rows stored at a nonzero time are served iff no refresh is forced and five minutes have not passed; rows stored at time zero are never served |
| TopTradersRoute.TopTradersApi.constructor | src/app/api/top-traders/route.ts:8-9 | both cache variables start null |
| TopTradersRoute.TopTradersApi.Get | src/app/api/top-traders/route.ts:13-47 | on a hit the cached rows and unchanged variables; otherwise the database's rows (`data || []`) stored with their read time; an error or exception answers 500 and keeps both variables |
| TopTradersRoute.TopTradersApi.Post | src/app/api/top-traders/route.ts:50-77 | a successful insert clears both variables and answers the row; an error or exception answers 500 and keeps them |
| TopTradersRoute.TopTradersApi.Put | src/app/api/top-traders/route.ts:80-113 | without a body id 400 'ID is required' and no change; otherwise as Post |
| TopTradersRoute.TopTradersApi.Delete | src/app/api/top-traders/route.ts:116-147 | without a query id 400 'ID is required' and no change; a successful delete clears both variables and answers success; an error answers 500 and keeps them |
| Navbar.Segments | src/components/layout/UnifiedNavbar.tsx:77 | the segments are non-empty and hold no slash |
| Navbar.PageSegments | src/components/layout/UnifiedNavbar.tsx:77-79 | the page's segments are all segments, or all but a leading `en`/`zh` |
| Navbar.PathWithoutLocale | src/components/layout/UnifiedNavbar.tsx:79 | the path always starts with a slash |
| Navbar.IsActive | src/components/layout/UnifiedNavbar.tsx:75-85 | the home link is active iff the page has no segment; any other link iff it is a prefix of the path without locale |
| Navbar.JoinOfNonEmptyParts | src/components/layout/UnifiedNavbar.tsx:79-82 | joining non-empty segments is empty only for no segments, so the empty-string comparison never matters |
| Navbar.SegmentsOfJoin | src/components/layout/UnifiedNavbar.tsx:77 | splitting and filtering a slash-joined path gives back its segments |
| Navbar.FilterDropsEmpty | src/components/layout/UnifiedNavbar.tsx:77 | `filter(Boolean)` drops every empty segment |
| Navbar.CanonicalPathIsFixed | src/components/layout/UnifiedNavbar.tsx:77-79 | a path written without a locale is its own path without locale |
| Navbar.LocalePrefixIgnored | src/components/layout/UnifiedNavbar.tsx:75-85 | `/en/x` and `/zh/x` have the path `/x` and activate the same links as `/x` |
| Navbar.PrefixMatchIgnoresSegments | src/components/layout/UnifiedNavbar.tsx:84 | the link `/a` is active on `/ab` and on `/zh/ab` for any slash-free `b`, across a segment boundary |
| EducationTemplate.IsZh | src/components/education/EducationPageTemplate.tsx:51 | the given language decides; without one, a hero title not mentioning "Forex" means Chinese |
| EducationTemplate.PrimaryCta | src/components/education/EducationPageTemplate.tsx:180-192 | brokers iff a broker label; psychology iff no broker label and a psychology label; calculator iff neither and a tool label; otherwise join |
| EducationTemplate.SecondaryCta | src/components/education/EducationPageTemplate.tsx:198-211 | never brokers; psychology iff a psychology label; calculator iff none and an analysis or tool label; otherwise join |
| EducationTemplate.MentionsAnyAppend | src/components/education/EducationPageTemplate.tsx:203-208 | a caption mentions a label of two lists joined iff it mentions one of either list |
| EducationTemplate.ButtonsAgree | src/components/education/EducationPageTemplate.tsx:180-211 | the two buttons lead to the same page for every caption naming no broker and no analysis tool |
| EducationTemplate.FooterHref | src/components/education/EducationPageTemplate.tsx:223-229 | a non-empty link is kept, a missing or empty one leads to `/education`; the result is never empty |
| EducationTemplate.FooterHrefIdempotent | src/components/education/EducationPageTemplate.tsx:223-229 | following the footer fallback twice gives the same link as following it once |

## Left out

- **Network, storage and clocks.** The exchange, feed and database requests, Supabase, the `setTimeout` back-off delays and `Date.now()`/`datetime.now()` are all parameters. Each is an oracle function or a recorded answer, and its waiting time is not modelled.
- **Collaborators whose source is not part of this model:**
  - The TypeScript risk manager is a log of what the engine told it, plus answer functions over that log.
  - The strategy's indicator modules are a function from candles to an indicator snapshot.
  - The Python `TradingStrategy` driven by the backtester is a `Strategy` value.
- **Library numerics are inputs:** pandas `ewm`, `rolling().mean()`, `rolling().std()` and `cummax`, the RSI formula, `macd` and `calculate_all_indicators`.
- **Sharpe and Sortino ratios and returns.** `_calculate_results` in the backtester is left out because these need square roots; the equity curve it reads from is modelled.
- **Floating point** is exact real arithmetic. Rounding and overflow are not modelled.
- **Dates and times are integers.** Python datetimes are whole seconds and JavaScript times are milliseconds. The calendar day is `t / 86400`, which matches pandas' floored `.days`. `toISOString` (apart from the range check that makes it throw), `toLocaleTimeString`, `new Date(...)` and the calendar's `"%m-%d-%Y %I:%M%p"` parsing are oracles.
- **JSON and XML.** Encoding and decoding are not modelled. In the blog and leaderboard routes, a request body that is not JSON throws inside the same `try` as the database call and gets the same 500 reply, so it is folded into the `Threw` answer. The candles `POST` takes the parsed body or the parse error (`RequestBody`). Its dates are millisecond numbers; a date given as a string is not modelled.
- **Diagnostics and output.** Logging, the strategy's debug counters, `plot_results`, `print_results`, `print_upcoming_news` and the engine's `uuidv4` trade ids (a trade has no id field) are left out.
- **Five-minute candles.** The engine filters the optional 5-minute candles and passes them on. The TypeScript entry rules never read them, so the model omits them and the empty-window signal's `Date.now()` timestamp.
- **Regular expressions.** Those of the video parser are written out as matchers at one position; no general regex engine is modelled.
- **String functions.**
  - `toLowerCase` is ASCII-only.
  - `includes` is plain substring search.
  - The blog migration reads a post's reading time as a natural number.
- **Prototype keys.** The economic calendar's country lookup does not model keys inherited from `Object.prototype` (such as `constructor`).
- **Route updates.** The PUT handlers' update payload (and the blog route's `updated_at`) is not modelled, because the cache rules do not depend on it. An id from a JSON body is an optional integer whose falsy values are a missing id and 0.
- Backtester.Backtester.constructor: requires a nonzero leverage, and so do `Enter`, `Trade` and the methods that run them. The source accepts a zero leverage and only fails with a `ZeroDivisionError` when `_validate_position_size` divides by it (fastq-main/src/backtesting/backtester.py:193), that is, at the first signal that arrives while fewer than `max_positions` positions are open. The model does not carry that exception path.
- CandlesRoute.Paginate: the pagination loop can run forever, so the model takes a `fuel` bound on the number of pages. A run that exhausts it is `OutOfFuel` and the POST handler then sends no reply; what the real loop would do after that many pages is not modelled.
- BlogsRoute.CurrentDateString: the year is a natural number and the local date is given, since the clock and the time zone are not modelled.
- EducationTemplate.IsZh: the language is `zh` or `en` when given, as the component's prop type says; other strings are not modelled.
