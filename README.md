# trategy, modelled in Dafny

trategy is a small stock back-testing tool. A Go back end reads daily
bars (K-lines) of Chinese A-share codes. It turns them into buy and sell
signals with a strategy (an SMA crossover, an RSI threshold, or a test
strategy that never trades). It replays the signals on a one-lot account
with fees, slippage, stop-loss and take-profit, and reports the equity
curve, the trades, the return, the maximum drawdown and the Sharpe ratio.
It also ranks every code by return, over HTTP or streamed over a
WebSocket, and runs a screener that scores codes by their recent moves. A
daily job refreshes the stored bars once the market has closed. A React
front end unwraps the back end's responses, normalises their rows, draws
price, equity and return charts, pages through screener results while
caching one chart per symbol, and follows the streamed ranking frame by frame.
Mock generators stand in for the back end when it is not reachable.

The model has one module per source file of that core:

- `Common`: shared values. These are float64 outcomes (`Float`: finite, or
  NaN/infinite), daily bars whose prices are integer thousandths of a yuan,
  and window sums.
- `Strategy`: the strategies and their registry (`internal/strategy`).
- `Engine`: the back-test engine (`internal/engine/backtest.go`).
- `Route` and `Ranking`: the HTTP and WebSocket handlers' defaulting,
  aggregation, ranking and truncation (`internal/api/route.go`). `Ranking`
  holds the in-place swap sort on an `array`.
- `Screener`: `screener.Run` (`internal/screener/screener.go`).
- `Update`: the freshness rule and the daily K-line refresh
  (`internal/data/update.go`).
- `Js`: the JavaScript semantics the front end leans on. These are `??`
  and `||` chains, `Number`, `String`, `toFixed` and `filter`.
- `Api`, `Mock`, `PriceChart`, `ReturnsChart`, `EquityChart`,
  `ScreenerPage` and `BacktestPage`: `web/src/lib/api.ts`,
  `web/src/lib/mock.ts`, the three chart components and the two pages.

Loops in the source are methods with loop invariants, proved against
reference functions. Objects whose state changes are classes:

- the strategy registry;
- the update log and the K-line store;
- `URLSearchParams`;
- the two pages.

Lemmas state the promised properties of those reference functions. These
include round trips from what the back end encodes to what the front end
reads back, and the permutation and order of every sort.

Things outside the program become parameters:

- the clock;
- `Math.random` draws (a `Random` is a function from draw index to a value
  in [0, 1));
- date formatting;
- `math.Sqrt` and `Math.sqrt` (a function that is 0 at 0 and positive above 0);
- `JSON.parse`;
- the text of built-in error messages;
- the data store and every fetch (functions from request to result or
  exception).

Go's `float64` and JavaScript's `number` are `real`. NaN and the
infinities appear only where a division or a square root can produce them.

## Model

| member | source | states |
|---|---|---|
| Common.FDiv | internal/engine/backtest.go:202 | a float64 quotient is finite exactly when both operands are and the divisor is not 0 |
| Common.FDivCancels | internal/engine/backtest.go:202 | a finite quotient times its divisor gives the dividend back |
| Common.FSqrt | internal/engine/backtest.go:198 | `math.Sqrt` is finite exactly on finite non-negative arguments |
| Common.Closes | internal/strategy/sma.go:35-38 | one close per bar, each in yuan, in order |
| Common.SumBounds | internal/strategy/sma.go:22-30 | a sum of m terms, each between lo and hi, lies between m·lo and m·hi |
| Strategy.NamesDistinct | internal/strategy/sma.go:12-14 | the three strategies have the names "sma_cross", "rsi" and "测试", so two strategies share a name exactly when they are of the same kind |
| Strategy.EdgeTriggerMeaning | internal/strategy/sma.go:42-55 | the edge trigger emits a non-zero value at bar i exactly when the regime is non-zero and differs from the last emitted one, the value emitted is the regime, and regimes in {-1, 0, 1} give signals in {-1, 0, 1} |
| Strategy.QuietWhileRegimeZero | internal/strategy/sma.go:42-55 | while the regime is 0 from the first bar on, `prev` stays 0 and nothing is emitted |
| Strategy.SmaWithinWindow | internal/strategy/sma.go:27-29 | a full window's mean lies between the least and the greatest value of the window |
| Strategy.Sma | internal/strategy/sma.go:16-32 | nil for n <= 0; otherwise one value per input, 0 before the window is full and the mean of the n values ending at i after; the running sum equals the window sum (loop invariant) |
| Strategy.CrossRegime | internal/strategy/sma.go:44-51 | the regime is 1 exactly when both averages are non-zero and fast > slow, -1 when both are non-zero and fast < slow, and 0 when either is 0 or they are equal |
| Strategy.NoCrossBeforeWindowsFill | internal/strategy/sma.go:39-55 | no crossover signal is emitted on a bar before either window is full |
| Strategy.ClosePrices | internal/strategy/sma.go:35-38 | the prices are the closes of the bars as float64 yuan, one per bar |
| Strategy.SmaSignals | internal/strategy/sma.go:34-58 | `SMA.Signals` equals the edge trigger of the crossover regimes of the fast and slow averages of the closes |
| Strategy.RsiPeriod | internal/strategy/rsi.go:16-19 | a period of 1 or less becomes 14; a larger one is kept |
| Strategy.GainLossSplit | internal/strategy/rsi.go:20-29 | a bar's gain and loss are non-negative, at most one of them is non-zero, both are 0 on bar 0, and gain - loss is the close-to-close move |
| Strategy.GainsLossesNonNegative | internal/strategy/rsi.go:20-29 | every entry of the gains and the losses arrays is non-negative |
| Strategy.SmoothedNonNegative | internal/strategy/rsi.go:37-40 | Wilder smoothing of non-negative moves stays non-negative |
| Strategy.RsiValueBounds | internal/strategy/rsi.go:41-46 | for non-negative averages the RSI value lies in [0, 100] and is 100 when the average loss is 0 |
| Strategy.RsiInRange | internal/strategy/rsi.go:35-47 | every RSI value lies in [0, 100], is 0 on bars i <= n, and is 100 past bar n when the smoothed loss is 0 |
| Strategy.RsiRegime | internal/strategy/rsi.go:50-58 | the RSI regime is 1 above 50, -1 below 50, and 0 at exactly 0 or 50 |
| Strategy.RsiQuietFirstBars | internal/strategy/rsi.go:35-63 | no RSI signal is emitted on the first n + 1 bars |
| Strategy.SplitMoves | internal/strategy/rsi.go:20-29 | the first loop fills the gains and the losses arrays with each bar's split move |
| Strategy.SeedAverages | internal/strategy/rsi.go:30-36 | when the series has more than n bars, the seed averages are the plain means of the gains and the losses of bars 1..n |
| Strategy.RsiAtSmoothed | internal/strategy/rsi.go:37-47 | past bar n the smoothed averages are non-negative and the RSI is computed from them |
| Strategy.RsiValues | internal/strategy/rsi.go:30-47 | the seed and smoothing loops give one RSI value per bar, equal to the reference RSI of that bar |
| Strategy.RsiSignals | internal/strategy/rsi.go:15-65 | `RSI.Signals` equals the edge trigger of the RSI regimes of the series |
| Strategy.TestSignals | internal/strategy/test.go:13-16 | the test strategy gives one signal per bar and every signal is 0 |
| Strategy.SignalsShape | internal/strategy/strategy.go:7-10 | every strategy gives one signal per bar, each in {-1, 0, 1} |
| Strategy.Signals | internal/strategy/strategy.go:9 | dispatching `Signals` runs the method of the strategy's kind |
| Strategy.Registry.constructor | internal/strategy/strategy.go:12 | the registry map starts empty |
| Strategy.Registry.Builtin | internal/strategy/sma.go:60-62 | after the `init` functions the registry holds SMA{5, 20} under "sma_cross", RSI{14} under "rsi" and Test under "测试" |
| Strategy.Registry.Register | internal/strategy/strategy.go:14-16 | the strategy is stored under its name, replacing any earlier one, and every other entry is unchanged |
| Strategy.Registry.Get | internal/strategy/strategy.go:18-20 | the strategy registered under the name, or none when the name is absent |
| Strategy.Registry.Names | internal/strategy/strategy.go:22-28 | every registered name exactly once: as many names as keys, no repeats and no others |
| Engine.Fee | internal/engine/backtest.go:89-92 | the commission is cost times the fee rate, floored at the minimum fee: at least both, and equal to one of them |
| Engine.SeriesAt | internal/engine/backtest.go:139-142 | entry j of the cash, position and equity series is the account after bar j, and equity[j] = cash[j] + position[j] * close[j] |
| Engine.BuyRule | internal/engine/backtest.go:87-98 | a bar ends in a buy exactly when the signal is 1, the position is flat and the cash covers cost plus fee; the buy takes cost + fee off the cash, opens one lot at the slipped buy price and logs a buy trade |
| Engine.SellRule | internal/engine/backtest.go:99-108 | a sell signal on an open position closes all of it and logs a sell of the whole position at the slipped sell price |
| Engine.ProtectRule | internal/engine/backtest.go:109-137 | without a sell signal an open position closes in full when the stop or the target is hit, and otherwise the account is unchanged |
| Engine.AtMostOneTradePerBar | internal/engine/backtest.go:82-138 | a bar leaves the account unchanged or appends exactly one trade stamped with that bar's index and time; the take-profit cannot fire after the stop-loss closed the position |
| Engine.TradesCostTheFee | internal/engine/backtest.go:87-137 | with no slippage and a positive minimum fee, every trade lowers the bar's marked-to-market value by at least the minimum fee |
| Engine.PositionFlatOrOneLot | internal/engine/backtest.go:87-137 | after every bar the position is 0 or exactly `cfg.Size` |
| Engine.TradeLogWellFormed | internal/engine/backtest.go:82-138 | with a positive size, trades alternate buy, sell, ... from a buy, are each one lot, have strictly increasing bar indices below the bar count with their bar's time, and the position is open exactly when the log ends with a buy |
| Engine.SilentSignalsNeverTrade | internal/engine/backtest.go:87-138 | all-zero signals leave the account at its starting state on every bar |
| Engine.RetsAt | internal/engine/backtest.go:143-145 | return j is (equity[j+1] - equity[j]) / equity[j], finite exactly when equity[j] is not 0 |
| Engine.RetsLast | internal/engine/backtest.go:143-145 | each new bar after the first appends exactly one return, over the previous equity |
| Engine.TotalReturn | internal/engine/backtest.go:150-153 | with bars and positive starting cash the last equity is cash * (1 + return); otherwise the return is 0 |
| Engine.Drawdown | internal/engine/backtest.go:167-182 | the loop with a running peak computes the reference maximum drawdown |
| Engine.PeakIsMaximum | internal/engine/backtest.go:168-173 | the running peak is non-negative, at least every value seen, and either 0 or one of them |
| Engine.MaxDrawdownCovers | internal/engine/backtest.go:174-179 | the running maximum covers the drawdown of every value seen |
| Engine.MaxDrawdownAtLeastFall | internal/engine/backtest.go:167-182 | the maximum drawdown is at least the fall from any positive value to any later non-negative one |
| Engine.DrawdownAtIsAFall | internal/engine/backtest.go:174-178 | a value's drawdown is 0 or its fall from an earlier positive value |
| Engine.MaxDrawdownAttained | internal/engine/backtest.go:167-182 | the maximum drawdown is non-negative and is either 0 or attained by a fall from a positive value to a later one |
| Engine.MaxDrawdownRange | internal/engine/backtest.go:167-182 | the drawdown is >= 0, <= 1 when every value is >= 0, and 0 for a curve that never falls |
| Engine.SharpeRatio | internal/engine/backtest.go:184-203 | the two accumulator loops compute the reference Sharpe ratio, including the 0 for no values and for a zero deviation |
| Engine.FSumFinite | internal/engine/backtest.go:188-192 | the float64 sum is finite exactly when every value is, and is then the real sum |
| Engine.FSquaresFinite | internal/engine/backtest.go:193-198 | the sum of squared deviations of finite values is finite and non-negative |
| Engine.FSquaresOfConstant | internal/engine/backtest.go:193-197 | deviations from a mean equal to every value square-sum to 0 |
| Engine.SharpeNotFinite | internal/engine/backtest.go:184-203 | one non-finite return makes the Sharpe ratio NaN |
| Engine.StdDevFinite | internal/engine/backtest.go:193-198 | with finite returns the mean and the deviation are finite and the deviation non-negative |
| Engine.SharpeSign | internal/engine/backtest.go:199-202 | with finite returns the Sharpe ratio is finite and has the sign of the mean, both ways when the deviation is non-zero |
| Engine.SharpeOfConstant | internal/engine/backtest.go:199-201 | constant finite returns have Sharpe ratio 0 |
| Engine.EmptySeriesResult | internal/engine/backtest.go:59-69 | an empty series gives empty equity, cash, position and trades and zero return, drawdown and Sharpe |
| Engine.SilentSeries | internal/engine/backtest.go:82-149 | all-zero signals give no trades and every bar at starting cash, flat, with equity equal to the cash |
| Engine.FlatCurveSharpe | internal/engine/backtest.go:143-145 | a constant positive equity curve has all-zero returns and Sharpe ratio 0 |
| Engine.FlatCurveNoDrawdown | internal/engine/backtest.go:167-182 | a constant curve has no drawdown |
| Engine.TestStrategyIsFlat | internal/engine/backtest.go:57-165 | the all-zero strategy on positive cash gives no trades, a flat curve at the starting cash and zero return, drawdown and Sharpe |
| Engine.Bar | internal/engine/backtest.go:83-138 | the body of the bar loop on the local variables is one step of the reference account machine |
| Engine.OpenPosition | internal/engine/backtest.go:87-98 | the buy branch opens one lot at the slipped buy price exactly when the cash covers the cost plus the fee (the rate on the cost, at least the minimum), and otherwise leaves the account unchanged |
| Engine.GuardPosition | internal/engine/backtest.go:109-137 | an open position without a sell signal is closed by the stop-loss check and then, if still open, by the take-profit check, as the reference account machine says |
| Engine.ClosePosition | internal/engine/backtest.go:99-108 | the sell branch flattens the position, zeroes the entry, adds proceeds minus fee to the cash and logs the sell of the whole position |
| Engine.Simulate | internal/engine/backtest.go:72-149 | the bar loop yields the equity, cash and position of the replay, one entry per bar, its trades, and the returns of the equity curve |
| Engine.RunBacktestAdvanced | internal/engine/backtest.go:57-165 | the result is the reference back test, and the three series have one entry per bar |
| Route.Defaults | internal/api/route.go:252-275 | a non-positive cash, size, fee rate or minimum fee becomes 100000, 1, 0.0005 or 5; a positive one is kept; slippage, stop-loss and take-profit pass through |
| Route.DateOr | internal/api/route.go:239-250 | an empty date takes the route's fallback, a non-empty one what parsing it gives |
| Route.PlanFor | internal/api/route.go:232-250 | an unknown strategy gives "strategy not found"; otherwise a date that fails to parse gives its error; the plan exists exactly when the strategy is known and both dates resolve |
| Route.Backtest | internal/api/route.go:96-145 | unknown strategy, date and kline errors abort with their message; otherwise the result is the engine's back test of the code's series under the defaulted settings |
| Route.Outcome | internal/api/route.go:190-202 | a code yields an item exactly when its series reads without error and is non-empty; the item carries the code and its name |
| Route.Visit | internal/api/route.go:190-202 | reading one code and running the engine gives that code's outcome |
| Route.Collected | internal/api/route.go:281-299 | the items of the first i codes are at most i |
| Route.CollectedSound | internal/api/route.go:281-299 | every collected item is the outcome of a code already read |
| Route.CollectedComplete | internal/api/route.go:281-299 | every code with a readable, non-empty series contributes its item |
| Route.SkippedCodesAddNothing | internal/api/route.go:282-285 | a code whose fetch errors or returns no bars adds no item and is not counted |
| Route.SumSharpes | internal/api/route.go:296 | the float64 sum of the Sharpe ratios is finite exactly when every one is |
| Route.Average | internal/api/route.go:313-318 | with cnt > 0 the average times cnt is the sum; with cnt = 0 it is 0 |
| Route.FAverage | internal/api/route.go:313-318 | the float64 average is finite exactly when the sum is (cnt > 0), times cnt gives the sum, and is 0 when nothing was counted |
| Route.SumOfBounds | internal/api/route.go:294-298 | a sum of n terms in [lo, hi] lies in [n * lo, n * hi] |
| Route.AverageBounds | internal/api/route.go:313-318 | an average of values in [lo, hi] lies in [lo, hi] |
| Route.SumsGrow | internal/api/route.go:294-298 | one more item adds its return, drawdown and Sharpe ratio to the running sums |
| Route.RunAll | internal/api/route.go:277-299 | the loop collects one item per code with data, in code order, with the running sums of the returns, drawdowns and Sharpe ratios and the count |
| Route.Rank | internal/api/route.go:301-311 | the sort and the cut keep min(n, 200) items, sorted by return best first, drawn from the input, and no item left out beats one kept |
| Route.CutBest | internal/api/route.go:309-311 | cutting a sorted permutation at 200 keeps the best items in order |
| Route.BacktestAll | internal/api/route.go:228-328 | unknown strategy and date errors abort; otherwise the response holds the ranked top 200 and the averages and count over every counted code |
| Route.WsSettings | internal/api/route.go:173-181 | each of the seven query values (cash, size, fee rate, minimum fee, slippage, stop-loss, take-profit) is used as given when present, even when not positive, and defaults to 100000, 1, 0.0005, 5 and 0 when absent |
| Route.DefaultsAgree | internal/api/route.go:173-181 | on a query that gives every value as a positive number the socket route's settings equal the POST route's |
| Route.FramesAt | internal/api/route.go:207-208 | frame j of the item frames is item j's frame |
| Route.StreamShape | internal/api/route.go:190-224 | the stream is one item frame per counted code in code order, then exactly one summary, the last frame, whose count is the number of items sent |
| Route.StreamAgreesWithReport | internal/api/route.go:211-224 | the stream's summary carries the same averages and count as the POST report over the same items, and every reported item was streamed |
| Route.StreamAll | internal/api/route.go:184-225 | the socket loop sends the reference stream of the collected items |
| Route.BacktestAllWS | internal/api/route.go:147-227 | unknown strategy and date errors abort; otherwise the socket receives the reference stream under the query's settings |
| Ranking.BestToFront | internal/api/route.go:303-307 | after the inner loop entry i has the highest return from i on, entries before i are untouched and the rest is permuted |
| Ranking.SwapIfHigher | internal/api/route.go:304-306 | the swap leaves the higher of the two returns at i and touches nothing else |
| Ranking.SortDescending | internal/api/route.go:302-308 | the in-place swap sort leaves the items sorted by return, highest first, as a permutation of the input |
| Ranking.TopOfSorted | internal/api/route.go:309-311 | the first k entries of a sorted list are the k best |
| Screener.ScreenStrategy | internal/screener/screener.go:29-32 | the registered strategy of the request's name, or SMA{5, 20} when the name is not registered |
| Screener.Lookback | internal/screener/screener.go:43-46 | a look-back between 1 and the last index is kept; any other becomes 10 |
| Screener.WindowStart | internal/screener/screener.go:48-51 | the scored window starts lb bars before the last, but never before bar 1 |
| Screener.WindowSize | internal/screener/screener.go:42-52 | the window [start, last] holds at most lb + 1 bars, and exactly lb + 1 when the series is long enough for the look-back |
| Screener.Quo | internal/screener/screener.go:54 | Go's integer `/`: 0 when the dividend is smaller in magnitude, Euclidean quotient for non-negative operands, non-negative when the signs agree |
| Screener.Move | internal/screener/screener.go:53-55 | the intended move of a bar (the corrected half of the finding, which the screener does not use) is the fraction by which the close moved: prev * (1 + r) = cur, positive exactly on a rise |
| Screener.MovesOfRisingSeries | internal/screener/screener.go:52-56 | with corrected moves, closes that never fall score at least 0 and closes that never move score exactly 0 |
| Screener.SmallMovesVanishAsWritten | internal/screener/screener.go:53-55 | as written, every move of less than 100% either way truncates to 0 |
| Screener.MovesAsWrittenBounds | internal/screener/screener.go:52-56 | the score the screener computes is at least 0 when the closes never fall, and exactly 0 when no close reaches twice the one before it |
| Screener.ScoreAsWrittenCounterexample | internal/screener/screener.go:52-56 | as written, closes 10.000 then 10.500 score 0 where the 5% rise is intended |
| Screener.Candidate | internal/screener/screener.go:38-69 | an empty series yields nothing; a kept item carries the code and the last close, has score >= MinScore when MinScore != 0 and the requested signal when Signal != 0 |
| Screener.ScreenedStep | internal/screener/screener.go:33-70 | each code either aborts the run with its read error or appends its candidate, if any |
| Screener.ErrorSticks | internal/screener/screener.go:35-37 | once a read fails, the run's result is that error whatever later codes hold |
| Screener.ReadErrorAborts | internal/screener/screener.go:35-37 | the first code whose series cannot be read makes the run return (nil, that error) |
| Screener.ScreenedItemsPassFilters | internal/screener/screener.go:63-69 | every listed item comes from a listed code and passes both active filters |
| Screener.SumReturns | internal/screener/screener.go:47-56 | the return loop sums the moves of bars start..last as written: each is the price difference divided by the previous price with Go's truncating integer `/`, then read as yuan |
| Screener.Visit | internal/screener/screener.go:41-69 | one code's scoring (with the truncating moves as written), filters and item equal the reference candidate |
| Screener.VisitAll | internal/screener/screener.go:33-71 | the loop over the codes, in code order, yields exactly the reference result: the kept items of every code, or the error of the first code whose series cannot be read |
| Screener.Run | internal/screener/screener.go:26-73 | the run's result is the first read error, or the kept items of every code sorted by score best first, as a permutation |
| Update.Fresh | internal/data/update.go:162-178 | after today's node the data is current exactly when refreshed at or after the node; up to and at the node exactly when refreshed at or after yesterday's node |
| Update.FreshMonotone | internal/data/update.go:162-178 | a later refresh is current whenever an earlier one is |
| Update.RefreshIsCurrentAllDay | internal/data/update.go:162-178 | a refresh made today (after the node, or before it while the node has not passed) keeps the data current for the rest of the day |
| Update.StaleBeforeYesterday | internal/data/update.go:172-175 | a refresh from before yesterday's node is never current |
| Update.Updated.constructor | internal/data/update.go:128-135 | `NewUpdated` has no records and its node at 15:00 |
| Update.Updated.Touch | internal/data/update.go:143-146 | `Update` sets the refresh time of an existing record to now and adds none |
| Update.Updated.IsUpdated | internal/data/update.go:148-179 | a lookup error gives (true, err); a missing record is inserted with time 0 and gives (false, nil), or (true, err) when the insert fails; otherwise the update rule decides |
| Update.Before | internal/data/update.go:97 | the stored rows kept are at most the stored rows |
| Update.From | internal/data/update.go:102-105 | the fetched rows inserted are at most the fetched rows |
| Update.BeforeMembers | internal/data/update.go:97 | the delete keeps exactly the stored rows earlier than `last.Time`, in order |
| Update.FromMembers | internal/data/update.go:102-105 | the insert loop takes exactly the fetched rows at or after `last.Time`, in order |
| Update.BeforeAscending | internal/data/update.go:97 | the kept stored rows of an ascending series stay ascending |
| Update.FromAscending | internal/data/update.go:102-105 | the inserted rows of an ascending series stay ascending |
| Update.MergeProperties | internal/data/update.go:94-113 | for ascending inputs the merge is ascending and holds exactly the stored rows before t and the fetched rows from t on |
| Update.OtherCodesUntouched | internal/data/update.go:45-54 | updating a set of codes loses no entry and leaves every other code's bars as they were |
| Update.Store.constructor | internal/data/update.go:128-135 | a store starts with no bars and the given update log |
| Update.Store.UpdateDayKline | internal/data/update.go:59-115 | the code's bars become the merge of the stored and fetched bars at `last.Time`, and the call errs exactly when the fetch does, changing nothing then |
| Update.Store.UpdateDayKlineAll | internal/data/update.go:34-57 | a lookup error returns it; already updated does nothing; otherwise every code is updated and the key refreshed to now, even when some codes failed; the log's 15:00 node is never changed |
| Api.Unwrap | web/src/lib/api.ts:7-15 | a value with both `code` and `data` fields returns its data exactly when `Number(code)` is 200; otherwise it throws `msg`, or the default text when `msg` is falsy; anything else passes through unchanged |
| Api.UnwrapEnvelope | web/src/lib/api.ts:7-15 | a successful envelope hands over its data untouched; a failed one throws its message, or "接口请求失败" when the message is empty |
| Api.RowsOf | web/src/lib/api.ts:27 | an array body is the list; otherwise the first truthy key is taken, an empty list when there is none, and a non-array pick or a nullish body throws a TypeError |
| Api.MapRows | web/src/lib/api.ts:28-34 | `map` succeeds exactly when every row maps; then it has one result per row, in order; otherwise it throws the first failing row's exception |
| Api.ListOf | web/src/lib/api.ts:25-28 | a list response is the unwrapped envelope, then the row list, then the mapped rows, and any step's exception is the result |
| Api.CodeOf | web/src/lib/api.ts:28-34 | a string row is its own code and name; an object row takes `code ?? Code ?? ''` and `name ?? Name ?? code ?? Code ?? ''`; a null row throws |
| Api.GetCodes | web/src/lib/api.ts:24-35 | `getCodes`: the unwrapped `codes`/`Codes` rows, each read by `CodeOf`, in order; a failing envelope gives its error and a null body, a non-array list or a null row throws (the back-end round trip is `Api.GetCodesReadsBackEnd`) |
| Api.CodeReadBack | web/src/lib/api.ts:28-34 | a code entry as the back end encodes it reads back as the same code and name |
| Api.GetCodesReadsBackEnd | web/src/lib/api.ts:24-35 | the code list the back end sends in a successful envelope reads back as the same codes and names, in order |
| Api.NamelessCodeNamedByCode | web/src/lib/api.ts:31-32 | an object row with a code and no name is named after its code |
| Api.Trunc | web/src/lib/api.ts:215 | the truncation toward zero that `new Date` applies to a fractional time value |
| Api.StampOf | web/src/lib/api.ts:214-215 | a number above 1e10 is taken as milliseconds, any other number as seconds times 1000, either outside the representable date range throws a RangeError, and a non-number is its string |
| Api.SecondsAndMillisecondsAgree | web/src/lib/api.ts:233-234 | the same instant sent in seconds or in milliseconds reads as the same instant, for every second count from 1e7 to 1e10 |
| Api.PriceInYuan | web/src/lib/api.ts:237-240 | an integer price in thousandths reads as exactly that many yuan after the division by 1000 and rounding to 4 places |
| Api.AmountOf | web/src/lib/api.ts:242-245 | the amount is the first truthy of `Amount`, `amount`, `Turnover`, `trade_amount`, divided by 1000 to 2 places, and undefined when all are falsy |
| Api.NoTurnoverNoAmount | web/src/lib/api.ts:242-245 | a row with no truthy turnover field has no amount |
| Api.KlineRowOf | web/src/lib/api.ts:232-247 | a K-line row takes each price from its fallback chain divided by 1000 to 4 places, the volume and symbol from theirs (the requested code last), and throws exactly when its time throws or the row is null |
| Api.GetKlines | web/src/lib/api.ts:228-248 | `getKlines`: the unwrapped `items`/`list` rows, each read by `KlineRowOf`, in order; a failing envelope gives its error and a null body, a non-array list or a null row throws |
| Api.CandleRowOf | web/src/lib/api.ts:213-224 | key by key: `Open` wins over `open`, which wins over `o`, and 0 is used when none is set (the same for high, low, close and volume); the symbol goes `Symbol`, `symbol`, `ticker`, `code`, then the requested symbol; values are not scaled; the row throws exactly when it is null or its time throws |
| Api.GetCandles | web/src/lib/api.ts:209-226 | `getCandles`: the unwrapped `items`/`list` rows, each read by `CandleRowOf`, in order; a failing envelope gives its error and a null body, a non-array list or a null row throws (idempotence is `Api.GetCandlesReadsBack`) |
| Api.CandleReadBack | web/src/lib/api.ts:213-224 | a candle in the page's own output shape reads back as itself |
| Api.GetCandlesReadsBack | web/src/lib/api.ts:209-226 | candles in the page's own shape, sent in a successful envelope, read back as the same list whatever symbol was asked for: normalising is idempotent |
| Api.BacktestCall | web/src/lib/api.ts:67-90 | `backtest` returns the unwrapped response itself; it throws the envelope's error, or a TypeError when the response is null, its trade list is not an array, or a trade is null |
| Api.BacktestReadsBackEnd | web/src/lib/api.ts:67-90 | a back-test result the engine produces comes back exactly as sent |
| Api.AllItemOf | web/src/lib/api.ts:119-125 | an item takes `code` and `name` as strings (empty when missing) and `Number` of return, drawdown and sharpe (0 when missing); a null item throws |
| Api.BacktestAll | web/src/lib/api.ts:117-131 | a failing envelope gives its error; a null body or a non-array `items` throws a TypeError; otherwise a report exists exactly when no item is null, its items are the items read one by one, its count is `body.count` when present and otherwise the number of items, and its averages are `Number(avg_return ?? 0)`, `Number(avg_sharpe ?? 0)` and `Number(avg_max_drawdown ?? 0)` |
| Api.ItemReadBack | web/src/lib/api.ts:119-125 | an item the back end sends reads back with the same code, name, return, drawdown and sharpe |
| Api.ItemsReadBack | web/src/lib/api.ts:119-125 | every item the back end sends reads back as sent, in order |
| Api.BacktestAllReadsBackEnd | web/src/lib/api.ts:117-131 | the all-codes report the back end sends reads back with the same averages, count and items |
| Api.ReportOfBody | web/src/lib/api.ts:126-131 | a body carrying every field is read field for field |
| Api.ReportOfFields | web/src/lib/api.ts:126-130 | the averages and count are the body's numbers when they are present |
| Api.OneKey | web/src/lib/api.ts:120-124 | a fallback chain of one present key is that key's value |
| Api.ReportFields | internal/api/model.go:30-36 | the report the back end encodes carries its items, its averages and its count under the keys the client reads |
| Api.CountFallsBackToItems | web/src/lib/api.ts:130 | a report without a count is counted by its items |
| Api.PickOf | web/src/lib/api.ts:176-181 | a screener row takes `symbol ?? ticker ?? code`, `score ?? value ?? 0`, `price ?? last ?? 0`, `signal ?? sig ?? 0`; a null row throws |
| Api.Screener | web/src/lib/api.ts:172-182 | `screener`: the unwrapped `items`/`list` rows, each read by `PickOf`, in order; a failing envelope gives its error and a null body, a non-array list or a null row throws (items as sent are `Api.ScreenerReadsItem`) |
| Api.GridRowOf | web/src/lib/api.ts:200-206 | key by key: `fast` if set, else `fast_period`, else 0; `slow`/`slow_period`; `return`/`ret`/`total_return`; `sharpe`/`Sharpe`; `max_drawdown`/`maxDD`/`drawdown`, each with 0 last; the row throws exactly when it is null |
| Api.Grid | web/src/lib/api.ts:184-207 | `grid`: the unwrapped `items`/`list` rows, each read by `GridRowOf`, in order; a failing envelope gives its error and a null body, a non-array list or a null row throws (idempotence is `Api.GridReadsBack`) |
| Api.GridRowReadBack | web/src/lib/api.ts:200-206 | a grid row in the page's own output shape reads back as itself |
| Api.GridReadsBack | web/src/lib/api.ts:196-207 | grid rows in the page's own shape, sent in a successful envelope, read back as the same list: normalising is idempotent |
| Api.ScreenerReadsItem | web/src/lib/api.ts:176-181 | the screener's own items come through with every field as sent |
| Api.WsScheme | web/src/lib/api.ts:154 | an address shorter than the scheme is unchanged |
| Api.WsSchemeRewrites | web/src/lib/api.ts:154 | `http` becomes `ws` and `https` becomes `wss`, whatever the case of the scheme, and the rest of the address is kept |
| Api.WsBase | web/src/lib/api.ts:3-5 | the client's socket base is `ws://localhost:8080/api` |
| Api.Replace | web/src/lib/api.ts:157-166 | after replacing, every pair named k holds the new value |
| Api.ReplaceSeen | web/src/lib/api.ts:157-166 | once the first pair named k is behind, the later pairs named k are dropped |
| Api.ReplaceFirst | web/src/lib/api.ts:157-166 | with k present, `set(k, v)` leaves exactly one pair named k, holding v |
| Api.SetPairHolds | web/src/lib/api.ts:157-166 | after `set(k, v)` exactly one pair is named k and it holds v; with k absent before, the pair is appended at the end |
| Api.SearchParams.constructor | web/src/lib/api.ts:156 | new search parameters are empty |
| Api.SearchParams.Set | web/src/lib/api.ts:157-166 | `set` replaces the pairs by their `SetPair` update |
| Api.QueryDates | web/src/lib/api.ts:157-159 | the query always holds the strategy, and a date exactly when it is given and non-empty |
| Api.DateHead | web/src/lib/api.ts:157-159 | the first three steps hold the strategy, and each date exactly when given and non-empty |
| Api.OnlyBefore | web/src/lib/api.ts:157-166 | a name missing from the later pairs is found, if at all, in the earlier ones |
| Api.OnlyAfter | web/src/lib/api.ts:157-166 | a name missing from the earlier pairs is found, if at all, in the later ones |
| Api.QueryNumbers | web/src/lib/api.ts:160-166 | each of the seven numbers (cash, size, fee rate, minimum fee, slippage, stop-loss, take-profit) is in the query exactly when it is given, as its string |
| Api.AmountPairs | web/src/lib/api.ts:160-163 | the amount pairs are exactly the given cash, size, fee rate and minimum fee, each under its own name |
| Api.ExitPairs | web/src/lib/api.ts:164-166 | the exit pairs are exactly the given slippage, stop-loss and take-profit, each under its own name |
| Api.BacktestAllWS | web/src/lib/api.ts:153-169 | the socket address is the rewritten base with path `/api/backtest_all/ws` and the query of the request, each name at most once |
| Api.SetHead | web/src/lib/api.ts:157-159 | the strategy and date steps leave the strategy and the non-empty dates, each name once |
| Api.SetAmounts | web/src/lib/api.ts:160-163 | the amount steps append the given amounts, each name once |
| Api.SetExits | web/src/lib/api.ts:164-166 | the exit steps append the given exits, each name once |
| Api.SetStep | web/src/lib/api.ts:157-166 | one guarded `set` of a fresh name appends its pair when the guard holds and keeps the names distinct |
| Js.Field | web/src/lib/api.ts:8 | a property read gives the object's value for the key, and undefined for a missing key or a non-object |
| Js.FirstDefined | web/src/lib/api.ts:31-32 | an `a ?? b ?? … ?? fallback` chain gives the first property that is neither null nor undefined, and the fallback when all are |
| Js.FirstTruthy | web/src/lib/api.ts:27 | an `a \|\| b \|\| … \|\| fallback` chain gives the first truthy property, and the fallback when none is |
| Js.ToNumber | web/src/lib/api.ts:9 | `Number(v)` keeps a number, reads null and the empty array as 0, and gives NaN for undefined, an object or an array of several entries |
| Js.Display | web/src/lib/api.ts:10 | `String(v)` keeps a string and prints undefined and null by name |
| Js.FFixed | web/src/lib/api.ts:237-240 | `Number(x.toFixed(d))` is finite exactly when x is, and then the rounding of x to d places |
| Js.FixedMonotone | web/src/lib/mock.ts:21-24 | rounding with `toFixed` keeps order |
| Js.FixedClose | web/src/lib/mock.ts:21-24 | rounding with `toFixed(d)` moves a number by at most half a unit in the last place |
| Js.FixedExact | web/src/lib/api.ts:237-240 | a multiple of 10^-d is left as it is by `toFixed(d)` |
| Js.Filter | web/src/components/EquityChart.tsx:7 | `filter` keeps exactly the entries that pass, and no more of them than there were |
| Js.Indices | web/src/components/EquityChart.tsx:6 | `a.map((_, i) => i)` is 0, 1, …, n-1 |
| Mock.NextClose | web/src/lib/mock.ts:13-15 | a close is never below 0.1 |
| Mock.PriceBefore | web/src/lib/mock.ts:5-18 | the walk's price before every bar is at least 0.1 |
| Mock.CandlesGrow | web/src/lib/mock.ts:7-28 | one more day appends that day's bar and keeps the earlier bars |
| Mock.MockCandles | web/src/lib/mock.ts:3-30 | the loop pushes exactly the walk's bars, one per day |
| Mock.RawBarBounds | web/src/lib/mock.ts:13-17 | before rounding, every bar's wicks enclose its body, and its open and close are at least 0.1 |
| Mock.CandlesShape | web/src/lib/mock.ts:3-30 | every bar closes at or above 0.1, its high and low enclose open and close, it opens at the previous close (at 50 for `TRENDDOWN` and 10 otherwise on the first day), and its volume lies in [50000, 100000) |
| Mock.VolumeRange | web/src/lib/mock.ts:25 | `Math.floor(50000 + Math.random() * 50000)` lies in [50000, 100000) |
| Mock.DigitsOf | web/src/lib/mock.ts:33 | `String(k)` of a count is a non-empty digit string |
| Mock.DigitsReadBack | web/src/lib/mock.ts:33 | reading the digits of k back gives k |
| Mock.PadStart3 | web/src/lib/mock.ts:33 | `padStart(3, '0')` gives at least three characters and keeps a digit string a digit string |
| Mock.PadStart3Zeros | web/src/lib/mock.ts:33 | padding only puts zeros in front |
| Mock.ZerosReadBack | web/src/lib/mock.ts:33 | leading zeros do not change a number |
| Mock.Name | web/src/lib/mock.ts:33 | every symbol is `SYM` followed by digits |
| Mock.NameReadsBack | web/src/lib/mock.ts:33 | the digits of the i-th symbol read back as i + 1 |
| Mock.PaddedValue | web/src/lib/mock.ts:33 | padding does not change the number a digit string denotes |
| Mock.NameLength | web/src/lib/mock.ts:33 | below 999 entries every symbol is six characters long |
| Mock.NamesDistinct | web/src/lib/mock.ts:33 | no two entries share a symbol |
| Mock.SignalOf | web/src/lib/mock.ts:40-41 | the signal is 1 exactly when the draw exceeds 0.66, -1 exactly when it is below 0.33, and 0 otherwise |
| Mock.Insert | web/src/lib/mock.ts:43 | inserting an entry adds exactly that entry |
| Mock.InsertSorted | web/src/lib/mock.ts:43 | inserting into a list sorted by descending score keeps it sorted |
| Mock.SortByScore | web/src/lib/mock.ts:43 | the stable sort by `b.score - a.score` is sorted by descending score and a permutation of its input |
| Mock.Screener | web/src/lib/mock.ts:32-44 | `mockScreener(n)`: the generated entries sorted best score first, as a permutation (length and ranges are `Mock.ScreenerShape`) |
| Mock.ScreenerShape | web/src/lib/mock.ts:32-44 | the screener gives n entries, best score first, a permutation of the generated entries, each with a signal in {-1, 0, 1} and a price in [10, 100] |
| Mock.PriceRange | web/src/lib/mock.ts:39 | `Number((10 + Math.random() * 90).toFixed(2))` lies in [10, 100] |
| Mock.EquityAfter | web/src/lib/mock.ts:50-56 | the equity walk never goes below 50000 |
| Mock.CashAfter | web/src/lib/mock.ts:51-55 | the cash walk never goes below 20000 |
| Mock.MockBacktest | web/src/lib/mock.ts:46-77 | `mockBacktest` returns the result defined by its draws |
| Mock.Walk | web/src/lib/mock.ts:52-59 | the loop pushes both balances, rounded to cents, once per step |
| Mock.BacktestShape | web/src/lib/mock.ts:46-77 | the result has 120 equity and 120 cash points, equity at least 50000 and cash at least 20000 even after rounding, and the four fixed trades |
| Mock.GainSign | web/src/lib/mock.ts:66-73 | the reported return is not negative when the last balance is at least 100000 and not positive when it is at most 100000 |
| Mock.PointFloors | web/src/lib/mock.ts:55-58 | rounding to cents keeps the floors of the walk |
| Mock.TradesAlternate | web/src/lib/mock.ts:60-65 | the fixed trades alternate buy and sell, starting with a buy, on strictly increasing bars among the 120 |
| EquityChart.At | web/src/components/EquityChart.tsx:8 | `equity[i]` is the value at a bar index and undefined off the curve |
| EquityChart.Points | web/src/components/EquityChart.tsx:7-16 | a side has no more markers than there are trades |
| EquityChart.PointsAreTradesOfSide | web/src/components/EquityChart.tsx:7-16 | every marker of a side comes from a trade of that side and is placed at the equity of its bar, and every trade of the side has its marker |
| EquityChart.Chart | web/src/components/EquityChart.tsx:5-6 | nothing is drawn exactly when the equity curve is empty; otherwise the x axis is the bar indices |
| EquityChart.SeriesIncluded | web/src/components/EquityChart.tsx:24-29 | the equity line comes first, the cash line is drawn exactly when there is cash data, and the buy and sell scatters always close the list |
| ReturnsChart.Base | web/src/components/ReturnsChart.tsx:6 | `equity[0] \|\| 1` is never 0 and is the first value whenever that is not 0 |
| ReturnsChart.ReturnLine | web/src/components/ReturnsChart.tsx:8 | one percentage per equity value, each against the base, rounded to 2 places |
| ReturnsChart.Chart | web/src/components/ReturnsChart.tsx:5-8 | nothing is drawn exactly when the equity curve is empty; otherwise the x axis is the bar indices and the line is the return line |
| ReturnsChart.FirstReturnZero | web/src/components/ReturnsChart.tsx:6-8 | the curve starts at 0% whenever its first value is not 0 |
| ReturnsChart.ReturnsFollowEquity | web/src/components/ReturnsChart.tsx:8 | with a positive base, a higher balance never shows a lower return |
| ReturnsChart.ReturnSign | web/src/components/ReturnsChart.tsx:8 | with a positive base, a balance at or above the base shows at least 0% and one at or below it at most 0% |
| PriceChart.ClosesOf | web/src/components/PriceChart.tsx:9 | one close per candle, in order |
| PriceChart.SmaLine | web/src/components/PriceChart.tsx:15-24 | one entry per close, each the window average of that bar |
| PriceChart.Sma | web/src/components/PriceChart.tsx:15-24 | the running-sum loop of `sma(n)` writes exactly the average line: NaN before the window is full, then the window mean to 4 places |
| PriceChart.SmaWithinWindow | web/src/components/PriceChart.tsx:21 | each average lies between the lowest and highest close of its window, up to rounding to 4 places |
| PriceChart.Squares | web/src/components/PriceChart.tsx:34 | the squares of the closes, one per close |
| PriceChart.Variance | web/src/components/PriceChart.tsx:42 | `Math.max(0, sumsq / n - mean * mean)` is never negative |
| PriceChart.BandLine | web/src/components/PriceChart.tsx:27-46 | one entry per close, each the band of that bar |
| PriceChart.Boll | web/src/components/PriceChart.tsx:25-49 | `boll(n, k)` gives `sma(n)` as its middle line and the upper and lower band lines |
| PriceChart.Bands | web/src/components/PriceChart.tsx:27-47 | the loop of running sums and sums of squares writes exactly the two band lines, NaN until the window is full |
| PriceChart.Slide | web/src/components/PriceChart.tsx:32-39 | taking in close i and, once the window is full, dropping close i - n keeps both sums equal to those of the current window |
| PriceChart.BandAtFromSums | web/src/components/PriceChart.tsx:40-46 | a full window's band entries are the rounded bands of that window's two sums |
| PriceChart.PutBands | web/src/components/PriceChart.tsx:40-46 | entry i of both band arrays becomes the band of the window ending at i once that window is full and stays NaN before, so one more entry of each array is filled and the rest are untouched |
| PriceChart.BandPoint | web/src/components/PriceChart.tsx:41-45 | the body of a full window writes the rounded mean plus and minus k deviations |
| PriceChart.BandsOrdered | web/src/components/PriceChart.tsx:40-46 | wherever the bands are defined, lower band ≤ middle line ≤ upper band |
| PriceChart.BandAroundMean | web/src/components/PriceChart.tsx:41-45 | with a non-negative k the rounded bands enclose the rounded mean |
| PriceChart.BandsDefinedFromWindow | web/src/components/PriceChart.tsx:16-46 | before the first full window all three lines are NaN, from it on all are numbers |
| PriceChart.Kept | web/src/components/PriceChart.tsx:50-51 | the kept trades are exactly those of the side on a bar of the chart |
| PriceChart.Points | web/src/components/PriceChart.tsx:50-63 | one scatter point per kept trade |
| PriceChart.LineIndices | web/src/components/PriceChart.tsx:64-73 | one mark line per kept trade |
| PriceChart.PointsAreTradesInRange | web/src/components/PriceChart.tsx:50-63 | a point is drawn exactly for each trade of the side on a bar of the chart, at that bar's close |
| PriceChart.MarkLinesShown | web/src/components/PriceChart.tsx:81 | every mark line sits on a bar and belongs to a trade of a shown side; with neither side shown there are none |
| PriceChart.LineIndicesInRange | web/src/components/PriceChart.tsx:64-73 | every mark line of a side sits on a bar of the chart and comes from a trade of that side |
| PriceChart.VolumeBars | web/src/components/PriceChart.tsx:10-14 | one bar per candle holding `Number(Volume ?? 0)`, red exactly when the close is at or above the open and green otherwise |
| PriceChart.LabelReadsBack | web/src/components/PriceChart.tsx:100-104 | a 万/亿 label scaled back by its unit is within half a hundredth of the unit of the number it stands for |
| PriceChart.LabelMantissa | web/src/components/PriceChart.tsx:101-102 | a 万 label shows 1.00 to 10000.00 and a 亿 label at least 1.00 |
| PriceChart.StartIndex | web/src/components/PriceChart.tsx:92 | the zoom's start index is never negative |
| PriceChart.WindowShowsLastBars | web/src/components/PriceChart.tsx:92 | a window of w bars opens on the last min(len, w) bars; without a window count the zoom opens on every bar |
| PriceChart.Ohlc | web/src/components/PriceChart.tsx:8 | one `[open, close, low, high]` entry per candle |
| PriceChart.FixedSeries | web/src/components/PriceChart.tsx:81-86 | six series are always drawn: the candles, two averages and three Bollinger lines |
| PriceChart.Extras | web/src/components/PriceChart.tsx:88-90 | the scatter sides and volume bars hold no return line |
| PriceChart.Chart | web/src/components/PriceChart.tsx:6-148 | nothing is drawn exactly when there are no candles; otherwise the option is the one built from the computed lines |
| PriceChart.BollingerAlwaysDrawn | web/src/components/PriceChart.tsx:79-86 | the Bollinger lines are drawn with period 20 and k 2 whatever `showBollinger` says, and the legend starts with all three switched off |
| PriceChart.ReturnLineDrawn | web/src/components/PriceChart.tsx:74-87 | the return line is drawn exactly when there is an equity curve and returns are shown, and it is the percent-return line of that curve |
| ScreenerPage.MarkOf | web/src/pages/Screener.tsx:75 | a marker read from a trade throws exactly when the trade is null |
| ScreenerPage.MarksOf | web/src/pages/Screener.tsx:75 | `bt.trades.map(...)` succeeds exactly when `bt` is an object whose trades are an array without null entries, and then gives one marker per trade with its index and side |
| ScreenerPage.EntryFor | web/src/pages/Screener.tsx:59-82 | in mock mode a symbol gets the mock chart; in real mode it gets the fetched rows and markers, or the mock chart when a fetch or the marker read throws |
| ScreenerPage.RealLoadKeepsFetched | web/src/pages/Screener.tsx:64-76 | in real mode a symbol whose fetches all succeed gets exactly what they returned |
| ScreenerPage.LoadedStep | web/src/pages/Screener.tsx:56-83 | loading one more item extends the load of the items before it |
| ScreenerPage.LoadedAddsOnly | web/src/pages/Screener.tsx:54-85 | loading only adds: every cached chart stays, every item gets a chart, a new chart is that item's, and nothing else is added |
| ScreenerPage.BatchCount | web/src/pages/Screener.tsx:55-57 | batches of six cover n items in exactly as many rounds as needed |
| ScreenerPage.Commits | web/src/pages/Screener.tsx:84-85 | after batch b the committed cache is the load of the first 6(b+1) items, capped at the list |
| ScreenerPage.Page.constructor | web/src/pages/Screener.tsx:9-15 | the page starts with no picks, no charts, 60 visible, nothing loading and mock mode on; the scroll handler registered at mount captured the empty cache |
| ScreenerPage.Page.SetUseMock | web/src/pages/Screener.tsx:145 | the mode switch sets the mode, and a change of mode registers the scroll handler again with the current charts, which keeps the handler's charts a part of the cache |
| ScreenerPage.Page.LoadChartsFor | web/src/pages/Screener.tsx:53-87 | starting from the charts the call saw, each batch of six is loaded and committed; the final cache is the load of all items, and with no items nothing is committed |
| ScreenerPage.Page.LoadBatch | web/src/pages/Screener.tsx:57-84 | one batch extends the load by its items |
| ScreenerPage.Page.LoadEntry | web/src/pages/Screener.tsx:58-83 | one item is skipped when cached and otherwise gets its entry |
| ScreenerPage.Page.MockChart | web/src/pages/Screener.tsx:61-63 | the mock chart is the generated candles with the mock back test's trades |
| ScreenerPage.Page.OnRun | web/src/pages/Screener.tsx:31-51 | a run lists the mock picks or the screened rows, shows 60 and loads the first 60 into the current cache; a screener call that throws leaves list, count and charts unchanged and shows its message or "选股失败"; loading ends in every case; the scroll handler is registered again with the charts before the load in real mode (the render comes at the first fetch) and with the loaded charts in mock mode (the load awaits only settled promises); the handler's charts stay a part of the cache |
| ScreenerPage.Page.OnScroll | web/src/pages/Screener.tsx:54-103 | nothing happens unless the page is near the bottom, no load runs and there is data; then the next up to 60 picks are loaded from the charts the handler captured, the count moves to their end, never past the list, the cache holds exactly the captured charts and the slice's (so a chart committed since the handler was registered is dropped), and a new count registers the handler again with that cache |
| ScreenerPage.Symbols | web/src/lib/mock.ts:42-43 | the symbols of the picks, in their sorted order |
| ScreenerPage.Keys | web/src/pages/Screener.tsx:59 | the cache keys of screened rows are their symbols as property names |
| ScreenerPage.ScrollKeepsCharts | web/src/pages/Screener.tsx:97 | a load from the current cache keeps every chart already there and adds one for each symbol of the slice, and only those |
| ScreenerPage.StaleSnapshotDropsChart | web/src/pages/Screener.tsx:54-103 | as written, a handler that captured an empty cache drops a chart for "A" loaded by a run when the first scroll loads "B" |
| BacktestPage.FeeRate | web/src/pages/Backtest.tsx:66 | the fee rate sent is the form's number of basis points divided by 10000, and undefined when the form holds no number |
| BacktestPage.NumberOf | web/src/lib/api.ts:160-166 | a socket parameter is present exactly when the form value is a number, and then is that number |
| BacktestPage.RunRequest | web/src/pages/Backtest.tsx:60-71 | the streamed run asks for the form's strategy, dates and numbers, with the fee rate as a fraction |
| BacktestPage.SymbolRequest | web/src/pages/Backtest.tsx:107-119 | the single-code request carries the chosen code, the form's strategy and dates, and the fee rate as a fraction |
| Js.ErrorText | web/src/pages/Backtest.tsx:99 | `e?.message \|\| fallback` is the error's message when it has one and the fallback otherwise, never empty with a non-empty fallback |
| BacktestPage.ReadFrame | web/src/pages/Backtest.tsx:77-87 | a frame is an item exactly when its type is "item" and its item is truthy, and a summary exactly when its type is "summary", which gives the averages under their wire names; a null frame is ignored |
| BacktestPage.Classify | web/src/pages/Backtest.tsx:75-88 | text that does not parse is ignored; otherwise the frame is what its parsed value reads as |
| BacktestPage.Start | web/src/pages/Backtest.tsx:53-72 | a run closes and forgets the previous socket, clears the list and the averages, and opens socket number n with loading on; when opening throws, no socket is referenced and loading is off |
| BacktestPage.StartKeepsTidy | web/src/pages/Backtest.tsx:53-72 | starting a run keeps at most one socket referenced, and a replaced socket is closed |
| BacktestPage.OpenSocketIsCurrent | web/src/pages/Backtest.tsx:53-86 | a socket that is still open is the one the page references |
| BacktestPage.StepKeepsTidy | web/src/pages/Backtest.tsx:74-89 | a frame from an open socket keeps that bookkeeping |
| BacktestPage.ReplacedSocketCloseEndsLoading | web/src/pages/Backtest.tsx:53-96 | a replaced socket still fires its close event, which clears loading while the new run is streaming |
| BacktestPage.FeedLast | web/src/pages/Backtest.tsx:74-89 | frames are handled one after another |
| BacktestPage.ItemFrameReadsBack | internal/api/route.go:208 | an item frame from the route reads back as that item |
| BacktestPage.SummaryFrameReadsBack | internal/api/route.go:218-224 | a summary frame from the route reads back as its three averages |
| BacktestPage.Received | web/src/pages/Backtest.tsx:76 | one frame read per message received |
| BacktestPage.ReceivedLast | web/src/pages/Backtest.tsx:74-89 | a further message adds its reading at the end |
| BacktestPage.FramesSendable | internal/api/route.go:208 | every item frame can be encoded when every Sharpe ratio is finite |
| BacktestPage.FeedAppends | web/src/pages/Backtest.tsx:77-81 | item frames append their rows to the list in order and change nothing else |
| BacktestPage.ReceivedItems | internal/api/route.go:208 | the route's item frames read back as the items it encodes |
| BacktestPage.FeedItems | web/src/pages/Backtest.tsx:77-81 | the route's item frames append its items, as encoded, in order |
| BacktestPage.ItemRowsLast | internal/api/route.go:208 | one more item adds its row at the end |
| BacktestPage.FeedRun | web/src/pages/Backtest.tsx:74-89 | item frames then a summary leave the items listed, the averages shown, loading off, the socket closed and no socket referenced |
| BacktestPage.RunReadsStream | web/src/pages/Backtest.tsx:50-101 | a run fed the route's whole stream lists every item in order, shows the route's averages, ends loading and closes its socket |
| BacktestPage.TradeRowOf | web/src/pages/Backtest.tsx:123 | a trade row keeps index, side and price, and throws exactly on a null trade |
| BacktestPage.TradesOf | web/src/pages/Backtest.tsx:123 | `res.trades.map(...)` succeeds exactly when the trades are an array without null entries, and then keeps each trade's index, side and price in order |
| BacktestPage.Page.constructor | web/src/pages/Backtest.tsx:9-26 | the page starts with nothing listed or loading, no socket, empty series and the index "SSE" |
| BacktestPage.Page.OnRun | web/src/pages/Backtest.tsx:50-101 | a run moves the view by `Start` and keeps its invariant; it sends the request built from the form, or, when opening throws, shows the error's message or "回测失败" |
| BacktestPage.Page.OnMessage | web/src/pages/Backtest.tsx:74-89 | a message on an open socket moves the view by one step on its reading and keeps the invariant |
| BacktestPage.Page.OnError | web/src/pages/Backtest.tsx:90-93 | an error ends loading and shows "回测WS连接失败" |
| BacktestPage.Page.OnClose | web/src/pages/Backtest.tsx:94-96 | a close ends loading |
| BacktestPage.Page.OnRunSymbol | web/src/pages/Backtest.tsx:103-145 | each step sets its series only when it and every step before it succeeded; the first throw shows its message or "个股回测失败" and stops; when the back test throws or returns null, the cash and the index candles keep their old values too, and when reading the trades throws the index candles are kept; a failing index fetch only empties the index candles; loading ends in every case |
| BacktestPage.Page.LoadCandles | web/src/pages/Backtest.tsx:124-139 | the code's klines are set, or their error shown; the index klines then follow, or none when they throw |
| BacktestPage.Page.OnIndexChange | web/src/pages/Backtest.tsx:341-354 | the index becomes the chosen one, with its klines or none when the fetch throws |
| BacktestPage.IndexRows | web/src/pages/Backtest.tsx:130-139 | the index candles are the rows fetched, or none when the fetch throws |

## Left out

- HTTP, WebSocket and database plumbing is not modelled: the router, request parsing, `c.Succ`/`c.Err`, `conn.WriteJSON`, axios, the browser `WebSocket`, SQLite and xorm sessions. Handlers take their parsed request and return a result or an error value. Every fetch is a function from request to result or exception.
- `internal/data/kline.go` is not part of this model. Reading the stored series of a code in a date range is the `Market.klines` parameter.
- `internal/api/model.go` appears only as the datatypes `Route.BacktestItem` and `Route.BacktestAllResp`, and as the JSON keys the encoders use.
- `cmd/server/main.go`, `internal/common/common.go`, `web/src/main.tsx`, `web/src/pages/Market.tsx` and `web/src/pages/Strategy.tsx` are not part of this model. They are process start-up, routing and form or editor UI.
- The cron schedule that triggers the daily refresh is not modelled; only the freshness rule and the refresh itself are.
- Update.Fresh: times (now, the 15:00 node and a record's `updateTime`) are whole seconds, while `time.Time` compares to the nanosecond, so two instants within one second of the node are not told apart.
- Concurrency is modelled sequentially, in code order:
  - the goroutine fan-out of `updateDayKlineAll`;
  - `Promise.all` inside a screener batch;
  - overlapping page events.
  For that last point, the scroll handler also reads `loadingMore` from a stale closure. Two scroll events arriving while a load runs can both start a load. The model runs each handler to completion before the next one starts.
- React's render scheduling is not modelled. The model fixes when the scroll handler is registered again: at the first render after the list, the count or the mode changes, which a real-mode load reaches at its first fetch and a mock-mode load only after it has finished (React 18 batches updates made after an `await`).
- Update.Store.UpdateDayKline: only the fetch error is modelled. Errors from opening the file, `Sync2`, reading the last row, the delete and the inserts are not. A failed insert in the source would roll back the session; the model has no such failure.
- Update.Store.UpdateDayKlineAll: the error that the final refresh of the record can return is not modelled. The refresh always succeeds.
- The last stored row that `updateDayKline` reads with `db.Get(last)`, without an order, is taken to be the first stored row. This is what SQLite returns for a table filled in time order. The prefixing of the code (`AddPrefix`) and the file naming are not modelled.
- Floating point: float64 and JavaScript numbers are `real`. Sums and quotients are exact and never round. NaN and the infinities are the single value `NotFinite`, produced only where a division or square root can produce them.
- `toFixed(d)` is exact decimal rounding, half away from zero, of the real value. It does not reproduce the binary representation effects of IEEE doubles (`(1.005).toFixed(2)` is `"1.00"` in JavaScript).
- `math.Sqrt` and `Math.sqrt` are the parameter `sqrt`. The only facts used about it are that it is 0 at 0 and positive above 0.
- Api.StampOf: the ISO text that `toISOString` produces is left abstract. A time is the integer millisecond instant it denotes.
- Route and Api round trips require a finite Sharpe ratio. Go's JSON encoder refuses NaN and the infinities, so a report holding a non-finite Sharpe ratio is never sent. That failure path of the encoder is not modelled.
- `JSON.parse`, `String(number)` and the text of built-in error messages are the parameters `parse`, `show`/`numText` and `builtin`.
- `Math.random`, the clock (`time.Now`, dayjs) and date formatting are parameters. The mock generators take their draws as a function from draw index to [0, 1).
- Screener.Run and the route handlers require positive SMA windows: an SMA strategy with a non-positive window has nil averages, and indexing them panics in the source. The model makes positive windows a precondition whenever there are bars.
- Screener.Run requires positive closes. A zero close makes the source divide by zero: as written, Go's integer division panics.
- The pages' mount effects are not modelled. These load the strategy and code lists, with fallback lists when that fails, and fill the form's initial values. `getStrategies` in `api.ts` is therefore not modelled either.
- The grid search handler, the CSV export and the table rendering of the pages are not modelled.
- The form's `validateFields`/`getFieldsValue` are not modelled. The form's values are the parameter `Form` or the strategy name.
- Chart layout is not modelled: ECharts options other than the series data, the volume colours, the tooltip's 万/亿 labels and the zoom start. EquityChart's trade `price` is carried in `EquityChart.Trade` but never drawn.
- The unused normalised locals of `backtest` in `api.ts`, such as the lower-cased side and the `?? 0` defaults, have no effect on the result. They appear only as the TypeErrors their evaluation can throw.

## Findings

The operations themselves (`Screener.Run`, `ScreenerPage.Page.OnScroll`) follow the code as written; each corrected member states what the authors evidently meant, next to it.

| source | as written | input that shows it | evidently intended | confidence | as-written member | corrected member |
|---|---|---|---|---|---|---|
| internal/screener/screener.go:53-55 | the move of a bar is `(Close - prev) / prev` on the integer price type (thousandths of a yuan), so the quotient truncates toward zero before `Float64()` | closes 10.000 and 10.500 give a score of 0, and every move of less than 100% either way contributes 0 | the simple return 0.05, computed in floating point | not executed; depends on the price type being an integer type, which the tdx package defines outside the source | Screener.ScoreAsWrittenCounterexample | Screener.MovesOfRisingSeries |
| web/src/pages/Screener.tsx:54-103 | the scroll handler's effect depends on `visibleCount`, `data` and `useMock` but not on `charts`, so `loadChartsFor` starts from the `charts` captured when the handler was registered | a run sets the list, and its load adds a chart for "A" to a cache that the handler captured as `{}`; the first scroll then loads "B" from `{}` and commits a cache without "A" | a scroll adds charts to the current cache and never drops one | not executed | ScreenerPage.StaleSnapshotDropsChart | ScreenerPage.ScrollKeepsCharts |
