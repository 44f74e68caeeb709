# Crypto back-test core in Dafny

This project models the deterministic core of a C++ library for crypto market
data and strategy back-testing. It covers:

- **Common types**: timeframe names and durations, error-code texts, the `Result`
  wrapper and the default OHLCV bar.
- **Indicators**: the sliding-window MA, EMA, MACD and Wilder-smoothed RSI, each
  behind the shared argument check, plus the bar-field extractors.
- **Ledger**: the strategy base class, with a capital, an initial capital, one
  position and a trade log.
- **MA-cross strategy**: a bounded close history, two-slot fast and slow MA
  buffers, cross detection and the signal filter that suppresses repeats.
- **Back-test engine**: the one-pass bar loop, BUY and SELL fills with slippage
  and commission, the equity and timestamp curves, and the trade counters.
- **Performance analyzer**: returns, the drawdown curve, maximum drawdown, and the
  cumulative, annualised, Calmar, Sharpe and Sortino figures. Also volatility and
  downside deviation, the profit/loss ratio, win and loss streaks, BUY→SELL
  holding periods and trade frequency.
- **Data cleaner**: four cleaning rules (price validity, OHLC relation, price
  jump, volume anomaly), single and batch cleaning, detectors, de-duplication and
  `fill_missing`.
- **Normalizer**: symbol rewriting, timestamp unit conversion, side parsing,
  timeframe parsing and bar/tick/order-book validation.

The model has one module per source file:

| module | file |
|---|---|
| `Types` | `types.dfy` |
| `Numeric` | `numeric.dfy` (division with an explicit zero-divisor case) |
| `Indicators` | `indicators.dfy` |
| `Strategy` | `strategy_base.dfy` |
| `MaCross` | `ma_cross_strategy.dfy` |
| `Backtest` | `backtest_engine.dfy` |
| `Performance` | `performance_analyzer.dfy` |
| `Cleaners` | `data_cleaner.dfy` |
| `Normalizer` | `data_normalizer.dfy` |

`double` is modelled as exact `real`, and `int64_t` timestamps as unbounded `int`.

Code that changes state step by step is imperative Dafny:

- The indicators' accumulation loops and the analyzer's loops are `method`s with
  loop invariants.
- Each such method is proved equal to a pure function. The properties are lemmas
  about that function.
- `StrategyBase`, `MACrossStrategy`, `BacktestEngine` and `DataCleaner` are
  classes with the source's fields.
- Each class method is proved to move the object's state, read as a value
  (`Ledger`, `MaState`, `Sim`, `seq<Rule>`), exactly as a pure transition function
  does (`Open`, `Close`, `BarStep`, `SignalStep`, `Step`, `CleanSpec` …).
- The engine's `run` is proved equal to `RunSpec`, a fold of `Step` over the bars.
  Lemmas about that fold give:
  - the shape of the curves;
  - the growth of the trade log and the counters;
  - the strict BUY/SELL alternation of the recorded trades.

`MACrossStrategy` derives from `StrategyBase` in the source. Here it holds its
base object in a field (`base`), and the engine reaches the ledger through it.

The source's exceptions are data:

- `std::invalid_argument` from the indicators becomes the `Outcome` value
  `Thrown(error)`.
- A rule's "keep or drop" answer is the first component of `ApplyRule`'s result.

## Model

| member | source | states |
|---|---|---|
| Types.DefaultOhlcv | cpp/include/common/types.h:71-74 | a default bar has zero timestamp, trade count, prices and volumes, empty symbol and exchange, timeframe MINUTE_1 and quality GOOD |
| Types.TimeframeToString | cpp/include/common/types.h:131-161 | every timeframe's name is non-empty and parses back to the same timeframe (round trip with `string_to_timeframe`) |
| Types.StringToTimeframe | cpp/include/common/types.h:148-161 | a string that is not one of the eleven names parses to MINUTE_1 |
| Types.NameParsesToItself | cpp/include/common/types.h:131-161 | each recognised name is the canonical name of the timeframe it parses to (the other direction of the round trip) |
| Types.TimeframeNamesCaseSensitive | cpp/include/common/types.h:148-160 | matching is case-sensitive: "1m" is MINUTE_1, "1M" is MONTH_1, while "1H" and "" fall back to MINUTE_1 |
| Types.TimeframeToMilliseconds | cpp/include/common/types.h:164-177 | the duration is 0 exactly for TICK and MONTH_1; SECOND_1 is 1000 ms and WEEK_1 is 604800000 ms |
| Types.MillisecondsIncreasing | cpp/include/common/types.h:164-177 | from SECOND_1 to WEEK_1 the durations are positive and strictly increasing in timeframe order |
| Types.ErrorCodeToString | cpp/include/common/types.h:191-204 | every error code has a non-empty text |
| Types.ErrorCodeTextsDistinct | cpp/include/common/types.h:191-204 | different error codes have different texts |
| Types.DefaultResult | cpp/include/common/types.h:213 | a default result is a failure with UNKNOWN_ERROR and an empty message |
| Types.Ok | cpp/include/common/types.h:215-222 | success with code SUCCESS, an empty message and the given data |
| Types.Err | cpp/include/common/types.h:225-231 | failure with the given code; the message is the given one, or the code's text when the given one is empty, so it is never empty |
| Numeric.Div | cpp/src/backtest/backtest_engine.cpp:82 | a non-zero divisor gives the exact quotient (q·b = a); a zero divisor, which the source never guards against, gives 0 |
| Indicators.ValidateParams | cpp/src/indicators/technical_indicators.cpp:10-28 | passes iff 0 < period ≤ size; otherwise it fails with empty data, then a non-positive period, then a too-short series, in that order; only the last error carries the indicator name, size and period |
| Indicators.CalculateMa | cpp/src/indicators/technical_indicators.cpp:31-51 | a failed check is thrown unchanged; otherwise the result has size − period + 1 values and value k is the mean of prices[k .. k + period) |
| Indicators.MaOfConstant | cpp/src/indicators/technical_indicators.cpp:40-49 | on a constant series every window mean is that constant |
| Indicators.MeanOfConstant | cpp/src/indicators/technical_indicators.cpp:40-49 | the mean of a constant non-empty series is the constant |
| Indicators.MaDocExample | cpp/include/indicators/technical_indicators.h:25-27 | MA(3) of [100, 102, 104, 106, 108] is [102, 104, 106] |
| Indicators.CalculateEma | cpp/src/indicators/technical_indicators.cpp:64-88 | a failed check is thrown unchanged; otherwise the result has size − period + 1 values and value k is `EmaAt(prices, period, k)`: the mean of the first `period` prices, then α·price + (1 − α)·previous with α = 2/(period + 1) |
| Indicators.PrefixSum | cpp/src/indicators/technical_indicators.cpp:75-78 | the seed loop's sum is the sum of the first n prices |
| Indicators.EmaSeries | cpp/src/indicators/technical_indicators.cpp:79-86 | from the seed, the smoothing loop produces exactly the `EmaAt` values, one per price from index period − 1 on |
| Indicators.EmaPeriodOne | cpp/src/indicators/technical_indicators.cpp:72-86 | with period 1 (α = 1) the EMA reproduces the input |
| Indicators.EmaOfConstant | cpp/src/indicators/technical_indicators.cpp:72-86 | on a constant series every EMA value is that constant |
| Indicators.CalculateMacd | cpp/src/indicators/technical_indicators.cpp:93-128 | validation is against the slow period, then the fast EMA's own check; past both, it throws exactly when the signal period is 0 (the EMA of dif rejects it); on success 0 < fast ≤ slow ≤ size, dif has size − slow + 1 values with dif[i] = fastEma[i + slow − fast] − slowEma[i]; dea is empty when dif is shorter than the signal period (or that period is negative), otherwise the EMA of dif; histogram[i] = dif[i + signal − 1] − dea[i] and has dea's length |
| Indicators.AlignedDifference | cpp/src/indicators/technical_indicators.cpp:109-113 | the aligned difference has the shorter series' length and entry i is longer[i − offset] − shorter[i] |
| Indicators.Gain | cpp/src/indicators/technical_indicators.cpp:146 | a gain is non-negative and positive iff the change is |
| Indicators.Loss | cpp/src/indicators/technical_indicators.cpp:147 | a loss is non-negative and positive iff the change is negative |
| Indicators.Gains | cpp/src/indicators/technical_indicators.cpp:144-148 | one non-negative gain per consecutive pair of prices |
| Indicators.Losses | cpp/src/indicators/technical_indicators.cpp:144-148 | one non-negative loss per consecutive pair of prices |
| Indicators.PriceChanges | cpp/src/indicators/technical_indicators.cpp:144-148 | the loop builds exactly `Gains` and `Losses` |
| Indicators.SeedAverage | cpp/src/indicators/technical_indicators.cpp:151-159 | the initial average is the first `Smoothed` value, the mean of the first `period` entries |
| Indicators.Smoothed | cpp/src/indicators/technical_indicators.cpp:154-169 | every Wilder-smoothed average of non-negative entries is non-negative |
| Indicators.WilderStep | cpp/src/indicators/technical_indicators.cpp:168-169 | one smoothing step (avg·(p − 1) + x)/p keeps a non-negative average non-negative |
| Indicators.SumNonNegative | cpp/src/indicators/technical_indicators.cpp:154-157 | a sum of non-negative entries is non-negative |
| Indicators.RsiValue | cpp/src/indicators/technical_indicators.cpp:162-163 | from non-negative averages the RSI lies in [0, 100); with a zero average loss it is 100 − 100/101, not 100 |
| Indicators.WilderRsi | cpp/src/indicators/technical_indicators.cpp:162-174 | the loop yields one RSI per window, value k being `RsiValue` of the k-th smoothed gain and loss |
| Indicators.CalculateRsi | cpp/src/indicators/technical_indicators.cpp:132-177 | validation is against period + 1; on success there are size − period values, each the RSI of the smoothed gains and losses and each in [0, 100) |
| Indicators.ExtractClosePrices | cpp/src/indicators/technical_indicators.cpp:181-191 | one value per bar, in order, and it is the bar's open price |
| Indicators.ExtractHighPrices | cpp/src/indicators/technical_indicators.cpp:194-205 | one high per bar, in order |
| Indicators.ExtractLowPrices | cpp/src/indicators/technical_indicators.cpp:207-218 | one low per bar, in order |
| Indicators.ExtractVolumes | cpp/src/indicators/technical_indicators.cpp:220-231 | one volume per bar, in order |
| Indicators.CalculateMaFromOhlcv | cpp/src/indicators/technical_indicators.cpp:53-61 | throws iff the period is not in 1‥size, with the error `validate_params` gives the open-price series; otherwise value k is the mean of the open prices of bars k .. k + period |
| Strategy.DefaultPosition | cpp/include/strategy/strategy_base.h:24-29 | a default position has every field zero or empty and holds nothing |
| Strategy.DefaultTrade | cpp/include/strategy/strategy_base.h:40 | a default trade has signal NONE and zero timestamp, price, quantity and P&L |
| Strategy.Equity | cpp/src/strategy/strategy_base.cpp:59-65 | without a position the equity is the capital |
| Strategy.TotalReturn | cpp/src/strategy/strategy_base.cpp:68-71 | 0 for a zero initial capital, else (equity − initial)·100/initial; with a positive initial capital it is positive iff the equity exceeds it |
| Strategy.Initialized | cpp/src/strategy/strategy_base.cpp:9-12 | `on_init(c)` sets capital and initial capital to c and keeps the position and the trades; from flat, equity is c and the return 0 |
| Strategy.Open | cpp/src/strategy/strategy_base.cpp:15-36 | a no-op while holding; otherwise the position is the given symbol, quantity and price with zero unrealized P&L, and capital falls by quantity·price |
| Strategy.OpenedIsHeld | cpp/include/strategy/strategy_base.h:27-29 | after an open from flat a position is held exactly when the quantity is non-zero, so a negative quantity counts as a position and a quantity of 0 leaves the ledger flat |
| Strategy.Close | cpp/src/strategy/strategy_base.cpp:39-56 | while flat it returns 0 and changes nothing; otherwise it returns (price − avg)·qty, adds price·qty to capital, zeroes quantity, prices and unrealized P&L and keeps the symbol; afterwards nothing is held |
| Strategy.MarkPrice | cpp/src/strategy/strategy_base.cpp:74-79 | the current price is always set; unrealized P&L is recomputed only while holding; nothing else changes |
| Strategy.WithTrade | cpp/src/strategy/strategy_base.cpp:89-91 | the trade is appended and nothing else changes |
| Strategy.OpenPreservesEquity | cpp/src/strategy/strategy_base.cpp:22-35 | opening a position leaves the equity unchanged |
| Strategy.CloseAtMarkPreservesEquity | cpp/src/strategy/strategy_base.cpp:46-55 | closing at the marked price leaves the equity unchanged |
| Strategy.OpenCloseRoundTrip | cpp/src/strategy/strategy_base.cpp:35 | open then close: capital afterwards is capital before plus the returned P&L (sell − buy)·qty, and the position is closed |
| Strategy.MarkedEquityIsCostPlusUnrealized | cpp/src/strategy/strategy_base.cpp:59-79 | after opening and marking, the equity is the capital before plus the unrealized P&L |
| Strategy.StrategyBase.constructor | cpp/include/strategy/strategy_base.h:68-72 | a fresh object holds the default position and no trades; capital is set later by `on_init` |
| Strategy.StrategyBase.OnInit | cpp/src/strategy/strategy_base.cpp:9-12 | the new state is `Initialized` of the old one |
| Strategy.StrategyBase.OpenPosition | cpp/src/strategy/strategy_base.cpp:15-36 | the new state is `Open` of the old one |
| Strategy.StrategyBase.ClosePosition | cpp/src/strategy/strategy_base.cpp:39-56 | the new state and the returned P&L are `Close` of the old state |
| Strategy.StrategyBase.UpdatePositionPrice | cpp/src/strategy/strategy_base.cpp:74-79 | the new state is `MarkPrice` of the old one |
| Strategy.StrategyBase.AddTrade | cpp/src/strategy/strategy_base.cpp:89-91 | the new state is `WithTrade` of the old one |
| Strategy.StrategyBase.GetTotalEquity | cpp/src/strategy/strategy_base.cpp:59-65 | returns `Equity` of the state |
| Strategy.StrategyBase.GetTotalReturn | cpp/src/strategy/strategy_base.cpp:68-71 | returns `TotalReturn` of the state |
| MaCross.DefaultMaConfig | cpp/include/strategy/ma_cross_strategy.h:16 | the default configuration is MA5 over MA20 with position size 0.5 |
| MaCross.InitialMaState | cpp/src/strategy/ma_cross_strategy.cpp:27-32 | a new strategy has empty history and MA buffers, last signal NONE and a default current bar |
| MaCross.PushHistory | cpp/src/strategy/ma_cross_strategy.cpp:11-16 | the close is appended as the newest entry, and a history within the capacity stays within it |
| MaCross.Keep2 | cpp/src/strategy/ma_cross_strategy.cpp:52-66 | a buffer of at most two entries stays at most two, the new value is last, and the previous newest value moves to the front |
| MaCross.UpdatedAverages | cpp/src/strategy/ma_cross_strategy.cpp:47-68 | each buffer gains the mean of the latest `period` closes only once the history holds that many; history, signal and bar are untouched; both buffers stay at two entries at most |
| MaCross.BarStep | cpp/src/strategy/ma_cross_strategy.cpp:6-25 | the bar becomes current, its close is pushed into the capped history, the MA buffers are updated, the signal is kept; the ledger is marked to the close only while holding |
| MaCross.Cross | cpp/src/strategy/ma_cross_strategy.cpp:70-90 | never HOLD; NONE unless both buffers hold two values; BUY iff fast ≤ slow before and fast > slow now; SELL iff fast ≥ slow before and fast < slow now |
| MaCross.SignalStep | cpp/src/strategy/ma_cross_strategy.cpp:92-112 | NONE while the history is shorter than the slow period; never BUY while holding nor SELL while flat; an emitted BUY or SELL differs from the last signal and becomes it; otherwise the state is unchanged; a non-HOLD answer is the cross |
| MaCross.NoCrossReporting | cpp/src/strategy/ma_cross_strategy.cpp:105-111 | without a cross the answer is HOLD until the first BUY or SELL was emitted, and NONE afterwards |
| MaCross.HistoryIsNewestCloses | cpp/src/strategy/ma_cross_strategy.cpp:11-16 | after any sequence of bars from an empty history, the history is exactly the newest `slow_period + 10` closes |
| MaCross.PushNewest | cpp/src/strategy/ma_cross_strategy.cpp:11-16 | pushing onto the newest-entries window equals taking the newest entries of the extended list |
| MaCross.Closes | cpp/src/strategy/ma_cross_strategy.cpp:11 | one close per bar, in order |
| MaCross.LastOrZero | cpp/src/strategy/ma_cross_strategy.cpp:38-44 | 0 for an empty buffer, else its last value |
| MaCross.MaCrossStrategy.constructor | cpp/src/strategy/ma_cross_strategy.cpp:27-32 | the strategy starts in `InitialMaState` with the given configuration and a fresh flat ledger |
| MaCross.MaCrossStrategy.GetName | cpp/src/strategy/ma_cross_strategy.cpp:34-36 | the strategy's name is the constant "MA Cross Strategy" |
| MaCross.MaCrossStrategy.GetFastMa | cpp/src/strategy/ma_cross_strategy.cpp:38-40 | returns `LastOrZero` of the fast buffer |
| MaCross.MaCrossStrategy.GetSlowMa | cpp/src/strategy/ma_cross_strategy.cpp:42-44 | returns `LastOrZero` of the slow buffer |
| MaCross.MaCrossStrategy.OnBar | cpp/src/strategy/ma_cross_strategy.cpp:6-25 | the strategy and ledger state move by `BarStep`, and the buffers stay bounded |
| MaCross.MaCrossStrategy.UpdateMa | cpp/src/strategy/ma_cross_strategy.cpp:47-68 | the state moves by `UpdatedAverages` |
| MaCross.MaCrossStrategy.PushAverage | cpp/src/strategy/ma_cross_strategy.cpp:52-58 | a buffer gains the latest mean, keeping two entries, exactly when enough closes exist |
| MaCross.MaCrossStrategy.DetectCross | cpp/src/strategy/ma_cross_strategy.cpp:70-90 | returns `Cross` of the two buffers |
| MaCross.MaCrossStrategy.GenerateSignal | cpp/src/strategy/ma_cross_strategy.cpp:92-112 | the signal and the new state are `SignalStep` of the old state and whether a position is held |
| Backtest.DefaultBacktestConfig | cpp/include/backtest/backtest_engine.h:16-20 | the default configuration is capital 10000, commission 0.001 and slippage 0.001 |
| Backtest.ZeroResult | cpp/include/backtest/backtest_engine.h:38-40 | a new result has zero figures and counters and empty trades and curves |
| Backtest.CommissionBounds | cpp/src/backtest/backtest_engine.cpp:137-139 | at a commission rate in [0, 1] the commission on a non-negative amount is between 0 and the amount |
| Backtest.SlippageBounds | cpp/src/backtest/backtest_engine.cpp:141-143 | at a slippage rate in [0, 1] the slippage on a non-negative price is between 0 and the price |
| Backtest.BuyQuantityCost | cpp/src/backtest/backtest_engine.cpp:71-82 | the BUY quantity times the slipped-up price is half the cash less the commission on it; 0 at a zero price; never negative under non-negative cash, price and rates |
| Backtest.BuyFill | cpp/src/backtest/backtest_engine.cpp:69-97 | a BUY opens at close + slippage with quantity (½·capital − commission)/price, records the trade with P&L 0 in both logs and counts it; equity is unchanged; from flat, capital falls by ½·capital less the commission |
| Backtest.SellFill | cpp/src/backtest/backtest_engine.cpp:98-134 | a SELL closes at close − slippage, records quantity 0 and the close's P&L less the commission on the proceeds, counts the trade, and counts a win iff that P&L > 0 and a loss iff < 0; capital gains the full proceeds |
| Backtest.SignalFill | cpp/src/backtest/backtest_engine.cpp:48-50 | only BUY and SELL are filled; a fill appends one trade carrying the signal to both logs and adds one to the total; wins + losses grow by at most that; curves and initial capital are untouched |
| Backtest.BuyKeepsCommissionInCash | cpp/src/backtest/backtest_engine.cpp:79-85 | after a BUY from flat the cash is ½·capital plus the commission: the commission never leaves the cash |
| Backtest.BuySellCash | cpp/src/backtest/backtest_engine.cpp:69-134 | BUY then SELL: capital changes by (sell − buy)·qty, the recorded P&L is that less the sell commission, and capital = before + recorded P&L + that commission |
| Backtest.WorkedExample | cpp/src/backtest/backtest_engine.cpp:72-114 | capital 10000, commission 0.001, slippage 0, BUY at 100 then SELL at 110: quantity (5000 − 5)/100 and recorded P&L 10·q − 0.11·q |
| Backtest.Act | cpp/src/backtest/backtest_engine.cpp:42-50 | the strategy's bar step and signal fill leave the curves alone and keep the strategy's buffers bounded |
| Backtest.Step | cpp/src/backtest/backtest_engine.cpp:42-60 | one bar appends the post-bar equity to the equity curve and the bar's timestamp to the timestamps, and keeps the buffers bounded |
| Backtest.StartRun | cpp/src/backtest/backtest_engine.cpp:27-37 | a run starts by `on_init(initial_capital)` and resets the curves to [initial capital] and [first timestamp]; trades and counters are kept |
| Backtest.Loop | cpp/src/backtest/backtest_engine.cpp:40-61 | each bar of the loop adds exactly one equity and one timestamp to the curves |
| Backtest.Summarize | cpp/src/backtest/backtest_engine.cpp:63-65 | the final capital, final equity and total return are read from the ledger; the strategy, the ledger, the trades, the counters and the curves are unchanged |
| Backtest.RunSpec | cpp/src/backtest/backtest_engine.cpp:20-66 | without data the run changes nothing; with data the final capital, final equity and total return are the ledger's cash, `Equity` and `TotalReturn` after the last bar |
| Backtest.RunCurves | cpp/src/backtest/backtest_engine.cpp:32-61 | over n > 0 bars both curves have n + 1 entries; the equity curve is the initial capital followed by the equity after each bar; the timestamps are the first bar's followed by every bar's, so the first two are equal |
| Backtest.LoopCurves | cpp/src/backtest/backtest_engine.cpp:40-61 | the loop appends the equity after each bar prefix and each bar's timestamp to the curves it starts from |
| Backtest.LoopEquityCurve | cpp/src/backtest/backtest_engine.cpp:53-59 | the loop appends exactly the equity after each bar prefix to the equity curve |
| Backtest.LoopTimestamps | cpp/src/backtest/backtest_engine.cpp:60 | the loop appends exactly the bars' timestamps, in order |
| Backtest.EquitiesAlong | cpp/src/backtest/backtest_engine.cpp:53-59 | one equity per bar |
| Backtest.Timestamps | cpp/src/backtest/backtest_engine.cpp:60 | one timestamp per bar |
| Backtest.TimestampsAt | cpp/src/backtest/backtest_engine.cpp:60 | entry k is bar k's timestamp |
| Backtest.LoopTrades | cpp/src/backtest/backtest_engine.cpp:96-126 | the loop only appends to the result's trades, `total_trades` grows by the number appended, and the initial capital is unchanged, so a second run accumulates |
| Backtest.LoopLedgerTrades | cpp/src/backtest/backtest_engine.cpp:95-125 | the strategy's own trade log gains exactly the trades the result gains |
| Backtest.LoopCounters | cpp/src/backtest/backtest_engine.cpp:126-133 | win and loss counters never decrease, and together grow by at most the number of trades added |
| Backtest.StepTrades | cpp/src/backtest/backtest_engine.cpp:48-50 | one bar adds no trade and changes no counter, or adds the same trade to both logs and one to the total |
| Backtest.StepSignals | cpp/src/backtest/backtest_engine.cpp:45-50 | a trade added by one bar is a BUY or SELL different from the previous last signal and becomes the last signal; without a trade the last signal is kept |
| Backtest.AlternatesSnoc | cpp/src/strategy/ma_cross_strategy.cpp:105-111 | a BUY or SELL that differs from the last one extends a strictly alternating run |
| Backtest.LoopSignalsAlternate | cpp/src/backtest/backtest_engine.cpp:40-61 | the trades a run records alternate strictly between BUY and SELL, starting with the opposite of the strategy's last signal and ending with its new last signal |
| Backtest.BacktestEngine.constructor | cpp/src/backtest/backtest_engine.cpp:7-11 | a new engine keeps the configuration, has no strategy and no data, and a zero result with the configured initial capital |
| Backtest.BacktestEngine.SetStrategy | cpp/src/backtest/backtest_engine.cpp:13-15 | only the strategy changes |
| Backtest.BacktestEngine.SetData | cpp/src/backtest/backtest_engine.cpp:16-18 | only the data changes |
| Backtest.BacktestEngine.GetResult | cpp/src/backtest/backtest_engine.cpp:145-147 | returns the stored result |
| Backtest.BacktestEngine.CalculateCommission | cpp/src/backtest/backtest_engine.cpp:137-139 | amount times the commission rate |
| Backtest.BacktestEngine.CalculateSlippage | cpp/src/backtest/backtest_engine.cpp:141-143 | price times the slippage rate |
| Backtest.BacktestEngine.Run | cpp/src/backtest/backtest_engine.cpp:20-66 | without a strategy nothing changes; otherwise the strategy, ledger and result move exactly as `RunSpec` over the data |
| Backtest.BacktestEngine.RunBars | cpp/src/backtest/backtest_engine.cpp:40-61 | the bar loop moves the state exactly as `Loop` over the data |
| Backtest.BacktestEngine.RunBar | cpp/src/backtest/backtest_engine.cpp:41-61 | one iteration moves the state exactly as `Step` |
| Backtest.BacktestEngine.ActOnBar | cpp/src/backtest/backtest_engine.cpp:42-50 | the bar and the signal fill move the state exactly as `Act` |
| Backtest.BacktestEngine.ProcessSignal | cpp/src/backtest/backtest_engine.cpp:68-135 | the ledger and result move exactly as `SignalFill` |
| Backtest.BacktestEngine.FillBuy | cpp/src/backtest/backtest_engine.cpp:71-97 | the ledger and result move exactly as `BuyFill` |
| Backtest.BacktestEngine.FillSell | cpp/src/backtest/backtest_engine.cpp:100-133 | the ledger and result move exactly as `SellFill` |
| Performance.ZeroMetrics | cpp/include/analysis/performance_metrics.h:36 | every figure of the zero metrics is 0 and both curves are empty |
| Performance.ReturnsUpTo | cpp/src/analysis/performance_analyzer.cpp:88-98 | at most one return per consecutive pair |
| Performance.Returns | cpp/src/analysis/performance_analyzer.cpp:84-99 | at most n − 1 returns, none for a curve of one point |
| Performance.ReturnsOfPositiveCurve | cpp/src/analysis/performance_analyzer.cpp:88-98 | on a positive curve there is exactly one return per pair, (e[i+1] − e[i])/e[i] |
| Performance.CalculateReturns | cpp/src/analysis/performance_analyzer.cpp:84-99 | the loop yields `Returns` |
| Performance.Peak | cpp/src/analysis/performance_analyzer.cpp:106-116 | the running peak bounds every earlier value and is one of them |
| Performance.DrawdownCurve | cpp/src/analysis/performance_analyzer.cpp:102-117 | one drawdown per point, entry i being (peak − e[i])/peak |
| Performance.CalculateDrawdownCurve | cpp/src/analysis/performance_analyzer.cpp:102-117 | the loop yields `DrawdownCurve` |
| Performance.DrawdownZeroAtNewPeak | cpp/src/analysis/performance_analyzer.cpp:111-114 | the drawdown is 0 at a new peak |
| Performance.DrawdownBounds | cpp/src/analysis/performance_analyzer.cpp:106-116 | on a positive curve every drawdown lies in [0, 1) |
| Performance.MaxDrawdown | cpp/src/analysis/performance_analyzer.cpp:164-181 | 0 for an empty curve, else the maximum of the drawdown curve: it bounds every entry and is attained |
| Performance.MaxDrawdownBounds | cpp/src/analysis/performance_analyzer.cpp:164-181 | on a positive curve the maximum drawdown lies in [0, 1) |
| Performance.CalculateMaxDrawdown | cpp/src/analysis/performance_analyzer.cpp:164-181 | the loop yields `MaxDrawdown` |
| Performance.SeqMax | cpp/src/analysis/performance_analyzer.cpp:178-180 | the maximum bounds every entry and is attained |
| Performance.MaxElement | cpp/src/analysis/performance_analyzer.cpp:178-180 | the loop yields `SeqMax` |
| Performance.DrawdownExample | cpp/src/analysis/performance_analyzer.cpp:102-181 | the curve [100, 120, 90, 130] has drawdowns [0, 0, 0.25, 0] and maximum 0.25 |
| Performance.CumulativeReturn | cpp/src/analysis/performance_analyzer.cpp:151-161 | 0 for a non-positive initial value, else (final − initial)/initial, positive iff final > initial |
| Performance.AnnualizedReturn | cpp/src/analysis/performance_analyzer.cpp:120-148 | 0 for non-positive capitals or span, else pow(1 + cumulative, SECONDS_PER_YEAR/span) − 1 with a millisecond span |
| Performance.AnnualizedOverMillisecondYear | cpp/src/analysis/performance_analyzer.cpp:134-146 | over a span of one year in milliseconds the exponent is 1/1000, not 1 |
| Performance.CalmarRatio | cpp/src/analysis/performance_analyzer.cpp:294-304 | 0 without drawdown, else annualised return over maximum drawdown |
| Performance.SumSquaredDeviations | cpp/src/analysis/performance_analyzer.cpp:193-197 | the sum of squared deviations is non-negative |
| Performance.Variance | cpp/src/analysis/performance_analyzer.cpp:190-198 | the population variance (division by n) is non-negative |
| Performance.VarianceOfConstant | cpp/src/analysis/performance_analyzer.cpp:184-203 | a constant series has variance 0 |
| Performance.Volatility | cpp/src/analysis/performance_analyzer.cpp:184-203 | 0 for fewer than two returns, else the root of the population variance |
| Performance.AccumulateSquares | cpp/src/analysis/performance_analyzer.cpp:193-197 | the loop yields `SumSquaredDeviations` |
| Performance.CalculateVolatility | cpp/src/analysis/performance_analyzer.cpp:184-203 | result equals `Volatility` |
| Performance.Negatives | cpp/src/analysis/performance_analyzer.cpp:213-219 | the downside returns are the negative ones |
| Performance.NegativesOfNonNegative | cpp/src/analysis/performance_analyzer.cpp:213-223 | without negative returns the downside list is empty |
| Performance.DownsideVariance | cpp/src/analysis/performance_analyzer.cpp:229-234 | the downside variance is non-negative |
| Performance.DownsideDeviation | cpp/src/analysis/performance_analyzer.cpp:206-238 | 0 without negative returns, else the root of the downside variance |
| Performance.NoLossNoDownside | cpp/src/analysis/performance_analyzer.cpp:221-223 | with no negative return the downside deviation is 0 |
| Performance.CollectNegatives | cpp/src/analysis/performance_analyzer.cpp:213-219 | the loop yields `Negatives` |
| Performance.CalculateDownsideDeviation | cpp/src/analysis/performance_analyzer.cpp:206-238 | result equals `DownsideDeviation` |
| Performance.SharpeRatio | cpp/src/analysis/performance_analyzer.cpp:241-266 | 0 for fewer than two returns or zero volatility, else mean return over volatility (not annualised) |
| Performance.CalculateSharpeRatio | cpp/src/analysis/performance_analyzer.cpp:241-266 | result equals `SharpeRatio` |
| Performance.SortinoRatio | cpp/src/analysis/performance_analyzer.cpp:269-291 | 0 without returns or with zero downside deviation, else mean return over downside deviation |
| Performance.CalculateSortinoRatio | cpp/src/analysis/performance_analyzer.cpp:269-291 | result equals `SortinoRatio` |
| Performance.Accumulate | cpp/src/analysis/performance_analyzer.cpp:191 | the accumulation loop yields the sum |
| Performance.MeanAbove | cpp/src/analysis/performance_analyzer.cpp:418-424 | the mean of values above c is above c |
| Performance.SumAbove | cpp/src/analysis/performance_analyzer.cpp:418-424 | the sum of n values above c exceeds n·c |
| Performance.Wins | cpp/src/analysis/performance_analyzer.cpp:326-329 | wins are the P&Ls above ε |
| Performance.LossSizes | cpp/src/analysis/performance_analyzer.cpp:330-333 | loss sizes are the magnitudes of P&Ls below −ε |
| Performance.WinsAndLossesDisjoint | cpp/src/analysis/performance_analyzer.cpp:323-335 | no trade is both a win and a loss: together they number at most the trades |
| Performance.ProfitLossRatio | cpp/src/analysis/performance_analyzer.cpp:307-352 | 0 without a win or a loss, else average win over average loss size |
| Performance.ProfitLossRatioPositive | cpp/src/analysis/performance_analyzer.cpp:343-351 | with a win and a loss, the average loss exceeds ε, so the ε guard never fires, and the ratio is positive |
| Performance.Tally | cpp/src/analysis/performance_analyzer.cpp:317-335 | the loop's totals and counts are the sums and lengths of `Wins` and `LossSizes` |
| Performance.CalculateProfitLossRatio | cpp/src/analysis/performance_analyzer.cpp:307-352 | result equals `ProfitLossRatio` |
| Performance.Outcomes | cpp/src/analysis/performance_analyzer.cpp:367-384 | one outcome per non-negligible trade |
| Performance.TrailingRun | cpp/src/analysis/performance_analyzer.cpp:367-384 | the current streak fits in the outcomes |
| Performance.LongestRun | cpp/src/analysis/performance_analyzer.cpp:367-384 | the longest streak is at least the current one and fits in the outcomes |
| Performance.TrailingRunIsRun | cpp/src/analysis/performance_analyzer.cpp:367-384 | the current streak is a run of equal outcomes ending at the last one |
| Performance.TrailingRunIsMaximal | cpp/src/analysis/performance_analyzer.cpp:367-384 | no longer run ends at the last outcome |
| Performance.LongestRunIsUpperBound | cpp/src/analysis/performance_analyzer.cpp:367-384 | every run of equal outcomes is at most the longest streak |
| Performance.LongestRunIsAttained | cpp/src/analysis/performance_analyzer.cpp:367-384 | some run has exactly the longest streak's length |
| Performance.OutcomeStep | cpp/src/analysis/performance_analyzer.cpp:369-380 | a win extends the win streak and resets the loss streak, and vice versa |
| Performance.MaxConsecutive | cpp/src/analysis/performance_analyzer.cpp:355-385 | both streaks fit in the trades |
| Performance.CalculateMaxConsecutive | cpp/src/analysis/performance_analyzer.cpp:355-385 | the loop yields the longest win and loss runs of the outcomes |
| Performance.StreakExample | cpp/src/analysis/performance_analyzer.cpp:355-385 | P&Ls +5, +3, −2, −1, −1, +4 give 2 wins and 3 losses in a row |
| Performance.MatchingSell | cpp/src/analysis/performance_analyzer.cpp:402-413 | the first later SELL of the same symbol, or none |
| Performance.PeriodOf | cpp/src/analysis/performance_analyzer.cpp:397-415 | at most one positive holding period per trade, none for a non-BUY |
| Performance.HoldingPeriods | cpp/src/analysis/performance_analyzer.cpp:397-415 | every holding period is positive |
| Performance.AvgHoldingPeriod | cpp/src/analysis/performance_analyzer.cpp:388-425 | 0 for fewer than two trades or no closed BUY, else the mean holding period in days, which is positive |
| Performance.SharedSellExample | cpp/src/analysis/performance_analyzer.cpp:399-415 | two BUYs closed by one SELL each count: periods 3 and 2 days average 2.5 |
| Performance.FindSell | cpp/src/analysis/performance_analyzer.cpp:402-413 | the inner loop finds `MatchingSell` |
| Performance.CalculateAvgHoldingPeriod | cpp/src/analysis/performance_analyzer.cpp:388-425 | the loop yields `AvgHoldingPeriod` |
| Performance.TradeFrequency | cpp/src/analysis/performance_analyzer.cpp:428-454 | 0 without trades or span, never negative |
| Performance.TradeFrequencyOfPositiveSpan | cpp/src/analysis/performance_analyzer.cpp:438-453 | frequency·span = trades·SECONDS_PER_YEAR with a millisecond span, and it is positive |
| Performance.CountSells | cpp/src/analysis/performance_analyzer.cpp:67-72 | at most the number of trades, and all of them when every trade is a SELL |
| Performance.CountSellTrades | cpp/src/analysis/performance_analyzer.cpp:67-72 | the loop yields `CountSells` |
| Performance.AnalyzeSpec | cpp/src/analysis/performance_analyzer.cpp:12-80 | the zero metrics unless the curve is non-empty and matches the timestamps in length; otherwise the metrics carry the curve and its drawdown curve |
| Performance.AnalyzedDrawdownBoundsCurve | cpp/src/analysis/performance_analyzer.cpp:44-55 | the reported maximum drawdown bounds the reported drawdown curve |
| Performance.AnalyzedTradeStatisticsBounds | cpp/src/analysis/performance_analyzer.cpp:60-77 | both streaks fit in the trades, and holding period and frequency are not negative |
| Performance.AnalyzedDrawdownBounds | cpp/src/analysis/performance_analyzer.cpp:44 | on a positive curve the reported maximum drawdown lies in [0, 1) |
| Performance.Analyze | cpp/src/analysis/performance_analyzer.cpp:12-80 | the result equals `AnalyzeSpec` |
| Performance.EmptyRunAnalyzesToZero | cpp/src/analysis/performance_analyzer.cpp:21-24 | a run over no bars leaves the zero result, and analysing it gives the zero metrics |
| Cleaners.NewPriceJump | cpp/include/cleaners/data_cleaner.h:146-152 | a new price-jump rule has threshold 0.5 and last close 0 |
| Cleaners.NewVolumeAnomaly | cpp/include/cleaners/data_cleaner.h:160-167 | a new volume rule has threshold 10 and an empty history |
| Cleaners.DetectPriceJump | cpp/src/cleaners/data_cleaner.cpp:61-65 | false when the previous price is not positive, else true iff the move exceeds threshold·previous |
| Cleaners.RelativeChange | cpp/src/cleaners/data_cleaner.cpp:63-64 | the relative test |(c − p)/p| > t is the absolute test |c − p| > t·p for p > 0 |
| Cleaners.PriceJumpExamples | cpp/src/cleaners/data_cleaner.cpp:61-65 | with the default 0.5, 100 → 151 and 100 → 49 are jumps and 100 → 150 is not |
| Cleaners.DetectVolumeAnomaly | cpp/src/cleaners/data_cleaner.cpp:67-70 | false when the average is not positive; otherwise an anomaly exactly when the volume exceeds average × threshold |
| Cleaners.VolumeAnomalyMonotone | cpp/src/cleaners/data_cleaner.cpp:67-70 | a larger volume than an anomalous one is anomalous too |
| Cleaners.IsTimestampContinuous | cpp/src/cleaners/data_cleaner.cpp:72-81 | holds iff the current time is within the tolerance of previous + expected |
| Cleaners.Recorded | cpp/src/cleaners/data_cleaner.cpp:135-139 | the volume is appended and the history never exceeds 100 entries |
| Cleaners.ApplyRule | cpp/src/cleaners/data_cleaner.cpp:120-160 | keeps a bar iff the rule accepts it (only the two validity rules can reject); changes the bar at most by flagging it SUSPICIOUS; records the close or volume; a price-jump rule without a positive last close and a volume rule with under ten entries flag nothing |
| Cleaners.TenthVolumeNeverFlagged | cpp/src/cleaners/data_cleaner.cpp:134-152 | with the default threshold, the bar that brings the history to ten entries is never flagged |
| Cleaners.VolumeSpikeFlagged | cpp/src/cleaners/data_cleaner.cpp:134-152 | a volume of 1000 after 99 volumes of 1 is flagged SUSPICIOUS |
| Cleaners.CleanUpTo | cpp/src/cleaners/data_cleaner.cpp:21-25 | applying the rules in order up to n keeps the bar iff all accept, stopping at the first rejection, and leaves later rules untouched |
| Cleaners.StoppedStaysStopped | cpp/src/cleaners/data_cleaner.cpp:22-24 | once a rule rejects, no further rule runs |
| Cleaners.CleanSpec | cpp/src/cleaners/data_cleaner.cpp:20-28 | BAD iff some rule rejects, GOOD otherwise even when a rule flagged the bar |
| Cleaners.PassesAllInvariant | cpp/src/cleaners/data_cleaner.cpp:20-28 | acceptance does not depend on the rules' state or the bar's quality flag |
| Cleaners.Passing | cpp/src/cleaners/data_cleaner.cpp:30-42 | the kept bars are among those every rule accepts |
| Cleaners.BatchSpec | cpp/src/cleaners/data_cleaner.cpp:30-42 | the batch keeps, in order, the rule-modified copies of exactly the bars rated GOOD |
| Cleaners.NoRulesKeepEverything | cpp/src/cleaners/data_cleaner.cpp:30-42 | without rules the batch keeps every bar unchanged |
| Cleaners.DataCleaner.constructor | cpp/src/cleaners/data_cleaner.cpp:10-14 | a new cleaner holds exactly the price-validity and OHLC-relation rules |
| Cleaners.DataCleaner.AddRule | cpp/src/cleaners/data_cleaner.cpp:16-18 | the rule is appended after the existing ones |
| Cleaners.DataCleaner.CleanOhlcv | cpp/src/cleaners/data_cleaner.cpp:20-28 | the quality, bar and rule state are `CleanSpec` of the old rules |
| Cleaners.DataCleaner.CleanOhlcvBatch | cpp/src/cleaners/data_cleaner.cpp:30-42 | the kept bars and rule state are `BatchSpec` of the old rules |
| Cleaners.CleanTick | cpp/src/cleaners/data_cleaner.cpp:44-49 | BAD iff timestamp ≤ 0, price ≤ 0 or volume < 0 |
| Cleaners.CleanOrderbook | cpp/src/cleaners/data_cleaner.cpp:51-59 | BAD iff timestamp ≤ 0 or a side is empty |
| Cleaners.KeysSnoc | cpp/src/cleaners/data_cleaner.cpp:87-95 | one more bar adds its key to the seen set |
| Cleaners.Deduplicated | cpp/src/cleaners/data_cleaner.cpp:83-98 | de-duplication never lengthens the input |
| Cleaners.DeduplicatedKeys | cpp/src/cleaners/data_cleaner.cpp:83-98 | the output has the same keys as the input |
| Cleaners.DeduplicatedDistinct | cpp/src/cleaners/data_cleaner.cpp:83-98 | no two output bars share a key |
| Cleaners.DeduplicatedFromInput | cpp/src/cleaners/data_cleaner.cpp:83-98 | every output bar is an input bar |
| Cleaners.KeptIndices | cpp/src/cleaners/data_cleaner.cpp:83-98 | one input position per de-duplicated bar, each inside the input |
| Cleaners.KeptIndicesIncreasing | cpp/src/cleaners/data_cleaner.cpp:83-98 | the kept positions strictly increase, so the output keeps input order |
| Cleaners.DeduplicatedAtKept | cpp/src/cleaners/data_cleaner.cpp:83-98 | the k-th output bar is the input bar at the k-th kept position, so the output is a subsequence of the input |
| Cleaners.KeptIsFirstOfKey | cpp/src/cleaners/data_cleaner.cpp:83-98 | every kept bar is the first in the input with its key |
| Cleaners.DeduplicatedKeepsFirst | cpp/src/cleaners/data_cleaner.cpp:91-94 | a later bar with an earlier bar's key is dropped |
| Cleaners.KeyCollision | cpp/src/cleaners/data_cleaner.cpp:88-89 | ("BTC_USDT", "x") and ("BTC", "USDT_x") at one time share a key, so the second is dropped |
| Cleaners.NatToString | cpp/src/cleaners/data_cleaner.cpp:88 | a natural number is written with decimal digits only |
| Cleaners.IntToString | cpp/src/cleaners/data_cleaner.cpp:88 | the written timestamp contains no underscore |
| Cleaners.Deduplicate | cpp/src/cleaners/data_cleaner.cpp:83-98 | the loop yields `Deduplicated` |
| Cleaners.FillMissing | cpp/src/cleaners/data_cleaner.cpp:100-116 | returns its input unchanged |
| Normalizer.UpperChar | cpp/src/normalizers/data_normalizer.cpp:26 | ASCII lower-case letters become upper-case, other characters stay |
| Normalizer.LowerChar | cpp/src/normalizers/data_normalizer.cpp:66 | ASCII upper-case letters become lower-case, other characters stay |
| Normalizer.LowerOfUpper | cpp/src/normalizers/data_normalizer.cpp:66 | lower-casing ignores an earlier upper-casing |
| Normalizer.Replaced | cpp/src/normalizers/data_normalizer.cpp:22-23 | each occurrence of one character is replaced, nothing else changes |
| Normalizer.Uppercased | cpp/src/normalizers/data_normalizer.cpp:26 | every character upper-cased, length kept |
| Normalizer.Lowercased | cpp/src/normalizers/data_normalizer.cpp:66 | every character lower-cased, length kept |
| Normalizer.NormalizedSymbolShape | cpp/src/normalizers/data_normalizer.cpp:17-29 | the length is kept; '_' and '-' become '/', every other character is upper-cased |
| Normalizer.NormalizeIdempotent | cpp/src/normalizers/data_normalizer.cpp:17-29 | normalising twice is normalising once |
| Normalizer.NormalizeExample | cpp/src/normalizers/data_normalizer.cpp:17-29 | "btc_usdt" becomes "BTC/USDT" and "eth-btc" becomes "ETH/BTC" |
| Normalizer.ReplaceAll | cpp/src/normalizers/data_normalizer.cpp:22-23 | the loop yields `Replaced` |
| Normalizer.ToUpper | cpp/src/normalizers/data_normalizer.cpp:26 | the loop yields `Uppercased` |
| Normalizer.NormalizeSymbol | cpp/src/normalizers/data_normalizer.cpp:17-29 | yields the normalised symbol, whatever the exchange |
| Normalizer.WithoutSlashes | cpp/src/normalizers/data_normalizer.cpp:37 | no '/' remains, and a string without one is unchanged |
| Normalizer.DenormalizedSymbol | cpp/src/normalizers/data_normalizer.cpp:31-41 | every '/' is removed iff the exchange is exactly "binance"; otherwise the input is returned |
| Normalizer.DenormalizeExample | cpp/src/normalizers/data_normalizer.cpp:31-41 | "BTC/USDT" is "BTCUSDT" on binance and unchanged on okx |
| Normalizer.RemoveSlashes | cpp/src/normalizers/data_normalizer.cpp:37 | the loop yields `WithoutSlashes` |
| Normalizer.DenormalizeSymbol | cpp/src/normalizers/data_normalizer.cpp:31-41 | yields `DenormalizedSymbol` |
| Normalizer.TruncDiv | cpp/src/normalizers/data_normalizer.cpp:46-49 | C++ division, truncating toward zero for either sign |
| Normalizer.NormalizeTimestamp | cpp/src/normalizers/data_normalizer.cpp:43-52 | "s" multiplies by 1000, "us" and "ns" divide by 1000 and 10⁶ truncating, any other unit is left alone |
| Normalizer.TimestampRoundTrip | cpp/src/normalizers/data_normalizer.cpp:43-52 | microseconds or nanoseconds from milliseconds convert back exactly |
| Normalizer.NegativeTimestampTruncates | cpp/src/normalizers/data_normalizer.cpp:46-47 | −1500 µs is −1 ms (toward zero), not −2 |
| Normalizer.NormalizeSide | cpp/src/normalizers/data_normalizer.cpp:64-74 | BUY iff the lower-cased text is "buy" or "bid", SELL iff "sell" or "ask", else UNKNOWN |
| Normalizer.NormalizeSideIgnoresCase | cpp/src/normalizers/data_normalizer.cpp:64-74 | upper-casing the input does not change the side |
| Normalizer.NormalizeSideExamples | cpp/src/normalizers/data_normalizer.cpp:64-74 | "BUY" is BUY, "Ask" is SELL, "long" is UNKNOWN |
| Normalizer.NormalizeTimeframe | cpp/src/normalizers/data_normalizer.cpp:76-78 | a timeframe name maps to the timeframe so named, anything else to MINUTE_1, whatever the exchange |
| Normalizer.NameParsesToItselfWhenNamed | cpp/src/normalizers/data_normalizer.cpp:76-78 | a recognised name parses to the timeframe whose name it is |
| Normalizer.ValidateOhlcv | cpp/src/normalizers/data_normalizer.cpp:80-92 | holds iff timestamp > 0, all prices > 0, volume ≥ 0 and the OHLC relation holds |
| Normalizer.ValidBarIsClean | cpp/src/normalizers/data_normalizer.cpp:80-92 | a valid bar passes a new cleaner |
| Normalizer.ValidateTick | cpp/src/normalizers/data_normalizer.cpp:94-99 | holds iff the cleaner rates the tick GOOD |
| Normalizer.DescendingIsSorted | cpp/src/normalizers/data_normalizer.cpp:106-108 | neighbour-wise non-increasing bids are sorted non-increasing |
| Normalizer.AscendingIsSorted | cpp/src/normalizers/data_normalizer.cpp:111-113 | neighbour-wise non-decreasing asks are sorted non-decreasing |
| Normalizer.ValidBookIsUncrossed | cpp/src/normalizers/data_normalizer.cpp:101-121 | in a valid book every bid is below every ask, and the cleaner rates it GOOD |
| Normalizer.ValidateOrderbook | cpp/src/normalizers/data_normalizer.cpp:101-121 | the loops decide `OrderbookValid`: timestamp > 0, both sides non-empty, bids non-increasing, asks non-decreasing, best bid < best ask |

## Behaviour as written

The model follows the code where it differs from what a reader might expect:

- With a zero average loss the RSI uses rs = 100, so it is 100 − 100/101 ≈ 99.01
  and never reaches 100 (`Indicators.RsiValue`).
- `extract_close_prices` returns each bar's open price, so `calculate_ma` on bars
  averages open prices (`Indicators.ExtractClosePrices`,
  `Indicators.CalculateMaFromOhlcv`).
- `on_init` does not reset the position or the trade log (`Strategy.Initialized`).
- The BUY and SELL commissions are computed and reported but never taken from the
  cash (`Backtest.BuyKeepsCommissionInCash`, `Backtest.BuySellCash`).
- The engine always invests half the capital. The strategy's `position_size` is
  never read.
- A second `run` resets only the two curves: trades and counters accumulate
  (`Backtest.StartRun`, `Backtest.LoopTrades`).
- The first timestamp appears twice in the timestamp curve (`Backtest.RunCurves`).
- One SELL can close several BUYs in the holding-period average
  (`Performance.SharedSellExample`).
- The annualised return and the trade frequency divide a millisecond span by the
  number of seconds in a year (`Performance.AnnualizedOverMillisecondYear`,
  `Performance.TradeFrequencyOfPositiveSpan`).
- The ε guard on the average loss cannot fire, because every counted loss already
  exceeds ε (`Performance.ProfitLossRatioPositive`).
- Sharpe and Sortino are not annualised.
- The volume-anomaly rule averages a history that already holds the current bar.
  At ten entries and with the default threshold it cannot flag anything
  (`Cleaners.TenthVolumeNeverFlagged`).
- The de-duplication key joins its parts with '_', so an underscore inside a
  symbol or exchange can make different bars collide (`Cleaners.KeyCollision`).
- For the P&L sequence +5, +3, −2, −1, −1, +4 the code gives a longest losing
  streak of 3 (`Performance.StreakExample`).

## Left out

- `sqrt` and `pow` (volatility, downside deviation, annualised return) are the
  C library's. They are passed in as function parameters, and only their guards
  and arguments are modelled.
- IEEE arithmetic is not modelled: rounding, NaN and infinities. Doubles are
  exact reals.
  - A zero divisor that the source leaves unchecked gives 0 here (`Numeric.Div`).
    This covers the buy quantity at a zero price and the drawdown at a zero peak.
- 64-bit overflow of timestamps (`s` × 1000) and of the `int` counters is not
  modelled; integers are unbounded.
- `normalize_price` and `normalize_volume` are floating-point rounding through
  `pow`/`round`.
- `extract_open_prices` is declared but has no definition.
- The normalizer's static mapping tables are declared but never filled or read.
- The network collectors, the websocket clients, configuration, storage, the
  Python bindings and services are I/O and concurrency outside this core.
- The cleaner shares rules through `shared_ptr`; here each rule is a value owned
  by the cleaner, so aliasing one rule object between cleaners is not captured.
- The cleaning rules' `get_name` texts are constant strings with no logic.
- `toupper`/`tolower` beyond ASCII letters: locale-dependent case mapping is not
  modelled.
- Logging and console output.
- `StrategyBase` has no constructor, so capital and initial capital are
  unspecified until `on_init`. The model's constructor leaves them unconstrained.
- `Performance.AnalyzeSpec`: states only the zero case and the two curves in its
  contract. The other metrics are tied to their own functions through its body
  and lemmas such as `Performance.AnalyzedTradeStatisticsBounds`.
- `Performance.DownsideVariance`: stated as non-negative only. Strict positivity
  for a non-empty downside list is not proved.
- `Indicators.CalculateRsi`: requires period ≠ 0. Period 0 passes the source's
  check and then divides by zero.
- `Indicators.CalculateMacd`: requires fast ≤ slow when both are in range. With
  fast > slow the source indexes before the start of the fast EMA.
- `MaCross.MaCrossStrategy.constructor`: requires both MA periods ≥ 1. The
  periods are `int` but are compared with `size_t` sizes
  (cpp/src/strategy/ma_cross_strategy.cpp:14, 52, 61, 94).
  - A period of 0 makes `calculate_ma` throw inside `on_bar` on the first bar.
    That exception path is not modelled.
  - A negative period converts to a huge unsigned value, so that MA is never
    computed and the strategy never trades. A negative slow period makes
    `generate_signal` return NONE on every bar. A slow period in −10‥−1 also caps
    the history at slow + 10 closes. This unsigned conversion is not modelled.
  - Every caller in the repository passes periods of at least 2 (fast) and 5
    (slow) (python/api/routes/backtest.py:32-33).
- The default MACD (12, 26, 9) and RSI (14) periods are constants
  (`Indicators.DefaultMacdFast` and its siblings), not default arguments.
