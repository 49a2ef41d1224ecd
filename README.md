# Backtester core of btc-algo-trader, modelled in Dafny

The model is of the part of the trading backtester that replays a historical bar series through the
SMA-crossover strategy. That part has four pieces.

- **Series preparation** (`MarketData`). The fetched pages of OHLCV bars are concatenated. Duplicate
  timestamps are dropped, and the first bar of each timestamp wins. The bars are then sorted by
  timestamp and cut to the inclusive date range.
- **Ledger** (`BaseStrategy`). The ledger holds cash, open positions keyed by symbol and an
  append-only trade log. `Execute` is the trade-execution rule, taking the sizing result as an
  argument. The ledger also covers:
  - a valuation that prices every priced position and refreshes it on the way;
  - the performance metrics.
- **Strategy** (`SmaCrossover`). The strategy compares the short and long simple moving averages of
  the closes one bar back and at the latest bar.
  - An upward cross buys `position_size_pct` of the cash.
  - A downward cross sells the whole "BTC/USDT" holding.
  - The class `SmaCrossoverStrategy` carries the fields and methods it inherits from the base
    strategy. Those are the cash, the positions, the trades and the indicator cache.
- **Engine** (`Backtest`). The engine replays the series one bar at a time:
  - at bar i the strategy sees bars 0..i only;
  - a non-HOLD signal is executed at the close;
  - when a trade comes back, `price * quantity * rate` is debited as commission;
  - the portfolio value at the close is appended.

  After the last bar the engine values the ledger at the last close and reports the metrics, the
  maximum drawdown and the commission total.

Every method of a class is proved against a specification function or expression:
- `Execute` gives the execution rule;
- `Refresh` and `PricedValue` give the valuation;
- `Traded`, `Settle` and `Step` give one bar of the replay;
- `Run` gives the whole replay;
- `PerformanceMetrics` gives the metrics;
- `Report` gives the result;
- `PositionSize` gives the sizing, and `SmaSeries` and `CrossoverSignal` give the signal;
- the indicator map itself gives `AddIndicator` and `GetIndicator`.

The properties of the source are proved as lemmas about those functions. Among them:
- the replay never looks ahead;
- a series shorter than the long window never trades and keeps its cash;
- the ledger only ever holds the traded symbol;
- trading any symbol other than "BTC/USDT" never sells;
- refreshing prices keeps the value and is idempotent;
- the maximum drawdown lies in (-1, 0] for positive values;
- a replay started flat with positive cash always has a finite maximum drawdown.

Some behaviours of the source are kept exactly as written:
- A BUY that costs more than the cash is still logged and charged commission.
- A SELL with no position for the traded symbol is logged with the requested quantity.
- The win-rate classifier counts every trade as a win.
- SELL sizing always looks up "BTC/USDT", whatever symbol is traded.
- Windows of 0 are accepted. Every average is then NaN, so every signal is HOLD.
- The reported `total_commission_paid` is the number of trades times the rate.

That last total does not match the commission charged. Its key name and the "Commission Paid: $"
line of the report (src/backtest/engine.py:149) describe a money sum, and the replay debits
price * quantity * rate per trade. The results keep the as-written total in `totalCommissionPaid`.
A separate field `commissionCharged`, not a key of the source's results, carries the commission
actually charged (see "## Findings").

Files:
- `wrappers.dfy`: the `Option` and `Result` types;
- `market_data.dfy`;
- `base_strategy.dfy`;
- `sma_crossover.dfy`;
- `engine.dfy`.

## Model

| member | source | states |
|---|---|---|
| MarketData.FirstWithTimestamp | src/data/market_data.py:90 | the earliest bar with a timestamp: it has that timestamp and no bar before it does; None means no bar has it |
| MarketData.Concat | src/data/market_data.py:89 | a bar is in the concatenation exactly when it is in one of the pages |
| MarketData.KeepFirst | src/data/market_data.py:90 | each kept bar is the first bar of its timestamp in the input; the kept timestamps are unique and none was already seen |
| MarketData.KeepFirstComplete | src/data/market_data.py:90 | deduplication loses no timestamp: every timestamp of the input has a bar in the output |
| MarketData.SortByTimestamp | src/data/market_data.py:91 | the result has the same length and the same bars as the input, in strictly ascending timestamp order |
| MarketData.SortIsPermutation | src/data/market_data.py:91 | sorting is a permutation (same multiset of bars) |
| MarketData.InRange | src/data/market_data.py:94-95 | exactly the bars whose timestamp lies in [start, end] are kept, and the order stays ascending |
| MarketData.PrepareSeries | src/data/market_data.py:88-100 | no page gives the empty series; otherwise the result is strictly ascending, inside the range, and each bar is the first fetched bar of its timestamp |
| MarketData.PrepareSeriesComplete | src/data/market_data.py:88-100 | every fetched timestamp inside the range survives preparation |
| BaseStrategy.UpdatePrice | src/strategy/base_strategy.py:32-34 | the current price becomes the given price and the unrealized profit is (price - entry) * quantity; no other field changes |
| BaseStrategy.Reason | src/strategy/base_strategy.py:89 | the trade's reason is "Signal: " followed by the signal's value |
| BaseStrategy.AverageEntry | src/strategy/base_strategy.py:99-101 | the new entry price times the total quantity is the old cost basis plus the new cost |
| BaseStrategy.Execute | src/strategy/base_strategy.py:69-133 | every stored position keeps a positive quantity and is keyed by its own symbol |
| BaseStrategy.ExecuteNoTrade | src/strategy/base_strategy.py:76-82 | a HOLD or a sizing result <= 0 returns None and leaves the book unchanged |
| BaseStrategy.ExecuteAppendsReturnedTrade | src/strategy/base_strategy.py:76-133 | None is returned exactly for HOLD or a sizing result <= 0, and then nothing changes; otherwise exactly the returned trade, with the call's signal, price and timestamp, is appended to the log |
| BaseStrategy.AffordableBuy | src/strategy/base_strategy.py:92-117 | an affordable BUY debits its cost, adds the quantity to the symbol's position, averages the entry price, keeps the first entry time, resets the unrealized P&L to 0 and leaves other symbols alone |
| BaseStrategy.UnaffordableBuy | src/strategy/base_strategy.py:92-133 | a BUY costing more than the cash changes neither cash nor positions but is still logged with the requested quantity |
| BaseStrategy.SellFromPosition | src/strategy/base_strategy.py:119-132 | a SELL against a position sells min(requested, held), credits the proceeds, removes the position when nothing is left and logs the clamped quantity |
| BaseStrategy.SellWithoutPosition | src/strategy/base_strategy.py:119-133 | a SELL with no position changes neither cash nor positions and is logged with the requested quantity |
| BaseStrategy.SumKeysRemove | src/strategy/base_strategy.py:138 | a sum over the positions is independent of the order in which the dictionary is iterated |
| BaseStrategy.Refresh | src/strategy/base_strategy.py:138-140 | the same symbols stay; each priced position gets `update_price` at its price and the others are unchanged; valid positions stay valid |
| BaseStrategy.UnpricedAddsNothing | src/strategy/base_strategy.py:139 | a position without a price adds nothing to the portfolio value |
| BaseStrategy.PricedValueSingle | src/strategy/base_strategy.py:138-141 | a ledger holding only the priced symbol is valued at that holding's quantity times the price |
| BaseStrategy.PricedValue | src/strategy/base_strategy.py:138-141 | the value of the positions: quantity times price summed over the priced symbols |
| BaseStrategy.RefreshKeepsValue | src/strategy/base_strategy.py:135-143 | refreshing the priced positions does not change the valuation at those prices |
| BaseStrategy.RefreshIdempotent | src/strategy/base_strategy.py:138-140 | refreshing twice at the same prices is the same as refreshing once |
| BaseStrategy.UnrealizedAfterRefresh | src/strategy/base_strategy.py:145-161 | after the valuation's refresh, the unrealized sum is (price - entry) * quantity for priced positions plus the stored figure of unpriced ones |
| BaseStrategy.TotalUnrealizedPnl | src/strategy/base_strategy.py:161 | the stored unrealized profit summed over all positions |
| BaseStrategy.IsWinningTrade | src/strategy/base_strategy.py:164-167 | the placeholder classifier: every trade is a win |
| BaseStrategy.CountWinning | src/strategy/base_strategy.py:150 | the number of trades classified as winning, at most the number of trades |
| BaseStrategy.EveryTradeWins | src/strategy/base_strategy.py:164-167 | the placeholder classifier counts every trade as winning |
| BaseStrategy.WinRate | src/strategy/base_strategy.py:150-152 | the win rate is 0 with no trades and 1 otherwise |
| BaseStrategy.PerformanceMetrics | src/strategy/base_strategy.py:145-162 | fails exactly for a zero initial balance; otherwise it reports cash plus priced value, the return relative to the initial balance, the trade count, the win rate and the refreshed unrealized profit |
| SmaCrossover.Mean | src/strategy/sma_crossover.py:30-31 | the arithmetic mean of a non-empty window of closes |
| SmaCrossover.Sma | src/strategy/sma_crossover.py:30-31 | the rolling mean is NaN exactly when the window is 0 or fewer than `window` closes exist |
| SmaCrossover.SmaSeries | src/strategy/sma_crossover.py:30-31 | one entry per close, each the rolling mean at that index |
| SmaCrossover.SmaOfFlatWindow | src/strategy/sma_crossover.py:30-31 | over a window of equal closes the average is that close |
| SmaCrossover.SmaNoLookahead | src/strategy/sma_crossover.py:30-31 | the average at t depends only on the closes up to t |
| SmaCrossover.LatestAverages | src/strategy/sma_crossover.py:38-41 | with a single close the previous averages are the current ones |
| SmaCrossover.Le | src/strategy/sma_crossover.py:44 | `<=` on averages, false when either is NaN |
| SmaCrossover.Lt | src/strategy/sma_crossover.py:44 | `<` on averages, false when either is NaN |
| SmaCrossover.UpwardCross | src/strategy/sma_crossover.py:44 | the golden cross: short was at or below long and is now above it |
| SmaCrossover.DownwardCross | src/strategy/sma_crossover.py:47 | the death cross: short was at or above long and is now below it |
| SmaCrossover.CrossesMoveTheSpread | src/strategy/sma_crossover.py:44-47 | a cross needs all four averages; a golden cross strictly widens short - long, a death cross strictly narrows it |
| SmaCrossover.CrossoverSignal | src/strategy/sma_crossover.py:26-27 | fewer closes than the long window give HOLD |
| SmaCrossover.BuyExactlyOnUpwardCross | src/strategy/sma_crossover.py:44-46 | BUY if and only if the long window is full and short was <= long and is now > long |
| SmaCrossover.SellExactlyOnDownwardCross | src/strategy/sma_crossover.py:47-51 | SELL if and only if there is a downward cross and no upward cross; HOLD if and only if there is neither or the window is not full |
| SmaCrossover.CrossesExclusive | src/strategy/sma_crossover.py:44-49 | the two crosses never hold together, so the BUY branch and the SELL branch never compete; this follows from `CrossesMoveTheSpread` |
| SmaCrossover.SingleCloseHolds | src/strategy/sma_crossover.py:38-51 | with one close the previous averages are the current ones, so the signal is HOLD |
| SmaCrossover.ZeroWindowHolds | src/strategy/sma_crossover.py:30-51 | with either window at 0 every average is NaN, so the signal is HOLD |
| SmaCrossover.FirstFullWindowHolds | src/strategy/sma_crossover.py:38-51 | on the first bar with a full long window (longer than 1) the previous long average is NaN, so the signal is HOLD |
| SmaCrossover.PositionSize | src/strategy/sma_crossover.py:53-70 | `calculate_position_size`: a BUY risks the fraction of the balance at the price, a SELL closes the "BTC/USDT" holding or sizes to 0, a HOLD sizes to 0 |
| SmaCrossover.PositionSizeCases | src/strategy/sma_crossover.py:53-70 | a BUY sizes to balance times fraction divided by price, non-negative for non-negative inputs; a SELL sizes to the "BTC/USDT" holding, positive exactly when one exists; a HOLD sizes to 0 |
| SmaCrossover.SellIgnoredWithoutBtcUsdt | src/strategy/sma_crossover.py:63-68 | without a "BTC/USDT" holding a SELL sizes to 0 and the ledger drops it, whatever the traded symbol |
| SmaCrossover.SmaCrossoverStrategy.constructor | src/strategy/sma_crossover.py:9-19 | any windows, fraction and cash are accepted; the strategy starts with them, the name, no positions, no trades and no indicators |
| SmaCrossover.SmaCrossoverStrategy.AddIndicator | src/strategy/base_strategy.py:63-64 | the named series is stored, replacing any earlier one, and no other name changes |
| SmaCrossover.SmaCrossoverStrategy.GetIndicator | src/strategy/base_strategy.py:66-67 | the named series exactly when it is stored, None otherwise |
| SmaCrossover.SmaCrossoverStrategy.GenerateSignal | src/strategy/sma_crossover.py:21-51 | returns the crossover signal of the visible closes; once the long window is full it overwrites the two SMA indicators, and otherwise it leaves them alone |
| SmaCrossover.SmaCrossoverStrategy.CalculatePositionSize | src/strategy/sma_crossover.py:53-70 | against the strategy's own positions and fraction: a BUY's size times the price is the risked cash, a SELL is the "BTC/USDT" holding or 0, a HOLD is 0 |
| SmaCrossover.SmaCrossoverStrategy.ExecuteTrade | src/strategy/base_strategy.py:69-133 | cash, positions and log become those of the execution rule applied to the strategy's own sizing, and the returned trade is the rule's |
| SmaCrossover.SmaCrossoverStrategy.GetPortfolioValue | src/strategy/base_strategy.py:135-143 | returns cash plus the priced value of the positions before the call, and leaves every priced position refreshed at its price |
| SmaCrossover.SmaCrossoverStrategy.SumUnrealizedPnl | src/strategy/base_strategy.py:161 | the sum of the positions' stored unrealized profit over all symbols |
| SmaCrossover.SmaCrossoverStrategy.GetPerformanceMetrics | src/strategy/base_strategy.py:145-162 | the result is the metrics of the ledger before the call, and the positions are left refreshed |
| Backtest.ApplyCommission | src/backtest/engine.py:68-71 | when a trade came back, price times the recorded quantity times the rate is debited; nothing is debited otherwise |
| Backtest.Signals | src/backtest/engine.py:50-57 | one signal per bar; signal i is the strategy's signal on bars 0..i |
| Backtest.SignalsNoLookahead | src/backtest/engine.py:50-57 | the signals of a prefix of the series are the prefix of its signals |
| Backtest.ShortSeriesSignalsHold | src/backtest/engine.py:50-57 | a series shorter than the long window yields only HOLD |
| Backtest.Commission | src/backtest/engine.py:70 | the commission on a trade: price * quantity * rate |
| Backtest.BarPrices | src/backtest/engine.py:76 | the prices the ledger is valued at on a bar: the traded symbol at the close |
| Backtest.SignalAt | src/backtest/engine.py:52-56 | the signal at bar i, from the closes of bars 0..i |
| Backtest.PricedBuysAll | src/strategy/sma_crossover.py:59-62 | the replay's precondition holds exactly when no BUY among the first n signals falls on a zero close |
| Backtest.Executed | src/backtest/engine.py:59-66 | a bar's signal sized against the book and executed at the close, before commission |
| Backtest.Traded | src/backtest/engine.py:59-71 | HOLD leaves the book as it is; otherwise either the log is unchanged and so is the cash, or one trade is appended with the bar's signal, close and timestamp; a SELL without a "BTC/USDT" holding changes nothing; only the traded symbol can be added |
| Backtest.Settle | src/backtest/engine.py:76-78 | the value is cash plus the priced value at the bar's close; the positions are refreshed at that close, and refreshing again changes nothing |
| Backtest.Step | src/backtest/engine.py:50-78 | one bar: under HOLD only the refresh happens; otherwise the trade shape of `Traded` holds; the appended value is the ledger's value at the close |
| Backtest.Run | src/backtest/engine.py:50-78 | one value per bar so far; positions stay valid; after a bar the ledger is refreshed at that bar's close |
| Backtest.RunNoLookahead | src/backtest/engine.py:50-78 | the replay of the first n bars depends on no later bar or signal |
| Backtest.RunFirstValue | src/backtest/engine.py:76-78 | later bars never change the value recorded at the first bar |
| Backtest.AllHoldKeepsCash | src/backtest/engine.py:59-78 | while every signal is HOLD and the ledger is flat, the book is unchanged and every value is the starting cash |
| Backtest.ShortSeriesHolds | src/backtest/engine.py:50-78 | a series shorter than the long window never trades (so no BUY meets a zero close) and, starting flat, every value is the starting cash |
| Backtest.RunHoldsOnlySymbol | src/backtest/engine.py:59-66 | the ledger never holds any symbol but the traded one |
| Backtest.OnlyBuysUnlessBtcUsdt | src/strategy/sma_crossover.py:63-68 | when the traded symbol is not "BTC/USDT", every trade in the log is a BUY |
| Backtest.Debit | src/backtest/engine.py:68-71 | the cash commission takes at one bar: the balance after execution less the balance after the bar's trade |
| Backtest.Fees | src/backtest/engine.py:68-71 | the commission debited over the first n bars |
| Backtest.StepCharged | src/backtest/engine.py:68-71 | one bar adds its debit to the charged total of the log |
| Backtest.TradedDebit | src/backtest/engine.py:68-71 | at each bar the commission debited is that of the appended trade, or 0 when none is appended |
| Backtest.FeesAreCommissionCharged | src/backtest/engine.py:68-71 | the commission debited over a replay equals the corrected total of the trades it appended |
| Backtest.CommissionPaidAsReported | src/backtest/engine.py:97 | the reported `total_commission_paid`, the number of trades times the rate: 0 exactly with no trades or a zero rate, never negative for a non-negative rate |
| Backtest.CommissionCharged | src/backtest/engine.py:70-71 | the commission of the logged trades: price * quantity * rate summed over the log |
| Backtest.CommissionChargedNonNegative | src/backtest/engine.py:70-71 | with non-negative rate, prices and quantities the charged total is never negative |
| Backtest.CommissionChargedAppend | src/backtest/engine.py:70-71 | appending a trade adds exactly its commission to the charged total |
| Backtest.ReportedCommissionUndercounts | src/backtest/engine.py:97 | one BUY of 1 unit at 100 with rate 0.001 debits 0.1, while the as-written total is 0.001 |
| Backtest.RunningMax | src/backtest/engine.py:117 | the expanding maximum bounds every value so far and is one of them |
| Backtest.Drawdown | src/backtest/engine.py:118 | (value - peak) / peak at a non-zero peak |
| Backtest.DrawdownAt | src/backtest/engine.py:118 | the drawdown at t is finite exactly when the peak so far is non-zero, and then it is (value - peak) / peak; it is NaN exactly for 0 over a zero peak, and otherwise minus infinity for a negative value |
| Backtest.Drawdowns | src/backtest/engine.py:118 | the drawdown series, one entry per value |
| Backtest.MinSkipNaN | src/backtest/engine.py:119 | the smaller of two drawdowns with NaN skipped and minus infinity below every number |
| Backtest.NanMin | src/backtest/engine.py:119 | `min` with NaN skipped: NaN exactly when every entry is NaN (or there is none), minus infinity exactly when some entry is, otherwise an entry at most every finite entry |
| Backtest.MaxDrawdown | src/backtest/engine.py:116-119 | NaN exactly when every drawdown is NaN, minus infinity exactly when some drawdown is, otherwise the smallest finite drawdown |
| Backtest.DrawdownBounds | src/backtest/engine.py:117-118 | with positive values the peak is positive and each drawdown lies in (-1, 0] |
| Backtest.MaxDrawdownBounds | src/backtest/engine.py:116-119 | with positive values the maximum drawdown is finite and lies in (-1, 0] |
| Backtest.PositiveStartFinite | src/backtest/engine.py:116-119 | a positive first value makes every peak positive, so the maximum drawdown is finite |
| Backtest.MaxDrawdownExample | src/backtest/engine.py:116-119 | the series 100, 120, 90, 110 has maximum drawdown -0.25 |
| Backtest.ZeroPeakSkipped | src/backtest/engine.py:116-119 | the series 0, 10, 5 has maximum drawdown -0.5: the 0 / 0 at the start is skipped |
| Backtest.ZeroPeakUnbounded | src/backtest/engine.py:116-119 | the series 0, -5 has maximum drawdown minus infinity |
| Backtest.ReplayDrawdownFinite | src/backtest/engine.py:50-87 | a replay started flat with positive cash has a finite maximum drawdown, because the first bar never trades |
| Backtest.SharpeRatio | src/backtest/engine.py:121-126 | 0 with no returns or zero deviation; otherwise the ratio times the deviation is the mean excess return times the annualisation factor |
| Backtest.ExcessMean | src/backtest/engine.py:125 | the mean of the excess returns is the mean return less the daily risk-free rate |
| Backtest.IndicatorsAfter | src/strategy/sma_crossover.py:33-35 | the indicator cache after n bars: the SMA series of the last bar with a full long window, or the initial cache |
| Backtest.Report | src/backtest/engine.py:90-102 | a metrics failure propagates; otherwise the results carry the metrics, the maximum drawdown of the values, the value and signal series, the bars, the as-written commission total, the charged commission and the run parameters |
| Backtest.BacktestEngine.constructor | src/backtest/engine.py:11-20 | the engine keeps the strategy, initial balance and commission rate, with no results yet |
| Backtest.BacktestEngine.TradeBar | src/backtest/engine.py:59-71 | the strategy's ledger becomes `Traded` of the ledger before the call |
| Backtest.BacktestEngine.ExecuteBar | src/backtest/engine.py:59-78 | the book afterwards and the returned value are those of `Step` |
| Backtest.BacktestEngine.SignalBar | src/backtest/engine.py:52-57 | the signal is bar i's entry of `Signals`, and the indicator cache is as after bars 0..i |
| Backtest.BacktestEngine.ReplayBar | src/backtest/engine.py:50-78 | one loop iteration: the signal is bar i's entry of `Signals`, and the ledger and value series after it are `Run` over bars 0..i, given that they were `Run` over bars 0..i-1 before it |
| Backtest.BacktestEngine.ReplayBars | src/backtest/engine.py:47-78 | the signal series is `Signals`; no BUY of it falls on a zero close among all bars; the final ledger and value series are `Run` over all bars; the indicators hold the last full-window SMA series |
| Backtest.BacktestEngine.RunBacktest | src/backtest/engine.py:22-111 | an empty series fails with no data and changes nothing; otherwise the ledger is the replay's, the result is `Report` of the final metrics at the last close (with `total_commission_paid` as the source computes it), and `results` is set on success |

## Left out

- Fetching the series is left out. That covers the exchange client, pagination, rate limiting, the
  async calls and `close`. `RunBacktest` takes the bars as an argument; `PrepareSeries` models what
  happens to the pages once fetched.
- Logging is left out. So is `generate_report`, which only formats the results as text.
- The `main.py` wiring is not part of this model; `OnlyBuysUnlessBtcUsdt` covers its "BTC/USD" symbol.
- Default arguments are not modelled; every argument is passed explicitly. The defaults are:
  - `symbol="BTC/USDT"` and `timeframe="1h"`;
  - windows 20 and 50 and a fraction of 0.03;
  - cash of 10000 and a commission rate of 0.001.
- Floating point is modelled as exact reals, so rounding is not modelled. A NaN moving average is
  `None`. A drawdown is a `Ratio`, which is a number, NaN or minus infinity.
- Timestamps and the date range are integers. The start and end dates are stored in the results as
  given. The source's `None` default dates, which it also stores as given (engine.py:98-99), have no
  counterpart.
- Summation order over the positions dictionary is left out. It affects only floating-point rounding,
  and each sum here is proved independent of the order.
- Position objects are values in a map. The source mutates them in place, but no other reference to
  them is kept, so the two agree.
- The abstract base class is not modelled as such. Only the SMA strategy is modelled, and it carries
  the base strategy's fields and methods itself.
- The `name` of the strategy is not read by the core and is only stored.
- `generate_signal`'s unused `order_book_data` argument is dropped.
- The pandas `Series` values are sequences indexed by bar: indicators, signals and portfolio values.
  Signals are the `Signal` datatype, not their string values.
- The engine's own `initial_balance` is stored but never read, as in the source.
- SmaCrossover.SmaCrossoverStrategy.constructor: windows are `nat`. A negative window makes pandas
  raise `ValueError` once the series reaches the long window, and that case is not modelled.
- SmaCrossover.CrossoverSignal: requires a non-empty series when the long window is 0. The source
  raises `IndexError` there, and the replay never passes an empty series.
- SharpeRatio: the standard deviation of the returns and the square root of 252 are parameters. The
  return series (`pct_change().dropna()`) is not built, and the Sharpe ratio is not a field of
  `BacktestResult`.
- RunBacktest: requires that no BUY signal falls on a zero close, so the model does not follow
  the source's floating-point behaviour there. The close is a numpy float, so the BUY sizing
  `cash * fraction / close` (sma_crossover.py:61-62) does not raise. The outcome depends on the
  sign of `cash * fraction`:
  - positive or zero: the quantity is +inf, or NaN with no cash or a zero fraction. It passes the
    `quantity <= 0` test (base_strategy.py:81-82). The cost `0 * quantity` is NaN, so the BUY is
    logged as unaffordable (base_strategy.py:93-94). The commission is NaN too (engine.py:70-71),
    so from that bar on the cash, every portfolio value and the metrics are NaN;
  - negative: the quantity is -inf, and the BUY is dropped with no change. The cash becomes
    negative after an all-in BUY (a fraction of 1) pays its commission; a negative fraction has
    the same effect.

  Negative closes are allowed, as in the source.

## Findings

| source | as written | input that shows it | evidently intended | confidence | as-written member | corrected member |
|---|---|---|---|---|---|---|
| src/backtest/engine.py:97 | the reported commission total is the number of trades times the rate | one affordable BUY of 1 unit at 100 with rate 0.001: 0.1 is debited (engine.py:70-71), 0.001 is reported | the sum of price * quantity * rate over the logged trades, which is what the replay debits; the key name and the "Commission Paid: $" line (engine.py:149) describe a money sum | high; not executed | Backtest.CommissionPaidAsReported (the results' `totalCommissionPaid`), with Backtest.ReportedCommissionUndercounts | Backtest.CommissionCharged (the results' `commissionCharged`), with Backtest.FeesAreCommissionCharged |
