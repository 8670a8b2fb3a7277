# Paper-trading engine core, modelled in Dafny

This project models the in-memory core of a small paper-trading engine written in Go:

- **Position engine** (`Simulator`, sim.dfy). An account holds cash, at most one open position per symbol, and the last price seen per symbol.
  - Orders come in as signals: an open is suppressed when the symbol already has a position, and rejected when its cost exceeds the cash.
  - Every price tick is recorded, then closes each position, of any symbol, that the tick's price stops out.
  - Equity is cash plus unrealized profit or loss over the positions that have a non-zero last price.
  - The trade log and the equity log are ghost sequences of records (no time stamps, no number formatting).
- **Unit-lot account** (`UnitAccount`, account.dfy). This is an older account where each buy adds one unit and pays its price, and each sell of a held symbol removes one unit and receives its price. It has its own module because the Go file declares the same type name as the position engine.
- **Signal generators.**
  - The moving-average crossover (`SimpleMovingAverage`, simple_ma.dfy).
  - The RSI generator with its seeding and Wilder-smoothing phases (`Rsi`, rsi.dfy).
  - The composite, which returns the first non-empty sub-signal and does not step the generators after it (`Composite`, composite.dfy).
  - The per-market SMA5/SMA20 strategy with its order-handler calls (`SmaStrategy`, sma_strategy.dfy).
- **Indicators** (`Indicators`, indicators.dfy): EMA and ATR as array/sequence loops, stated against the pure sums, means and windows of `Series` (series.dfy).
- **Values** (`Types`, types.dfy): the candle and signal records.
- **Scenarios** (`SimScenarios`, sim_scenarios.dfy): the position engine's operations applied to concrete numbers, with the outcomes proved.

Modelling conventions:

- `float64` is `real`, so nothing rounds and there is no NaN.
- Each stateful Go type is a Dafny `class` with the same fields.
  - Methods, whose loops carry invariants, are proved against pure step functions over a state datatype (`MaNext`/`MaSignal`, `RsiNext`/`RsiOutput`, `CompositeStep`, `KlineStep`).
  - The properties the Go code promises are proved as lemmas about those functions.
- Go's map iteration order is unspecified. The loops over maps therefore pick an arbitrary remaining key. Their results are stated with `Total`, a sum over a map that is proved not to depend on the order of visit in exact arithmetic (`TotalRemove`, `ExitSumOrderFree`). With float64 rounding, the order of the additions could change the last bits of a sum; see the IEEE-754 line under "## Left out".
- The composite's sub-generators are Go interface values. They are modelled as values in a sequence, stepped by a function `(S, real) -> (S, string)`. `Composite.Step` is that function for the two generators of this library.

Three behaviours of the code that a reader might not expect, and that the model keeps:

- **Equity right after an open.** With no tick yet, equity is cash plus unrealized profit or loss, and the notional is not counted. So opening 5 units at 100 on a 1000 account shows equity 500, not 1000 (`SimScenarios.OpenThenStop`, `Simulator.EquityAfterOpen`).
- **Short positions.** Closing credits `exit * size` for shorts as well. The cash change of a short round trip is therefore the negation of its logged profit or loss (`Simulator.OpenCloseCash`).
- **Stop-loss scope.** A tick for one symbol is compared against the stops of all open positions, whatever their symbol.

## Model

| member | source | states |
|---|---|---|
| Simulator.Account.constructor | simulator/sim.go:36-42 | cash and the initial amount equal the argument; positions, last prices and both logs are empty |
| Simulator.Account.Execute | simulator/sim.go:87-123 | a missing signal or an existing position changes nothing; a cost above the cash (strict test) changes no cash or position and appends exactly one `reject_insufficient_cash` record with pl 0; otherwise cash drops by exactly `EntryPrice*Size`, exactly the signal's symbol is added with the signal's fields, every other key is kept, one `open` record and one equity snapshot are appended, and non-negative sizes keep cash non-negative |
| Simulator.Account.OnPriceUpdate | simulator/sim.go:125-146 | the price is recorded for its symbol; the positions left are the old ones minus exactly those the price stops out (of any symbol), and each survivor is a long above its stop, a short below it, or another direction; cash grows by the exit notional of the closed positions, summed independently of order; one stop-loss record per closed position, then one equity snapshot |
| Simulator.Account.ClosePosition | simulator/sim.go:148-161 | a missing key is a no-op; otherwise cash grows by `exit*Size`, only that key is removed, and one `close_<reason>` record with pl `(exit-entry)*Size*Direction` is appended |
| Simulator.Account.WriteTradeLog | simulator/sim.go:163-187 | appends one record carrying direction label, price, size, pl and the current cash |
| Simulator.Account.WriteEquityLog | simulator/sim.go:189-208 | appends one snapshot of equity, cash and unrealized profit or loss |
| Simulator.Account.ComputeUnrealized | simulator/sim.go:210-221 | the loop's sum equals the order-independent total of `(last-entry)*Size*Direction` over positions with a recorded non-zero last price |
| Simulator.Account.GetEquity | simulator/sim.go:223-228 | returns cash plus that unrealized total |
| Simulator.DirectionLabel | simulator/sim.go:171-174 | "SHORT" exactly when the direction is negative, "LONG" exactly otherwise |
| Simulator.StopTriggered | simulator/sim.go:133-141 | a tick at `price` stops a position out exactly when it is a long at or below its stop or a short at or above it, i.e. exactly when it does not survive |
| Simulator.StoppedKeys | simulator/sim.go:132-141 | the keys the tick closes are open positions, none of them survives the price, and every open position left out survives it |
| Simulator.StopLossLog | simulator/sim.go:132-141 | a pass that closes the positions of `order` writes exactly one record per closed position, in that order, each a `close_stop_loss` record for its key |
| Simulator.TotalRemove | simulator/sim.go:213-219 | a map total can take out any entry first, so in exact arithmetic the loops' results do not depend on Go's map iteration order |
| Simulator.UnrealizedOpen | simulator/sim.go:107-116 | opening on a fresh symbol adds its valuation to the unrealized total, or nothing when the symbol has no counting price |
| Simulator.EquityAfterOpen | simulator/sim.go:107-116 | right after an accepted open on a symbol with no counting price, equity has dropped by exactly the order's cost |
| Simulator.PnlTermsAdd | simulator/sim.go:213-219 | visiting one more position adds its profit or loss when it has a non-zero last price and nothing otherwise |
| Simulator.ExitSumIsTotal | simulator/sim.go:132-142 | closing positions in any listed order credits the order-independent total of their exit notionals |
| Simulator.ExitSumOrderFree | simulator/sim.go:132-142 | two closing orders over the same set of positions credit the same cash |
| Simulator.ExitSumNonNegative | simulator/sim.go:155 | at a non-negative price, closes of non-negative sizes never take cash away |
| Simulator.StopProgressClose | simulator/sim.go:133-139 | closing a stopped-out position advances the loop state: cash, remaining positions and log as the closes so far produce them |
| Simulator.StopProgressKeep | simulator/sim.go:132-142 | visiting a position the price does not stop out keeps the loop state |
| Simulator.OpenCloseCash | simulator/sim.go:99-107 | closing at the entry price returns exactly the cost; a long's net cash change is its logged pl; a short's is its negation |
| SimScenarios.OpenThenStop | simulator/sim.go:87-161 | on a 1000 account, opening 5 at 100 with stop 90 leaves cash and equity 500 and logs the `open` record with cash 500; a tick at 90 stops it out and logs a `close_stop_loss` record with pl -50 and cash 950, leaving 950 cash, 950 equity, no position, two trade records and two equity snapshots |
| SimScenarios.OpenLong | simulator/sim.go:87-120 | a fresh 1000 account accepts the long: cash 500, the one position as the signal gives it, no prices, one `open` record, one snapshot |
| SimScenarios.StopLong | simulator/sim.go:125-161 | a tick at 90 closes that long: cash 950, no positions, the `close_stop_loss` record appended, a second snapshot |
| SimScenarios.StopLossRecord | simulator/sim.go:153-158 | the stop-loss record of that close carries price 90, size 5, pl -50 and cash 950 |
| SimScenarios.RejectedOrder | simulator/sim.go:99-104 | an order costing 1200 against 1000 cash opens nothing, keeps the cash and logs one rejection with pl 0 |
| SimScenarios.ExactCashAccepted | simulator/sim.go:99-107 | an order costing exactly the cash is accepted and leaves zero cash |
| UnitAccount.Account.constructor | simulator/account.go:14-19 | the balance is the argument and no units are held |
| UnitAccount.Account.OnOrder | simulator/account.go:22-40 | the new balance and unit counts are exactly `Step` of the old ones |
| UnitAccount.Step | simulator/account.go:26-39 | "buy" adds one unit and subtracts the price with no funds check; "sell" with a positive count removes one and adds the price, otherwise nothing; any other side changes nothing; other symbols keep their count; whole non-negative counts stay so |
| UnitAccount.Replay | simulator/account.go:26-39 | over any run of orders, whole non-negative counts stay whole and non-negative, and a symbol no order names keeps its count |
| UnitAccount.BuyThenSell | simulator/account.go:27-36 | a buy then a sell of the same symbol at the same price restores balance and count |
| SimpleMovingAverage.SimpleMA.constructor | strategy/simple_ma.go:16-22 | the periods are stored and the buffer is empty |
| SimpleMovingAverage.SimpleMA.OnNewPrice | strategy/simple_ma.go:25-48 | the new buffer and the returned signal are exactly `MaNext`/`MaSignal` of the old state |
| SimpleMovingAverage.MaNext | strategy/simple_ma.go:29-32 | the buffer holds the last `min(n, longPeriod)` prices received, in order, and never more than `longPeriod` |
| SimpleMovingAverage.MaSignal | strategy/simple_ma.go:34-47 | defined over everything received: "" while fewer than `longPeriod` prices have arrived, otherwise `CrossSignal` of the mean of the last `shortPeriod` against the mean of the last `longPeriod`; the method is proved against it, and `WarmUpSilent` and `SignalFromWindow` state its properties |
| SimpleMovingAverage.FeedWindow | strategy/simple_ma.go:29-32 | after any run of prices, the buffer is the most recent `longPeriod` of them |
| SimpleMovingAverage.WarmUpSilent | strategy/simple_ma.go:34-36 | a fresh generator returns "" while fewer than `longPeriod` prices have arrived |
| SimpleMovingAverage.CrossSignal | strategy/simple_ma.go:41-47 | "buy" iff short > long, "sell" iff short < long, "" iff equal |
| SimpleMovingAverage.SignalFromWindow | strategy/simple_ma.go:25-48 | once the buffer is full the output depends only on the last `longPeriod` prices, not on earlier history or outputs |
| SimpleMovingAverage.ShortWindow | strategy/simple_ma.go:38 | the last `shortPeriod` buffered prices are the last `shortPeriod` prices received |
| SimpleMovingAverage.Average | strategy/simple_ma.go:50-56 | the summing loop divided by the length is the mean |
| Rsi.RSIStrategy.constructor | strategy/rsi.go:13-19 | a fresh generator: not initialized, no changes recorded, previous close 0 |
| Rsi.RSIStrategy.OnNewPrice | strategy/rsi.go:21-84 | the new state and the signal are exactly `RsiNext`/`RsiOutput` of the old state, and the invariant is kept |
| Rsi.RSIStrategy.Collect | strategy/rsi.go:22-48 | the seeding branch: the new state is `SeedStep` of the old one, the signal is "", and the invariant is kept |
| Rsi.RSIStrategy.RecordChange | strategy/rsi.go:24-34 | the change since a non-zero previous close is appended as a gain and a loss, and the price becomes the previous close |
| Rsi.RSIStrategy.SeedFromChanges | strategy/rsi.go:40-47 | both averages become the means of the first `period` changes and seeding ends |
| Rsi.ChangeRecorded | strategy/rsi.go:24-34 | after a non-zero previous close exactly one gain and one loss are appended whose difference is the change, the split stays well formed, nothing is recorded after a zero previous close, and the price becomes the previous close; the averages and the phase are untouched |
| Rsi.SeedAveraged | strategy/rsi.go:40-47 | seeding ends, the recorded changes and the previous close are kept, each average times `period` is the sum of the first `period` gains or losses, and well-formed changes give non-negative averages |
| Rsi.RSIStrategy.Advance | strategy/rsi.go:51-83 | the smoothing branch as `RsiNext`/`RsiOutput` |
| Rsi.GainLoss | strategy/rsi.go:25-32 | a change splits into gain and loss, both non-negative, at most one non-zero, with difference equal to the change |
| Rsi.RsiNext | strategy/rsi.go:21-66 | while seeding, a first price only sets the previous close and each later one records one gain and one loss; at initialization there are `period` of each and the averages are their means; afterwards both averages are smoothed and stay non-negative; the price always becomes the previous close |
| Rsi.SeedStep | strategy/rsi.go:22-48 | the seeding step keeps the invariant: a change is recorded only after a non-zero previous close, the averages are unchanged until seeding ends and are then the means of the recorded changes |
| Rsi.SmoothStep | strategy/rsi.go:51-66 | the smoothing step keeps the recorded changes and the invariant, and moves each average by Wilder's rule towards the new gain or loss |
| Rsi.SeedAverages | strategy/rsi.go:40-46 | the joint summing loop divided by `period` gives the means of the first `period` gains and losses |
| Rsi.Smooth | strategy/rsi.go:63-64 | Wilder's update lies between the old average and the new value |
| Rsi.RsiValue | strategy/rsi.go:69-75 | 100 when the average loss is 0, always within 0..100, below 100 when there is a loss |
| Rsi.RsiSignal | strategy/rsi.go:78-83 | the buy signal ("买入") iff rsi < 30, the sell signal ("卖出") iff rsi > 70, "" iff in between |
| Rsi.RsiOutput | strategy/rsi.go:36-83 | "" while seeding including the initializing call; always "", the buy or the sell signal; sell whenever the smoothed loss is 0 |
| Rsi.WarmUp | strategy/rsi.go:22-47 | with positive prices, one change per price after the first; not initialized up to `period` prices; the next price initializes with the means |
| Rsi.WarmUpSilent | strategy/rsi.go:36-48 | the first `period + 1` calls on positive prices return "" |
| Composite.CompositeStrategy.constructor | strategy/composite.go:14-18 | the sub-generators are stored in order |
| Composite.CompositeStrategy.OnNewPrice | strategy/composite.go:22-30 | the new sub-generator states and the signal are exactly `CompositeStep` of the old ones |
| Composite.FirstFire | strategy/composite.go:23-27 | the index of the first firing sub-generator: all before it silent, it fires, or none fires |
| Composite.Step | strategy/composite.go:24 | offering a price to one sub-generator steps it by its own rule (`MaNext`/`MaSignal` or `RsiNext`/`RsiOutput`) and keeps its kind |
| Composite.CompositeStep | strategy/composite.go:22-30 | the short-circuit search keeps the number of sub-generators; its meaning (first firing signal, prefix stepped, rest untouched) is `CompositeFirst` |
| Composite.CompositeFirst | strategy/composite.go:22-30 | the result is the first non-empty sub-signal, or "" when there is none; the generators up to and including it are stepped once each with the same price, the later ones are unchanged |
| Composite.CompositeSilent | strategy/composite.go:23-29 | "" iff every sub-generator is silent, so an empty list yields "" |
| Composite.CompositeStopsAt | strategy/composite.go:23-27 | a firing generator after silent ones ends the search with its signal |
| Composite.CompositeRunsThrough | strategy/composite.go:23-29 | when all are silent every generator is stepped and the result is "" |
| Composite.FirstRegisteredWins | strategy/composite.go:23-27 | an RSI generator listed before a crossover generator wins the tick it sells on, and the crossover is not stepped |
| SmaStrategy.Sma | strategy/sma_strategy.go:39-48 | 0 with fewer than `period` values, otherwise the mean of the last `period` |
| SmaStrategy.SmaValue | strategy/sma_strategy.go:39-48 | the average the summing loop `Sma` computes; it is never negative over non-negative closes |
| SmaStrategy.KeyOf | strategy/sma_strategy.go:51 | the market key is the symbol and the interval joined with "_"; `OtherMarketsUntouched` and `BufferHoldsRecent` are stated per key |
| SmaStrategy.EntryTimeBar | strategy/sma_strategy.go:107-110 | the bars since entry are the constant 0, so the minimum-hold filter compares the bar count itself with `minHoldBars` (`DecideSound`) |
| SmaStrategy.Decide | strategy/sma_strategy.go:67-103 | the decision for one candle: hold on a zero average, hold on a held position younger than the minimum, open on a cross above when not long, close on a cross below when long, else hold; its properties are `DecideSound` and `CrossoverDecides` |
| SmaStrategy.KlineStep | strategy/sma_strategy.go:50-104 | one candle as a state transition: record the close and the bar, then carry out `Decide`; its properties are `KlineStepValid`, `KlineStepEffect`, `OtherMarketsUntouched` and `BufferHoldsRecent` |
| SmaStrategy.SMAStrategy.constructor | strategy/sma_strategy.go:28-36 | everything empty, the minimum hold stored |
| SmaStrategy.SMAStrategy.OnNewKline | strategy/sma_strategy.go:50-104 | the new maps and handler calls are exactly `KlineStep` of the old ones, and the invariant is kept |
| SmaStrategy.SMAStrategy.Choose | strategy/sma_strategy.go:67-103 | the filters and crossover tests decide as `Decide` |
| SmaStrategy.SMAStrategy.RecordKline | strategy/sma_strategy.go:56-64 | the close is appended to the bounded buffer and the bar counted, as `Record` |
| SmaStrategy.SMAStrategy.Act | strategy/sma_strategy.go:85-103 | the decision is carried out as `Trade` |
| SmaStrategy.Trade | strategy/sma_strategy.go:85-103 | closes and bar counts are untouched and so is every other market's position; a hold makes no call, an open sets `{close, 1}` and appends one "buy" call, a close sets size 0 and appends one "sell" call, and earlier calls are kept |
| SmaStrategy.Record | strategy/sma_strategy.go:56-64 | positions and calls are untouched; the market's bar count grows by 1; a buffer of at most 100 closes becomes the last 100 of it followed by the close; every other market is untouched |
| SmaStrategy.Window | strategy/sma_strategy.go:58-60 | one close appended to at most 100 keeps at most 100 |
| SmaStrategy.WindowKeepsRecent | strategy/sma_strategy.go:56-61 | the bounded buffer always holds the most recent 100 closes |
| SmaStrategy.BufferHoldsRecent | strategy/sma_strategy.go:51-61 | a market's buffer, keyed by `symbol + "_" + interval`, holds the most recent 100 closes after each candle |
| SmaStrategy.KlineStepEffect | strategy/sma_strategy.go:56-103 | the buffer gets the close, the bar count grows by exactly 1, a hold changes no position and makes no call, an open sets `{close, 1}` with one ("buy", close) call, a close resets to zero with one ("sell", close) call |
| SmaStrategy.DecideSound | strategy/sma_strategy.go:70-103 | an average of 0 (so fewer than 20 closes) holds; a position held while the bar count is below the minimum holds, since the entry bar is always 0; an open needs sma5 > sma20 and no long; a close needs sma5 < sma20 and a long |
| SmaStrategy.CrossoverDecides | strategy/sma_strategy.go:85-103 | past the filters, open iff sma5 > sma20 with no long, close iff sma5 < sma20 with a long |
| SmaStrategy.KlineStepValid | strategy/sma_strategy.go:56-103 | every candle keeps at most 100 closes per market, sizes 0 or 1, and per market handler calls alternating buy, sell, ... starting with buy, with a long held exactly after an odd number of calls |
| SmaStrategy.OrderStep | strategy/sma_strategy.go:85-103 | one buy on a flat market or one sell on a long one keeps the alternation invariant |
| SmaStrategy.OtherMarketsUntouched | strategy/sma_strategy.go:50-104 | a candle leaves every other market's closes, bar count, position and handler calls unchanged |
| Indicators.EMA | utils/indicators.go:8-31 | nil iff `n < period` or `period <= 0`; otherwise a newly allocated array of length `n`, entry `period-1` is the mean of the first `period` values, each later entry follows the recurrence with weight `2/(period+1)`, and the front entries are back-filled with the seed |
| Indicators.TrueRange | utils/indicators.go:40-43 | at least the high-low span and both distances from the previous close, hence non-negative |
| Indicators.TrueRangeAttained | utils/indicators.go:43 | the true range equals one of those three distances |
| Indicators.TrueRanges | utils/indicators.go:38-45 | one true range per candle after the first, each from its two candles |
| Indicators.ATR | utils/indicators.go:34-54 | 0 with fewer than `period+1` candles, otherwise the mean of the last `period` true ranges, never negative; the second guard cannot fire |
| Series.SumFrom | utils/indicators.go:49-52 | the summing loop over a trailing slice equals its sum |
| Series.LastNAppend | strategy/simple_ma.go:29-32 | trimming to the last `n` after each append equals trimming the whole history |
| Series.LastNSuffix | strategy/simple_ma.go:29-39 | the last `n` values of a series at least `n` long do not depend on what came before it |

## Left out

- File handling and console output are not modelled: opening the CSV files and writing their headers in the constructor, `Close`, time stamps, `%.8f` formatting and `Printf`/`log.Printf`. Only the contents of the log records are kept, as ghost sequences.
- The `sync.Mutex` locks are not modelled. Each public method is treated as atomic.
- IEEE-754 behaviour (rounding, NaN or infinity from a zero divisor) is not modelled, because prices are `real`.
- Rsi.RSIStrategy.constructor: requires a period of at least 1. A negative period makes `NewRSIStrategy` panic, since it allocates the gain and loss buffers with that capacity, and a zero period makes the seeding divide 0 by 0.
- SimpleMovingAverage.SimpleMA.constructor: requires `1 <= short <= long`, because otherwise the Go code divides by zero or slices out of range.
- Indicators.ATR: requires a period of at least 1. A zero period makes the Go code divide 0 by 0. A negative period panics when there are no candles, because the true-range buffer is allocated with capacity -1; with at least one candle it returns 0 divided by the period.
- Rsi.RsiValue: requires non-negative averages, which is what the RSI invariant guarantees.
- SimpleMovingAverage.Average: requires a non-empty series. The Go code would return NaN for an empty one, but it only averages full windows.
- The trade and equity logs skip writing when their CSV writer is missing, which cannot happen after the constructor. The model always appends.
- Composite.CompositeStrategy.OnNewPrice: sub-generators are values in a sequence, not shared pointers. Aliasing (the same generator listed twice, or also used elsewhere) and composites nested inside composites are not modelled.
- SmaStrategy.SMAStrategy.OnNewKline: the order handler's body is not modelled. Each call is recorded as an entry of a ghost trace of (market key, symbol, side, price).
- SmaStrategy.KeyOf: two different (symbol, interval) pairs can produce the same key, e.g. ("a_b", "c") and ("a", "b_c"). The model keys markets exactly as the Go code does and does not exclude this.
- The entry time of a position, and `OpenedAt`/`Time` as clock values, are abstracted. `Position.EntryTimeBar` is the constant 0 it is in the Go code.
- The websocket client, the REST fetcher and the process wiring (data/ws.go, data/fetch.go, main.go) are not part of this model.
- strategy/sma.go and strategy/signal.go are not part of this model, because their content is entirely commented out.
