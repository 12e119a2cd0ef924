# Position accounting and the backtest driver of pytech

This project models two sequential parts of the pytech trading library and
proves properties of them in Dafny.

- **`OwnedAsset`** (`owned_asset.dfy`, module `OwnedAssets`) is the mutable
  record of one held position. It holds a ticker, a side (LONG or SHORT), a
  share count, the average price paid, the latest price, and a running
  position cost and position value. The class `OwnedAsset` has the source's
  fields and methods: construction, `from_trade`, the `shares_owned` setter,
  `make_trade`, `_set_position_cost_and_value`,
  `update_total_position_value` and `return_on_investment`. Four of them are
  proved against a pure function on the value type `Holding`, and the
  properties are proved about those functions:
  - the constructor, `New` and `FromTradeCorrected` against `Opened`;
  - `SetPositionCostAndValue` against `WithCostAndValue`;
  - `MakeTrade` against `AfterTrade`;
  - `UpdateTotalPositionValue` against `MarkedToMarket`.

  `SetSharesOwned` is stated as a direct update of the share count.
  `FromTrade` and `ReturnOnInvestment` model the code as written, which
  always raises TypeError (see "## Findings").

  The central property is the sign convention:
  the cost is always moved by the exact negation of the value, so
  `value + cost` is zero after construction and no trade changes it.
- **`Backtest.run`** (`backtest.dfy`, module `Backtesting`) is the driver loop.
  It asks the data handler for one bar at a time until the handler raises
  StopIteration. After each bar it drains the shared FIFO event queue with
  non-blocking `get`. Each event is dispatched by type to the strategy,
  portfolio or execution handler, and the SIGNAL, TRADE and FILL counters
  are bumped. The queue (`EventQueue`), the data handler (`BarFeed`) and the
  driver (`Backtest`) are classes. The loops are proved against two pure
  specifications:
  - `DrainFrom`: the entries a drain dequeues;
  - `RunLog`: the entries a whole run dequeues, bar by bar.

  A ghost record `Progress` holds four things: the entries dequeued, the
  handler calls made, and the three counters. Every loop is stated as
  advancing that record by its specification's log.

Python numbers are split into integral and other values, so the setter's
`TypeError` is modelled. Exceptions are modelled as an `Outcome`:
`Returned(value)` or `Raised(error)`. Prices are exact reals.

## Model

| member | source | states |
|---|---|---|
| OwnedAssets.OwnedAsset.constructor | pytech/fin/asset/owned_asset.py:21-43 | The new asset's state is `Opened(ticker, shares, side, price)`. |
| OwnedAssets.Opened | pytech/fin/asset/owned_asset.py:37-43 | After construction, the average price paid and the latest price both equal the purchase price. LONG has value `p*n` and cost `-(p*n)`. SHORT has the opposite signs. On both sides `value + cost = 0`. |
| OwnedAssets.OwnedAsset.New | pytech/fin/asset/owned_asset.py:42-54 | Calling the class raises TypeError exactly when the share count is not integral. Otherwise it returns a fresh asset in the `Opened` state. |
| OwnedAssets.OwnedAsset.SetSharesOwned | pytech/fin/asset/owned_asset.py:49-54 | The setter stores the value exactly when it is integral. Otherwise it raises TypeError and changes nothing. |
| OwnedAssets.Plus | pytech/fin/asset/owned_asset.py:112 | `shares_owned + qty` is integral exactly when both operands are. It is then their sum. |
| OwnedAssets.WithCostAndValue | pytech/fin/asset/owned_asset.py:124-138 | The signed amount `price * shares` is added to the value, and its negation to the cost. `value + cost` is unchanged, and so is every other field. |
| OwnedAssets.OwnedAsset.SetPositionCostAndValue | pytech/fin/asset/owned_asset.py:124-138 | The new state is `WithCostAndValue(old state, price)`. |
| OwnedAssets.Divide | pytech/fin/asset/owned_asset.py:116-119 | The division raises ZeroDivisionError exactly when the share count is 0. Otherwise `result * shares == value`. |
| OwnedAssets.AfterTrade | pytech/fin/asset/owned_asset.py:104-122 | The shares grow by qty. The value moves by the signed `price * new shares`, and the cost by the negation, so `value + cost` is preserved. At 0 shares the value, cost and average are unchanged. Otherwise `average * shares == value`. Ticker, side and latest price are untouched. |
| OwnedAssets.OwnedAsset.MakeTrade | pytech/fin/asset/owned_asset.py:104-122 | A non-integral qty raises TypeError with the state unchanged. An integral qty leaves the state `AfterTrade(old, qty, price)`. It returns None when the position is now empty, otherwise the asset itself. |
| OwnedAssets.AfterTrades | pytech/fin/asset/owned_asset.py:104-122 | No sequence of trades changes the ticker, the side or the latest price. |
| OwnedAssets.TradesKeepNet | pytech/fin/asset/owned_asset.py:112-138 | No sequence of trades moves `value + cost`. |
| OwnedAssets.OpenedThenTradedIsBalanced | pytech/fin/asset/owned_asset.py:21-43 | From construction through any sequence of trades, `value + cost` stays 0. |
| OwnedAssets.AverageDriftsOnSamePriceBuy | pytech/fin/asset/owned_asset.py:112-118 | Hold n shares bought at p, then buy n more at p. The result is 2n shares, value `3*p*n` and average `1.5*p`, so make_trade is not a weighted average. |
| OwnedAssets.MarkedToMarket | pytech/fin/asset/owned_asset.py:140-156 | The latest price is replaced. The value is overwritten with the signed `latest price * shares`. Shares, cost, average, side and ticker are unchanged. |
| OwnedAssets.OwnedAsset.UpdateTotalPositionValue | pytech/fin/asset/owned_asset.py:140-156 | The new state is `MarkedToMarket(old state, latest price)`. |
| OwnedAssets.MarkIdempotent | pytech/fin/asset/owned_asset.py:150-156 | Marking twice at the same price is the same as marking once. |
| OwnedAssets.Holding.MarketValue | pytech/fin/asset/owned_asset.py:71-76 | `market_value` is `shares * latest price`, by the same formula on both sides. It is zero exactly when no shares are held or the price is zero. It is non-negative for a non-negative share count and price. |
| OwnedAssets.MarketValueIgnoresSide | pytech/fin/asset/owned_asset.py:71-76 | Changing the side of a holding does not change its market value. |
| OwnedAssets.MarkedValueIsSignedMarketValue | pytech/fin/asset/owned_asset.py:71-76 | `market_value` is `shares * latest price` on both sides. After a mark, the recorded value is that market value with the side's sign. |
| OwnedAssets.OwnedAsset.FromTrade | pytech/fin/asset/owned_asset.py:94-102 | As written, every call raises TypeError, whatever the trade holds. |
| OwnedAssets.OwnedAsset.FromTradeCorrected | pytech/fin/asset/owned_asset.py:94-102 | With the price passed under `avg_share_price`, the call raises TypeError exactly when the trade's quantity is not integral. Otherwise it returns a fresh asset in the state `Opened(trade ticker, trade qty, side, trade price)`. |
| OwnedAssets.FromTradeDiscrepancy | pytech/fin/asset/owned_asset.py:94-102 | For any trade with an integral quantity, the as-written call raises. The corrected call returns an asset holding that quantity at that price. |
| OwnedAssets.OwnedAsset.ReturnOnInvestment | pytech/fin/asset/owned_asset.py:158-166 | As written, every call raises TypeError. |
| OwnedAssets.ReturnOnInvestmentCorrected | pytech/fin/asset/owned_asset.py:164-166 | The asset is marked at its own latest price. The result raises ZeroDivisionError exactly when the cost is 0. Otherwise `result * -cost == value + cost`. |
| OwnedAssets.RoiOfOpenedPosition | pytech/fin/asset/owned_asset.py:164-166 | A position opened with n shares at p and marked at lp has return `(lp - p) / p`, on either side. On SHORT this inverts the sign of the result: a falling price is a profit `(p - lp) * n` for a short, yet the return is negative, because the expression divides by `-cost = -(p * n)`. |
| OwnedAssets.ReturnOnInvestmentDiscrepancy | pytech/fin/asset/owned_asset.py:163-166 | On any asset with a non-zero cost, the as-written method raises. The corrected expression returns a value. |
| Backtesting.Backtest.constructor | pytech/backtest/backtest.py:65-71 | The queue starts empty and the three counters start at 0. No entry has been dequeued and no handler called, so the bookkeeping invariant `Counted` holds. |
| Backtesting.EventQueue.Get | pytech/backtest/backtest.py:113-116 | `get(False)` reports Empty exactly when the queue is empty, and then changes nothing. Otherwise it returns the head and removes it. |
| Backtesting.BarFeed.UpdateBars | pytech/backtest/backtest.py:107-110 | `update_bars` raises StopIteration exactly when no bar is left. Otherwise it appends the next bar's entries to the queue and advances by one. |
| Backtesting.CallsFor | pytech/backtest/backtest.py:123-137 | MARKET calls generate_signals and then update_timeindex. SIGNAL, TRADE and FILL each call their one handler. None and any other type call nothing. Every call receives the dequeued event. |
| Backtesting.Backtest.Invoke | pytech/backtest/backtest.py:126-137 | A handler call is recorded, and its output is appended to the queue. The counters do not change. |
| Backtesting.Backtest.ProcessEvent | pytech/backtest/backtest.py:123-137 | The calls made are `CallsFor(event)`, in order. The queue grows by exactly what they push. Each counter grows by 1 for an event of its own type and by 0 otherwise. |
| Backtesting.CountOfOne | pytech/backtest/backtest.py:129-137 | One entry counts towards a type exactly when it is an event of that type. |
| Backtesting.Backtest.ProcessNext | pytech/backtest/backtest.py:113-121 | One inner-loop turn: Empty exactly when the queue is empty. Otherwise the head is dequeued, the queue becomes tail plus what the head pushed, and the progress advances by that one entry. |
| Backtesting.Backtest.DrainEvents | pytech/backtest/backtest.py:112-121 | The inner loop ends with an empty queue. Its progress is exactly `DrainFrom(starting queue)`. |
| Backtesting.DrainIsFifo | pytech/backtest/backtest.py:113-121 | A drain dequeues the starting queue first. It then dequeues everything the dequeued entries pushed, in push order, within the same drain. |
| Backtesting.DrainStepDecreases | pytech/backtest/backtest.py:112-121 | Under the causal-order assumption, one step of the drain lowers the per-rank counts lexicographically, so the drain terminates. |
| Backtesting.Backtest.PlayBar | pytech/backtest/backtest.py:103-121 | One outer-loop turn. At StopIteration nothing changes. Otherwise the next bar is queued and the whole queue is drained, leaving it empty for the next `update_bars`. |
| Backtesting.Backtest.Run | pytech/backtest/backtest.py:100-121 | With N bars left, `update_bars` is called N+1 times and the iteration count ends at N+1. Every bar is consumed. The queue ends empty when at least one bar was played. With no bar left at the start, the pending entries stay queued, as in the source. The progress is exactly `RunLog`: the pending entries and the first bar are drained, then each later bar, each bar only after the previous one's drain. |
| Backtesting.PlayedIsRunLog | pytech/backtest/backtest.py:103-121 | Accumulating progress bar by bar equals processing the whole run log at once. |
| Backtesting.RunLogSnoc | pytech/backtest/backtest.py:103-121 | One more bar appends exactly that bar's drain to the run log. |
| Backtesting.RunLogIsBarByBar | pytech/backtest/backtest.py:103-121 | A run dequeues the pending entries and the first bar's entries before anything else. |
| Backtesting.AdvanceKeepsCounted | pytech/backtest/backtest.py:119-137 | Processing more entries keeps each counter equal to the number of dequeued events of its type. It keeps the call log equal to the calls due for the dequeued entries. No counter decreases. |
| Backtesting.EntriesPartition | pytech/backtest/backtest.py:119-137 | Every dequeued entry is exactly one of: a counted event (SIGNAL, TRADE or FILL), a MARKET event, an event of another type, or None. |

## Left out

- Backtest.DrainEvents, Backtest.PlayBar, Backtest.Run: these require `Causal(handlers)`, an assumption the source does not make. It says every handler pushes only entries of a strictly later rank than the event it handles: MARKET, then SIGNAL, then TRADE, then FILL, then None and other types. Without some such bound the inner loop need not terminate, and nothing in the code bounds it.
- Backtest.Run: `run` returns None. The model returns the local iteration count so that it can be stated.
- Backtest.DrainEvents, Backtest.ProcessNext, Backtest.PlayBar: these are the bodies of run's two nested loops, split into methods. The order of the steps is the source's.
- ReturnOnInvestmentCorrected: the evident fix of the refresh at line 163 is assumed to be a mark at the asset's own latest price. The source gives no price or date for it.
- The strategy, portfolio and execution handler are handler functions from an event to the entries they put on the queue. The data handler is a finite sequence of bars, each a list of entries that `update_bars` puts on the queue. The blotter, the collaborators' own state, `check_liquidity` and cash handling are not part of this model.
- The class defaults and `_init_trading_instances` wiring in `Backtest.__init__`, as well as `pre_run_hook` and logging. They carry no logic.
- `queue.Queue` thread safety and blocking behaviour. The queue is a single-threaded sequence.
- Event payloads are an integer that only the collaborators read.
- Dates: `purchase_date`, `latest_price_time`, and the `price_date` argument of `update_total_position_value`. They are external parsing and clock reads.
- `Position.check_if_valid` is replaced by a two-valued datatype. The `Asset`-unwrapping `ticker` property is replaced by a plain string, because `Asset` is not part of this model.
- Floating point: prices are exact reals, with no IEEE rounding.
- `market_correlation`, `calculate_beta`, `_get_pct_change` and `_get_portfolio_benchmark`. They are pandas statistics and network fetches.
- The database helpers in `pytech/db_utils.py` and `pytech/__init__.py`. They are I/O only.
- The field name `average_share_price_paid` and the `make_trade` docstring ("the average price per share in the trade") suggest a weighted-average update. The code is not one, and the model follows the code: the price is charged on the whole post-trade share count, and the value is only re-marked by `update_total_position_value`. No weighted-average or realised-P&L property is claimed. AverageDriftsOnSamePriceBuy shows the difference.

## Findings

| source | as written | input that shows it | evidently intended | confidence | as-written member | corrected member |
|---|---|---|---|---|---|---|
| pytech/fin/asset/owned_asset.py:163 | `return_on_investment` first calls `update_total_position_value()` with none of its two required arguments, so it always raises TypeError | any asset, e.g. 10 shares LONG at 5.0 | refresh the value, then return `(value + cost) / -cost` | high, not executed | OwnedAssets.ReturnOnInvestmentDiscrepancy | OwnedAssets.RoiOfOpenedPosition |
| pytech/fin/asset/owned_asset.py:98 | `from_trade` passes the price under the keyword `average_share_price`, which `__init__` does not take (it takes `avg_share_price`), so `cls(**...)` raises TypeError | any trade, e.g. qty 10 at 5.0, LONG | build the asset with `avg_share_price=trade.avg_price_per_share` | high (unless a subclass's `__init__` takes that keyword), not executed | OwnedAssets.FromTradeDiscrepancy | OwnedAssets.OwnedAsset.FromTradeCorrected |
