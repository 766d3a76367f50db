# Smart order router — a Dafny model

This project models the core of a smart order router for crypto-currency
exchanges. Given an order (buy or sell a quantity of a trading pair) and one
top-of-book quote per exchange, the router sorts the venues by price and fills
the order greedily: cheapest ask first for a buy, highest bid first for a
sell. It reports the planned fills (splits), their volume-weighted average
price and the slippage of that average against the best quoted price. Around
the router sit:

- two even splitters (VWAP and TWAP) that cut an order into equal parts;
- closed-form execution metrics (slippage, implementation shortfall, effective spread);
- a simulator that "executes" a split at a price moved by some basis points, with a 0.1% fee;
- an analytics log of executions (average price, fees, fill rate);
- a backtesting log of routed orders and their executions (average slippage, fees, execution count).

Every `Decimal` of the router is an exact `real` here. A division the code
would perform with a zero divisor panics there. Here it is a precondition
(`Optimizer.Computable`, `numSplits > 0`).

Modules, one per source file:

| file | module | source | form |
|---|---|---|---|
| types.dfy | `Types` | src/types.rs | records as datatypes, sums over splits |
| optimizer.dfy | `Optimizer` | src/router/optimizer.rs | imperative: the greedy loop is a method proved against the function `Walk` |
| router.dfy | `Router` | src/router/mod.rs | the dispatch on the order side |
| splitter.dfy | `Splitter` | src/router/splitter.rs | pure functions |
| metrics.dfy | `Metrics` | src/analytics/metrics.rs | pure functions |
| simulator.dfy | `Simulator` | src/backtesting/simulator.rs | pure functions; clock values are parameters |
| analytics.dfy | `Analytics` | src/analytics/mod.rs | a class with a `results` sequence field |
| backtesting.dfy | `Backtesting` | src/backtesting/mod.rs | a class with `orders` and `results` sequence fields |
| execution.dfy | `Execution` | src/main.rs | routing followed by simulated execution |
| scenarios.dfy | `Scenarios` | src/router/optimizer.rs | worked examples of the router |

## Model

| member | source | states |
|---|---|---|
| Types.SumQtyAppend | src/router/optimizer.rs:31-32 | appending a fill adds its quantity to the filled total and quantity times price to the cost |
| Types.CostAtLeast | src/router/optimizer.rs:31 | fills at prices no lower than `lo` cost at least `lo` per unit |
| Types.CostAtMost | src/router/optimizer.rs:81 | fills at prices no higher than `hi` bring in at most `hi` per unit |
| Optimizer.SortVenues | src/router/optimizer.rs:9-10 | the sorted venues are a permutation of the snapshot, ordered by the side's key |
| Optimizer.SortVenuesOrdered | src/router/optimizer.rs:59-60 | a buy sorts by ascending ask, a sell by descending bid; nothing is added or dropped |
| Optimizer.SortVenuesFrom | src/router/optimizer.rs:9 | every sorted venue comes from the snapshot |
| Optimizer.SortVenuesStable | src/router/optimizer.rs:10 | the sort is stable: venues quoting the same price keep their input order |
| Optimizer.SamePriceKeepsInputOrder | src/router/optimizer.rs:60 | when every venue quotes the same price, the sorted order is the input order |
| Optimizer.TotalSizeSorted | src/router/optimizer.rs:9-10 | sorting does not change the total size on offer |
| Optimizer.WalkFollowsVenues | src/router/optimizer.rs:22-29 | the i-th split is at the i-th sorted venue's exchange and price, and never exceeds that venue's size |
| Optimizer.WalkTrace | src/router/optimizer.rs:17-33 | each split takes min(remaining, venue size) while something remains; the walk stops early only once nothing remains |
| Optimizer.WalkNeverOverfills | src/router/optimizer.rs:23 | the splits never add up to more than the quantity asked for |
| Optimizer.WalkFillsNonNegative | src/router/optimizer.rs:23 | with non-negative sizes, every split quantity is non-negative |
| Optimizer.WalkLeavesShortfall | src/router/optimizer.rs:35-37 | a positive quantity is left over exactly when the venues' total size is below the quantity |
| Optimizer.BestPrice | src/router/optimizer.rs:40-44 | the best price is one venue's price: the lowest ask for a buy, the highest bid for a sell |
| Optimizer.PlanConservation | src/router/optimizer.rs:39-53 | a successful plan fills exactly the order quantity, keeps the order, and its average price is cost over filled quantity |
| Optimizer.SlippageSign | src/router/optimizer.rs:45 | slippage is non-negative when the average is no better than the best price |
| Optimizer.PlanFailsWhenShort | src/router/optimizer.rs:35-37 | routing a positive quantity fails exactly when total liquidity is short, and then with insufficient liquidity |
| Optimizer.FillsNoBetterThanBest | src/router/optimizer.rs:40-44 | no split is priced better than the best quote |
| Optimizer.PlanPriceBound | src/router/optimizer.rs:39-44 | a buy's average price is at least the lowest ask; a sell's is at most the highest bid |
| Optimizer.PlanSlippageNonNegative | src/router/optimizer.rs:45 | with a positive best price, estimated slippage is never negative, on either side |
| Optimizer.EmptySnapshotIsInsufficient | src/router/optimizer.rs:35-37 | with no venues, a positive quantity fails with insufficient liquidity |
| Optimizer.NoLiquidityOnlyForNegativeQuantity | src/router/optimizer.rs:40-44 | the no-liquidity error happens exactly for an empty snapshot and a negative quantity |
| Optimizer.ZeroSizeVenueStillSplit | src/router/optimizer.rs:25-29 | a venue with zero size that the walk reaches still gets a zero-quantity split |
| Optimizer.WalkStep | src/router/optimizer.rs:18-32 | one loop iteration emits the venue's split and continues with the rest of the venues |
| Optimizer.GreedyFill | src/router/optimizer.rs:12-33 | the loop's splits are the greedy walk over the sorted venues; remaining and cost are what the splits leave and cost |
| Optimizer.OptimizeBuyOrder | src/router/optimizer.rs:7-54 | the buy optimizer returns the buy plan, including both error cases |
| Optimizer.OptimizeSellOrder | src/router/optimizer.rs:57-104 | the sell optimizer returns the sell plan, including both error cases |
| Router.Route | src/router/mod.rs:34-37 | dispatch on the side; success keeps the order and fills its quantity; failure with insufficient liquidity exactly when the venues are short |
| Router.RouteOrder | src/router/mod.rs:34-37 | calling the side's optimizer returns the routed plan |
| Scenarios.BuySpillsToSecondVenue | src/router/optimizer.rs:17-45 | a buy of 1.5 takes 1 at 100 and 0.5 at 101: average 301/3, slippage 1/3% |
| Scenarios.SellSpillsToSecondVenue | src/router/optimizer.rs:67-95 | a sell of 2 takes 0.5 at 99 and 1.5 at 98: average 98.25, slippage 25/33% |
| Scenarios.BuyBeyondLiquidityFails | src/router/optimizer.rs:35-37 | buying 5 against 2 on offer fails with insufficient liquidity |
| Scenarios.TiedAsksFirstListedCovers | src/router/optimizer.rs:10 | among equal asks the first listed venue fills first |
| Scenarios.EmptyVenueAppearsInPlan | src/router/optimizer.rs:22-29 | a cheapest venue with zero size appears in the plan as a zero split |
| Splitter.ParseNatToString | src/router/splitter.rs:11 | the decimal text of a split's number can be read back, so numbers and labels correspond one to one |
| Splitter.EvenSplit | src/router/splitter.rs:7-15 | n splits of quantity / n at the placeholder price, labelled by position, adding back up to the quantity |
| Splitter.VwapSplit | src/router/splitter.rs:6-15 | n splits labelled Exchange_1..n, each of quantity / n at 50000, adding back up to the order quantity |
| Splitter.TwapSplit | src/router/splitter.rs:19-29 | n splits labelled Interval_1..n, each of quantity / n at 50000, adding back up to the order quantity |
| Splitter.SplitLabelsDistinct | src/router/splitter.rs:11 | no two splits share a label |
| Splitter.VwapFiveWays | src/router/splitter.rs:36-49 | 10 split five ways gives five splits of 2 |
| Metrics.CalculateSlippage | src/analytics/metrics.rs:5-10 | slippage is non-negative, zero without an expected price or on an exact fill, and otherwise the distance as a percentage of the expected price |
| Metrics.ImplementationShortfall | src/analytics/metrics.rs:13-19 | zero at the decision price; for a positive quantity positive exactly when the execution was dearer, negative exactly when cheaper |
| Metrics.EffectiveSpread | src/analytics/metrics.rs:22-24 | never negative, and zero exactly when executed at the mid price |
| Metrics.EffectiveSpreadSymmetric | src/analytics/metrics.rs:23 | swapping mid and execution prices gives the same spread |
| Metrics.MetricExamples | src/analytics/metrics.rs:30-45 | 100 to 101 is 1% slippage and, over 10 units, a shortfall of 10 |
| Simulator.SimulateExecution | src/backtesting/simulator.rs:7-24 | same venue and quantity; price moved up by one basis point; fees are 0.1% of the executed notional |
| Simulator.SimulateWithSlippage | src/backtesting/simulator.rs:27-42 | same venue and quantity; price moved by the given basis points, upward exactly when they are positive; fees are 0.1% of notional |
| Simulator.FixedIsOneBasisPoint | src/backtesting/simulator.rs:9-10 | the fixed simulation equals the custom one at one basis point |
| Simulator.FeesNonNegative | src/backtesting/simulator.rs:13-14 | fees are never negative while quantity, price and the moved price are non-negative |
| Simulator.SimulationExample | src/backtesting/simulator.rs:50-61 | a split of 1 at 50000 executes at the same venue and quantity, above 50000 |
| Analytics.TotalsAppend | src/analytics/mod.rs:19-21 | appending an execution adds its quantity, value and fees to the totals |
| Analytics.SumFeesConcat | src/backtesting/mod.rs:48-50 | fees of two runs of executions add up |
| Analytics.ValueBetween | src/analytics/mod.rs:29-39 | executions priced within [lo, hi] are worth between lo and hi per unit |
| Analytics.ExecutionAnalytics.constructor | src/analytics/mod.rs:13-17 | a new log is empty |
| Analytics.ExecutionAnalytics.AddResult | src/analytics/mod.rs:19-21 | the execution is appended; fees and executed quantity grow by its own |
| Analytics.ExecutionAnalytics.AverageExecutionPrice | src/analytics/mod.rs:24-46 | the volume-weighted average price, or zero when no positive quantity was executed |
| Analytics.ExecutionAnalytics.TotalFees | src/analytics/mod.rs:49-51 | zero for an empty log, never negative when no fee is |
| Analytics.ExecutionAnalytics.FillRate | src/analytics/mod.rs:54-61 | executed quantity as a percentage of the original; 100 exactly when fully filled; zero for a non-positive original |
| Analytics.AveragePriceWithinRange | src/analytics/mod.rs:24-46 | the average execution price lies between the lowest and the highest executed price |
| Backtesting.LogAppend | src/backtesting/mod.rs:25-27 | appending a backtest extends the flattened executions, the count, the fees and the slippage sum by its own |
| Backtesting.FlattenCount | src/backtesting/mod.rs:64 | the per-order execution counts add up to the number of flattened executions |
| Backtesting.FlattenFees | src/backtesting/mod.rs:45-51 | fees over the flattened executions equal the sum of per-order fee totals |
| Backtesting.SlippageBetween | src/backtesting/mod.rs:35-39 | logged slippages within [lo, hi] sum to between n·lo and n·hi |
| Backtesting.BacktestEngine.constructor | src/backtesting/mod.rs:14-19 | a new engine has no orders and no results |
| Backtesting.BacktestEngine.AddOrder | src/backtesting/mod.rs:21-23 | the order is appended; results are untouched |
| Backtesting.BacktestEngine.AddResult | src/backtesting/mod.rs:25-27 | the backtest is appended; orders are untouched; fees and execution count grow by its own |
| Backtesting.BacktestEngine.AverageSlippage | src/backtesting/mod.rs:30-42 | zero for an empty log, otherwise the mean estimated slippage |
| Backtesting.BacktestEngine.TotalFees | src/backtesting/mod.rs:45-51 | the fees of all executions equal the sum of the per-order fee totals |
| Backtesting.BacktestEngine.TotalExecutions | src/backtesting/mod.rs:64 | the execution count equals the number of flattened executions |
| Backtesting.AverageSlippageWithinRange | src/backtesting/mod.rs:30-42 | the average slippage lies within the range of the logged slippages |
| Execution.SimulationKeepsQuantity | src/main.rs:49-60 | simulating each split executes exactly the planned quantity |
| Execution.ExecutedPlanIsFullyFilled | src/main.rs:45-62 | recording the simulated executions of a successful plan reports a 100% fill rate |

## Code versus documented behaviour

The model follows the code in these places, where the repository's
documentation reads differently:

- Zero-quantity splits are emitted. A venue the greedy loop reaches with an
  empty book still gets a split of quantity 0 (`Optimizer.ZeroSizeVenueStillSplit`,
  `Scenarios.EmptyVenueAppearsInPlan`).
- An empty snapshot with a positive quantity fails with insufficient
  liquidity, not with "no liquidity available": the shortfall check comes
  first (`Optimizer.EmptySnapshotIsInsufficient`). "No liquidity available"
  happens only for an empty snapshot and a negative quantity
  (`Optimizer.NoLiquidityOnlyForNegativeQuantity`).
- A zero quantity, or a zero best price, makes the code divide by zero and
  panic. These are the preconditions of `Optimizer.Computable`. A negative
  quantity is accepted and routes to no splits.

## Left out

- Exchange connectors and the liquidity collection loop (src/router/mod.rs:23-31): network I/O. The router takes the snapshot as a parameter.
- `generate_report` and `summary`: string formatting only. The order count that `summary` prints is the length of `orders`.
- The demo program (src/main.rs) beyond the route-then-simulate flow of `Execution`.
- Logging calls.
- Decimal precision: `Decimal` has 28 significant digits, and its rounding and overflow are not modelled. Arithmetic is exact over `real`, so `10 / 3` times 3 gives back 10 here.
- The wall clock: the execution id (`ORDER_<seconds>`) and the timestamp are caller-supplied parameters of the simulator.
- `sort_by` is the standard library's stable sort. It is modelled as a stable insertion sort (`SortVenues`), specified by permutation, ordering and stability, not by its algorithm.
- Limit orders: the order type and limit price are carried but never enforced, in the code as in the model.
- Optimizer.Computable: the panics on division by zero are preconditions rather than modelled failures.
- Splitter.VwapSplit, Splitter.TwapSplit: zero splits divides by zero and panics; this is the precondition `> 0`.
