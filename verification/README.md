# Saalr platform: verified core

A Dafny 4.11 model of the numeric and stateful core of the Saalr platform, with proofs. `dafny verify dfyconfig.toml` checks everything.

- **Expiry analytics** (`payoff.dfy`, `max_pl.dfy`, `breakeven.dfy`, `profit_ranges.dfy`, `profit_tail.dfy`, `pop.dfy`, `analysis.dfy`, `valuation.dfy`). A finite spot grid answers questions about a piecewise-linear payoff on all of [0, oo). The grid is proved to see every kink, and each reader of the grid is proved exact over every spot, or exactly when it is not is stated.
- **Backtest** (`vol.dfy`, `metrics.dfy`, `template.dfy`, `engine.dfy`, `backtest_laws.dfy`, `backtest_trades.dfy`). The rolling simulation as a loop, proved equal to a day-by-day state function, and the laws of every run: closed books, settlement schedule, no look-ahead.
- **Order management** (`positions.dfy`, `orders.dfy`, `paper.dfy`, `ledger.dfy`, `service.dfy`, `order_laws.dfy`, `strategy_orders.dfy`, `reconcile.dfy`, `runs.dfy`, `records.dfy`, `replay.dfy`, `paper_ledger.dfy`, `paper_runs.dfy`, `oms.dfy`). The tables are one value (`Ledger.Db`); `Oms.OmsTables` is the same state as mutable fields whose methods run the source's row operations in the source's order and are proved to have the effect of the functions. All theorems about runs are stated on the functions.
- **Two protocols** (`implied_vol.dfy`, `llm_budget.dfy`).

Floats and decimals are `real`. Dates are day numbers. The option pricer, logarithm, square root, vega and the terminal-price CDF are arbitrary functions passed as arguments; only what a lemma's `requires` says is assumed of them. Order ids are row positions. The broker, the marks and the clock are arguments of the operations that meet them. Proofs with products go through `Numbers.Mul` and `Numbers.Times`, whose bodies the proofs hide.

## What turned out not to hold

- `max_pl` misreads an unbounded payoff when the last grid step moves it by no more than the tolerance; `MaxPlExactIff` gives the exact condition, `TinySpotIsMisread` an instance.
- `profit_intervals` loses the last range when the last grid point but one is a breakeven and the payoff is positive at the end of the grid: the midpoint is then equally far from both and the tie goes to the breakeven. `ProfitIntervalsExactIff` says this is the only way it is wrong on the grid; `ShareBoughtAtTheTie` is an instance.
- Breakevens and profit ranges past the end of the grid are lost: the payoff may still cross zero there. `CompleteIff` and `ExactEverywhereIff` say that over all of [0, oo) the two are right if and only if the payoff is settled at the end of the grid (flat, or already on the side it is heading for) and, for the ranges, the tie does not occur; `ShareBoughtPastTheGrid` is an instance.
- The bisection fallback of `implied_vol` walks away from a root that is exactly the lower end of its bracket, because a zero lower value never has the opposite sign. On an increasing curve its promise is kept if and only if the lower end is below the root or the first midpoint is already within tolerance (`BisectExactIff`); for the whole routine, also when Newton succeeds (`ImpliedVolExactIff`). `RootAtLowerEndIsLost` is an instance of the whole routine.
- The volatility slice of the engine sees less than the history when it contains a non-positive close (`WindowExactIff`, `BadCloseStarvesTheSlice`). The volatilities can still agree: fewer than two returns always give the floor (`ShortWindowsAgree`).
- One-pass drawdown is not always the worst pairwise drop once equity goes below zero: it is if and only if the curve never falls from above zero to below it, or some deepest such fall has a single positive value to start from (`OnePassExactOnCurve`); `NegativeEquityIsMisread` is an instance, and on non-negative curves nothing is missed (`OnePassIsPairwise`).
- Buying power is checked at the mark, but limit buys fill at the limit (`LimitBuyOverdraws`); a filled buy leaves the balance non-negative if and only if its own notional was covered (`BuyingPowerStep`).
- An option order whose type is the empty string is one share to the adapter and a hundred to the balance query, so the recomputed balance drifts from the broker's cash (`EmptyOptionTypeSplits`); a fill drifts exactly then, unless it is free (`FillDriftsIff`), and `PaperRefinement` carries the sum of the drifts.
- A broker row that says filled without a price marks a short order filled for good (`UnpricedFillStaysShort`); `FilledIsFullIff` says when a filled row completes its order.
- The rejected row and audit entry that `place_order` writes for a standalone order never persist: the error rolls its transaction back, as `tests/integration/test_oms_alpaca.py:124` notes for the broker-down case. Over every run, a row with a reject code is that of a leg of some strategy request of the run, and a rejected row without one was reported rejected by a poll of it (`RejectedRowsAreNotStandalone`).
- The audit row of a cancellation records the new status as its before-state, because the row is written after the update (`CancelMisrecordsBefore`). Over every run, the before-state an audit row gives is the order's true last status if and only if the event that wrote the row is not a cancellation (`AuditBeforeIff`).

## Model

| member | source | states |
|---|---|---|
| Payoff.SpotGrid | packages/core/saalr_core/strategies/payoff.py:19-26 | the grid is strictly increasing and holds exactly the 161 even points and the strikes in range |
| Payoff.PnlAffine | packages/core/saalr_core/strategies/payoff.py:29-46 | between two spots with no strike strictly inside, the whole payoff is affine with an integer slope |
| Payoff.CurveIsExact | packages/core/saalr_core/strategies/payoff.py:19-46 | the sampled curve starts at 0, ends at hi, has no kink inside any piece or past its last but one point |
| MaxPl.MaxPlExactIff | packages/core/saalr_core/strategies/payoff.py:70-80 | flags and extremes are those of the payoff over all of [0, oo) if and only if the net upside is zero or moves the last step by more than the tolerance |
| MaxPl.MaxPlExact | packages/core/saalr_core/strategies/payoff.py:70-80 | with hi/160 above the tolerance the report is always right: unbounded flags iff truly unbounded, otherwise the global maximum and minimum |
| MaxPl.TinySpotIsMisread | packages/core/saalr_core/strategies/payoff.py:70-80 | one long share at spot 0.00005 is reported as bounded |
| MaxPl.SmallSpotIsRead | packages/core/saalr_core/strategies/payoff.py:70-80 | one long share at spot 0.00016, a step of two millionths, is reported as unbounded |
| Breakeven.Breakevens | packages/core/saalr_core/strategies/payoff.py:60-67 | the loop returns the function the next two rows are about |
| Breakeven.BreakevensExact | packages/core/saalr_core/strategies/payoff.py:60-67 | a spot is reported if and only if it is a true zero in [0, hi) not strictly inside a grid piece that is identically zero |
| Breakeven.BreakevensSorted | packages/core/saalr_core/strategies/payoff.py:60-67 | the reported breakevens are strictly increasing and lie in [0, hi) |
| ProfitRanges.ComputeProfitIntervals | packages/core/saalr_core/strategies/payoff.py:89-101 | the loop returns the function the next rows are about |
| ProfitRanges.SameSign | packages/core/saalr_core/strategies/payoff.py:89-101 | two non-zero spots with no reported breakeven strictly between them have the same sign |
| ProfitRanges.ZeroSampleIsTie | packages/core/saalr_core/strategies/payoff.py:96-99 | the nearest grid point to a range's midpoint reads zero, for a range that is not flat, only in the last-range tie |
| ProfitRanges.ProfitIntervalsExactIff | packages/core/saalr_core/strategies/payoff.py:89-101 | on [0, hi], away from zeros, the ranges are exactly the profit set if and only if the tie does not occur |
| ProfitTail.ExactEverywhereIff | packages/core/saalr_core/strategies/payoff.py:89-101 | over all of [0, oo), away from zeros, the ranges are exactly the profit set if and only if the tie does not occur and the payoff is settled at the end of the grid |
| ProfitTail.CompleteIff | packages/core/saalr_core/strategies/payoff.py:60-67 | every isolated zero in [0, oo) is reported if and only if the payoff is settled at the end of the grid |
| Analysis.Analyze | apps/api/saalr_api/strategies/service.py:94-97 | from priced legs and spot alone: sorted true breakevens, every isolated zero on the grid found, and exactly when the zeros, the extremes and the profit ranges are right over every spot |
| Analysis.AnalyzePure | apps/api/saalr_api/strategies/service.py:15-36 | the same around the mean strike, with the net premium that separates payoff from expiry value at every spot, and the ratio of the true best to the true worst outcome, absent exactly when one does not exist or the worst is zero |
| Analysis.AnchorIsMean | apps/api/saalr_api/strategies/service.py:34-36 | 100 without options, otherwise the strikes add up to their number times the anchor |
| Analysis.ShareBoughtPastTheGrid | packages/core/saalr_core/strategies/payoff.py:60-101 | a share bought at 250 with spot 100: neither the breakeven at 250 nor the profit at 300 is reported, without any tie |
| Analysis.ShareBoughtAtTheTie | packages/core/saalr_core/strategies/payoff.py:89-101 | a share bought at 318 with spot 160: profit at 320 is not reported |
| Pop.ProbabilityOfProfit | packages/core/saalr_core/strategies/pop.py:16-33 | absent for non-positive inputs, otherwise the clamped sum of range masses |
| Pop.PopTelescopes | packages/core/saalr_core/strategies/pop.py:29-33 | for any CDF, profit mass and loss mass are non-negative and add up to exactly one |
| Pop.ClampIsIdle | packages/core/saalr_core/strategies/pop.py:33-33 | the clamp never changes a probability computed from a strategy's own ranges |
| Valuation.NetPremium | packages/core/saalr_core/strategies/payoff.py:49-57 | the payoff at every spot is the expiry value of the position less the premium the loop adds up |
| Valuation.PutCallParity | packages/core/saalr_core/strategies/payoff.py:29-42 | at every spot a bought call and a sold put of one strike pay what 100 shares pay that were bought at the strike plus the call premium less the put premium |
| Valuation.CoveredCall | packages/core/saalr_core/strategies/payoff.py:29-42 | 100 shares and one sold call pay 100 times the spot capped at the strike, less the purchase price, plus the premium |
| Valuation.StrategyPnl | packages/ml/saalr_ml/montecarlo.py:14-36 | the leg-by-leg array computation gives the curve's own payoff at every terminal price |
| Valuation.SettlementIsPayoff | packages/core/saalr_core/backtest/engine.py:46-70 | once all options have expired, the backtest's mark is the expiry payoff, whatever pricer and volatility |
| Vol.ComputeLogReturns | packages/core/saalr_core/backtest/vol.py:9-14 | the loop returns the function the next rows are about |
| Vol.ReturnAt | packages/core/saalr_core/backtest/vol.py:9-14 | on positive closes return i is the logarithm of close i + 1 over close i |
| Vol.ShiftLeavesEstimate | packages/core/saalr_core/backtest/vol.py:17-27 | the same amount added to every return leaves the volatility unchanged |
| Vol.ConstantReturnsGiveFloor | packages/core/saalr_core/backtest/vol.py:17-27 | equal returns of any size give the floor |
| Vol.TwoReturns | packages/core/saalr_core/backtest/vol.py:17-27 | two returns a, b give the root of (a - b)^2 / 2 times the root of 252, and never less than 0.01 |
| Vol.WindowExactIff | packages/core/saalr_core/backtest/vol.py:17-21 | slice and full history yield the same window of returns if and only if the slice is all positive (lookback not 0) or nothing before it yields a return |
| Vol.ShortWindowsAgree | packages/core/saalr_core/backtest/vol.py:21-23 | two windows of fewer than two returns give the same volatility, the floor |
| Vol.SliceRefinesHistory | packages/core/saalr_core/backtest/vol.py:17-27 | on positive closes the last lookback + 1 closes give the volatility of all of them |
| Vol.BadCloseStarvesTheSlice | packages/core/saalr_core/backtest/vol.py:9-21 | one zero close: the slice sees no return, the history two |
| Metrics.MaxDrawdown | packages/core/saalr_core/backtest/metrics.py:67-79 | the one-pass loop returns the running-peak drawdown |
| Metrics.OnePassExactIff | packages/core/saalr_core/backtest/metrics.py:67-79 | on every curve that is the worst drop over all pairs i <= j with a positive base if and only if every fall below zero is matched from a running peak |
| Metrics.OnePassExactOnCurve | packages/core/saalr_core/backtest/metrics.py:67-79 | read off the curve: if and only if it never falls below zero, or some deepest fall starts from the only positive value seen by then |
| Metrics.OnePassIsPairwise | packages/core/saalr_core/backtest/metrics.py:67-79 | so it is on every curve that never goes negative |
| Metrics.NegativeEquityIsMisread | packages/core/saalr_core/backtest/metrics.py:67-79 | on 1, 2, -2 one pass reports -2 where a pair drops by -3, so it is not the worst pair |
| Metrics.ReturnsCompound | packages/core/saalr_core/backtest/metrics.py:9-29 | daily returns compound to the total return wherever no divisor is zero |
| Metrics.ZeroBases | packages/core/saalr_core/backtest/metrics.py:9-29 | the return after a zero, and the total return from a zero start or of one point, is zero |
| Template.FromConfig | packages/core/saalr_core/backtest/template.py:33-66 | each error if and only if its cause; otherwise leg for leg the relative terms and the smallest option DTE, which is at least one |
| Template.ComputeInstantiate | packages/core/saalr_core/backtest/template.py:68-89 | the loop returns the function of the next row |
| Template.RoundTrip | packages/core/saalr_core/backtest/template.py:33-89 | instantiating a template at its own reference gives back the legs, each strike on the nearest increment and unmoved if it was on one |
| Template.InstantiateAnywhere | packages/core/saalr_core/backtest/template.py:68-89 | at any date and spot each leg comes back with its side, quantity and days to expiry, its strike at the old ratio to the spot up to half an increment |
| Engine.RunBacktest | packages/core/saalr_core/backtest/engine.py:80-160 | from the closes alone the loop computes the day-by-day simulation on their calendar that the laws are about, with both errors |
| BacktestLaws.EquityPoint | packages/core/saalr_core/backtest/engine.py:111-124 | every equity point is initial capital plus settled P&L plus open mark-to-market less the open cost |
| BacktestTrades.EquityInMarks | packages/core/saalr_core/backtest/engine.py:102-124 | every equity point in days and marks: capital plus what each closed cycle earned between its own two days plus the open cycle's gain since it opened, less its opening cost |
| BacktestTrades.ReportInMarks | packages/core/saalr_core/backtest/engine.py:85-159 | every reported trade is the position's mark on its closing day less the mark on its opening day less two cycle costs, and the first point is capital less one cost |
| BacktestTrades.OpeningsAreSchedule | packages/core/saalr_core/backtest/engine.py:109-120 | each opening is the first simulated day at least a cycle after the one before |
| BacktestTrades.OptionMark | packages/core/saalr_core/backtest/engine.py:49-70 | an unexpired option is marked at 100 times its signed quantity times the pricer at that day's close, days over 365, rate and volatility |
| BacktestTrades.MarkAdds | packages/core/saalr_core/backtest/engine.py:56-70 | marks add up over the legs of a position |
| BacktestTrades.CostOfOneLeg | packages/core/saalr_core/backtest/engine.py:73-77 | a leg costs quantity times commission plus slippage if it is an option and costs are on, otherwise nothing |
| BacktestTrades.Refusals | packages/core/saalr_core/backtest/engine.py:83-89 | refused exactly without bars, or with fewer than two days with bars in the range |
| BacktestLaws.RunBooked | packages/core/saalr_core/backtest/engine.py:102-124 | after every day the cycle's front expiry lies ahead, realised is the sum of trades, and settlements are a cycle apart |
| BacktestLaws.BacktestAccounts | packages/core/saalr_core/backtest/engine.py:109-159 | final equity is initial capital plus all trade P&L plus one cycle cost; settlements times the cycle fit in the span |
| BacktestLaws.NoLookAhead | packages/core/saalr_core/backtest/engine.py:85-124 | two close histories that agree up to d give the same equity series on every simulated day up to d |
| BacktestLaws.VolAtReads | packages/core/saalr_core/backtest/engine.py:91-95 | on every tape the volatility of a day is that of the last lookback + 1 closes at or before it, whether good or bad |
| BacktestLaws.VolAtRefines | packages/core/saalr_core/backtest/engine.py:91-95 | the bisected slice gives the volatility of the whole history up to the day |
| Positions.FillConserves | packages/core/saalr_core/oms/positions.py:6-20 | new basis is old basis plus cost plus realised gain, for adds, partial closes, flats and crossings |
| Positions.FillSplitting | packages/core/saalr_core/oms/positions.py:6-20 | any list of same-direction fills at one price is one fill of their sum |
| Positions.AverageWithinFills | packages/core/saalr_core/oms/positions.py:6-20 | an open average lies within any bounds on the prices that opened it or added to it |
| Orders.FillPriceBounds | packages/brokers/saalr_brokers/paper.py:48-72 | a gated order fills at a non-negative price, a buy never below the mark, a market or stop order at it |
| Orders.TransitionTable | packages/core/saalr_core/oms/fsm.py:5-22 | the legal transitions are exactly these nine |
| OrderLaws.SubmitTrades | packages/brokers/saalr_brokers/paper.py:48-107 | a market order fills at the mark, a limit order at its limit iff the mark is within it, a stop iff the mark has reached it, a stop-limit iff both; an unfilled order is cancelled iff ioc or fok; cash and position move by the fill alone |
| OrderLaws.GatesMean | packages/core/saalr_core/oms/risk.py:32-73 | the gates pass iff the order is well-formed, its strategy may trade, a buy is covered and the rate is free; otherwise the code names the first failure |
| OrderLaws.PaperAccepts | apps/api/saalr_api/oms/service.py:109-189 | a new paper order is accepted iff well-formed, its strategy may trade and a buy is covered by the balance; its row, execution and position are those of the verdict at the mark |
| OrderLaws.LiveAccepts | apps/api/saalr_api/oms/service.py:109-142 | a live order passes the gates at the broker's balance and then takes the broker's answer |
| OrderLaws.TurnedAwayBecause | apps/api/saalr_api/oms/service.py:71-106 | which request is turned away before the gates, with which code, and that no row is left |
| OrderLaws.OnlyTradingStrategiesTrade | packages/core/saalr_core/oms/risk.py:49-54 | a placement naming a strategy that is neither on paper nor live executes nothing and adds rejected rows only |
| OrderLaws.UsedKeyIsReplayed | apps/api/saalr_api/oms/service.py:67-69 | a used key is answered from its first row and changes nothing |
| OrderLaws.EmptyKeyIsNeverReplayed | apps/api/saalr_api/oms/repo.py:37-44 | an empty or absent key is never answered from an older row |
| OrderLaws.CancelMeans | apps/api/saalr_api/oms/service.py:253-275 | a cancellation succeeds iff the order is pending or submitted, and changes its status alone |
| OrderLaws.AdapterCancels | packages/brokers/saalr_brokers/paper.py:109-114 | the adapter cancels exactly an open order and nothing else |
| Paper.PaperBroker.SubmitOrder | packages/brokers/saalr_brokers/paper.py:93-107 | the whole new book: cash, order, idempotency entry, position and fill; a known key changes nothing |
| Paper.PaperBroker.CancelOrder | packages/brokers/saalr_brokers/paper.py:109-114 | cancels exactly the open orders and says so |
| Paper.PaperBroker.GetPositions | packages/brokers/saalr_brokers/paper.py:123-135 | every open position is reported exactly once, marked, and the reported values and unrealised P&L add up to the totals |
| Paper.RunConserves | packages/brokers/saalr_brokers/paper.py:74-114 | over any run, cash plus cost basis is the start plus everything realised |
| Paper.MarkedEquity | packages/brokers/saalr_brokers/paper.py:74-137 | cash plus market value is starting cash plus realised plus the unrealised P&L get_positions reports |
| Ledger.ExecutionKeysDistinct | packages/core/saalr_core/oms/reconcile.py:58-59 | execution keys never collide, and an order's cumulative keys strictly increase |
| Ledger.RecordFillKeeps | packages/core/saalr_core/oms/repo.py:28-66 | inserting an execution with its position keeps the whole table invariant |
| Ledger.ExecutionCashIs | apps/api/saalr_api/oms/repo.py:63-78 | an execution is worth quantity times price times 100 for option orders, out for a buy, in for a sale, less its commission |
| Oms.OmsTables.SumExecutedQty | packages/core/saalr_core/oms/repo.py:80-86 | the executed sum of one order |
| Oms.OmsTables.Balance | apps/api/saalr_api/oms/repo.py:63-78 | starting cash plus the signed cash of the account's executions |
| Oms.OmsTables.FindOrderByIdempotency | apps/api/saalr_api/oms/repo.py:37-44 | the row of a key; an absent or empty key finds nothing |
| Oms.OmsTables.InsertFill | packages/core/saalr_core/oms/repo.py:28-66 | the new execution row and the new position, and nothing else |
| Oms.OmsTables.Place | apps/api/saalr_api/oms/service.py:62-189 | the row operations in order have the effect and reply of the placement function, on every branch |
| Oms.OmsTables.PlaceStrategyRequest | apps/api/saalr_api/oms/service.py:192-225 | leg after leg, keeping rejected legs, rolling back on a crash |
| StrategyOrders.StrategyPlacesEveryLeg | apps/api/saalr_api/oms/service.py:192-225 | under unused keys on an active paper account a well-formed strategy adds exactly one row per order leg, a market day order with that leg's side, quantity and contract; each result tells of its own row and no two legs share one |
| StrategyOrders.LegKeysDiffer | apps/api/saalr_api/oms/service.py:215-215 | two legs of one request have different idempotency keys |
| Oms.OmsTables.CancelRequest | apps/api/saalr_api/oms/service.py:253-275 | only pending and submitted orders cancel |
| Oms.OmsTables.ReconcileAccount | packages/core/saalr_core/oms/reconcile.py:12-96 | the polling loop has the effect of the pass function |
| Reconcile.PassEffect | packages/core/saalr_core/oms/reconcile.py:45-92 | exact effect on any order: the executed sum rises to a larger priced observation, the status moves iff the machine allows, other orders stay |
| Reconcile.PassByOwnRow | packages/core/saalr_core/oms/reconcile.py:43-92 | the last snapshot row with an open order's broker id alone decides its executed sum, its one new execution with its price, and its status |
| Reconcile.PassWithoutRow | packages/core/saalr_core/oms/reconcile.py:43-49 | without a row of its broker id, or if not open on the polled account, an order and its executions stay as they are |
| Reconcile.DeltaMovesPosition | packages/core/saalr_core/oms/reconcile.py:54-72 | a delta moves the position of the order's account and contract by the signed quantity at the row's average price, and no other |
| Reconcile.PassIdempotent | packages/core/saalr_core/oms/reconcile.py:20-30 | repeating a pass on the same snapshot changes only the stamp |
| Runs.ReachableInv | packages/core/saalr_core/oms/fsm.py:5-22 | in every reachable state each order's status history is a legal path from pending or rejected to its status, every position is the fold of its executions, execution and idempotency keys never repeat |
| Runs.TerminalAbsorbs | packages/core/saalr_core/oms/fsm.py:9-11 | a filled, cancelled or rejected order and its executed sum never change again |
| Runs.LogsOnlyGrow | packages/core/saalr_core/oms/repo.py:28-78 | executions and audit rows are only appended; tickets, accounts and keys never change |
| Runs.ExecutedIsHighestSeen | packages/core/saalr_core/oms/reconcile.py:51-60 | over any run the executed sum is the highest priced filled quantity seen while the order was open |
| Runs.HighestIsMaximum | packages/core/saalr_core/oms/reconcile.py:51-60 | that is a maximum: no priced quantity polled while the order was open exceeds it, and it is one of them or the starting sum |
| Runs.FilledMeansFull | packages/core/saalr_core/oms/reconcile.py:51-84 | with honest broker rows no order is over-executed and filled means executed in full |
| Runs.FilledIsFullIff | packages/core/saalr_core/oms/reconcile.py:51-84 | for any filled row: executed in full iff the priced quantity, or else the recorded one, is the order's |
| Runs.UnpricedFillStaysShort | packages/core/saalr_core/oms/reconcile.py:54-84 | a filled row without a price leaves the order short and filled through every later run |
| Replay.StrategyReplay | apps/api/saalr_api/oms/service.py:192-225 | replaying a well-formed paper strategy under its key changes no table and reports the same counts, at any later marks |
| Records.RejectedRowsAreNotStandalone | apps/api/saalr_api/oms/service.py:127-135 | in every reachable state a row with a reject code has the account, contract and key of a leg of a strategy of the run, and a rejected row without one was reported rejected by a poll of it |
| Records.StepBeforeIff | apps/api/saalr_api/oms/service.py:270-274 | the before-states one request writes are the orders' true last statuses if and only if the request is not a cancellation |
| Records.AuditBeforeIff | apps/api/saalr_api/oms/service.py:270-274 | over every run each audit row is written by one event, and its before-state is true if and only if that event is not a cancellation |
| Records.CancelMisrecordsBefore | apps/api/saalr_api/oms/service.py:270-274 | place a resting order and cancel it: the audit row says cancelled before, the history says submitted |
| PaperLedger.PaperRefinement | apps/api/saalr_api/oms/service.py:149-180 | over every run of placements the position rows are those of one long-lived broker fed the same accepted orders, and the recomputed balance is its cash less the drift of empty option types, which is zero without them |
| PaperRuns.RunRefinement | apps/api/saalr_api/oms/service.py:62-275 | the same over every run of placements, strategies, cancellations and polls of other accounts |
| PaperLedger.FillDriftsIff | apps/api/saalr_api/oms/repo.py:66-71 | a fill moves balance and adapter cash alike if and only if the option type is not empty or the fill is free |
| PaperLedger.LedgerConserves | apps/api/saalr_api/oms/repo.py:63-78 | over every run of placements recomputed balance plus basis of the positions table is starting cash plus realised gains |
| PaperRuns.RunLedgerConserves | apps/api/saalr_api/oms/repo.py:63-78 | the same over every run of placements, strategies, cancellations and polls of other accounts |
| PaperLedger.EmptyOptionTypeSplits | apps/api/saalr_api/oms/repo.py:66-71 | one contract of an empty option type at 10 takes the balance from 1000 to 0 and the adapter's cash to 990 |
| PaperLedger.BuyingPowerStep | packages/core/saalr_core/oms/risk.py:52-55 | a gated buy overdraws by at most what it paid above the mark, and stays solvent iff its own notional was covered, whatever the option type |
| PaperLedger.BuyingPowerHolds | packages/core/saalr_core/oms/risk.py:52-78 | from a non-negative balance, runs of placements whose buys on the account are market or stop never take it below zero, whatever other accounts do |
| PaperRuns.RunBuyingPower | packages/core/saalr_core/oms/risk.py:52-78 | the same over every run of placements, strategies, cancellations and polls of other accounts |
| PaperLedger.LimitBuyOverdraws | packages/brokers/saalr_brokers/paper.py:52-55 | a limit buy at 200 on a mark of 100 takes a balance of 100 to -100 |
| ImpliedVol.Newton | packages/core/saalr_core/pricing/iv.py:38-51 | iterates stay strictly inside the bracket, each the Newton step of the last; a result is within tolerance |
| ImpliedVol.NewtonOnALine | packages/core/saalr_core/pricing/iv.py:38-51 | on a straight line with its slope as vega one step lands on the root |
| ImpliedVol.NewtonInNumbers | packages/core/saalr_core/pricing/iv.py:38-51 | for any miss at 0.2 and any vega: a miss below 1e-6 ends there, a usable step lands where the slope says, anything else hands over; the vega floor of 1e-8 refuses no step that would stay inside the bracket |
| ImpliedVol.Bisect | packages/core/saalr_core/pricing/iv.py:53-68 | none iff the end signs agree; each bracket is half the one before and holds every root of an increasing curve that starts below zero; the result is the last one's middle, and the promise is kept exactly as the row of BisectExactIff says |
| ImpliedVol.HalvingFinds | packages/core/saalr_core/pricing/iv.py:57-68 | from any bracket with a sign change the remaining halvings end within tolerance or (HI - LO)/2^101 of the root |
| ImpliedVol.BisectExactIff | packages/core/saalr_core/pricing/iv.py:53-68 | the fallback keeps its promise if and only if the lower end is negative or the first midpoint within tolerance |
| ImpliedVol.RootAtLowerEndIsLost | packages/core/saalr_core/pricing/iv.py:20-68 | a price line that meets the market at LO, with unit vega: the whole routine misses the tolerance and reports the upper half of the bracket |
| ImpliedVol.ImpliedVolExactIff | packages/core/saalr_core/pricing/iv.py:20-68 | for a price increasing with volatility the whole routine is within tolerance or error bound if and only if Newton succeeds, the price starts below the market, or it is within tolerance by the first midpoint |
| ImpliedVol.ImpliedVolatility | packages/core/saalr_core/pricing/iv.py:20-68 | nothing outside the no-arbitrage bounds; otherwise the guarantees of the two phases |
| ImpliedVol.BoundsAgreeUnderParity | packages/core/saalr_core/pricing/iv.py:22-36 | a call and a put that satisfy parity are inside their bounds together |
| ImpliedVol.BoundsRefuse | packages/core/saalr_core/pricing/iv.py:22-36 | in-the-money options below discounted intrinsic value or above what they can pay are refused |
| ImpliedVol.NothingToSolve | packages/core/saalr_core/pricing/iv.py:22-23 | no time left, or a price, spot or strike that is not positive, reports nothing |
| LlmBudget.SpendBounded | packages/core/saalr_core/llm/metered.py:19-35 | with K callers interleaved in any order, recorded spend stays strictly below cap + K calls |
| LlmBudget.BoundIsReached | packages/core/saalr_core/llm/metered.py:19-35 | K callers that all read first end at the starting spend plus K full calls, so no smaller bound holds |
| LlmBudget.UsageLedger.MeteredComplete | packages/core/saalr_core/llm/metered.py:19-35 | over budget records nothing, a failed call records nothing, a success records one row |
| LlmBudget.UsageLedger.RunAgentGraph | packages/core/saalr_core/research/graph.py:30-60 | this attempt's rows of the note are one per answered role, with its purpose, model, tokens and cost, and the reported totals are theirs; an early stop keeps its rows |
| LlmBudget.CallIsCheap | packages/core/saalr_core/llm/cost.py:6-19 | a call within P prompt and Q completion tokens costs, whatever the model, between zero and the dearest model's price for P and Q: a per-call bound for SpendBounded |
| LlmBudget.PriceList | packages/core/saalr_core/llm/cost.py:6-19 | the dollars for a million prompt and a million completion tokens of each model; unlisted models are free |
| LlmBudget.CallCost | packages/core/saalr_core/llm/cost.py:6-19 | a call costs its prompt and completion tokens together at the listed prices, rounded once |
| LlmBudget.CostsAreRounded | packages/core/saalr_core/llm/cost.py:19-19 | costs are whole millionths, rounded half up |

## Left out

- Floating-point and decimal rounding, timestamps, UUIDs, audit text and request ids; prices, costs and strikes are exact numbers, so strikes are normalised.
- Several tenants: the model is one tenant's tables, as row-level security presents them.
- Multi-worker reconciliation and two requests with one idempotency key in flight at once; requests and passes are atomic.
- The order in which the database lists open orders and in which a dictionary lists positions; passes go by order id, totals are order-free.
- The per-status counters a reconciliation pass returns for logging, and the lookback window, whose effect is part of the arbitrary snapshot.
- Upper-casing of symbols; they are taken as already normalised.
- PaperRuns.RunRefinement: excludes polls of the paper account itself, which the worker never makes (apps/oms-worker/oms_worker/reconcile.py:21-34); cancellations are not passed on to the long-lived broker, where they would move neither cash nor positions.
- MaxPl.MaxPL: a curve of fewer than two points is excluded, where the source fails with an index error; `Analysis.Analyze` therefore asks for a positive grid top: at 0 the grid is the single point 0, and spots and strikes are not negative.
- Template.ComputeInstantiate: a zero strike increment is excluded, where the source divides by zero; so in `Engine.RunBacktest`, whose volatility lookback is also taken as non-negative.
- Annualised return, Sharpe, Sortino, win rate and average trade: one-line formulas over the modelled curve and trade list.
- The option pricer, the Greeks, the target-date curve, the lognormal CDF's own formula and the Monte Carlo draw: transcendental or statistical, passed in or omitted.
- apps/web/src/seo/payoffExpiry.ts is the same analytics with the spot fixed at 100 and entry prices always given; not modelled separately.
- Prompts, memos and transcripts of the research agents, and the start of a new calendar month in the usage ledger.
- Web UI, authentication, tiers, routers, SQL, queues, broker SDKs, content search, billing, recommendation and promotion logic: plumbing or one-branch claims.
