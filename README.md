# Darvas-box strategy and backtest ledger, in Dafny

This project models the core of a single-strategy trading system and proves properties of
that model. The strategy is a Darvas-box breakout rule, and a backtest ledger replays it
day by day. The model has four parts, one module each.

- **Fees** (`fees.dfy`, from `buffet/utils.py`):
  - transaction charges: brokerage clamped to [5, 20], securities transaction tax,
    turnover charge, and a stamp duty on buys only;
  - the downward search for the largest share quantity whose cost and fees fit a budget.
- **Repository** (`repository.dfy`, from `buffet/repository.py`):
  - the four tables the engine and the ledger share: `historicals`, `darvas_boxes`,
    `strategy_state` and `active_trades`;
  - every query is a function over table values;
  - every write is a method of the class `DataRepository`, which reassigns the table it
    updates.
- **DecisionEngine** (`decision.dfy`, from `buffet/decision.py`):
  - `get_decision` as a pure specification `DecideStep`: the decision, plus the tables after
    the call;
  - the class `Engine`, which holds the per-ticker box-height map. Its method `GetDecision`
    makes the source's reads and writes, in the source's order, against a
    `DataRepository`, and is proved equal to the specification.
- **Simulator** (`simulator.dfy`, from `impl/test/simulator.py`):
  - the ledger of `TradingSimulator`: wallet, positions, transaction table, event log and
    loss-carry-over set;
  - buy, sell, stop-loss update and stop-loss trigger;
  - the per-ticker, per-date driver loop with its dispatch.

  Each ledger operation has a pure specification over a `World` value. The class methods,
  which update their fields in place, are proved equal to it.

  **Ledger** (`ledger.dfy`) holds the properties of the ledger:
  - what each operation does to the wallet and the positions;
  - the stop-loss check running before the engine;
  - a ledger invariant that every day, and so a whole run, preserves: valid positions, stops
    with at most four decimals, and no negative breakout streak.

Further modelling choices:

- **Numbers.** `Decimal` and `float` values are exact `real`s. `round(x, 4)` rounds half to
  even onto multiples of 1/10000. `int(x)` on a `Decimal` truncates toward zero.
- **Dates.** Dates are integers in calendar order.
- **Absent rows and NULLs.** An absent row or a NULL column is `None`.
- **Exceptions.** Every exception the core can raise becomes an error value:
  - the engine returns an `EngineError`;
  - the ledger returns `Fail` with a `SimError`.

  Writes made before a raise are kept, as in the source.
- **Leader gate.** The model divides where `buffet/decision.py:111-129` divides. The price
  test is open ≥ 0.95·max high (line 115). The volume test compares the newest volume with
  1.3 times the mean of the older ones, a sum divided by a count (lines 122-125).
  `DecisionEngine.VolumeSurge` is stated with `Mean`. `DecisionEngine.LeaderGate` adds up the
  older volumes with a loop (`DecisionEngine.AddUp`) and then divides. No member compares
  through multiplication. `DecisionEngine.GateWithoutDivision` is a separate equivalence:
  both tests agree with division-free forms.
- **Missing previous close.** When the previous close is missing, the engine's branches
  fail after the current box is closed. `buffet/decision.py:80, 94, 137, 144` pass it to
  `float(None)`, which raises. The model keeps this error path; it does not exclude it with
  a precondition.
- **Stop ratchet.** The docstring of `get_decision` (`buffet/decision.py:47-48`) says a
  breakout while holding raises the stop to the new box's floor. It also says the new box is
  anchored at today's close. The code anchors the box on the previous close (line 80). It
  compares the unrounded floor with the stored stop (line 83) and only then rounds it
  (line 85). The model follows the code. `DecisionEngine.StopLossNeverLowered` proves that
  the emitted stop is never below a stored four-decimal stop. After rounding it can be
  equal, so it is not always strictly higher. `Ledger.RunKeepsStopRatchet` shows that every
  run from a state with four-decimal stops keeps that hypothesis true.
- **P&L.** `_execute_sell`'s profit or loss deducts the sell-side charges but not the
  buy-side charges (`impl/test/simulator.py:399-402`). `Ledger.BuyThenSell` states this
  exactly.
- **Unreachable fallback.** The fallback `NO_OP` at `buffet/decision.py:148-149` cannot be
  reached with totally ordered prices: below, inside and above the box cover every open.
  The model has no such branch.

## Model

| member | source | states |
|---|---|---|
| Fees.Brokerage | buffet/utils.py:14 | Brokerage is always within [5, 20]. It is 0.1% of the trade value when that lies in the range, 5 below it and 20 above it. |
| Fees.Charges | buffet/utils.py:4-18 | Charges are brokerage plus 0.2001% of the value on a buy, or 0.1001% on a sell, and at least 5 for a non-negative value. `_calculate_transaction_charges` (impl/test/simulator.py:288-302) is the same function and is modelled by this member. |
| Fees.BuyChargesExceedSellCharges | buffet/utils.py:15-18 | Buy charges minus sell charges is exactly the 0.1% stamp duty, so buying never costs less than selling a non-negative value. |
| Fees.ChargesMonotone | buffet/utils.py:13-18 | Charges never decrease as the trade value grows, on either side. |
| Fees.Budget | buffet/utils.py:29-31 | The budget is the cash when there is no cap, else the smaller of cash and cap. |
| Fees.MaxAffordableUnique | buffet/utils.py:24 | "The maximal affordable quantity" determines a single quantity. |
| Fees.BeyondFloorUnaffordable | buffet/utils.py:36 | Any quantity above floor(budget/price) costs more than the budget, so starting the search there misses nothing. |
| Fees.MaxAffordableBuyQty | buffet/utils.py:21-44 | The result is 0 for a non-positive price or budget. Otherwise it is the largest quantity whose cost plus buy fees fits the budget: anything larger does not fit. It is at most budget/price. |
| Repository.RowOn | buffet/repository.py:91-108 | Returns the row of the ticker dated exactly `d`, or None exactly when there is none. |
| Repository.LatestRowBefore | buffet/repository.py:112-119 | Returns the latest row of the ticker strictly before `d`, or None exactly when there is none. |
| Repository.PrevTradingDay | buffet/repository.py:110-122 | Returns the maximum trade date of the ticker strictly before `d`, or None exactly when there is none. That date has a row. |
| Repository.PrevClose | buffet/repository.py:124-140 | A previous close, when present, is the close of the row dated exactly on the previous trading day. |
| Repository.PrevCloseExists | buffet/repository.py:124-140 | The previous close exists exactly when there is an earlier row and that row's close is not NULL. |
| Repository.LatestRows | buffet/repository.py:163-166 | Returns at most `n` rows of the ticker dated before `d`, strictly newest first. |
| Repository.LatestRowsComplete | buffet/repository.py:163-166 | No qualifying row is skipped: each row of the ticker before `d` is in the window, or the window is full of newer rows. |
| Repository.WithVolume | buffet/repository.py:164 | Keeps exactly the rows whose volume is not NULL. |
| Repository.RecentVolumes | buffet/repository.py:157-170 | Returns at most `lookback` volumes, read from the latest non-NULL-volume rows before `d`, newest first. |
| Repository.MaxHigh | buffet/repository.py:177 | MAX(high) over rows: None exactly when every high is NULL, else an attained high that bounds every other. |
| Repository.MaxHighLookback | buffet/repository.py:172-190 | The highest high over the window of the latest `lookback` rows of the ticker before `d`. It is None exactly when no row of that window has a high. Otherwise a row of the window attains it, and it bounds every high in the window. |
| Repository.EarliestCloseRow | buffet/repository.py:264-279 | Returns the earliest-dated row of the ticker with a non-NULL close, or None exactly when there is none. |
| Repository.NewBox | buffet/repository.py:319-353 | The created box is active with no end date and centred on the base close, with width 2·base·h. With base and h non-negative, min ≤ base ≤ max. |
| Repository.CurrentBox | buffet/repository.py:281-303 | Returns the active box of the ticker with the largest id, or None exactly when it has no active box. |
| Repository.Deactivated | buffet/repository.py:305-317 | Every active box of the ticker becomes inactive and ends on `d`. All other rows are unchanged, and no row changes its prices. |
| Repository.WithEndDate | buffet/repository.py:355-367 | Only the end date of the ticker's active boxes changes. Prices and activity are untouched. |
| Repository.DeactivatedKeepsOneActive | buffet/repository.py:305-317 | Deactivation preserves "at most one active box per ticker" and the sequential box ids. |
| Repository.WithEndDateKeepsOneActive | buffet/repository.py:355-367 | Extending preserves both invariants and whether the ticker has a current box. |
| Repository.InsertKeepsOneActive | buffet/repository.py:328-334 | Inserting an active box for a ticker without one keeps one active box per ticker, and makes the new box current. |
| Repository.BoxesEvolveTrans | buffet/repository.py:305-367 | The allowed box-table evolution for a ticker composes over successive writes. |
| Repository.CreateBoxKeepsValid | buffet/repository.py:319-353 | Creating a box when none is active keeps the store valid, and the new box, numbered next, becomes current. |
| Repository.DeactivateKeepsValid | buffet/repository.py:305-317 | Deactivation keeps the store valid and leaves the ticker without a current box. |
| Repository.ExtendKeepsValid | buffet/repository.py:355-367 | Extending keeps the store valid and the current box current. |
| Repository.DataRepository.constructor | buffet/repository.py:52-53 | A store over a price history has no boxes, streaks or positions, and satisfies the store invariants. |
| Repository.DataRepository.SetBreakoutStreak | buffet/repository.py:237-262 | Afterwards get_breakout_streak returns the new streak. Other tickers' streaks (0 when absent) and the other tables are unchanged. |
| Repository.DataRepository.CreateDarvasBox | buffet/repository.py:319-353 | Appends and returns the new box with the next id. Nothing else changes. |
| Repository.DataRepository.DeactivateActiveDarvasBox | buffet/repository.py:305-317 | The box table becomes `Deactivated`, and the ticker has no current box. Nothing else changes. |
| Repository.DataRepository.UpdateActiveBoxEndDate | buffet/repository.py:355-367 | The box table becomes `WithEndDate`. Nothing else changes. |
| DecisionEngine.NewDecision | buffet/decision.py:17-21 | Fails exactly for BUY without a stop. Otherwise it keeps the action and the stop as given. |
| DecisionEngine.Round4 | buffet/decision.py:85 | round(x, 4) lands on the 1/10000 grid within half a unit of x. |
| DecisionEngine.Round4Fixes | buffet/decision.py:85 | Rounding fixes values already on the grid. |
| DecisionEngine.Round4Monotone | buffet/decision.py:85 | Rounding is monotone. |
| DecisionEngine.NextHeight | buffet/decision.py:57-60 | The ticker's height starts at the default. It grows by exactly the increment after a loss with a positive increment, and is otherwise unchanged, so it never decreases. |
| DecisionEngine.WorkingBox | buffet/decision.py:62-74 | Specification: the current box, else a box created from the earliest close, else none. Its properties are in `WorkingBoxFacts`. |
| DecisionEngine.WithWorkingBox | buffet/decision.py:62-74 | Specification: the tables after ensuring a working box. Its properties are in `WorkingBoxFacts`. |
| DecisionEngine.Roll | buffet/decision.py:79-80 | Specification of closing the broken box and creating its successor. Its properties are in `RollFacts`. |
| DecisionEngine.HoldingStep | buffet/decision.py:76-86 | Specification of the in-position branch. Its properties are in `HoldingStepFacts` and `HoldingStepCases`. |
| DecisionEngine.BreakdownStep | buffet/decision.py:90-97 | Specification of the below-the-box branch. Its properties are in `BreakdownStepFacts` and `BreakdownRolls`. |
| DecisionEngine.BreakoutStep | buffet/decision.py:106-146 | Specification of the breakout branch while flat. Its properties are in `BreakoutStepFacts`. |
| DecisionEngine.FlatStep | buffet/decision.py:88-146 | Specification of the three flat branches. Its properties are in `FlatStepFacts`. |
| DecisionEngine.DecideStep | buffet/decision.py:24-149 | Specification of get_decision on a snapshot: the decision and the tables afterwards. Its properties are in the lemmas from `DecideStepKeepsStoreValid` to `StopLossNeverLowered`. |
| DecisionEngine.GateWithoutDivision | buffet/decision.py:113-129 | The price condition and the volume condition, both written with divisions, agree with their division-free forms. |
| DecisionEngine.AllowBuy | buffet/decision.py:111-129 | With lookback ≤ 0 the gate passes. When it passes with lookback > 0, a maximum high exists and at least two volumes were found. |
| DecisionEngine.WorkingBoxFacts | buffet/decision.py:62-74 | The working box is the current box, or one created from the earliest close. It is None only when there is no box and no close, and then nothing is written. |
| DecisionEngine.RollFacts | buffet/decision.py:79-80 | Rolling closes every active box of the ticker on the close date. With a previous close, the new box anchored on it becomes current; without one, the result is the missing-close error. |
| DecisionEngine.HoldingStepFacts | buffet/decision.py:76-86 | While holding, the store stays valid and positions, streaks and prices are untouched. Inside or below the box: NO_OP and nothing written. Above it, without a previous close: the missing-close error. Above it, with one: the new box anchored on the previous close is current, and UPDATE_STOP_LOSS with round(floor, 4) is returned iff the unrounded floor exceeds the stored stop (NULL as 0); otherwise NO_OP. |
| DecisionEngine.HoldingStepCases | buffet/decision.py:76-86 | The case analysis of the in-position branch alone: which open prices write nothing, when the missing-close error arises, and when UPDATE_STOP_LOSS rather than NO_OP is returned. |
| DecisionEngine.HoldingBranchOutcome | buffet/decision.py:62-86 | At the level of get_decision, while holding with a working box: open ≤ max gives NO_OP with only the working box written. Open > max without a previous close gives the missing-close error. Otherwise the result is UPDATE_STOP_LOSS with round(prev close·(1−h), 4) iff prev close·(1−h) exceeds the stored stop (NULL as 0), and NO_OP if not. |
| DecisionEngine.BreakoutStepFacts | buffet/decision.py:106-146 | On a breakout the streak becomes 0 on a BUY and old+1 otherwise. BUY happens exactly when streak+1 meets the requirement and the gate passes, with stop round(old min, 4). The box rolls in both branches. |
| DecisionEngine.BreakdownRolls | buffet/decision.py:90-97 | Below the box with a previous close: the result is NO_OP with the streak 0, the old boxes are closed on the close date, and the new box is current. |
| DecisionEngine.FlatStepFacts | buffet/decision.py:90-146 | In every flat branch, the store stays valid and only the ticker's streak and boxes move. The streak becomes 0, stays, or grows by one. The result is NO_OP, BUY or the missing-close error. |
| DecisionEngine.DecideStepKeepsStoreValid | buffet/decision.py:62-146 | get_decision keeps at most one active box per ticker, never returns SELL, leaves prices, positions and other tickers' streaks alone, and keeps a current box exactly when it succeeds with a box. |
| DecisionEngine.DecideStepStreak | buffet/decision.py:67-146 | The streak is only set to 0 or old+1, or kept, so a non-negative streak stays non-negative. A BUY resets it, and holding never changes it. |
| DecisionEngine.BreakoutBuysIff | buffet/decision.py:106-146 | Flat with open above the box: BUY iff streak+1 meets the requirement and the gate passes, with stop round(min, 4) and streak 0; otherwise NO_OP with streak+1. |
| DecisionEngine.TakesBreakoutBranch | buffet/decision.py:88-106 | Flat with open above max: get_decision is exactly the breakout branch. |
| DecisionEngine.BreakdownResetsStreak | buffet/decision.py:90-97 | Flat with open below min: NO_OP and streak 0. The old boxes end on the previous trading day, and the new box is anchored on the previous close. |
| DecisionEngine.InsideBoxExtends | buffet/decision.py:100-103 | Flat with min ≤ open ≤ max (both inclusive): NO_OP, the streak is unchanged, no box is added, and the active box ends today. |
| DecisionEngine.StopLossNeverLowered | buffet/decision.py:62-86 | While holding, get_decision returns UPDATE_STOP_LOSS iff there is a working box, open > its max, a previous close exists and prev close·(1−h) exceeds the stored stop (NULL read as 0). The stop it carries is round(prev close·(1−h), 4), and when the stored stop has four decimals it is never below it. |
| DecisionEngine.SumSnoc | buffet/decision.py:124 | Adding a term at the back of a list adds it to the sum. |
| DecisionEngine.AddUp | buffet/decision.py:124 | `sum` over the older volumes, a left-to-right running total, equals `Sum`. |
| DecisionEngine.LeaderGate | buffet/decision.py:111-129 | The gate as written: the max-high test, then the older volumes' mean built from a loop sum and a division. The result is exactly `AllowBuy`, the price-near-high test and the volume-surge test. |
| DecisionEngine.DecideHolding | buffet/decision.py:76-86 | The holding branch's writes and result equal `HoldingStep`. |
| DecisionEngine.DecideBreakout | buffet/decision.py:106-146 | The breakout branch's writes, in source order, equal `BreakoutStep`. |
| DecisionEngine.DecideFlat | buffet/decision.py:88-146 | The flat branches' writes equal `FlatStep`. |
| DecisionEngine.EnsureBox | buffet/decision.py:62-74 | Returns the working box. It creates one from the earliest close when none is active, and sets the streak to 0 when there is no close. |
| DecisionEngine.Engine.constructor | buffet/decision.py:10 | The module map `_height_pct_by_ticker` starts empty. |
| DecisionEngine.Engine.GetDecision | buffet/decision.py:24-149 | Updates the ticker's height as `NextHeight` says. The result and the store afterwards equal `DecideStep`. |
| Simulator.Truthy | impl/test/simulator.py:282-283 | A NULL or zero price reads as missing; any other value is kept. |
| Simulator.PositionOf | impl/test/simulator.py:265-285 | Returns (0, None, None) without a row, else the row's quantity and its truthy buy price and stop. |
| Simulator.Trunc | impl/test/simulator.py:306 | int() truncates toward zero. |
| Simulator.AffordableFromSearch | impl/test/simulator.py:307-314 | The countdown returns an affordable quantity (or 0), and no quantity between it and the start is affordable. |
| Simulator.SimAffordableQty | impl/test/simulator.py:304-314 | Fails exactly on a price of 0 (a Decimal division by zero). |
| Simulator.SimAffordableIsMax | impl/test/simulator.py:304-314 | For a positive price the simulator's search finds the largest affordable quantity, the same quantity as the fee module's search with no cap. |
| Simulator.BuyStep | impl/test/simulator.py:316-369 | Specification of `_execute_buy`. Its properties are in `Ledger.BuyWithoutFillChangesNothing`, `Ledger.BuyDebitsExactly` and `Ledger.BuyFills`. |
| Simulator.SellStep | impl/test/simulator.py:371-408 | A sale happens exactly when shares are held. A refused sale changes nothing. |
| Simulator.UpdateStopStep | impl/test/simulator.py:410-439 | Specification of `_update_stop_loss`. Its properties are in `Ledger.UpdateStopWithoutPosition` and `Ledger.UpdateStopChangesOnlyStop`. |
| Simulator.StopCheckStep | impl/test/simulator.py:441-453 | Specification of the stop-loss check. Its properties are in `Ledger.StopCheckTriggersIff` and `Ledger.StopCheckSellsAtStop`. |
| Simulator.DispatchStep | impl/test/simulator.py:523-551 | Specification of the dispatch on a decision. Its properties are in `Ledger.DispatchFacts`, `Ledger.DispatchWithoutSell` and `Ledger.DispatchErrors`. |
| Simulator.DecideAndDispatchStep | impl/test/simulator.py:507-551 | Specification of the engine call, the loss-flag discard and the dispatch. Its properties are in `Ledger.EngineConsultedOnce` and `Ledger.EngineNeverMissesOpen`. |
| Simulator.DayStep | impl/test/simulator.py:483-557 | Specification of one body of the driver loop, with the open price passed to the engine. Its properties are in `Ledger.DayWithoutCompleteBar`, `Ledger.StopLossPreemptsEngine`, `Ledger.EngineDayClearsLossFlag` and `Ledger.EngineDayDispatchesAtOpen`. |
| Simulator.RunDates | impl/test/simulator.py:482-557 | Specification of the date loop, stopping at the first failure. Its properties are in `Simulator.RunDatesSnoc` and `Simulator.RunDatesStopsAtFailure`. |
| Simulator.RunTickers | impl/test/simulator.py:481-557 | Specification of the ticker loop, stopping at the first failure. Its properties are in `Simulator.RunTickersSnoc` and `Simulator.RunTickersStopsAtFailure`. |
| Simulator.RunSpec | impl/test/simulator.py:457-557 | Specification of `run_simulation`: the no-data guard and both loops. Its invariants are in `Ledger.RunKeepsLedgerValid`. |
| Simulator.RunDatesSnoc | impl/test/simulator.py:482 | The date loop's next iteration is one day step, unless the run already failed. |
| Simulator.RunTickersSnoc | impl/test/simulator.py:481 | The ticker loop's next iteration is a full date loop, unless the run already failed. |
| Simulator.RunDatesStopsAtFailure | impl/test/simulator.py:553-557 | After a failure no later date is processed. |
| Simulator.RunTickersStopsAtFailure | impl/test/simulator.py:553-557 | After a failure no later ticker is processed. |
| Simulator.TradingSimulator.constructor | impl/test/simulator.py:45-81 | Stores the parameters. The wallet holds the initial cash, as `initialize_wallet_cash` (lines 223-233) sets it; no transactions, events or losses are recorded yet. |
| Simulator.TradingSimulator.RecordEvent | impl/test/simulator.py:249-263 | Appends one event. |
| Simulator.TradingSimulator.StoreTrades | impl/test/simulator.py:349-355 | Rewrites `active_trades`. |
| Simulator.TradingSimulator.StoreWallet | impl/test/simulator.py:242-247 | Sets the wallet balance. |
| Simulator.TradingSimulator.RecordTransaction | impl/test/simulator.py:357-363 | Appends one transaction. |
| Simulator.TradingSimulator.MaxAffordableBuyQty | impl/test/simulator.py:304-314 | The countdown loop computes `SimAffordableQty`. |
| Simulator.TradingSimulator.ExecuteBuy | impl/test/simulator.py:316-369 | The new state and outcome equal `BuyStep`. |
| Simulator.TradingSimulator.ExecuteSell | impl/test/simulator.py:371-408 | Returns the profit exactly when shares are held, else fails with "no shares owned". The new state is `SellStep`'s. |
| Simulator.TradingSimulator.UpdateStopLoss | impl/test/simulator.py:410-439 | The new state and outcome equal `UpdateStopStep`. |
| Simulator.TradingSimulator.CheckStopLoss | impl/test/simulator.py:441-453 | The trigger flag, the P&L and the new state equal `StopCheckStep`. |
| Simulator.TradingSimulator.Dispatch | impl/test/simulator.py:523-551 | The dispatch on the decision equals `DispatchStep`. |
| Simulator.TradingSimulator.DecideAndDispatch | impl/test/simulator.py:507-551 | The engine call, the flag discard and the dispatch equal `DecideAndDispatchStep`. |
| Simulator.TradingSimulator.ProcessDay | impl/test/simulator.py:483-557 | One loop body equals `DayStep`. |
| Simulator.TradingSimulator.RunTicker | impl/test/simulator.py:482-557 | The inner loop over the dates equals `RunDates`. |
| Simulator.TradingSimulator.RunSimulation | impl/test/simulator.py:457-557 | The no-data guard and both loops equal `RunSpec`. |
| Ledger.BuyWithoutFillChangesNothing | impl/test/simulator.py:320-339 | A buy that records no transaction changes nothing: not with a position held, and not when nothing is affordable. An empty wallet logs one warning. It fails only on price 0, and then before any change. |
| Ledger.BuyDebitsExactly | impl/test/simulator.py:335-369 | A filled buy debits exactly qty·price plus buy fees, within the cap, and leaves the wallet non-negative. It records the position (qty, price, stop) and appends one BUY transaction and one event. The quantity is the maximal affordable one. |
| Ledger.SellWithoutSharesFails | impl/test/simulator.py:372-377 | Selling with no shares is refused, and nothing changes. |
| Ledger.SellClosesPosition | impl/test/simulator.py:379-408 | A sale credits qty·price minus sell fees, deletes only this position, and appends one SELL for the full quantity. It returns net − qty·buy price. |
| Ledger.RoundTripPaysBothFees | impl/test/simulator.py:341-343 | Buying and selling the same shares at one price loses exactly both sides' charges, at least 10. |
| Ledger.BuyFills | impl/test/simulator.py:346-363 | A recorded buy leaves the position filled at the buy price and stop. |
| Ledger.FilledPosition | impl/test/simulator.py:265-285 | A filled position reads back with its quantity and buy price. |
| Ledger.SellAfterFill | impl/test/simulator.py:371-408 | Selling a filled position restores the original positions, credits the net proceeds, and returns proceeds − qty·buy price. |
| Ledger.BuyThenSell | impl/test/simulator.py:316-408 | After a buy and a sale, the wallet is old − cost + proceeds and the position is gone. The P&L counts sell fees but not buy fees. |
| Ledger.UpdateStopWithoutPosition | impl/test/simulator.py:416-423 | With no position only a warning is logged. |
| Ledger.UpdateStopChangesOnlyStop | impl/test/simulator.py:425-439 | Only the position's stop changes, with no ratchet check. It fails exactly when the old stop was missing, because the message cannot format it. |
| Ledger.StopCheckTriggersIff | impl/test/simulator.py:445-453 | The stop-loss check triggers iff qty > 0, the stop is truthy and the low is ≤ the stop. A P&L is returned exactly when it triggers. An untriggered check changes nothing. |
| Ledger.StopCheckSellsAtStop | impl/test/simulator.py:447-451 | A triggered check sells the whole position at the stop price and logs one more event. |
| Ledger.DispatchFacts | impl/test/simulator.py:523-551 | BUY executes at the open. BUY or UPDATE_STOP_LOSS without a stop fails, as do an unknown label and a SELL of nothing. NO_OP does nothing. |
| Ledger.DayWithoutCompleteBar | impl/test/simulator.py:495-498 | A missing bar skips the day. A bar with a NULL price fails and is logged as an ERROR. |
| Ledger.StopLossPreemptsEngine | impl/test/simulator.py:500-505 | A triggered day sells at the stop and skips the engine, leaving box heights unchanged. A negative P&L adds the ticker to the loss set. |
| Ledger.DispatchWithoutSell | impl/test/simulator.py:523-551 | Without SELL, dispatch only moves the ledger and appends only BUY transactions. |
| Ledger.EngineConsultedOnce | impl/test/simulator.py:507-520 | The engine is called once with the loss flag, which then raises the height or not. The flag is removed on success, and other tickers' flags are untouched. |
| Ledger.EngineDayClearsLossFlag | impl/test/simulator.py:501-520 | On a day the stop does not trigger, the engine runs once and the ticker's flag is cleared. |
| Ledger.DayStepAsWritten | impl/test/simulator.py:509-518 | Specification of the loop body as written, where get_decision is called without an open price. Its property is in `Ledger.AsWrittenEngineDayAborts`. |
| Ledger.AsWrittenEngineDayAborts | impl/test/simulator.py:509-518 | As written, every complete-bar day whose stop does not trigger aborts with an ERROR event. This differs from the corrected day. |
| Ledger.EngineNeverMissesOpen | impl/test/simulator.py:498 | With the open passed, the engine day never fails for lack of it. |
| Ledger.DispatchErrors | impl/test/simulator.py:523-557 | A failed dispatch has one of the five dispatch errors. |
| Ledger.EngineDayDispatchesAtOpen | impl/test/simulator.py:498-557 | The corrected day gives the engine the bar's open. Its errors are logged once. |
| Ledger.BuyKeepsLedgerValid | impl/test/simulator.py:316-369 | A buy keeps the positions valid (valid store, positive held and traded quantities), and history only grows. With a four-decimal stop it also keeps the whole ledger invariant: all stops with four decimals and no negative streak. |
| Ledger.SellKeepsLedgerValid | impl/test/simulator.py:371-408 | A sale keeps the positions valid and the ledger invariant, and history only grows. |
| Ledger.UpdateStopKeepsLedgerValid | impl/test/simulator.py:410-439 | A stop update keeps the positions valid, and history only grows. With a four-decimal stop it keeps the ledger invariant. |
| Ledger.DispatchKeepsLedgerValid | impl/test/simulator.py:523-551 | Dispatch keeps the positions valid, and history only grows. When the decision's stop has four decimals, it keeps the ledger invariant. |
| Ledger.DecideAndDispatchKeepsLedgerValid | impl/test/simulator.py:507-551 | The engine call and the dispatch keep the positions valid and the ledger invariant. The engine's stops are rounded to four decimals, and it keeps streaks non-negative. |
| Ledger.DecideKeepsStreaksNonNegative | buffet/decision.py:62-146 | get_decision never makes a breakout streak negative. |
| Ledger.StopCheckKeepsLedgerValid | impl/test/simulator.py:441-453 | The stop-loss check keeps the positions valid and the ledger invariant. |
| Ledger.DayKeepsLedgerValid | impl/test/simulator.py:483-557 | One day keeps the positions valid and the ledger invariant, and history only grows. |
| Ledger.RunDatesKeepsLedgerValid | impl/test/simulator.py:482-557 | The date loop keeps the positions valid and the ledger invariant. |
| Ledger.RunTickersKeepsLedgerValid | impl/test/simulator.py:481-557 | The ticker loop keeps the positions valid and the ledger invariant. |
| Ledger.RunKeepsLedgerValid | impl/test/simulator.py:457-557 | A whole run keeps the store valid, every held and traded quantity positive, and the transaction table and event log append-only. Started with four-decimal stops and no negative streak, it keeps both. |
| Ledger.RunKeepsStopRatchet | impl/test/simulator.py:457-557 | After any run started with four-decimal stops and no negative streak, get_decision's UPDATE_STOP_LOSS never lowers a held position's stop. |

## Left out

- Report generation (`_generate_final_report`), data loading, database setup, portfolio
  initialisation and the file-driven entry points are left out. They are SQL, pandas and
  CSV I/O plus floating-point summaries.
- SQL, the connection and cursor handling, and the "database not initialized" guard of
  `run_simulation` are left out. The tables are values and there is always a store.
- The event log keeps (date, ticker, level); message text, console logging, `tqdm` and the
  measurement of the run's duration are left out.
- Floating point and `Decimal` rounding are left out. All arithmetic is on exact reals
  except `round(x, 4)` and `int()`, which are modelled explicitly.
- A NULL `qty_owned` is not modelled. `get_active_trade` reads it as 0, and
  `_get_current_position` cannot convert it. Quantities are always present.
- The wallet always has a row. `_get_wallet_cash`'s fallback to 0 for a missing row is not
  modelled.
- Simulator.TradingSimulator.constructor: `initialize_wallet_cash` is folded into it, since
  a run always starts from the initial cash.
- Simulator.TradingSimulator.MaxAffordableBuyQty: the price of 0 is a single error. The
  distinction between `DivisionByZero` and `InvalidOperation` (0/0) is not kept.
- A `SELL` decision is dispatched as the simulator does. The engine never emits one
  (`DecisionEngine.DecideStepKeepsStoreValid`).
- The read-only lookups `get_breakout_streak` and `get_active_trade` are the plain
  functions `Repository.BreakoutStreak` and `Repository.ActiveTradeOf`. Their properties
  are stated in `Repository.DataRepository.SetBreakoutStreak` and in the engine lemmas that
  use them.

## Findings

| source | as written | input that shows it | evidently intended | confidence | as-written member | corrected member |
|---|---|---|---|---|---|---|
| impl/test/simulator.py:509-518 | `get_decision` is called without `open_price`, which buffet/decision.py:28 declares as a required parameter with no default. Every such call raises TypeError, which lines 553-557 log as an ERROR event and re-raise, aborting the run. | The first day of any ticker whose bar is complete and whose stop-loss check does not trigger, for example a day with no position held. | Pass the day's open price (line 498) as `open_price`. | high; not executed | Ledger.AsWrittenEngineDayAborts | Ledger.EngineDayDispatchesAtOpen |
