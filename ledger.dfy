/**
 * What the backtest ledger promises (impl/test/simulator.py): the effect of each ledger
 * operation on the wallet, the positions and the transaction table; the driver loop's
 * ordering of stop-loss check, engine and dispatch; and the invariants a whole run keeps.
 */
module Ledger {
  import opened Common
  import opened Fees
  import opened Repository
  import opened DecisionEngine
  import opened Simulator

  /** Only the ledger moved: boxes, streaks, prices, box heights and the loss set are as before. */
  predicate LedgerOnly(w: World, w2: World)
  {
    && w2.tables == w.tables.(activeTrades := w2.tables.activeTrades)
    && w2.heights == w.heights
    && w2.losses == w.losses
  }

  /** The buy-side state every operation keeps: a valid store, open positions only, positive quantities traded. */
  ghost predicate PositionsValid(w: World)
  {
    && TablesValid(w.tables)
    && (forall t :: t in w.tables.activeTrades ==> w.tables.activeTrades[t].qtyOwned > 0)
    && (forall i :: 0 <= i < |w.txns| ==> w.txns[i].qty > 0)
  }

  /** Every stored stop, NULL read as 0, has at most four decimals. */
  ghost predicate StopsOnGrid(trades: map<Ticker, ActiveTrade>)
  {
    forall t :: t in trades ==> OnGrid(CurrentStop(trades[t]))
  }

  /** No breakout streak is negative. */
  ghost predicate StreaksNonNegative(state: map<Ticker, int>)
  {
    forall t :: BreakoutStreak(state, t) >= 0
  }

  /** The state a run keeps: valid positions, stops with four decimals, non-negative streaks. */
  ghost predicate LedgerValid(w: World)
  {
    && PositionsValid(w)
    && StopsOnGrid(w.tables.activeTrades)
    && StreaksNonNegative(w.tables.strategyState)
  }

  /** From `w` to `w2`: positions stay valid, history only grows, and the whole invariant is kept. */
  ghost predicate KeptValid(w: World, w2: World)
  {
    && PositionsValid(w2)
    && HistoryGrows(w, w2)
    && (LedgerValid(w) ==> LedgerValid(w2))
  }

  /** The append-only history: transactions and events only grow, prices never change. */
  predicate HistoryGrows(w: World, w2: World)
  {
    && w.txns <= w2.txns
    && w.log <= w2.log
    && w2.tables.historicals == w.tables.historicals
  }

  function BuyPriceOrZero(p: Position): real
  {
    if p.buyPrice.Some? then p.buyPrice.value else 0.0
  }

  // ---------------------------------------------------------------------------
  // Buy

  /**
   * A buy that records no transaction changes nothing but, when the wallet is empty, the
   * event log; with a position already held it changes nothing at all. It fails only on a
   * price of 0, and then before any change.
   */
  lemma BuyWithoutFillChangesNothing(w: World, cap: real, t: Ticker, d: Date, price: real, stop: real)
    ensures var e := BuyStep(w, cap, t, d, price, stop);
      && LedgerOnly(w, e.world)
      && (e.world.txns == w.txns ==> e.world == w || e.world == Logged(w, d, t, Warning))
      && (e.world == Logged(w, d, t, Warning) ==> w.wallet <= 0.0)
      && (PositionOf(w.tables.activeTrades, t).qty > 0 ==> e == Effect(Pass, w))
      && (e.outcome.Fail? <==> PositionOf(w.tables.activeTrades, t).qty <= 0 && w.wallet > 0.0 && price == 0.0)
      && (e.outcome.Fail? ==> e == Effect(Fail(DivisionByZero), w))
  {
  }

  /**
   * A buy that fills takes exactly the cost and the buy fees of the largest affordable
   * quantity out of the wallet, never more than the wallet or the per-stock cap, and
   * records the position and one BUY transaction.
   */
  lemma BuyDebitsExactly(w: World, cap: real, t: Ticker, d: Date, price: real, stop: real)
    requires BuyStep(w, cap, t, d, price, stop).world.txns != w.txns
    ensures BuyQuantity(w.wallet, cap, price).Ok?
    ensures var q := BuyQuantity(w.wallet, cap, price).value;
            var w2 := BuyStep(w, cap, t, d, price, stop).world;
      && PositionOf(w.tables.activeTrades, t).qty <= 0 && 0.0 < w.wallet
      && q > 0
      && w2.wallet == w.wallet - TradeCost(q, price)
      && 0.0 <= w2.wallet
      && w.wallet - w2.wallet <= cap
      && w2.tables.activeTrades == w.tables.activeTrades[t := ActiveTrade(q, Some(price), Some(stop))]
      && w2.txns == w.txns + [Transaction(d, t, BuyTxn, price, q)]
      && w2.log == w.log + [LogEvent(d, t, Info)]
      && (price > 0.0 ==> IsMaxAffordable(q, price, Budget(w.wallet, Some(cap))))
  {
    var budget := Budget(w.wallet, Some(cap));
    AffordableFromSearch(Trunc(budget / price), price, budget);
    if price > 0.0 {
      SimAffordableIsMax(budget, price);
    }
  }

  // ---------------------------------------------------------------------------
  // Sell

  /** Selling with nothing held is an error, raised before anything changes. */
  lemma SellWithoutSharesFails(w: World, t: Ticker, d: Date, price: real)
    requires PositionOf(w.tables.activeTrades, t).qty <= 0
    ensures SellStep(w, t, d, price) == NotHeld(w)
  {
  }

  /**
   * A sell credits the net proceeds, closes the position and no other, appends one SELL of
   * the whole quantity, and reports the net proceeds less the position's cost basis.
   */
  lemma SellClosesPosition(w: World, t: Ticker, d: Date, price: real)
    requires PositionOf(w.tables.activeTrades, t).qty > 0
    ensures var pos := PositionOf(w.tables.activeTrades, t);
            var s := SellStep(w, t, d, price);
      && LedgerOnly(w, s.world)
      && s.world.wallet == w.wallet + SaleProceeds(pos.qty, price)
      && t !in s.world.tables.activeTrades
      && (forall u :: u != t ==> PositionOf(s.world.tables.activeTrades, u) == PositionOf(w.tables.activeTrades, u))
      && s.world.txns == w.txns + [Transaction(d, t, SellTxn, price, pos.qty)]
      && s.world.log == w.log + [LogEvent(d, t, Info)]
      && s.Sold?
      && s.profit == SaleProceeds(pos.qty, price) - pos.qty as real * BuyPriceOrZero(pos)
  {
  }

  /** The net proceeds of a sale never reach the cost of buying the same shares at the same price: both sides pay fees. */
  lemma RoundTripPaysBothFees(qty: nat, price: real)
    requires price >= 0.0
    ensures TradeCost(qty, price) - SaleProceeds(qty, price) == Charges(qty as real * price, true) + Charges(qty as real * price, false)
    ensures TradeCost(qty, price) - SaleProceeds(qty, price) >= 10.0
  {
    assert qty as real * price >= 0.0;
  }

  /** The position a filled buy leaves: `q` shares bought at a non-zero `buyPrice`. */
  predicate FilledAt(w: World, bought: World, t: Ticker, q: nat, buyPrice: real, stop: real)
  {
    && q > 0 && buyPrice != 0.0
    && bought.tables.activeTrades == w.tables.activeTrades[t := ActiveTrade(q, Some(buyPrice), Some(stop))]
  }

  /** A buy that records a transaction leaves a filled position and pays for it. */
  lemma BuyFills(w: World, cap: real, t: Ticker, d: Date, price: real, stop: real)
    requires BuyStep(w, cap, t, d, price, stop).world.txns != w.txns
    ensures BuyQuantity(w.wallet, cap, price).Ok?
    ensures var q := BuyQuantity(w.wallet, cap, price).value;
            var bought := BuyStep(w, cap, t, d, price, stop).world;
      FilledAt(w, bought, t, q, price, stop) && bought.wallet == w.wallet - TradeCost(q, price)
  {
  }

  /** The position a fill leaves reads back as `q` shares at `buyPrice`. */
  lemma FilledPosition(w: World, bought: World, t: Ticker, q: nat, buyPrice: real, stop: real)
    requires FilledAt(w, bought, t, q, buyPrice, stop)
    ensures PositionOf(bought.tables.activeTrades, t) == Position(q, Some(buyPrice), Truthy(Some(stop)))
    ensures PositionOf(bought.tables.activeTrades, t).qty == q
    ensures BuyPriceOrZero(PositionOf(bought.tables.activeTrades, t)) == buyPrice
  {
  }

  /**
   * Selling what a buy filled: the positions are as before the buy, the wallet receives the
   * net proceeds, and the profit subtracts the shares' purchase value only.
   */
  lemma SellAfterFill(w: World, bought: World, t: Ticker, d: Date, q: nat, buyPrice: real, stop: real, sellPrice: real)
    requires FilledAt(w, bought, t, q, buyPrice, stop)
    ensures var s := SellStep(bought, t, d, sellPrice);
      && s.world.tables.activeTrades == w.tables.activeTrades - {t}
      && s.world.wallet == bought.wallet + SaleProceeds(q, sellPrice)
      && s.Sold?
      && s.profit == SaleProceeds(q, sellPrice) - q as real * buyPrice
  {
    FilledPosition(w, bought, t, q, buyPrice, stop);
    SellClosesPosition(bought, t, d, sellPrice);
  }

  /**
   * A filled buy followed by a sell restores the positions; the wallet gains the net sale
   * proceeds less the whole cost of the buy, fees included, while the reported profit
   * subtracts only the shares' purchase value and so leaves the buy fees out.
   */
  lemma BuyThenSell(w: World, cap: real, t: Ticker, d1: Date, d2: Date, buyPrice: real, stop: real, sellPrice: real)
    requires BuyStep(w, cap, t, d1, buyPrice, stop).world.txns != w.txns
    ensures BuyQuantity(w.wallet, cap, buyPrice).Ok?
    ensures var n := BuyQuantity(w.wallet, cap, buyPrice).value;
            var s := SellStep(BuyStep(w, cap, t, d1, buyPrice, stop).world, t, d2, sellPrice);
      && s.world.tables.activeTrades == w.tables.activeTrades - {t}
      && s.world.wallet == w.wallet - TradeCost(n, buyPrice) + SaleProceeds(n, sellPrice)
      && s.Sold?
      && s.profit == SaleProceeds(n, sellPrice) - n as real * buyPrice
  {
    BuyFills(w, cap, t, d1, buyPrice, stop);
    var n := BuyQuantity(w.wallet, cap, buyPrice).value;
    SellAfterFill(w, BuyStep(w, cap, t, d1, buyPrice, stop).world, t, d2, n, buyPrice, stop, sellPrice);
  }

  // ---------------------------------------------------------------------------
  // Stop loss

  /** With no position the update only logs a warning. */
  lemma UpdateStopWithoutPosition(w: World, t: Ticker, d: Date, newStop: real)
    requires PositionOf(w.tables.activeTrades, t).qty <= 0
    ensures UpdateStopStep(w, t, d, newStop) == Effect(Pass, Logged(w, d, t, Warning))
  {
  }

  /**
   * With a position the update replaces its stop, whether higher or lower, and nothing else;
   * it fails, after the update, exactly when the previous stop read as missing.
   */
  lemma UpdateStopChangesOnlyStop(w: World, t: Ticker, d: Date, newStop: real)
    requires PositionOf(w.tables.activeTrades, t).qty > 0
    ensures t in w.tables.activeTrades
    ensures var e := UpdateStopStep(w, t, d, newStop);
            var before := w.tables.activeTrades[t];
      && LedgerOnly(w, e.world)
      && e.world.wallet == w.wallet && e.world.txns == w.txns
      && e.world.tables.activeTrades == w.tables.activeTrades[t := ActiveTrade(before.qtyOwned, before.buyPrice, Some(newStop))]
      && (e.outcome.Fail? <==> PositionOf(w.tables.activeTrades, t).stopLoss.None?)
      && (e.outcome.Fail? ==> e.outcome.error == StopLossNotFormattable && e.world.log == w.log)
      && (e.outcome.Pass? ==> e.world.log == w.log + [LogEvent(d, t, Info)])
  {
  }

  /**
   * The stop-loss check triggers exactly when shares are held, the stop is truthy and the
   * price has reached it; it then sells the whole position at the stop and nothing else.
   */
  lemma StopCheckTriggersIff(w: World, t: Ticker, d: Date, low: real)
    ensures var c := StopCheckStep(w, t, d, low);
            var pos := PositionOf(w.tables.activeTrades, t);
      && (c.triggered <==> pos.qty > 0 && pos.stopLoss.Some? && low <= pos.stopLoss.value)
      && (c.triggered <==> c.pl.Some?)
      && (!c.triggered ==> c.world == w)
  {
  }

  lemma StopCheckSellsAtStop(w: World, t: Ticker, d: Date, low: real)
    requires StopCheckStep(w, t, d, low).triggered
    ensures t in w.tables.activeTrades
    ensures var c := StopCheckStep(w, t, d, low);
            var pos := PositionOf(w.tables.activeTrades, t);
      && pos.qty > 0 && pos.stopLoss.Some?
      && w.tables.activeTrades[t].stopLossAmt == pos.stopLoss
      && pos.stopLoss.value != 0.0 && low <= pos.stopLoss.value
      && c.pl == Some(SellStep(w, t, d, pos.stopLoss.value).profit)
      && c.world == Logged(SellStep(w, t, d, pos.stopLoss.value).world, d, t, Info)
  {
  }

  // ---------------------------------------------------------------------------
  // Dispatch and the day

  /** Dispatch: BUY at the open, and the three ways a decision aborts the run. */
  lemma DispatchFacts(cfg: Config, w: World, t: Ticker, d: Date, openPrice: real, decision: Decision)
    ensures var e := DispatchStep(cfg, w, t, d, openPrice, decision);
      && (decision.action.Buy? && decision.stopLoss.Some? ==>
            e == BuyStep(w, cfg.maxInvestPerStock, t, d, openPrice, decision.stopLoss.value))
      && ((decision.action.Buy? || decision.action.UpdateStopLoss?) && decision.stopLoss.None? ==>
            e == Effect(Fail(MissingStopLoss), w))
      && (decision.action.Other? ==> e == Effect(Fail(InvalidDecision), w))
      && (decision.action.NoOp? ==> e == Effect(Pass, w))
      && (decision.action.Sell? && PositionOf(w.tables.activeTrades, t).qty <= 0 ==> e == Effect(Fail(NoSharesOwned), w))
  {
  }

  /** A day without a bar is skipped; a bar with a NULL price aborts the run with an ERROR event. */
  lemma DayWithoutCompleteBar(cfg: Config, w: World, t: Ticker, d: Date)
    ensures var bar := RowOn(w.tables.historicals, t, d);
            var e := DayStep(cfg, w, t, d);
      && (bar.None? ==> e == Effect(Pass, w))
      && (bar.Some? && (bar.value.open.None? || bar.value.high.None? || bar.value.low.None? || bar.value.close.None?) ==>
            e == Effect(Fail(NullPrice), Logged(w, d, t, Error)))
  {
  }

  /** The day's bar, when it has all four prices. */
  predicate CompleteBar(w: World, t: Ticker, d: Date)
  {
    var bar := RowOn(w.tables.historicals, t, d);
    bar.Some? && bar.value.open.Some? && bar.value.high.Some? && bar.value.low.Some? && bar.value.close.Some?
  }

  /**
   * The stop-loss check on the day's low runs before the engine: a triggered day sells at
   * the stop, records a loss when there is one, and leaves the engine's state alone.
   */
  lemma StopLossPreemptsEngine(cfg: Config, w: World, t: Ticker, d: Date)
    requires CompleteBar(w, t, d)
    requires StopCheckStep(w, t, d, RowOn(w.tables.historicals, t, d).value.low.value).triggered
    ensures t in w.tables.activeTrades && w.tables.activeTrades[t].stopLossAmt.Some?
    ensures var e := DayStep(cfg, w, t, d);
            var trade := w.tables.activeTrades[t];
            var sold := SellStep(w, t, d, trade.stopLossAmt.value);
      && e.outcome.Pass?
      && e.world.heights == w.heights
      && e.world.tables == w.tables.(activeTrades := w.tables.activeTrades - {t})
      && e.world.txns == w.txns + [Transaction(d, t, SellTxn, trade.stopLossAmt.value, trade.qtyOwned)]
      && e.world.losses == (if sold.profit < 0.0 then w.losses + {t} else w.losses)
  {
    var low := RowOn(w.tables.historicals, t, d).value.low.value;
    StopCheckSellsAtStop(w, t, d, low);
    SellClosesPosition(w, t, d, w.tables.activeTrades[t].stopLossAmt.value);
  }

  /**
   * Dispatching anything but SELL leaves the loss set, the box heights and the engine's
   * tables alone and appends at most BUY transactions.
   */
  lemma DispatchWithoutSell(cfg: Config, w: World, t: Ticker, d: Date, openPrice: real, decision: Decision)
    requires !decision.action.Sell?
    ensures var e := DispatchStep(cfg, w, t, d, openPrice, decision);
      && LedgerOnly(w, e.world)
      && w.txns <= e.world.txns
      && (forall i :: |w.txns| <= i < |e.world.txns| ==> e.world.txns[i].txnType == BuyTxn)
  {
    if decision.action.Buy? && decision.stopLoss.Some? {
      var stop := decision.stopLoss.value;
      BuyWithoutFillChangesNothing(w, cfg.maxInvestPerStock, t, d, openPrice, stop);
      if BuyStep(w, cfg.maxInvestPerStock, t, d, openPrice, stop).world.txns != w.txns {
        BuyDebitsExactly(w, cfg.maxInvestPerStock, t, d, openPrice, stop);
      }
    } else if decision.action.UpdateStopLoss? && decision.stopLoss.Some? {
      if PositionOf(w.tables.activeTrades, t).qty > 0 {
        UpdateStopChangesOnlyStop(w, t, d, decision.stopLoss.value);
      }
    }
  }

  /**
   * After the engine is consulted the box height reflects the carried-over loss flag, the
   * flag is cleared on success, the engine never answers SELL, and so the only transactions
   * such a day can append are BUYs.
   */
  lemma EngineConsultedOnce(cfg: Config, w: World, t: Ticker, d: Date, openPrice: real)
    requires TablesValid(w.tables)
    ensures var e := DecideAndDispatchStep(cfg, w, t, d, openPrice);
      && e.world.heights == w.heights[t := NextHeight(w.heights, t, cfg.darvasHeightPct, cfg.darvasHeightIncrementPct, t in w.losses)]
      && e.world.losses - {t} == w.losses - {t}
      && (e.outcome.Pass? ==> t !in e.world.losses)
      && w.txns <= e.world.txns
      && (forall i :: |w.txns| <= i < |e.world.txns| ==> e.world.txns[i].txnType == BuyTxn)
  {
    var height := NextHeight(w.heights, t, cfg.darvasHeightPct, cfg.darvasHeightIncrementPct, t in w.losses);
    var step := DecideStep(w.tables, height, t, d, openPrice, cfg.leaderLookbackDays, cfg.breakoutStreak);
    DecideStepKeepsStoreValid(w.tables, height, t, d, openPrice, cfg.leaderLookbackDays, cfg.breakoutStreak);
    var decided := w.(tables := step.tables, heights := w.heights[t := height]);
    if step.result.Ok? {
      var cleared := if t in w.losses then decided.(losses := decided.losses - {t}) else decided;
      assert t !in cleared.losses;
      DispatchWithoutSell(cfg, cleared, t, d, openPrice, step.result.value);
    }
  }

  /**
   * On a valid store a day whose stop-loss check does not trigger consults the engine with
   * the carried-over loss flag and, when the day succeeds, ends with the ticker off the loss
   * set; it never sells.
   */
  lemma EngineDayClearsLossFlag(cfg: Config, w: World, t: Ticker, d: Date)
    requires TablesValid(w.tables)
    requires CompleteBar(w, t, d)
    requires !StopCheckStep(w, t, d, RowOn(w.tables.historicals, t, d).value.low.value).triggered
    ensures var e := DayStep(cfg, w, t, d);
      && e.world.heights == w.heights[t := NextHeight(w.heights, t, cfg.darvasHeightPct, cfg.darvasHeightIncrementPct, t in w.losses)]
      && e.world.losses - {t} == w.losses - {t}
      && (e.outcome.Pass? ==> t !in e.world.losses)
      && (forall i :: |w.txns| <= i < |e.world.txns| ==> e.world.txns[i].txnType == BuyTxn)
  {
    var row := RowOn(w.tables.historicals, t, d).value;
    StopCheckTriggersIff(w, t, d, row.low.value);
    EngineConsultedOnce(cfg, w, t, d, row.open.value);
  }

  /**
   * The driver loop as written calls the engine without the open price the engine requires,
   * so every day that reaches the engine raises before the engine runs; the error is logged
   * and the run aborts. Every other day is as in `DayStep`.
   */
  function DayStepAsWritten(cfg: Config, w: World, t: Ticker, d: Date): Effect
  {
    if CompleteBar(w, t, d) && !StopCheckStep(w, t, d, RowOn(w.tables.historicals, t, d).value.low.value).triggered then
      Effect(Fail(MissingOpenPrice), Logged(w, d, t, Error))
    else
      DayStep(cfg, w, t, d)
  }

  /** As written, the first day with a complete bar and no triggered stop aborts the run, and nothing is ever bought. */
  lemma AsWrittenEngineDayAborts(cfg: Config, w: World, t: Ticker, d: Date)
    requires CompleteBar(w, t, d)
    requires !StopCheckStep(w, t, d, RowOn(w.tables.historicals, t, d).value.low.value).triggered
    ensures DayStepAsWritten(cfg, w, t, d) == Effect(Fail(MissingOpenPrice), Logged(w, d, t, Error))
    ensures DayStepAsWritten(cfg, w, t, d) != DayStep(cfg, w, t, d)
  {
    EngineDayDispatchesAtOpen(cfg, w, t, d);
    EngineNeverMissesOpen(cfg, w, t, d, RowOn(w.tables.historicals, t, d).value.open.value);
  }

  /** With the open price passed, the engine's errors and the dispatch's errors never include a missing open price. */
  lemma EngineNeverMissesOpen(cfg: Config, w: World, t: Ticker, d: Date, openPrice: real)
    ensures DecideAndDispatchStep(cfg, w, t, d, openPrice).outcome != Fail(MissingOpenPrice)
  {
    var height := NextHeight(w.heights, t, cfg.darvasHeightPct, cfg.darvasHeightIncrementPct, t in w.losses);
    var step := DecideStep(w.tables, height, t, d, openPrice, cfg.leaderLookbackDays, cfg.breakoutStreak);
    if step.result.Ok? {
      var decided := w.(tables := step.tables, heights := w.heights[t := height]);
      var cleared := if t in w.losses then decided.(losses := decided.losses - {t}) else decided;
      DispatchErrors(cfg, cleared, t, d, openPrice, step.result.value);
    }
  }

  /** The errors a dispatch can raise. */
  lemma DispatchErrors(cfg: Config, w: World, t: Ticker, d: Date, openPrice: real, decision: Decision)
    ensures var e := DispatchStep(cfg, w, t, d, openPrice, decision);
      e.outcome.Fail? ==> e.outcome.error in {MissingStopLoss, DivisionByZero, NoSharesOwned, StopLossNotFormattable, InvalidDecision}
  {
    if decision.action.Buy? && decision.stopLoss.Some? {
      BuyWithoutFillChangesNothing(w, cfg.maxInvestPerStock, t, d, openPrice, decision.stopLoss.value);
    }
  }

  /**
   * The corrected loop: a day with a complete bar and no triggered stop dispatches the
   * engine's decision at the day's open, and logs an ERROR exactly when that fails.
   */
  lemma EngineDayDispatchesAtOpen(cfg: Config, w: World, t: Ticker, d: Date)
    requires CompleteBar(w, t, d)
    requires !StopCheckStep(w, t, d, RowOn(w.tables.historicals, t, d).value.low.value).triggered
    ensures var e := DecideAndDispatchStep(cfg, w, t, d, RowOn(w.tables.historicals, t, d).value.open.value);
      && DayStep(cfg, w, t, d).outcome == e.outcome
      && DayStep(cfg, w, t, d).world == (if e.outcome.Fail? then Logged(e.world, d, t, Error) else e.world)
  {
    StopCheckTriggersIff(w, t, d, RowOn(w.tables.historicals, t, d).value.low.value);
  }

  // ---------------------------------------------------------------------------
  // Invariants of a run

  lemma BuyKeepsLedgerValid(w: World, cap: real, t: Ticker, d: Date, price: real, stop: real)
    requires PositionsValid(w)
    ensures var e := BuyStep(w, cap, t, d, price, stop);
      && PositionsValid(e.world) && HistoryGrows(w, e.world)
      && (LedgerValid(w) && OnGrid(stop) ==> LedgerValid(e.world))
  {
    BuyWithoutFillChangesNothing(w, cap, t, d, price, stop);
    var w2 := BuyStep(w, cap, t, d, price, stop).world;
    if w2.txns != w.txns {
      BuyDebitsExactly(w, cap, t, d, price, stop);
    }
  }

  lemma SellKeepsLedgerValid(w: World, t: Ticker, d: Date, price: real)
    requires PositionsValid(w)
    ensures KeptValid(w, SellStep(w, t, d, price).world)
  {
    if PositionOf(w.tables.activeTrades, t).qty > 0 {
      SellClosesPosition(w, t, d, price);
    }
  }

  lemma UpdateStopKeepsLedgerValid(w: World, t: Ticker, d: Date, newStop: real)
    requires PositionsValid(w)
    ensures var e := UpdateStopStep(w, t, d, newStop);
      && PositionsValid(e.world) && HistoryGrows(w, e.world)
      && (LedgerValid(w) && OnGrid(newStop) ==> LedgerValid(e.world))
  {
    if PositionOf(w.tables.activeTrades, t).qty > 0 {
      UpdateStopChangesOnlyStop(w, t, d, newStop);
    }
  }

  lemma DispatchKeepsLedgerValid(cfg: Config, w: World, t: Ticker, d: Date, openPrice: real, decision: Decision)
    requires PositionsValid(w)
    ensures var e := DispatchStep(cfg, w, t, d, openPrice, decision);
      && PositionsValid(e.world) && HistoryGrows(w, e.world)
      && (LedgerValid(w) && (decision.stopLoss.Some? ==> OnGrid(decision.stopLoss.value)) ==> LedgerValid(e.world))
  {
    match decision.action
    case Buy =>
      if decision.stopLoss.Some? {
        BuyKeepsLedgerValid(w, cfg.maxInvestPerStock, t, d, openPrice, decision.stopLoss.value);
      }
    case Sell =>
      SellKeepsLedgerValid(w, t, d, openPrice);
    case UpdateStopLoss =>
      if decision.stopLoss.Some? {
        UpdateStopKeepsLedgerValid(w, t, d, decision.stopLoss.value);
      }
    case NoOp =>
    case Other(_) =>
  }

  lemma DecideAndDispatchKeepsLedgerValid(cfg: Config, w: World, t: Ticker, d: Date, openPrice: real)
    requires PositionsValid(w)
    ensures KeptValid(w, DecideAndDispatchStep(cfg, w, t, d, openPrice).world)
  {
    var height := NextHeight(w.heights, t, cfg.darvasHeightPct, cfg.darvasHeightIncrementPct, t in w.losses);
    var step := DecideStep(w.tables, height, t, d, openPrice, cfg.leaderLookbackDays, cfg.breakoutStreak);
    DecideStepKeepsStoreValid(w.tables, height, t, d, openPrice, cfg.leaderLookbackDays, cfg.breakoutStreak);
    var decided := w.(tables := step.tables, heights := w.heights[t := height]);
    assert PositionsValid(decided);
    if LedgerValid(w) {
      DecideKeepsStreaksNonNegative(w.tables, height, t, d, openPrice, cfg.leaderLookbackDays, cfg.breakoutStreak);
      assert LedgerValid(decided);
    }
    if step.result.Ok? {
      var cleared := if t in w.losses then decided.(losses := decided.losses - {t}) else decided;
      DispatchKeepsLedgerValid(cfg, cleared, t, d, openPrice, step.result.value);
    }
  }

  lemma StopCheckKeepsLedgerValid(w: World, t: Ticker, d: Date, low: real)
    requires PositionsValid(w)
    ensures KeptValid(w, StopCheckStep(w, t, d, low).world)
  {
    if StopCheckStep(w, t, d, low).triggered {
      var pos := PositionOf(w.tables.activeTrades, t);
      SellKeepsLedgerValid(w, t, d, pos.stopLoss.value);
    }
  }

  /** One day of the driver loop keeps the ledger valid and only appends to its history. */
  lemma DayKeepsLedgerValid(cfg: Config, w: World, t: Ticker, d: Date)
    requires PositionsValid(w)
    ensures KeptValid(w, DayStep(cfg, w, t, d).world)
  {
    if CompleteBar(w, t, d) {
      var row := RowOn(w.tables.historicals, t, d).value;
      var check := StopCheckStep(w, t, d, row.low.value);
      if check.triggered {
        StopCheckKeepsLedgerValid(w, t, d, row.low.value);
        assert DayStep(cfg, w, t, d).world
            == if check.pl.Some? && check.pl.value < 0.0 then AddLoss(check.world, t) else check.world;
      } else {
        assert check.world == w;
        var e := DecideAndDispatchStep(cfg, w, t, d, row.open.value);
        DecideAndDispatchKeepsLedgerValid(cfg, w, t, d, row.open.value);
        assert DayStep(cfg, w, t, d).world == if e.outcome.Fail? then Logged(e.world, d, t, Error) else e.world;
      }
    }
  }

  lemma {:induction false} RunDatesKeepsLedgerValid(cfg: Config, w: World, t: Ticker, dates: seq<Date>)
    requires PositionsValid(w)
    ensures KeptValid(w, RunDates(cfg, w, t, dates).world)
    decreases |dates|
  {
    if dates != [] {
      var before := RunDates(cfg, w, t, dates[..|dates| - 1]);
      RunDatesKeepsLedgerValid(cfg, w, t, dates[..|dates| - 1]);
      if before.outcome.Pass? {
        DayKeepsLedgerValid(cfg, before.world, t, dates[|dates| - 1]);
      }
    }
  }

  lemma {:induction false} RunTickersKeepsLedgerValid(cfg: Config, w: World, tickers: seq<Ticker>, dates: seq<Date>)
    requires PositionsValid(w)
    ensures KeptValid(w, RunTickers(cfg, w, tickers, dates).world)
    decreases |tickers|
  {
    if tickers != [] {
      var before := RunTickers(cfg, w, tickers[..|tickers| - 1], dates);
      RunTickersKeepsLedgerValid(cfg, w, tickers[..|tickers| - 1], dates);
      if before.outcome.Pass? {
        RunDatesKeepsLedgerValid(cfg, before.world, tickers[|tickers| - 1], dates);
      }
    }
  }

  /**
   * A whole run keeps the store valid and every position open, trades only positive
   * quantities, never rewrites the price history, and only appends transactions and events;
   * started with four-decimal stops and non-negative streaks, it keeps those too.
   */
  lemma RunKeepsLedgerValid(cfg: Config, w: World, tickers: seq<Ticker>, dates: seq<Date>)
    requires PositionsValid(w)
    ensures KeptValid(w, RunSpec(cfg, w, tickers, dates).world)
  {
    if |tickers| > 0 && |dates| > 0 {
      RunTickersKeepsLedgerValid(cfg, w, tickers, dates);
    }
  }

  /** The engine's call keeps every streak non-negative. */
  lemma DecideKeepsStreaksNonNegative(tb: Tables, height: real, t: Ticker, tradeDate: Date, openPrice: real,
                                      leaderLookbackDays: int, requiredStreak: int)
    requires TablesValid(tb) && StreaksNonNegative(tb.strategyState)
    ensures StreaksNonNegative(DecideStep(tb, height, t, tradeDate, openPrice, leaderLookbackDays, requiredStreak).tables.strategyState)
  {
    DecideStepKeepsStoreValid(tb, height, t, tradeDate, openPrice, leaderLookbackDays, requiredStreak);
    DecideStepStreak(tb, height, t, tradeDate, openPrice, leaderLookbackDays, requiredStreak);
    assert BreakoutStreak(tb.strategyState, t) >= 0;
  }

  /**
   * After any run from a world with four-decimal stops and non-negative streaks, the stop
   * ratchet applies to every held position: the engine's UPDATE_STOP_LOSS never lowers it.
   */
  lemma RunKeepsStopRatchet(cfg: Config, w: World, tickers: seq<Ticker>, dates: seq<Date>,
                            t: Ticker, d: Date, openPrice: real, height: real)
    requires LedgerValid(w)
    ensures var tb := RunSpec(cfg, w, tickers, dates).world.tables;
      var s := DecideStep(tb, height, t, d, openPrice, cfg.leaderLookbackDays, cfg.breakoutStreak);
      Holding(tb, t) && s.result.Ok? && s.result.value.action == UpdateStopLoss ==>
        s.result.value.stopLoss.value >= CurrentStop(tb.activeTrades[t])
  {
    RunKeepsLedgerValid(cfg, w, tickers, dates);
    var tb := RunSpec(cfg, w, tickers, dates).world.tables;
    if Holding(tb, t) {
      StopLossNeverLowered(tb, height, t, d, openPrice, cfg.leaderLookbackDays, cfg.breakoutStreak);
    }
  }
}
