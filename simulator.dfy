/**
 * The backtest ledger (impl/test/simulator.py, class TradingSimulator): a wallet, the
 * `active_trades` positions, an append-only transaction table and event log, and the set
 * of tickers whose last exit lost money, replayed ticker by ticker and day by day against
 * the decision engine.
 *
 * As for the engine, every operation has a pure specification over a `World` value, and
 * the class's methods, which update their fields in place, are proved equal to it.
 */
module Simulator {
  import opened Common
  import opened Fees
  import opened Repository
  import opened DecisionEngine

  // ---------------------------------------------------------------------------
  // Values

  datatype TxnType = BuyTxn | SellTxn

  /** A row of the `transactions` table. */
  datatype Transaction = Transaction(txnDate: Date, ticker: Ticker, txnType: TxnType, price: real, qty: int)

  datatype LogLevel = Info | Warning | Error

  /** A row of `simulation_log`, without its message text. */
  datatype LogEvent = LogEvent(logDate: Date, ticker: Ticker, level: LogLevel)

  /** The exceptions that abort a run. */
  datatype SimError =
    | NoDataLoaded             // no tickers or no trading dates
    | NoSharesOwned            // SELL with nothing held
    | MissingStopLoss          // BUY or UPDATE_STOP_LOSS decided without a stop
    | InvalidDecision          // an action label the dispatcher does not know
    | DivisionByZero           // a buy at price 0 divides the budget by 0
    | NullPrice                // a price column of the day's bar is NULL
    | StopLossNotFormattable   // the stop-loss update message formats a missing stop
    | MissingOpenPrice         // the engine called without its required open price
    | EngineFailed(cause: EngineError)

  datatype Outcome = Pass | Fail(error: SimError)

  /** The simulator's parameters. */
  datatype Config = Config(maxInvestPerStock: real, breakoutStreak: int, darvasHeightPct: real,
                           darvasHeightIncrementPct: real, leaderLookbackDays: int)

  /** Everything a run reads and writes. */
  datatype World = World(tables: Tables, heights: map<Ticker, real>, wallet: real,
                         txns: seq<Transaction>, log: seq<LogEvent>, losses: set<Ticker>)

  datatype Effect = Effect(outcome: Outcome, world: World)

  /** A sale and its profit or loss, or the refusal of a sale with nothing held; either way the new world. */
  datatype SellEffect = Sold(profit: real, world: World) | NotHeld(world: World)

  datatype StopCheck = StopCheck(triggered: bool, pl: Option<real>, world: World)

  /** A position as `_get_current_position` reads it. */
  datatype Position = Position(qty: int, buyPrice: Option<real>, stopLoss: Option<real>)

  /** Python truthiness of a nullable float: NULL and 0 both read as missing. */
  function Truthy(x: Option<real>): (r: Option<real>)
    ensures r.Some? <==> x.Some? && x.value != 0.0
    ensures r.Some? ==> r == x
  {
    if x.Some? && x.value != 0.0 then x else None
  }

  /** `_get_current_position`: (qty, buy price, stop), with (0, None, None) for no row. */
  function PositionOf(trades: map<Ticker, ActiveTrade>, t: Ticker): (p: Position)
    ensures t !in trades ==> p == Position(0, None, None)
    ensures t in trades ==> p.qty == trades[t].qtyOwned
    ensures t in trades ==> p.buyPrice == Truthy(trades[t].buyPrice) && p.stopLoss == Truthy(trades[t].stopLossAmt)
  {
    if t in trades then Position(trades[t].qtyOwned, Truthy(trades[t].buyPrice), Truthy(trades[t].stopLossAmt))
    else Position(0, None, None)
  }

  function Logged(w: World, d: Date, t: Ticker, level: LogLevel): World
  {
    w.(log := w.log + [LogEvent(d, t, level)])
  }

  // ---------------------------------------------------------------------------
  // The simulator's own affordable-quantity search

  /** int(x) on a Decimal: truncation toward zero. */
  function Trunc(x: real): (r: int)
    ensures x >= 0.0 ==> r as real <= x < r as real + 1.0
    ensures x < 0.0 ==> r as real - 1.0 < x <= r as real
  {
    if x >= 0.0 then x.Floor else -((-x).Floor)
  }

  /** The downward search from `q`: the first quantity that fits the budget with its fees, else 0. */
  function AffordableFrom(q: int, price: real, budget: real): nat
    decreases q
  {
    if q <= 0 then 0
    else if TradeCost(q, price) <= budget then q
    else AffordableFrom(q - 1, price, budget)
  }

  /**
   * The search from `q` is sound and exhaustive below `q`: what it finds fits the budget,
   * and every quantity above it, up to `q`, does not.
   */
  lemma {:induction false} AffordableFromSearch(q: int, price: real, budget: real)
    ensures var r := AffordableFrom(q, price, budget);
      && (r <= q || r == 0)
      && (r > 0 ==> TradeCost(r, price) <= budget)
      && (forall k: int :: r < k <= q ==> budget < TradeCost(k, price))
    decreases q
  {
    if q > 0 && TradeCost(q, price) > budget {
      AffordableFromSearch(q - 1, price, budget);
    }
  }

  /** `_max_affordable_buy_qty(cash, price)`: no guard on the price, so a price of 0 divides by zero. */
  function SimAffordableQty(cash: real, price: real): (r: Result<nat, SimError>)
    ensures r.Err? <==> price == 0.0
    ensures r.Err? ==> r.error == DivisionByZero
  {
    if price == 0.0 then Err(DivisionByZero) else Ok(AffordableFrom(Trunc(cash / price), price, cash))
  }

  /**
   * For a positive price the simulator's copy finds the largest affordable quantity, the
   * same one as `max_affordable_buy_qty` of the fee module with no investment cap.
   */
  lemma SimAffordableIsMax(cash: real, price: real)
    requires price > 0.0
    ensures IsMaxAffordable(SimAffordableQty(cash, price).value, price, cash)
    ensures forall q: nat :: IsMaxAffordable(q, price, Budget(cash, None)) ==> q == SimAffordableQty(cash, price).value
  {
    var top := Trunc(cash / price);
    var q := SimAffordableQty(cash, price).value;
    AffordableFromSearch(top, price, cash);
    assert (cash / price).Floor <= top;
    forall k: int | q < k
      ensures cash < TradeCost(k, price)
    {
      if k > top {
        BeyondFloorUnaffordable(k, price, cash);
      }
    }
    forall q2: nat | IsMaxAffordable(q2, price, Budget(cash, None))
      ensures q2 == q
    {
      MaxAffordableUnique(q2, q, price, cash);
    }
  }

  // ---------------------------------------------------------------------------
  // Ledger operations, on a World

  /** The budget of one buy: the wallet, capped by the per-stock limit. */
  function BuyQuantity(wallet: real, maxInvestPerStock: real, price: real): Result<nat, SimError>
  {
    SimAffordableQty(Budget(wallet, Some(maxInvestPerStock)), price)
  }

  /** `_execute_buy`. */
  function BuyStep(w: World, maxInvestPerStock: real, t: Ticker, d: Date, price: real, stopLoss: real): Effect
  {
    if PositionOf(w.tables.activeTrades, t).qty > 0 then Effect(Pass, w)
    else if w.wallet <= 0.0 then Effect(Pass, Logged(w, d, t, Warning))
    else
      var q := BuyQuantity(w.wallet, maxInvestPerStock, price);
      if q.Err? then Effect(Fail(q.error), w)
      else if q.value == 0 then Effect(Pass, w)
      else
        var bought := w.(wallet := w.wallet - TradeCost(q.value, price),
                         tables := w.tables.(activeTrades := w.tables.activeTrades[t := ActiveTrade(q.value, Some(price), Some(stopLoss))]),
                         txns := w.txns + [Transaction(d, t, BuyTxn, price, q.value)]);
        Effect(Pass, Logged(bought, d, t, Info))
  }

  /** What selling `qty` shares at `price` credits: the trade value less the sell-side charges. */
  function SaleProceeds(qty: int, price: real): real
  {
    qty as real * price - Charges(qty as real * price, false)
  }

  /** `_execute_sell`: the whole position at `price`; the result is the profit or loss. */
  function SellStep(w: World, t: Ticker, d: Date, price: real): (s: SellEffect)
    ensures s.Sold? <==> PositionOf(w.tables.activeTrades, t).qty > 0
    ensures s.NotHeld? ==> s.world == w
  {
    var pos := PositionOf(w.tables.activeTrades, t);
    if pos.qty <= 0 then NotHeld(w)
    else
      var net := SaleProceeds(pos.qty, price);
      var buyPrice := if pos.buyPrice.Some? then pos.buyPrice.value else 0.0;
      var sold := w.(wallet := w.wallet + net,
                     tables := w.tables.(activeTrades := w.tables.activeTrades - {t}),
                     txns := w.txns + [Transaction(d, t, SellTxn, price, pos.qty)]);
      Sold(net - pos.qty as real * buyPrice, Logged(sold, d, t, Info))
  }

  /** `_update_stop_loss`: overwrite the stop, with no ratchet check of its own. */
  function UpdateStopStep(w: World, t: Ticker, d: Date, newStopLoss: real): Effect
  {
    var pos := PositionOf(w.tables.activeTrades, t);
    if pos.qty <= 0 then Effect(Pass, Logged(w, d, t, Warning))
    else
      var trades := w.tables.activeTrades;
      var updated := w.(tables := w.tables.(activeTrades := trades[t := trades[t].(stopLossAmt := Some(newStopLoss))]));
      // The message formats the stop read before the update; a missing one cannot be formatted.
      if pos.stopLoss.None? then Effect(Fail(StopLossNotFormattable), updated)
      else Effect(Pass, Logged(updated, d, t, Info))
  }

  /** `_check_stop_loss` with the day's low: sell the whole position at the stop when the low reaches it. */
  function StopCheckStep(w: World, t: Ticker, d: Date, low: real): StopCheck
  {
    var pos := PositionOf(w.tables.activeTrades, t);
    if pos.qty > 0 && pos.stopLoss.Some? && low <= pos.stopLoss.value then
      var sold := SellStep(w, t, d, pos.stopLoss.value);
      StopCheck(true, Some(sold.profit), Logged(sold.world, d, t, Info))
    else
      StopCheck(false, None, w)
  }

  function AddLoss(w: World, t: Ticker): World
  {
    w.(losses := w.losses + {t})
  }

  /** The dispatch on the engine's decision, at the day's open. */
  function DispatchStep(cfg: Config, w: World, t: Ticker, d: Date, openPrice: real, decision: Decision): Effect
  {
    match decision.action
    case Buy =>
      if decision.stopLoss.None? then Effect(Fail(MissingStopLoss), w)
      else BuyStep(w, cfg.maxInvestPerStock, t, d, openPrice, decision.stopLoss.value)
    case Sell =>
      var sold := SellStep(w, t, d, openPrice);
      if sold.NotHeld? then Effect(Fail(NoSharesOwned), sold.world)
      else Effect(Pass, if sold.profit < 0.0 then AddLoss(sold.world, t) else sold.world)
    case UpdateStopLoss =>
      if decision.stopLoss.None? then Effect(Fail(MissingStopLoss), w)
      else UpdateStopStep(w, t, d, decision.stopLoss.value)
    case NoOp => Effect(Pass, w)
    case Other(_) => Effect(Fail(InvalidDecision), w)
  }

  /** The engine's decision and its dispatch, once the stop-loss check has not triggered. */
  function DecideAndDispatchStep(cfg: Config, w: World, t: Ticker, d: Date, openPrice: real): Effect
  {
    var lossFlag := t in w.losses;
    var height := NextHeight(w.heights, t, cfg.darvasHeightPct, cfg.darvasHeightIncrementPct, lossFlag);
    var step := DecideStep(w.tables, height, t, d, openPrice, cfg.leaderLookbackDays, cfg.breakoutStreak);
    var decided := w.(tables := step.tables, heights := w.heights[t := height]);
    if step.result.Err? then Effect(Fail(EngineFailed(step.result.error)), decided)
    else
      var cleared := if lossFlag then decided.(losses := decided.losses - {t}) else decided;
      DispatchStep(cfg, cleared, t, d, openPrice, step.result.value)
  }

  /** The body of the driver loop for one ticker and one date; any failure is logged as an ERROR event. */
  function DayStep(cfg: Config, w: World, t: Ticker, d: Date): Effect
  {
    var bar := RowOn(w.tables.historicals, t, d);
    if bar.None? then Effect(Pass, w)
    else
      var row := bar.value;
      if row.open.None? || row.high.None? || row.low.None? || row.close.None? then
        Effect(Fail(NullPrice), Logged(w, d, t, Error))
      else
        var check := StopCheckStep(w, t, d, row.low.value);
        if check.triggered then
          Effect(Pass, if check.pl.Some? && check.pl.value < 0.0 then AddLoss(check.world, t) else check.world)
        else
          var e := DecideAndDispatchStep(cfg, check.world, t, d, row.open.value);
          if e.outcome.Fail? then Effect(e.outcome, Logged(e.world, d, t, Error)) else e
  }

  /** The inner loop: ticker `t` over `dates`, in order, stopping at the first failure. */
  function RunDates(cfg: Config, w: World, t: Ticker, dates: seq<Date>): Effect
    decreases |dates|
  {
    if dates == [] then Effect(Pass, w)
    else
      var before := RunDates(cfg, w, t, dates[..|dates| - 1]);
      if before.outcome.Fail? then before else DayStep(cfg, before.world, t, dates[|dates| - 1])
  }

  /** The outer loop: every ticker in order, each over every date. */
  function RunTickers(cfg: Config, w: World, tickers: seq<Ticker>, dates: seq<Date>): Effect
    decreases |tickers|
  {
    if tickers == [] then Effect(Pass, w)
    else
      var before := RunTickers(cfg, w, tickers[..|tickers| - 1], dates);
      if before.outcome.Fail? then before else RunDates(cfg, before.world, tickers[|tickers| - 1], dates)
  }

  /** `run_simulation` without the final report. */
  function RunSpec(cfg: Config, w: World, tickers: seq<Ticker>, dates: seq<Date>): Effect
  {
    if |tickers| == 0 || |dates| == 0 then Effect(Fail(NoDataLoaded), w)
    else RunTickers(cfg, w, tickers, dates)
  }

  /** One more date: the run so far, then that day unless the run has already failed. */
  lemma RunDatesSnoc(cfg: Config, w: World, t: Ticker, dates: seq<Date>, j: nat)
    requires j < |dates|
    ensures var before := RunDates(cfg, w, t, dates[..j]);
      RunDates(cfg, w, t, dates[..j + 1]) == if before.outcome.Fail? then before else DayStep(cfg, before.world, t, dates[j])
  {
    assert dates[..j + 1][..j] == dates[..j];
  }

  /** One more ticker: the run so far, then that ticker over every date unless the run has already failed. */
  lemma RunTickersSnoc(cfg: Config, w: World, tickers: seq<Ticker>, dates: seq<Date>, i: nat)
    requires i < |tickers|
    ensures var before := RunTickers(cfg, w, tickers[..i], dates);
      RunTickers(cfg, w, tickers[..i + 1], dates) == if before.outcome.Fail? then before else RunDates(cfg, before.world, tickers[i], dates)
  {
    assert tickers[..i + 1][..i] == tickers[..i];
  }

  lemma {:induction false} RunDatesStopsAtFailure(cfg: Config, w: World, t: Ticker, dates: seq<Date>, j: nat)
    requires j <= |dates|
    requires RunDates(cfg, w, t, dates[..j]).outcome.Fail?
    ensures RunDates(cfg, w, t, dates) == RunDates(cfg, w, t, dates[..j])
    decreases |dates| - j
  {
    if j < |dates| {
      assert dates[..j + 1][..j] == dates[..j];
      RunDatesStopsAtFailure(cfg, w, t, dates, j + 1);
    } else {
      assert dates[..j] == dates;
    }
  }

  lemma {:induction false} RunTickersStopsAtFailure(cfg: Config, w: World, tickers: seq<Ticker>, dates: seq<Date>, i: nat)
    requires i <= |tickers|
    requires RunTickers(cfg, w, tickers[..i], dates).outcome.Fail?
    ensures RunTickers(cfg, w, tickers, dates) == RunTickers(cfg, w, tickers[..i], dates)
    decreases |tickers| - i
  {
    if i < |tickers| {
      assert tickers[..i + 1][..i] == tickers[..i];
      RunTickersStopsAtFailure(cfg, w, tickers, dates, i + 1);
    } else {
      assert tickers[..i] == tickers;
    }
  }

  // ---------------------------------------------------------------------------
  // The simulator

  class TradingSimulator {
    const repo: DataRepository
    const engine: Engine
    const maxInvestPerStock: real
    const breakoutStreak: int
    const darvasHeightPct: real
    const darvasHeightIncrementPct: real
    const leaderLookbackDays: int
    const tickers: seq<Ticker>
    const tradingDates: seq<Date>
    var walletCash: real
    var transactions: seq<Transaction>
    var simulationLog: seq<LogEvent>
    var lossCarryoverTickers: set<Ticker>

    function Cfg(): Config
    {
      Config(maxInvestPerStock, breakoutStreak, darvasHeightPct, darvasHeightIncrementPct, leaderLookbackDays)
    }

    function State(): World
      reads this, repo, engine
    {
      World(repo.Snapshot(), engine.heightPctByTicker, walletCash, transactions, simulationLog, lossCarryoverTickers)
    }

    /** A simulator over a loaded store, with the wallet initialised and nothing logged or traded. */
    constructor (repo: DataRepository, engine: Engine, initialWalletCash: real, maxInvestPerStock: real,
                 breakoutStreak: int, darvasHeightPct: real, darvasHeightIncrementPct: real,
                 leaderLookbackDays: int, tickers: seq<Ticker>, tradingDates: seq<Date>)
      ensures this.repo == repo && this.engine == engine
      ensures Cfg() == Config(maxInvestPerStock, breakoutStreak, darvasHeightPct, darvasHeightIncrementPct, leaderLookbackDays)
      ensures this.tickers == tickers && this.tradingDates == tradingDates
      ensures walletCash == initialWalletCash && transactions == [] && simulationLog == [] && lossCarryoverTickers == {}
    {
      this.repo := repo;
      this.engine := engine;
      this.maxInvestPerStock := maxInvestPerStock;
      this.breakoutStreak := breakoutStreak;
      this.darvasHeightPct := darvasHeightPct;
      this.darvasHeightIncrementPct := darvasHeightIncrementPct;
      this.leaderLookbackDays := leaderLookbackDays;
      this.tickers := tickers;
      this.tradingDates := tradingDates;
      walletCash := initialWalletCash;
      transactions := [];
      simulationLog := [];
      lossCarryoverTickers := {};
    }

    /** `_log_event`: append one event. */
    method RecordEvent(d: Date, t: Ticker, level: LogLevel)
      modifies this
      ensures State() == Logged(old(State()), d, t, level)
    {
      simulationLog := simulationLog + [LogEvent(d, t, level)];
    }

    /** Write the `active_trades` table back to the store. */
    method StoreTrades(trades: map<Ticker, ActiveTrade>)
      modifies repo
      ensures State() == old(State()).(tables := old(State()).tables.(activeTrades := trades))
    {
      repo.activeTrades := trades;
    }

    /** Set the wallet balance. */
    method StoreWallet(cash: real)
      modifies this
      ensures State() == old(State()).(wallet := cash)
    {
      walletCash := cash;
    }

    /** Append to the `transactions` table. */
    method RecordTransaction(txn: Transaction)
      modifies this
      ensures State() == old(State()).(txns := old(State()).txns + [txn])
    {
      transactions := transactions + [txn];
    }

    /** `_max_affordable_buy_qty`: count down from int(cash / price) to the first affordable quantity. */
    method MaxAffordableBuyQty(cash: real, price: real) returns (r: Result<nat, SimError>)
      ensures r == SimAffordableQty(cash, price)
    {
      if price == 0.0 {
        return Err(DivisionByZero);
      }
      var top := Trunc(cash / price);
      var qty := top;
      while qty > 0
        invariant AffordableFrom(qty, price, cash) == AffordableFrom(top, price, cash)
        decreases qty
      {
        if TradeCost(qty, price) <= cash {
          return Ok(qty);
        }
        qty := qty - 1;
      }
      return Ok(0);
    }

    /** `_execute_buy`. */
    method ExecuteBuy(t: Ticker, d: Date, price: real, stopLoss: real) returns (outcome: Outcome)
      modifies this, repo
      ensures Effect(outcome, State()) == BuyStep(old(State()), maxInvestPerStock, t, d, price, stopLoss)
    {
      ghost var w := State();
      var position := PositionOf(repo.activeTrades, t);
      assert position == PositionOf(w.tables.activeTrades, t);
      if position.qty > 0 {
        return Pass;
      }
      var wallet := walletCash;
      if wallet <= 0.0 {
        RecordEvent(d, t, Warning);
        return Pass;
      }
      var budget := Min(wallet, maxInvestPerStock);
      var qty := MaxAffordableBuyQty(budget, price);
      assert qty == BuyQuantity(w.wallet, maxInvestPerStock, price);
      if qty.Err? {
        return Fail(qty.error);
      }
      if qty.value <= 0 {
        return Pass;
      }
      var totalCost := TradeCost(qty.value, price);
      StoreWallet(wallet - totalCost);
      StoreTrades(repo.activeTrades[t := ActiveTrade(qty.value, Some(price), Some(stopLoss))]);
      RecordTransaction(Transaction(d, t, BuyTxn, price, qty.value));
      RecordEvent(d, t, Info);
      return Pass;
    }

    /** `_execute_sell`. */
    method ExecuteSell(t: Ticker, d: Date, price: real) returns (r: Result<real, SimError>)
      modifies this, repo
      ensures var s := SellStep(old(State()), t, d, price);
        && (r.Ok? <==> s.Sold?)
        && (r.Ok? ==> r.value == s.profit)
        && (r.Err? ==> r.error == NoSharesOwned)
        && State() == s.world
    {
      ghost var w := State();
      var position := PositionOf(repo.activeTrades, t);
      assert position == PositionOf(w.tables.activeTrades, t);
      if position.qty <= 0 {
        return Err(NoSharesOwned);
      }
      var totalTradeValue := position.qty as real * price;
      var sellFees := Charges(totalTradeValue, false);
      var netProceeds := totalTradeValue - sellFees;
      StoreWallet(walletCash + netProceeds);
      StoreTrades(repo.activeTrades - {t});
      RecordTransaction(Transaction(d, t, SellTxn, price, position.qty));
      var buyPrice := if position.buyPrice.Some? then position.buyPrice.value else 0.0;
      var profitLoss := netProceeds - position.qty as real * buyPrice;
      assert State() == w.(wallet := w.wallet + netProceeds, tables := w.tables.(activeTrades := w.tables.activeTrades - {t}), txns := w.txns + [Transaction(d, t, SellTxn, price, position.qty)]);
      RecordEvent(d, t, Info);
      assert netProceeds == totalTradeValue - Charges(totalTradeValue, false);
      assert totalTradeValue == PositionOf(w.tables.activeTrades, t).qty as real * price;
      return Ok(profitLoss);
    }

    /** `_update_stop_loss`. */
    method UpdateStopLoss(t: Ticker, d: Date, newStopLoss: real) returns (outcome: Outcome)
      modifies this, repo
      ensures Effect(outcome, State()) == UpdateStopStep(old(State()), t, d, newStopLoss)
    {
      var position := PositionOf(repo.activeTrades, t);
      if position.qty <= 0 {
        RecordEvent(d, t, Warning);
        return Pass;
      }
      StoreTrades(repo.activeTrades[t := repo.activeTrades[t].(stopLossAmt := Some(newStopLoss))]);
      if position.stopLoss.None? {
        return Fail(StopLossNotFormattable);
      }
      RecordEvent(d, t, Info);
      return Pass;
    }

    /** `_check_stop_loss`. */
    method CheckStopLoss(t: Ticker, d: Date, currentPrice: real) returns (triggered: bool, pl: Option<real>)
      modifies this, repo
      ensures StopCheck(triggered, pl, State()) == StopCheckStep(old(State()), t, d, currentPrice)
    {
      var position := PositionOf(repo.activeTrades, t);
      if position.qty > 0 && position.stopLoss.Some? && currentPrice <= position.stopLoss.value {
        var sold := ExecuteSell(t, d, position.stopLoss.value);
        RecordEvent(d, t, Info);
        return true, Some(sold.value);
      }
      return false, None;
    }

    /** The dispatch of `run_simulation` on one decision. */
    method Dispatch(t: Ticker, d: Date, openPrice: real, decision: Decision) returns (outcome: Outcome)
      modifies this, repo
      ensures Effect(outcome, State()) == DispatchStep(Cfg(), old(State()), t, d, openPrice, decision)
    {
      match decision.action
      case Buy =>
        if decision.stopLoss.None? {
          return Fail(MissingStopLoss);
        }
        outcome := ExecuteBuy(t, d, openPrice, decision.stopLoss.value);
      case Sell =>
        var pl := ExecuteSell(t, d, openPrice);
        if pl.Err? {
          return Fail(pl.error);
        }
        if pl.value < 0.0 {
          lossCarryoverTickers := lossCarryoverTickers + {t};
        }
        return Pass;
      case UpdateStopLoss =>
        if decision.stopLoss.None? {
          return Fail(MissingStopLoss);
        }
        outcome := UpdateStopLoss(t, d, decision.stopLoss.value);
      case NoOp =>
        return Pass;
      case Other(_) =>
        return Fail(InvalidDecision);
    }

    /** Consult the engine with the carried-over loss flag, clear the flag, and dispatch. */
    method DecideAndDispatch(t: Ticker, d: Date, openPrice: real) returns (outcome: Outcome)
      modifies this, repo, engine
      ensures Effect(outcome, State()) == DecideAndDispatchStep(Cfg(), old(State()), t, d, openPrice)
    {
      var lossFlag := t in lossCarryoverTickers;
      var decision := engine.GetDecision(repo, t, d, openPrice, leaderLookbackDays, breakoutStreak,
                                         darvasHeightPct, darvasHeightIncrementPct, lossFlag);
      if decision.Err? {
        return Fail(EngineFailed(decision.error));
      }
      if lossFlag {
        lossCarryoverTickers := lossCarryoverTickers - {t};
      }
      outcome := Dispatch(t, d, openPrice, decision.value);
    }

    /** One iteration of the driver loop: the day's bar, the stop-loss check, then the engine. */
    method ProcessDay(t: Ticker, d: Date) returns (outcome: Outcome)
      modifies this, repo, engine
      ensures Effect(outcome, State()) == DayStep(Cfg(), old(State()), t, d)
    {
      var priceData := RowOn(repo.historicals, t, d);
      if priceData.None? {
        return Pass;
      }
      var row := priceData.value;
      if row.open.None? || row.high.None? || row.low.None? || row.close.None? {
        RecordEvent(d, t, Error);
        return Fail(NullPrice);
      }
      var triggered, pl := CheckStopLoss(t, d, row.low.value);
      if triggered {
        if pl.Some? && pl.value < 0.0 {
          lossCarryoverTickers := lossCarryoverTickers + {t};
        }
        return Pass;
      }
      outcome := DecideAndDispatch(t, d, row.open.value);
      if outcome.Fail? {
        RecordEvent(d, t, Error);
      }
    }

    /** The inner loop of `run_simulation`: one ticker over every trading date, until the first error. */
    method RunTicker(t: Ticker) returns (outcome: Outcome)
      modifies this, repo, engine
      ensures Effect(outcome, State()) == RunDates(Cfg(), old(State()), t, tradingDates)
    {
      ghost var start := State();
      for j := 0 to |tradingDates|
        invariant Effect(Pass, State()) == RunDates(Cfg(), start, t, tradingDates[..j])
      {
        RunDatesSnoc(Cfg(), start, t, tradingDates, j);
        var dayOutcome := ProcessDay(t, tradingDates[j]);
        if dayOutcome.Fail? {
          RunDatesStopsAtFailure(Cfg(), start, t, tradingDates, j + 1);
          return dayOutcome;
        }
      }
      assert tradingDates[..|tradingDates|] == tradingDates;
      return Pass;
    }

    /** `run_simulation`: every ticker, and for each every trading date, until the first error. */
    method RunSimulation() returns (outcome: Outcome)
      modifies this, repo, engine
      ensures Effect(outcome, State()) == RunSpec(Cfg(), old(State()), tickers, tradingDates)
    {
      if |tickers| == 0 || |tradingDates| == 0 {
        return Fail(NoDataLoaded);
      }
      ghost var start := State();
      for i := 0 to |tickers|
        invariant Effect(Pass, State()) == RunTickers(Cfg(), start, tickers[..i], tradingDates)
      {
        RunTickersSnoc(Cfg(), start, tickers, tradingDates, i);
        var tickerOutcome := RunTicker(tickers[i]);
        if tickerOutcome.Fail? {
          RunTickersStopsAtFailure(Cfg(), start, tickers, tradingDates, i + 1);
          return tickerOutcome;
        }
      }
      assert tickers[..|tickers|] == tickers;
      return Pass;
    }
  }
}
