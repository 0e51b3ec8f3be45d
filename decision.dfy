/**
 * The Darvas-box decision engine (buffet/decision.py).
 *
 * `DecideStep` states, on a snapshot of the store, what one call of get_decision returns
 * and what the tables hold afterwards; `Engine.GetDecision` performs the same reads and
 * writes against a `DataRepository`, in the source's order, and is proved equal to it.
 * The lemmas after it are properties of `DecideStep`.
 */
module DecisionEngine {
  import opened Common
  import opened Repository

  // ---------------------------------------------------------------------------
  // Decision values

  /** The decision action. The source uses free strings; the simulator also dispatches SELL and rejects others. */
  datatype Action = NoOp | Buy | Sell | UpdateStopLoss | Other(name: string)

  datatype Decision = Decision(action: Action, stopLoss: Option<real>)

  /** What get_decision can raise: ValueError from the constructor, TypeError from float(None). */
  datatype EngineError = BuyWithoutStopLoss | NoPreviousClose

  /** The Decision constructor: a BUY must carry a stop loss; every other action may omit it. */
  function NewDecision(action: Action, stopLoss: Option<real>): (r: Result<Decision, EngineError>)
    ensures r.Err? <==> action == Buy && stopLoss.None?
    ensures r.Err? ==> r.error == BuyWithoutStopLoss
    ensures r.Ok? ==> r.value.action == action && r.value.stopLoss == stopLoss
  {
    if action == Buy && stopLoss.None? then Err(BuyWithoutStopLoss) else Ok(Decision(action, stopLoss))
  }

  // ---------------------------------------------------------------------------
  // round(x, 4)

  /** `x` has at most four fractional digits. */
  predicate OnGrid(x: real)
  {
    (x * 10000.0).Floor as real == x * 10000.0
  }

  /** round(x, 4): the nearest multiple of 1/10000, ties to the even multiple. */
  function Round4(x: real): (r: real)
    ensures OnGrid(r)
    ensures -0.00005 <= r - x <= 0.00005
  {
    var y := x * 10000.0;
    var f := y.Floor;
    var frac := y - f as real;
    var n := if frac < 0.5 then f else if frac > 0.5 then f + 1 else if f % 2 == 0 then f else f + 1;
    assert (n as real / 10000.0) * 10000.0 == n as real;
    n as real / 10000.0
  }

  /** Rounding leaves a four-digit value alone. */
  lemma Round4Fixes(x: real)
    requires OnGrid(x)
    ensures Round4(x) == x
  {
    var y := x * 10000.0;
    assert y.Floor as real == y;
    assert y.Floor as real / 10000.0 == x;
  }

  /** Rounding never reverses the order of two values. */
  lemma Round4Monotone(x: real, y: real)
    requires x <= y
    ensures Round4(x) <= Round4(y)
  {
    var fx := (x * 10000.0).Floor;
    var fy := (y * 10000.0).Floor;
    assert x * 10000.0 <= y * 10000.0;
    assert fx <= fy;
  }

  // ---------------------------------------------------------------------------
  // Box height per ticker (_height_pct_by_ticker)

  /** `_height_pct_by_ticker.get(ticker, default_height_pct)`. */
  function HeightOf(heights: map<Ticker, real>, t: Ticker, defaultHeightPct: real): real
  {
    if t in heights then heights[t] else defaultHeightPct
  }

  /** The height used today: grown by the increment after a loss when the increment is positive. */
  function NextHeight(heights: map<Ticker, real>, t: Ticker, defaultHeightPct: real,
                      heightIncrementPct: real, lossOccurred: bool): (h: real)
    ensures h >= HeightOf(heights, t, defaultHeightPct)
    ensures lossOccurred && heightIncrementPct > 0.0 ==> h == HeightOf(heights, t, defaultHeightPct) + heightIncrementPct
    ensures !(lossOccurred && heightIncrementPct > 0.0) ==> h == HeightOf(heights, t, defaultHeightPct)
  {
    var current := HeightOf(heights, t, defaultHeightPct);
    if lossOccurred && heightIncrementPct > 0.0 then current + heightIncrementPct else current
  }

  // ---------------------------------------------------------------------------
  // Leader gate

  function Sum(xs: seq<real>): real
  {
    if xs == [] then 0.0 else xs[0] + Sum(xs[1..])
  }

  /** Adding one more term at the back adds it to the sum. */
  lemma {:induction false} SumSnoc(xs: seq<real>, x: real)
    ensures Sum(xs + [x]) == Sum(xs) + x
  {
    if xs != [] {
      assert (xs + [x])[1..] == xs[1..] + [x];
      SumSnoc(xs[1..], x);
    }
  }

  function Mean(xs: seq<real>): real
    requires |xs| > 0
  {
    Sum(xs) / |xs| as real
  }

  /** Today's open is within 5% of the lookback's highest high. */
  predicate PriceNearHigh(openPrice: real, maxHigh: Option<real>)
  {
    maxHigh.Some? && openPrice >= 0.95 * maxHigh.value
  }

  /** The newest volume is at least 130% of the mean of the older ones. */
  predicate VolumeSurge(vols: seq<real>)
  {
    |vols| > 1 && vols[0] >= 1.3 * Mean(vols[1..])
  }

  /** The same two conditions without division. */
  lemma GateWithoutDivision(openPrice: real, maxHigh: Option<real>, vols: seq<real>)
    ensures PriceNearHigh(openPrice, maxHigh) <==> maxHigh.Some? && 20.0 * openPrice >= 19.0 * maxHigh.value
    ensures VolumeSurge(vols) <==> |vols| > 1 && 10.0 * (|vols| - 1) as real * vols[0] >= 13.0 * Sum(vols[1..])
  {
    if |vols| > 1 {
      var n := (|vols| - 1) as real;
      var s := Sum(vols[1..]);
      assert Mean(vols[1..]) == s / n;
      assert 1.3 * (s / n) * n == 1.3 * s;
      if vols[0] >= 1.3 * (s / n) {
        assert vols[0] * n >= 1.3 * (s / n) * n;
      } else {
        assert vols[0] * n < 1.3 * (s / n) * n;
      }
    }
  }

  /** The gate on a breakout BUY: with a positive lookback both conditions must hold, else it passes. */
  function AllowBuy(rows: seq<PriceRow>, t: Ticker, tradeDate: Date, openPrice: real, leaderLookbackDays: int): (allow: bool)
    ensures leaderLookbackDays <= 0 ==> allow
    ensures allow && leaderLookbackDays > 0 ==>
      MaxHighLookback(rows, t, tradeDate, leaderLookbackDays).Some? &&
      |RecentVolumes(rows, t, tradeDate, leaderLookbackDays)| >= 2
  {
    if leaderLookbackDays > 0 then
      PriceNearHigh(openPrice, MaxHighLookback(rows, t, tradeDate, leaderLookbackDays))
      && VolumeSurge(RecentVolumes(rows, t, tradeDate, leaderLookbackDays))
    else true
  }

  // ---------------------------------------------------------------------------
  // One call of get_decision, on a snapshot of the store

  datatype Step = Step(result: Result<Decision, EngineError>, tables: Tables)

  /** The box the engine works with: the current box, else one anchored on the earliest close. */
  function WorkingBox(tb: Tables, t: Ticker, height: real): Option<DarvasBox>
  {
    var current := CurrentBox(tb.darvasBoxes, t);
    if current.Some? then current
    else
      var earliest := EarliestCloseRow(tb.historicals, t);
      if earliest.None? then None
      else Some(NewBox(|tb.darvasBoxes| + 1, t, earliest.value.tradeDate, earliest.value.close.value, height))
  }

  /** The tables once the working box exists. */
  function WithWorkingBox(tb: Tables, t: Ticker, height: real): Tables
  {
    var earliest := EarliestCloseRow(tb.historicals, t);
    if CurrentBox(tb.darvasBoxes, t).Some? || earliest.None? then tb
    else CreateBoxOp(tb, t, earliest.value.tradeDate, earliest.value.close.value, height)
  }

  /** A position is held: the ticker has an `active_trades` row with a positive quantity. */
  predicate Holding(tb: Tables, t: Ticker)
  {
    t in tb.activeTrades && tb.activeTrades[t].qtyOwned > 0
  }

  /** The stop the ratchet compares against: the stored stop, 0 when it is NULL. */
  function CurrentStop(trade: ActiveTrade): real
  {
    if trade.stopLossAmt.Some? then trade.stopLossAmt.value else 0.0
  }

  /** The date a broken box is closed on: the previous trading day, else the box's own start. */
  function CloseDate(tb: Tables, t: Ticker, tradeDate: Date, box: DarvasBox): Date
  {
    var prevDay := PrevTradingDay(tb.historicals, t, tradeDate);
    if prevDay.Some? then prevDay.value else box.startDate
  }

  /**
   * Close the working box and open a new one anchored on the previous close; with no
   * previous close, float(None) raises after the box was closed and before the insert.
   */
  function Roll(tb: Tables, t: Ticker, tradeDate: Date, closeOn: Date, prevClose: Option<real>,
                height: real, onSuccess: Result<Decision, EngineError>): Step
  {
    var closed := DeactivateOp(tb, t, closeOn);
    if prevClose.None? then Step(Err(NoPreviousClose), closed)
    else Step(onSuccess, CreateBoxOp(closed, t, tradeDate, prevClose.value, height))
  }

  const NoOpDecision: Result<Decision, EngineError> := Ok(Decision(NoOp, None))

  /** In a position: a breakout rolls the box and raises the stop to the new box's floor when that is higher. */
  function HoldingStep(tb: Tables, box: DarvasBox, trade: ActiveTrade, height: real, t: Ticker,
                       tradeDate: Date, openPrice: real, closeOn: Date, prevClose: Option<real>): Step
  {
    if openPrice > box.maxPrice then
      var rolled := Roll(tb, t, tradeDate, closeOn, prevClose, height, NoOpDecision);
      if prevClose.None? then rolled
      else
        var newBox := NewBox(|tb.darvasBoxes| + 1, t, tradeDate, prevClose.value, height);
        if newBox.minPrice > CurrentStop(trade) then
          Step(Ok(Decision(UpdateStopLoss, Some(Round4(newBox.minPrice)))), rolled.tables)
        else rolled
    else
      Step(NoOpDecision, tb)
  }

  /** A breakout while flat: BUY when the streak is met and the gate passes; the box rolls either way. */
  function BreakoutStep(tb: Tables, box: DarvasBox, height: real, t: Ticker, tradeDate: Date, openPrice: real,
                        closeOn: Date, prevClose: Option<real>, leaderLookbackDays: int, requiredStreak: int): Step
  {
    var newStreak := BreakoutStreak(tb.strategyState, t) + 1;
    if newStreak >= requiredStreak && AllowBuy(tb.historicals, t, tradeDate, openPrice, leaderLookbackDays) then
      Roll(SetStreakOp(tb, t, 0), t, tradeDate, closeOn, prevClose, height, Ok(Decision(Buy, Some(Round4(box.minPrice)))))
    else
      Roll(SetStreakOp(tb, t, newStreak), t, tradeDate, closeOn, prevClose, height, NoOpDecision)
  }

  /** A breakdown while flat: the box rolls and, once the new box exists, the streak is reset. */
  function BreakdownStep(tb: Tables, height: real, t: Ticker, tradeDate: Date, closeOn: Date, prevClose: Option<real>): Step
  {
    var rolled := Roll(tb, t, tradeDate, closeOn, prevClose, height, NoOpDecision);
    if prevClose.None? then rolled else Step(NoOpDecision, SetStreakOp(rolled.tables, t, 0))
  }

  /** Not in a position: below the box resets the streak and rolls the box, inside extends it, above is a breakout. */
  function FlatStep(tb: Tables, box: DarvasBox, height: real, t: Ticker, tradeDate: Date, openPrice: real,
                    closeOn: Date, prevClose: Option<real>, leaderLookbackDays: int, requiredStreak: int): Step
  {
    if openPrice < box.minPrice then
      BreakdownStep(tb, height, t, tradeDate, closeOn, prevClose)
    else if openPrice <= box.maxPrice then
      Step(NoOpDecision, ExtendOp(tb, t, tradeDate))
    else
      BreakoutStep(tb, box, height, t, tradeDate, openPrice, closeOn, prevClose, leaderLookbackDays, requiredStreak)
  }

  /** get_decision on the tables `tb`, with today's box height `height`. */
  function DecideStep(tb: Tables, height: real, t: Ticker, tradeDate: Date, openPrice: real,
                      leaderLookbackDays: int, requiredStreak: int): Step
  {
    var working := WorkingBox(tb, t, height);
    if working.None? then
      Step(NoOpDecision, SetStreakOp(tb, t, 0))
    else
      var box := working.value;
      var tb1 := WithWorkingBox(tb, t, height);
      var closeOn := CloseDate(tb, t, tradeDate, box);
      var prevClose := PrevClose(tb.historicals, t, tradeDate);
      if Holding(tb, t) then
        HoldingStep(tb1, box, tb.activeTrades[t], height, t, tradeDate, openPrice, closeOn, prevClose)
      else
        FlatStep(tb1, box, height, t, tradeDate, openPrice, closeOn, prevClose, leaderLookbackDays, requiredStreak)
  }

  // ---------------------------------------------------------------------------
  // Properties of one decision

  /** What creating the working box does to the store. */
  lemma WorkingBoxFacts(tb: Tables, t: Ticker, height: real)
    requires TablesValid(tb)
    ensures var w := WorkingBox(tb, t, height);
      var tb1 := WithWorkingBox(tb, t, height);
      && TablesValid(tb1)
      && tb1.historicals == tb.historicals && tb1.activeTrades == tb.activeTrades
      && tb1.strategyState == tb.strategyState
      && BoxesEvolve(tb.darvasBoxes, tb1.darvasBoxes, t)
      && (w.Some? ==> CurrentBox(tb1.darvasBoxes, t) == w && w.value.ticker == t)
      && (w.None? ==> tb1 == tb && CurrentBox(tb.darvasBoxes, t).None?)
  {
    var earliest := EarliestCloseRow(tb.historicals, t);
    if CurrentBox(tb.darvasBoxes, t).None? && earliest.Some? {
      CreateBoxKeepsValid(tb, t, earliest.value.tradeDate, earliest.value.close.value, height);
    }
  }

  /** What rolling the box does: the old box is closed, and the new one becomes current unless there is no previous close. */
  lemma RollFacts(tb: Tables, t: Ticker, tradeDate: Date, closeOn: Date, prevClose: Option<real>,
                  height: real, onSuccess: Result<Decision, EngineError>)
    requires TablesValid(tb)
    ensures var s := Roll(tb, t, tradeDate, closeOn, prevClose, height, onSuccess);
      && TablesValid(s.tables)
      && s.tables.historicals == tb.historicals && s.tables.activeTrades == tb.activeTrades
      && s.tables.strategyState == tb.strategyState
      && BoxesEvolve(tb.darvasBoxes, s.tables.darvasBoxes, t)
      && (forall i :: 0 <= i < |tb.darvasBoxes| && ActiveOf(tb.darvasBoxes[i], t) ==>
            !s.tables.darvasBoxes[i].isActive && s.tables.darvasBoxes[i].endDate == Some(closeOn))
      && (prevClose.None? ==> s.result == Err(NoPreviousClose) && CurrentBox(s.tables.darvasBoxes, t).None?)
      && (prevClose.Some? ==>
            && s.result == onSuccess
            && CurrentBox(s.tables.darvasBoxes, t) == Some(NewBox(|tb.darvasBoxes| + 1, t, tradeDate, prevClose.value, height)))
  {
    DeactivateKeepsValid(tb, t, closeOn);
    var closed := DeactivateOp(tb, t, closeOn);
    if prevClose.Some? {
      CreateBoxKeepsValid(closed, t, tradeDate, prevClose.value, height);
      BoxesEvolveTrans(tb.darvasBoxes, closed.darvasBoxes, CreateBoxOp(closed, t, tradeDate, prevClose.value, height).darvasBoxes, t);
    }
  }

  /** The results a branch may produce: NO_OP without a stop, `action` with a four-decimal stop, or a missing previous close. */
  predicate ResultShape(r: Result<Decision, EngineError>, action: Action, prevClose: Option<real>)
  {
    && (r.Err? ==> r.error == NoPreviousClose && prevClose.None?)
    && (r.Ok? ==> r.value == Decision(NoOp, None) ||
                  (r.value.action == action && r.value.stopLoss.Some? && OnGrid(r.value.stopLoss.value)))
  }

  lemma HoldingStepFacts(tb: Tables, box: DarvasBox, trade: ActiveTrade, height: real, t: Ticker,
                         tradeDate: Date, openPrice: real, closeOn: Date, prevClose: Option<real>)
    requires TablesValid(tb) && CurrentBox(tb.darvasBoxes, t).Some?
    ensures var s := HoldingStep(tb, box, trade, height, t, tradeDate, openPrice, closeOn, prevClose);
      && TablesValid(s.tables)
      && s.tables.historicals == tb.historicals && s.tables.activeTrades == tb.activeTrades
      && s.tables.strategyState == tb.strategyState
      && BoxesEvolve(tb.darvasBoxes, s.tables.darvasBoxes, t)
      && (CurrentBox(s.tables.darvasBoxes, t).Some? <==> s.result.Ok?)
      && ResultShape(s.result, UpdateStopLoss, prevClose)
      && HoldingCases(tb, s, box, trade, height, t, tradeDate, openPrice, prevClose)
  {
    if openPrice > box.maxPrice {
      RollFacts(tb, t, tradeDate, closeOn, prevClose, height, NoOpDecision);
    }
    HoldingStepCases(tb, box, trade, height, t, tradeDate, openPrice, closeOn, prevClose);
  }

  /**
   * The outcomes of the in-position branch: inside or below the box nothing changes; above
   * it a missing previous close is an error, and otherwise the new box anchored on the
   * previous close becomes current and UPDATE_STOP_LOSS is returned exactly when its
   * unrounded floor is above the current stop.
   */
  ghost predicate HoldingCases(tb: Tables, s: Step, box: DarvasBox, trade: ActiveTrade, height: real, t: Ticker,
                               tradeDate: Date, openPrice: real, prevClose: Option<real>)
  {
      && (openPrice <= box.maxPrice ==> s == Step(NoOpDecision, tb))
      && (openPrice > box.maxPrice && prevClose.None? ==> s.result == Err(NoPreviousClose))
      && (openPrice > box.maxPrice && prevClose.Some? ==>
            var floor := prevClose.value * (1.0 - height);
            && CurrentBox(s.tables.darvasBoxes, t) == Some(NewBox(|tb.darvasBoxes| + 1, t, tradeDate, prevClose.value, height))
            && (s.result.Ok? && s.result.value.action == UpdateStopLoss <==> floor > CurrentStop(trade))
            && (floor > CurrentStop(trade) ==> s.result.value.stopLoss == Some(Round4(floor)))
            && (floor <= CurrentStop(trade) ==> s.result == NoOpDecision))
  }

  lemma HoldingStepCases(tb: Tables, box: DarvasBox, trade: ActiveTrade, height: real, t: Ticker,
                         tradeDate: Date, openPrice: real, closeOn: Date, prevClose: Option<real>)
    requires TablesValid(tb)
    ensures HoldingCases(tb, HoldingStep(tb, box, trade, height, t, tradeDate, openPrice, closeOn, prevClose),
                         box, trade, height, t, tradeDate, openPrice, prevClose)
  {
    if openPrice > box.maxPrice {
      RollFacts(tb, t, tradeDate, closeOn, prevClose, height, NoOpDecision);
    }
  }

  /** Setting the streak and then rolling the box: the store stays valid and only the streak of `t` and the boxes of `t` change. */
  lemma StreakRollFacts(tb: Tables, t: Ticker, streak: int, tradeDate: Date, closeOn: Date, prevClose: Option<real>,
                        height: real, onSuccess: Result<Decision, EngineError>)
    requires TablesValid(tb)
    ensures var s := Roll(SetStreakOp(tb, t, streak), t, tradeDate, closeOn, prevClose, height, onSuccess);
      && TablesValid(s.tables)
      && s.tables.historicals == tb.historicals && s.tables.activeTrades == tb.activeTrades
      && s.tables.strategyState == tb.strategyState[t := streak]
      && BoxesEvolve(tb.darvasBoxes, s.tables.darvasBoxes, t)
      && (prevClose.None? ==> s.result == Err(NoPreviousClose) && CurrentBox(s.tables.darvasBoxes, t).None?)
      && (prevClose.Some? ==>
            && s.result == onSuccess
            && CurrentBox(s.tables.darvasBoxes, t) == Some(NewBox(|tb.darvasBoxes| + 1, t, tradeDate, prevClose.value, height)))
  {
    RollFacts(SetStreakOp(tb, t, streak), t, tradeDate, closeOn, prevClose, height, onSuccess);
  }

  lemma BreakoutStepFacts(tb: Tables, box: DarvasBox, height: real, t: Ticker, tradeDate: Date, openPrice: real,
                          closeOn: Date, prevClose: Option<real>, leaderLookbackDays: int, requiredStreak: int)
    requires TablesValid(tb)
    ensures var s := BreakoutStep(tb, box, height, t, tradeDate, openPrice, closeOn, prevClose, leaderLookbackDays, requiredStreak);
      var before := BreakoutStreak(tb.strategyState, t);
      var buy := before + 1 >= requiredStreak && AllowBuy(tb.historicals, t, tradeDate, openPrice, leaderLookbackDays);
      && TablesValid(s.tables)
      && s.tables.historicals == tb.historicals && s.tables.activeTrades == tb.activeTrades
      && s.tables.strategyState == tb.strategyState[t := if buy then 0 else before + 1]
      && BoxesEvolve(tb.darvasBoxes, s.tables.darvasBoxes, t)
      && (CurrentBox(s.tables.darvasBoxes, t).Some? <==> s.result.Ok?)
      && (prevClose.None? ==> s.result == Err(NoPreviousClose))
      && (prevClose.Some? ==>
            && s.result == (if buy then Ok(Decision(Buy, Some(Round4(box.minPrice)))) else NoOpDecision)
            && CurrentBox(s.tables.darvasBoxes, t) == Some(NewBox(|tb.darvasBoxes| + 1, t, tradeDate, prevClose.value, height)))
  {
    var before := BreakoutStreak(tb.strategyState, t);
    var buy := before + 1 >= requiredStreak && AllowBuy(tb.historicals, t, tradeDate, openPrice, leaderLookbackDays);
    var streak := if buy then 0 else before + 1;
    var onSuccess := if buy then Ok(Decision(Buy, Some(Round4(box.minPrice)))) else NoOpDecision;
    assert BreakoutStep(tb, box, height, t, tradeDate, openPrice, closeOn, prevClose, leaderLookbackDays, requiredStreak)
        == Roll(SetStreakOp(tb, t, streak), t, tradeDate, closeOn, prevClose, height, onSuccess);
    StreakRollFacts(tb, t, streak, tradeDate, closeOn, prevClose, height, onSuccess);
  }

  /** What any flat branch promises: the store stays valid, only `t` moves, and the result is NO_OP, BUY or the missing close. */
  ghost predicate FlatOutcome(tb: Tables, s: Step, t: Ticker, prevClose: Option<real>)
  {
    var before := BreakoutStreak(tb.strategyState, t);
    var after := BreakoutStreak(s.tables.strategyState, t);
    && TablesValid(s.tables)
    && s.tables.historicals == tb.historicals && s.tables.activeTrades == tb.activeTrades
    && (forall u :: u != t ==> BreakoutStreak(s.tables.strategyState, u) == BreakoutStreak(tb.strategyState, u))
    && (after == 0 || after == before || after == before + 1)
    && BoxesEvolve(tb.darvasBoxes, s.tables.darvasBoxes, t)
    && (CurrentBox(s.tables.darvasBoxes, t).Some? <==> s.result.Ok?)
    && ResultShape(s.result, Buy, prevClose)
    && (s.result.Ok? && s.result.value.action == Buy ==> after == 0)
  }

  lemma BreakdownStepFacts(tb: Tables, height: real, t: Ticker, tradeDate: Date, closeOn: Date, prevClose: Option<real>)
    requires TablesValid(tb)
    ensures FlatOutcome(tb, BreakdownStep(tb, height, t, tradeDate, closeOn, prevClose), t, prevClose)
  {
    RollFacts(tb, t, tradeDate, closeOn, prevClose, height, NoOpDecision);
  }

  /** A breakdown with a previous close: NO_OP, the streak is 0, the old box closed on `closeOn`, and the new box current. */
  lemma BreakdownRolls(tb: Tables, height: real, t: Ticker, tradeDate: Date, closeOn: Date, prevClose: Option<real>)
    requires TablesValid(tb) && prevClose.Some?
    ensures var s := BreakdownStep(tb, height, t, tradeDate, closeOn, prevClose);
      && s.result == NoOpDecision
      && BreakoutStreak(s.tables.strategyState, t) == 0
      && (forall i :: 0 <= i < |tb.darvasBoxes| && ActiveOf(tb.darvasBoxes[i], t) ==>
            !s.tables.darvasBoxes[i].isActive && s.tables.darvasBoxes[i].endDate == Some(closeOn))
      && CurrentBox(s.tables.darvasBoxes, t) == Some(NewBox(|tb.darvasBoxes| + 1, t, tradeDate, prevClose.value, height))
  {
    RollFacts(tb, t, tradeDate, closeOn, prevClose, height, NoOpDecision);
  }

  lemma ExtendStepFacts(tb: Tables, t: Ticker, tradeDate: Date, prevClose: Option<real>)
    requires TablesValid(tb) && CurrentBox(tb.darvasBoxes, t).Some?
    ensures FlatOutcome(tb, Step(NoOpDecision, ExtendOp(tb, t, tradeDate)), t, prevClose)
  {
    ExtendKeepsValid(tb, t, tradeDate);
  }

  lemma BreakoutStepOutcome(tb: Tables, box: DarvasBox, height: real, t: Ticker, tradeDate: Date, openPrice: real,
                            closeOn: Date, prevClose: Option<real>, leaderLookbackDays: int, requiredStreak: int)
    requires TablesValid(tb)
    ensures FlatOutcome(tb, BreakoutStep(tb, box, height, t, tradeDate, openPrice, closeOn, prevClose, leaderLookbackDays, requiredStreak),
                        t, prevClose)
  {
    BreakoutStepFacts(tb, box, height, t, tradeDate, openPrice, closeOn, prevClose, leaderLookbackDays, requiredStreak);
  }

  lemma FlatStepFacts(tb: Tables, box: DarvasBox, height: real, t: Ticker, tradeDate: Date, openPrice: real,
                      closeOn: Date, prevClose: Option<real>, leaderLookbackDays: int, requiredStreak: int)
    requires TablesValid(tb) && CurrentBox(tb.darvasBoxes, t).Some?
    ensures FlatOutcome(tb, FlatStep(tb, box, height, t, tradeDate, openPrice, closeOn, prevClose, leaderLookbackDays, requiredStreak),
                        t, prevClose)
  {
    if openPrice < box.minPrice {
      BreakdownStepFacts(tb, height, t, tradeDate, closeOn, prevClose);
    } else if openPrice <= box.maxPrice {
      ExtendStepFacts(tb, t, tradeDate, prevClose);
    } else {
      BreakoutStepOutcome(tb, box, height, t, tradeDate, openPrice, closeOn, prevClose, leaderLookbackDays, requiredStreak);
    }
  }

  /**
   * A decision keeps the store valid, reads but never writes the price history and the
   * positions, touches only the decided ticker's boxes and streak, and leaves that ticker
   * with a current box exactly when it succeeds on a ticker that has a box or a close.
   * It never decides SELL: a BUY only without a position and an UPDATE_STOP_LOSS only with
   * one, both with a four-decimal stop, and a NO_OP without a stop; the only error is a
   * missing previous close.
   */
  lemma DecideStepKeepsStoreValid(tb: Tables, height: real, t: Ticker, tradeDate: Date, openPrice: real,
                                  leaderLookbackDays: int, requiredStreak: int)
    requires TablesValid(tb)
    ensures var s := DecideStep(tb, height, t, tradeDate, openPrice, leaderLookbackDays, requiredStreak);
      && TablesValid(s.tables)
      && s.tables.historicals == tb.historicals
      && s.tables.activeTrades == tb.activeTrades
      && BoxesEvolve(tb.darvasBoxes, s.tables.darvasBoxes, t)
      && (forall u :: u != t ==> BreakoutStreak(s.tables.strategyState, u) == BreakoutStreak(tb.strategyState, u))
      && (CurrentBox(s.tables.darvasBoxes, t).Some? <==> s.result.Ok? && WorkingBox(tb, t, height).Some?)
      && ResultShape(s.result, if Holding(tb, t) then UpdateStopLoss else Buy, PrevClose(tb.historicals, t, tradeDate))
  {
    WorkingBoxFacts(tb, t, height);
    var w := WorkingBox(tb, t, height);
    if w.Some? {
      var box := w.value;
      var tb1 := WithWorkingBox(tb, t, height);
      var closeOn := CloseDate(tb, t, tradeDate, box);
      var prevClose := PrevClose(tb.historicals, t, tradeDate);
      var s := DecideStep(tb, height, t, tradeDate, openPrice, leaderLookbackDays, requiredStreak);
      if Holding(tb, t) {
        HoldingStepFacts(tb1, box, tb.activeTrades[t], height, t, tradeDate, openPrice, closeOn, prevClose);
        assert s == HoldingStep(tb1, box, tb.activeTrades[t], height, t, tradeDate, openPrice, closeOn, prevClose);
      } else {
        FlatStepFacts(tb1, box, height, t, tradeDate, openPrice, closeOn, prevClose, leaderLookbackDays, requiredStreak);
        assert s == FlatStep(tb1, box, height, t, tradeDate, openPrice, closeOn, prevClose, leaderLookbackDays, requiredStreak);
      }
      BoxesEvolveTrans(tb.darvasBoxes, tb1.darvasBoxes, s.tables.darvasBoxes, t);
    }
  }

  /**
   * The streak moves by one decision to 0, stays, or grows by one; a BUY resets it, and
   * with a position and a box it is left alone.
   */
  lemma DecideStepStreak(tb: Tables, height: real, t: Ticker, tradeDate: Date, openPrice: real,
                         leaderLookbackDays: int, requiredStreak: int)
    requires TablesValid(tb)
    ensures var s := DecideStep(tb, height, t, tradeDate, openPrice, leaderLookbackDays, requiredStreak);
      var before := BreakoutStreak(tb.strategyState, t);
      var after := BreakoutStreak(s.tables.strategyState, t);
      && (after == 0 || after == before || after == before + 1)
      && (s.result.Ok? && s.result.value.action == Buy ==> after == 0)
      && (Holding(tb, t) && WorkingBox(tb, t, height).Some? ==> after == before)
      && (before >= 0 ==> after >= 0)
  {
    WorkingBoxFacts(tb, t, height);
    var w := WorkingBox(tb, t, height);
    if w.Some? {
      var box := w.value;
      var tb1 := WithWorkingBox(tb, t, height);
      var closeOn := CloseDate(tb, t, tradeDate, box);
      var prevClose := PrevClose(tb.historicals, t, tradeDate);
      if Holding(tb, t) {
        HoldingStepFacts(tb1, box, tb.activeTrades[t], height, t, tradeDate, openPrice, closeOn, prevClose);
      } else {
        FlatStepFacts(tb1, box, height, t, tradeDate, openPrice, closeOn, prevClose, leaderLookbackDays, requiredStreak);
      }
    }
  }

  /**
   * A breakout above the box while flat, with a previous close: BUY exactly when
   * the incremented streak reaches the requirement and the leader gate passes. A BUY uses
   * the broken box's floor, rounded, as its stop and resets the streak; otherwise the
   * streak is kept incremented.
   */
  lemma BreakoutBuysIff(tb: Tables, height: real, t: Ticker, tradeDate: Date, openPrice: real,
                        leaderLookbackDays: int, requiredStreak: int)
    requires TablesValid(tb)
    requires WorkingBox(tb, t, height).Some? && !Holding(tb, t)
    requires WorkingBox(tb, t, height).value.minPrice <= openPrice && WorkingBox(tb, t, height).value.maxPrice < openPrice
    requires PrevClose(tb.historicals, t, tradeDate).Some?
    ensures var s := DecideStep(tb, height, t, tradeDate, openPrice, leaderLookbackDays, requiredStreak);
      var before := BreakoutStreak(tb.strategyState, t);
      var after := BreakoutStreak(s.tables.strategyState, t);
      && s.result.Ok?
      && (s.result.value.action == Buy <==>
            before + 1 >= requiredStreak && AllowBuy(tb.historicals, t, tradeDate, openPrice, leaderLookbackDays))
      && (s.result.value.action == Buy ==>
            s.result.value.stopLoss == Some(Round4(WorkingBox(tb, t, height).value.minPrice)) && after == 0)
      && (s.result.value.action != Buy ==> s.result.value.action == NoOp && after == before + 1)
  {
    WorkingBoxFacts(tb, t, height);
    var box := WorkingBox(tb, t, height).value;
    var tb1 := WithWorkingBox(tb, t, height);
    BreakoutStepFacts(tb1, box, height, t, tradeDate, openPrice, CloseDate(tb, t, tradeDate, box),
                      PrevClose(tb.historicals, t, tradeDate), leaderLookbackDays, requiredStreak);
    TakesBreakoutBranch(tb, height, t, tradeDate, openPrice, leaderLookbackDays, requiredStreak);
  }

  /** Above the box while flat, get_decision takes its breakout branch. */
  lemma TakesBreakoutBranch(tb: Tables, height: real, t: Ticker, tradeDate: Date, openPrice: real,
                            leaderLookbackDays: int, requiredStreak: int)
    requires WorkingBox(tb, t, height).Some? && !Holding(tb, t)
    requires WorkingBox(tb, t, height).value.minPrice <= openPrice && WorkingBox(tb, t, height).value.maxPrice < openPrice
    ensures var box := WorkingBox(tb, t, height).value;
      DecideStep(tb, height, t, tradeDate, openPrice, leaderLookbackDays, requiredStreak)
      == BreakoutStep(WithWorkingBox(tb, t, height), box, height, t, tradeDate, openPrice, CloseDate(tb, t, tradeDate, box),
                      PrevClose(tb.historicals, t, tradeDate), leaderLookbackDays, requiredStreak)
  {
  }

  /**
   * Below a well-formed box while flat, with a previous close: NO_OP, the streak is reset,
   * the broken box is closed on the previous trading day, and a new box anchored on the
   * previous close becomes current.
   */
  lemma BreakdownResetsStreak(tb: Tables, height: real, t: Ticker, tradeDate: Date, openPrice: real,
                              leaderLookbackDays: int, requiredStreak: int)
    requires TablesValid(tb)
    requires WorkingBox(tb, t, height).Some? && !Holding(tb, t)
    requires openPrice < WorkingBox(tb, t, height).value.minPrice
    requires PrevClose(tb.historicals, t, tradeDate).Some?
    ensures var s := DecideStep(tb, height, t, tradeDate, openPrice, leaderLookbackDays, requiredStreak);
      var tb1 := WithWorkingBox(tb, t, height);
      && s.result == NoOpDecision
      && BreakoutStreak(s.tables.strategyState, t) == 0
      && (forall i :: 0 <= i < |tb1.darvasBoxes| && ActiveOf(tb1.darvasBoxes[i], t) ==>
            !s.tables.darvasBoxes[i].isActive &&
            s.tables.darvasBoxes[i].endDate == PrevTradingDay(tb.historicals, t, tradeDate))
      && CurrentBox(s.tables.darvasBoxes, t) ==
           Some(NewBox(|tb1.darvasBoxes| + 1, t, tradeDate, PrevClose(tb.historicals, t, tradeDate).value, height))
  {
    WorkingBoxFacts(tb, t, height);
    var box := WorkingBox(tb, t, height).value;
    var tb1 := WithWorkingBox(tb, t, height);
    var closeOn := CloseDate(tb, t, tradeDate, box);
    var prevClose := PrevClose(tb.historicals, t, tradeDate);
    var s := DecideStep(tb, height, t, tradeDate, openPrice, leaderLookbackDays, requiredStreak);
    assert s == BreakdownStep(tb1, height, t, tradeDate, closeOn, prevClose);
    BreakdownRolls(tb1, height, t, tradeDate, closeOn, prevClose);
    assert CurrentBox(s.tables.darvasBoxes, t) == Some(NewBox(|tb1.darvasBoxes| + 1, t, tradeDate, prevClose.value, height));
    assert PrevTradingDay(tb.historicals, t, tradeDate) == Some(closeOn);
  }

  /**
   * Inside the box, bounds included, while flat: NO_OP, the streak is kept, no box is added,
   * and the current box now ends today.
   */
  lemma InsideBoxExtends(tb: Tables, height: real, t: Ticker, tradeDate: Date, openPrice: real,
                         leaderLookbackDays: int, requiredStreak: int)
    requires TablesValid(tb)
    requires WorkingBox(tb, t, height).Some? && !Holding(tb, t)
    requires WorkingBox(tb, t, height).value.minPrice <= openPrice <= WorkingBox(tb, t, height).value.maxPrice
    ensures var s := DecideStep(tb, height, t, tradeDate, openPrice, leaderLookbackDays, requiredStreak);
      var tb1 := WithWorkingBox(tb, t, height);
      && s.result == NoOpDecision
      && s.tables.strategyState == tb.strategyState
      && |s.tables.darvasBoxes| == |tb1.darvasBoxes|
      && CurrentBox(s.tables.darvasBoxes, t).Some?
      && (forall i :: 0 <= i < |s.tables.darvasBoxes| && ActiveOf(s.tables.darvasBoxes[i], t) ==>
            s.tables.darvasBoxes[i].endDate == Some(tradeDate))
  {
    WorkingBoxFacts(tb, t, height);
    ExtendKeepsValid(WithWorkingBox(tb, t, height), t, tradeDate);
  }

  /**
   * The trailing stop is never lowered: an UPDATE_STOP_LOSS carries the rounded floor of
   * the new box anchored on the previous close, which is at least the current stop
   * whenever that stop has four decimals (a NULL stop counts as 0).
   */
  lemma StopLossNeverLowered(tb: Tables, height: real, t: Ticker, tradeDate: Date, openPrice: real,
                             leaderLookbackDays: int, requiredStreak: int)
    requires Holding(tb, t) && OnGrid(CurrentStop(tb.activeTrades[t]))
    ensures var s := DecideStep(tb, height, t, tradeDate, openPrice, leaderLookbackDays, requiredStreak);
      var w := WorkingBox(tb, t, height);
      var pc := PrevClose(tb.historicals, t, tradeDate);
      && (s.result.Ok? && s.result.value.action == UpdateStopLoss <==>
            w.Some? && openPrice > w.value.maxPrice && pc.Some? &&
            pc.value * (1.0 - height) > CurrentStop(tb.activeTrades[t]))
      && (s.result.Ok? && s.result.value.action == UpdateStopLoss ==>
            && pc.Some?
            && s.result.value.stopLoss == Some(Round4(pc.value * (1.0 - height)))
            && s.result.value.stopLoss.value >= CurrentStop(tb.activeTrades[t]))
  {
    var s := DecideStep(tb, height, t, tradeDate, openPrice, leaderLookbackDays, requiredStreak);
    if s.result.Ok? && s.result.value.action == UpdateStopLoss {
      var current := CurrentStop(tb.activeTrades[t]);
      var floor := PrevClose(tb.historicals, t, tradeDate).value * (1.0 - height);
      Round4Monotone(current, floor);
      Round4Fixes(current);
    }
  }

  /**
   * The in-position branch of get_decision, case by case: inside or below the box nothing
   * happens beyond recording the working box; above it the box rolls, a missing previous
   * close is an error, and otherwise UPDATE_STOP_LOSS is returned exactly when the new
   * box's unrounded floor is above the current stop (NULL counting as 0), with that floor
   * rounded as the new stop; when it is not above, the result is NO_OP.
   */
  lemma HoldingBranchOutcome(tb: Tables, height: real, t: Ticker, tradeDate: Date, openPrice: real,
                             leaderLookbackDays: int, requiredStreak: int)
    requires Holding(tb, t) && WorkingBox(tb, t, height).Some?
    ensures var s := DecideStep(tb, height, t, tradeDate, openPrice, leaderLookbackDays, requiredStreak);
      var box := WorkingBox(tb, t, height).value;
      var pc := PrevClose(tb.historicals, t, tradeDate);
      var stop := CurrentStop(tb.activeTrades[t]);
      && (openPrice <= box.maxPrice ==> s == Step(NoOpDecision, WithWorkingBox(tb, t, height)))
      && (openPrice > box.maxPrice && pc.None? ==> s.result == Err(NoPreviousClose))
      && (openPrice > box.maxPrice && pc.Some? ==>
            && (s.result.Ok? && s.result.value.action == UpdateStopLoss <==> pc.value * (1.0 - height) > stop)
            && (pc.value * (1.0 - height) > stop ==> s.result.value.stopLoss == Some(Round4(pc.value * (1.0 - height))))
            && (pc.value * (1.0 - height) <= stop ==> s.result == NoOpDecision))
  {
  }

  // ---------------------------------------------------------------------------
  // The engine

  /** Python's `sum` over a list of floats: a left-to-right running total. */
  method AddUp(xs: seq<real>) returns (total: real)
    ensures total == Sum(xs)
  {
    total := 0.0;
    var i := 0;
    while i < |xs|
      invariant 0 <= i <= |xs|
      invariant total == Sum(xs[..i])
    {
      SumSnoc(xs[..i], xs[i]);
      assert xs[..i + 1] == xs[..i] + [xs[i]];
      total := total + xs[i];
      i := i + 1;
    }
    assert xs[..i] == xs;
  }

  /** The leader gate, computed as get_decision computes it. */
  method LeaderGate(rows: seq<PriceRow>, t: Ticker, tradeDate: Date, openPrice: real, leaderLookbackDays: int)
    returns (allowBuy: bool)
    ensures allowBuy == AllowBuy(rows, t, tradeDate, openPrice, leaderLookbackDays)
  {
    allowBuy := true;
    if leaderLookbackDays > 0 {
      var maxHigh := MaxHighLookback(rows, t, tradeDate, leaderLookbackDays);
      var priceOk := maxHigh.Some? && openPrice >= 0.95 * maxHigh.value;
      var vols := RecentVolumes(rows, t, tradeDate, leaderLookbackDays);
      var volumeOk := false;
      if |vols| > 1 {
        var prevVol := vols[0];
        var older := vols[1..];
        var total := AddUp(older);
        var avgVol := total / |older| as real;
        volumeOk := prevVol >= 1.3 * avgVol;
      }
      allowBuy := priceOk && volumeOk;
    }
  }

  /** The in-position branch of get_decision. */
  method DecideHolding(repo: DataRepository, box: DarvasBox, trade: ActiveTrade, height: real, t: Ticker,
                       tradeDate: Date, openPrice: real, closeOn: Date, prevClosing: Option<real>)
    returns (r: Result<Decision, EngineError>)
    modifies repo
    ensures Step(r, repo.Snapshot()) ==
      HoldingStep(old(repo.Snapshot()), box, trade, height, t, tradeDate, openPrice, closeOn, prevClosing)
  {
    if openPrice > box.maxPrice {
      repo.DeactivateActiveDarvasBox(t, closeOn);
      if prevClosing.None? {
        r := Err(NoPreviousClose);
        return;
      }
      var newBox := repo.CreateDarvasBox(t, tradeDate, prevClosing.value, height);
      var newStop := newBox.minPrice;
      var currentStop := if trade.stopLossAmt.Some? then trade.stopLossAmt.value else 0.0;
      if newStop > currentStop {
        r := NewDecision(UpdateStopLoss, Some(Round4(newStop)));
        return;
      }
    }
    r := NewDecision(NoOp, None);
  }

  /** The breakout branch of get_decision, when no position is held. */
  method DecideBreakout(repo: DataRepository, box: DarvasBox, height: real, t: Ticker, tradeDate: Date,
                        openPrice: real, closeOn: Date, prevClosing: Option<real>,
                        leaderLookbackDays: int, breakoutStreak: int)
    returns (r: Result<Decision, EngineError>)
    modifies repo
    ensures Step(r, repo.Snapshot()) ==
      BreakoutStep(old(repo.Snapshot()), box, height, t, tradeDate, openPrice, closeOn, prevClosing,
                   leaderLookbackDays, breakoutStreak)
  {
    var streak := BreakoutStreak(repo.strategyState, t);
    var newStreak := streak + 1;
    var allowBuy := LeaderGate(repo.historicals, t, tradeDate, openPrice, leaderLookbackDays);
    if newStreak >= breakoutStreak && allowBuy {
      var initialStop := box.minPrice;
      repo.SetBreakoutStreak(t, 0);
      repo.DeactivateActiveDarvasBox(t, closeOn);
      if prevClosing.None? {
        r := Err(NoPreviousClose);
        return;
      }
      var _ := repo.CreateDarvasBox(t, tradeDate, prevClosing.value, height);
      r := NewDecision(Buy, Some(Round4(initialStop)));
    } else {
      repo.SetBreakoutStreak(t, newStreak);
      repo.DeactivateActiveDarvasBox(t, closeOn);
      if prevClosing.None? {
        r := Err(NoPreviousClose);
        return;
      }
      var _ := repo.CreateDarvasBox(t, tradeDate, prevClosing.value, height);
      r := NewDecision(NoOp, None);
    }
  }

  /** The branches of get_decision taken when no position is held. */
  method DecideFlat(repo: DataRepository, box: DarvasBox, height: real, t: Ticker, tradeDate: Date,
                    openPrice: real, closeOn: Date, prevClosing: Option<real>,
                    leaderLookbackDays: int, breakoutStreak: int)
    returns (r: Result<Decision, EngineError>)
    modifies repo
    ensures Step(r, repo.Snapshot()) ==
      FlatStep(old(repo.Snapshot()), box, height, t, tradeDate, openPrice, closeOn, prevClosing,
               leaderLookbackDays, breakoutStreak)
  {
    // Below the box: reset the streak and start a new box.
    if openPrice < box.minPrice {
      repo.DeactivateActiveDarvasBox(t, closeOn);
      if prevClosing.None? {
        r := Err(NoPreviousClose);
        return;
      }
      var _ := repo.CreateDarvasBox(t, tradeDate, prevClosing.value, height);
      repo.SetBreakoutStreak(t, 0);
      r := NewDecision(NoOp, None);
      return;
    }
    // Within the box, both bounds inclusive: extend its end date.
    if box.minPrice <= openPrice <= box.maxPrice {
      repo.UpdateActiveBoxEndDate(t, tradeDate);
      r := NewDecision(NoOp, None);
      return;
    }
    // Neither test above held, so the open is above the box. The source's trailing
    // fallback that returns NO_OP therefore cannot be reached.
    r := DecideBreakout(repo, box, height, t, tradeDate, openPrice, closeOn, prevClosing, leaderLookbackDays, breakoutStreak);
  }

  /**
   * The start of get_decision: use the current box, else create one from the earliest close;
   * with no close at all, reset the streak and report that there is no box.
   */
  method EnsureBox(repo: DataRepository, t: Ticker, height: real) returns (working: Option<DarvasBox>)
    modifies repo
    ensures working == WorkingBox(old(repo.Snapshot()), t, height)
    ensures working.None? ==> repo.Snapshot() == SetStreakOp(old(repo.Snapshot()), t, 0)
    ensures working.Some? ==> repo.Snapshot() == WithWorkingBox(old(repo.Snapshot()), t, height)
  {
    working := CurrentBox(repo.darvasBoxes, t);
    if working.None? {
      var earliest := EarliestCloseRow(repo.historicals, t);
      if earliest.None? {
        repo.SetBreakoutStreak(t, 0);
        return;
      }
      var created := repo.CreateDarvasBox(t, earliest.value.tradeDate, earliest.value.close.value, height);
      working := Some(created);
    }
  }

  /** The engine's in-process state: the module-level map `_height_pct_by_ticker`. */
  class Engine {
    var heightPctByTicker: map<Ticker, real>

    constructor ()
      ensures heightPctByTicker == map[]
    {
      heightPctByTicker := map[];
    }

    /** get_decision, with today's open passed explicitly. */
    method GetDecision(repo: DataRepository, ticker: Ticker, tradeDate: Date, openPrice: real,
                       leaderLookbackDays: int, breakoutStreak: int, defaultHeightPct: real,
                       heightIncrementPct: real, lossOccurred: bool)
      returns (r: Result<Decision, EngineError>)
      modifies this, repo
      ensures heightPctByTicker == old(heightPctByTicker)[ticker :=
        NextHeight(old(heightPctByTicker), ticker, defaultHeightPct, heightIncrementPct, lossOccurred)]
      ensures Step(r, repo.Snapshot()) ==
        DecideStep(old(repo.Snapshot()), heightPctByTicker[ticker], ticker, tradeDate, openPrice, leaderLookbackDays, breakoutStreak)
    {
      var currentHeight := HeightOf(heightPctByTicker, ticker, defaultHeightPct);
      if lossOccurred && heightIncrementPct > 0.0 {
        currentHeight := currentHeight + heightIncrementPct;
      }
      heightPctByTicker := heightPctByTicker[ticker := currentHeight];

      ghost var tb := repo.Snapshot();
      var prevDay := PrevTradingDay(repo.historicals, ticker, tradeDate);
      var prevClosing := PrevClose(repo.historicals, ticker, tradeDate);
      var working := EnsureBox(repo, ticker, currentHeight);
      if working.None? {
        r := NewDecision(NoOp, None);
        return;
      }
      var current := working.value;
      var closeOn := if prevDay.Some? then prevDay.value else current.startDate;
      assert closeOn == CloseDate(tb, ticker, tradeDate, current);

      var active := ActiveTradeOf(repo.activeTrades, ticker);
      if active.Some? && active.value.qtyOwned > 0 {
        r := DecideHolding(repo, current, active.value, currentHeight, ticker, tradeDate, openPrice, closeOn, prevClosing);
      } else {
        r := DecideFlat(repo, current, currentHeight, ticker, tradeDate, openPrice, closeOn, prevClosing,
                        leaderLookbackDays, breakoutStreak);
      }
    }
  }
}
