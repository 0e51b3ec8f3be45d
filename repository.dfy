/**
 * The strategy-state store (buffet/repository.py, DataRepository).
 *
 * The four tables the engine and the simulator share are values: `historicals` (daily
 * prices), `darvas_boxes`, `strategy_state` (breakout streaks) and `active_trades`.
 * Every SELECT becomes a function over the table it reads; every UPDATE, INSERT or
 * INSERT OR REPLACE is a method of `DataRepository` that reassigns the table it writes.
 */
module Repository {
  import opened Common

  /** One row of `historicals`; every price column and the volume are nullable. */
  datatype PriceRow = PriceRow(
    ticker: Ticker,
    tradeDate: Date,
    open: Option<real>,
    high: Option<real>,
    low: Option<real>,
    close: Option<real>,
    volume: Option<real>)

  /** One row of `active_trades`, as `ActiveTrade` carries it. */
  datatype ActiveTrade = ActiveTrade(qtyOwned: int, buyPrice: Option<real>, stopLossAmt: Option<real>)

  /** One row of `darvas_boxes`, as `DarvasBox` carries it. */
  datatype DarvasBox = DarvasBox(
    boxId: int,
    ticker: Ticker,
    startDate: Date,
    endDate: Option<Date>,
    minPrice: real,
    maxPrice: real,
    baseClose: real,
    isActive: bool)

  /** A snapshot of the four tables. */
  datatype Tables = Tables(
    historicals: seq<PriceRow>,
    darvasBoxes: seq<DarvasBox>,
    strategyState: map<Ticker, int>,
    activeTrades: map<Ticker, ActiveTrade>)

  // ---------------------------------------------------------------------------
  // historicals

  /** The UNIQUE (ticker, trade_date) constraint of `historicals`. */
  ghost predicate UniqueKeys(rows: seq<PriceRow>)
  {
    forall x, y :: x in rows && y in rows && x.ticker == y.ticker && x.tradeDate == y.tradeDate ==> x == y
  }

  /** The row of `t` dated exactly `d` (the lookup behind the day's bar and the previous close). */
  function RowOn(rows: seq<PriceRow>, t: Ticker, d: Date): (r: Option<PriceRow>)
    ensures r.Some? ==> r.value in rows && r.value.ticker == t && r.value.tradeDate == d
    ensures r.None? <==> forall x :: x in rows && x.ticker == t ==> x.tradeDate != d
  {
    if rows == [] then None
    else if rows[0].ticker == t && rows[0].tradeDate == d then Some(rows[0])
    else
      var rest := RowOn(rows[1..], t, d);
      assert forall x :: x in rows ==> x == rows[0] || x in rows[1..];
      rest
  }

  /** The latest row of `t` dated strictly before `d`. */
  function LatestRowBefore(rows: seq<PriceRow>, t: Ticker, d: Date): (r: Option<PriceRow>)
    ensures r.None? <==> forall x :: x in rows && x.ticker == t ==> x.tradeDate >= d
    ensures r.Some? ==> r.value in rows && r.value.ticker == t && r.value.tradeDate < d
    ensures r.Some? ==> forall x :: x in rows && x.ticker == t && x.tradeDate < d ==> x.tradeDate <= r.value.tradeDate
  {
    if rows == [] then None
    else
      var rest := LatestRowBefore(rows[1..], t, d);
      var x := rows[0];
      assert forall y :: y in rows ==> y == x || y in rows[1..];
      if x.ticker == t && x.tradeDate < d && (rest.None? || rest.value.tradeDate < x.tradeDate) then Some(x)
      else rest
  }

  /** get_prev_trading_day: MAX(trade_date) of `t` strictly before `d`, or None. */
  function PrevTradingDay(rows: seq<PriceRow>, t: Ticker, d: Date): (r: Option<Date>)
    ensures r.None? <==> forall x :: x in rows && x.ticker == t ==> x.tradeDate >= d
    ensures r.Some? ==> r.value < d
    ensures r.Some? ==> forall x :: x in rows && x.ticker == t && x.tradeDate < d ==> x.tradeDate <= r.value
    ensures r.Some? ==> RowOn(rows, t, r.value).Some?
  {
    var latest := LatestRowBefore(rows, t, d);
    if latest.None? then None else Some(latest.value.tradeDate)
  }

  /** get_prev_close: the close on the row dated exactly get_prev_trading_day, or None. */
  function PrevClose(rows: seq<PriceRow>, t: Ticker, d: Date): (r: Option<real>)
    ensures r.Some? ==> PrevTradingDay(rows, t, d).Some?
    ensures r.Some? ==> exists x :: x in rows && x.ticker == t && x.tradeDate == PrevTradingDay(rows, t, d).value && x.close == r
  {
    var day := PrevTradingDay(rows, t, d);
    if day.None? then None
    else
      var row := RowOn(rows, t, day.value);
      if row.None? then None else row.value.close
  }

  /** A previous close exists exactly when some earlier row of `t` exists and has a close. */
  lemma PrevCloseExists(rows: seq<PriceRow>, t: Ticker, d: Date)
    requires UniqueKeys(rows)
    ensures PrevClose(rows, t, d).Some? <==>
      (PrevTradingDay(rows, t, d).Some? && LatestRowBefore(rows, t, d).value.close.Some?)
  {
    var latest := LatestRowBefore(rows, t, d);
    if latest.Some? {
      var row := RowOn(rows, t, latest.value.tradeDate);
      assert row.Some? && row.value == latest.value;
    }
  }

  /**
   * The latest `n` rows of `t` dated strictly before `d`, newest first: the rows behind
   * `WHERE ticker = ? AND trade_date < ? ORDER BY trade_date DESC LIMIT ?`.
   */
  function LatestRows(rows: seq<PriceRow>, t: Ticker, d: Date, n: nat): (r: seq<PriceRow>)
    ensures |r| <= n
    ensures forall i :: 0 <= i < |r| ==> r[i] in rows && r[i].ticker == t && r[i].tradeDate < d
    ensures forall i, j :: 0 <= i < j < |r| ==> r[j].tradeDate < r[i].tradeDate
    decreases n
  {
    if n == 0 then []
    else
      var latest := LatestRowBefore(rows, t, d);
      if latest.None? then []
      else [latest.value] + LatestRows(rows, t, latest.value.tradeDate, n - 1)
  }

  /** The window `r` of at most `n` rows accounts for `x`: it holds `x`, or it is full and every row in it is newer. */
  predicate Covers(r: seq<PriceRow>, n: nat, x: PriceRow)
  {
    x in r || (|r| == n && forall i :: 0 <= i < |r| ==> x.tradeDate < r[i].tradeDate)
  }

  /**
   * No qualifying row is skipped: a row of `t` before `d` is among the latest `n`, or the
   * window is full and every selected row is newer than it.
   */
  lemma {:induction false} LatestRowsComplete(rows: seq<PriceRow>, t: Ticker, d: Date, n: nat, x: PriceRow)
    requires UniqueKeys(rows)
    requires x in rows && x.ticker == t && x.tradeDate < d
    ensures Covers(LatestRows(rows, t, d, n), n, x)
    decreases n
  {
    if n > 0 {
      var latest := LatestRowBefore(rows, t, d);
      assert latest.Some? by {
        assert !(x.tradeDate >= d);
      }
      var y := latest.value;
      var r := LatestRows(rows, t, d, n);
      var rest := LatestRows(rows, t, y.tradeDate, n - 1);
      assert r == [y] + rest;
      if x.tradeDate < y.tradeDate {
        LatestRowsComplete(rows, t, y.tradeDate, n - 1, x);
        CoveredAfterNewer(x, y, rest, n);
      } else {
        assert x.tradeDate == y.tradeDate;
        assert x == y;
        assert r[0] == x;
      }
    }
  }

  /** Putting a newer row in front of a window that covers `x` gives a window of one more that covers `x`. */
  lemma CoveredAfterNewer(x: PriceRow, y: PriceRow, rest: seq<PriceRow>, n: nat)
    requires n > 0 && x.tradeDate < y.tradeDate
    requires Covers(rest, n - 1, x)
    ensures Covers([y] + rest, n, x)
  {
    var r := [y] + rest;
    if x !in rest {
      forall i | 0 <= i < |r|
        ensures x.tradeDate < r[i].tradeDate
      {
        if i > 0 {
          assert r[i] == rest[i - 1];
        }
      }
    }
  }

  /** The rows whose volume is not NULL, in table order. */
  function WithVolume(rows: seq<PriceRow>): (r: seq<PriceRow>)
    ensures forall x :: x in r <==> x in rows && x.volume.Some?
  {
    if rows == [] then []
    else
      var rest := WithVolume(rows[1..]);
      assert forall y :: y in rows ==> y == rows[0] || y in rows[1..];
      if rows[0].volume.Some? then [rows[0]] + rest else rest
  }

  lemma WithVolumeUnique(rows: seq<PriceRow>)
    requires UniqueKeys(rows)
    ensures UniqueKeys(WithVolume(rows))
  {
  }

  /** The volumes of rows that all carry one. */
  function Volumes(rows: seq<PriceRow>): (r: seq<real>)
    requires forall i :: 0 <= i < |rows| ==> rows[i].volume.Some?
    ensures |r| == |rows| && forall i :: 0 <= i < |r| ==> rows[i].volume == Some(r[i])
  {
    if rows == [] then [] else [rows[0].volume.value] + Volumes(rows[1..])
  }

  /**
   * get_recent_volumes: the non-NULL volumes of the latest `lookback` rows of `t` before
   * `d` that have a volume, newest first.
   */
  function RecentVolumes(rows: seq<PriceRow>, t: Ticker, d: Date, lookback: nat): (r: seq<real>)
    ensures |r| <= lookback
    ensures var src := LatestRows(WithVolume(rows), t, d, lookback);
      |r| == |src| && forall i :: 0 <= i < |r| ==> src[i] in rows && src[i].volume == Some(r[i])
  {
    Volumes(LatestRows(WithVolume(rows), t, d, lookback))
  }

  /** MAX(high) over some rows, ignoring NULL highs; None when no row has a high. */
  function MaxHigh(rows: seq<PriceRow>): (r: Option<real>)
    ensures r.None? <==> forall i :: 0 <= i < |rows| ==> rows[i].high.None?
    ensures r.Some? ==> exists i :: 0 <= i < |rows| && rows[i].high == r
    ensures r.Some? ==> forall i :: 0 <= i < |rows| && rows[i].high.Some? ==> rows[i].high.value <= r.value
  {
    if rows == [] then None
    else
      var rest := MaxHigh(rows[1..]);
      var h := rows[0].high;
      assert forall i :: 1 <= i < |rows| ==> rows[i] == rows[1..][i - 1];
      if h.None? then
        (if rest.Some? then
           var i :| 0 <= i < |rows[1..]| && rows[1..][i].high == rest;
           assert rows[i + 1].high == rest;
           rest
         else rest)
      else if rest.None? || rest.value <= h.value then h
      else
        var i :| 0 <= i < |rows[1..]| && rows[1..][i].high == rest;
        assert rows[i + 1].high == rest;
        rest
  }

  /** get_max_high_lookback: the highest high over the latest `lookback` rows of `t` before `d`. */
  function MaxHighLookback(rows: seq<PriceRow>, t: Ticker, d: Date, lookback: nat): (r: Option<real>)
    ensures var recent := LatestRows(rows, t, d, lookback);
      && (r.None? <==> forall i :: 0 <= i < |recent| ==> recent[i].high.None?)
      && (r.Some? ==> exists i :: 0 <= i < |recent| && recent[i].high == r)
      && (r.Some? ==> forall i :: 0 <= i < |recent| && recent[i].high.Some? ==> recent[i].high.value <= r.value)
  {
    var recent := LatestRows(rows, t, d, lookback);
    var m := MaxHigh(recent);
    if m.None? then m
    else
      var i :| 0 <= i < |recent| && recent[i].high == m;
      assert recent[i].high.Some?;
      m
  }

  /** get_earliest_day_close: the earliest-dated row of `t` whose close is not NULL. */
  function EarliestCloseRow(rows: seq<PriceRow>, t: Ticker): (r: Option<PriceRow>)
    ensures r.None? <==> forall x :: x in rows && x.ticker == t ==> x.close.None?
    ensures r.Some? ==> r.value in rows && r.value.ticker == t && r.value.close.Some?
    ensures r.Some? ==> forall x :: x in rows && x.ticker == t && x.close.Some? ==> r.value.tradeDate <= x.tradeDate
  {
    if rows == [] then None
    else
      var rest := EarliestCloseRow(rows[1..], t);
      var x := rows[0];
      assert forall y :: y in rows ==> y == x || y in rows[1..];
      if x.ticker == t && x.close.Some? && (rest.None? || x.tradeDate <= rest.value.tradeDate) then Some(x)
      else rest
  }

  // ---------------------------------------------------------------------------
  // darvas_boxes

  /**
   * The box create_darvas_box inserts: centred on `baseClose`, `heightPct` of it on each
   * side, open-ended and active.
   */
  function NewBox(id: int, t: Ticker, startDate: Date, baseClose: real, heightPct: real): (b: DarvasBox)
    ensures b.boxId == id && b.ticker == t && b.startDate == startDate && b.baseClose == baseClose
    ensures b.isActive && b.endDate.None?
    ensures (b.minPrice + b.maxPrice) / 2.0 == baseClose
    ensures b.maxPrice - b.minPrice == 2.0 * baseClose * heightPct
    ensures baseClose >= 0.0 && heightPct >= 0.0 ==> b.minPrice <= baseClose <= b.maxPrice
  {
    DarvasBox(id, t, startDate, None, baseClose * (1.0 - heightPct), baseClose * (1.0 + heightPct), baseClose, true)
  }

  predicate ActiveOf(b: DarvasBox, t: Ticker)
  {
    b.ticker == t && b.isActive
  }

  /** get_current_darvas_box: the active box of `t` with the largest box_id, or None. */
  function CurrentBox(boxes: seq<DarvasBox>, t: Ticker): (r: Option<DarvasBox>)
    ensures r.None? <==> forall i :: 0 <= i < |boxes| ==> !ActiveOf(boxes[i], t)
    ensures r.Some? ==> r.value in boxes && ActiveOf(r.value, t)
    ensures r.Some? ==> forall i :: 0 <= i < |boxes| && ActiveOf(boxes[i], t) ==> boxes[i].boxId <= r.value.boxId
  {
    if boxes == [] then None
    else
      var last := boxes[|boxes| - 1];
      var init := boxes[..|boxes| - 1];
      var rest := CurrentBox(init, t);
      assert forall i :: 0 <= i < |init| ==> boxes[i] == init[i];
      if ActiveOf(last, t) && (rest.None? || rest.value.boxId <= last.boxId) then Some(last)
      else rest
  }

  /** No box of `t` is active. */
  ghost predicate NoActiveBox(boxes: seq<DarvasBox>, t: Ticker)
  {
    forall i :: 0 <= i < |boxes| ==> !ActiveOf(boxes[i], t)
  }

  /** Two distinct active boxes always belong to different tickers. */
  ghost predicate AtMostOneActivePerTicker(boxes: seq<DarvasBox>)
  {
    forall i, j :: 0 <= i < j < |boxes| && boxes[i].isActive && boxes[j].isActive ==> boxes[i].ticker != boxes[j].ticker
  }

  /** box_id is the row number: ids are 1, 2, 3, ... in insertion order. */
  ghost predicate SequentialIds(boxes: seq<DarvasBox>)
  {
    forall i :: 0 <= i < |boxes| ==> boxes[i].boxId == i + 1
  }

  /** The same row apart from `end_date` and `is_active`. */
  predicate SameBoxPrices(a: DarvasBox, b: DarvasBox)
  {
    && a.boxId == b.boxId && a.ticker == b.ticker && a.startDate == b.startDate
    && a.minPrice == b.minPrice && a.maxPrice == b.maxPrice && a.baseClose == b.baseClose
  }

  /**
   * deactivate_active_darvas_box: `SET is_active = 0, end_date = ? WHERE ticker = ? AND is_active = 1`.
   */
  function Deactivated(boxes: seq<DarvasBox>, t: Ticker, endDate: Date): (r: seq<DarvasBox>)
    ensures |r| == |boxes|
    ensures forall i :: 0 <= i < |r| ==> SameBoxPrices(r[i], boxes[i])
    ensures forall i :: 0 <= i < |r| && ActiveOf(boxes[i], t) ==> !r[i].isActive && r[i].endDate == Some(endDate)
    ensures forall i :: 0 <= i < |r| && !ActiveOf(boxes[i], t) ==> r[i] == boxes[i]
    ensures NoActiveBox(r, t)
  {
    seq(|boxes|, i requires 0 <= i < |boxes| =>
      if ActiveOf(boxes[i], t) then boxes[i].(isActive := false, endDate := Some(endDate)) else boxes[i])
  }

  /** update_active_box_end_date: `SET end_date = ? WHERE ticker = ? AND is_active = 1`. */
  function WithEndDate(boxes: seq<DarvasBox>, t: Ticker, endDate: Date): (r: seq<DarvasBox>)
    ensures |r| == |boxes|
    ensures forall i :: 0 <= i < |r| ==> SameBoxPrices(r[i], boxes[i]) && r[i].isActive == boxes[i].isActive
    ensures forall i :: 0 <= i < |r| && ActiveOf(boxes[i], t) ==> r[i].endDate == Some(endDate)
    ensures forall i :: 0 <= i < |r| && !ActiveOf(boxes[i], t) ==> r[i] == boxes[i]
  {
    seq(|boxes|, i requires 0 <= i < |boxes| =>
      if ActiveOf(boxes[i], t) then boxes[i].(endDate := Some(endDate)) else boxes[i])
  }

  /** Closing every active box of `t` keeps at most one active box per ticker. */
  lemma DeactivatedKeepsOneActive(boxes: seq<DarvasBox>, t: Ticker, endDate: Date)
    requires AtMostOneActivePerTicker(boxes) && SequentialIds(boxes)
    ensures AtMostOneActivePerTicker(Deactivated(boxes, t, endDate))
    ensures SequentialIds(Deactivated(boxes, t, endDate))
  {
  }

  /** Extending the end date changes no activity, so it keeps at most one active box per ticker. */
  lemma WithEndDateKeepsOneActive(boxes: seq<DarvasBox>, t: Ticker, endDate: Date)
    requires AtMostOneActivePerTicker(boxes) && SequentialIds(boxes)
    ensures AtMostOneActivePerTicker(WithEndDate(boxes, t, endDate))
    ensures SequentialIds(WithEndDate(boxes, t, endDate))
    ensures CurrentBox(WithEndDate(boxes, t, endDate), t).Some? == CurrentBox(boxes, t).Some?
  {
  }

  /**
   * Inserting a box for a ticker with no active box keeps at most one active box per
   * ticker, and the new box becomes that ticker's current box.
   */
  lemma {:induction false} InsertKeepsOneActive(boxes: seq<DarvasBox>, b: DarvasBox)
    requires AtMostOneActivePerTicker(boxes) && NoActiveBox(boxes, b.ticker) && b.isActive
    ensures AtMostOneActivePerTicker(boxes + [b])
    ensures CurrentBox(boxes + [b], b.ticker) == Some(b)
  {
    var s := boxes + [b];
    assert s[..|s| - 1] == boxes;
    assert CurrentBox(boxes, b.ticker).None?;
    forall i, j | 0 <= i < j < |s| && s[i].isActive && s[j].isActive
      ensures s[i].ticker != s[j].ticker
    {
      if j == |s| - 1 {
        assert !ActiveOf(boxes[i], b.ticker);
      }
    }
  }

  // ---------------------------------------------------------------------------
  // strategy_state and active_trades

  /** get_breakout_streak: the stored streak, 0 when the ticker has no row. */
  function BreakoutStreak(state: map<Ticker, int>, t: Ticker): int
  {
    if t in state then state[t] else 0
  }

  /** get_active_trade: the ticker's row of `active_trades`, if any. */
  function ActiveTradeOf(trades: map<Ticker, ActiveTrade>, t: Ticker): Option<ActiveTrade>
  {
    if t in trades then Some(trades[t]) else None
  }

  /** The invariants the store keeps. */
  ghost predicate TablesValid(tb: Tables)
  {
    && UniqueKeys(tb.historicals)
    && AtMostOneActivePerTicker(tb.darvasBoxes)
    && SequentialIds(tb.darvasBoxes)
  }

  // Whole-table writes, as used by the engine's specification.

  function CreateBoxOp(tb: Tables, t: Ticker, startDate: Date, baseClose: real, heightPct: real): Tables
  {
    tb.(darvasBoxes := tb.darvasBoxes + [NewBox(|tb.darvasBoxes| + 1, t, startDate, baseClose, heightPct)])
  }

  function DeactivateOp(tb: Tables, t: Ticker, endDate: Date): Tables
  {
    tb.(darvasBoxes := Deactivated(tb.darvasBoxes, t, endDate))
  }

  function ExtendOp(tb: Tables, t: Ticker, endDate: Date): Tables
  {
    tb.(darvasBoxes := WithEndDate(tb.darvasBoxes, t, endDate))
  }

  function SetStreakOp(tb: Tables, t: Ticker, streak: int): Tables
  {
    tb.(strategyState := tb.strategyState[t := streak])
  }

  /**
   * How the box table may change under writes for ticker `t`: existing rows keep their
   * prices, rows of other tickers and closed rows stay exactly as they were, and every
   * appended row belongs to `t`.
   */
  ghost predicate BoxesEvolve(before: seq<DarvasBox>, after: seq<DarvasBox>, t: Ticker)
  {
    && |before| <= |after|
    && (forall i :: 0 <= i < |before| ==> SameBoxPrices(after[i], before[i]))
    && (forall i :: 0 <= i < |before| && !ActiveOf(before[i], t) ==> after[i] == before[i])
    && (forall i :: |before| <= i < |after| ==> after[i].ticker == t)
  }

  lemma BoxesEvolveTrans(a: seq<DarvasBox>, b: seq<DarvasBox>, c: seq<DarvasBox>, t: Ticker)
    requires BoxesEvolve(a, b, t) && BoxesEvolve(b, c, t)
    ensures BoxesEvolve(a, c, t)
  {
    forall i | |a| <= i < |c|
      ensures c[i].ticker == t
    {
      if i < |b| {
        assert SameBoxPrices(c[i], b[i]);
      }
    }
  }

  /**
   * Inserting a box for a ticker with no active box keeps the store valid, and the
   * new box, numbered after the last one, becomes that ticker's current box.
   */
  lemma CreateBoxKeepsValid(tb: Tables, t: Ticker, startDate: Date, baseClose: real, heightPct: real)
    requires TablesValid(tb) && CurrentBox(tb.darvasBoxes, t).None?
    ensures var after := CreateBoxOp(tb, t, startDate, baseClose, heightPct);
      && TablesValid(after)
      && BoxesEvolve(tb.darvasBoxes, after.darvasBoxes, t)
      && CurrentBox(after.darvasBoxes, t) == Some(NewBox(|tb.darvasBoxes| + 1, t, startDate, baseClose, heightPct))
  {
    var b := NewBox(|tb.darvasBoxes| + 1, t, startDate, baseClose, heightPct);
    InsertKeepsOneActive(tb.darvasBoxes, b);
  }

  /** Closing the ticker's boxes keeps the store valid and leaves it without a current box. */
  lemma DeactivateKeepsValid(tb: Tables, t: Ticker, endDate: Date)
    requires TablesValid(tb)
    ensures var after := DeactivateOp(tb, t, endDate);
      && TablesValid(after)
      && BoxesEvolve(tb.darvasBoxes, after.darvasBoxes, t)
      && CurrentBox(after.darvasBoxes, t).None?
  {
    DeactivatedKeepsOneActive(tb.darvasBoxes, t, endDate);
  }

  /** Extending the end date keeps the store valid and keeps the current box current. */
  lemma ExtendKeepsValid(tb: Tables, t: Ticker, endDate: Date)
    requires TablesValid(tb)
    ensures var after := ExtendOp(tb, t, endDate);
      && TablesValid(after)
      && BoxesEvolve(tb.darvasBoxes, after.darvasBoxes, t)
      && CurrentBox(after.darvasBoxes, t).Some? == CurrentBox(tb.darvasBoxes, t).Some?
  {
    WithEndDateKeepsOneActive(tb.darvasBoxes, t, endDate);
  }

  /** The store: the four tables, updated in place by the write operations. */
  class DataRepository {
    var historicals: seq<PriceRow>
    var darvasBoxes: seq<DarvasBox>
    var strategyState: map<Ticker, int>
    var activeTrades: map<Ticker, ActiveTrade>

    function Snapshot(): Tables
      reads this
    {
      Tables(historicals, darvasBoxes, strategyState, activeTrades)
    }

    ghost predicate Valid()
      reads this
    {
      TablesValid(Snapshot())
    }

    /** A store over the given price history, with no boxes, streaks or positions. */
    constructor (rows: seq<PriceRow>)
      requires UniqueKeys(rows)
      ensures Valid()
      ensures historicals == rows && darvasBoxes == [] && strategyState == map[] && activeTrades == map[]
    {
      historicals := rows;
      darvasBoxes := [];
      strategyState := map[];
      activeTrades := map[];
    }

    /** set_breakout_streak: INSERT OR REPLACE the ticker's streak. */
    method SetBreakoutStreak(t: Ticker, streak: int)
      modifies this
      ensures BreakoutStreak(strategyState, t) == streak
      ensures strategyState == old(strategyState)[t := streak]
      ensures Snapshot() == SetStreakOp(old(Snapshot()), t, streak)
      ensures forall u :: u != t ==> BreakoutStreak(strategyState, u) == old(BreakoutStreak(strategyState, u))
      ensures historicals == old(historicals) && darvasBoxes == old(darvasBoxes) && activeTrades == old(activeTrades)
    {
      strategyState := strategyState[t := streak];
    }

    /** create_darvas_box: insert and return a new active box with the next box_id. */
    method CreateDarvasBox(t: Ticker, startDate: Date, baseClose: real, heightPct: real) returns (b: DarvasBox)
      modifies this
      ensures b == NewBox(|old(darvasBoxes)| + 1, t, startDate, baseClose, heightPct)
      ensures darvasBoxes == old(darvasBoxes) + [b]
      ensures Snapshot() == CreateBoxOp(old(Snapshot()), t, startDate, baseClose, heightPct)
      ensures historicals == old(historicals) && strategyState == old(strategyState) && activeTrades == old(activeTrades)
    {
      b := NewBox(|darvasBoxes| + 1, t, startDate, baseClose, heightPct);
      darvasBoxes := darvasBoxes + [b];
    }

    /** deactivate_active_darvas_box: close every active box of `t` on `endDate`. */
    method DeactivateActiveDarvasBox(t: Ticker, endDate: Date)
      modifies this
      ensures darvasBoxes == Deactivated(old(darvasBoxes), t, endDate)
      ensures Snapshot() == DeactivateOp(old(Snapshot()), t, endDate)
      ensures CurrentBox(darvasBoxes, t).None?
      ensures historicals == old(historicals) && strategyState == old(strategyState) && activeTrades == old(activeTrades)
    {
      darvasBoxes := Deactivated(darvasBoxes, t, endDate);
    }

    /** update_active_box_end_date: move the end date of `t`'s active boxes to `endDate`. */
    method UpdateActiveBoxEndDate(t: Ticker, endDate: Date)
      modifies this
      ensures darvasBoxes == WithEndDate(old(darvasBoxes), t, endDate)
      ensures Snapshot() == ExtendOp(old(Snapshot()), t, endDate)
      ensures historicals == old(historicals) && strategyState == old(strategyState) && activeTrades == old(activeTrades)
    {
      darvasBoxes := WithEndDate(darvasBoxes, t, endDate);
    }
  }
}
