/**
 * The per-bar decision of the trading strategy (PineStrategy) and its trade log.
 *
 * Indicator values (the four EMAs and the ATR) are computed by the backtesting
 * engine; here they are inputs, read once per bar. Prices are reals.
 */
module Strategy {

  /** The strategy's parameters, with the types of their defaults. */
  datatype Params = Params(
    longTermFastLen: int,
    longTermSlowLen: int,
    shortTermFastLen: int,
    shortTermSlowLen: int,
    exitMethod: string,
    fixedStopLossPct: real,
    fixedTakeProfitPct: real,
    fixedTrailingPct: real,
    atrPeriod: int,
    atrStopLossFactor: real,
    atrTakeProfitFactor: real,
    useAtrStopLoss: bool,
    useAdxFilter: bool,
    adxPeriod: int,
    adxThreshold: real,
    useVolumeFilter: bool,
    volumeMALen: int,
    useRSIFilter: bool,
    rsiPeriod: int,
    rsiLongThreshold: real,
    rsiShortThreshold: real,
    useAtrFilter: bool,
    atrFilterThreshold: real,
    enableHigherTFFilter: bool,
    enableSessionFilter: bool)

  /** The declared defaults; the exit percentages are whole percent (1 means 1%). */
  const DefaultParams: Params := Params(
    50, 200, 10, 20,
    "Fixed",
    1.0, 2.0, 1.5,
    14, 1.0, 2.0, false,
    false, 14, 20.0,
    false, 20,
    false, 14, 50.0, 50.0,
    false, 0.01,
    false, false)

  /** Indicator readings on one bar: the long EMA pair now, the short EMA pair now and one bar back, the ATR now. */
  datatype Readings = Readings(
    longFast: real,
    longSlow: real,
    shortFast: real,
    shortSlow: real,
    prevShortFast: real,
    prevShortSlow: real,
    atr: real)

  /** The broker's open position: signed size and average entry price. */
  datatype Position = Position(size: real, price: real)

  datatype Side = Flat | Long | Short

  /** The side is the sign of the size; a position is "truthy" exactly when its size is non-zero. */
  function SideOf(pos: Position): (s: Side)
    ensures s == Flat <==> pos.size == 0.0
    ensures s == Long <==> pos.size > 0.0
  {
    if pos.size > 0.0 then Long else if pos.size < 0.0 then Short else Flat
  }

  /** What `next` asks of the broker on one bar. */
  datatype Action = Buy | Sell | Close | NoAction

  predicate BullTrend(r: Readings) { r.longFast > r.longSlow }

  predicate BearTrend(r: Readings) { r.longFast < r.longSlow }

  /** An upward cross of the short EMA pair in a bull trend. */
  predicate LongSignal(r: Readings)
  {
    BullTrend(r) && r.shortFast > r.shortSlow && r.prevShortFast <= r.prevShortSlow
  }

  /** A downward cross of the short EMA pair in a bear trend. */
  predicate ShortSignal(r: Readings)
  {
    BearTrend(r) && r.shortFast < r.shortSlow && r.prevShortFast >= r.prevShortSlow
  }

  /** Stop of a long position: ATR-based or a fixed percentage below the entry. */
  function LongStop(entry: real, atr: real, p: Params): real
  {
    if p.useAtrStopLoss then entry - atr * p.atrStopLossFactor
    else entry * (1.0 - p.fixedStopLossPct / 100.0)
  }

  /** Target of a long position: a fixed percentage above the entry. */
  function LongTarget(entry: real, p: Params): real
  {
    entry * (1.0 + p.fixedTakeProfitPct / 100.0)
  }

  /** Stop of a short position: ATR-based or a fixed percentage above the entry. */
  function ShortStop(entry: real, atr: real, p: Params): real
  {
    if p.useAtrStopLoss then entry + atr * p.atrStopLossFactor
    else entry * (1.0 + p.fixedStopLossPct / 100.0)
  }

  /** Target of a short position: a fixed percentage below the entry. */
  function ShortTarget(entry: real, p: Params): real
  {
    entry * (1.0 - p.fixedTakeProfitPct / 100.0)
  }

  /** Bull and bear trend exclude each other, and neither holds when the long EMAs are equal. */
  lemma TrendsExclusive(r: Readings)
    ensures !(BullTrend(r) && BearTrend(r))
    ensures r.longFast == r.longSlow ==> !BullTrend(r) && !BearTrend(r)
    ensures r.longFast != r.longSlow ==> BullTrend(r) || BearTrend(r)
  {
  }

  /** A bar never carries both entry signals. */
  lemma SignalsExclusive(r: Readings)
    ensures !(LongSignal(r) && ShortSignal(r))
  {
    TrendsExclusive(r);
  }

  /** `next` was called on bar `now` right after bar `before`: the previous short EMAs are the earlier current ones. */
  predicate Consecutive(before: Readings, now: Readings)
  {
    now.prevShortFast == before.shortFast && now.prevShortSlow == before.shortSlow
  }

  /** A long signal is a crossing, so it cannot fire on two consecutive bars. */
  lemma NoRepeatedLongSignal(before: Readings, now: Readings)
    requires Consecutive(before, now)
    ensures LongSignal(before) ==> !LongSignal(now)
  {
  }

  /** The short signal mirrors the long one. */
  lemma NoRepeatedShortSignal(before: Readings, now: Readings)
    requires Consecutive(before, now)
    ensures ShortSignal(before) ==> !ShortSignal(now)
  {
  }

  /**
   * One call of `next`: enter on a signal when flat, otherwise (only under the
   * "Fixed" exit method) close when the close price reaches the stop or the target.
   */
  function Next(pos: Position, r: Readings, close: real, p: Params): (a: Action)
    // entries are requested only without a position
    ensures (a == Buy || a == Sell) ==> SideOf(pos) == Flat
    ensures SideOf(pos) == Flat ==> (a == Buy <==> LongSignal(r)) && (a == Sell <==> ShortSignal(r))
    ensures SideOf(pos) == Flat ==> a != Close
    // exits are evaluated only under the "Fixed" exit method
    ensures SideOf(pos) != Flat && p.exitMethod != "Fixed" ==> a == NoAction
    ensures SideOf(pos) == Long && p.exitMethod == "Fixed" ==>
      (a == Close <==> close <= LongStop(pos.price, r.atr, p) || close >= LongTarget(pos.price, p))
    ensures SideOf(pos) == Short && p.exitMethod == "Fixed" ==>
      (a == Close <==> close >= ShortStop(pos.price, r.atr, p) || close <= ShortTarget(pos.price, p))
    ensures SideOf(pos) != Flat ==> a == Close || a == NoAction
  {
    SignalsExclusive(r);
    if pos.size == 0.0 then
      if LongSignal(r) then Buy
      else if ShortSignal(r) then Sell
      else NoAction
    else if pos.size > 0.0 then
      if p.exitMethod == "Fixed"
         && (close <= LongStop(pos.price, r.atr, p) || close >= LongTarget(pos.price, p))
      then Close else NoAction
    else
      if p.exitMethod == "Fixed"
         && (close >= ShortStop(pos.price, r.atr, p) || close <= ShortTarget(pos.price, p))
      then Close else NoAction
  }

  /** Long exit with the fixed percentages, written out on the raw inputs. */
  lemma LongFixedExit(pos: Position, r: Readings, close: real, p: Params)
    requires pos.size > 0.0 && p.exitMethod == "Fixed" && !p.useAtrStopLoss
    ensures Next(pos, r, close, p) == Close <==>
      close <= pos.price * (1.0 - p.fixedStopLossPct / 100.0) ||
      close >= pos.price * (1.0 + p.fixedTakeProfitPct / 100.0)
  {
  }

  /** Long exit with the ATR stop: the stop moves to entry - atr * factor, the target stays. */
  lemma LongAtrExit(pos: Position, r: Readings, close: real, p: Params)
    requires pos.size > 0.0 && p.exitMethod == "Fixed" && p.useAtrStopLoss
    ensures Next(pos, r, close, p) == Close <==>
      close <= pos.price - r.atr * p.atrStopLossFactor ||
      close >= pos.price * (1.0 + p.fixedTakeProfitPct / 100.0)
    ensures LongTarget(pos.price, p) == LongTarget(pos.price, p.(useAtrStopLoss := false))
  {
  }

  /** Short exit with the fixed percentages: stop above and target below the entry. */
  lemma ShortFixedExit(pos: Position, r: Readings, close: real, p: Params)
    requires pos.size < 0.0 && p.exitMethod == "Fixed" && !p.useAtrStopLoss
    ensures Next(pos, r, close, p) == Close <==>
      close >= pos.price * (1.0 + p.fixedStopLossPct / 100.0) ||
      close <= pos.price * (1.0 - p.fixedTakeProfitPct / 100.0)
  {
  }

  /** With a positive entry and positive percentages the stop and target bracket the entry on both sides. */
  lemma StopsBracketEntry(entry: real, atr: real, p: Params)
    requires entry > 0.0 && p.fixedTakeProfitPct > 0.0
    requires p.useAtrStopLoss ==> atr * p.atrStopLossFactor > 0.0
    requires !p.useAtrStopLoss ==> p.fixedStopLossPct > 0.0
    ensures LongStop(entry, atr, p) < entry < LongTarget(entry, p)
    ensures ShortTarget(entry, p) < entry < ShortStop(entry, atr, p)
  {
  }

  /** With the defaults (1% stop, 2% target) and entry 100: 98.9 and 102.1 exit, 100 holds. */
  lemma DefaultExitExample(r: Readings)
    ensures Next(Position(1.0, 100.0), r, 98.9, DefaultParams) == Close
    ensures Next(Position(1.0, 100.0), r, 102.1, DefaultParams) == Close
    ensures Next(Position(1.0, 100.0), r, 100.0, DefaultParams) == NoAction
    ensures Next(Position(1.0, 100.0), r, 99.0, DefaultParams) == Close
    ensures Next(Position(1.0, 100.0), r, 101.99, DefaultParams) == NoAction
  {
    assert LongStop(100.0, r.atr, DefaultParams) == 99.0;
    assert LongTarget(100.0, DefaultParams) == 102.0;
  }

  /** Two parameter sets that agree on what `next` reads. */
  predicate SameDecisionParams(p: Params, q: Params)
  {
    p.exitMethod == q.exitMethod && p.useAtrStopLoss == q.useAtrStopLoss &&
    p.atrStopLossFactor == q.atrStopLossFactor &&
    p.fixedStopLossPct == q.fixedStopLossPct && p.fixedTakeProfitPct == q.fixedTakeProfitPct
  }

  /**
   * `next` reads only the exit method, the ATR switch and factor, and the stop
   * and target percentages: the filter toggles and thresholds, the trailing
   * percentage and `atrTakeProfitFactor` are never read by it. The EMA and ATR
   * periods act only through the indicator readings `r`, which are held fixed.
   */
  lemma FiltersNeverRead(pos: Position, r: Readings, close: real, p: Params, q: Params)
    requires SameDecisionParams(p, q)
    ensures Next(pos, r, close, p) == Next(pos, r, close, q)
  {
    assert LongStop(pos.price, r.atr, p) == LongStop(pos.price, r.atr, q);
    assert LongTarget(pos.price, p) == LongTarget(pos.price, q);
    assert ShortStop(pos.price, r.atr, p) == ShortStop(pos.price, r.atr, q);
    assert ShortTarget(pos.price, p) == ShortTarget(pos.price, q);
  }

  /** A trade as the engine reports it to `notify_trade`. Times are the engine's numeric date stamps. */
  datatype Trade = Trade(isClosed: bool, dtOpen: real, dtClose: real, size: real, price: real, pnl: real)

  /** One row of the trade log. */
  datatype TradeRecord = TradeRecord(entryDate: real, exitDate: real, size: real, entryPrice: real, profit: real)

  function RecordOf(t: Trade): TradeRecord
  {
    TradeRecord(t.dtOpen, t.dtClose, t.size, t.price, t.pnl)
  }

  /** The log that a sequence of trade notifications produces. */
  function Logged(ts: seq<Trade>): seq<TradeRecord>
  {
    if ts == [] then []
    else
      var last := ts[|ts| - 1];
      Logged(ts[..|ts| - 1]) + (if last.isClosed then [RecordOf(last)] else [])
  }

  /** The number of closed trades among the notifications. */
  function ClosedCount(ts: seq<Trade>): nat
  {
    if ts == [] then 0 else (if ts[0].isClosed then 1 else 0) + ClosedCount(ts[1..])
  }

  lemma {:induction false} ClosedCountAppend(ts: seq<Trade>, t: Trade)
    ensures ClosedCount(ts + [t]) == ClosedCount(ts) + (if t.isClosed then 1 else 0)
  {
    if ts != [] {
      assert (ts + [t])[1..] == ts[1..] + [t];
      ClosedCountAppend(ts[1..], t);
    }
  }

  /** The log holds exactly one record per closed trade. */
  lemma {:induction false} LoggedLength(ts: seq<Trade>)
    ensures |Logged(ts)| == ClosedCount(ts)
  {
    if ts != [] {
      var init := ts[..|ts| - 1];
      assert ts == init + [ts[|ts| - 1]];
      LoggedLength(init);
      ClosedCountAppend(init, ts[|ts| - 1]);
    }
  }

  /** Later notifications never change earlier records: the log only grows at its end. */
  lemma {:induction false} LoggedExtends(ts: seq<Trade>, us: seq<Trade>)
    ensures Logged(ts) <= Logged(ts + us)
  {
    if us != [] {
      var init := us[..|us| - 1];
      assert (ts + us)[..|ts + us| - 1] == ts + init;
      LoggedExtends(ts, init);
      assert Logged(ts + init) <= Logged(ts + us);
    } else {
      assert ts + us == ts;
    }
  }

  /** Every record comes from a closed trade that was notified. */
  lemma {:induction false} LoggedFromClosed(ts: seq<Trade>, k: nat)
    requires k < |Logged(ts)|
    ensures exists j :: 0 <= j < |ts| && ts[j].isClosed && Logged(ts)[k] == RecordOf(ts[j])
  {
    var init := ts[..|ts| - 1];
    var last := ts[|ts| - 1];
    if k < |Logged(init)| {
      LoggedFromClosed(init, k);
      var j :| 0 <= j < |init| && init[j].isClosed && Logged(init)[k] == RecordOf(init[j]);
      assert ts[j] == init[j];
    } else {
      assert ts[|ts| - 1].isClosed && Logged(ts)[k] == RecordOf(ts[|ts| - 1]);
    }
  }

  /** The trade log the strategy keeps; `notified` is every trade notification received so far. */
  class TradeLog {
    var records: seq<TradeRecord>
    ghost var notified: seq<Trade>

    ghost predicate Valid()
      reads this
    {
      records == Logged(notified)
    }

    constructor ()
      ensures Valid() && records == [] && notified == []
    {
      records := [];
      notified := [];
    }

    /** `notify_trade`: append one record when the trade is closed, nothing otherwise. */
    method NotifyTrade(t: Trade)
      requires Valid()
      modifies this
      ensures Valid()
      ensures notified == old(notified) + [t]
      ensures records == if t.isClosed then old(records) + [RecordOf(t)] else old(records)
      ensures |records| == ClosedCount(notified)
    {
      if t.isClosed {
        records := records + [RecordOf(t)];
      }
      notified := notified + [t];
      assert notified[..|notified| - 1] == old(notified);
      LoggedLength(notified);
    }
  }
}
