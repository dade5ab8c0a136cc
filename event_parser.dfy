/**
 * The recorded-feed parser (synthetic_exchange/util/event_parser.py): splits a row into its
 * receive time and JSON message, and filters the Binance USD-M futures streams into backtest
 * events, dropping stale or repeated updates by their ids. JSON decoding and the decimal
 * scaling of prices and sizes happen before this model: a message arrives as its decoded
 * fields, prices and sizes already scaled to integers.
 */
module EventParser {
  import opened Wrappers
  import opened Text

  // ---------------------------------------------------------------------
  // Rows and messages
  // ---------------------------------------------------------------------

  /** A `[price, size]` pair of a depth list, both scaled. */
  datatype Level = Level(price: int, size: int)

  /** The nested `o` object of a liquidation message, all of its keys present. */
  datatype ForceOrderData = ForceOrderData(
    firstId: int, side: string, orderType: string, quantity: string, price: string,
    averagePrice: string, status: string, lastFilled: string, filled: string, tradeTime: int)

  /** The keys of a mark-price message that the parser reads, all present; prices and rate scaled. */
  datatype FundingData = FundingData(
    eventTime: int, symbol: string, markPrice: int, estimatedPrice: int, indexPrice: int,
    fundingRate: int, nextFundingTime: int)

  /**
   * A decoded message; `None` is a missing key (or, for the scaled fields, a value that does
   * not convert). The JSON keys are `e`, `T`, `E`, `X`, `t`, `m`, `p`, `q`, `f`, `l`, `u`,
   * `b`/`B`/`a`/`A` (book ticker), `pu`, `b`/`a` (depth lists), `o`, the mark-price keys,
   * `lastUpdateId`, `bids` and `asks`.
   */
  datatype Msg = Msg(
    eventType: Option<string>,
    tradeTime: Option<int>,
    eventTime: Option<int>,
    orderType: Option<string>,
    tradeId: Option<int>,
    buyerIsMaker: Option<bool>,
    price: Option<int>,
    quantity: Option<int>,
    firstId: Option<int>,
    lastId: Option<int>,
    updateId: Option<int>,
    bestBid: Option<int>,
    bestBidQty: Option<int>,
    bestAsk: Option<int>,
    bestAskQty: Option<int>,
    prevUpdateId: Option<int>,
    bidLevels: Option<seq<Level>>,
    askLevels: Option<seq<Level>>,
    forceOrder: Option<ForceOrderData>,
    funding: Option<FundingData>,
    lastUpdateId: Option<int>,
    snapshotBids: Option<seq<Level>>,
    snapshotAsks: Option<seq<Level>>)

  /**
   * The JSON text after the time stamp, decoded: the `stream` name ("" when absent), the
   * `data` object if there is one, and the whole object.
   */
  datatype Body = Body(stream: string, data: Option<Msg>, whole: Msg)

  /**
   * A row of the recording: its length, the integer its first 16 characters spell (`None`
   * when they do not), and its body (`None` when it is not a JSON object).
   */
  datatype Row = Row(length: nat, stamp: Option<int>, body: Option<Body>)

  /** `init_row`: the channel and the message it yields; the message is `data` only under a stream. */
  function Channel(b: Body): string
  {
    b.stream
  }

  function MessageOf(b: Body): (m: Msg)
    ensures b.stream != "" && b.data.Some? ==> m == b.data.value
    ensures b.stream == "" || b.data.None? ==> m == b.whole
  {
    if b.stream != "" && b.data.Some? then b.data.value else b.whole
  }

  // ---------------------------------------------------------------------
  // Events
  // ---------------------------------------------------------------------

  datatype Side = Buy | Sell

  /** `'sell' if m else 'buy'`. */
  function SideOf(buyerIsMaker: bool): Side
  {
    if buyerIsMaker then Sell else Buy
  }

  datatype Kind =
    | Trade(side: Side, price: int, size: int, id: int)
    | AggTrade(side: Side, price: int, size: int, firstId: int, lastId: int)
    | BestBidOffer(bidPrice: int, bidSize: int, askPrice: int, askSize: int, updateId: int)
    | DepthUpdate(bids: seq<Level>, asks: seq<Level>, updateId: int, prevUpdateId: int)
    | ForceOrder(order: ForceOrderData, lowerSide: string)
    | FundingInfo(funding: FundingData)
    | Snapshot(bidBook: map<int, int>, askBook: map<int, int>, updateId: int)

  /** An emitted event: `time` and `time_e` in nanoseconds, `now` the receive time in nanoseconds. */
  datatype Event = Event(time: int, timeE: int, now: int, kind: Kind)

  /** What one per-type handler does with a message. */
  datatype Handled = Skip | Emit(kind: Kind) | Raise

  function GetOr(o: Option<int>, default: int): int
  {
    if o.Some? then o.value else default
  }

  // ---------------------------------------------------------------------
  // The per-type handlers: the new last id and the outcome
  // ---------------------------------------------------------------------

  /**
   * `trade`: only market trades with a trade id above the last kept one; the last id moves
   * before the remaining fields are read, and a non-positive size fails the assertion.
   */
  function TradeHandler(msg: Msg, last: int): (r: (int, Handled))
    ensures r.1.Emit? ==> r.1.kind.Trade? && r.1.kind.id > last && r.0 == r.1.kind.id && r.1.kind.size > 0
    ensures r.0 != last ==> r.0 > last && msg.tradeId == Some(r.0) && msg.orderType == Some("MARKET")
  {
    if msg.orderType.None? then (last, Raise)
    else if msg.orderType.value != "MARKET" then (last, Skip)
    else if msg.tradeId.None? then (last, Raise)
    else if msg.tradeId.value <= last then (last, Skip)
    else
      var t := msg.tradeId.value;
      if msg.buyerIsMaker.None? || msg.price.None? || msg.quantity.None? then (t, Raise)
      else if msg.quantity.value <= 0 then (t, Raise)
      else (t, Emit(Trade(SideOf(msg.buyerIsMaker.value), msg.price.value, msg.quantity.value, t)))
  }

  /** `aggTrade`: kept when its last trade id `l` is above the last kept one. */
  function AggTradeHandler(msg: Msg, last: int): (r: (int, Handled))
    ensures r.1.Emit? ==> r.1.kind.AggTrade? && r.1.kind.lastId > last && r.0 == r.1.kind.lastId
    ensures r.0 != last ==> r.0 > last && msg.lastId == Some(r.0)
  {
    if msg.lastId.None? then (last, Raise)
    else if msg.lastId.value <= last then (last, Skip)
    else
      var l := msg.lastId.value;
      if msg.buyerIsMaker.None? || msg.price.None? || msg.quantity.None? || msg.firstId.None? then (l, Raise)
      else (l, Emit(AggTrade(SideOf(msg.buyerIsMaker.value), msg.price.value, msg.quantity.value, msg.firstId.value, l)))
  }

  /** `bookTicker`: kept when its update id `u` is above the last kept one. */
  function BookTickerHandler(msg: Msg, last: int): (r: (int, Handled))
    ensures r.1.Emit? ==> r.1.kind.BestBidOffer? && r.1.kind.updateId > last && r.0 == r.1.kind.updateId
    ensures r.0 != last ==> r.0 > last && msg.updateId == Some(r.0)
  {
    if msg.updateId.None? then (last, Raise)
    else if msg.updateId.value <= last then (last, Skip)
    else
      var u := msg.updateId.value;
      if msg.bestBid.None? || msg.bestBidQty.None? || msg.bestAsk.None? || msg.bestAskQty.None? then (u, Raise)
      else (u, Emit(BestBidOffer(msg.bestBid.value, msg.bestBidQty.value, msg.bestAsk.value, msg.bestAskQty.value, u)))
  }

  /**
   * `depthUpdate`, for a channel whose last id is `last` (0 for a new channel): kept when `u`
   * is above it; `pu` defaults to 0.
   */
  function DepthHandler(msg: Msg, last: int): (r: (int, Handled))
    ensures r.1.Emit? ==> r.1.kind.DepthUpdate? && r.1.kind.updateId > last && r.0 == r.1.kind.updateId
    ensures r.1.Emit? ==> r.1.kind.prevUpdateId == (if msg.prevUpdateId.Some? then msg.prevUpdateId.value else 0)
    ensures r.0 != last ==> r.0 > last && msg.updateId == Some(r.0)
  {
    if msg.updateId.None? then (last, Raise)
    else if msg.updateId.value <= last then (last, Skip)
    else
      var u := msg.updateId.value;
      if msg.askLevels.None? || msg.bidLevels.None? then (u, Raise)
      else (u, Emit(DepthUpdate(msg.bidLevels.value, msg.askLevels.value, u, GetOr(msg.prevUpdateId, 0))))
  }

  /** The `[price, size]` pairs of a snapshot side as a dictionary: a later price overwrites an earlier one. */
  function LevelMap(levels: seq<Level>): (r: map<int, int>)
    ensures forall p :: p in r <==> exists i :: 0 <= i < |levels| && levels[i].price == p
  {
    if levels == [] then map[]
    else
      var init := levels[..|levels| - 1];
      var last := levels[|levels| - 1];
      var m := LevelMap(init);
      assert forall i :: 0 <= i < |init| ==> init[i] == levels[i];
      m[last.price := last.size]
  }

  /** A level whose price no later level repeats gives the size its price maps to. */
  lemma {:induction false} LevelMapLastWins(levels: seq<Level>, i: nat)
    requires i < |levels|
    requires forall j :: i < j < |levels| ==> levels[j].price != levels[i].price
    ensures levels[i].price in LevelMap(levels) && LevelMap(levels)[levels[i].price] == levels[i].size
  {
    var n := |levels| - 1;
    if i < n {
      var init := levels[..n];
      assert init[i] == levels[i];
      forall j | i < j < |init|
        ensures init[j].price != init[i].price
      {
        assert init[j] == levels[j];
      }
      LevelMapLastWins(init, i);
    }
  }

  /**
   * The remaining branches: a liquidation, a mark-price update, any other event type (ignored),
   * and a message without `e`, which the loop hands over only when it has `lastUpdateId` (a
   * depth snapshot). Each raises exactly when a key it reads is missing.
   */
  function OtherHandler(msg: Msg): (h: Handled)
    ensures h.Emit? ==> h.kind.ForceOrder? || h.kind.FundingInfo? || h.kind.Snapshot?
    ensures msg.eventType == Some("forceOrder") ==>
      (h.Raise? <==> msg.forceOrder.None?)
      && (h.Emit? ==>
            h.kind.ForceOrder? && h.kind.order == msg.forceOrder.value
            && h.kind.lowerSide == Lower(msg.forceOrder.value.side))
    ensures msg.eventType == Some("markPriceUpdate") ==>
      (h.Raise? <==> msg.funding.None?) && (h.Emit? ==> h.kind == FundingInfo(msg.funding.value))
    ensures msg.eventType.Some? && msg.eventType.value != "forceOrder" && msg.eventType.value != "markPriceUpdate" ==>
      h == Skip
    ensures msg.eventType.None? ==>
      (h.Raise? <==> msg.snapshotBids.None? || msg.snapshotAsks.None?)
      && (h.Emit? ==>
            h.kind.Snapshot?
            && h.kind.bidBook == LevelMap(msg.snapshotBids.value) && h.kind.askBook == LevelMap(msg.snapshotAsks.value)
            && (msg.lastUpdateId.Some? ==> h.kind.updateId == msg.lastUpdateId.value))
  {
    match msg.eventType
    case Some(e) =>
      if e == "forceOrder" then
        (if msg.forceOrder.None? then Raise else Emit(ForceOrder(msg.forceOrder.value, Lower(msg.forceOrder.value.side))))
      else if e == "markPriceUpdate" then
        (if msg.funding.None? then Raise else Emit(FundingInfo(msg.funding.value)))
      else Skip
    case None =>
      if msg.snapshotBids.None? || msg.snapshotAsks.None? then Raise
      else Emit(Snapshot(LevelMap(msg.snapshotBids.value), LevelMap(msg.snapshotAsks.value), GetOr(msg.lastUpdateId, 0)))
  }

  // ---------------------------------------------------------------------
  // The loop state and one iteration
  // ---------------------------------------------------------------------

  /** The variables of the loop in `_parse_binance_perp`. */
  datatype Scan = Scan(
    events: seq<Event>,
    lastTradeId: int,
    lastAggTradeId: int,
    lastBboId: int,
    lastDepthUpdateId: map<string, int>,
    warnings: nat,
    ignored: nat,
    exceptions: nat,
    stopped: bool)

  const Start := Scan([], 0, 0, 0, map[], 0, 0, 0, false)

  /** The event header: `time` = T·10⁶, `time_e` = E·10⁶ (each 0 when absent), `now` = stamp·10³. */
  function Header(msg: Msg, stamp: int, kind: Kind): Event
  {
    Event(GetOr(msg.tradeTime, 0) * 1000000, GetOr(msg.eventTime, 0) * 1000000, stamp * 1000, kind)
  }

  /** Applies a handler's outcome: append the event, count the exception, or nothing. */
  function Finish(st: Scan, msg: Msg, stamp: int, h: Handled): (r: Scan)
    ensures h.Emit? ==>
      |r.events| == |st.events| + 1 && r.events[..|st.events|] == st.events && r.events[|st.events|].kind == h.kind
    ensures !h.Emit? ==> r.events == st.events
    ensures r == st.(events := r.events, exceptions := r.exceptions)
    ensures r.exceptions == st.exceptions + (if h.Raise? then 1 else 0)
  {
    match h
    case Skip => st
    case Raise => st.(exceptions := st.exceptions + 1)
    case Emit(kind) =>
      var e := Header(msg, stamp, kind);
      var e' := if kind.ForceOrder? then e.(time := kind.order.tradeTime * 1000000) else e;
      assert (st.events + [e'])[..|st.events|] == st.events;
      st.(events := st.events + [e'])
  }

  function DepthLast(st: Scan, channel: string): int
  {
    if channel in st.lastDepthUpdateId then st.lastDepthUpdateId[channel] else 0
  }

  /**
   * The type dispatch of one message: the bookkeeping after the per-type block and what the
   * block does. Only the block of its own type moves a last id, and only upwards.
   */
  function Dispatch(st: Scan, channel: string, msg: Msg): (r: (Scan, Handled))
    ensures r.0.events == st.events && r.0.stopped == st.stopped && r.0.exceptions == st.exceptions
    ensures Grows(st, r.0)
    ensures r.1.Emit? && r.1.kind.Trade? ==>
      msg.eventType == Some("trade") && r.1.kind.id == r.0.lastTradeId && r.0.lastTradeId > st.lastTradeId
    ensures r.0.lastTradeId != st.lastTradeId ==> msg.eventType == Some("trade")
    ensures r.0.lastAggTradeId != st.lastAggTradeId ==> msg.eventType == Some("aggTrade")
    ensures r.0.lastBboId != st.lastBboId ==> msg.eventType == Some("bookTicker")
  {
    if msg.eventType == Some("trade") then
      var (id, h) := TradeHandler(msg, st.lastTradeId);
      (st.(lastTradeId := id), h)
    else if msg.eventType == Some("aggTrade") then
      var (id, h) := AggTradeHandler(msg, st.lastAggTradeId);
      (st.(lastAggTradeId := id), h)
    else if msg.eventType == Some("bookTicker") then
      var (id, h) := BookTickerHandler(msg, st.lastBboId);
      (st.(lastBboId := id), h)
    else if msg.eventType == Some("depthUpdate") then
      var (id, h) := DepthHandler(msg, DepthLast(st, channel));
      (st.(lastDepthUpdateId := st.lastDepthUpdateId[channel := id]), h)
    else if msg.eventType.Some? && msg.eventType.value !in {"forceOrder", "markPriceUpdate"} then
      (st.(ignored := st.ignored + 1), Skip)
    else if msg.eventType.None? && msg.lastUpdateId.None? then
      (st.(warnings := st.warnings + 1), Skip)
    else
      (st, OtherHandler(msg))
  }

  /** One iteration of the loop over rows. */
  function Step(st: Scan, row: Row): Scan
  {
    if st.stopped || row.length < 16 then st
    else if row.stamp.None? || row.body.None? then st.(stopped := true)
    else
      var msg := MessageOf(row.body.value);
      var (next, h) := Dispatch(st, Channel(row.body.value), msg);
      Finish(next, msg, row.stamp.value, h)
  }

  /** The loop state after a prefix of the rows. */
  function Parse(rows: seq<Row>): Scan
  {
    if rows == [] then Start else Step(Parse(rows[..|rows| - 1]), rows[|rows| - 1])
  }

  // ---------------------------------------------------------------------
  // The loop
  // ---------------------------------------------------------------------

  /** `_parse_binance_perp`: both scale factors must be positive; the loop stops at the first broken row. */
  method ParseBinancePerp(rows: seq<Row>, priceMult: int, sizeMult: int) returns (r: Result<seq<Event>, string>)
    ensures priceMult <= 0 || sizeMult <= 0 <==> r.Err?
    ensures r.Ok? ==> r.value == Parse(rows).events
  {
    if priceMult <= 0 || sizeMult <= 0 {
      return Err("AssertionError");
    }
    var events: seq<Event> := [];
    var lastDepthUpdateId: map<string, int> := map[];
    var lastTradeId, lastAggTradeId, lastBboId := 0, 0, 0;
    var warnings, ignored, exceptions := 0, 0, 0;
    var i := 0;
    while i < |rows|
      invariant 0 <= i <= |rows|
      invariant Parse(rows[..i]) ==
        Scan(events, lastTradeId, lastAggTradeId, lastBboId, lastDepthUpdateId, warnings, ignored, exceptions, false)
    {
      assert rows[..i + 1][..i] == rows[..i];
      ghost var st := Scan(events, lastTradeId, lastAggTradeId, lastBboId, lastDepthUpdateId, warnings, ignored, exceptions, false);
      var row := rows[i];
      i := i + 1;
      if row.length < 16 {
        continue;
      }
      if row.stamp.None? || row.body.None? {
        StoppedStays(rows, i);
        return Ok(events);
      }
      var stamp := row.stamp.value;
      var channel := Channel(row.body.value);
      var msg := MessageOf(row.body.value);
      ghost var dispatched := Dispatch(st, channel, msg);
      var h: Handled;
      if msg.eventType == Some("trade") {
        lastTradeId, h := TradeHandler(msg, lastTradeId).0, TradeHandler(msg, lastTradeId).1;
      } else if msg.eventType == Some("aggTrade") {
        lastAggTradeId, h := AggTradeHandler(msg, lastAggTradeId).0, AggTradeHandler(msg, lastAggTradeId).1;
      } else if msg.eventType == Some("bookTicker") {
        lastBboId, h := BookTickerHandler(msg, lastBboId).0, BookTickerHandler(msg, lastBboId).1;
      } else if msg.eventType == Some("depthUpdate") {
        if channel !in lastDepthUpdateId {
          lastDepthUpdateId := lastDepthUpdateId[channel := 0];
        }
        var (id, handled) := DepthHandler(msg, lastDepthUpdateId[channel]);
        lastDepthUpdateId, h := lastDepthUpdateId[channel := id], handled;
      } else if msg.eventType.Some? && msg.eventType.value !in {"forceOrder", "markPriceUpdate"} {
        ignored := ignored + 1;
        continue;
      } else if msg.eventType.None? && msg.lastUpdateId.None? {
        warnings := warnings + 1;
        continue;
      } else {
        h := OtherHandler(msg);
      }
      assert h == dispatched.1;
      assert dispatched.0 == Scan(events, lastTradeId, lastAggTradeId, lastBboId, lastDepthUpdateId, warnings, ignored, exceptions, false);
      match h {
        case Skip =>
        case Raise =>
          exceptions := exceptions + 1;
        case Emit(kind) =>
          var e := Header(msg, stamp, kind);
          if kind.ForceOrder? {
            e := e.(time := kind.order.tradeTime * 1000000);
          }
          events := events + [e];
      }
    }
    assert rows[..i] == rows;
    r := Ok(events);
  }

  /** Once the loop has stopped, later rows change nothing. */
  lemma {:induction false} StoppedStays(rows: seq<Row>, k: nat)
    requires k <= |rows| && Parse(rows[..k]).stopped
    ensures Parse(rows) == Parse(rows[..k])
    decreases |rows| - k
  {
    if k < |rows| {
      assert rows[..k + 1][..k] == rows[..k];
      StoppedStays(rows, k + 1);
    } else {
      assert rows[..k] == rows;
    }
  }

  // ---------------------------------------------------------------------
  // Properties of the filter
  // ---------------------------------------------------------------------

  /** The rows of at least 16 characters, in order. */
  function LongRows(rows: seq<Row>): seq<Row>
  {
    if rows == [] then []
    else LongRows(rows[..|rows| - 1]) + (if rows[|rows| - 1].length < 16 then [] else [rows[|rows| - 1]])
  }

  /** Rows shorter than 16 characters are skipped: dropping them changes nothing. */
  lemma {:induction false} ShortRowsIgnored(rows: seq<Row>)
    ensures Parse(LongRows(rows)) == Parse(rows)
  {
    if rows != [] {
      var init := rows[..|rows| - 1];
      var last := rows[|rows| - 1];
      ShortRowsIgnored(init);
      if last.length >= 16 {
        assert (LongRows(init) + [last])[..|LongRows(init)|] == LongRows(init);
      } else {
        assert LongRows(rows) == LongRows(init);
      }
    }
  }

  /** The trade ids of the kept trades, each below or at the last kept id, strictly increasing. */
  predicate TradesBelow(events: seq<Event>, last: int)
  {
    (forall i :: 0 <= i < |events| && events[i].kind.Trade? ==> events[i].kind.id <= last)
    && (forall i, j :: 0 <= i < j < |events| && events[i].kind.Trade? && events[j].kind.Trade? ==>
          events[i].kind.id < events[j].kind.id)
  }

  /** Kept trades have strictly increasing ids, all at most the last kept id. */
  lemma {:induction false} TradeIdsIncrease(rows: seq<Row>)
    ensures TradesBelow(Parse(rows).events, Parse(rows).lastTradeId)
  {
    if rows != [] {
      var init := rows[..|rows| - 1];
      TradeIdsIncrease(init);
      var before := Parse(init);
      var after := Parse(rows);
      StepGrows(before, rows[|rows| - 1]);
      StepNewTrade(before, rows[|rows| - 1]);
      var n := |before.events|;
      forall i | 0 <= i < n
        ensures after.events[i] == before.events[i]
      {
        assert after.events[..n][i] == after.events[i];
      }
    }
  }

  /** A trade event a row adds carries the new last trade id, above the old one. */
  lemma StepNewTrade(st: Scan, row: Row)
    ensures var after := Step(st, row);
      |after.events| > |st.events| && after.events[|st.events|].kind.Trade? ==>
        after.events[|st.events|].kind.id == after.lastTradeId && after.lastTradeId > st.lastTradeId
  {
  }

  /** The bookkeeping ids only grow, and every channel once seen stays with a non-decreasing id. */
  predicate Grows(a: Scan, b: Scan)
  {
    a.lastTradeId <= b.lastTradeId && a.lastAggTradeId <= b.lastAggTradeId && a.lastBboId <= b.lastBboId
    && (forall c :: c in a.lastDepthUpdateId ==> c in b.lastDepthUpdateId && a.lastDepthUpdateId[c] <= b.lastDepthUpdateId[c])
    && a.events <= b.events
    && a.warnings <= b.warnings && a.ignored <= b.ignored && a.exceptions <= b.exceptions
  }

  /** One row never lowers an id, never forgets a channel and only appends events. */
  lemma StepGrows(st: Scan, row: Row)
    ensures Grows(st, Step(st, row))
    ensures |Step(st, row).events| <= |st.events| + 1
  {
  }

  /**
   * A depth update is kept only when its id is above its own channel's last id (0 for a new
   * channel); that channel then records the id, and the other channels keep theirs.
   */
  lemma DepthPerChannel(st: Scan, row: Row)
    requires !st.stopped && row.length >= 16 && row.stamp.Some? && row.body.Some?
    requires MessageOf(row.body.value).eventType == Some("depthUpdate")
    ensures var channel := Channel(row.body.value);
      var after := Step(st, row);
      (|after.events| > |st.events| ==>
        after.events[|st.events|].kind.DepthUpdate?
        && after.events[|st.events|].kind.updateId > DepthLast(st, channel)
        && after.lastDepthUpdateId[channel] == after.events[|st.events|].kind.updateId)
      && (forall c :: c in st.lastDepthUpdateId && c != channel ==> after.lastDepthUpdateId[c] == st.lastDepthUpdateId[c])
      && channel in after.lastDepthUpdateId
  {
  }

  /** A kept trade carries the sell side exactly when the buyer is the maker, and the header times. */
  lemma TradeEvent(st: Scan, row: Row)
    requires !st.stopped && row.length >= 16 && row.stamp.Some? && row.body.Some?
    requires MessageOf(row.body.value).eventType == Some("trade")
    ensures var msg := MessageOf(row.body.value);
      var after := Step(st, row);
      |after.events| > |st.events| ==>
        var e := after.events[|st.events|];
        msg.buyerIsMaker.Some?
        && (e.kind.side == Sell <==> msg.buyerIsMaker.value)
        && e.now == row.stamp.value * 1000
        && e.time == GetOr(msg.tradeTime, 0) * 1000000
        && e.timeE == GetOr(msg.eventTime, 0) * 1000000
  {
  }

  /**
   * A trade whose id is new moves the last trade id even when a later field is missing: the
   * row is counted as an exception, and the same id is then refused as stale.
   */
  lemma TradeIdAdvancesOnError(st: Scan, row: Row, msg: Msg)
    requires !st.stopped && row.length >= 16 && row.stamp.Some? && row.body.Some?
    requires msg == MessageOf(row.body.value)
    requires msg.eventType == Some("trade") && msg.orderType == Some("MARKET")
    requires msg.tradeId.Some? && msg.tradeId.value > st.lastTradeId && msg.price.None?
    ensures Step(st, row).lastTradeId == msg.tradeId.value
    ensures Step(st, row).events == st.events
    ensures Step(st, row).exceptions == st.exceptions + 1
    ensures Step(Step(st, row), row).events == st.events
  {
  }

  /** An unknown event type is counted as ignored, a message without a type or snapshot id as a warning. */
  lemma UnknownCounted(st: Scan, row: Row)
    requires !st.stopped && row.length >= 16 && row.stamp.Some? && row.body.Some?
    ensures var msg := MessageOf(row.body.value);
      var after := Step(st, row);
      (msg.eventType.Some? && msg.eventType.value !in {"trade", "aggTrade", "bookTicker", "depthUpdate", "forceOrder", "markPriceUpdate"} ==>
         after == st.(ignored := st.ignored + 1))
      && (msg.eventType.None? && msg.lastUpdateId.None? ==> after == st.(warnings := st.warnings + 1))
  {
  }

  /** A row whose stamp or body does not decode stops the loop: nothing after it is parsed. */
  lemma BrokenRowStops(rows: seq<Row>, bad: Row, rest: seq<Row>)
    requires bad.length >= 16 && (bad.stamp.None? || bad.body.None?)
    ensures Parse(rows + [bad] + rest).events == Parse(rows).events
  {
    var all := rows + [bad] + rest;
    var k := |rows| + 1;
    assert all[..k][..|rows|] == rows;
    assert all[..k] == rows + [bad];
    StoppedStays(all, k);
  }

  // ---------------------------------------------------------------------
  // `parse_rows`
  // ---------------------------------------------------------------------

  datatype ExchangeType = Binance | OtherExchange
  datatype AssetType = Perpetual | Spot | OtherAsset

  datatype ParseError = NotImplementedError | AssertionError

  /** `parse_rows`: only Binance perpetuals are parsed; Binance spot raises, the rest yield nothing. */
  function ParseRows(rows: seq<Row>, exchange: ExchangeType, asset: AssetType, priceMult: int, sizeMult: int): (r: Result<seq<Event>, ParseError>)
    ensures exchange != Binance ==> r == Ok([])
    ensures exchange == Binance && asset == Spot ==> r == Err(NotImplementedError)
    ensures r.Ok? && r.value != [] ==> exchange == Binance && asset == Perpetual && r.value == Parse(rows).events
  {
    if exchange != Binance then Ok([])
    else if asset == Perpetual then
      (if priceMult <= 0 || sizeMult <= 0 then Err(AssertionError) else Ok(Parse(rows).events))
    else if asset == Spot then Err(NotImplementedError)
    else Ok([])
  }
}
