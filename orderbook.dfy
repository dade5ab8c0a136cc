/**
 * The matching engine `OrderBook` of synthetic_exchange/orderbook.py, stripped of its
 * process and queue machinery: one dispatch step, the buy and sell matching loops,
 * cancellation, and the depth views.
 *
 * The model follows the code as written, including where it departs from a textbook book:
 *  - the sell path trades against the LOWEST-priced eligible bid and crosses when
 *    `sell.price >= bid.price` (the buy path's rule, not its mirror image);
 *  - matching compares against the resting order's `quantity`, never its `remaining`;
 *  - `_reduce_offer`/`_reduce_bid` decrement `_active_orders[i]`, where `i` is a position in the
 *    SIDE list, and leave the side-list entry itself unchanged;
 *  - only the sell path sets the incoming order's `state`.
 */
module OrderBooks {
  import opened Wrappers
  import opened Orders
  import opened BookLists
  import Text

  /** What `OrderEvents.on_partial_fill`/`on_fill`/`on_cancel` emit: a snapshot of the order. */
  datatype OrderEvent = PartialFill(order: Order) | Fill(order: Order) | CancelEvent(order: Order)

  /** The arguments of one `transactions.create(buyOrder, sellOrder, marketId, price, quantity)` call. */
  datatype Trade = Trade(buyOrder: Order, sellOrder: Order, marketId: int, price: real, quantity: real)

  /** Which loop runs: `_process_buy` (against the sell list) or `_process_sell` (against the buy list). */
  datatype Side = BuySide | SellSide

  /** The engine's state: the two side lists, `_active_orders`, and the event and `create` logs. */
  datatype Book = Book(
    buys: seq<Order>,
    sells: seq<Order>,
    active: seq<Order>,
    events: seq<OrderEvent>,
    trades: seq<Trade>)

  /**
   * Every order entering a side list also enters `_active_orders`, which is never shortened;
   * so a position in a side list is always a valid position in `_active_orders`.
   */
  predicate Consistent(b: Book)
  {
    |b.buys| + |b.sells| <= |b.active|
  }

  function Opposite(b: Book, side: Side): seq<Order>
  {
    if side == BuySide then b.sells else b.buys
  }

  function Own(b: Book, side: Side): seq<Order>
  {
    if side == BuySide then b.buys else b.sells
  }

  function WithOpposite(b: Book, side: Side, s: seq<Order>): Book
  {
    if side == BuySide then b.(sells := s) else b.(buys := s)
  }

  /** The incoming side of a recorded trade and the resting side it matched. */
  function Incoming(t: Trade, side: Side): Order
  {
    if side == BuySide then t.buyOrder else t.sellOrder
  }

  function Resting(t: Trade, side: Side): Order
  {
    if side == BuySide then t.sellOrder else t.buyOrder
  }

  /** The order rests: appended to `_active_orders` and to its own side list. */
  function Rest(b: Book, side: Side, o: Order): Book
  {
    if side == BuySide then b.(active := b.active + [o], buys := b.buys + [o])
    else b.(active := b.active + [o], sells := b.sells + [o])
  }

  /** The argument tuple of a `create` call; the buyer is always the buy order. */
  function TradeOf(side: Side, incoming: Order, resting: Order, marketId: int, price: real, quantity: real): (t: Trade)
    ensures Incoming(t, side) == incoming && Resting(t, side) == resting
  {
    if side == BuySide then Trade(incoming, resting, marketId, price, quantity)
    else Trade(resting, incoming, marketId, price, quantity)
  }

  /** The `create` calls made for a list of trades: all of them when the engine has a ledger, none otherwise. */
  function Logged(ts: seq<Trade>, ledger: bool): seq<Trade>
  {
    if ledger then ts else []
  }

  /** The `create` calls of one trade. */
  function Traded(side: Side, incoming: Order, resting: Order, marketId: int,
                  price: real, quantity: real, ledger: bool): seq<Trade>
  {
    Logged([TradeOf(side, incoming, resting, marketId, price, quantity)], ledger)
  }

  /**
   * `_reduce_offer`/`_reduce_bid`: find the first side entry with `id`; remove it if its
   * quantity equals `q`, otherwise decrement `active[i]` (the same POSITION in `_active_orders`).
   */
  function ReduceIn(sideList: seq<Order>, active: seq<Order>, id: int, q: real): (r: (seq<Order>, seq<Order>))
    requires |sideList| <= |active|
    ensures |r.0| <= |sideList| && |r.1| == |active|
  {
    var i := FirstIndexOfId(sideList, id);
    if i == |sideList| then (sideList, active)
    else if sideList[i].quantity == q then (WithoutFirst(sideList, id), active)
    else (sideList, active[i := active[i].(quantity := active[i].quantity - q)])
  }

  /** The incoming order after a trade leaves `rem` unfilled; only the sell path sets `state`. */
  function Progress(order: Order, side: Side, rem: real, state: State): Order
  {
    if side == SellSide then order.(remaining := rem, state := state) else order.(remaining := rem)
  }

  /** The book after `best` is consumed whole: `create`, then `_remove_offer`/`_remove_bid`. */
  function TakeWhole(b: Book, side: Side, order: Order, best: Order, marketId: int, ledger: bool): (r: Book)
    ensures Consistent(b) ==> Consistent(r)
  {
    var b1 := b.(trades := b.trades + Traded(side, order, best, marketId, best.price, best.quantity, ledger));
    WithOpposite(b1, side, WithoutFirst(Opposite(b, side), best.id))
  }

  /** The book after `q` of `best` is consumed: `create`, then `_reduce_offer`/`_reduce_bid`. */
  function TakePart(b: Book, side: Side, order: Order, best: Order, q: real, marketId: int, ledger: bool): (r: Book)
    requires Consistent(b)
    ensures Consistent(r)
  {
    var b1 := b.(trades := b.trades + Traded(side, order, best, marketId, best.price, q, ledger));
    var (s, a) := ReduceIn(Opposite(b, side), b.active, best.id, q);
    WithOpposite(b1, side, s).(active := a)
  }

  function Emit(b: Book, e: OrderEvent): Book
  {
    b.(events := b.events + [e])
  }

  /**
   * The loop trades at this iteration: some order in the opposite list `opp` belongs to another
   * agent, and the incoming price reaches the price of the first of them in price order.
   */
  predicate Crosses(opp: seq<Order>, order: Order)
  {
    var best := CheapestOther(opp, order.agentId);
    best.Some? && order.price >= best.value.price
  }

  /** The resting order the iteration trades against (the engine's sorted head, see `CheapestOtherIsBest`). */
  function BestFor(opp: seq<Order>, order: Order): Order
    requires Crosses(opp, order)
  {
    CheapestOther(opp, order.agentId).value
  }

  /** The resting order traded against is on the opposite side and belongs to another agent. */
  lemma BestForIsCounterparty(opp: seq<Order>, order: Order)
    requires Crosses(opp, order)
    ensures BestFor(opp, order) in opp && BestFor(opp, order).agentId != order.agentId
    ensures FirstIndexOfId(opp, BestFor(opp, order).id) < |opp|
  {
    CheapestOtherIn(opp, order.agentId);
    InFound(opp, BestFor(opp, order));
  }

  /** How the loop ends: the order rests with its remainder, or its last trade consumes the resting order whole or in part. */
  datatype End = Rests(order: Order) | FilledWhole | FilledPart(restingId: int, quantity: real)

  /**
   * What the loop does, read off the opposite list alone (the only part of the book it inspects):
   * the trades it makes (each one a `create` call when a ledger is present) and the events it
   * emits, in order, the opposite list after the last whole consumption, and the end.
   */
  datatype Run = Run(trades: seq<Trade>, events: seq<OrderEvent>, opposite: seq<Order>, end: End)

  /**
   * The `while True` loop of `_process_buy` (side = BuySide, `opp` the sell list) and of
   * `_process_sell` (SellSide, `opp` the buy list), from the iteration that starts with `remaining` unfilled.
   */
  function RunLoop(opp: seq<Order>, side: Side, order: Order, remaining: real, marketId: int): (r: Run)
    ensures |r.opposite| <= |opp|
    decreases |opp|
  {
    if !Crosses(opp, order) then Run([], [], opp, Rests(order.(quantity := remaining)))
    else
      var best := BestFor(opp, order);
      var fill := Fill(Progress(order, side, 0.0, Filled));
      if remaining > best.quantity then
        BestForIsCounterparty(opp, order);
        var next := Progress(order, side, remaining - best.quantity, PartialyFilled);
        var rest := RunLoop(WithoutFirst(opp, best.id), side, next, remaining - best.quantity, marketId);
        Run([TradeOf(side, order, best, marketId, best.price, best.quantity)] + rest.trades,
            [PartialFill(next)] + rest.events, rest.opposite, rest.end)
      else if remaining == best.quantity then
        Run([TradeOf(side, order, best, marketId, best.price, best.quantity)], [fill],
            WithoutFirst(opp, best.id), FilledWhole)
      else
        Run([TradeOf(side, order, best, marketId, best.price, remaining)], [fill], opp,
            FilledPart(best.id, remaining))
  }

  /** One trading iteration that leaves a remainder, followed by the rest of the loop. */
  lemma RunLoopContinues(opp: seq<Order>, side: Side, order: Order, remaining: real, marketId: int)
    requires Crosses(opp, order) && remaining > BestFor(opp, order).quantity
    ensures var best := BestFor(opp, order);
      var next := Progress(order, side, remaining - best.quantity, PartialyFilled);
      var rest := RunLoop(WithoutFirst(opp, best.id), side, next, remaining - best.quantity, marketId);
      RunLoop(opp, side, order, remaining, marketId)
      == Run([TradeOf(side, order, best, marketId, best.price, best.quantity)] + rest.trades,
             [PartialFill(next)] + rest.events, rest.opposite, rest.end)
  {
  }

  /** The iteration that fills the order: the last trade and a `fill` event, then the loop ends. */
  lemma RunLoopStops(opp: seq<Order>, side: Side, order: Order, remaining: real, marketId: int)
    requires Crosses(opp, order) && remaining <= BestFor(opp, order).quantity
    ensures var best := BestFor(opp, order);
      var whole := remaining == best.quantity;
      RunLoop(opp, side, order, remaining, marketId)
      == Run([TradeOf(side, order, best, marketId, best.price, remaining)],
             [Fill(Progress(order, side, 0.0, Filled))],
             if whole then WithoutFirst(opp, best.id) else opp,
             if whole then FilledWhole else FilledPart(best.id, remaining))
  {
  }

  /** The book once a run is applied: logs appended, opposite list replaced, then the end's own update. */
  function Apply(b: Book, side: Side, r: Run, ledger: bool): (out: Book)
    requires Consistent(b) && |r.opposite| <= |Opposite(b, side)|
    ensures Consistent(out)
  {
    var b1 := WithOpposite(b, side, r.opposite).(trades := b.trades + Logged(r.trades, ledger),
                                                 events := b.events + r.events);
    match r.end
    case Rests(o) => Rest(b1, side, o)
    case FilledWhole => b1
    case FilledPart(id, q) =>
      var (s, a) := ReduceIn(r.opposite, b.active, id, q);
      WithOpposite(b1, side, s).(active := a)
  }

  /** The book after the incoming `order` has been matched with `remaining` unfilled. */
  function MatchLoop(b: Book, side: Side, order: Order, remaining: real, marketId: int, ledger: bool): (r: Book)
    requires Consistent(b)
    ensures Consistent(r)
  {
    Apply(b, side, RunLoop(Opposite(b, side), side, order, remaining, marketId), ledger)
  }

  /** The resting branch: the order joins its side with the unfilled remainder as its quantity. */
  lemma MatchLoopRests(b: Book, side: Side, order: Order, remaining: real, marketId: int, ledger: bool)
    requires Consistent(b) && !Crosses(Opposite(b, side), order)
    ensures MatchLoop(b, side, order, remaining, marketId, ledger) == Rest(b, side, order.(quantity := remaining))
  {
    var r := RunLoop(Opposite(b, side), side, order, remaining, marketId);
    assert b.trades + Logged(r.trades, ledger) == b.trades && b.events + r.events == b.events;
  }

  /** The `remaining == best.quantity` branch: consume the resting order whole, emit `fill`, stop. */
  lemma MatchLoopFills(b: Book, side: Side, order: Order, remaining: real, marketId: int, ledger: bool)
    requires Consistent(b) && Crosses(Opposite(b, side), order)
    requires remaining == BestFor(Opposite(b, side), order).quantity
    ensures MatchLoop(b, side, order, remaining, marketId, ledger)
         == Emit(TakeWhole(b, side, order, BestFor(Opposite(b, side), order), marketId, ledger),
                 Fill(Progress(order, side, 0.0, Filled)))
  {
  }

  /** The `remaining < best.quantity` branch: reduce the resting order, emit `fill`, stop. */
  lemma MatchLoopReduces(b: Book, side: Side, order: Order, remaining: real, marketId: int, ledger: bool)
    requires Consistent(b) && Crosses(Opposite(b, side), order)
    requires remaining < BestFor(Opposite(b, side), order).quantity
    ensures MatchLoop(b, side, order, remaining, marketId, ledger)
         == Emit(TakePart(b, side, order, BestFor(Opposite(b, side), order), remaining, marketId, ledger),
                 Fill(Progress(order, side, 0.0, Filled)))
  {
  }

  /**
   * Applying a run whose first step consumed `best` whole (emitting `e`) is applying the rest of
   * the run to the book after that step.
   */
  lemma ApplyAfterWhole(b: Book, side: Side, order: Order, best: Order, marketId: int, ledger: bool,
                        e: OrderEvent, rest: Run)
    requires Consistent(b) && |rest.opposite| <= |WithoutFirst(Opposite(b, side), best.id)|
    ensures var first := TradeOf(side, order, best, marketId, best.price, best.quantity);
      Apply(b, side, Run([first] + rest.trades, [e] + rest.events, rest.opposite, rest.end), ledger)
      == Apply(Emit(TakeWhole(b, side, order, best, marketId, ledger), e), side, rest, ledger)
  {
    var first := TradeOf(side, order, best, marketId, best.price, best.quantity);
    var b' := Emit(TakeWhole(b, side, order, best, marketId, ledger), e);
    assert b'.trades + Logged(rest.trades, ledger) == b.trades + Logged([first] + rest.trades, ledger);
    assert b'.events + rest.events == b.events + ([e] + rest.events);
  }

  /**
   * The `remaining > best.quantity` branch: consume the resting order whole, emit `partial_fill`,
   * and the rest of the loop is the loop on the new book with the smaller remainder.
   */
  lemma MatchLoopContinues(b: Book, side: Side, order: Order, remaining: real, marketId: int, ledger: bool)
    requires Consistent(b) && Crosses(Opposite(b, side), order)
    requires remaining > BestFor(Opposite(b, side), order).quantity
    ensures var best := BestFor(Opposite(b, side), order);
      var next := Progress(order, side, remaining - best.quantity, PartialyFilled);
      MatchLoop(b, side, order, remaining, marketId, ledger)
      == MatchLoop(Emit(TakeWhole(b, side, order, best, marketId, ledger), PartialFill(next)),
                   side, next, remaining - best.quantity, marketId, ledger)
  {
    var opp := Opposite(b, side);
    var best := BestFor(opp, order);
    var next := Progress(order, side, remaining - best.quantity, PartialyFilled);
    var rest := RunLoop(WithoutFirst(opp, best.id), side, next, remaining - best.quantity, marketId);
    var b' := Emit(TakeWhole(b, side, order, best, marketId, ledger), PartialFill(next));
    RunLoopContinues(opp, side, order, remaining, marketId);
    ApplyAfterWhole(b, side, order, best, marketId, ledger, PartialFill(next), rest);
    assert Opposite(b', side) == WithoutFirst(opp, best.id);
  }

  /** `_process_cancel`: the cancel order's `side` picks the list; the event fires only on removal. */
  function CancelIn(b: Book, order: Order): (r: Book)
  {
    var isBuy := Text.IsWord(order.side, "buy");
    var isSell := !isBuy && Text.IsWord(order.side, "sell");
    var removed := (isBuy && HasId(b.buys, order.id)) || (isSell && HasId(b.sells, order.id));
    var b1 := if isBuy then b.(buys := WithoutFirst(b.buys, order.id))
              else if isSell then b.(sells := WithoutFirst(b.sells, order.id))
              else b;
    if removed then b1.(events := b1.events + [CancelEvent(order)]) else b1
  }

  /**
   * Cancel touches only the two side lists and the event log; it emits `cancel` exactly when it
   * removes an entry, and otherwise leaves the book as it was.
   */
  lemma CancelEmitsOnlyOnRemoval(b: Book, order: Order)
    ensures var r := CancelIn(b, order);
      r.active == b.active && r.trades == b.trades
      && (r.events == b.events + [CancelEvent(order)] <==> |r.buys| + |r.sells| + 1 == |b.buys| + |b.sells|)
      && (r.events == b.events ==> r == b)
  {
    var isBuy := Text.IsWord(order.side, "buy");
    var isSell := !isBuy && Text.IsWord(order.side, "sell");
    FirstIndexOfIdSpec(b.buys, order.id);
    FirstIndexOfIdSpec(b.sells, order.id);
    var r := CancelIn(b, order);
    if !((isBuy && HasId(b.buys, order.id)) || (isSell && HasId(b.sells, order.id))) {
      assert r == b;
    }
  }

  /** A cancel order whose `side` is neither "buy" nor "sell" (in any case) changes nothing. */
  lemma CancelOtherSide(b: Book, order: Order)
    requires !Text.IsWord(order.side, "buy") && !Text.IsWord(order.side, "sell")
    ensures CancelIn(b, order) == b
  {
  }

  /** The cancel order's `side` picks the list: a "buy" cancel never touches the sell list, and vice versa. */
  lemma CancelPicksSide(b: Book, order: Order)
    ensures Text.IsWord(order.side, "buy") ==>
      CancelIn(b, order).sells == b.sells && CancelIn(b, order).buys == WithoutFirst(b.buys, order.id)
    ensures Text.IsWord(order.side, "sell") ==>
      CancelIn(b, order).buys == b.buys && CancelIn(b, order).sells == WithoutFirst(b.sells, order.id)
  {
    assert !(Text.IsWord(order.side, "buy") && Text.IsWord(order.side, "sell"));
  }

  /** With distinct ids on each side, cancelling the same order twice is the same as cancelling it once. */
  lemma CancelTwice(b: Book, order: Order)
    requires UniqueIds(b.buys) && UniqueIds(b.sells)
    ensures CancelIn(CancelIn(b, order), order) == CancelIn(b, order)
  {
    WithoutFirstTwice(b.buys, order.id);
    WithoutFirstTwice(b.sells, order.id);
  }

  /**
   * The `create` call of the first trading iteration of `_process_buy` or `_process_sell`: the
   * cheapest eligible resting order at its own price, for the smaller of the two quantities.
   */
  function FirstTrade(b: Book, side: Side, order: Order): Trade
    requires Crosses(Opposite(b, side), order)
  {
    var best := BestFor(Opposite(b, side), order);
    var q := if order.quantity > best.quantity then best.quantity else order.quantity;
    TradeOf(side, order, best, order.marketId, best.price, q)
  }

  /**
   * `_process_buy` and `_process_sell` as written. `Transactions.create` never returns (it
   * raises at the latest when it reads `value_bought`, see `Ledger.Transactions.CreateAsWritten`),
   * and on the buy side the `assert len(transactions.transactions) > 0` after it would raise
   * too. So with a ledger the first crossing raises inside its one `create` call, before the
   * resting order is removed or reduced and before any event. The flag says whether it raised;
   * otherwise the loop runs to the end as `MatchLoop` describes.
   */
  function MatchAsWritten(b: Book, side: Side, order: Order, ledger: bool): (Book, bool)
    requires Consistent(b)
  {
    if ledger && Crosses(Opposite(b, side), order) then (b.(trades := b.trades + [FirstTrade(b, side, order)]), true)
    else (MatchLoop(b, side, order, order.quantity, order.marketId, ledger), false)
  }

  /**
   * As written, an order on a book with a ledger raises exactly when it crosses; it then leaves
   * both sides, `_active_orders` and the events as they were, with one `create` call logged,
   * whereas the intended loop emits at least one event for it. Otherwise the as-written loop is
   * the intended one.
   */
  lemma {:induction false} MatchAsWrittenDiverges(b: Book, side: Side, order: Order, ledger: bool)
    requires Consistent(b)
    ensures var (r, raised) := MatchAsWritten(b, side, order, ledger);
      (raised <==> ledger && Crosses(Opposite(b, side), order))
      && (raised ==>
            r.buys == b.buys && r.sells == b.sells && r.active == b.active && r.events == b.events
            && |r.trades| == |b.trades| + 1
            && |MatchLoop(b, side, order, order.quantity, order.marketId, ledger).events| > |b.events|)
      && (!raised ==> r == MatchLoop(b, side, order, order.quantity, order.marketId, ledger))
  {
    if ledger && Crosses(Opposite(b, side), order) {
      var run := RunLoop(Opposite(b, side), side, order, order.quantity, order.marketId);
      assert run.events != [];
      assert MatchLoop(b, side, order, order.quantity, order.marketId, ledger).events == b.events + run.events;
    }
  }

  /**
   * A book with one offer of 1 at 10.0 from agent 2, and a ledger: a buy of 1 at 10.0 from
   * agent 1 raises and leaves the offer resting, while the intended loop fills both orders.
   */
  lemma BuyWithLedgerRaises()
    ensures var offer := Order(0, Open, 1, 2, 100, "BTCUSD", "sell", 10.0, 1.0, 1.0, Some(false));
      var bid := Order(1, Open, 1, 1, 101, "BTCUSD", "buy", 10.0, 1.0, 1.0, Some(false));
      var b := Book([], [offer], [offer], [], []);
      MatchAsWritten(b, BuySide, bid, true).1
      && MatchAsWritten(b, BuySide, bid, true).0.sells == [offer]
      && MatchLoop(b, BuySide, bid, 1.0, 1, true).sells == []
      && MatchLoop(b, BuySide, bid, 1.0, 1, true).events == [Fill(bid.(remaining := 0.0))]
  {
    var offer := Order(0, Open, 1, 2, 100, "BTCUSD", "sell", 10.0, 1.0, 1.0, Some(false));
    var bid := Order(1, Open, 1, 1, 101, "BTCUSD", "buy", 10.0, 1.0, 1.0, Some(false));
    var b := Book([], [offer], [offer], [], []);
    assert [offer][1..] == [];
    assert CheapestOther([offer], 1) == Some(offer);
    MatchLoopFills(b, BuySide, bid, 1.0, 1, true);
  }

  /**
   * The same on the sell side: with one bid of 1 at 10.0 from agent 1 and a ledger, a sell of 1
   * at 10.0 from agent 2 raises inside `create` and leaves the bid resting; the intended loop
   * takes the bid and fills the sell.
   */
  lemma SellWithLedgerRaises()
    ensures var bid := Order(0, Open, 1, 1, 100, "BTCUSD", "buy", 10.0, 1.0, 1.0, Some(false));
      var ask := Order(1, Open, 1, 2, 101, "BTCUSD", "sell", 10.0, 1.0, 1.0, Some(false));
      var b := Book([bid], [], [bid], [], []);
      MatchAsWritten(b, SellSide, ask, true).1
      && MatchAsWritten(b, SellSide, ask, true).0.buys == [bid]
      && MatchLoop(b, SellSide, ask, 1.0, 1, true).buys == []
      && MatchLoop(b, SellSide, ask, 1.0, 1, true).events == [Fill(ask.(remaining := 0.0, state := Filled))]
  {
    var bid := Order(0, Open, 1, 1, 100, "BTCUSD", "buy", 10.0, 1.0, 1.0, Some(false));
    var ask := Order(1, Open, 1, 2, 101, "BTCUSD", "sell", 10.0, 1.0, 1.0, Some(false));
    var b := Book([bid], [], [bid], [], []);
    assert [bid][1..] == [];
    assert CheapestOther([bid], 2) == Some(bid);
    MatchLoopFills(b, SellSide, ask, 1.0, 1, true);
  }

  /** The dict `_do_work` stores in `_history_initial_orders` before matching. */
  datatype InitialOrder = InitialOrder(id: int, market: int, side: string, price: real, quantity: real)

  /** Why a dispatch step stops the engine process: an uncaught exception. */
  datatype Halt =
    | CancelAttributeMissing  // `order.cancel` raises AttributeError
    | SellMarketMismatch      // the `assert order.market_id == self._market_id` of `_process_sell`
    | CreateRaised            // `transactions.create`, which raises on every call

  /** What one pass of the `_do_work` loop body did with a dequeued item. */
  datatype StepOutcome = Idle | CancelHandled | Matched | InvalidSide | Halted(reason: Halt)

  class OrderBook {
    const marketId: int
    const symbol: string
    /** Whether a `Transactions` ledger was supplied; without one no `create` call is made. */
    const hasLedger: bool
    var activeOrders: seq<Order>
    var activeBuyOrders: seq<Order>
    var activeSellOrders: seq<Order>
    /** The `partial_fill`/`fill`/`cancel` emissions, in order. */
    var events: seq<OrderEvent>
    /** The `transactions.create` calls, in order. */
    var trades: seq<Trade>
    var historyInitialOrders: map<int, InitialOrder>

    function Current(): Book
      reads this
    {
      Book(activeBuyOrders, activeSellOrders, activeOrders, events, trades)
    }

    predicate Valid()
      reads this
    {
      Consistent(Current())
    }

    constructor (marketId: int, symbol: string, hasLedger: bool)
      ensures Valid()
      ensures this.marketId == marketId && this.symbol == symbol && this.hasLedger == hasLedger
      ensures activeOrders == [] && activeBuyOrders == [] && activeSellOrders == []
      ensures events == [] && trades == [] && historyInitialOrders == map[]
    {
      this.marketId := marketId;
      this.symbol := symbol;
      this.hasLedger := hasLedger;
      activeOrders := [];
      activeBuyOrders := [];
      activeSellOrders := [];
      events := [];
      trades := [];
      historyInitialOrders := map[];
    }

    /** `_remove_offer`: deletes the first sell entry with the offer's id; true iff there was one. */
    method RemoveOffer(offer: Order) returns (removed: bool)
      modifies this`activeSellOrders
      ensures removed == HasId(old(activeSellOrders), offer.id)
      ensures activeSellOrders == WithoutFirst(old(activeSellOrders), offer.id)
    {
      activeSellOrders, removed := DeleteFirst(activeSellOrders, offer.id);
    }

    /** `_remove_bid`: deletes the first buy entry with the bid's id; true iff there was one. */
    method RemoveBid(bid: Order) returns (removed: bool)
      modifies this`activeBuyOrders
      ensures removed == HasId(old(activeBuyOrders), bid.id)
      ensures activeBuyOrders == WithoutFirst(old(activeBuyOrders), bid.id)
    {
      activeBuyOrders, removed := DeleteFirst(activeBuyOrders, bid.id);
    }

    /** `_reduce_offer`: removes the offer when `q` is its whole quantity, else decrements `_active_orders[i]`. */
    method ReduceOffer(offer: Order, q: real)
      requires Valid()
      modifies this`activeSellOrders, this`activeOrders
      ensures Valid()
      ensures (activeSellOrders, activeOrders) == ReduceIn(old(activeSellOrders), old(activeOrders), offer.id, q)
    {
      var i := IndexOfId(activeSellOrders, offer.id);
      if i < |activeSellOrders| {
        if activeSellOrders[i].quantity == q {
          var _ := RemoveOffer(offer);
        } else {
          // The index comes from the sell list but decrements `_active_orders`, as in the source.
          activeOrders := activeOrders[i := activeOrders[i].(quantity := activeOrders[i].quantity - q)];
        }
      }
    }

    /** `_reduce_bid`: removes the bid when `q` is its whole quantity, else decrements `_active_orders[i]`. */
    method ReduceBid(bid: Order, q: real)
      requires Valid()
      modifies this`activeBuyOrders, this`activeOrders
      ensures Valid()
      ensures (activeBuyOrders, activeOrders) == ReduceIn(old(activeBuyOrders), old(activeOrders), bid.id, q)
    {
      var i := IndexOfId(activeBuyOrders, bid.id);
      if i < |activeBuyOrders| {
        if activeBuyOrders[i].quantity == q {
          var _ := RemoveBid(bid);
        } else {
          activeOrders := activeOrders[i := activeOrders[i].(quantity := activeOrders[i].quantity - q)];
        }
      }
    }

    /** The resting branch of both loops: `order.quantity = remaining`, then append to both lists. */
    method RestOrder(side: Side, o: Order)
      requires Valid()
      modifies this`activeOrders, this`activeBuyOrders, this`activeSellOrders
      ensures Valid()
      ensures Current() == Rest(old(Current()), side, o)
    {
      activeOrders := activeOrders + [o];
      if side == BuySide {
        activeBuyOrders := activeBuyOrders + [o];
      } else {
        activeSellOrders := activeSellOrders + [o];
      }
    }

    /** The `create` call of a trade, made only when a ledger is present. */
    method RecordTrade(side: Side, incoming: Order, resting: Order, marketId: int, price: real, q: real)
      modifies this`trades
      ensures trades == old(trades) + Traded(side, incoming, resting, marketId, price, q, hasLedger)
    {
      if hasLedger {
        if side == BuySide {
          trades := trades + [Trade(incoming, resting, marketId, price, q)];
        } else {
          trades := trades + [Trade(resting, incoming, marketId, price, q)];
        }
      }
    }

    /** A resting order consumed whole: `create`, then `_remove_offer`/`_remove_bid`. */
    method TakeWholeOf(side: Side, incoming: Order, best: Order, marketId: int) returns (removed: bool)
      requires Valid()
      modifies this`activeBuyOrders, this`activeSellOrders, this`trades
      ensures Valid()
      ensures removed == HasId(Opposite(old(Current()), side), best.id)
      ensures Current() == TakeWhole(old(Current()), side, incoming, best, marketId, hasLedger)
    {
      RecordTrade(side, incoming, best, marketId, best.price, best.quantity);
      if side == BuySide {
        removed := RemoveOffer(best);
      } else {
        removed := RemoveBid(best);
      }
    }

    /** A resting order consumed in part: `create`, then `_reduce_offer`/`_reduce_bid`. */
    method TakePartOf(side: Side, incoming: Order, best: Order, q: real, marketId: int)
      requires Valid()
      modifies this`activeOrders, this`activeBuyOrders, this`activeSellOrders, this`trades
      ensures Valid()
      ensures Current() == TakePart(old(Current()), side, incoming, best, q, marketId, hasLedger)
    {
      RecordTrade(side, incoming, best, marketId, best.price, q);
      if side == BuySide {
        ReduceOffer(best, q);
      } else {
        ReduceBid(best, q);
      }
    }

    /** The `remaining > best.quantity` branch: consume `best` whole, emit `partial_fill`, continue. */
    method PartialStep(side: Side, o: Order, remaining: real, best: Order, marketId: int)
      returns (o': Order, remaining': real)
      requires Valid()
      requires Crosses(Opposite(Current(), side), o) && best == BestFor(Opposite(Current(), side), o)
      requires remaining > best.quantity
      modifies this`activeBuyOrders, this`activeSellOrders, this`events, this`trades
      ensures Valid()
      ensures |Opposite(Current(), side)| < |Opposite(old(Current()), side)|
      ensures MatchLoop(Current(), side, o', remaining', marketId, hasLedger)
           == MatchLoop(old(Current()), side, o, remaining, marketId, hasLedger)
    {
      ghost var before := Current();
      MatchLoopContinues(before, side, o, remaining, marketId, hasLedger);
      BestForIsCounterparty(Opposite(before, side), o);
      var _ := TakeWholeOf(side, o, best, marketId);
      ghost var taken := Current();
      remaining' := remaining - best.quantity;
      o' := Progress(o, side, remaining', PartialyFilled);
      events := events + [PartialFill(o')];
      assert Current() == Emit(taken, PartialFill(o'));
    }

    /** The `remaining == best.quantity` branch: consume `best` whole, emit `fill`, break. */
    method FillStep(side: Side, o: Order, remaining: real, best: Order, marketId: int)
      requires Valid()
      requires Crosses(Opposite(Current(), side), o) && best == BestFor(Opposite(Current(), side), o)
      requires remaining == best.quantity
      modifies this`activeBuyOrders, this`activeSellOrders, this`events, this`trades
      ensures Valid()
      ensures Current() == MatchLoop(old(Current()), side, o, remaining, marketId, hasLedger)
    {
      MatchLoopFills(Current(), side, o, remaining, marketId, hasLedger);
      var _ := TakeWholeOf(side, o, best, marketId);
      events := events + [Fill(Progress(o, side, 0.0, Filled))];
    }

    /** The `remaining < best.quantity` branch: reduce `best`, emit `fill`, break. */
    method ReduceStep(side: Side, o: Order, remaining: real, best: Order, marketId: int)
      requires Valid()
      requires Crosses(Opposite(Current(), side), o) && best == BestFor(Opposite(Current(), side), o)
      requires remaining < best.quantity
      modifies this`activeOrders, this`activeBuyOrders, this`activeSellOrders, this`events, this`trades
      ensures Valid()
      ensures Current() == MatchLoop(old(Current()), side, o, remaining, marketId, hasLedger)
    {
      MatchLoopReduces(Current(), side, o, remaining, marketId, hasLedger);
      TakePartOf(side, o, best, remaining, marketId);
      events := events + [Fill(Progress(o, side, 0.0, Filled))];
    }

    /**
     * One pass of the `while True` body of `_process_buy`/`_process_sell` with `remaining` unfilled;
     * `done` is the `break`. Otherwise the loop continues from `(o', remaining')`.
     */
    method MatchStep(side: Side, o: Order, remaining: real, marketId: int)
      returns (done: bool, o': Order, remaining': real)
      requires Valid()
      modifies this`activeOrders, this`activeBuyOrders, this`activeSellOrders, this`events, this`trades
      ensures Valid()
      ensures done ==> Current() == MatchLoop(old(Current()), side, o, remaining, marketId, hasLedger)
      ensures !done ==> |Opposite(Current(), side)| < |Opposite(old(Current()), side)|
      ensures !done ==> (MatchLoop(Current(), side, o', remaining', marketId, hasLedger)
                         == MatchLoop(old(Current()), side, o, remaining, marketId, hasLedger))
    {
      o', remaining' := o, remaining;
      var opp := Opposite(Current(), side);
      CheapestOtherIsBest(opp, o.agentId);
      var eligible := Eligible(opp, o.agentId);
      if |eligible| == 0 {
        MatchLoopRests(Current(), side, o, remaining, marketId, hasLedger);
        RestOrder(side, o.(quantity := remaining));
        return true, o', remaining';
      }
      var sorted := SortByPrice(eligible, false);
      var best := sorted[0];
      if o.price < best.price {
        MatchLoopRests(Current(), side, o, remaining, marketId, hasLedger);
        RestOrder(side, o.(quantity := remaining));
        return true, o', remaining';
      }
      if remaining > best.quantity {
        o', remaining' := PartialStep(side, o, remaining, best, marketId);
        done := false;
      } else if remaining == best.quantity {
        FillStep(side, o, remaining, best, marketId);
        done := true;
      } else {
        ReduceStep(side, o, remaining, best, marketId);
        done := true;
      }
    }

    /** `_process_buy`: matches against the cheapest eligible offer until filled or resting. */
    method ProcessBuy(order: Order)
      requires Valid()
      modifies this`activeOrders, this`activeBuyOrders, this`activeSellOrders, this`events, this`trades
      ensures Valid()
      ensures Current() == MatchLoop(old(Current()), BuySide, order, order.quantity, order.marketId, hasLedger)
    {
      var o := order;
      var remaining := order.quantity;
      var done := false;
      while !done
        invariant Valid()
        invariant done ==> Current() == MatchLoop(old(Current()), BuySide, order, order.quantity, order.marketId, hasLedger)
        invariant !done ==> (MatchLoop(Current(), BuySide, o, remaining, order.marketId, hasLedger)
                             == MatchLoop(old(Current()), BuySide, order, order.quantity, order.marketId, hasLedger))
        decreases !done, |activeSellOrders|
      {
        done, o, remaining := MatchStep(BuySide, o, remaining, order.marketId);
      }
    }

    /**
     * `_process_sell`: matches against the CHEAPEST eligible bid while `sell.price >= bid.price`,
     * and sets the order's `state` as it goes.
     */
    method ProcessSell(order: Order)
      requires Valid()
      modifies this`activeOrders, this`activeBuyOrders, this`activeSellOrders, this`events, this`trades
      ensures Valid()
      ensures Current() == MatchLoop(old(Current()), SellSide, order, order.quantity, order.marketId, hasLedger)
    {
      var o := order;
      var remaining := order.quantity;
      var done := false;
      while !done
        invariant Valid()
        invariant done ==> Current() == MatchLoop(old(Current()), SellSide, order, order.quantity, order.marketId, hasLedger)
        invariant !done ==> (MatchLoop(Current(), SellSide, o, remaining, order.marketId, hasLedger)
                             == MatchLoop(old(Current()), SellSide, order, order.quantity, order.marketId, hasLedger))
        decreases !done, |activeBuyOrders|
      {
        done, o, remaining := MatchStep(SellSide, o, remaining, order.marketId);
      }
    }

    /**
     * `_process_buy` or `_process_sell` as written: with a ledger, a first iteration that
     * crosses makes its one `create` call, which raises (`halted`); otherwise the loop is
     * `ProcessBuy` or `ProcessSell`.
     */
    method ProcessAsWritten(side: Side, order: Order) returns (halted: bool)
      requires Valid()
      modifies this`activeOrders, this`activeBuyOrders, this`activeSellOrders, this`events, this`trades
      ensures Valid()
      ensures (Current(), halted) == MatchAsWritten(old(Current()), side, order, hasLedger)
    {
      var opp := if side == BuySide then activeSellOrders else activeBuyOrders;
      CheapestOtherIsBest(opp, order.agentId);
      var eligible := Eligible(opp, order.agentId);
      if hasLedger && |eligible| > 0 {
        var best := SortByPrice(eligible, false)[0];
        if order.price >= best.price {
          var q := if order.quantity > best.quantity then best.quantity else order.quantity;
          RecordTrade(side, order, best, order.marketId, best.price, q);
          return true;
        }
      }
      if side == BuySide {
        ProcessBuy(order);
      } else {
        ProcessSell(order);
      }
      halted := false;
    }

    /** `_process_cancel`: removes by id from the side the cancel order names; emits only on success. */
    method ProcessCancel(order: Order)
      modifies this`activeBuyOrders, this`activeSellOrders, this`events
      ensures Current() == CancelIn(old(Current()), order)
    {
      var removed := false;
      if Text.Lower(order.side) == "buy" {
        removed := RemoveBid(order);
      } else if Text.Lower(order.side) == "sell" {
        removed := RemoveOffer(order);
      }
      if removed {
        events := events + [CancelEvent(order)];
      }
    }

    /**
     * One pass of the `_do_work` loop body on a dequeued item (`None` when the queue yields `None`).
     * The initial-order record is written before the side is examined.
     */
    method DoWorkStep(item: Option<Order>) returns (outcome: StepOutcome)
      requires Valid()
      modifies this`activeOrders, this`activeBuyOrders, this`activeSellOrders, this`events, this`trades,
               this`historyInitialOrders
      ensures Valid()
      ensures item.None? ==> outcome == Idle && unchanged(this)
      ensures item.Some? && item.value.cancel.None? ==> outcome == Halted(CancelAttributeMissing) && unchanged(this)
      ensures item.Some? && item.value.cancel == Some(true) ==>
        outcome == CancelHandled && Current() == CancelIn(old(Current()), item.value)
        && historyInitialOrders == old(historyInitialOrders)
      ensures item.Some? && item.value.cancel == Some(false) ==>
        var o := item.value;
        historyInitialOrders == old(historyInitialOrders)[o.id := InitialOrder(o.id, marketId, o.side, o.price, o.quantity)]
        && (if Text.IsWord(o.side, "buy") then
              var (after, raised) := MatchAsWritten(old(Current()), BuySide, o, hasLedger);
              outcome == (if raised then Halted(CreateRaised) else Matched) && Current() == after
            else if Text.IsWord(o.side, "sell") && o.marketId != marketId then
              outcome == Halted(SellMarketMismatch) && Current() == old(Current())
            else if Text.IsWord(o.side, "sell") then
              var (after, raised) := MatchAsWritten(old(Current()), SellSide, o, hasLedger);
              outcome == (if raised then Halted(CreateRaised) else Matched) && Current() == after
            else
              outcome == InvalidSide && Current() == old(Current()))
    {
      if item.None? {
        return Idle;
      }
      var order := item.value;
      if order.cancel.None? {
        return Halted(CancelAttributeMissing);
      }
      if order.cancel.value {
        ProcessCancel(order);
        return CancelHandled;
      }
      historyInitialOrders := historyInitialOrders[order.id :=
        InitialOrder(order.id, marketId, order.side, order.price, order.quantity)];
      if Text.Lower(order.side) == "buy" {
        var raised := ProcessAsWritten(BuySide, order);
        outcome := if raised then Halted(CreateRaised) else Matched;
      } else if Text.Lower(order.side) == "sell" {
        if order.marketId != marketId {
          return Halted(SellMarketMismatch);
        }
        var raised := ProcessAsWritten(SellSide, order);
        outcome := if raised then Halted(CreateRaised) else Matched;
      } else {
        outcome := InvalidSide;
      }
    }
  }

  /**
   * `_do_work` builds each dequeued order with the `Order` constructor, which never sets `cancel`;
   * so the step halts on every order it builds, and the book never matches anything.
   */
  method DoWorkOnBuiltOrder(book: OrderBook, id: int, args: OrderArgs, now: int) returns (outcome: StepOutcome)
    requires book.Valid()
    modifies book`activeOrders, book`activeBuyOrders, book`activeSellOrders, book`events, book`trades,
             book`historyInitialOrders
    ensures outcome == Halted(CancelAttributeMissing) && unchanged(book)
  {
    outcome := book.DoWorkStep(Some(MakeOrder(id, args, now)));
  }
}
