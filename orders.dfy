/** Orders as the matching engine sees them (synthetic_exchange/order.py). */
module Orders {
  import opened Wrappers

  /** `Order.State`; the member name `PartialyFilled` keeps the source's spelling. */
  datatype State = Open | PartialyFilled | Filled | Cancelled | Failed

  /**
   * The attributes of an `Order` object. `cancel` is not assigned by the constructor:
   * the dispatch step reads it, so it is `None` until a caller sets the attribute.
   */
  datatype Order = Order(
    id: int,
    state: State,
    marketId: int,
    agentId: int,
    datetime: int,
    symbol: string,
    side: string,
    price: real,
    quantity: real,
    remaining: real,
    cancel: Option<bool>)

  /** The keyword arguments `Order(**kwargs)` reads; `dateTime` may be absent. */
  datatype OrderArgs = OrderArgs(
    marketId: int,
    agentId: int,
    dateTime: Option<int>,
    symbol: string,
    side: string,
    price: real,
    quantity: real)

  /** The order the constructor builds when the shared counter yields `id` and the clock reads `now`. */
  function MakeOrder(id: int, args: OrderArgs, now: int): (o: Order)
    ensures o.id == id && o.state == Open && o.cancel == None
    ensures o.datetime == (if args.dateTime.Some? then args.dateTime.value else now)
    ensures o.marketId == args.marketId && o.agentId == args.agentId && o.symbol == args.symbol
    ensures o.side == args.side && o.price == args.price && o.quantity == args.quantity
    ensures o.remaining == o.quantity
  {
    var datetime := match args.dateTime
      case Some(t) => t
      case None => now;
    Order(id, Open, args.marketId, args.agentId, datetime, args.symbol, args.side,
          args.price, args.quantity, args.quantity, None)
  }

  /** The class-wide `itertools.count()` that numbers orders, starting at 0. */
  class OrderIds {
    var next: nat

    constructor ()
      ensures next == 0
    {
      next := 0;
    }

    /** `Order.__init__`: draws the next id and builds the order; `now` stands for `utcnow()`. */
    method NewOrder(args: OrderArgs, now: int) returns (o: Order)
      modifies this
      ensures o == MakeOrder(old(next), args, now)
      ensures next == old(next) + 1
      ensures o.id < next
    {
      o := MakeOrder(next, args, now);
      next := next + 1;
    }
  }
}
