/**
 * One market of the exchange (synthetic_exchange/market.py): the class-wide registry of markets,
 * the dispatch guard for incoming order events, and the price queries over the market's order
 * book and ledger.
 */
module Markets {
  import opened Wrappers
  import opened Orders
  import opened BookLists
  import opened BookViews
  import Ledger

  /** The exceptions the market's queries raise. */
  datatype MarketError = TypeError(what: string)

  // ---------------------------------------------------------------------
  // Registry: `_last_id` and `_markets`
  // ---------------------------------------------------------------------

  /** The class-wide id counter `_last_id` and the registry `_markets` it numbers. */
  class MarketRegistry {
    var next: nat
    var markets: map<int, Market>

    constructor ()
      ensures next == 0 && markets == map[]
    {
      next := 0;
      markets := map[];
    }

    /**
     * `_order_event`: an event without a `marketid`, or with one no market is registered under,
     * is only logged; otherwise the event's arguments become a new `Order` (drawing the next
     * order id, `now` standing for the clock) that goes to that market's order book.
     */
    method OrderEvent(event: OrderEventData, ids: OrderIds, now: int) returns (r: Dispatch)
      modifies ids
      ensures event.marketid.None? ==> r == MissingMarketId
      ensures event.marketid.Some? && event.marketid.value !in markets ==> r == InvalidMarketId(event.marketid.value)
      ensures r.Forwarded? <==> event.marketid.Some? && event.marketid.value in markets
      ensures r.Forwarded? ==>
        r.market == markets[event.marketid.value]
        && r.order == MakeOrder(old(ids.next), event.args, now)
        && ids.next == old(ids.next) + 1
      ensures !r.Forwarded? ==> ids.next == old(ids.next)
    {
      if event.marketid.None? {
        return MissingMarketId;
      }
      var marketId := event.marketid.value;
      if marketId !in markets {
        return InvalidMarketId(marketId);
      }
      var order := ids.NewOrder(event.args, now);
      r := Forwarded(markets[marketId], order);
    }
  }

  /** An order event as a strategy emits it: the optional `marketid` key and the order's arguments. */
  datatype OrderEventData = OrderEventData(marketid: Option<int>, args: OrderArgs)

  /** What `_order_event` does with an event. */
  datatype Dispatch = MissingMarketId | InvalidMarketId(marketId: int) | Forwarded(market: Market, order: Order)

  /** A market's fixed parameters; its order book and ledger are attached when it starts. */
  class Market {
    const symbol: string
    const id: nat
    const minPrice: real
    const maxPrice: real
    const tickSize: real
    const minQuantity: real
    const maxQuantity: real

    /**
     * `Market.__init__`: takes the next id of the class counter and registers itself under it.
     * The source's defaults are 1, 100, 1, 1 and 100 for the five parameters.
     */
    constructor (registry: MarketRegistry, symbol: string, minPrice: real, maxPrice: real,
                 tickSize: real, minQuantity: real, maxQuantity: real)
      modifies registry
      ensures this.symbol == symbol && id == old(registry.next)
      ensures this.minPrice == minPrice && this.maxPrice == maxPrice && this.tickSize == tickSize
      ensures this.minQuantity == minQuantity && this.maxQuantity == maxQuantity
      ensures registry.next == old(registry.next) + 1
      ensures registry.markets == old(registry.markets)[id := this]
    {
      this.symbol := symbol;
      id := registry.next;
      this.minPrice := minPrice;
      this.maxPrice := maxPrice;
      this.tickSize := tickSize;
      this.minQuantity := minQuantity;
      this.maxQuantity := maxQuantity;
      new;
      registry.next := registry.next + 1;
      registry.markets := registry.markets[id := this];
    }
  }

  // ---------------------------------------------------------------------
  // Price queries over the order book's side lists
  // ---------------------------------------------------------------------

  /** `get_buy_price`: the price of the first entry of `buy_orders()`, or 0.0 when it is empty. */
  function BuyPrice(buys: seq<Order>): real
  {
    var v := BuyOrders(buys, -1);
    if |v| > 0 then v[0].price else 0.0
  }

  /** `get_sell_price`: the price of the first entry of `sell_orders()`, or 0.0 when it is empty. */
  function SellPrice(sells: seq<Order>): real
  {
    var v := SellOrders(sells, -1);
    if |v| > 0 then v[0].price else 0.0
  }

  /** The first entry of a sorted side list is an entry of the list and is in order with every entry. */
  lemma SortedHead(s: seq<Order>, descending: bool)
    requires |s| >= 1
    ensures SortByPrice(s, descending)[0] in s
    ensures forall i :: 0 <= i < |s| ==> InOrder(SortByPrice(s, descending)[0], s[i], descending)
  {
    var sorted := SortByPrice(s, descending);
    SortSorted(s, descending);
    SortPermutes(s, descending);
    assert sorted[0] in multiset(s);
    forall i | 0 <= i < |s|
      ensures InOrder(sorted[0], s[i], descending)
    {
      assert s[i] in multiset(sorted);
      var j :| 0 <= j < |sorted| && sorted[j] == s[i];
      if j > 0 {
        assert InOrder(sorted[0], sorted[j], descending);
      }
    }
  }

  /**
   * Because the default depth drops the last entry of the ascending view, the buy price is 0.0
   * with fewer than two bids, and otherwise the lowest bid of the whole side.
   */
  lemma BuyPriceIsLowestBid(buys: seq<Order>)
    ensures |buys| <= 1 ==> BuyPrice(buys) == 0.0
    ensures |buys| >= 2 ==>
      (exists i :: 0 <= i < |buys| && buys[i].price == BuyPrice(buys))
      && forall i :: 0 <= i < |buys| ==> BuyPrice(buys) <= buys[i].price
  {
    if |buys| >= 2 {
      SortedHead(buys, false);
      assert BuyOrders(buys, -1)[0] == SortByPrice(buys, false)[0];
    }
  }

  /** Symmetrically, the sell price is 0.0 with fewer than two asks and otherwise the highest ask. */
  lemma SellPriceIsHighestAsk(sells: seq<Order>)
    ensures |sells| <= 1 ==> SellPrice(sells) == 0.0
    ensures |sells| >= 2 ==>
      (exists i :: 0 <= i < |sells| && sells[i].price == SellPrice(sells))
      && forall i :: 0 <= i < |sells| ==> SellPrice(sells) >= sells[i].price
  {
    if |sells| >= 2 {
      SortedHead(sells, true);
      assert SellOrders(sells, -1)[0] == SortByPrice(sells, true)[0];
    }
  }

  /** `get_spread`: sell price minus buy price when both are positive, else 0.0. */
  function Spread(buys: seq<Order>, sells: seq<Order>): real
  {
    var sell := SellPrice(sells);
    var buy := BuyPrice(buys);
    if sell > 0.0 && buy > 0.0 then sell - buy else 0.0
  }

  /** `get_mid_price`: the average of two positive prices, the positive one of the two, or `None`. */
  function MidPrice(buys: seq<Order>, sells: seq<Order>): Option<real>
  {
    var sell := SellPrice(sells);
    var buy := BuyPrice(buys);
    if sell > 0.0 && buy > 0.0 then Some((sell + buy) / 2.0)
    else if sell > 0.0 && buy <= 0.0 then Some(sell)
    else if sell <= 0.0 && buy > 0.0 then Some(buy)
    else None
  }

  /**
   * With at least two entries on each side and positive prices, the spread is the distance from
   * the lowest bid to the highest ask, so it bounds the distance between any ask and any bid.
   */
  lemma SpreadSpansBook(buys: seq<Order>, sells: seq<Order>)
    requires |buys| >= 2 && |sells| >= 2
    requires forall i :: 0 <= i < |buys| ==> buys[i].price > 0.0
    requires forall i :: 0 <= i < |sells| ==> sells[i].price > 0.0
    ensures Spread(buys, sells) == SellPrice(sells) - BuyPrice(buys)
    ensures forall i, j :: 0 <= i < |sells| && 0 <= j < |buys| ==> sells[i].price - buys[j].price <= Spread(buys, sells)
  {
    BuyPriceIsLowestBid(buys);
    SellPriceIsHighestAsk(sells);
  }

  /** A spread of 0.0 means a side is missing or the two prices coincide. */
  lemma SpreadZero(buys: seq<Order>, sells: seq<Order>)
    ensures Spread(buys, sells) == 0.0 <==>
      SellPrice(sells) <= 0.0 || BuyPrice(buys) <= 0.0 || SellPrice(sells) == BuyPrice(buys)
  {
  }

  /**
   * The mid price is missing only when neither side has a positive price; when both do it sits
   * half a spread above the buy price, between the two prices.
   */
  lemma MidPriceAndSpread(buys: seq<Order>, sells: seq<Order>)
    ensures MidPrice(buys, sells).None? <==> SellPrice(sells) <= 0.0 && BuyPrice(buys) <= 0.0
    ensures SellPrice(sells) > 0.0 && BuyPrice(buys) > 0.0 ==>
      MidPrice(buys, sells) == Some(BuyPrice(buys) + Spread(buys, sells) / 2.0)
    ensures MidPrice(buys, sells).Some? ==> MidPrice(buys, sells).value > 0.0
  {
  }

  /** With one bid or none, only the ask side can give a mid price. */
  lemma MidPriceOfThinBook(buys: seq<Order>, sells: seq<Order>)
    requires |buys| <= 1
    ensures MidPrice(buys, sells) == (if SellPrice(sells) > 0.0 then Some(SellPrice(sells)) else None)
  {
    BuyPriceIsLowestBid(buys);
  }

  // ---------------------------------------------------------------------
  // `get_last_price`
  // ---------------------------------------------------------------------

  /**
   * `get_last_price` as written: `history` is a method of the ledger, so `len` is applied to a
   * bound method and raises `TypeError` before either branch is reached.
   */
  function LastPriceAsWritten(history: seq<Ledger.Transaction>, minPrice: real, maxPrice: real): (r: Result<real, MarketError>)
  {
    Err(TypeError("object of type 'method' has no len()"))
  }

  /** Whatever the ledger holds, the as-written query raises. */
  lemma LastPriceAsWrittenRaises(history: seq<Ledger.Transaction>, minPrice: real, maxPrice: real)
    ensures LastPriceAsWritten(history, minPrice, maxPrice).Err?
  {
  }

  /**
   * `get_last_price` reading the ledger's history list: the price of the last transaction, or
   * `maxPrice - minPrice / 2.0` (division binds tighter) while there is none.
   */
  function LastPrice(history: seq<Ledger.Transaction>, minPrice: real, maxPrice: real): real
  {
    if |history| > 0 then history[|history| - 1].price else maxPrice - minPrice / 2.0
  }

  /** Once a transaction is recorded, the last price is its price, whatever came before. */
  lemma LastPriceAfterTrade(history: seq<Ledger.Transaction>, t: Ledger.Transaction, minPrice: real, maxPrice: real)
    ensures LastPrice(history + [t], minPrice, maxPrice) == t.price
  {
  }

  /**
   * Without transactions the fallback is not the midpoint of the price range: with the default
   * range 1..100 it is 99.5, not 50.5.
   */
  lemma LastPriceFallback(minPrice: real, maxPrice: real)
    ensures LastPrice([], minPrice, maxPrice) == maxPrice - minPrice / 2.0
    ensures LastPrice([], 1.0, 100.0) == 99.5
    ensures LastPrice([], minPrice, maxPrice) == (minPrice + maxPrice) / 2.0 <==> maxPrice == 2.0 * minPrice
  {
  }
}
