/**
 * The read-only depth views of the order book (synthetic_exchange/orderbook.py): `buy_orders`
 * and `sell_orders` sort a side list stably by price and cut it with Python's `[:depth]`, and
 * `orderbook` projects each entry onto a fixed set of keys.
 */
module BookViews {
  import opened Wrappers
  import opened Orders
  import opened BookLists

  // ---------------------------------------------------------------------
  // Python slicing `s[:depth]`
  // ---------------------------------------------------------------------

  /** Where `s[:depth]` stops: a negative `depth` counts from the end, and the stop is clamped to `[0, |s|]`. */
  function SliceStop(n: nat, depth: int): nat
  {
    if depth >= 0 then (if depth <= n then depth else n)
    else if n + depth >= 0 then n + depth else 0
  }

  /** `s[:depth]` for an integer `depth`. */
  function PySlice<T>(s: seq<T>, depth: int): (r: seq<T>)
    ensures |r| <= |s| && r == s[..|r|]
    ensures 0 <= depth ==> |r| == (if depth <= |s| then depth else |s|)
    ensures depth < 0 ==> |r| == (if |s| + depth >= 0 then |s| + depth else 0)
  {
    s[..SliceStop(|s|, depth)]
  }

  /** The default `depth = -1` keeps everything but the last entry. */
  lemma DefaultDepthDropsLast<T>(s: seq<T>)
    requires s != []
    ensures PySlice(s, -1) + [s[|s| - 1]] == s
  {
    assert PySlice(s, -1) == s[..|s| - 1];
  }

  // ---------------------------------------------------------------------
  // `buy_orders` and `sell_orders`
  // ---------------------------------------------------------------------

  /** `buy_orders(depth)`: bids by ascending price (stable), cut at `depth`. */
  function BuyOrders(buys: seq<Order>, depth: int): seq<Order>
  {
    PySlice(SortByPrice(buys, false), depth)
  }

  /** `sell_orders(depth)`: asks by descending price (stable), cut at `depth`. */
  function SellOrders(sells: seq<Order>, depth: int): seq<Order>
  {
    PySlice(SortByPrice(sells, true), depth)
  }

  /** Cutting a list keeps the earliest entries of each price, in order. */
  lemma {:induction false} AtPricePrefix(s: seq<Order>, k: nat, p: real)
    requires k <= |s|
    ensures AtPrice(s[..k], p) <= AtPrice(s, p)
    decreases |s| - k
  {
    if k < |s| {
      var init := s[..|s| - 1];
      assert init[..k] == s[..k];
      AtPricePrefix(init, k, p);
      assert AtPrice(s, p) == AtPrice(init, p) + (if s[|s| - 1].price == p then [s[|s| - 1]] else []);
    } else {
      assert s[..k] == s;
    }
  }

  /** A prefix of a sorted list is sorted. */
  lemma PrefixSorted(s: seq<Order>, k: nat, descending: bool)
    requires k <= |s| && SortedBy(s, descending)
    ensures SortedBy(s[..k], descending)
  {
  }

  /** A prefix holds part of the list's entries. */
  lemma PrefixSubMultiset<T>(s: seq<T>, k: nat)
    requires k <= |s|
    ensures multiset(s[..k]) <= multiset(s)
  {
    assert s == s[..k] + s[k..];
  }

  /**
   * A depth view of a side list is ordered in its direction, holds only entries of that list,
   * and at each price shows the earliest-inserted entries first, in insertion order.
   */
  lemma {:induction false} ViewOfSide(s: seq<Order>, descending: bool, depth: int, p: real)
    ensures var v := PySlice(SortByPrice(s, descending), depth);
      SortedBy(v, descending)
      && multiset(v) <= multiset(s)
      && AtPrice(v, p) <= AtPrice(s, p)
  {
    var sorted := SortByPrice(s, descending);
    var k := SliceStop(|s|, depth);
    SortSorted(s, descending);
    PrefixSorted(sorted, k, descending);
    SortPermutes(s, descending);
    PrefixSubMultiset(sorted, k);
    SortStable(s, descending, p);
    AtPricePrefix(sorted, k, p);
  }

  /** `buy_orders` lists bids lowest price first, drawn from the buy list, stably. */
  lemma BuyOrdersView(buys: seq<Order>, depth: int, p: real)
    ensures SortedBy(BuyOrders(buys, depth), false)
    ensures multiset(BuyOrders(buys, depth)) <= multiset(buys)
    ensures AtPrice(BuyOrders(buys, depth), p) <= AtPrice(buys, p)
  {
    ViewOfSide(buys, false, depth, p);
  }

  /** `sell_orders` lists asks highest price first, drawn from the sell list, stably. */
  lemma SellOrdersView(sells: seq<Order>, depth: int, p: real)
    ensures SortedBy(SellOrders(sells, depth), true)
    ensures multiset(SellOrders(sells, depth)) <= multiset(sells)
    ensures AtPrice(SellOrders(sells, depth), p) <= AtPrice(sells, p)
  {
    ViewOfSide(sells, true, depth, p);
  }

  /**
   * With the default depth the view misses exactly one entry of the side: the last one of the
   * sorted list, so a highest bid from `buy_orders()` and a lowest ask from `sell_orders()`.
   */
  lemma {:induction false} DefaultViewMissesOne(s: seq<Order>, descending: bool)
    requires s != []
    ensures var sorted := SortByPrice(s, descending);
      var v := PySlice(sorted, -1);
      var dropped := sorted[|s| - 1];
      multiset(v) + multiset{dropped} == multiset(s)
      && (forall i :: 0 <= i < |v| ==> InOrder(v[i], dropped, descending))
  {
    var sorted := SortByPrice(s, descending);
    DefaultDepthDropsLast(sorted);
    SortPermutes(s, descending);
    SortSorted(s, descending);
  }

  /** A slice as deep as the list, or deeper, is the whole sorted list. */
  lemma DeepViewIsWhole(s: seq<Order>, descending: bool, depth: int)
    requires depth >= |s|
    ensures PySlice(SortByPrice(s, descending), depth) == SortByPrice(s, descending)
  {
  }

  // ---------------------------------------------------------------------
  // `orderbook`
  // ---------------------------------------------------------------------

  /** One entry of the snapshot: the keys `price`, `quantity` (was `remaining`), `timestamp`, `id`, `agent_id`. */
  datatype Level = Level(price: real, quantity: real, timestamp: int, id: int, agentId: int)

  datatype Snapshot = Snapshot(symbol: string, bids: seq<Level>, asks: seq<Level>)

  /** The exception a failed dictionary lookup raises. */
  datatype ViewError = KeyError(key: string)

  /**
   * `orderbook(depth)` as written. The projection keeps the attributes named in `_fields`, but an
   * order has no attribute `timestamp` (its time is `datetime`), so the line that reads
   * `item["timestamp"]` raises for the first entry of whichever side is reached non-empty.
   */
  function OrderbookAsWritten(symbol: string, buys: seq<Order>, sells: seq<Order>, depth: int): Result<Snapshot, ViewError>
  {
    if |BuyOrders(buys, depth)| > 0 then Err(KeyError("timestamp"))
    else if |SellOrders(sells, depth)| > 0 then Err(KeyError("timestamp"))
    else Ok(Snapshot(symbol, [], []))
  }

  /** As written, `orderbook` succeeds only when both depth views are empty. */
  lemma OrderbookAsWrittenFails(symbol: string, buys: seq<Order>, sells: seq<Order>, depth: int)
    ensures var r := OrderbookAsWritten(symbol, buys, sells, depth);
      (r.Ok? <==> BuyOrders(buys, depth) == [] && SellOrders(sells, depth) == [])
      && (r.Ok? ==> r.value == Snapshot(symbol, [], []))
      && (r.Err? ==> r.error == KeyError("timestamp"))
  {
  }

  /** A book with one resting bid, viewed at depth 1, makes `orderbook` raise. */
  lemma OrderbookAsWrittenRaises()
    ensures var bid := Order(0, Open, 1, 7, 100, "BTCUSD", "buy", 10.0, 2.0, 2.0, None);
      OrderbookAsWritten("BTCUSD", [bid], [], 1) == Err(KeyError("timestamp"))
  {
    var bid := Order(0, Open, 1, 7, 100, "BTCUSD", "buy", 10.0, 2.0, 2.0, None);
    assert SortByPrice([bid], false) == [bid];
    assert |BuyOrders([bid], 1)| == 1;
  }

  /** The intended projection of one order: its `datetime` supplies the timestamp. */
  function LevelOf(o: Order): (l: Level)
    ensures l.price == o.price && l.quantity == o.remaining && l.timestamp == o.datetime
    ensures l.id == o.id && l.agentId == o.agentId
  {
    Level(o.price, o.remaining, o.datetime, o.id, o.agentId)
  }

  function Levels(v: seq<Order>): (r: seq<Level>)
    ensures |r| == |v| && forall i :: 0 <= i < |v| ==> r[i] == LevelOf(v[i])
  {
    seq(|v|, i requires 0 <= i < |v| => LevelOf(v[i]))
  }

  /** `orderbook(depth)` with the timestamp taken from `datetime`. */
  function OrderbookSnapshot(symbol: string, buys: seq<Order>, sells: seq<Order>, depth: int): Snapshot
  {
    Snapshot(symbol, Levels(BuyOrders(buys, depth)), Levels(SellOrders(sells, depth)))
  }

  /**
   * The corrected snapshot lists one level per entry of each depth view, in the view's order:
   * bids by ascending price, asks by descending price, each level carrying its order's
   * remaining quantity, time, id and agent.
   */
  lemma {:induction false} OrderbookSnapshotLevels(symbol: string, buys: seq<Order>, sells: seq<Order>, depth: int)
    ensures var snap := OrderbookSnapshot(symbol, buys, sells, depth);
      var bv := BuyOrders(buys, depth);
      var sv := SellOrders(sells, depth);
      snap.symbol == symbol
      && |snap.bids| == |bv| && |snap.asks| == |sv|
      && (forall i :: 0 <= i < |bv| ==> snap.bids[i] == LevelOf(bv[i]) && bv[i] in buys)
      && (forall i :: 0 <= i < |sv| ==> snap.asks[i] == LevelOf(sv[i]) && sv[i] in sells)
      && (forall i, j :: 0 <= i < j < |snap.bids| ==> snap.bids[i].price <= snap.bids[j].price)
      && (forall i, j :: 0 <= i < j < |snap.asks| ==> snap.asks[i].price >= snap.asks[j].price)
  {
    var bv := BuyOrders(buys, depth);
    var sv := SellOrders(sells, depth);
    ViewOfSide(buys, false, depth, 0.0);
    ViewOfSide(sells, true, depth, 0.0);
    forall i | 0 <= i < |bv|
      ensures bv[i] in buys
    {
      assert bv[i] in multiset(bv);
    }
    forall i | 0 <= i < |sv|
      ensures sv[i] in sells
    {
      assert sv[i] in multiset(sv);
    }
  }
}
