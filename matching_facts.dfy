/**
 * What the matching loop of synthetic_exchange/orderbook.py guarantees, proved about `RunLoop`:
 * who trades with whom and at what price, how much, in which order, which events fire, and how
 * the opposite list shrinks. Each lemma speaks of `r`, the run of the loop on its inputs, and
 * follows the loop's three cases: no crossing, an iteration that leaves a remainder, the last fill.
 */
module MatchingFacts {
  import opened Orders
  import opened BookLists
  import opened OrderBooks

  /**
   * A trade made for `order` against the opposite list `opp`: no self-trade, the resting order was
   * in the list when the order arrived, the trade crosses, it executes at the resting order's price,
   * and the incoming party is `order` (possibly with its `remaining`/`state` advanced).
   */
  predicate SoundTrade(opp: seq<Order>, side: Side, order: Order, m: int, t: Trade)
  {
    var resting, incoming := Resting(t, side), Incoming(t, side);
    resting in opp && resting.agentId != order.agentId
    && t.price == resting.price && resting.price <= order.price && t.marketId == m
    && incoming.id == order.id && incoming.agentId == order.agentId && incoming.price == order.price
  }

  /** Every trade of a list is sound for `order` against `opp`. */
  predicate AllSound(opp: seq<Order>, side: Side, order: Order, m: int, ts: seq<Trade>)
  {
    forall i :: 0 <= i < |ts| ==> SoundTrade(opp, side, order, m, ts[i])
  }

  /** Trades sound for a later iteration against a sublist are sound for the order as it arrived. */
  lemma SoundWiden(opp: seq<Order>, opp': seq<Order>, side: Side, order: Order, next: Order, m: int,
                   first: Trade, ts: seq<Trade>)
    requires forall x :: x in opp' ==> x in opp
    requires next.id == order.id && next.agentId == order.agentId && next.price == order.price
    requires SoundTrade(opp, side, order, m, first) && AllSound(opp', side, next, m, ts)
    ensures AllSound(opp, side, order, m, [first] + ts)
  {
    var s := [first] + ts;
    forall i | 0 < i < |s|
      ensures SoundTrade(opp, side, order, m, s[i])
    {
      assert s[i] == ts[i - 1];
      assert SoundTrade(opp', side, next, m, ts[i - 1]);
    }
  }

  /** Every trade of one incoming order is sound. */
  lemma {:induction false} TradesSound(opp: seq<Order>, side: Side, order: Order, remaining: real, m: int, r: Run)
    requires r == RunLoop(opp, side, order, remaining, m)
    ensures AllSound(opp, side, order, m, r.trades)
    decreases |opp|
  {
    if !Crosses(opp, order) {
      assert r.trades == [];
    } else if remaining > BestFor(opp, order).quantity {
      var best := BestFor(opp, order);
      var next := Progress(order, side, remaining - best.quantity, PartialyFilled);
      var opp' := WithoutFirst(opp, best.id);
      BestForIsCounterparty(opp, order);
      var rest := RunLoop(opp', side, next, remaining - best.quantity, m);
      var first := TradeOf(side, order, best, m, best.price, best.quantity);
      assert r.trades == [first] + rest.trades;
      TradesSound(opp', side, next, remaining - best.quantity, m, rest);
      WithoutFirstSubset(opp, best.id);
      SoundWiden(opp, opp', side, order, next, m, first, rest.trades);
    } else {
      BestForIsCounterparty(opp, order);
      var best := BestFor(opp, order);
      assert r.trades == [TradeOf(side, order, best, m, best.price, remaining)];
    }
  }

  /** Each iteration makes one trade (one `create` call when a ledger is present) and emits one event. */
  lemma {:induction false} OneTradePerEvent(opp: seq<Order>, side: Side, order: Order, remaining: real, m: int, r: Run)
    requires r == RunLoop(opp, side, order, remaining, m)
    ensures |r.trades| == |r.events|
    decreases |opp|
  {
    if Crosses(opp, order) && remaining > BestFor(opp, order).quantity {
      var best := BestFor(opp, order);
      var next := Progress(order, side, remaining - best.quantity, PartialyFilled);
      BestForIsCounterparty(opp, order);
      var rest := RunLoop(WithoutFirst(opp, best.id), side, next, remaining - best.quantity, m);
      assert |r.trades| == 1 + |rest.trades| && |r.events| == 1 + |rest.events|;
      OneTradePerEvent(WithoutFirst(opp, best.id), side, next, remaining - best.quantity, m, rest);
    }
  }

  /** No trade of the list is at a better price for the incoming order than an earlier one. */
  predicate PricesAscending(ts: seq<Trade>)
  {
    forall i, j :: 0 <= i < j < |ts| ==> ts[i].price <= ts[j].price
  }

  lemma AscendingCons(x: Trade, ts: seq<Trade>)
    requires PricesAscending(ts) && forall i :: 0 <= i < |ts| ==> x.price <= ts[i].price
    ensures PricesAscending([x] + ts)
  {
    var s := [x] + ts;
    forall i, j | 0 <= i < j < |s|
      ensures s[i].price <= s[j].price
    {
      assert s[j] == ts[j - 1];
      if i > 0 {
        assert s[i] == ts[i - 1];
      }
    }
  }

  /** The trades after the first are against orders of the same list, so none is cheaper than the first. */
  lemma FirstIsCheapest(opp: seq<Order>, side: Side, order: Order, m: int, best: Order, next: Order, ts: seq<Trade>)
    requires Crosses(opp, order) && best == BestFor(opp, order)
    requires next.agentId == order.agentId
    requires AllSound(WithoutFirst(opp, best.id), side, next, m, ts)
    ensures forall i :: 0 <= i < |ts| ==> best.price <= ts[i].price
  {
    WithoutFirstSubset(opp, best.id);
    CheapestOtherMin(opp, order.agentId);
    forall i | 0 <= i < |ts|
      ensures best.price <= ts[i].price
    {
      assert SoundTrade(WithoutFirst(opp, best.id), side, next, m, ts[i]);
      assert Resting(ts[i], side) in opp;
    }
  }

  /** Price priority: the trades of one incoming order come cheapest first. */
  lemma {:induction false} PricesNeverImprove(opp: seq<Order>, side: Side, order: Order, remaining: real, m: int, r: Run)
    requires r == RunLoop(opp, side, order, remaining, m)
    ensures PricesAscending(r.trades)
    decreases |opp|
  {
    if !Crosses(opp, order) {
      assert r.trades == [];
    } else if remaining > BestFor(opp, order).quantity {
      var best := BestFor(opp, order);
      var next := Progress(order, side, remaining - best.quantity, PartialyFilled);
      var opp' := WithoutFirst(opp, best.id);
      BestForIsCounterparty(opp, order);
      var rest := RunLoop(opp', side, next, remaining - best.quantity, m);
      var first := TradeOf(side, order, best, m, best.price, best.quantity);
      assert r.trades == [first] + rest.trades;
      PricesNeverImprove(opp', side, next, remaining - best.quantity, m, rest);
      TradesSound(opp', side, next, remaining - best.quantity, m, rest);
      FirstIsCheapest(opp, side, order, m, best, next, rest.trades);
      AscendingCons(first, rest.trades);
    } else {
      var best := BestFor(opp, order);
      assert |r.trades| == 1;
    }
  }

  /** The quantities of a list of trades, added up. */
  function SumQuantity(ts: seq<Trade>): real
  {
    if ts == [] then 0.0 else ts[0].quantity + SumQuantity(ts[1..])
  }

  lemma SumCons(x: Trade, ts: seq<Trade>)
    ensures SumQuantity([x] + ts) == x.quantity + SumQuantity(ts)
  {
    assert ([x] + ts)[1..] == ts;
  }

  /** What the order rests with: its remainder when it rests, nothing when it fills. */
  function Unfilled(e: End): real
  {
    if e.Rests? then e.order.quantity else 0.0
  }

  /**
   * Conservation: the traded quantities plus the quantity the order rests with
   * add up to the quantity the loop started with.
   */
  lemma {:induction false} QuantityConserved(opp: seq<Order>, side: Side, order: Order, remaining: real, m: int, r: Run)
    requires r == RunLoop(opp, side, order, remaining, m)
    ensures SumQuantity(r.trades) + Unfilled(r.end) == remaining
    decreases |opp|
  {
    if !Crosses(opp, order) {
      assert r.trades == [] && r.end == Rests(order.(quantity := remaining));
    } else if remaining > BestFor(opp, order).quantity {
      var best := BestFor(opp, order);
      var next := Progress(order, side, remaining - best.quantity, PartialyFilled);
      BestForIsCounterparty(opp, order);
      var rest := RunLoop(WithoutFirst(opp, best.id), side, next, remaining - best.quantity, m);
      var first := TradeOf(side, order, best, m, best.price, best.quantity);
      assert r.trades == [first] + rest.trades && r.end == rest.end;
      QuantityConserved(WithoutFirst(opp, best.id), side, next, remaining - best.quantity, m, rest);
      SumCons(first, rest.trades);
    } else {
      var best := BestFor(opp, order);
      assert r.trades == [TradeOf(side, order, best, m, best.price, remaining)] && !r.end.Rests?;
      SumCons(r.trades[0], []);
    }
  }

  function Min(a: real, b: real): real
  {
    if a <= b then a else b
  }

  /** Each trade takes the smaller of what the incoming order still has and what the resting order offers. */
  predicate TakesSmaller(side: Side, ts: seq<Trade>)
  {
    forall i :: 0 <= i < |ts| ==> ts[i].quantity == Min(Incoming(ts[i], side).remaining, Resting(ts[i], side).quantity)
  }

  /** Every trade takes the smaller quantity, given that the order's `remaining` is what the loop starts with. */
  lemma {:induction false} TradeQuantities(opp: seq<Order>, side: Side, order: Order, remaining: real, m: int, r: Run)
    requires order.remaining == remaining
    requires r == RunLoop(opp, side, order, remaining, m)
    ensures TakesSmaller(side, r.trades)
    decreases |opp|
  {
    if !Crosses(opp, order) {
      assert r.trades == [];
    } else if remaining > BestFor(opp, order).quantity {
      var best := BestFor(opp, order);
      var next := Progress(order, side, remaining - best.quantity, PartialyFilled);
      BestForIsCounterparty(opp, order);
      var rest := RunLoop(WithoutFirst(opp, best.id), side, next, remaining - best.quantity, m);
      var first := TradeOf(side, order, best, m, best.price, best.quantity);
      assert r.trades == [first] + rest.trades;
      TradeQuantities(WithoutFirst(opp, best.id), side, next, remaining - best.quantity, m, rest);
      TakesSmallerCons(side, first, rest.trades);
    } else {
      var best := BestFor(opp, order);
      var last := TradeOf(side, order, best, m, best.price, remaining);
      assert r.trades == [last] + [];
      TakesSmallerCons(side, last, []);
    }
  }

  lemma TakesSmallerCons(side: Side, x: Trade, ts: seq<Trade>)
    requires TakesSmaller(side, ts)
    requires x.quantity == Min(Incoming(x, side).remaining, Resting(x, side).quantity)
    ensures TakesSmaller(side, [x] + ts)
  {
    var s := [x] + ts;
    forall i | 0 < i < |s|
      ensures s[i].quantity == Min(Incoming(s[i], side).remaining, Resting(s[i], side).quantity)
    {
      assert s[i] == ts[i - 1];
    }
  }

  /** Every event but the last is a `partial_fill` that leaves something unfilled. */
  predicate EarlyPartial(es: seq<OrderEvent>)
  {
    forall i :: 0 <= i < |es| - 1 ==> es[i].PartialFill? && es[i].order.remaining > 0.0
  }

  lemma EarlyPartialCons(e: OrderEvent, es: seq<OrderEvent>)
    requires EarlyPartial(es) && e.PartialFill? && e.order.remaining > 0.0
    ensures EarlyPartial([e] + es)
  {
    var s := [e] + es;
    forall i | 0 < i < |s| - 1
      ensures s[i].PartialFill? && s[i].order.remaining > 0.0
    {
      assert s[i] == es[i - 1];
    }
  }

  /** The events of the loop: `partial_fill`s with something left, then possibly one final event. */
  lemma {:induction false} EarlyEventsArePartial(opp: seq<Order>, side: Side, order: Order, remaining: real, m: int, r: Run)
    requires r == RunLoop(opp, side, order, remaining, m)
    ensures EarlyPartial(r.events)
    decreases |opp|
  {
    if !Crosses(opp, order) {
      assert r.events == [];
    } else if remaining > BestFor(opp, order).quantity {
      var best := BestFor(opp, order);
      var next := Progress(order, side, remaining - best.quantity, PartialyFilled);
      BestForIsCounterparty(opp, order);
      var rest := RunLoop(WithoutFirst(opp, best.id), side, next, remaining - best.quantity, m);
      assert r.events == [PartialFill(next)] + rest.events;
      EarlyEventsArePartial(WithoutFirst(opp, best.id), side, next, remaining - best.quantity, m, rest);
      EarlyPartialCons(PartialFill(next), rest.events);
    } else {
      assert |r.events| == 1;
    }
  }

  /**
   * How the last event reflects the end of the loop: when the order rests, no event fired or the
   * last is a `partial_fill` with something left; otherwise the last is a `fill` with nothing left.
   */
  predicate EndsWith(es: seq<OrderEvent>, end: End)
  {
    if end.Rests? then es == [] || (es[|es| - 1].PartialFill? && es[|es| - 1].order.remaining > 0.0)
    else es != [] && es[|es| - 1].Fill? && es[|es| - 1].order.remaining == 0.0
  }

  lemma EndsWithCons(e: OrderEvent, es: seq<OrderEvent>, end: End)
    requires EndsWith(es, end) && e.PartialFill? && e.order.remaining > 0.0
    ensures EndsWith([e] + es, end)
  {
    if es != [] {
      assert ([e] + es)[|es|] == es[|es| - 1];
    }
  }

  /**
   * The last event decides how the loop ended (`partial_fill` and `fill` being distinct, the order
   * rests exactly when no event fired or the last was a `partial_fill`).
   */
  lemma {:induction false} LastEventDecides(opp: seq<Order>, side: Side, order: Order, remaining: real, m: int, r: Run)
    requires r == RunLoop(opp, side, order, remaining, m)
    ensures EndsWith(r.events, r.end)
    decreases |opp|
  {
    if !Crosses(opp, order) {
      assert r.events == [] && r.end.Rests?;
    } else if remaining > BestFor(opp, order).quantity {
      var best := BestFor(opp, order);
      var next := Progress(order, side, remaining - best.quantity, PartialyFilled);
      BestForIsCounterparty(opp, order);
      var rest := RunLoop(WithoutFirst(opp, best.id), side, next, remaining - best.quantity, m);
      assert r.events == [PartialFill(next)] + rest.events && r.end == rest.end;
      LastEventDecides(WithoutFirst(opp, best.id), side, next, remaining - best.quantity, m, rest);
      EndsWithCons(PartialFill(next), rest.events, rest.end);
    } else {
      assert r.events == [Fill(Progress(order, side, 0.0, Filled))] && !r.end.Rests?;
    }
  }

  /**
   * Every event carries the incoming order; on the sell path with the state PartialyFilled/Filled
   * the loop sets, on the buy path with the state the order arrived with.
   */
  predicate CarryOrder(side: Side, order: Order, es: seq<OrderEvent>)
  {
    forall i :: 0 <= i < |es| ==>
      (es[i].order.id == order.id
       && es[i].order.state == (if side == BuySide then order.state else if es[i].PartialFill? then PartialyFilled else Filled))
  }

  lemma CarryOrderCons(side: Side, order: Order, next: Order, es: seq<OrderEvent>)
    requires next.id == order.id
    requires next.state == (if side == BuySide then order.state else PartialyFilled)
    requires CarryOrder(side, next, es)
    ensures CarryOrder(side, order, [PartialFill(next)] + es)
  {
    var s := [PartialFill(next)] + es;
    forall i | 0 < i < |s|
      ensures s[i].order.id == order.id
      ensures s[i].order.state == (if side == BuySide then order.state else if s[i].PartialFill? then PartialyFilled else Filled)
    {
      assert s[i] == es[i - 1];
    }
  }

  lemma {:induction false} EventsCarryOrder(opp: seq<Order>, side: Side, order: Order, remaining: real, m: int, r: Run)
    requires r == RunLoop(opp, side, order, remaining, m)
    ensures CarryOrder(side, order, r.events)
    decreases |opp|
  {
    if !Crosses(opp, order) {
      assert r.events == [];
    } else if remaining > BestFor(opp, order).quantity {
      var best := BestFor(opp, order);
      var next := Progress(order, side, remaining - best.quantity, PartialyFilled);
      BestForIsCounterparty(opp, order);
      var rest := RunLoop(WithoutFirst(opp, best.id), side, next, remaining - best.quantity, m);
      assert r.events == [PartialFill(next)] + rest.events;
      EventsCarryOrder(WithoutFirst(opp, best.id), side, next, remaining - best.quantity, m, rest);
      CarryOrderCons(side, order, next, rest.events);
    } else {
      assert r.events == [Fill(Progress(order, side, 0.0, Filled))];
    }
  }

  /**
   * Every non-final iteration deletes exactly one entry from the opposite list, and a final
   * whole fill deletes one more: the list loses one entry per event except a partial final fill.
   */
  lemma {:induction false} OppositeShrinks(opp: seq<Order>, side: Side, order: Order, remaining: real, m: int, r: Run)
    requires r == RunLoop(opp, side, order, remaining, m)
    ensures |opp| - |r.opposite| == |r.events| - (if r.end.FilledPart? then 1 else 0)
    decreases |opp|
  {
    if Crosses(opp, order) {
      var best := BestFor(opp, order);
      BestForIsCounterparty(opp, order);
      if remaining > best.quantity {
        var next := Progress(order, side, remaining - best.quantity, PartialyFilled);
        var rest := RunLoop(WithoutFirst(opp, best.id), side, next, remaining - best.quantity, m);
        assert |r.events| == 1 + |rest.events| && r.opposite == rest.opposite && r.end == rest.end;
        OppositeShrinks(WithoutFirst(opp, best.id), side, next, remaining - best.quantity, m, rest);
      }
    }
  }

  /**
   * The order rests exactly when it is not filled, and then it is appended to its own side
   * (and to `_active_orders`) with the unfilled remainder as its quantity; the other side keeps
   * only the orders the loop did not consume.
   */
  lemma RestsWithRemainder(b: Book, side: Side, order: Order, remaining: real, m: int, ledger: bool)
    requires Consistent(b)
    ensures var r := RunLoop(Opposite(b, side), side, order, remaining, m);
      var after := MatchLoop(b, side, order, remaining, m, ledger);
      (r.end.Rests? ==> Own(after, side) == Own(b, side) + [r.end.order] && after.active == b.active + [r.end.order])
      && (!r.end.Rests? ==> Own(after, side) == Own(b, side) && |after.active| == |b.active|)
      && after.trades == b.trades + Logged(r.trades, ledger) && after.events == b.events + r.events
  {
  }
}
