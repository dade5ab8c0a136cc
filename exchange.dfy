/**
 * The exchange (synthetic_exchange/exchange.py): builds its markets from a configuration and
 * answers symbol-keyed queries by forwarding them to the market's order book.
 */
module Exchanges {
  import opened Wrappers
  import opened Text
  import opened Orders
  import opened OrderBooks
  import opened BookViews
  import Markets

  /** The exceptions that escape the exchange's constructor and queries. */
  datatype ExchangeError = AssertionError | UnboundLocalError(name: string)

  /** The strategy types the exchange knows. */
  datatype AgentKind = RandomNormal | RandomUniform

  /**
   * One entry of a market's `agents` configuration, `None` standing for a missing key;
   * `numbers` says whether the six numeric keys (`initialPrice` to `maxQuantity`) are all present.
   */
  datatype AgentConf = AgentConf(agentId: Option<int>, kind: Option<string>, numbers: bool)

  /**
   * One entry of `markets`, `None` standing for a missing key; `numbers` says whether the six
   * numeric keys are all present.
   */
  datatype MarketConf = MarketConf(symbol: Option<string>, marketId: Option<int>, numbers: bool, agents: Option<seq<AgentConf>>)

  /** A strategy the exchange builds for one of its markets. */
  datatype Trader = Trader(kind: AgentKind, id: int, marketId: int, symbol: string)

  // ---------------------------------------------------------------------
  // Agents of one market
  // ---------------------------------------------------------------------

  /** The strategy type named by a configuration's `type`, compared in lower case. */
  function KindOf(kind: string): Option<AgentKind>
  {
    if Lower(kind) == "randomnormal" then Some(RandomNormal)
    else if Lower(kind) == "randomuniform" then Some(RandomUniform)
    else None
  }

  lemma {:induction false} LowerIdempotent(s: string)
    ensures Lower(Lower(s)) == Lower(s)
  {
    forall i | 0 <= i < |s|
      ensures Lower(Lower(s))[i] == Lower(s)[i]
    {
      var c := s[i];
      assert LowerChar(LowerChar(c)) == LowerChar(c);
    }
  }

  /** The type match ignores case: a name and its lower-case form select the same strategy. */
  lemma KindIgnoresCase(kind: string)
    ensures KindOf(Lower(kind)) == KindOf(kind)
  {
    LowerIdempotent(kind);
  }

  /**
   * The strategy one agent entry yields, or `None` when the entry is skipped: a missing key is
   * logged, an unknown type warned about, and an empty symbol fails the strategy's own check
   * (synthetic_exchange/strategy/agent.py:17); each is caught by the per-agent handler.
   */
  function AgentOf(conf: AgentConf, marketId: int, symbol: string): Option<Trader>
  {
    if conf.agentId.None? || conf.kind.None? || !conf.numbers then None
    else match KindOf(conf.kind.value)
      case None => None
      case Some(k) => if symbol == [] then None else Some(Trader(k, conf.agentId.value, marketId, symbol))
  }

  /** The market's agent map after the inner loop: each built strategy filed under its id. */
  function AgentsOf(confs: seq<AgentConf>, marketId: int, symbol: string): (r: map<int, Trader>)
    ensures forall id :: id in r ==> r[id].id == id && r[id].marketId == marketId && r[id].symbol == symbol
    ensures r != map[] ==> symbol != []
  {
    if confs == [] then map[]
    else
      var m := AgentsOf(confs[..|confs| - 1], marketId, symbol);
      match AgentOf(confs[|confs| - 1], marketId, symbol)
      case None => m
      case Some(t) => m[t.id := t]
  }

  /** An id is filed exactly when some entry builds a strategy with that id; the others are skipped. */
  lemma {:induction false} AgentsOfKeys(confs: seq<AgentConf>, marketId: int, symbol: string, id: int)
    ensures id in AgentsOf(confs, marketId, symbol) <==>
      exists i :: 0 <= i < |confs| && AgentOf(confs[i], marketId, symbol).Some? && confs[i].agentId == Some(id)
  {
    if confs != [] {
      var init := confs[..|confs| - 1];
      var a := AgentOf(confs[|confs| - 1], marketId, symbol);
      AgentsOfKeys(init, marketId, symbol, id);
      if id in AgentsOf(confs, marketId, symbol) {
        if !(a.Some? && a.value.id == id) {
          var i :| 0 <= i < |init| && AgentOf(init[i], marketId, symbol).Some? && init[i].agentId == Some(id);
          assert confs[i] == init[i];
        }
      } else {
        forall i | 0 <= i < |confs| && AgentOf(confs[i], marketId, symbol).Some?
          ensures confs[i].agentId != Some(id)
        {
          if i < |init| {
            assert confs[i] == init[i];
          }
        }
      }
    }
  }

  /** The inner loop of the constructor over a market's agent entries. */
  method BuildAgents(confs: seq<AgentConf>, marketId: int, symbol: string) returns (agents: map<int, Trader>)
    ensures agents == AgentsOf(confs, marketId, symbol)
  {
    agents := map[];
    var i := 0;
    while i < |confs|
      invariant 0 <= i <= |confs|
      invariant agents == AgentsOf(confs[..i], marketId, symbol)
    {
      assert confs[..i + 1][..i] == confs[..i];
      var a := AgentOf(confs[i], marketId, symbol);
      if a.Some? {
        agents := agents[a.value.id := a.value];
      }
      i := i + 1;
    }
    assert confs[..i] == confs;
  }

  // ---------------------------------------------------------------------
  // The market loop of the constructor
  // ---------------------------------------------------------------------

  /** The maps the constructor fills; `built` gives, for each market id with an order book, its symbol. */
  datatype Registry = Registry(
    symbolToMarketId: map<string, int>,
    marketIdToSymbol: map<int, string>,
    agents: map<int, map<int, Trader>>,
    built: map<int, string>)

  /** The symbol, market id and numeric keys are present, so both maps are written. */
  predicate Keyed(c: MarketConf)
  {
    c.symbol.Some? && c.marketId.Some? && c.numbers
  }

  /** The `agents` key is present as well, so the market's order book is built. */
  predicate Complete(c: MarketConf)
  {
    Keyed(c) && c.agents.Some?
  }

  /**
   * One iteration of the market loop. A missing key stops the iteration at the lookup that
   * fails; what was written before it stays, so a market without `agents` keeps its symbol
   * entries and an empty agent map but gets no order book.
   */
  function Step(reg: Registry, c: MarketConf): Registry
  {
    if !Keyed(c) then reg
    else
      var s := c.symbol.value;
      var id := c.marketId.value;
      var written := Registry(reg.symbolToMarketId[s := id], reg.marketIdToSymbol[id := s],
                              reg.agents[id := map[]], reg.built);
      if c.agents.None? then written
      else written.(agents := written.agents[id := AgentsOf(c.agents.value, id, s)], built := reg.built[id := s])
  }

  /** The registry after the loop, each failing entry logged and skipped. */
  function Build(confs: seq<MarketConf>): Registry
  {
    if confs == [] then Registry(map[], map[], map[], map[])
    else Step(Build(confs[..|confs| - 1]), confs[|confs| - 1])
  }

  /** A symbol is mapped exactly when some entry that reaches the map writes names it. */
  lemma {:induction false} SymbolKeys(confs: seq<MarketConf>, s: string)
    ensures s in Build(confs).symbolToMarketId <==> exists i :: 0 <= i < |confs| && Keyed(confs[i]) && confs[i].symbol == Some(s)
  {
    if confs != [] {
      var init := confs[..|confs| - 1];
      var c := confs[|confs| - 1];
      SymbolKeys(init, s);
      if s in Build(confs).symbolToMarketId {
        if !(Keyed(c) && c.symbol == Some(s)) {
          var i :| 0 <= i < |init| && Keyed(init[i]) && init[i].symbol == Some(s);
          assert confs[i] == init[i];
        }
      } else {
        forall i | 0 <= i < |confs| && Keyed(confs[i])
          ensures confs[i].symbol != Some(s)
        {
          if i < |init| {
            assert confs[i] == init[i];
          }
        }
      }
    }
  }

  /** A market id is mapped to a symbol and an agent map exactly when some entry that reaches the map writes names it. */
  lemma {:induction false} MarketIdKeys(confs: seq<MarketConf>, id: int)
    ensures id in Build(confs).marketIdToSymbol <==> exists i :: 0 <= i < |confs| && Keyed(confs[i]) && confs[i].marketId == Some(id)
    ensures id in Build(confs).agents <==> id in Build(confs).marketIdToSymbol
  {
    if confs != [] {
      var init := confs[..|confs| - 1];
      var c := confs[|confs| - 1];
      MarketIdKeys(init, id);
      if id in Build(confs).marketIdToSymbol {
        if !(Keyed(c) && c.marketId == Some(id)) {
          var i :| 0 <= i < |init| && Keyed(init[i]) && init[i].marketId == Some(id);
          assert confs[i] == init[i];
        }
      } else {
        forall i | 0 <= i < |confs| && Keyed(confs[i])
          ensures confs[i].marketId != Some(id)
        {
          if i < |init| {
            assert confs[i] == init[i];
          }
        }
      }
    }
  }

  /** A market gets an order book exactly when some complete entry names its id. */
  lemma {:induction false} BuiltKeys(confs: seq<MarketConf>, id: int)
    ensures id in Build(confs).built <==> exists i :: 0 <= i < |confs| && Complete(confs[i]) && confs[i].marketId == Some(id)
  {
    if confs != [] {
      var init := confs[..|confs| - 1];
      var c := confs[|confs| - 1];
      BuiltKeys(init, id);
      if id in Build(confs).built {
        if !(Complete(c) && c.marketId == Some(id)) {
          var i :| 0 <= i < |init| && Complete(init[i]) && init[i].marketId == Some(id);
          assert confs[i] == init[i];
        }
      } else {
        forall i | 0 <= i < |confs| && Complete(confs[i])
          ensures confs[i].marketId != Some(id)
        {
          if i < |init| {
            assert confs[i] == init[i];
          }
        }
      }
    }
  }

  /** The two lookup maps point into each other, and every built market is named. */
  predicate Linked(r: Registry)
  {
    (forall s :: s in r.symbolToMarketId ==> r.symbolToMarketId[s] in r.marketIdToSymbol)
    && (forall id :: id in r.marketIdToSymbol ==> r.marketIdToSymbol[id] in r.symbolToMarketId)
    && (forall id :: id in r.built ==> id in r.marketIdToSymbol)
  }

  /** Whatever the entries, the constructor leaves the lookup maps linked. */
  lemma {:induction false} BuildLinked(confs: seq<MarketConf>)
    ensures Linked(Build(confs))
  {
    if confs != [] {
      var init := confs[..|confs| - 1];
      var c := confs[|confs| - 1];
      BuildLinked(init);
      var before := Build(init);
      var r := Build(confs);
      assert r == Step(before, c);
      if Keyed(c) {
        forall id | id in r.built
          ensures id in r.marketIdToSymbol
        {
          if id != c.marketId.value {
            assert id in before.built;
          }
        }
        forall s | s in r.symbolToMarketId
          ensures r.symbolToMarketId[s] in r.marketIdToSymbol
        {
          if s != c.symbol.value {
            assert r.symbolToMarketId[s] == before.symbolToMarketId[s];
          }
        }
        forall id | id in r.marketIdToSymbol
          ensures r.marketIdToSymbol[id] in r.symbolToMarketId
        {
          if id != c.marketId.value {
            assert r.marketIdToSymbol[id] == before.marketIdToSymbol[id];
          }
        }
      }
    }
  }

  /** No two entries that reach the map writes share a symbol or a market id. */
  predicate UniqueKeys(confs: seq<MarketConf>)
  {
    forall i, j :: 0 <= i < j < |confs| && Keyed(confs[i]) && Keyed(confs[j]) ==>
      confs[i].symbol != confs[j].symbol && confs[i].marketId != confs[j].marketId
  }

  lemma UniqueInit(confs: seq<MarketConf>)
    requires confs != [] && UniqueKeys(confs)
    ensures UniqueKeys(confs[..|confs| - 1])
  {
    var init := confs[..|confs| - 1];
    forall i, j | 0 <= i < j < |init| && Keyed(init[i]) && Keyed(init[j])
      ensures init[i].symbol != init[j].symbol && init[i].marketId != init[j].marketId
    {
      assert init[i] == confs[i] && init[j] == confs[j];
    }
  }

  /** With unique symbols and ids, each entry that reaches the map writes is filed under its own keys. */
  lemma {:induction false} BuildValues(confs: seq<MarketConf>, k: nat)
    requires UniqueKeys(confs) && k < |confs| && Keyed(confs[k])
    ensures var r := Build(confs);
      var s := confs[k].symbol.value;
      var id := confs[k].marketId.value;
      s in r.symbolToMarketId && r.symbolToMarketId[s] == id
      && id in r.marketIdToSymbol && r.marketIdToSymbol[id] == s
  {
    var n := |confs| - 1;
    if k < n {
      var init := confs[..n];
      UniqueInit(confs);
      assert init[k] == confs[k];
      BuildValues(init, k);
    }
  }

  /** Each lookup map undoes the other. */
  predicate Inverse(r: Registry)
  {
    (forall s :: s in r.symbolToMarketId ==>
      r.symbolToMarketId[s] in r.marketIdToSymbol && r.marketIdToSymbol[r.symbolToMarketId[s]] == s)
    && (forall id :: id in r.marketIdToSymbol ==>
      r.marketIdToSymbol[id] in r.symbolToMarketId && r.symbolToMarketId[r.marketIdToSymbol[id]] == id)
  }

  /** With unique symbols and ids the two lookup maps are inverse to each other. */
  lemma {:induction false} BuildInverse(confs: seq<MarketConf>)
    requires UniqueKeys(confs)
    ensures Inverse(Build(confs))
  {
    if confs != [] {
      var init := confs[..|confs| - 1];
      var c := confs[|confs| - 1];
      UniqueInit(confs);
      BuildInverse(init);
      if Keyed(c) {
        var s := c.symbol.value;
        var id := c.marketId.value;
        SymbolKeys(init, s);
        MarketIdKeys(init, id);
        forall i | 0 <= i < |init| && Keyed(init[i])
          ensures init[i].symbol != Some(s) && init[i].marketId != Some(id)
        {
          assert confs[i] == init[i];
        }
        assert s !in Build(init).symbolToMarketId && id !in Build(init).marketIdToSymbol;
      }
    }
  }

  // ---------------------------------------------------------------------
  // The market loop as written
  // ---------------------------------------------------------------------

  /** Some entry has bound the loop variables `symbol` and `market_id`. */
  predicate MarketIdBound(confs: seq<MarketConf>)
  {
    confs != [] && (MarketIdBound(confs[..|confs| - 1])
      || (confs[|confs| - 1].symbol.Some? && confs[|confs| - 1].marketId.Some?))
  }

  /**
   * One iteration of the market loop as written. `Transactions(agents=...)` omits the required
   * `marketId` argument and raises `TypeError`, which the handler logs; so after the agent map
   * is written the iteration stops, and no ledger, order book or market is ever stored.
   */
  function StepAsWritten(reg: Registry, c: MarketConf): (r: Registry)
    ensures r.built == reg.built
  {
    Step(reg, c).(built := reg.built)
  }

  /**
   * The market loop as written. Each entry goes as `StepAsWritten` says. The handler's log
   * line reads `market_id` (and `symbol`); when the failing entry lacks `symbol` or `marketId`
   * and no earlier entry has bound `market_id`, the handler itself raises `UnboundLocalError`
   * and the constructor aborts.
   */
  function BuildAsWritten(confs: seq<MarketConf>): Result<Registry, ExchangeError>
  {
    if confs == [] then Ok(Registry(map[], map[], map[], map[]))
    else
      var init := confs[..|confs| - 1];
      var c := confs[|confs| - 1];
      var r := BuildAsWritten(init);
      if r.Err? then r
      else if (c.symbol.None? || c.marketId.None?) && !MarketIdBound(init) then Err(UnboundLocalError("market_id"))
      else Ok(StepAsWritten(r.value, c))
  }

  /** An entry that lacks `symbol` or `marketId` before any entry has bound `market_id`. */
  predicate AbortsAt(confs: seq<MarketConf>, k: nat)
    requires k < |confs|
  {
    (confs[k].symbol.None? || confs[k].marketId.None?) && !MarketIdBound(confs[..k])
  }

  /**
   * The as-written loop aborts exactly when some entry lacking `symbol` or `marketId` comes
   * before every entry that has both; when it does not abort it fills the lookup and agent maps
   * as `Build` does, but builds no market at all.
   */
  lemma {:induction false} BuildAsWrittenAborts(confs: seq<MarketConf>)
    ensures BuildAsWritten(confs).Err? <==> exists k :: 0 <= k < |confs| && AbortsAt(confs, k)
    ensures BuildAsWritten(confs).Ok? ==> BuildAsWritten(confs).value == Build(confs).(built := map[])
  {
    if confs != [] {
      var n := |confs| - 1;
      var init := confs[..n];
      BuildAsWrittenAborts(init);
      forall k | 0 <= k < n
        ensures AbortsAt(confs, k) == AbortsAt(init, k)
      {
        assert confs[..k] == init[..k];
      }
      if BuildAsWritten(init).Err? {
        var k :| 0 <= k < n && AbortsAt(init, k);
        assert AbortsAt(confs, k);
      } else if AbortsAt(confs, n) {
        assert BuildAsWritten(confs).Err?;
      } else {
        assert BuildAsWritten(confs) == Ok(StepAsWritten(Build(init).(built := map[]), confs[n]));
        forall k | 0 <= k < |confs|
          ensures !AbortsAt(confs, k)
        {
        }
      }
    }
  }

  /** A first entry without a symbol aborts the constructor and loses the valid entry after it. */
  lemma FirstEntryWithoutSymbolAborts()
    ensures var bad := MarketConf(None, Some(1), true, Some([]));
      var good := MarketConf(Some("BTCUSD"), Some(2), true, Some([]));
      BuildAsWritten([bad, good]) == Err(UnboundLocalError("market_id"))
      && "BTCUSD" in Build([bad, good]).symbolToMarketId
  {
    var bad := MarketConf(None, Some(1), true, Some([]));
    var good := MarketConf(Some("BTCUSD"), Some(2), true, Some([]));
    assert [bad, good][..1] == [bad];
    assert [bad][..0] == [];
    assert !MarketIdBound([]);
    assert BuildAsWritten([bad]) == Err(UnboundLocalError("market_id"));
    assert Build([bad]) == Registry(map[], map[], map[], map[]);
  }

  // ---------------------------------------------------------------------
  // The exchange
  // ---------------------------------------------------------------------

  class Exchange {
    const id: int
    const name: string
    var symbolToMarketId: map<string, int>
    var marketIdToSymbol: map<int, string>
    var agents: map<int, map<int, Trader>>
    /** The order book behind each market; the price and depth queries read only it. */
    var markets: map<int, OrderBook>

    /**
     * `Exchange.__init__` over the configuration's `exchangeId`, `exchange` and `markets`
     * entries, with the ledger built as intended: each complete market entry gets a fresh,
     * empty order book with a ledger. As written no entry gets one (`StepAsWritten`,
     * `AsWrittenQueriesRaise`).
     */
    constructor (id: int, name: string, confs: seq<MarketConf>)
      ensures this.id == id && this.name == name
      ensures symbolToMarketId == Build(confs).symbolToMarketId
      ensures marketIdToSymbol == Build(confs).marketIdToSymbol
      ensures agents == Build(confs).agents
      ensures markets.Keys == Build(confs).built.Keys
      ensures forall k :: k in markets ==>
        fresh(markets[k]) && markets[k].marketId == k && markets[k].symbol == Build(confs).built[k]
        && markets[k].activeBuyOrders == [] && markets[k].activeSellOrders == [] && markets[k].hasLedger
    {
      this.id := id;
      this.name := name;
      new;
      var reg := Registry(map[], map[], map[], map[]);
      var books: map<int, OrderBook> := map[];
      var i := 0;
      while i < |confs|
        invariant 0 <= i <= |confs|
        invariant reg == Build(confs[..i])
        invariant books.Keys == reg.built.Keys
        invariant forall k :: k in books ==>
          fresh(books[k]) && books[k].marketId == k && books[k].symbol == reg.built[k]
          && books[k].activeBuyOrders == [] && books[k].activeSellOrders == [] && books[k].hasLedger
      {
        assert confs[..i + 1][..i] == confs[..i];
        var c := confs[i];
        if Keyed(c) {
          var s := c.symbol.value;
          var mid := c.marketId.value;
          reg := Registry(reg.symbolToMarketId[s := mid], reg.marketIdToSymbol[mid := s],
                          reg.agents[mid := map[]], reg.built);
          if c.agents.Some? {
            var built := BuildAgents(c.agents.value, mid, s);
            var book := new OrderBook(mid, s, true);
            reg := reg.(agents := reg.agents[mid := built], built := reg.built[mid := s]);
            books := books[mid := book];
          }
        }
        i := i + 1;
      }
      assert confs[..i] == confs;
      symbolToMarketId := reg.symbolToMarketId;
      marketIdToSymbol := reg.marketIdToSymbol;
      agents := reg.agents;
      markets := books;
    }

    /**
     * `best_bid`: 0.0 for an unknown symbol; a known symbol whose market was never built fails
     * the assertion; otherwise the market's buy price, which is 0.0 or a resting bid's price.
     */
    function BestBid(symbol: string): (r: Result<real, ExchangeError>)
      reads this, markets.Values
      ensures symbol !in symbolToMarketId ==> r == Ok(0.0)
      ensures r.Err? <==> symbol in symbolToMarketId && symbolToMarketId[symbol] !in markets
      ensures r.Ok? && r.value != 0.0 ==>
        symbol in symbolToMarketId
        && var buys := markets[symbolToMarketId[symbol]].activeBuyOrders;
        (exists i :: 0 <= i < |buys| && buys[i].price == r.value)
        && forall i :: 0 <= i < |buys| ==> r.value <= buys[i].price
    {
      if symbol !in symbolToMarketId then Ok(0.0)
      else if symbolToMarketId[symbol] !in markets then Err(AssertionError)
      else
        var buys := markets[symbolToMarketId[symbol]].activeBuyOrders;
        Markets.BuyPriceIsLowestBid(buys);
        Ok(Markets.BuyPrice(buys))
    }

    /**
     * `best_ask`: 0.0 for an unknown symbol; a known symbol whose market was never built fails
     * the assertion; otherwise the market's sell price, which is 0.0 or a resting ask's price.
     */
    function BestAsk(symbol: string): (r: Result<real, ExchangeError>)
      reads this, markets.Values
      ensures symbol !in symbolToMarketId ==> r == Ok(0.0)
      ensures r.Err? <==> symbol in symbolToMarketId && symbolToMarketId[symbol] !in markets
      ensures r.Ok? && r.value != 0.0 ==>
        symbol in symbolToMarketId
        && var sells := markets[symbolToMarketId[symbol]].activeSellOrders;
        (exists i :: 0 <= i < |sells| && sells[i].price == r.value)
        && forall i :: 0 <= i < |sells| ==> r.value >= sells[i].price
    {
      if symbol !in symbolToMarketId then Ok(0.0)
      else if symbolToMarketId[symbol] !in markets then Err(AssertionError)
      else
        var sells := markets[symbolToMarketId[symbol]].activeSellOrders;
        Markets.SellPriceIsHighestAsk(sells);
        Ok(Markets.SellPrice(sells))
    }

    /**
     * `orderbook`: `None` (the empty dictionary) for an unknown symbol; a known symbol whose
     * market was never built fails the assertion; otherwise the market's depth snapshot.
     */
    function Orderbook(symbol: string, depth: int): (r: Result<Option<Snapshot>, ExchangeError>)
      reads this, markets.Values
      ensures r == Ok(None) <==> symbol !in symbolToMarketId
      ensures r.Err? <==> symbol in symbolToMarketId && symbolToMarketId[symbol] !in markets
      ensures r.Ok? && r.value.Some? ==>
        symbol in symbolToMarketId
        && var book := markets[symbolToMarketId[symbol]];
        r.value.value.symbol == book.symbol
        && (forall i :: 0 <= i < |r.value.value.bids| ==>
          exists j :: 0 <= j < |book.activeBuyOrders| && r.value.value.bids[i] == LevelOf(book.activeBuyOrders[j]))
        && (forall i :: 0 <= i < |r.value.value.asks| ==>
          exists j :: 0 <= j < |book.activeSellOrders| && r.value.value.asks[i] == LevelOf(book.activeSellOrders[j]))
    {
      if symbol !in symbolToMarketId then Ok(None)
      else if symbolToMarketId[symbol] !in markets then Err(AssertionError)
      else
        var book := markets[symbolToMarketId[symbol]];
        OrderbookSnapshotLevels(book.symbol, book.activeBuyOrders, book.activeSellOrders, depth);
        Ok(Some(OrderbookSnapshot(book.symbol, book.activeBuyOrders, book.activeSellOrders, depth)))
    }

    /** `symbols`: the keys of the symbol map, as a set. */
    function Symbols(): set<string>
      reads this
    {
      symbolToMarketId.Keys
    }

    /** A symbol is listed exactly when its lookups do not fall back to the defaults. */
    lemma SymbolsAreLookups(symbol: string, depth: int)
      ensures symbol !in Symbols() <==> Orderbook(symbol, depth) == Ok(None)
      ensures symbol !in Symbols() ==> BestBid(symbol) == Ok(0.0) && BestAsk(symbol) == Ok(0.0)
    {
    }
  }

  /**
   * After construction from entries with unique symbols and ids, every listed symbol names a
   * market whose symbol maps back to it, and every complete entry is answered by its own book.
   */
  lemma ConstructedLookups(e: Exchange, confs: seq<MarketConf>, k: nat)
    requires e.symbolToMarketId == Build(confs).symbolToMarketId
    requires e.marketIdToSymbol == Build(confs).marketIdToSymbol
    requires e.markets.Keys == Build(confs).built.Keys
    requires UniqueKeys(confs)
    requires k < |confs| && Complete(confs[k])
    ensures confs[k].symbol.value in e.Symbols()
    ensures e.symbolToMarketId[confs[k].symbol.value] == confs[k].marketId.value
    ensures e.BestBid(confs[k].symbol.value).Ok? && e.BestAsk(confs[k].symbol.value).Ok?
  {
    var s := confs[k].symbol.value;
    var id := confs[k].marketId.value;
    BuildValues(confs, k);
    BuiltKeys(confs, id);
  }

  /**
   * As written, the constructor stores no market, so on an exchange built from entries that do
   * not abort it, every listed symbol (those of the entries that reach the map writes) fails
   * the `assert market_id in self._markets.keys()` of `best_bid`, `best_ask` and `orderbook`.
   */
  lemma AsWrittenQueriesRaise(e: Exchange, confs: seq<MarketConf>, symbol: string, depth: int)
    requires BuildAsWritten(confs).Ok?
    requires e.symbolToMarketId == BuildAsWritten(confs).value.symbolToMarketId
    requires e.markets.Keys == BuildAsWritten(confs).value.built.Keys
    ensures symbol in e.Symbols() <==> exists i :: 0 <= i < |confs| && Keyed(confs[i]) && confs[i].symbol == Some(symbol)
    ensures symbol in e.Symbols() ==>
      e.BestBid(symbol) == Err(AssertionError) && e.BestAsk(symbol) == Err(AssertionError)
      && e.Orderbook(symbol, depth) == Err(AssertionError)
  {
    BuildAsWrittenAborts(confs);
    SymbolKeys(confs, symbol);
  }

  /**
   * One complete entry for "BTCUSD" with market id 1: as written the symbol is listed but its
   * market is never built, where the intended constructor builds it.
   */
  lemma OneMarketNeverBuilt()
    ensures var c := MarketConf(Some("BTCUSD"), Some(1), true, Some([]));
      BuildAsWritten([c]).Ok?
      && "BTCUSD" in BuildAsWritten([c]).value.symbolToMarketId
      && BuildAsWritten([c]).value.built == map[]
      && Build([c]).built == map[1 := "BTCUSD"]
  {
    var c := MarketConf(Some("BTCUSD"), Some(1), true, Some([]));
    assert [c][..0] == [];
  }
}
