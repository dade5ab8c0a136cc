/** The trade ledger (synthetic_exchange/transaction.py). */
module Ledger {
  import opened Wrappers
  import opened Orders
  import opened AgentRecords
  import opened AgentRegistry

  /** A recorded trade; `datetime` is the later of the two orders' times. */
  datatype Transaction = Transaction(
    id: nat,
    datetime: int,
    marketId: int,
    buyOrder: Order,
    sellOrder: Order,
    price: real,
    quantity: real)

  /** The exceptions the ledger raises. */
  datatype LedgerError = AssertionError(what: string) | AttributeError(name: string) | IndexError

  function Max(a: int, b: int): int
  {
    if a >= b then a else b
  }

  /** The class-wide counters of `Transaction`: `_count` and the id source `_last_id`. */
  class TransactionIds {
    var count: nat
    var next: nat

    constructor ()
      ensures count == 0 && next == 0
    {
      count := 0;
      next := 0;
    }

    /**
     * `Transaction.__init__`: both orders must belong to `marketId` (asserted before anything
     * changes); then the counters advance and the transaction takes the next id.
     */
    method New(buyOrder: Order, sellOrder: Order, marketId: int, price: real, quantity: real)
      returns (r: Result<Transaction, LedgerError>)
      modifies this
      ensures r.Ok? <==> buyOrder.marketId == marketId && sellOrder.marketId == marketId
      ensures r.Err? ==> r.error == AssertionError("market_id") && count == old(count) && next == old(next)
      ensures r.Ok? ==>
        count == old(count) + 1 && next == old(next) + 1
        && r.value == Transaction(old(next), Max(buyOrder.datetime, sellOrder.datetime), marketId,
                                  buyOrder, sellOrder, price, quantity)
    {
      if buyOrder.marketId != marketId || sellOrder.marketId != marketId {
        return Err(AssertionError("market_id"));
      }
      count := count + 1;
      var id := next;
      next := next + 1;
      r := Ok(Transaction(id, Max(buyOrder.datetime, sellOrder.datetime), marketId,
                          buyOrder, sellOrder, price, quantity));
    }
  }

  /** A transaction's time is that of the later of its two orders. */
  lemma TransactionTime(buyOrder: Order, sellOrder: Order)
    ensures var t := Max(buyOrder.datetime, sellOrder.datetime);
      t >= buyOrder.datetime && t >= sellOrder.datetime
      && (t == buyOrder.datetime || t == sellOrder.datetime)
  {
  }

  // ---------------------------------------------------------------------
  // `calculate_profit`
  // ---------------------------------------------------------------------

  /** The volume-weighted average price of `quantity` units worth `value`, or 0 when nothing traded. */
  function Vwap(value: real, quantity: real): real
  {
    if quantity > 0.0 then value / quantity else 0.0
  }

  /** `calculate_profit` on an agent's four aggregates for one market. */
  function Profit(valueSold: real, quantitySold: real, valueBought: real, quantityBought: real): real
  {
    var q := if quantityBought < quantitySold then quantityBought else quantitySold;
    q * (Vwap(valueSold, quantitySold) - Vwap(valueBought, quantityBought))
  }

  /** With nothing sold or nothing bought there is no realised profit. */
  lemma ProfitWithoutRoundTrip(valueSold: real, quantitySold: real, valueBought: real, quantityBought: real)
    requires quantitySold >= 0.0 && quantityBought >= 0.0
    requires quantitySold == 0.0 || quantityBought == 0.0
    ensures Profit(valueSold, quantitySold, valueBought, quantityBought) == 0.0
  {
  }

  /** When as much was sold as bought, the realised profit is proceeds minus cost. */
  lemma ProfitOfClosedPosition(valueSold: real, valueBought: real, quantity: real)
    requires quantity > 0.0
    ensures Profit(valueSold, quantity, valueBought, quantity) == valueSold - valueBought
  {
    calc {
      Profit(valueSold, quantity, valueBought, quantity);
      quantity * (valueSold / quantity - valueBought / quantity);
      quantity * (valueSold / quantity) - quantity * (valueBought / quantity);
      valueSold - valueBought;
    }
  }

  /**
   * The realised profit is positive exactly when the average selling price beats the average
   * buying price, and it scales with the matched quantity.
   */
  lemma ProfitSign(valueSold: real, quantitySold: real, valueBought: real, quantityBought: real)
    requires quantitySold > 0.0 && quantityBought > 0.0
    ensures var p := Profit(valueSold, quantitySold, valueBought, quantityBought);
      (p > 0.0 <==> valueSold / quantitySold > valueBought / quantityBought)
      && (p == 0.0 <==> valueSold / quantitySold == valueBought / quantityBought)
  {
    var q := if quantityBought < quantitySold then quantityBought else quantitySold;
    var d := valueSold / quantitySold - valueBought / quantityBought;
    assert Profit(valueSold, quantitySold, valueBought, quantityBought) == q * d;
    assert q > 0.0;
    if d > 0.0 {
      assert q * d > 0.0;
    } else if d < 0.0 {
      assert q * d < 0.0;
    }
  }

  /** `Transaction.calculate_profit(agent, marketId)`. */
  function CalculateProfit(agent: Agent, marketId: int): real
    reads agent
    requires agent.Trades(marketId)
  {
    var r := agent.records[marketId];
    Profit(r.valueSold, r.quantitySold, r.valueBought, r.quantityBought)
  }

  /** What reading `value_bought` raises: the property returns the misspelled `_value_bougth`. */
  const MisspelledValueBought: LedgerError := LedgerError.AttributeError("_value_bougth")

  /**
   * `calculate_profit` as written on an agent's record. The `value_bought` property reads
   * `_value_bougth`, which `Agent` never sets, so an agent that has bought in the market raises
   * `AttributeError`; one that has not can only show a profit of zero.
   */
  function ProfitAsWritten(r: Record): (p: Result<real, LedgerError>)
    ensures p.Err? <==> r.quantityBought > 0.0
    ensures p.Err? ==> p.error == MisspelledValueBought
    ensures p.Ok? && r.quantityBought == 0.0 && r.quantitySold >= 0.0 ==> p.value == 0.0
  {
    if r.quantityBought > 0.0 then Err(MisspelledValueBought)
    else Ok(Profit(r.valueSold, r.quantitySold, r.valueBought, r.quantityBought))
  }

  // ---------------------------------------------------------------------
  // `Transactions`
  // ---------------------------------------------------------------------

  /** A row of `_history_list`: id, time and price of a transaction. */
  datatype PriceRow = PriceRow(id: nat, time: int, price: real)

  /** A row of an agent's history: transaction id, and position and profit before the trade. */
  datatype AgentRow = AgentRow(transactionId: nat, position: real, profit: real)

  /** Appends `row` to the list filed under `key`, starting an empty list when there is none. */
  function AppendRow(m: map<int, seq<AgentRow>>, key: int, row: AgentRow): (r: map<int, seq<AgentRow>>)
    ensures r.Keys == m.Keys + {key}
    ensures r[key] == (if key in m then m[key] else []) + [row]
    ensures forall k :: k in m && k != key ==> r[k] == m[k]
  {
    m[key := (if key in m then m[key] else []) + [row]]
  }

  function Sum(s: seq<real>): real
  {
    if s == [] then 0.0 else Sum(s[..|s| - 1]) + s[|s| - 1]
  }

  /** Moving `q` from entry `s` to entry `b` (possibly the same entry) keeps the total. */
  lemma {:induction false} SumTransfer(before: seq<real>, after: seq<real>, b: nat, s: nat, q: real)
    requires |before| == |after| && b < |before| && s < |before|
    requires forall i :: 0 <= i < |before| && i != b && i != s ==> after[i] == before[i]
    requires b != s ==> after[b] == before[b] + q && after[s] == before[s] - q
    requires b == s ==> after[b] == before[b]
    ensures Sum(after) == Sum(before)
  {
    SumTransferPrefix(before, after, b, s, q, |before|);
    assert before[..|before|] == before && after[..|after|] == after;
  }

  lemma {:induction false} SumTransferPrefix(before: seq<real>, after: seq<real>, b: nat, s: nat, q: real, n: nat)
    requires |before| == |after| && b < |before| && s < |before| && n <= |before|
    requires forall i :: 0 <= i < |before| && i != b && i != s ==> after[i] == before[i]
    requires b != s ==> after[b] == before[b] + q && after[s] == before[s] - q
    requires b == s ==> after[b] == before[b]
    ensures Sum(after[..n]) == Sum(before[..n])
      + (if b < n && b != s then q else 0.0) - (if s < n && b != s then q else 0.0)
  {
    if n > 0 {
      SumTransferPrefix(before, after, b, s, q, n - 1);
      assert before[..n][..n - 1] == before[..n - 1];
      assert after[..n][..n - 1] == after[..n - 1];
    }
  }

  /** The positions held in a list of per-market records. */
  function Positions(records: seq<Record>): (r: seq<real>)
    ensures |r| == |records|
  {
    if records == [] then []
    else Positions(records[..|records| - 1]) + [records[|records| - 1].position]
  }

  lemma {:induction false} PositionsAt(records: seq<Record>, i: nat)
    requires i < |records|
    ensures Positions(records)[i] == records[i].position
  {
    if i < |records| - 1 {
      PositionsAt(records[..|records| - 1], i);
    }
  }

  /**
   * Lines 91-96 of `create`: the buyer's record for the market takes the purchase, then the
   * seller's takes the sale (both land on one record when the agents coincide).
   */
  method Settle(buyer: Agent, seller: Agent, marketId: int, price: real, quantity: real)
    requires buyer.Trades(marketId) && seller.Trades(marketId)
    modifies buyer, seller
    ensures buyer != seller ==>
      buyer.records == old(buyer.records)[marketId := Bought(old(buyer.records[marketId]), price, quantity)]
      && seller.records == old(seller.records)[marketId := Sold(old(seller.records[marketId]), price, quantity)]
    ensures buyer == seller ==>
      buyer.records == old(buyer.records)[marketId := Sold(Bought(old(buyer.records[marketId]), price, quantity), price, quantity)]
    ensures buyer.runningProfit == old(buyer.runningProfit) && seller.runningProfit == old(seller.runningProfit)
  {
    buyer.records := buyer.records[marketId := Bought(buyer.records[marketId], price, quantity)];
    seller.records := seller.records[marketId := Sold(seller.records[marketId], price, quantity)];
  }

  /**
   * Settling a trade leaves the total position of the market unchanged: `before` and `after`
   * are the market's records of every agent, one entry per agent, with the buyer at `bi` and
   * the seller at `si`, as `Settle` leaves them.
   */
  lemma {:induction false} SettleConserves(before: seq<Record>, after: seq<Record>, bi: nat, si: nat, price: real, quantity: real)
    requires |before| == |after| && bi < |before| && si < |before|
    requires forall i :: 0 <= i < |before| && i != bi && i != si ==> after[i] == before[i]
    requires bi != si ==> after[bi] == Bought(before[bi], price, quantity) && after[si] == Sold(before[si], price, quantity)
    requires bi == si ==> after[bi] == Sold(Bought(before[bi], price, quantity), price, quantity)
    ensures Sum(Positions(after)) == Sum(Positions(before))
  {
    forall i | 0 <= i < |before|
      ensures Positions(before)[i] == before[i].position && Positions(after)[i] == after[i].position
    {
      PositionsAt(before, i);
      PositionsAt(after, i);
    }
    SumTransfer(Positions(before), Positions(after), bi, si, quantity);
  }

  /** Lines 67-70 of `create`: an agent id gets an empty history list unless it has one. */
  function Register(m: map<int, seq<AgentRow>>, key: int): (r: map<int, seq<AgentRow>>)
    ensures r.Keys == m.Keys + {key}
    ensures forall k :: k in m ==> r[k] == m[k]
    ensures key !in m ==> r[key] == []
  {
    if key in m then m else m[key := []]
  }

  /** The record after line 91 or 92 of `create` moves only its position. */
  function Moved(r: Record, delta: real): Record
  {
    r.(position := r.position + delta)
  }

  /** An agent's history row: the transaction id with the agent's position and profit at that moment. */
  function RowOf(id: nat, agent: Agent, marketId: int): AgentRow
    reads agent
    requires agent.Trades(marketId)
  {
    AgentRow(id, agent.records[marketId].position, CalculateProfit(agent, marketId))
  }

  /** The per-market ledger. `registry` is the agent registry the ledger looks participants up in. */
  class Transactions {
    const marketId: int
    const registry: Agents
    var history: seq<Transaction>
    var historyList: seq<PriceRow>
    var historyMarketAgent: map<int, seq<AgentRow>>
    var transactions: map<nat, Transaction>

    constructor (marketId: int, registry: Agents)
      ensures this.marketId == marketId && this.registry == registry
      ensures history == [] && historyList == [] && historyMarketAgent == map[] && transactions == map[]
    {
      this.marketId := marketId;
      this.registry := registry;
      history := [];
      historyList := [];
      historyMarketAgent := map[];
      transactions := map[];
    }

    /** The registered agents behind the two orders, the only agents `create` may update. */
    function Parties(buyOrder: Order, sellOrder: Order): set<Agent>
      reads this, registry
    {
      (if buyOrder.agentId in registry.agents then {registry.agents[buyOrder.agentId]} else {})
      + (if sellOrder.agentId in registry.agents then {registry.agents[sellOrder.agentId]} else {})
    }

    /**
     * `create`. Both agents must be registered (asserted, nothing changes otherwise), and the
     * `Transaction` constructor checks the market. On success the ledger appends the
     * transaction and its price row, files one row per party holding its position and profit as
     * they stood before the trade, and settles the trade on the two agents' records.
     */
    method Create(ids: TransactionIds, buyOrder: Order, sellOrder: Order, marketId: int, price: real, quantity: real)
      returns (r: Result<Transaction, LedgerError>)
      requires registry.Valid()
      requires buyOrder.agentId in registry.agents ==> registry.agents[buyOrder.agentId].Trades(marketId)
      requires sellOrder.agentId in registry.agents ==> registry.agents[sellOrder.agentId].Trades(marketId)
      modifies this, ids, Parties(buyOrder, sellOrder)
      ensures registry.agents == old(registry.agents)
      ensures buyOrder.agentId !in registry.agents || sellOrder.agentId !in registry.agents ==>
        r == Err(AssertionError("agent"))
      ensures buyOrder.agentId in registry.agents && sellOrder.agentId in registry.agents ==>
        (r.Ok? <==> buyOrder.marketId == marketId && sellOrder.marketId == marketId)
      ensures r.Err? ==>
        history == old(history) && historyList == old(historyList)
        && historyMarketAgent == old(historyMarketAgent) && transactions == old(transactions)
        && ids.next == old(ids.next)
        && forall a :: a in old(Parties(buyOrder, sellOrder)) ==> a.records == old(a.records)
      ensures r.Ok? ==>
        r.value == Transaction(old(ids.next), Max(buyOrder.datetime, sellOrder.datetime), marketId,
                               buyOrder, sellOrder, price, quantity)
        && ids.next == old(ids.next) + 1
        && history == old(history) + [r.value]
        && historyList == old(historyList) + [PriceRow(r.value.id, r.value.datetime, price)]
        && transactions == old(transactions)[r.value.id := r.value]
      ensures r.Ok? ==>
        historyMarketAgent == AppendRow(AppendRow(old(historyMarketAgent),
          buyOrder.agentId, old(RowOf(ids.next, registry.agents[buyOrder.agentId], marketId))),
          sellOrder.agentId, old(RowOf(ids.next, registry.agents[sellOrder.agentId], marketId)))
      ensures r.Ok? && buyOrder.agentId != sellOrder.agentId ==>
        var buyer := registry.agents[buyOrder.agentId];
        var seller := registry.agents[sellOrder.agentId];
        buyer.records == old(buyer.records)[marketId := Bought(old(buyer.records[marketId]), price, quantity)]
        && seller.records == old(seller.records)[marketId := Sold(old(seller.records[marketId]), price, quantity)]
      ensures r.Ok? && buyOrder.agentId == sellOrder.agentId ==>
        var agent := registry.agents[buyOrder.agentId];
        agent.records == old(agent.records)[marketId := Sold(Bought(old(agent.records[marketId]), price, quantity), price, quantity)]
      ensures forall a :: a in old(Parties(buyOrder, sellOrder)) ==> a.runningProfit == old(a.runningProfit)
    {
      var buyerOpt := registry.Get(buyOrder.agentId);
      var sellerOpt := registry.Get(sellOrder.agentId);
      if buyerOpt.None? || sellerOpt.None? {
        return Err(AssertionError("agent"));
      }
      var buyer := buyerOpt.value;
      var seller := sellerOpt.value;
      var made := ids.New(buyOrder, sellOrder, marketId, price, quantity);
      if made.Err? {
        return Err(made.error);
      }
      var t := made.value;
      history := history + [t];
      historyList := historyList + [PriceRow(t.id, t.datetime, t.price)];
      historyMarketAgent := AppendRow(historyMarketAgent, buyer.id, RowOf(t.id, buyer, marketId));
      historyMarketAgent := AppendRow(historyMarketAgent, seller.id, RowOf(t.id, seller, marketId));
      Settle(buyer, seller, marketId, price, quantity);
      transactions := transactions[t.id := t];
      r := Ok(t);
    }

    /**
     * `create` as written. It never returns: past the agent and market assertions it goes on
     * as `FileAsWritten` says and raises. The transaction is never filed under its id.
     */
    method CreateAsWritten(ids: TransactionIds, buyOrder: Order, sellOrder: Order, marketId: int, price: real, quantity: real)
      returns (r: Result<Transaction, LedgerError>)
      requires registry.Valid()
      requires buyOrder.agentId in registry.agents ==> registry.agents[buyOrder.agentId].Trades(marketId)
      requires sellOrder.agentId in registry.agents ==> registry.agents[sellOrder.agentId].Trades(marketId)
      modifies this, ids, Parties(buyOrder, sellOrder)
      ensures r.Err?
      ensures registry.agents == old(registry.agents) && transactions == old(transactions)
      ensures buyOrder.agentId !in registry.agents || sellOrder.agentId !in registry.agents ==>
        r == Err(AssertionError("agent"))
      ensures buyOrder.agentId in registry.agents && sellOrder.agentId in registry.agents
              && (buyOrder.marketId != marketId || sellOrder.marketId != marketId) ==>
        r == Err(AssertionError("market_id"))
      ensures r.error.AssertionError? ==>
        history == old(history) && historyList == old(historyList)
        && historyMarketAgent == old(historyMarketAgent) && ids.next == old(ids.next)
        && forall a :: a in old(Parties(buyOrder, sellOrder)) ==> a.records == old(a.records)
      ensures buyOrder.agentId in registry.agents && sellOrder.agentId in registry.agents
              && buyOrder.marketId == marketId && sellOrder.marketId == marketId ==>
        var t := Transaction(old(ids.next), Max(buyOrder.datetime, sellOrder.datetime), marketId,
                             buyOrder, sellOrder, price, quantity);
        r == Err(MisspelledValueBought)
        && historyMarketAgent.Keys == old(historyMarketAgent.Keys) + {buyOrder.agentId, sellOrder.agentId}
        && ids.next == old(ids.next) + 1
        && history == old(history) + [t]
        && historyList == old(historyList) + [PriceRow(t.id, t.datetime, price)]
      ensures forall a :: a in old(Parties(buyOrder, sellOrder)) ==> a.runningProfit == old(a.runningProfit)
    {
      var buyerOpt := registry.Get(buyOrder.agentId);
      var sellerOpt := registry.Get(sellOrder.agentId);
      if buyerOpt.None? || sellerOpt.None? {
        return Err(AssertionError("agent"));
      }
      var buyer := buyerOpt.value;
      var seller := sellerOpt.value;
      var made := ids.New(buyOrder, sellOrder, marketId, price, quantity);
      if made.Err? {
        return Err(made.error);
      }
      r := FileAsWritten(made.value, buyer, seller, marketId, quantity);
    }

    /**
     * Lines 67-93 of `create` as written, for the transaction `t` between two registered agents.
     * Both agents get a history list, and the transaction and its price row are appended. Then
     * the first read of `value_bought` raises `AttributeError`: in `calculate_profit` for a
     * buyer (then a seller) who has bought in the market before, and otherwise at line 93,
     * after both rows are filed and both positions have moved by the quantity. No value or
     * quantity aggregate changes.
     */
    method FileAsWritten(t: Transaction, buyer: Agent, seller: Agent, marketId: int, quantity: real)
      returns (r: Result<Transaction, LedgerError>)
      requires buyer.Trades(marketId) && seller.Trades(marketId)
      modifies this`history, this`historyList, this`historyMarketAgent, buyer, seller
      ensures r == Err(MisspelledValueBought)
      ensures history == old(history) + [t] && historyList == old(historyList) + [PriceRow(t.id, t.datetime, t.price)]
      ensures historyMarketAgent.Keys == old(historyMarketAgent.Keys) + {buyer.id, seller.id}
      ensures buyer.runningProfit == old(buyer.runningProfit) && seller.runningProfit == old(seller.runningProfit)
      ensures
        var registered := Register(Register(old(historyMarketAgent), buyer.id), seller.id);
        var withBuyer := AppendRow(registered, buyer.id, old(RowOf(t.id, buyer, marketId)));
        if old(buyer.records[marketId].quantityBought) > 0.0 then
          historyMarketAgent == registered
          && buyer.records == old(buyer.records) && seller.records == old(seller.records)
        else if old(seller.records[marketId].quantityBought) > 0.0 then
          historyMarketAgent == withBuyer
          && buyer.records == old(buyer.records) && seller.records == old(seller.records)
        else
          historyMarketAgent == AppendRow(withBuyer, seller.id, old(RowOf(t.id, seller, marketId)))
          && (buyer == seller ==> buyer.records == old(buyer.records))
          && (buyer != seller ==>
                buyer.records == old(buyer.records)[marketId := Moved(old(buyer.records[marketId]), quantity)]
                && seller.records == old(seller.records)[marketId := Moved(old(seller.records[marketId]), -quantity)])
    {
      historyMarketAgent := Register(Register(historyMarketAgent, buyer.id), seller.id);
      history := history + [t];
      historyList := historyList + [PriceRow(t.id, t.datetime, t.price)];
      r := RowsAsWritten(t.id, buyer, seller, marketId, quantity);
    }

    /** Lines 76-93 of `create` as written, once both agents' history lists exist. */
    method RowsAsWritten(id: nat, buyer: Agent, seller: Agent, marketId: int, quantity: real)
      returns (r: Result<Transaction, LedgerError>)
      requires buyer.Trades(marketId) && seller.Trades(marketId)
      requires buyer.id in historyMarketAgent && seller.id in historyMarketAgent
      modifies this`historyMarketAgent, buyer, seller
      ensures r == Err(MisspelledValueBought)
      ensures historyMarketAgent.Keys == old(historyMarketAgent.Keys)
      ensures buyer.runningProfit == old(buyer.runningProfit) && seller.runningProfit == old(seller.runningProfit)
      ensures
        var withBuyer := AppendRow(old(historyMarketAgent), buyer.id, old(RowOf(id, buyer, marketId)));
        if old(buyer.records[marketId].quantityBought) > 0.0 then
          historyMarketAgent == old(historyMarketAgent)
          && buyer.records == old(buyer.records) && seller.records == old(seller.records)
        else if old(seller.records[marketId].quantityBought) > 0.0 then
          historyMarketAgent == withBuyer
          && buyer.records == old(buyer.records) && seller.records == old(seller.records)
        else
          historyMarketAgent == AppendRow(withBuyer, seller.id, old(RowOf(id, seller, marketId)))
          && (buyer == seller ==> buyer.records == old(buyer.records))
          && (buyer != seller ==>
                buyer.records == old(buyer.records)[marketId := Moved(old(buyer.records[marketId]), quantity)]
                && seller.records == old(seller.records)[marketId := Moved(old(seller.records[marketId]), -quantity)])
    {
      if ProfitAsWritten(buyer.records[marketId]).Err? {
        return Err(MisspelledValueBought);
      }
      historyMarketAgent := AppendRow(historyMarketAgent, buyer.id, RowOf(id, buyer, marketId));
      if ProfitAsWritten(seller.records[marketId]).Err? {
        return Err(MisspelledValueBought);
      }
      historyMarketAgent := AppendRow(historyMarketAgent, seller.id, RowOf(id, seller, marketId));
      buyer.records := buyer.records[marketId := Moved(buyer.records[marketId], quantity)];
      seller.records := seller.records[marketId := Moved(seller.records[marketId], -quantity)];
      r := Err(MisspelledValueBought);
    }

    /** `remove`: forgets the transaction filed under `id`; an unknown id is only logged. */
    method Remove(id: nat)
      modifies this
      ensures transactions == old(transactions) - {id}
      ensures history == old(history) && historyList == old(historyList)
      ensures historyMarketAgent == old(historyMarketAgent)
    {
      if id in transactions {
        transactions := map k | k in transactions && k != id :: transactions[k];
      }
    }

    /**
     * `history_list`. The membership test compares the market id with the rows of
     * `_history_list`, which are lists, so it never holds and the result is always empty.
     */
    function HistoryList(marketId: int): seq<PriceRow>
      reads this
    {
      []
    }

    /**
     * `history_market_agent`. The dictionary is keyed by agent id and its values are lists of
     * rows; `agentName` is compared with those rows, never matches, and the result is always empty.
     */
    function HistoryMarketAgent(marketId: int, agentName: int): seq<AgentRow>
      reads this
    {
      []
    }
  }

  // ---------------------------------------------------------------------
  // `Agent.get_last_price`
  // ---------------------------------------------------------------------

  /**
   * `Agent.get_last_price` as written: it reads `Transaction.history`, an attribute the
   * `Transaction` class does not have.
   */
  function AgentLastPriceAsWritten(marketId: int): (r: Result<real, LedgerError>)
  {
    Err(LedgerError.AttributeError("history"))
  }

  /** Whatever the market, the as-written lookup raises. */
  lemma AgentLastPriceAsWrittenRaises(marketId: int)
    ensures AgentLastPriceAsWritten(marketId).Err?
  {
  }

  /** The transactions of a ledger history filed by market, each list in history order. */
  function ByMarket(history: seq<Transaction>): map<int, seq<Transaction>>
  {
    if history == [] then map[]
    else
      var m := ByMarket(history[..|history| - 1]);
      var t := history[|history| - 1];
      m[t.marketId := (if t.marketId in m then m[t.marketId] else []) + [t]]
  }

  /**
   * `Agent.get_last_price` over a per-market history: 0.0 for a market without one, the price
   * of its last transaction otherwise (`[-1]` raises on an empty list).
   */
  function AgentLastPrice(history: map<int, seq<Transaction>>, marketId: int): Result<real, LedgerError>
  {
    if marketId !in history then Ok(0.0)
    else if history[marketId] == [] then Err(IndexError)
    else Ok(history[marketId][|history[marketId]| - 1].price)
  }

  /** Filing by market keeps every list non-empty and made of that market's transactions only. */
  lemma {:induction false} ByMarketSpec(history: seq<Transaction>, m: int)
    ensures m in ByMarket(history) <==> exists i :: 0 <= i < |history| && history[i].marketId == m
    ensures m in ByMarket(history) ==>
      ByMarket(history)[m] != [] && forall i :: 0 <= i < |ByMarket(history)[m]| ==> ByMarket(history)[m][i].marketId == m
  {
    if history != [] {
      var init := history[..|history| - 1];
      ByMarketSpec(init, m);
      if m in ByMarket(history) && history[|history| - 1].marketId != m {
        var i :| 0 <= i < |init| && init[i].marketId == m;
        assert history[i] == init[i];
      }
      if exists i :: 0 <= i < |init| && init[i].marketId == m {
        var i :| 0 <= i < |init| && init[i].marketId == m;
        assert history[i] == init[i];
      }
    }
  }

  /**
   * After a transaction is recorded, the last price of its market is its price; a market with
   * no recorded transaction reads 0.0.
   */
  lemma AgentLastPriceAfterTrade(history: seq<Transaction>, t: Transaction, m: int)
    ensures AgentLastPrice(ByMarket(history + [t]), t.marketId) == Ok(t.price)
    ensures (forall i :: 0 <= i < |history| ==> history[i].marketId != m) ==> AgentLastPrice(ByMarket(history), m) == Ok(0.0)
  {
    assert (history + [t])[..|history|] == history;
    ByMarketSpec(history, m);
  }
}
