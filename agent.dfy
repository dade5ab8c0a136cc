/** A trading participant and its per-market ledger records (synthetic_exchange/agent.py). */
module AgentRecords {
  import opened Wrappers

  /** The strategy an agent drives; the agent constructor sets only its `agent_id`. */
  class Strategy {
    var agentId: Option<int>

    constructor ()
      ensures agentId == None
    {
      agentId := None;
    }
  }

  /** The class-wide `itertools.count()` that numbers agents, starting at 0. */
  class AgentIds {
    var next: nat

    constructor ()
      ensures next == 0
    {
      next := 0;
    }
  }

  /**
   * The ledger record of one agent in one market: the values of the per-market maps
   * `position`, `value_bought`, `quantity_bought`, `value_sold` and `quantity_sold`.
   */
  datatype Record = Record(position: real, valueBought: real, quantityBought: real, valueSold: real, quantitySold: real)

  /** The record after buying `quantity` at `price`. */
  function Bought(r: Record, price: real, quantity: real): Record
  {
    r.(position := r.position + quantity, valueBought := r.valueBought + price * quantity,
       quantityBought := r.quantityBought + quantity)
  }

  /** The record after selling `quantity` at `price`. */
  function Sold(r: Record, price: real, quantity: real): Record
  {
    r.(position := r.position - quantity, valueSold := r.valueSold + price * quantity,
       quantitySold := r.quantitySold + quantity)
  }

  /** A purchase and a sale of the same quantity by one agent leave its position where it was. */
  lemma RoundTripKeepsPosition(r: Record, buyPrice: real, sellPrice: real, quantity: real)
    ensures Sold(Bought(r, buyPrice, quantity), sellPrice, quantity).position == r.position
    ensures Bought(Sold(r, sellPrice, quantity), buyPrice, quantity) == Sold(Bought(r, buyPrice, quantity), sellPrice, quantity)
  {
  }

  /**
   * An agent. Its id and name never change; `records` holds, per market, the aggregates that
   * `Transactions.create` reads and updates in place (the source keeps one dictionary per
   * aggregate, all keyed by market id).
   */
  class Agent {
    const id: int
    const name: int
    const strategy: Strategy
    var records: map<int, Record>
    var runningProfit: map<int, real>

    /** `Agent.__init__`: draws the next id, names the agent after it and tells the strategy. */
    constructor (ids: AgentIds, strategy: Strategy)
      modifies ids, strategy
      ensures id == old(ids.next) && name == id && ids.next == old(ids.next) + 1
      ensures this.strategy == strategy && strategy.agentId == Some(id)
      ensures records == map[] && runningProfit == map[]
    {
      id := ids.next;
      name := ids.next;
      this.strategy := strategy;
      records := map[];
      runningProfit := map[];
      new;
      ids.next := ids.next + 1;
      strategy.agentId := Some(id);
    }

    /** The agent holds a ledger record for `marketId`. */
    predicate Trades(marketId: int)
      reads this
    {
      marketId in records
    }
  }
}
