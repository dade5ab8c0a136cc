# synthetic-exchange, modelled in Dafny

A simulated exchange lists one market per symbol. Agents in each market send buy, sell and
cancel orders, and an order book matches them by price-time priority. Every match is meant to
become a transaction in a per-market ledger, which settles the trade on the buyer's and the
seller's per-market aggregates: position, quantity and value bought, quantity and value sold. As
written, the ledger's `create` never returns (see Findings). So the settlement is stated for
the corrected `create` (`Ledger.Transactions.Create`), and the as-written one is modelled beside it.
Around this core sit the exchange facade (build the markets from a configuration, then answer
symbol, best-price and order book queries), the agent registry, a parser for recorded Binance
perpetual-futures streams, an order book message record with its ordering, an order expiry record
written in C++, and a small publish/subscribe helper.

This project models that core, one module per source file:

| module | file | source |
|---|---|---|
| `Orders` | orders.dfy | `synthetic_exchange/order.py` |
| `BookLists`, `OrderBooks`, `MatchingFacts`, `BookViews` | orderbook_lists.dfy, orderbook.dfy, matching_facts.dfy, orderbook_views.dfy | `synthetic_exchange/orderbook.py` |
| `Ledger` | transaction.dfy | `synthetic_exchange/transaction.py` |
| `AgentRecords` | agent.dfy | `synthetic_exchange/agent.py` |
| `AgentRegistry` | agents.dfy | `synthetic_exchange/agents.py` |
| `Markets` | markets.dfy | `synthetic_exchange/market.py` |
| `Exchanges` | exchange.dfy | `synthetic_exchange/exchange.py` |
| `EventParser` | event_parser.dfy | `synthetic_exchange/util/event_parser.py` |
| `OrderBookMessages` | orderbook_message.dfy | `synthetic_exchange/experimental/orderbook_message.py` |
| `OrderExpiration` | order_expiration.dfy | `synthetic_exchange/experimental/OrderExpirationEntry.cpp` |
| `Observer` | observer.dfy | `synthetic_exchange/util/observer.py` |
| `Wrappers`, `Text` | wrappers.dfy, text.dfy | `Option`/`Result`; ASCII `str.lower()` and byte-wise string order |

Design of the model:

- Prices, quantities and values are `real`; datetimes are integers.
- The clock (`datetime.utcnow()`) is an explicit parameter `now`.
- An `Order` is a value. The book's side lists are shared proxies, so each read yields a copy.
- The order book is a class whose fields are the three active lists, the event log, the trade
  log and the initial-order history.
- A `Book` value is the specification of the order book class:
  - Matching is one recursive function, `OrderBooks.RunLoop`, over the opposite side. It yields
    the trades, the order events, the new opposite side and how the incoming order ends.
  - `OrderBooks.MatchLoop` applies that result to a `Book`.
  - `ProcessBuy` and `ProcessSell` are the source's `while True` loops. Each is proved equal to
    `MatchLoop` of the old state.
  - The matching facts (sound counterparties, prices never improving, conservation of
    quantity, the shape of the event stream) are proved about `RunLoop`.
- The ledger, the agent registry, the markets registry, the exchange, the expiry entry and the
  observer are classes. Their methods update fields in place.
- The stream parser is a function `Step` over a scan state. The source's loop is the method
  `ParseBinancePerp`, proved equal to the fold `Parse`.
- Python exceptions are modelled as `Result` errors, at the point where the source raises them.

Notes on what the code does:

- The per-agent history rows that `create` writes are computed from the aggregates before the
  trade is settled (transaction.py:76-89 comes before 91-96).
- A sell order's events carry the state `PartialyFilled` or `Filled`. A buy order's events
  carry the order unchanged (orderbook.py:256-262, 339).
- An order never gets a `cancel` attribute: the constructor does not set one and no other code
  assigns it. The work loop builds every order with that constructor (orderbook.py:193), so it
  halts on every order it dequeues (orderbook.py:197) and never matches (see Findings).
  `DoWorkStep`'s branches for an order that carries `cancel` state the intended behaviour.
- `create` raises on every call. Past its assertions it always reaches `value_bought`, which
  returns the misspelled `_value_bougth` (agent.py:51-53), at line 93 of transaction.py at the
  latest. By then it has appended the history rows and moved both positions, but it never files
  the transaction (`Ledger.Transactions.CreateAsWritten`).
- With a ledger, the first crossing order on either side therefore makes one `create` call and
  raises. On the buy side the assertion on `transactions.transactions` that follows, an
  attribute the ledger does not have, would raise too (orderbook.py:254, 271, 287).
  `OrderBook.ProcessAsWritten` and `DoWorkStep` model that halt. `OrderBook.ProcessBuy`,
  `OrderBook.ProcessSell` and the `MatchLoop` lemmas state the corrected path; the source
  follows it as written only for a book without a ledger (see Findings).
- The exchange's constructor never stores a ledger, order book or market:
  `Transactions(agents=...)` omits the required `marketId` and raises `TypeError`, which the
  market handler logs (exchange.py:95-107). Every best-price or order book query on a listed
  symbol therefore fails its assertion (`Exchanges.AsWrittenQueriesRaise`).
  `Exchanges.Exchange.constructor` states the intended wiring (see Findings).
- The strategies send the keys `marketid`, `agentid` and `timestamp`, but `Order` reads
  `marketId`, `agentId` and `dateTime`. So every order they produce has no market id, no agent
  id and the clock's datetime. The model keeps the ids as integers (see Left out).

## Model

| member | source | states |
|---|---|---|
| Orders.MakeOrder | synthetic_exchange/order.py:16-29 | a new order is open and has no cancel attribute; its datetime is the given one or else the clock; remaining equals quantity; every other field is copied from the arguments |
| Orders.OrderIds.NewOrder | synthetic_exchange/order.py:14-17 | the order takes the class counter as its id; the counter goes up by one, so every later id is larger |
| BookLists.FirstIndexOfIdSpec | synthetic_exchange/orderbook.py:387-388 | the index found is the first entry with that id, and it is in range exactly when some entry has the id |
| BookLists.InFound | synthetic_exchange/orderbook.py:387-388 | an order that is in the list has its id found, at an index in range |
| BookLists.WithoutFirstSubset | synthetic_exchange/orderbook.py:385-393 | removing by id leaves a sub-multiset of the list, so no order appears that was not there |
| BookLists.IndexOfId | synthetic_exchange/orderbook.py:387-388 | the search loop returns the first index with the id, or the length when none has it |
| BookLists.DeleteFirst | synthetic_exchange/orderbook.py:385-393 | the list loses its first entry with the id and keeps the others in order; the flag says whether one was removed |
| BookLists.WithoutFirstTwice | synthetic_exchange/orderbook.py:385-393 | on a list with unique ids, a second removal of the same id changes nothing |
| BookLists.EligibleMembers | synthetic_exchange/orderbook.py:241 | the candidates are exactly the resting orders of other agents |
| BookLists.SortPermutes | synthetic_exchange/orderbook.py:243 | sorting by price is a permutation |
| BookLists.SortSorted | synthetic_exchange/orderbook.py:243 | the sorted list is ordered by price, ascending or descending as asked |
| BookLists.SortStable | synthetic_exchange/orderbook.py:243 | the sort is stable: orders at one price keep their book order |
| BookLists.CheapestIndexSpec | synthetic_exchange/orderbook.py:243-244 | the scan finds the earliest order at the lowest price |
| BookLists.BestIsCheapestFirst | synthetic_exchange/orderbook.py:243-244 | the head of the sorted list is the earliest order at the lowest price |
| BookLists.CheapestOtherIsBest | synthetic_exchange/orderbook.py:241-244 | the best counterparty is the head of the price-sorted list of other agents' orders |
| BookLists.CheapestOtherIn | synthetic_exchange/orderbook.py:241-244 | the best counterparty is a resting order of another agent |
| BookLists.CheapestOtherMin | synthetic_exchange/orderbook.py:241-244 | whenever another agent has a resting order a counterparty is chosen, and none of their orders is cheaper |
| OrderBooks.TradeOf | synthetic_exchange/orderbook.py:250-253 | the buy and sell orders handed to the ledger are the incoming and resting orders, placed by side |
| OrderBooks.ReduceIn | synthetic_exchange/orderbook.py:395-402 | reducing an order's quantity never lengthens its side list and leaves the active list's length unchanged |
| OrderBooks.TakeWhole | synthetic_exchange/orderbook.py:247-263 | taking a whole resting order keeps the book consistent |
| OrderBooks.TakePart | synthetic_exchange/orderbook.py:280-295 | taking part of a resting order keeps the book consistent |
| OrderBooks.BestForIsCounterparty | synthetic_exchange/orderbook.py:241-244 | the chosen counterparty rests on the opposite side, belongs to another agent, and is found by id there |
| OrderBooks.RunLoop | synthetic_exchange/orderbook.py:240-309 | matching never lengthens the opposite side |
| OrderBooks.MatchLoop | synthetic_exchange/orderbook.py:240-309 | matching an order keeps the book consistent (corrected path; as written for a book without a ledger) |
| OrderBooks.MatchLoopRests | synthetic_exchange/orderbook.py:296-309 | with no crossing counterparty the order rests with its remaining quantity |
| OrderBooks.MatchLoopFills | synthetic_exchange/orderbook.py:264-279 | corrected path, as written for a book without a ledger: when both quantities are equal, both orders leave the book, one trade is logged and matching stops |
| OrderBooks.MatchLoopReduces | synthetic_exchange/orderbook.py:280-295 | corrected path, as written for a book without a ledger: when the incoming order is the smaller, the resting order is reduced and the incoming one is filled |
| OrderBooks.MatchLoopContinues | synthetic_exchange/orderbook.py:247-263 | corrected path, as written for a book without a ledger: when the resting order is the smaller, it is removed and matching continues with the remainder |
| OrderBooks.CancelEmitsOnlyOnRemoval | synthetic_exchange/orderbook.py:216-228 | a cancel emits an event exactly when it removes an order |
| OrderBooks.CancelOtherSide | synthetic_exchange/orderbook.py:216-228 | a cancel whose side is neither buy nor sell changes nothing |
| OrderBooks.CancelPicksSide | synthetic_exchange/orderbook.py:220-224 | a buy cancel touches only the bids, a sell cancel only the offers |
| OrderBooks.CancelTwice | synthetic_exchange/orderbook.py:216-228 | cancelling the same order twice has the effect of cancelling it once |
| OrderBooks.OrderBook.constructor | synthetic_exchange/orderbook.py:46-67 | a new book has empty lists, logs and history |
| OrderBooks.OrderBook.RemoveOffer | synthetic_exchange/orderbook.py:385-393 | removes the first offer with the id from the sell list only; reports whether it existed |
| OrderBooks.OrderBook.RemoveBid | synthetic_exchange/orderbook.py:404-412 | removes the first bid with the id from the buy list only; reports whether it existed |
| OrderBooks.OrderBook.ReduceOffer | synthetic_exchange/orderbook.py:395-402 | removes the offer when the amount is its whole quantity; otherwise decrements the quantity of the active-list entry at the offer's sell-list index, leaving the sell list unchanged |
| OrderBooks.OrderBook.ReduceBid | synthetic_exchange/orderbook.py:414-421 | removes the bid when the amount is its whole quantity; otherwise decrements the quantity of the active-list entry at the bid's buy-list index, leaving the buy list unchanged |
| OrderBooks.OrderBook.RestOrder | synthetic_exchange/orderbook.py:296-309 | the unfilled order joins its side and the active list; no event is logged |
| OrderBooks.OrderBook.RecordTrade | synthetic_exchange/orderbook.py:250-253 | one ledger call is logged when the book has a ledger, none otherwise |
| OrderBooks.OrderBook.TakeWholeOf | synthetic_exchange/orderbook.py:247-263 | corrected path, as written for a book without a ledger: the book becomes `TakeWhole` of its old state |
| OrderBooks.OrderBook.TakePartOf | synthetic_exchange/orderbook.py:280-295 | corrected path, as written for a book without a ledger: the book becomes `TakePart` of its old state |
| OrderBooks.OrderBook.PartialStep | synthetic_exchange/orderbook.py:247-263 | corrected path, as written for a book without a ledger: one iteration shrinks the opposite side and leaves the same match still to run |
| OrderBooks.OrderBook.FillStep | synthetic_exchange/orderbook.py:264-279 | corrected path, as written for a book without a ledger: the equal-quantity branch completes the whole match |
| OrderBooks.OrderBook.ReduceStep | synthetic_exchange/orderbook.py:280-295 | corrected path, as written for a book without a ledger: the smaller-incoming branch completes the whole match |
| OrderBooks.OrderBook.MatchStep | synthetic_exchange/orderbook.py:241-309 | corrected path, as written for a book without a ledger: one loop iteration either finishes the match or shrinks the opposite side with the same match remaining |
| OrderBooks.OrderBook.ProcessBuy | synthetic_exchange/orderbook.py:232-311 | corrected: the buy loop leaves the book in the `MatchLoop` state for the order |
| OrderBooks.OrderBook.ProcessAsWritten | synthetic_exchange/orderbook.py:232-383 | as written: with a ledger and a crossing counterparty on either side, one `create` call is logged and the loop raises; otherwise the book reaches the `MatchLoop` state |
| OrderBooks.OrderBook.ProcessSell | synthetic_exchange/orderbook.py:313-383 | corrected path, as written for a book without a ledger: the sell loop leaves the book in the `MatchLoop` state for the order |
| OrderBooks.OrderBook.ProcessCancel | synthetic_exchange/orderbook.py:216-228 | a cancel leaves the book in the `CancelIn` state |
| OrderBooks.OrderBook.DoWorkStep | synthetic_exchange/orderbook.py:182-214 | no item: nothing changes; a missing cancel attribute halts the loop unchanged; otherwise the order is cancelled, or recorded and matched by side; an order of either side that crosses on a book with a ledger halts inside its first `create` call |
| OrderBooks.DoWorkOnBuiltOrder | synthetic_exchange/orderbook.py:190-199 | an order built by the `Order` constructor, as the loop builds every order, halts the step and leaves the book unchanged |
| OrderBooks.MatchAsWrittenDiverges | synthetic_exchange/orderbook.py:247-366 | an as-written match raises exactly when the book has a ledger and the order crosses; it then logs one `create` call and leaves the lists and events untouched, where the corrected loop emits at least one event; otherwise both agree |
| OrderBooks.BuyWithLedgerRaises | synthetic_exchange/orderbook.py:247-279 | a buy of 1 at 10.0 against one offer of 1 at 10.0, with a ledger, raises and leaves the offer resting; the corrected loop removes it and emits a fill |
| OrderBooks.SellWithLedgerRaises | synthetic_exchange/orderbook.py:313-366 | a sell of 1 at 10.0 against one bid of 1 at 10.0, with a ledger, raises and leaves the bid resting; the corrected loop removes it and emits a fill |
| MatchingFacts.TradesSound | synthetic_exchange/orderbook.py:241-246 | every trade pairs the order with a resting order of another agent that crosses it, at the resting price |
| MatchingFacts.OneTradePerEvent | synthetic_exchange/orderbook.py:247-295 | each fill event comes with exactly one trade |
| MatchingFacts.PricesNeverImprove | synthetic_exchange/orderbook.py:243-244 | trade prices ascend on both sides: a buy pays no less on each later trade, a sell receives no less on each later trade |
| MatchingFacts.QuantityConserved | synthetic_exchange/orderbook.py:240-309 | traded quantity plus the quantity left unfilled equals the quantity the order came with |
| MatchingFacts.TradeQuantities | synthetic_exchange/orderbook.py:247-295 | each trade's quantity is the smaller of the incoming remainder and the resting quantity |
| MatchingFacts.EarlyEventsArePartial | synthetic_exchange/orderbook.py:247-263 | every event before the last is a partial fill with some quantity left |
| MatchingFacts.LastEventDecides | synthetic_exchange/orderbook.py:247-309 | the last event says how the order ended: rested, filled or partly filled |
| MatchingFacts.EventsCarryOrder | synthetic_exchange/orderbook.py:328-367 | every event carries the incoming order's id; a sell order's state is `PartialyFilled` or `Filled` as the event says |
| MatchingFacts.OppositeShrinks | synthetic_exchange/orderbook.py:247-295 | the opposite side loses one order per event, except for a final partial take |
| MatchingFacts.RestsWithRemainder | synthetic_exchange/orderbook.py:296-309 | an order that rests does so with its unfilled quantity |
| BookViews.PySlice | synthetic_exchange/orderbook.py:93-97 | Python's `[:depth]` is a prefix of the given length, negative depths counting from the end |
| BookViews.DefaultDepthDropsLast | synthetic_exchange/orderbook.py:93-94 | the default depth of -1 drops the last element |
| BookViews.ViewOfSide | synthetic_exchange/orderbook.py:93-97 | a side view is sorted, a sub-multiset of the side, and never holds more orders at a price than the side does |
| BookViews.BuyOrdersView | synthetic_exchange/orderbook.py:93-94 | the buy view is sorted ascending and is drawn from the buy orders |
| BookViews.SellOrdersView | synthetic_exchange/orderbook.py:96-97 | the sell view is sorted descending and is drawn from the sell orders |
| BookViews.DefaultViewMissesOne | synthetic_exchange/orderbook.py:93-97 | with the default depth the view misses exactly the last sorted order |
| BookViews.DeepViewIsWhole | synthetic_exchange/orderbook.py:93-97 | a depth at least the side's size shows the whole sorted side |
| BookViews.OrderbookAsWrittenFails | synthetic_exchange/orderbook.py:99-116 | as written, the snapshot fails with a missing `timestamp` key exactly when either view is non-empty |
| BookViews.OrderbookAsWrittenRaises | synthetic_exchange/orderbook.py:99-116 | a book with a single bid and depth 1 raises |
| BookViews.LevelOf | synthetic_exchange/orderbook.py:103-105 | a level shows the order's price, remaining, time, id and agent |
| BookViews.OrderbookSnapshotLevels | synthetic_exchange/orderbook.py:99-116 | the corrected snapshot lists each view's orders as levels, in view order, all drawn from the book |
| Ledger.TransactionIds.New | synthetic_exchange/transaction.py:13-23 | a transaction is made only when both orders are in its market; its id is the counter and its time the later order time |
| Ledger.TransactionTime | synthetic_exchange/transaction.py:18 | a transaction's time is no earlier than either order and equals one of them |
| Ledger.ProfitWithoutRoundTrip | synthetic_exchange/transaction.py:28-41 | with nothing both bought and sold, the profit is zero |
| Ledger.ProfitOfClosedPosition | synthetic_exchange/transaction.py:28-41 | a position bought and sold in equal quantity earns value sold minus value bought |
| Ledger.ProfitSign | synthetic_exchange/transaction.py:28-41 | with both sides traded, the profit is positive exactly when the average sell price beats the average buy price, and zero exactly when they are equal |
| Ledger.AppendRow | synthetic_exchange/transaction.py:67-89 | appending a history row touches only its key |
| Ledger.SumTransfer | synthetic_exchange/transaction.py:91-96 | moving a quantity from one entry to another keeps the total |
| Ledger.Settle | synthetic_exchange/transaction.py:91-96 | the buyer gains the position and bought value, the seller the opposite; a self-trade updates both halves of one record |
| Ledger.SettleConserves | synthetic_exchange/transaction.py:91-96 | settling keeps the sum of all positions in the market |
| Ledger.Transactions.constructor | synthetic_exchange/transaction.py:50-56 | a new ledger has empty history and lookups |
| Ledger.Transactions.Create | synthetic_exchange/transaction.py:58-100 | corrected: unknown agents or a market mismatch change nothing; otherwise the transaction is registered, the history rows appended and both parties settled |
| Ledger.ProfitAsWritten | synthetic_exchange/transaction.py:29-41 | as written, the profit of an agent that has bought in the market raises `AttributeError`; otherwise it is the corrected profit, zero when nothing was bought and the quantity sold is not negative |
| Ledger.Transactions.CreateAsWritten | synthetic_exchange/transaction.py:58-100 | as written, `create` never returns: unknown agents or a market mismatch raise with nothing changed; otherwise it raises `AttributeError` after taking the next id, registering both history lists and appending the transaction and its price row, and it never files the transaction |
| Ledger.Transactions.FileAsWritten | synthetic_exchange/transaction.py:67-93 | as written: the history lists and rows appended before the raise; the rows stop at the first party that has bought before, and both positions move only when neither has |
| Ledger.Transactions.Remove | synthetic_exchange/transaction.py:102-106 | only the lookup entry goes; the histories stay |
| Ledger.AgentLastPriceAsWrittenRaises | synthetic_exchange/agent.py:59-66 | as written, an agent's last-price query always fails |
| Ledger.ByMarketSpec | synthetic_exchange/agent.py:59-66 | the per-market index holds a market exactly when some transaction is in it; that entry is non-empty and lists only that market's transactions |
| Ledger.AgentLastPriceAfterTrade | synthetic_exchange/agent.py:59-66 | corrected: after a transaction is recorded, its market's last price is its price; a market with no transactions reads 0 |
| AgentRecords.RoundTripKeepsPosition | synthetic_exchange/transaction.py:91-96 | buying and then selling the same quantity restores the position, and the order of the two does not matter |
| AgentRecords.Agent.constructor | synthetic_exchange/agent.py:9-21 | a new agent takes the next id, links its strategy to that id and starts with no records |
| AgentRegistry.KeyedSpec | synthetic_exchange/agents.py:29-32 | keying a list by id keeps the last agent with each id, and only those ids |
| AgentRegistry.MergeSpec | synthetic_exchange/agents.py:29-32 | after an add the registry holds the ids of both; on an id clash the registered agent is kept; a new id maps to the last new agent with it |
| AgentRegistry.MergeSize | synthetic_exchange/agents.py:29-32 | an add never shrinks the registry and grows it by at most the number of new agents |
| AgentRegistry.KeyedSize | synthetic_exchange/agents.py:31 | keying a list by id yields at most one entry per item |
| AgentRegistry.Agents.constructor | synthetic_exchange/agents.py:11-15 | a new registry is empty |
| AgentRegistry.Agents.Size | synthetic_exchange/agents.py:25-27 | the size is zero exactly when no agent is registered |
| AgentRegistry.Agents.Get | synthetic_exchange/agents.py:34-40 | a lookup succeeds exactly for registered ids, and returns the agent with that id |
| AgentRegistry.Agents.AddAsWritten | synthetic_exchange/agents.py:29-32 | as written, the first add merges and every later one raises `TypeError` without changing the registry |
| AgentRegistry.Agents.Add | synthetic_exchange/agents.py:29-32 | corrected: every add merges the new agents, keyed by id |
| AgentRegistry.Agents.OnOrderbookEventAsWritten | synthetic_exchange/agents.py:72-74 | as written, forwarding succeeds only for an empty registry |
| AgentRegistry.Agents.OnOrderbookEvent | synthetic_exchange/agents.py:72-74 | corrected: every registered agent is reached once |
| AgentRegistry.Enumerate | synthetic_exchange/agents.py:73 | the loop over the registry visits each id exactly once |
| AgentRegistry.OnOrderbookEventRaises | synthetic_exchange/agents.py:72-74 | a registry with one agent raises `AttributeError` |
| AgentRegistry.SecondAddRaises | synthetic_exchange/agents.py:29-32 | on a fresh registry the first add succeeds and the second raises `TypeError` |
| Markets.MarketRegistry.constructor | synthetic_exchange/market.py:24-25 | the market counter and registry start empty |
| Markets.MarketRegistry.OrderEvent | synthetic_exchange/market.py:85-100 | no market id or an unknown one is rejected without drawing an order id; otherwise an order is built and forwarded to that market |
| Markets.Market.constructor | synthetic_exchange/market.py:27-39 | a market takes the next id and registers itself under it |
| Markets.BuyPriceIsLowestBid | synthetic_exchange/market.py:194-199 | with two or more bids the buy price is the lowest bid; otherwise it is 0 |
| Markets.SellPriceIsHighestAsk | synthetic_exchange/market.py:201-206 | with two or more asks the sell price is the highest ask; otherwise it is 0 |
| Markets.SpreadSpansBook | synthetic_exchange/market.py:208-214 | with two or more positive orders on each side, the spread is the sell price minus the buy price and bounds every ask minus bid |
| Markets.SpreadZero | synthetic_exchange/market.py:208-214 | the spread is 0 exactly when a side is unquoted or the two prices coincide |
| Markets.MidPriceAndSpread | synthetic_exchange/market.py:216-226 | no mid price exactly when neither side is quoted; with both quoted it is the buy price plus half the spread; a mid price is always positive |
| Markets.MidPriceOfThinBook | synthetic_exchange/market.py:216-226 | with an unquoted buy side the mid price is the sell price if the sell side is quoted, and none otherwise |
| Markets.LastPriceAsWrittenRaises | synthetic_exchange/market.py:186-192 | as written, the last-price query always raises `TypeError` |
| Markets.LastPriceAfterTrade | synthetic_exchange/market.py:186-189 | corrected: the last price is that of the latest transaction |
| Markets.LastPriceFallback | synthetic_exchange/market.py:190-191 | with no trades the price is `max - min / 2` as written, e.g. 99.5 for the range 1 to 100; that equals the midpoint only when max = 2 min |
| Exchanges.KindIgnoresCase | synthetic_exchange/exchange.py:58-73 | the agent kind is matched case-insensitively |
| Exchanges.AgentsOf | synthetic_exchange/exchange.py:48-93 | every agent built is keyed by its id and bound to the market's id and symbol |
| Exchanges.AgentsOfKeys | synthetic_exchange/exchange.py:48-93 | an id is built exactly when some entry has it, a known kind and a symbol |
| Exchanges.BuildAgents | synthetic_exchange/exchange.py:48-93 | the agent loop builds the `AgentsOf` map |
| Exchanges.SymbolKeys | synthetic_exchange/exchange.py:30-42 | a symbol is known exactly when some entry with both keys has it |
| Exchanges.MarketIdKeys | synthetic_exchange/exchange.py:30-47 | a market id is known exactly when some entry with both keys has it, and then it has an agent map |
| Exchanges.BuiltKeys | synthetic_exchange/exchange.py:30-107 | corrected: a market is built exactly when some complete entry has its id |
| Exchanges.BuildLinked | synthetic_exchange/exchange.py:41-42 | the two lookups point into each other |
| Exchanges.BuildValues | synthetic_exchange/exchange.py:41-42 | with unique keys, each entry's symbol maps to its id and back |
| Exchanges.BuildInverse | synthetic_exchange/exchange.py:41-42 | with unique keys, the two lookups are inverse maps |
| Exchanges.BuildAsWrittenAborts | synthetic_exchange/exchange.py:30-107 | as written, the build aborts exactly when an entry fails before any market id is bound; otherwise it fills the lookup and agent maps as the corrected build does, but builds no market |
| Exchanges.FirstEntryWithoutSymbolAborts | synthetic_exchange/exchange.py:104-107 | a first entry without a symbol aborts the whole build |
| Exchanges.AsWrittenQueriesRaise | synthetic_exchange/exchange.py:95-159 | as written, the listed symbols are those of the entries that reach the map writes, and best bid, best ask and order book fail their assertion on every one of them |
| Exchanges.OneMarketNeverBuilt | synthetic_exchange/exchange.py:30-107 | one complete entry: as written its symbol is listed but no market is built, where the corrected build has it |
| Exchanges.Exchange.constructor | synthetic_exchange/exchange.py:14-107 | corrected wiring: the exchange holds the lookups and agents of the build and one fresh book per complete entry |
| Exchanges.Exchange.BestBid | synthetic_exchange/exchange.py:125-134 | an unknown symbol gives 0; a market missing behind a known symbol raises; a non-zero answer is the price of one of that market's bids |
| Exchanges.Exchange.BestAsk | synthetic_exchange/exchange.py:139-148 | an unknown symbol gives 0; a market missing behind a known symbol raises; a non-zero answer is the price of one of that market's asks |
| Exchanges.Exchange.Orderbook | synthetic_exchange/exchange.py:150-159 | an unknown symbol gives nothing; otherwise the snapshot of that market's book |
| Exchanges.Exchange.SymbolsAreLookups | synthetic_exchange/exchange.py:136-137 | the listed symbols are exactly those the queries answer for |
| Exchanges.ConstructedLookups | synthetic_exchange/exchange.py:125-148 | corrected wiring: every complete configured market is listed, and its best-price queries succeed |
| EventParser.MessageOf | synthetic_exchange/util/event_parser.py:12-29 | a combined-stream row yields its `data` object, any other the whole payload |
| EventParser.TradeHandler | synthetic_exchange/util/event_parser.py:101-119 | a market trade is emitted only with a larger id and a positive size; the last id moves only forward |
| EventParser.AggTradeHandler | synthetic_exchange/util/event_parser.py:121-136 | an aggregate trade is emitted only with a larger last id; the last id moves only forward |
| EventParser.BookTickerHandler | synthetic_exchange/util/event_parser.py:138-153 | a best bid/offer is emitted only with a larger update id |
| EventParser.DepthHandler | synthetic_exchange/util/event_parser.py:155-181 | a depth update is emitted only with a larger update id, and carries the previous id or 0 |
| EventParser.LevelMap | synthetic_exchange/util/event_parser.py:223-227 | the snapshot map holds exactly the prices of its levels |
| EventParser.LevelMapLastWins | synthetic_exchange/util/event_parser.py:223-227 | each price maps to the size of its last level: a later level overwrites an earlier one at the same price |
| EventParser.OtherHandler | synthetic_exchange/util/event_parser.py:183-235 | per branch: a liquidation raises exactly when its `o` object is missing and otherwise carries it with the lower-cased side; a funding update raises exactly when its fields are missing and otherwise carries them; another event type is skipped; a message without `e` raises exactly when `bids` or `asks` is missing and otherwise carries both level maps and its `lastUpdateId` |
| EventParser.Finish | synthetic_exchange/util/event_parser.py:242-244 | an event is appended only when the handler emits one; the error count goes up only on an error |
| EventParser.Dispatch | synthetic_exchange/util/event_parser.py:99-240 | dispatch leaves the events alone, only raises the last ids, and each last id moves only for its own message type |
| EventParser.ParseBinancePerp | synthetic_exchange/util/event_parser.py:64-257 | non-positive multipliers raise; otherwise the result is the fold `Parse` over the rows |
| EventParser.StoppedStays | synthetic_exchange/util/event_parser.py:245-250 | after the loop breaks, later rows change nothing |
| EventParser.ShortRowsIgnored | synthetic_exchange/util/event_parser.py:84-87 | rows shorter than the prefix are skipped |
| EventParser.TradeIdsIncrease | synthetic_exchange/util/event_parser.py:105-107 | trade events come out in strictly increasing id order, all at or below the last trade id |
| EventParser.StepGrows | synthetic_exchange/util/event_parser.py:82-244 | one row never lowers a last id and adds at most one event |
| EventParser.DepthPerChannel | synthetic_exchange/util/event_parser.py:157-161 | a depth update is compared with the last id of its own channel |
| EventParser.TradeEvent | synthetic_exchange/util/event_parser.py:91-115 | a fresh market trade becomes one event with the row time and the trade's fields |
| EventParser.TradeIdAdvancesOnError | synthetic_exchange/util/event_parser.py:105-119 | a trade that fails after its id is read still moves the last id, so a repeat of the row is skipped |
| EventParser.UnknownCounted | synthetic_exchange/util/event_parser.py:216-240 | an unknown event type is counted as ignored and emits nothing |
| EventParser.BrokenRowStops | synthetic_exchange/util/event_parser.py:245-250 | a row that cannot be decoded ends the parse with the events so far |
| EventParser.ParseRows | synthetic_exchange/util/event_parser.py:48-61 | other exchanges give nothing, spot raises, perpetual futures parse the rows |
| OrderBookMessages.UpdateId | synthetic_exchange/experimental/orderbook_message.py:23-28 | diffs and snapshots read their update id or raise `KeyError`; other types give -1 |
| OrderBookMessages.FirstUpdateId | synthetic_exchange/experimental/orderbook_message.py:30-35 | a diff gives its first id or else its update id, and raises without an update id; others give -1 |
| OrderBookMessages.TradeId | synthetic_exchange/experimental/orderbook_message.py:37-41 | trades read their trade id or raise; others give -1 |
| OrderBookMessages.EqDifferentTypes | synthetic_exchange/experimental/orderbook_message.py:67-75 | messages of different types are unequal |
| OrderBookMessages.EqSameNonTrade | synthetic_exchange/experimental/orderbook_message.py:67-75 | two messages of one non-trade type are equal whatever their ids |
| OrderBookMessages.EqTrades | synthetic_exchange/experimental/orderbook_message.py:67-75 | two trades are equal exactly when their trade ids are |
| OrderBookMessages.EqEquivalence | synthetic_exchange/experimental/orderbook_message.py:67-75 | on readable messages equality never raises and is an equivalence |
| OrderBookMessages.UpdateMessagesAlwaysLess | synthetic_exchange/experimental/orderbook_message.py:80-89 | a diff or snapshot is less than every comparable message, itself included |
| OrderBookMessages.TradesByTradeId | synthetic_exchange/experimental/orderbook_message.py:80-89 | simultaneous trades are ordered by trade id |
| OrderBookMessages.TradeOrderedByTimeOtherwise | synthetic_exchange/experimental/orderbook_message.py:80-89 | a trade without the smaller id is less only when earlier |
| OrderBookMessages.MissingTimestampRaises | synthetic_exchange/experimental/orderbook_message.py:80-89 | comparing a timestamp with a missing one raises `TypeError` when the ids do not decide |
| OrderExpiration.OrderExpirationEntry.constructor | synthetic_exchange/experimental/OrderExpirationEntry.cpp:4-10 | the default entry has empty strings and zero times |
| OrderExpiration.OrderExpirationEntry.Shadowed | synthetic_exchange/experimental/OrderExpirationEntry.cpp:12-22 | as written, the four-argument constructor leaves the pair and order id empty |
| OrderExpiration.OrderExpirationEntry.Of | synthetic_exchange/experimental/OrderExpirationEntry.cpp:12-22 | corrected: the four arguments are stored |
| OrderExpiration.OrderExpirationEntry.Copy | synthetic_exchange/experimental/OrderExpirationEntry.cpp:24-30 | a copy holds the same four fields |
| OrderExpiration.OrderExpirationEntry.Assign | synthetic_exchange/experimental/OrderExpirationEntry.cpp:32-39 | assignment copies all four fields, self-assignment included, and returns the entry |
| OrderExpiration.GettersDetermineFields | synthetic_exchange/experimental/OrderExpirationEntry.cpp:53-71 | the getters read back exactly the four fields |
| OrderExpiration.LessIrreflexive | synthetic_exchange/experimental/OrderExpirationEntry.cpp:41-51 | no entry is before one with its expiry and order id |
| OrderExpiration.LessAsymmetric | synthetic_exchange/experimental/OrderExpirationEntry.cpp:41-51 | the ordering is asymmetric |
| OrderExpiration.LessTransitive | synthetic_exchange/experimental/OrderExpirationEntry.cpp:41-51 | the ordering is transitive |
| OrderExpiration.LessTotal | synthetic_exchange/experimental/OrderExpirationEntry.cpp:41-51 | two entries are unordered exactly when they share expiry and order id |
| OrderExpiration.ShadowedConstructorDropsArguments | synthetic_exchange/experimental/OrderExpirationEntry.cpp:12-22 | an entry made for "BTCUSD" reports an empty pair; the corrected one reports "BTCUSD" |
| Observer.Event.constructor | synthetic_exchange/util/observer.py:2-3 | a new event has no handlers |
| Observer.Event.Subscribe | synthetic_exchange/util/observer.py:5-6 | a handler is appended, duplicates included |
| Observer.Event.Emit | synthetic_exchange/util/observer.py:8-10 | emitting calls every handler in list order with the same arguments |
| Observer.CallsInOrder | synthetic_exchange/util/observer.py:8-10 | the i-th call goes to the i-th handler |
| Observer.CallsPerSubscription | synthetic_exchange/util/observer.py:5-10 | a handler subscribed k times is called k times per emit |
| Observer.SubscribeThenEmit | synthetic_exchange/util/observer.py:5-10 | one more subscription adds exactly one call, at the end |
| Text.LexLessTransitive | synthetic_exchange/experimental/OrderExpirationEntry.cpp:47 | the byte-wise string order is transitive |
| Text.LexLessTotal | synthetic_exchange/experimental/OrderExpirationEntry.cpp:47 | any two distinct strings are ordered one way |

## Left out

- The order book's process, queues and lock. The blocking `_do_work` loop with start, stop and wait is reduced to one dispatch step (`DoWorkStep`), and the `OrderEvents` observers are an event log.
- OrderBooks.MatchLoop: states the corrected path; the source follows it only for a book without a ledger. With a ledger the first `create` call raises on either side (transaction.py:93, agent.py:51-53), and on the buy side the assertion after it would raise too (orderbook.py:254, 271, 287). `OrderBooks.OrderBook.ProcessAsWritten` and `OrderBooks.OrderBook.DoWorkStep` model the raise (see Findings).
- OrderBooks.MatchLoopFills: states the corrected path; the source follows it only for a book without a ledger. With a ledger the first `create` call raises on either side (transaction.py:93, agent.py:51-53), and on the buy side the assertion after it would raise too (orderbook.py:254, 271, 287). `OrderBooks.OrderBook.ProcessAsWritten` and `OrderBooks.OrderBook.DoWorkStep` model the raise (see Findings).
- OrderBooks.MatchLoopReduces: states the corrected path; the source follows it only for a book without a ledger. With a ledger the first `create` call raises on either side (transaction.py:93, agent.py:51-53), and on the buy side the assertion after it would raise too (orderbook.py:254, 271, 287). `OrderBooks.OrderBook.ProcessAsWritten` and `OrderBooks.OrderBook.DoWorkStep` model the raise (see Findings).
- OrderBooks.MatchLoopContinues: states the corrected path; the source follows it only for a book without a ledger. With a ledger the first `create` call raises on either side (transaction.py:93, agent.py:51-53), and on the buy side the assertion after it would raise too (orderbook.py:254, 271, 287). `OrderBooks.OrderBook.ProcessAsWritten` and `OrderBooks.OrderBook.DoWorkStep` model the raise (see Findings).
- OrderBooks.OrderBook.TakeWholeOf: states the corrected path; the source follows it only for a book without a ledger. With a ledger the first `create` call raises on either side (transaction.py:93, agent.py:51-53), and on the buy side the assertion after it would raise too (orderbook.py:254, 271, 287). `OrderBooks.OrderBook.ProcessAsWritten` and `OrderBooks.OrderBook.DoWorkStep` model the raise (see Findings).
- OrderBooks.OrderBook.TakePartOf: states the corrected path; the source follows it only for a book without a ledger. With a ledger the first `create` call raises on either side (transaction.py:93, agent.py:51-53), and on the buy side the assertion after it would raise too (orderbook.py:254, 271, 287). `OrderBooks.OrderBook.ProcessAsWritten` and `OrderBooks.OrderBook.DoWorkStep` model the raise (see Findings).
- OrderBooks.OrderBook.PartialStep: states the corrected path; the source follows it only for a book without a ledger. With a ledger the first `create` call raises on either side (transaction.py:93, agent.py:51-53), and on the buy side the assertion after it would raise too (orderbook.py:254, 271, 287). `OrderBooks.OrderBook.ProcessAsWritten` and `OrderBooks.OrderBook.DoWorkStep` model the raise (see Findings).
- OrderBooks.OrderBook.FillStep: states the corrected path; the source follows it only for a book without a ledger. With a ledger the first `create` call raises on either side (transaction.py:93, agent.py:51-53), and on the buy side the assertion after it would raise too (orderbook.py:254, 271, 287). `OrderBooks.OrderBook.ProcessAsWritten` and `OrderBooks.OrderBook.DoWorkStep` model the raise (see Findings).
- OrderBooks.OrderBook.ReduceStep: states the corrected path; the source follows it only for a book without a ledger. With a ledger the first `create` call raises on either side (transaction.py:93, agent.py:51-53), and on the buy side the assertion after it would raise too (orderbook.py:254, 271, 287). `OrderBooks.OrderBook.ProcessAsWritten` and `OrderBooks.OrderBook.DoWorkStep` model the raise (see Findings).
- OrderBooks.OrderBook.MatchStep: states the corrected path; the source follows it only for a book without a ledger. With a ledger the first `create` call raises on either side (transaction.py:93, agent.py:51-53), and on the buy side the assertion after it would raise too (orderbook.py:254, 271, 287). `OrderBooks.OrderBook.ProcessAsWritten` and `OrderBooks.OrderBook.DoWorkStep` model the raise (see Findings).
- OrderBooks.OrderBook.ProcessBuy: states the corrected path; the source follows it only for a book without a ledger. With a ledger the first `create` call raises on either side (transaction.py:93, agent.py:51-53), and on the buy side the assertion after it would raise too (orderbook.py:254, 271, 287). `OrderBooks.OrderBook.ProcessAsWritten` and `OrderBooks.OrderBook.DoWorkStep` model the raise (see Findings).
- OrderBooks.OrderBook.ProcessSell: states the corrected path; the source follows it only for a book without a ledger. With a ledger the first `create` call raises on either side (transaction.py:93, agent.py:51-53), and on the buy side the assertion after it would raise too (orderbook.py:254, 271, 287). `OrderBooks.OrderBook.ProcessAsWritten` and `OrderBooks.OrderBook.DoWorkStep` model the raise (see Findings).
- OrderBooks.OrderBook.RecordTrade: logs a `create` call and returns, as the corrected `create` does. The book holds only whether it has a ledger, not the ledger itself. As written every `create` raises (`Ledger.Transactions.CreateAsWritten`), and `OrderBooks.OrderBook.ProcessAsWritten` halts after the first call. Which exception is raised (unknown agent, transaction.py:61-62; market mismatch, transaction.py:13-23; missing aggregate, transaction.py:79; the misspelled attribute, transaction.py:35 and 93) is not passed to the book.
- Agent strategies, their randomness and their actor loops (`Agent.start`/`stop`, the `Agents` process loop and its `on_*_event` stubs). They are outside the matching and ledger core.
- Exchanges.Exchange.constructor: builds each complete market's order book with a ledger, the intended wiring. As written `Transactions(agents=...)` omits the required `marketId` (transaction.py:50) and raises `TypeError` (exchange.py:95), so no ledger, book or market is stored, and every query on a listed symbol raises `AssertionError`. `Exchanges.StepAsWritten`, `Exchanges.BuildAsWritten` and `Exchanges.AsWrittenQueriesRaise` model that (see Findings). `Market(orderbook=...)` does not match `Market`'s constructor either. The queues are not modelled.
- Exchanges.BuiltKeys: states which markets the corrected constructor builds. As written none is built (`Exchanges.BuildAsWrittenAborts`, `Exchanges.OneMarketNeverBuilt`).
- Exchanges.ConstructedLookups: holds for the corrected constructor only. As written the best-price queries of every listed symbol raise `AssertionError` (`Exchanges.AsWrittenQueriesRaise`).
- Exchanges.Exchange.Symbols: a set, not a list in insertion order.
- Exchanges.Exchange.Orderbook: answers with the corrected snapshot, because the as-written one raises (see Findings).
- Markets.MarketRegistry.OrderEvent: ends at the hand-off. `on_order_event` calls the book's `process`, which is commented out (orderbook.py:129-139).
- Markets.MarketRegistry.OrderEvent: the `marketid` lookup is as written, but the order's arguments always carry integer market and agent ids. The strategies send lowercase `marketid`/`agentid` and `timestamp` keys (strategy/random_uniform.py:31-40, strategy/random_normal.py:29-38). `Order` reads `marketId`, `agentId` and `dateTime`, so every order forwarded as written has `None` ids and the clock's datetime. A `None` id is not modelled.
- Orders.MakeOrder: market and agent ids are integers. The `None` that `kwargs.get` gives for a missing `marketId` or `agentId` key is not modelled, although it is what every strategy-built order gets. With `None` agent ids, `item.agent_id != order.agent_id` (orderbook.py:241) is false for every resting order, so no order finds a counterparty and every one rests. With a `None` market id, `_process_sell`'s assertion (orderbook.py:318) fails. An absent `dateTime` is modelled: the clock reading `now` is used.
- Market price queries are functions of the side lists. The `Market` object's proxy plumbing is not modelled.
- Ledger.Transactions.Create: requires both agents to already have an aggregate record for the market. No code in the core ever creates one, so `create` would raise `KeyError` without it.
- Text.Lower: lowercases ASCII letters only. Python's `str.lower()` also folds non-ASCII letters; side names and agent kinds are ASCII words, and no Unicode case table is modelled.
- Ledger.Transactions.Create: reads and updates the bought value directly, the corrected behaviour. As written the `value_bought` property returns the misspelled `_value_bougth` and raises (agent.py:51-53); `Ledger.ProfitAsWritten` and `Ledger.Transactions.CreateAsWritten` model that (see Findings).
- Ledger.Transactions.HistoryList and Ledger.Transactions.HistoryMarketAgent: modelled as what they return, always an empty list, with no contract. Their membership tests can never match.
- `Transaction.__str__`, `Order.__str__`, the transaction description and the reports/UI: string formatting only.
- Floating point: prices and quantities are exact reals. Rounding, NaN and infinities are not modelled, nor NaN for the C++ doubles.
- JSON and gzip decoding, reading the file in `Parser.parse`, non-object JSON payloads and the float rounding inside `_str_to_int` are not modelled. A row carries an already decoded message, or none when decoding fails.
- EventParser.OtherHandler: treats the nested `o` object of a liquidation as present or missing as a whole. A partly filled one raises, as any missing key does, but which key raised is not tracked.
- The `EventType`, `ExchangeType` and `AssetType` enumerations are datatypes. Their `dtype` module is not part of this model.
- OrderBookMessages: `trading_pair`, the float conversion of `asks`/`bids`, `__hash__` and the comparison operators that `total_ordering` derives are left out. The first two are conversions; nothing in the core hashes a message or uses the derived operators.
- OrderExpiration.OrderExpirationEntry.Shadowed: does not fix the two timestamp fields. C++ leaves them uninitialised, so they hold arbitrary values here.
- Observer.Event.Emit: handlers are opaque values. What a handler does is not modelled, including a handler that subscribes during an emit.

## Findings

| source | as written | input that shows it | evidently intended | confidence | as-written member | corrected member |
|---|---|---|---|---|---|---|
| synthetic_exchange/orderbook.py:99-116 | the snapshot reads `item["timestamp"]` from order dicts projected on `_fields`, which has no `timestamp` (orders carry `datetime`), so it raises `KeyError` | a book with one bid and depth 1 | each level shows the order's time | not executed | BookViews.OrderbookAsWrittenRaises | BookViews.OrderbookSnapshotLevels |
| synthetic_exchange/agents.py:29-32 | after the first add the registry holds `dict_values`, and `list + dict_values` raises `TypeError` | two adds on a fresh registry | every add merges the new agents | not executed | AgentRegistry.SecondAddRaises | AgentRegistry.Agents.Add |
| synthetic_exchange/agents.py:72-74 | it calls `on_orderbook_event` on each agent, but `Agent` has no such method, so it raises `AttributeError` | a registry with one agent | each agent receives the event | not executed | AgentRegistry.OnOrderbookEventRaises | AgentRegistry.Agents.OnOrderbookEvent |
| synthetic_exchange/agent.py:59-66 | the staticmethod reads the class attribute `Transaction.history`, which does not exist, so it raises `AttributeError` | any market id | the price of the market's latest transaction | not executed | Ledger.AgentLastPriceAsWrittenRaises | Ledger.AgentLastPriceAfterTrade |
| synthetic_exchange/market.py:186-192 | `len(self._transactions.history)` is applied to a bound method, so it raises `TypeError` | any market | the price of the latest transaction | not executed | Markets.LastPriceAsWrittenRaises | Markets.LastPriceAfterTrade |
| synthetic_exchange/exchange.py:104-107 | the handler reads `market_id`, which is unbound when the first failing entry lacks a symbol or market id, so `UnboundLocalError` escapes the constructor | markets `[{marketId: 1, agents: []}]` | log the entry and skip it | not executed | Exchanges.FirstEntryWithoutSymbolAborts | Exchanges.SymbolKeys |
| synthetic_exchange/orderbook.py:190-199 | the loop builds each order with `Order(**kwargs)`, which never sets `cancel`, and then reads `order.cancel`, so every dequeued order raises `AttributeError` and nothing is ever matched | any queued order arguments, e.g. a buy of 1 at 10.0 | the constructor sets `cancel` (false by default) and the loop cancels or matches the order | not executed | OrderBooks.DoWorkOnBuiltOrder | OrderBooks.OrderBook.DoWorkStep |
| synthetic_exchange/orderbook.py:247-295 | after each buy-side `create` the loop asserts on `transactions.transactions`, which `Transactions` does not have. That assertion is never reached, because `create` raises first (next row), but either way the first crossing buy with a ledger makes one `create` call and raises, leaving the offer resting and the fill unsent | a book with a ledger and one offer of 1 at 10.0 from agent 2; agent 1 buys 1 at 10.0 | check that the ledger holds a transaction, then remove or reduce the offer and continue matching | not executed | OrderBooks.BuyWithLedgerRaises | OrderBooks.OrderBook.ProcessBuy |
| synthetic_exchange/agent.py:51-53 | the `value_bought` property returns `self._value_bougth`, which is never set, so `create` raises `AttributeError` at line 93 (or at line 35 for a party that has bought before) after appending the history rows and moving both positions; it never files the transaction or returns | two registered agents with a record for market 1; the first trade between them | `value_bought` returns `_value_bought`; `create` settles the trade, files it and returns it | not executed | Ledger.Transactions.CreateAsWritten | Ledger.Transactions.Create |
| synthetic_exchange/exchange.py:95-103 | `Transactions(agents=...)` omits the required `marketId` argument and raises `TypeError`; the handler logs it, so no order book or market is stored while the symbol stays listed, and `best_bid`, `best_ask` and `orderbook` on that symbol fail `assert market_id in self._markets.keys()` | markets `[{symbol: "BTCUSD", marketId: 1, agents: {}}]` with the six numeric keys | `Transactions(marketId=market_id, agents=...)`; every complete market gets its ledger and book | not executed | Exchanges.AsWrittenQueriesRaise | Exchanges.Exchange.constructor |
| synthetic_exchange/experimental/OrderExpirationEntry.cpp:12-22 | each parameter shadows its member and is assigned to itself, so nothing is stored | `("BTCUSD", "o1", 1.0, 2.0)` gives an empty trading pair | store the four arguments | not executed | OrderExpiration.ShadowedConstructorDropsArguments | OrderExpiration.OrderExpirationEntry.Of |
