/**
 * The order book message record (synthetic_exchange/experimental/orderbook_message.py): a type,
 * a content dictionary and an optional timestamp, with the id properties read from the content
 * and the equality and ordering used to sort a stream of messages.
 *
 * The content dictionary is reduced to the three keys the properties read, each possibly
 * missing (a missing key raises `KeyError`); the timestamp defaults to `None`, and ordering a
 * `None` against a number raises `TypeError`.
 */
module OrderBookMessages {
  import opened Wrappers

  /** The three message types the properties test for, and any other member of the enumeration. */
  datatype MessageType = Snapshot | Diff | Trade | OtherType(name: string)

  datatype Content = Content(updateId: Option<int>, firstUpdateId: Option<int>, tradeId: Option<int>)

  datatype Message = Message(msgType: MessageType, content: Content, timestamp: Option<real>)

  datatype MessageError = KeyError(key: string) | TypeError

  predicate HasUpdateId(m: Message)
  {
    m.msgType == Diff || m.msgType == Snapshot
  }

  predicate HasTradeId(m: Message)
  {
    m.msgType == Trade
  }

  /** `update_id`: the content's id for diffs and snapshots, -1 for any other type. */
  function UpdateId(m: Message): (r: Result<int, MessageError>)
    ensures !HasUpdateId(m) ==> r == Ok(-1)
    ensures HasUpdateId(m) ==> (r.Ok? <==> m.content.updateId.Some?)
    ensures r.Ok? && HasUpdateId(m) ==> r.value == m.content.updateId.value
    ensures r.Err? ==> r.error == KeyError("update_id")
  {
    if HasUpdateId(m) then
      if m.content.updateId.Some? then Ok(m.content.updateId.value) else Err(KeyError("update_id"))
    else Ok(-1)
  }

  /**
   * `first_update_id`: for a diff, the content's first id or else its update id; -1 for every
   * other type. The default of `dict.get` is evaluated first, so a diff without an update id
   * raises even when it carries a first id.
   */
  function FirstUpdateId(m: Message): (r: Result<int, MessageError>)
    ensures m.msgType != Diff ==> r == Ok(-1)
    ensures m.msgType == Diff ==> (r.Ok? <==> m.content.updateId.Some?)
    ensures m.msgType == Diff && r.Ok? ==>
      r.value == (if m.content.firstUpdateId.Some? then m.content.firstUpdateId.value else m.content.updateId.value)
  {
    if m.msgType == Diff then
      match UpdateId(m)
      case Err(e) => Err(e)
      case Ok(u) => Ok(if m.content.firstUpdateId.Some? then m.content.firstUpdateId.value else u)
    else Ok(-1)
  }

  /** `trade_id`: the content's id for trades, -1 for any other type. */
  function TradeId(m: Message): (r: Result<int, MessageError>)
    ensures !HasTradeId(m) ==> r == Ok(-1)
    ensures HasTradeId(m) ==> (r.Ok? <==> m.content.tradeId.Some?)
    ensures r.Ok? && HasTradeId(m) ==> r.value == m.content.tradeId.value
  {
    if HasTradeId(m) then
      if m.content.tradeId.Some? then Ok(m.content.tradeId.value) else Err(KeyError("trade_id"))
    else Ok(-1)
  }

  /** A message whose id properties can all be read without raising. */
  predicate Readable(m: Message)
  {
    (HasUpdateId(m) ==> m.content.updateId.Some?) && (HasTradeId(m) ==> m.content.tradeId.Some?)
  }

  /**
   * `__eq__`, evaluated left to right with short-circuit: same type, and then either the update
   * ids agree (for types that have one) or the trade ids agree.
   */
  function Eq(a: Message, b: Message): Result<bool, MessageError>
  {
    if a.msgType != b.msgType then Ok(false)
    else
      var first :=
        if HasUpdateId(a) then
          match UpdateId(a)
          case Err(e) => Err(e)
          case Ok(ua) =>
            match UpdateId(b)
            case Err(e) => Err(e)
            case Ok(ub) => Ok(ua == ub)
        else Ok(false);
      match first
      case Err(e) => Err(e)
      case Ok(true) => Ok(true)
      case Ok(false) =>
        match TradeId(a)
        case Err(e) => Err(e)
        case Ok(ta) =>
          match TradeId(b)
          case Err(e) => Err(e)
          case Ok(tb) => Ok(ta == tb)
  }

  /** Messages of different types are never equal. */
  lemma EqDifferentTypes(a: Message, b: Message)
    requires a.msgType != b.msgType
    ensures Eq(a, b) == Ok(false)
  {
  }

  /**
   * Any two readable messages of the same type other than trade compare equal, whatever their
   * update ids: both trade ids are -1.
   */
  lemma EqSameNonTrade(a: Message, b: Message)
    requires a.msgType == b.msgType && a.msgType != Trade
    requires Readable(a) && Readable(b)
    ensures Eq(a, b) == Ok(true)
  {
  }

  /** Two readable trades are equal exactly when their trade ids are. */
  lemma EqTrades(a: Message, b: Message)
    requires a.msgType == Trade && b.msgType == Trade
    requires Readable(a) && Readable(b)
    ensures Eq(a, b) == Ok(a.content.tradeId == b.content.tradeId)
  {
  }

  /**
   * On readable messages equality never raises and is an equivalence relation: reflexive,
   * symmetric and transitive.
   */
  lemma EqEquivalence(a: Message, b: Message, c: Message)
    requires Readable(a) && Readable(b) && Readable(c)
    ensures Eq(a, a) == Ok(true)
    ensures Eq(a, b).Ok? && Eq(a, b) == Eq(b, a)
    ensures Eq(a, b) == Ok(true) && Eq(b, c) == Ok(true) ==> Eq(a, c) == Ok(true)
  {
    if a.msgType == b.msgType {
      if a.msgType == Trade {
        EqTrades(a, b);
        EqTrades(b, a);
      } else {
        EqSameNonTrade(a, b);
        EqSameNonTrade(b, a);
      }
    }
  }

  /** Python's `<` on two timestamps, `None` being unordered against a number. */
  function TimestampLess(a: Option<real>, b: Option<real>): Result<bool, MessageError>
  {
    if a.Some? && b.Some? then Ok(a.value < b.value) else Err(TypeError)
  }

  /**
   * `__lt__`, evaluated left to right with short-circuit: smaller update id (both having one),
   * or smaller trade id (both trades), or an earlier differing timestamp, or else `a` has an
   * update id at all.
   */
  function Lt(a: Message, b: Message): Result<bool, MessageError>
  {
    var byUpdate :=
      if HasUpdateId(a) && HasUpdateId(b) then
        match UpdateId(a)
        case Err(e) => Err(e)
        case Ok(ua) =>
          match UpdateId(b)
          case Err(e) => Err(e)
          case Ok(ub) => Ok(ua < ub)
      else Ok(false);
    match byUpdate
    case Err(e) => Err(e)
    case Ok(true) => Ok(true)
    case Ok(false) =>
      var byTrade :=
        if HasTradeId(a) && HasTradeId(b) then
          match TradeId(a)
          case Err(e) => Err(e)
          case Ok(ta) =>
            match TradeId(b)
            case Err(e) => Err(e)
            case Ok(tb) => Ok(ta < tb)
        else Ok(false);
      match byTrade
      case Err(e) => Err(e)
      case Ok(true) => Ok(true)
      case Ok(false) =>
        if a.timestamp != b.timestamp then
          match TimestampLess(a.timestamp, b.timestamp)
          case Err(e) => Err(e)
          case Ok(true) => Ok(true)
          case Ok(false) => Ok(HasUpdateId(a))
        else Ok(HasUpdateId(a))
  }

  /** Timestamps that are both present or both missing never make the ordering raise. */
  predicate Comparable(a: Message, b: Message)
  {
    a.timestamp.Some? == b.timestamp.Some?
  }

  /**
   * A readable diff or snapshot is less than every readable message with a comparable
   * timestamp, itself included: the ordering is not irreflexive.
   */
  lemma UpdateMessagesAlwaysLess(a: Message, b: Message)
    requires HasUpdateId(a) && Readable(a) && Readable(b) && Comparable(a, b)
    ensures Lt(a, b) == Ok(true)
    ensures Lt(a, a) == Ok(true) && Eq(a, a) == Ok(true)
  {
  }

  /** Two readable trades at the same time are ordered by trade id, strictly. */
  lemma TradesByTradeId(a: Message, b: Message)
    requires a.msgType == Trade && b.msgType == Trade && Readable(a) && Readable(b)
    requires a.timestamp == b.timestamp
    ensures Lt(a, b) == Ok(a.content.tradeId.value < b.content.tradeId.value)
  {
  }

  /** A trade whose id is not the smaller one is less than another trade only when it is earlier. */
  lemma TradeOrderedByTimeOtherwise(a: Message, b: Message)
    requires a.msgType == Trade && b.msgType == Trade && Readable(a) && Readable(b)
    requires a.content.tradeId.value >= b.content.tradeId.value
    requires a.timestamp.Some? && b.timestamp.Some?
    ensures Lt(a, b) == Ok(a.timestamp.value < b.timestamp.value)
  {
  }

  /**
   * Ordering a message with a timestamp against one without raises once the id comparisons
   * have not decided it.
   */
  lemma MissingTimestampRaises(a: Message, b: Message)
    requires Readable(a) && Readable(b) && !HasUpdateId(a) && !HasTradeId(a)
    requires a.timestamp.Some? != b.timestamp.Some?
    ensures Lt(a, b) == Err(TypeError)
  {
  }
}
