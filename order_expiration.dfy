/**
 * An order's expiry record (synthetic_exchange/experimental/OrderExpirationEntry.cpp): four
 * member fields, the constructors and assignment that fill them, the getters, and the ordering
 * by expiry time with the client order id as tie-breaker. C++ `double` is `real` (no NaN) and
 * `std::string` comparison is the byte-wise lexicographic order `Text.LexLess`.
 */
module OrderExpiration {
  import opened Text

  class OrderExpirationEntry {
    var tradingPair: string
    var orderId: string
    var timestamp: real
    var expirationTimestamp: real

    /** The default constructor: empty strings and zero timestamps. */
    constructor ()
      ensures tradingPair == "" && orderId == ""
      ensures timestamp == 0.0 && expirationTimestamp == 0.0
    {
      tradingPair := "";
      orderId := "";
      timestamp := 0.0;
      expirationTimestamp := 0.0;
    }

    /**
     * The four-argument constructor as written: each parameter shadows its member and is
     * assigned to itself, so the string members keep their default-constructed empty value and
     * the two `double` members are left uninitialised (arbitrary here).
     */
    constructor Shadowed(tradingPair: string, orderId: string, timestamp: real, expirationTimestamp: real)
      ensures this.tradingPair == "" && this.orderId == ""
    {
      this.tradingPair := "";
      this.orderId := "";
    }

    /** The four-argument constructor as evidently intended: each argument is stored in its member. */
    constructor Of(tradingPair: string, orderId: string, timestamp: real, expirationTimestamp: real)
      ensures this.tradingPair == tradingPair && this.orderId == orderId
      ensures this.timestamp == timestamp && this.expirationTimestamp == expirationTimestamp
    {
      this.tradingPair := tradingPair;
      this.orderId := orderId;
      this.timestamp := timestamp;
      this.expirationTimestamp := expirationTimestamp;
    }

    /** The copy constructor: a new entry with all four fields of `other`. */
    constructor Copy(other: OrderExpirationEntry)
      ensures SameFields(this, other)
    {
      tradingPair := other.tradingPair;
      orderId := other.orderId;
      timestamp := other.timestamp;
      expirationTimestamp := other.expirationTimestamp;
    }

    /** `operator=`: copies all four fields of `other` (possibly this entry itself) and returns this entry. */
    method Assign(other: OrderExpirationEntry) returns (r: OrderExpirationEntry)
      modifies this
      ensures r == this
      ensures tradingPair == old(other.tradingPair) && orderId == old(other.orderId)
      ensures timestamp == old(other.timestamp) && expirationTimestamp == old(other.expirationTimestamp)
    {
      tradingPair := other.tradingPair;
      orderId := other.orderId;
      timestamp := other.timestamp;
      expirationTimestamp := other.expirationTimestamp;
      r := this;
    }

    function GetTradingPair(): string
      reads this
    {
      tradingPair
    }

    function GetClientOrderId(): string
      reads this
    {
      orderId
    }

    function GetTimestamp(): real
      reads this
    {
      timestamp
    }

    function GetExpirationTimestamp(): real
      reads this
    {
      expirationTimestamp
    }
  }

  /** Two entries hold the same four field values. */
  predicate SameFields(a: OrderExpirationEntry, b: OrderExpirationEntry)
    reads a, b
  {
    a.tradingPair == b.tradingPair && a.orderId == b.orderId
    && a.timestamp == b.timestamp && a.expirationTimestamp == b.expirationTimestamp
  }

  /** The getters read back exactly the four fields: entries with equal getters hold equal fields. */
  lemma GettersDetermineFields(a: OrderExpirationEntry, b: OrderExpirationEntry)
    ensures SameFields(a, b) <==>
      a.GetTradingPair() == b.GetTradingPair() && a.GetClientOrderId() == b.GetClientOrderId()
      && a.GetTimestamp() == b.GetTimestamp() && a.GetExpirationTimestamp() == b.GetExpirationTimestamp()
  {
  }

  /** `operator<`: earlier expiry first; at equal expiry, the smaller client order id first. */
  predicate Less(a: OrderExpirationEntry, b: OrderExpirationEntry)
    reads a, b
  {
    if a.expirationTimestamp == b.expirationTimestamp then LexLess(a.orderId, b.orderId)
    else a.expirationTimestamp < b.expirationTimestamp
  }

  /** No entry is before itself, nor before an entry with its expiry and order id. */
  lemma LessIrreflexive(a: OrderExpirationEntry, b: OrderExpirationEntry)
    requires a.expirationTimestamp == b.expirationTimestamp && a.orderId == b.orderId
    ensures !Less(a, b)
  {
    LexLessIrreflexive(a.orderId);
  }

  /** Never both `a < b` and `b < a`. */
  lemma LessAsymmetric(a: OrderExpirationEntry, b: OrderExpirationEntry)
    requires Less(a, b)
    ensures !Less(b, a)
  {
    if a.expirationTimestamp == b.expirationTimestamp {
      LexLessAsymmetric(a.orderId, b.orderId);
    }
  }

  /** The ordering is transitive, so a `std::set` or priority queue of entries is well-behaved. */
  lemma LessTransitive(a: OrderExpirationEntry, b: OrderExpirationEntry, c: OrderExpirationEntry)
    requires Less(a, b) && Less(b, c)
    ensures Less(a, c)
  {
    if a.expirationTimestamp == b.expirationTimestamp == c.expirationTimestamp {
      LexLessTransitive(a.orderId, b.orderId, c.orderId);
    }
  }

  /**
   * Two entries are unordered exactly when they share expiry and order id: the trading pair and
   * creation timestamp play no part.
   */
  lemma LessTotal(a: OrderExpirationEntry, b: OrderExpirationEntry)
    ensures !Less(a, b) && !Less(b, a) <==>
      a.expirationTimestamp == b.expirationTimestamp && a.orderId == b.orderId
  {
    if a.expirationTimestamp == b.expirationTimestamp {
      if a.orderId == b.orderId {
        LexLessIrreflexive(a.orderId);
      } else {
        LexLessTotal(a.orderId, b.orderId);
      }
    }
  }

  /**
   * The four-argument constructor drops its arguments: an entry made for pair "BTCUSD" and order
   * "o1" reports an empty pair and an empty order id, whereas the intended constructor keeps them.
   */
  method ShadowedConstructorDropsArguments() returns (asWritten: string, intended: string)
    ensures asWritten == "" && intended == "BTCUSD"
  {
    var e := new OrderExpirationEntry.Shadowed("BTCUSD", "o1", 1.0, 2.0);
    var f := new OrderExpirationEntry.Of("BTCUSD", "o1", 1.0, 2.0);
    asWritten := e.GetTradingPair();
    intended := f.GetTradingPair();
  }
}
