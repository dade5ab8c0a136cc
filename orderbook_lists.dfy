/**
 * List operations the matching engine performs on its side lists
 * (synthetic_exchange/orderbook.py): lookup by id, removal of the first entry
 * with an id, the self-trade filter, and Python's stable `sorted` by price.
 *
 * The functions carry only length facts in their contracts; what they compute is
 * stated by the lemmas next to them, which callers invoke where they need it.
 */
module BookLists {
  import opened Wrappers
  import opened Orders

  /** Index of the first entry with `id`, or `|s|` when there is none (the `enumerate` search). */
  function FirstIndexOfId(s: seq<Order>, id: int): (i: nat)
    ensures i <= |s|
  {
    if s == [] then 0
    else if s[0].id == id then 0
    else 1 + FirstIndexOfId(s[1..], id)
  }

  predicate HasId(s: seq<Order>, id: int)
  {
    exists j :: 0 <= j < |s| && s[j].id == id
  }

  /** The search finds the first match, and finds one exactly when there is one. */
  lemma {:induction false} FirstIndexOfIdSpec(s: seq<Order>, id: int)
    ensures var i := FirstIndexOfId(s, id);
      (i < |s| ==> s[i].id == id) && (forall j :: 0 <= j < i ==> s[j].id != id)
      && (HasId(s, id) <==> i < |s|)
  {
    if s != [] && s[0].id != id {
      FirstIndexOfIdSpec(s[1..], id);
      if HasId(s, id) {
        var j :| 0 <= j < |s| && s[j].id == id;
        assert s[1..][j - 1].id == id;
      }
    }
  }

  /** An entry that is in the list is found by its id. */
  lemma InFound(s: seq<Order>, x: Order)
    requires x in s
    ensures HasId(s, x.id) && FirstIndexOfId(s, x.id) < |s|
  {
    var j :| 0 <= j < |s| && s[j] == x;
    FirstIndexOfIdSpec(s, x.id);
  }

  /** `del s[i]` for the first `i` whose entry has `id`; unchanged when no entry has it. */
  function WithoutFirst(s: seq<Order>, id: int): (r: seq<Order>)
    ensures FirstIndexOfId(s, id) < |s| ==> |r| == |s| - 1
    ensures FirstIndexOfId(s, id) == |s| ==> r == s
  {
    var i := FirstIndexOfId(s, id);
    if i < |s| then s[..i] + s[i + 1..] else s
  }

  /** Removal only drops an entry: every remaining entry was there before. */
  lemma WithoutFirstSubset(s: seq<Order>, id: int)
    ensures multiset(WithoutFirst(s, id)) <= multiset(s)
    ensures forall x :: x in WithoutFirst(s, id) ==> x in s
  {
    var i := FirstIndexOfId(s, id);
    if i < |s| {
      assert s == s[..i] + [s[i]] + s[i + 1..];
    }
    forall x | x in WithoutFirst(s, id)
      ensures x in s
    {
      assert x in multiset(WithoutFirst(s, id));
    }
  }

  /** The `enumerate` loop of `_remove_offer`/`_remove_bid`, on a value. */
  method IndexOfId(s: seq<Order>, id: int) returns (i: nat)
    ensures i == FirstIndexOfId(s, id)
    ensures i <= |s| && (i < |s| ==> s[i].id == id)
    ensures forall j :: 0 <= j < i ==> s[j].id != id
  {
    FirstIndexOfIdSpec(s, id);
    i := 0;
    while i < |s|
      invariant i <= |s|
      invariant forall j :: 0 <= j < i ==> s[j].id != id
      invariant FirstIndexOfId(s, id) >= i
    {
      if s[i].id == id {
        return;
      }
      i := i + 1;
    }
  }

  /**
   * Removes the first entry with `id` and reports whether there was one; every other
   * entry stays, in order.
   */
  method DeleteFirst(s: seq<Order>, id: int) returns (r: seq<Order>, found: bool)
    ensures found == HasId(s, id)
    ensures r == WithoutFirst(s, id)
    ensures found ==> exists i :: 0 <= i < |s| && s[i].id == id && r == s[..i] + s[i + 1..] &&
                                  forall j :: 0 <= j < i ==> s[j].id != id
    ensures !found ==> r == s
  {
    var i := IndexOfId(s, id);
    FirstIndexOfIdSpec(s, id);
    if i < |s| {
      r, found := s[..i] + s[i + 1..], true;
    } else {
      r, found := s, false;
    }
  }

  predicate UniqueIds(s: seq<Order>)
  {
    forall i, j :: 0 <= i < j < |s| ==> s[i].id != s[j].id
  }

  /** With distinct ids a second removal of the same id changes nothing (repeated cancels are safe). */
  lemma {:induction false} WithoutFirstTwice(s: seq<Order>, id: int)
    requires UniqueIds(s)
    ensures WithoutFirst(WithoutFirst(s, id), id) == WithoutFirst(s, id)
    ensures !HasId(WithoutFirst(s, id), id)
  {
    FirstIndexOfIdSpec(s, id);
    var i := FirstIndexOfId(s, id);
    var r := WithoutFirst(s, id);
    if i < |s| {
      assert r == s[..i] + s[i + 1..];
      forall j | 0 <= j < |r|
        ensures r[j].id != id
      {
        if j >= i { assert r[j] == s[j + 1]; }
      }
    }
    FirstIndexOfIdSpec(r, id);
  }

  // ---------------------------------------------------------------------
  // The self-trade filter of `_process_buy`/`_process_sell`
  // ---------------------------------------------------------------------

  /** `[item for item in side if item.agent_id != agentId]`. */
  function Eligible(s: seq<Order>, agentId: int): (r: seq<Order>)
    ensures |r| <= |s|
  {
    if s == [] then []
    else (if s[0].agentId != agentId then [s[0]] else []) + Eligible(s[1..], agentId)
  }

  /** The filter keeps exactly the entries of other agents. */
  lemma {:induction false} EligibleMembers(s: seq<Order>, agentId: int)
    ensures forall x :: x in Eligible(s, agentId) <==> x in s && x.agentId != agentId
  {
    if s != [] {
      EligibleMembers(s[1..], agentId);
      assert s == [s[0]] + s[1..];
    }
  }

  // ---------------------------------------------------------------------
  // Python's stable `sorted(..., key=attrgetter("price"), reverse=descending)`
  // ---------------------------------------------------------------------

  /** `a` may stand before `b` in the sorted output. */
  predicate InOrder(a: Order, b: Order, descending: bool)
  {
    if descending then a.price >= b.price else a.price <= b.price
  }

  predicate SortedBy(s: seq<Order>, descending: bool)
  {
    forall i, j :: 0 <= i < j < |s| ==> InOrder(s[i], s[j], descending)
  }

  /** The entries priced `p`, in their order in `s`; stability means sorting keeps this. */
  function AtPrice(s: seq<Order>, p: real): seq<Order>
  {
    if s == [] then []
    else AtPrice(s[..|s| - 1], p) + (if s[|s| - 1].price == p then [s[|s| - 1]] else [])
  }

  /** Places `x` after every entry of `r` that may precede it. */
  function Insert(r: seq<Order>, x: Order, descending: bool): (out: seq<Order>)
    ensures |out| == |r| + 1
  {
    if r == [] then [x]
    else if InOrder(r[|r| - 1], x, descending) then r + [x]
    else
      assert r == r[..|r| - 1] + [r[|r| - 1]];
      Insert(r[..|r| - 1], x, descending) + [r[|r| - 1]]
  }

  function SortByPrice(s: seq<Order>, descending: bool): (r: seq<Order>)
    ensures |r| == |s|
  {
    if s == [] then []
    else Insert(SortByPrice(s[..|s| - 1], descending), s[|s| - 1], descending)
  }

  lemma {:induction false} InsertPermutes(r: seq<Order>, x: Order, descending: bool)
    ensures multiset(Insert(r, x, descending)) == multiset(r) + multiset{x}
  {
    if r != [] && !InOrder(r[|r| - 1], x, descending) {
      var init, last := r[..|r| - 1], r[|r| - 1];
      InsertPermutes(init, x, descending);
      assert r == init + [last];
    }
  }

  /** The sort is a permutation. */
  lemma {:induction false} SortPermutes(s: seq<Order>, descending: bool)
    ensures multiset(SortByPrice(s, descending)) == multiset(s)
  {
    if s != [] {
      var init, last := s[..|s| - 1], s[|s| - 1];
      assert s == init + [last];
      assert multiset(s) == multiset(init) + multiset{last};
      assert SortByPrice(s, descending) == Insert(SortByPrice(init, descending), last, descending);
      SortPermutes(init, descending);
      InsertPermutes(SortByPrice(init, descending), last, descending);
    }
  }

  lemma AtPriceAppend(s: seq<Order>, x: Order, p: real)
    ensures AtPrice(s + [x], p) == AtPrice(s, p) + (if x.price == p then [x] else [])
  {
    assert (s + [x])[..|s|] == s;
  }

  lemma {:induction false} InsertSorted(r: seq<Order>, x: Order, descending: bool)
    requires SortedBy(r, descending)
    ensures SortedBy(Insert(r, x, descending), descending)
  {
    if r != [] && !InOrder(r[|r| - 1], x, descending) {
      var init, last := r[..|r| - 1], r[|r| - 1];
      InsertSorted(init, x, descending);
      var ins := Insert(init, x, descending);
      InsertPermutes(init, x, descending);
      forall y | y in ins
        ensures InOrder(y, last, descending)
      {
        assert y in multiset(ins);
        if y != x {
          assert y in init;
        }
      }
    }
  }

  lemma {:induction false} InsertStable(r: seq<Order>, x: Order, descending: bool, p: real)
    ensures AtPrice(Insert(r, x, descending), p) == AtPrice(r, p) + (if x.price == p then [x] else [])
  {
    if r == [] {
      AtPriceAppend([], x, p);
      assert [] + [x] == [x];
    } else if InOrder(r[|r| - 1], x, descending) {
      AtPriceAppend(r, x, p);
    } else {
      var init, last := r[..|r| - 1], r[|r| - 1];
      var tx := if x.price == p then [x] else [];
      var tl := if last.price == p then [last] else [];
      var ins := Insert(init, x, descending);
      assert Insert(r, x, descending) == ins + [last];
      InsertStable(init, x, descending, p);
      AtPriceAppend(ins, last, p);
      assert init + [last] == r;
      AtPriceAppend(init, last, p);
      if x.price == p {
        assert tl == [];
        assert (AtPrice(init, p) + tx) + tl == AtPrice(init, p) + tx == (AtPrice(init, p) + tl) + tx;
      } else {
        assert tx == [];
        assert (AtPrice(init, p) + tx) + tl == AtPrice(init, p) + tl == (AtPrice(init, p) + tl) + tx;
      }
    }
  }

  /** The sort orders by price: ascending, or descending when `descending`. */
  lemma {:induction false} SortSorted(s: seq<Order>, descending: bool)
    ensures SortedBy(SortByPrice(s, descending), descending)
  {
    if s != [] {
      SortSorted(s[..|s| - 1], descending);
      InsertSorted(SortByPrice(s[..|s| - 1], descending), s[|s| - 1], descending);
    }
  }

  /** One unfolding of `SortByPrice` on a non-empty sequence. */
  lemma SortByPriceLast(s: seq<Order>, descending: bool)
    requires s != []
    ensures SortByPrice(s, descending) == Insert(SortByPrice(s[..|s| - 1], descending), s[|s| - 1], descending)
  {
  }

  /** The sort is stable: entries of equal price keep their relative order. */
  lemma {:induction false} SortStable(s: seq<Order>, descending: bool, p: real)
    ensures AtPrice(SortByPrice(s, descending), p) == AtPrice(s, p)
  {
    if s != [] {
      var init, last := s[..|s| - 1], s[|s| - 1];
      var tail := if last.price == p then [last] else [];
      SortByPriceLast(s, descending);
      SortStable(init, descending, p);
      InsertStable(SortByPrice(init, descending), last, descending, p);
      assert AtPrice(SortByPrice(s, descending), p) == AtPrice(init, p) + tail;
      assert AtPrice(s, p) == AtPrice(init, p) + tail;
    }
  }

  lemma {:induction false} AtPriceNone(s: seq<Order>, p: real)
    requires forall j :: 0 <= j < |s| ==> s[j].price != p
    ensures AtPrice(s, p) == []
  {
    if s != [] { AtPriceNone(s[..|s| - 1], p); }
  }

  lemma {:induction false} AtPriceHead(s: seq<Order>, p: real, k: nat)
    requires k < |s| && s[k].price == p
    requires forall j :: 0 <= j < k ==> s[j].price != p
    ensures |AtPrice(s, p)| > 0 && AtPrice(s, p)[0] == s[k]
  {
    var init := s[..|s| - 1];
    if k == |s| - 1 {
      AtPriceNone(init, p);
    } else {
      AtPriceHead(init, p, k);
    }
  }

  // ---------------------------------------------------------------------
  // The resting order a matching step trades against
  // ---------------------------------------------------------------------

  /** `sorted(eligible, key=attrgetter("price"))[0]`. */
  function Best(e: seq<Order>): Order
    requires |e| > 0
  {
    SortByPrice(e, false)[0]
  }

  /** Reference definition by a scan: the first entry of lowest price. */
  function CheapestIndex(e: seq<Order>): (k: nat)
    requires |e| > 0
    ensures k < |e|
  {
    if |e| == 1 then 0
    else
      var k' := CheapestIndex(e[1..]);
      if e[0].price <= e[1 + k'].price then 0 else 1 + k'
  }

  /** The scan finds a lowest price, and no earlier entry has it. */
  lemma {:induction false} CheapestIndexSpec(e: seq<Order>)
    requires |e| > 0
    ensures forall j :: 0 <= j < |e| ==> e[CheapestIndex(e)].price <= e[j].price
    ensures forall j :: 0 <= j < CheapestIndex(e) ==> e[CheapestIndex(e)].price < e[j].price
  {
    if |e| > 1 {
      CheapestIndexSpec(e[1..]);
      var k' := CheapestIndex(e[1..]);
      forall j | 1 <= j < |e|
        ensures e[1 + k'].price <= e[j].price
      {
        assert e[j] == e[1..][j - 1];
      }
      forall j | 1 <= j < 1 + k'
        ensures e[1 + k'].price < e[j].price
      {
        assert e[j] == e[1..][j - 1];
      }
    }
  }

  /** The head of the sort is one of the candidates. */
  lemma BestIn(e: seq<Order>)
    requires |e| > 0
    ensures Best(e) in e
  {
    SortPermutes(e, false);
    assert SortByPrice(e, false)[0] in multiset(SortByPrice(e, false));
  }

  /** Price-time priority: the sorted head is the earliest entry among those of lowest price. */
  lemma BestIsCheapestFirst(e: seq<Order>)
    requires |e| > 0
    ensures Best(e) == e[CheapestIndex(e)]
    ensures forall x :: x in e ==> Best(e).price <= x.price
  {
    var sorted := SortByPrice(e, false);
    var k := CheapestIndex(e);
    var p := e[k].price;
    CheapestIndexSpec(e);
    SortSorted(e, false);
    SortPermutes(e, false);
    assert sorted[0] in multiset(e);
    assert e[k] in multiset(sorted);
    var j :| 0 <= j < |sorted| && sorted[j] == e[k];
    assert sorted[0].price <= sorted[j].price;
    assert sorted[0].price == p;
    AtPriceHead(sorted, p, 0);
    SortStable(e, false, p);
    AtPriceHead(e, p, k);
    forall x | x in e
      ensures sorted[0].price <= x.price
    {
      var i :| 0 <= i < |e| && e[i] == x;
    }
  }

  /**
   * A single scan that finds the same order as `Best(Eligible(s, agentId))`: the first entry of
   * lowest price among the entries of other agents, or `None` when every entry is the agent's own.
   */
  function CheapestOther(s: seq<Order>, agentId: int): Option<Order>
  {
    if s == [] then None
    else
      var rest := CheapestOther(s[1..], agentId);
      if s[0].agentId == agentId then rest
      else if rest.None? || s[0].price <= rest.value.price then Some(s[0])
      else rest
  }

  lemma {:induction false} CheapestOtherScan(s: seq<Order>, agentId: int)
    ensures var e := Eligible(s, agentId);
      CheapestOther(s, agentId) == if |e| == 0 then None else Some(e[CheapestIndex(e)])
  {
    if s != [] {
      CheapestOtherScan(s[1..], agentId);
      var e, e' := Eligible(s, agentId), Eligible(s[1..], agentId);
      if s[0].agentId != agentId {
        assert e == [s[0]] + e';
        if |e'| > 0 {
          assert e[1..] == e';
          var k' := CheapestIndex(e');
          assert CheapestIndex(e) == if e[0].price <= e'[k'].price then 0 else 1 + k';
          assert e[1 + k'] == e'[k'];
        }
      } else {
        assert e == e';
      }
    }
  }

  /** The scan and the sort select the same resting order (the sort is what the engine runs). */
  lemma CheapestOtherIsBest(s: seq<Order>, agentId: int)
    ensures var e := Eligible(s, agentId);
      CheapestOther(s, agentId) == if |e| == 0 then None else Some(Best(e))
  {
    CheapestOtherScan(s, agentId);
    var e := Eligible(s, agentId);
    if |e| > 0 {
      BestIsCheapestFirst(e);
    }
  }

  /** What the scan selects is an entry of another agent. */
  lemma {:induction false} CheapestOtherIn(s: seq<Order>, agentId: int)
    requires CheapestOther(s, agentId).Some?
    ensures CheapestOther(s, agentId).value in s
    ensures CheapestOther(s, agentId).value.agentId != agentId
  {
    var rest := CheapestOther(s[1..], agentId);
    if rest.Some? {
      CheapestOtherIn(s[1..], agentId);
    }
  }

  /** No entry of another agent is cheaper than what the scan selects. */
  lemma {:induction false} CheapestOtherMin(s: seq<Order>, agentId: int)
    ensures forall x :: x in s && x.agentId != agentId ==>
      CheapestOther(s, agentId).Some? && CheapestOther(s, agentId).value.price <= x.price
  {
    if s != [] {
      CheapestOtherMin(s[1..], agentId);
      forall x | x in s && x.agentId != agentId
        ensures CheapestOther(s, agentId).Some? && CheapestOther(s, agentId).value.price <= x.price
      {
        if x != s[0] {
          assert x in s[1..];
        }
      }
    }
  }
}
