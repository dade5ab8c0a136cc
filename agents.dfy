/** The per-market registry of agents (synthetic_exchange/agents.py). */
module AgentRegistry {
  import opened Wrappers
  import opened AgentRecords

  /** The exceptions the registry raises. */
  datatype RegistryError = TypeError | AttributeError(name: string)

  /** `{item.id: item for item in items}`: later items overwrite earlier ones with the same id. */
  function Keyed(items: seq<Agent>): map<int, Agent>
  {
    if items == [] then map[]
    else Keyed(items[..|items| - 1])[items[|items| - 1].id := items[|items| - 1]]
  }

  /** The position of the last item with id `k`, or `|items|` when there is none. */
  function LastWithId(items: seq<Agent>, k: int): (i: nat)
    ensures i <= |items|
  {
    if items == [] then 0
    else if items[|items| - 1].id == k then |items| - 1
    else if LastWithId(items[..|items| - 1], k) == |items| - 1 then |items|
    else LastWithId(items[..|items| - 1], k)
  }

  /** Keying a list holds exactly the ids in it, each mapped to the last item carrying it. */
  lemma {:induction false} KeyedSpec(items: seq<Agent>, k: int)
    ensures var i := LastWithId(items, k);
      (k in Keyed(items) <==> i < |items|)
      && (i < |items| ==>
            items[i].id == k && Keyed(items)[k] == items[i] && forall j :: i < j < |items| ==> items[j].id != k)
      && (i == |items| ==> forall j :: 0 <= j < |items| ==> items[j].id != k)
  {
    if items != [] {
      var init := items[..|items| - 1];
      KeyedSpec(init, k);
      var i' := LastWithId(init, k);
      if items[|items| - 1].id != k {
        if i' < |init| {
          assert LastWithId(items, k) == i';
          forall j | i' < j < |items|
            ensures items[j].id != k
          {
            if j < |init| { assert items[j] == init[j]; }
          }
        } else {
          assert LastWithId(items, k) == |items|;
          forall j | 0 <= j < |items|
            ensures items[j].id != k
          {
            if j < |init| { assert items[j] == init[j]; }
          }
        }
      }
    }
  }

  /** The comprehension over `agents + <registered values>`: registered agents win on an id clash. */
  function Merge(news: seq<Agent>, registered: map<int, Agent>): map<int, Agent>
  {
    Keyed(news) + registered
  }

  /** Keying a list files at most one entry per item. */
  lemma {:induction false} KeyedSize(items: seq<Agent>)
    ensures |Keyed(items)| <= |items|
  {
    if items != [] {
      var init := items[..|items| - 1];
      KeyedSize(init);
      var last := items[|items| - 1];
      assert Keyed(items).Keys == Keyed(init).Keys + {last.id};
      assert |Keyed(init).Keys + {last.id}| <= |Keyed(init).Keys| + |{last.id}|;
    }
  }

  /** A merge never drops a registered agent and files at most one new entry per new agent. */
  lemma MergeSize(news: seq<Agent>, registered: map<int, Agent>)
    ensures |registered| <= |Merge(news, registered)| <= |registered| + |news|
  {
    KeyedSize(news);
    var m := Merge(news, registered);
    assert m.Keys == Keyed(news).Keys + registered.Keys;
    assert |Keyed(news).Keys + registered.Keys| <= |Keyed(news).Keys| + |registered.Keys|;
    var extra := m.Keys - registered.Keys;
    assert m.Keys == registered.Keys + extra && registered.Keys * extra == {};
  }

  /** Every entry is filed under its agent's own id. */
  predicate KeyedById(m: map<int, Agent>)
  {
    forall k :: k in m ==> m[k].id == k
  }

  /**
   * After a merge the registry holds every id of both lists. A previously registered agent is
   * kept on a clash; a new id maps to the last new agent that carries it.
   */
  lemma MergeSpec(news: seq<Agent>, registered: map<int, Agent>, k: int)
    requires KeyedById(registered)
    ensures var m := Merge(news, registered);
      KeyedById(m)
      && (k in m <==> k in registered || exists j :: 0 <= j < |news| && news[j].id == k)
      && (k in registered ==> m[k] == registered[k])
      && (k !in registered && k in m ==>
            var i := LastWithId(news, k);
            i < |news| && m[k] == news[i] && forall j :: i < j < |news| ==> news[j].id != k)
  {
    KeyedSpec(news, k);
    forall k' | k' in Merge(news, registered)
      ensures Merge(news, registered)[k'].id == k'
    {
      KeyedSpec(news, k');
    }
  }

  /**
   * `Agents`. `managed` says whether `_agents` is still the manager dictionary made by the
   * constructor, whose `values()` comes back as a list; `add` replaces it by a plain `dict`.
   */
  class Agents {
    const marketId: int
    var agents: map<int, Agent>
    var managed: bool

    predicate Valid()
      reads this
    {
      KeyedById(agents)
    }

    constructor (marketId: int)
      ensures Valid() && this.marketId == marketId && agents == map[] && managed
    {
      this.marketId := marketId;
      agents := map[];
      managed := true;
    }

    /** `size`: the number of registered agents; zero exactly when nothing is registered. */
    function Size(): (n: nat)
      reads this
      ensures n == 0 <==> agents == map[]
    {
      |agents|
    }

    /** `get`: the agent filed under `agentId`, or `None` (logged) when there is none. */
    function Get(agentId: int): (r: Option<Agent>)
      reads this
      requires Valid()
      ensures r.Some? <==> agentId in agents
      ensures r.Some? ==> r.value == agents[agentId] && r.value.id == agentId
    {
      if agentId in agents then Some(agents[agentId]) else None
    }

    /**
     * `add` as written. The second call finds a plain `dict` whose `values()` is a view, and
     * `list + dict_values` raises `TypeError` before anything is rebound.
     */
    method AddAsWritten(news: seq<Agent>) returns (r: Result<(), RegistryError>)
      requires Valid()
      modifies this
      ensures Valid()
      ensures old(managed) ==> r.Ok? && agents == Merge(news, old(agents)) && !managed
      ensures !old(managed) ==> r == Err(TypeError) && agents == old(agents) && !managed
    {
      if !managed {
        return Err(TypeError);
      }
      MergeKeyedById(news, agents);
      agents := Merge(news, agents);
      managed := false;
      r := Ok(());
    }

    /** `add` with the registered values taken as a list, so every call merges. */
    method Add(news: seq<Agent>)
      requires Valid()
      modifies this
      ensures Valid()
      ensures agents == Merge(news, old(agents)) && !managed
    {
      MergeKeyedById(news, agents);
      agents := Merge(news, agents);
      managed := false;
    }

    /**
     * `on_orderbook_event` as written: `Agent` has no `on_orderbook_event` attribute, so the
     * first registered agent makes the loop raise.
     */
    function OnOrderbookEventAsWritten(): (r: Result<(), RegistryError>)
      reads this
      ensures r.Ok? <==> agents == map[]
    {
      if agents == map[] then Ok(()) else Err(AttributeError("on_orderbook_event"))
    }

    /**
     * `on_orderbook_event` handing the event to every registered agent once. The result lists
     * the ids of the agents reached, in the registry's iteration order.
     */
    method OnOrderbookEvent() returns (reached: seq<int>)
      ensures |reached| == |agents|
      ensures Members(reached) == agents.Keys
      ensures forall i, j :: 0 <= i < j < |reached| ==> reached[i] != reached[j]
    {
      reached := Enumerate(agents.Keys);
    }
  }

  /** Visits every id of `ids` once, in an unspecified order. */
  method Enumerate(ids: set<int>) returns (visited: seq<int>)
    ensures |visited| == |ids| && Members(visited) == ids
    ensures forall i, j :: 0 <= i < j < |visited| ==> visited[i] != visited[j]
  {
    visited := [];
    var todo := ids;
    while todo != {}
      invariant Members(visited) !! todo && Members(visited) + todo == ids
      invariant |visited| + |todo| == |ids|
      invariant forall i, j :: 0 <= i < j < |visited| ==> visited[i] != visited[j]
      decreases |todo|
    {
      NonEmpty(todo);
      var k :| k in todo;
      var next := visited + [k];
      assert next[..|visited|] == visited;
      MembersHold(visited);
      visited := next;
      todo := todo - {k};
    }
  }

  /** The ids in a list, as a set. */
  function Members(ids: seq<int>): set<int>
  {
    if ids == [] then {} else Members(ids[..|ids| - 1]) + {ids[|ids| - 1]}
  }

  lemma {:induction false} MembersHold(ids: seq<int>)
    ensures forall i :: 0 <= i < |ids| ==> ids[i] in Members(ids)
  {
    if ids != [] {
      var init := ids[..|ids| - 1];
      MembersHold(init);
      assert forall i :: 0 <= i < |init| ==> ids[i] == init[i];
    }
  }

  lemma NonEmpty(s: set<int>)
    requires s != {}
    ensures exists x :: x in s
  {
    if forall x :: x !in s {
      assert false;
    }
  }

  lemma MergeKeyedById(news: seq<Agent>, registered: map<int, Agent>)
    requires KeyedById(registered)
    ensures KeyedById(Merge(news, registered))
  {
    MergeSpec(news, registered, 0);
  }

  /** A registry holding one agent makes the as-written broadcast raise. */
  method OnOrderbookEventRaises() returns (r: Result<(), RegistryError>)
    ensures r == Err(AttributeError("on_orderbook_event"))
  {
    var ids := new AgentIds();
    var s := new Strategy();
    var a := new Agent(ids, s);
    var reg := new Agents(0);
    reg.Add([a]);
    assert a.id in reg.agents;
    r := reg.OnOrderbookEventAsWritten();
  }

  /** Two `add` calls on a fresh registry: the first merges, the second raises. */
  method SecondAddRaises() returns (first: Result<(), RegistryError>, second: Result<(), RegistryError>)
    ensures first.Ok? && second == Err(TypeError)
  {
    var ids := new AgentIds();
    var s1 := new Strategy();
    var a1 := new Agent(ids, s1);
    var s2 := new Strategy();
    var a2 := new Agent(ids, s2);
    var reg := new Agents(0);
    first := reg.AddAsWritten([a1]);
    second := reg.AddAsWritten([a2]);
  }
}
