/**
 * The publish/subscribe helper (synthetic_exchange/util/observer.py): an event keeps a list of
 * handlers; subscribing appends one, emitting calls each in turn with the same arguments. A
 * handler is an opaque value `H`, the positional and keyword arguments one value `A`, and the
 * effect of emitting is the sequence of calls it makes.
 */
module Observer {

  /** The calls `emit(args)` makes over a handler list: one per entry, in list order. */
  function Calls<H, A>(handlers: seq<H>, args: A): seq<(H, A)>
  {
    if handlers == [] then []
    else Calls(handlers[..|handlers| - 1], args) + [(handlers[|handlers| - 1], args)]
  }

  class Event<H(==), A> {
    var handlers: seq<H>

    constructor ()
      ensures handlers == []
    {
      handlers := [];
    }

    /** `subscribe`: the handler goes to the end of the list, duplicates included. */
    method Subscribe(handler: H)
      modifies this
      ensures handlers == old(handlers) + [handler]
    {
      handlers := handlers + [handler];
    }

    /** `emit`: calls every subscribed handler with `args`, in subscription order; the list is not changed. */
    method Emit(args: A) returns (calls: seq<(H, A)>)
      ensures calls == Calls(handlers, args)
    {
      calls := [];
      for i := 0 to |handlers|
        invariant calls == Calls(handlers[..i], args)
      {
        assert handlers[..i + 1][..i] == handlers[..i];
        calls := calls + [(handlers[i], args)];
      }
      assert handlers[..|handlers|] == handlers;
    }
  }

  /** The i-th call goes to the i-th handler, with the emitted arguments. */
  lemma {:induction false} CallsInOrder<H, A>(handlers: seq<H>, args: A)
    ensures |Calls(handlers, args)| == |handlers|
    ensures forall i :: 0 <= i < |handlers| ==> Calls(handlers, args)[i] == (handlers[i], args)
  {
    if handlers != [] {
      CallsInOrder(handlers[..|handlers| - 1], args);
    }
  }

  /** A handler subscribed k times is called k times per emit. */
  lemma {:induction false} CallsPerSubscription<H, A>(handlers: seq<H>, args: A, h: H)
    ensures multiset(Calls(handlers, args))[(h, args)] == multiset(handlers)[h]
  {
    if handlers != [] {
      var init := handlers[..|handlers| - 1];
      CallsPerSubscription(init, args, h);
      assert handlers == init + [handlers[|handlers| - 1]];
    }
  }

  /** After one more subscription, an emit makes the calls it made before and then calls the new handler. */
  lemma {:induction false} SubscribeThenEmit<H, A>(handlers: seq<H>, h: H, args: A)
    ensures Calls(handlers + [h], args) == Calls(handlers, args) + [(h, args)]
  {
    assert (handlers + [h])[..|handlers|] == handlers;
  }
}
