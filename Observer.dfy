/** EventManager: an append-only listener list with synchronous, in-order broadcast. */
module Observer {
  import opened Env
  import opened Broadcast

  /** The calls made by notify(payload) over `listeners`. */
  function NotifyTrace(listeners: seq<ListenerId>, payload: Payload): seq<Event>
  {
    ForEachCall(listeners, (l: ListenerId) => Updated(l, payload))
  }

  /** notify delivers the payload to each subscriber, in subscription order, and makes no other call. */
  lemma NotifyInOrder(listeners: seq<ListenerId>, payload: Payload)
    ensures |NotifyTrace(listeners, payload)| == |listeners|
    ensures forall i :: 0 <= i < |listeners| ==> NotifyTrace(listeners, payload)[i] == Updated(listeners[i], payload)
  {
    forall i | 0 <= i < |listeners| ensures NotifyTrace(listeners, payload)[i] == Updated(listeners[i], payload) {
      ForEachCallAt(listeners, (l: ListenerId) => Updated(l, payload), i);
    }
  }

  /** A listener is updated by notify(payload) iff it has been subscribed, and only with that payload. */
  lemma NotifyReachesSubscribersOnly(listeners: seq<ListenerId>, payload: Payload, l: ListenerId, q: Payload)
    ensures Updated(l, q) in NotifyTrace(listeners, payload) <==> l in listeners && q == payload
  {
    ForEachCallOnly(listeners, (l: ListenerId) => Updated(l, payload), Updated(l, q));
  }

  /** Each listener is updated exactly as many times as it has been subscribed. */
  lemma {:induction false} NotifyExactlyOnce(listeners: seq<ListenerId>, payload: Payload, l: ListenerId)
    ensures multiset(NotifyTrace(listeners, payload))[Updated(l, payload)] == multiset(listeners)[l]
  {
    if listeners != [] {
      NotifyExactlyOnce(listeners[1..], payload, l);
      assert listeners == [listeners[0]] + listeners[1..];
    }
  }

  class EventManager {
    var listeners: seq<ListenerId>

    constructor()
      ensures listeners == []
    {
      listeners := [];
    }

    /** Appends one listener at the end; earlier listeners are untouched. */
    method Subscribe(listener: ListenerId)
      modifies this
      ensures listeners == old(listeners) + [listener]
    {
      listeners := listeners + [listener];
    }

    /** Delivers the payload to every subscribed listener once, in subscription order. */
    method Notify(payload: Payload, env: Environment)
      modifies env`log
      ensures listeners == old(listeners)
      ensures env.log == old(env.log) + NotifyTrace(listeners, payload)
    {
      var i := 0;
      while i < |listeners|
        invariant 0 <= i <= |listeners|
        invariant env.log == old(env.log) + NotifyTrace(listeners[..i], payload)
      {
        env.Update(listeners[i], payload);
        ForEachCallSnoc(listeners[..i], listeners[i], (l: ListenerId) => Updated(l, payload));
        assert listeners[..i + 1] == listeners[..i] + [listeners[i]];
        i := i + 1;
      }
      assert listeners[..i] == listeners;
    }
  }
}
