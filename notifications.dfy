/**
 * The notification channel: an ordered list of registered listeners and the
 * synchronous fan-out of every event to each of them, in registration order.
 * Listeners are opaque identities; what a listener does with an event (the
 * console display) is outside the model, so a delivery is recorded as a
 * (listener, event) pair.
 */
module Notifications {

  /** The identity of a registered listener; listeners are compared by identity. */
  type ObserverId = nat

  /** The three notification subjects: balance credited, item dispensed, change returned. */
  datatype Event =
    | BalanceUpdated(balance: int)
    | Dispensed(name: string, remaining: nat, balance: int)
    | ChangeReturned(amount: int)

  datatype Delivery = Delivery(observer: ObserverId, event: Event)

  /** One event handed to every listener, once each, in list order. */
  function Fanout(observers: seq<ObserverId>, e: Event): (ds: seq<Delivery>)
    ensures |ds| == |observers|
    ensures forall i :: 0 <= i < |ds| ==> ds[i] == Delivery(observers[i], e)
  {
    if observers == [] then [] else [Delivery(observers[0], e)] + Fanout(observers[1..], e)
  }

  lemma FanoutSnoc(observers: seq<ObserverId>, o: ObserverId, e: Event)
    ensures Fanout(observers + [o], e) == Fanout(observers, e) + [Delivery(o, e)]
  {
  }

  /**
   * A sequence of events, each fanned out in turn. A plain definition: its
   * ensures only spell out the no-event and one-event cases that the verbs
   * produce, and BroadcastAppend carries the reasoning about longer traces.
   */
  function Broadcast(observers: seq<ObserverId>, events: seq<Event>): (ds: seq<Delivery>)
    ensures events == [] ==> ds == []
    ensures |events| == 1 ==> ds == Fanout(observers, events[0])
  {
    if events == [] then [] else Fanout(observers, events[0]) + Broadcast(observers, events[1..])
  }

  lemma {:induction false} BroadcastAppend(observers: seq<ObserverId>, a: seq<Event>, b: seq<Event>)
    ensures Broadcast(observers, a + b) == Broadcast(observers, a) + Broadcast(observers, b)
  {
    if a == [] {
      assert a + b == b;
    } else {
      assert (a + b)[0] == a[0];
      assert (a + b)[1..] == a[1..] + b;
      BroadcastAppend(observers, a[1..], b);
    }
  }

  /** Two broadcasts recorded one after the other read as one broadcast of both event lists. */
  lemma LogThenLog(log: seq<Delivery>, observers: seq<ObserverId>, a: seq<Event>, b: seq<Event>)
    ensures log + Broadcast(observers, a) + Broadcast(observers, b) == log + Broadcast(observers, a + b)
  {
    BroadcastAppend(observers, a, b);
  }

  /** The position of the first entry equal to o. */
  function FirstIndex(observers: seq<ObserverId>, o: ObserverId): (k: nat)
    requires o in observers
    ensures k < |observers| && observers[k] == o
    ensures forall j :: 0 <= j < k ==> observers[j] != o
  {
    if observers[0] == o then 0 else 1 + FirstIndex(observers[1..], o)
  }

  /**
   * Unregistering removes only the first entry equal to o and keeps the rest
   * in order; an absent o leaves the list as it is.
   */
  function RemoveFirst(observers: seq<ObserverId>, o: ObserverId): (r: seq<ObserverId>)
    ensures o !in observers ==> r == observers
    ensures o in observers ==>
      var k := FirstIndex(observers, o); r == observers[..k] + observers[k + 1..]
    ensures o in observers ==> |r| + 1 == |observers|
  {
    if observers == [] then []
    else if observers[0] == o then observers[1..]
    else
      var rest := RemoveFirst(observers[1..], o);
      assert o in observers[1..] ==> observers[1..][..FirstIndex(observers[1..], o)] == observers[1..FirstIndex(observers, o)];
      [observers[0]] + rest
  }
}
