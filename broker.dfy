/** The event consumer of the RabbitMQ client: it binds a queue to routing keys
    on the topic exchange, then hands every delivered message to a handler, one
    at a time, and acknowledges it or rejects it without requeue.

    The handler is a function from the consumer's state and the message's
    payload to either a new state or an exception; the state is whatever the
    handler owns (the product table, the sales reports). A handler that throws
    leaves that state as it was (the handlers roll back or throw before they
    write). */
module Broker {

  import opened Common

  /** `string|array $routingKeys` */
  datatype RoutingKeys = Single(key: string) | Several(keys: seq<string>)

  /** `(array) $routingKeys`: a single key becomes a one-element list. */
  function KeyList(rk: RoutingKeys): (keys: seq<string>)
    ensures rk.Single? ==> keys == [rk.key]
    ensures rk.Several? ==> keys == rk.keys
  {
    match rk
    case Single(k) => [k]
    case Several(ks) => ks
  }

  datatype Binding = Binding(queue: string, exchange: string, routingKey: string)

  /** What `json_decode($body, true)` makes of a message body. */
  datatype Body<P> =
    | Undecodable          // not JSON: json_decode gives null
    | JsonNull             // the JSON literal null
    | JsonScalar           // a number, string or boolean: not an array
    | JsonArray(payload: P)

  datatype Delivery<P> = Delivery(tag: nat, body: Body<P>)

  datatype Settlement = Ack(tag: nat) | Nack(tag: nat, requeue: bool)

  datatype Handled<S> = Returned(state: S) | Threw(message: string)

  /** The payload handed to the handler: `json_decode(...) ?? []`. A scalar
      fails the handler's `array` parameter type, which throws; None. */
  function PayloadOf<P>(body: Body<P>, empty: P): (p: Option<P>)
    ensures body.Undecodable? || body.JsonNull? ==> p == Some(empty)
    ensures body.JsonArray? ==> p == Some(body.payload)
    ensures p.None? <==> body.JsonScalar?
  {
    match body
    case Undecodable => Some(empty)
    case JsonNull => Some(empty)
    case JsonScalar => None
    case JsonArray(payload) => Some(payload)
  }

  datatype Step<S> = Step(state: S, settlement: Settlement)

  /** The callback for one message. */
  function Deliver<S, P>(state: S, d: Delivery<P>, handler: (S, P) -> Handled<S>, empty: P): (r: Step<S>)
    // a handler that returns acks the message; anything thrown nacks it without requeue
    ensures r.settlement.tag == d.tag
    ensures r.settlement.Ack? <==>
      PayloadOf(d.body, empty).Some? && handler(state, PayloadOf(d.body, empty).value).Returned?
    ensures r.settlement.Ack? ==> r.state == handler(state, PayloadOf(d.body, empty).value).state
    ensures r.settlement.Nack? ==> !r.settlement.requeue && r.state == state
  {
    match PayloadOf(d.body, empty)
    case None => Step(state, Nack(d.tag, false))
    case Some(payload) =>
      match handler(state, payload)
      case Returned(next) => Step(next, Ack(d.tag))
      case Threw(_) => Step(state, Nack(d.tag, false))
  }

  datatype Drained<S> = Drained(state: S, settlements: seq<Settlement>)

  /** Messages handled strictly one after another, each on the state the
      previous one left. */
  function Drain<S, P>(state: S, ds: seq<Delivery<P>>, handler: (S, P) -> Handled<S>, empty: P): (r: Drained<S>)
    // exactly one settlement per delivered message, in delivery order, never requeued
    ensures |r.settlements| == |ds|
    ensures forall i :: 0 <= i < |ds| ==> r.settlements[i].tag == ds[i].tag
    ensures forall i :: 0 <= i < |ds| ==> r.settlements[i].Nack? ==> !r.settlements[i].requeue
  {
    if ds == [] then Drained(state, [])
    else
      var n := |ds| - 1;
      var before := Drain(state, ds[..n], handler, empty);
      var last := Deliver(before.state, ds[n], handler, empty);
      assert forall i :: 0 <= i < n ==> ds[..n][i] == ds[i];
      Drained(last.state, before.settlements + [last.settlement])
  }

  /** Handling more messages never changes how the earlier ones were settled. */
  lemma {:induction false} SettlementsAreFinal<S, P>(state: S, ds: seq<Delivery<P>>,
                                                   handler: (S, P) -> Handled<S>, empty: P, j: nat)
    requires j <= |ds|
    ensures Drain(state, ds, handler, empty).settlements[..j] == Drain(state, ds[..j], handler, empty).settlements
  {
    if j < |ds| {
      var n := |ds| - 1;
      SettlementsAreFinal(state, ds[..n], handler, empty, j);
      assert ds[..n][..j] == ds[..j];
    } else {
      assert ds[..j] == ds;
    }
  }

  /** Message i is acked exactly when its handler returned on the state the
      messages before it left, and is otherwise nacked without requeue. */
  lemma AckedIffHandlerReturned<S, P>(state: S, ds: seq<Delivery<P>>, handler: (S, P) -> Handled<S>, empty: P, i: nat)
    requires i < |ds|
    ensures Drain(state, ds, handler, empty).settlements[i] ==
      Deliver(Drain(state, ds[..i], handler, empty).state, ds[i], handler, empty).settlement
  {
    SettlementsAreFinal(state, ds, handler, empty, i + 1);
    assert ds[..i + 1][..i] == ds[..i];
    assert Drain(state, ds, handler, empty).settlements[i] == Drain(state, ds, handler, empty).settlements[..i + 1][i];
  }

  /** If every message is dropped, the state at the end is the state at the
      start. */
  lemma {:induction false} DroppedMessagesChangeNothing<S, P>(state: S, ds: seq<Delivery<P>>,
                                                            handler: (S, P) -> Handled<S>, empty: P)
    requires forall i :: 0 <= i < |ds| ==> Drain(state, ds, handler, empty).settlements[i].Nack?
    ensures Drain(state, ds, handler, empty).state == state
  {
    if ds != [] {
      var n := |ds| - 1;
      SettlementsAreFinal(state, ds, handler, empty, n);
      forall i | 0 <= i < n
        ensures Drain(state, ds[..n], handler, empty).settlements[i].Nack?
      {
        assert Drain(state, ds, handler, empty).settlements[..n][i] == Drain(state, ds, handler, empty).settlements[i];
      }
      DroppedMessagesChangeNothing(state, ds[..n], handler, empty);
    }
  }

  /** The channel: its bindings, the messages waiting on the queue and the
      acknowledgements sent so far. */
  class Channel<P> {
    const exchange: string
    var bindings: seq<Binding>
    var queue: seq<Delivery<P>>
    var settled: seq<Settlement>

    constructor (exchange: string, waiting: seq<Delivery<P>>)
      ensures this.exchange == exchange && bindings == [] && queue == waiting && settled == []
    {
      this.exchange := exchange;
      bindings := [];
      queue := waiting;
      settled := [];
    }

    /** `consume`: bind once per routing key, then handle the waiting messages
        one at a time until the queue is empty. */
    method Consume<S>(queueName: string, rk: RoutingKeys, handler: (S, P) -> Handled<S>, empty: P, init: S)
      returns (final: S)
      modifies this
      ensures |bindings| == |old(bindings)| + |KeyList(rk)|
      ensures bindings[..|old(bindings)|] == old(bindings)
      ensures forall i :: 0 <= i < |KeyList(rk)| ==>
        bindings[|old(bindings)| + i] == Binding(queueName, exchange, KeyList(rk)[i])
      ensures queue == []
      ensures final == Drain(init, old(queue), handler, empty).state
      ensures settled == old(settled) + Drain(init, old(queue), handler, empty).settlements
    {
      var keys := KeyList(rk);
      for k := 0 to |keys|
        invariant |bindings| == |old(bindings)| + k
        invariant bindings[..|old(bindings)|] == old(bindings)
        invariant forall i :: 0 <= i < k ==> bindings[|old(bindings)| + i] == Binding(queueName, exchange, keys[i])
        invariant queue == old(queue) && settled == old(settled)
      {
        bindings := bindings + [Binding(queueName, exchange, keys[k])];
      }
      ghost var bound := bindings;
      ghost var waiting := queue;
      final := init;
      var k := 0;
      while queue != []
        invariant 0 <= k <= |waiting| && queue == waiting[k..] && bindings == bound
        invariant final == Drain(init, waiting[..k], handler, empty).state
        invariant settled == old(settled) + Drain(init, waiting[..k], handler, empty).settlements
        decreases |queue|
      {
        var message := queue[0];
        assert message == waiting[k];
        assert waiting[..k + 1][..k] == waiting[..k];
        var step := Deliver(final, message, handler, empty);
        final := step.state;
        settled := settled + [step.settlement];
        queue := queue[1..];
        k := k + 1;
      }
      assert waiting[..k] == waiting;
    }
  }
}
