/**
 The broker-facing consumer: hands each delivered "order placed" event to the order
 service and turns the outcome into one manual acknowledgment on the delivery's channel.
 */
module OrderEventListener {
  import opened Orders
  import opened OrderStore
  import OrderService

  /** A failed delivery is always handed back to its queue rather than dead-lettered. */
  const Requeue: bool := true

  /** The properties of a delivered message that the listener reads. */
  datatype Message = Message(deliveryTag: Int64)

  /** Manual acknowledgment calls on the channel. */
  datatype ChannelCall =
    | BasicAck(deliveryTag: Int64, multiple: bool)
    | BasicNack(deliveryTag: Int64, multiple: bool, requeue: bool)

  /** Everything one delivery causes, in order: the service's effects, then channel calls. */
  datatype Action = Did(effect: OrderService.Effect) | Called(call: ChannelCall)

  /** Result of handling one delivery. */
  datatype Handled = Handled(world: OrderService.World, actions: seq<Action>)

  /** The service's effects, as actions. */
  function Lift(effects: seq<OrderService.Effect>): (r: seq<Action>)
    ensures |r| == |effects|
    ensures forall i :: 0 <= i < |effects| ==> r[i] == Did(effects[i])
  {
    if effects == [] then [] else [Did(effects[0])] + Lift(effects[1..])
  }

  /** The channel calls among `actions`, in order. */
  function Calls(actions: seq<Action>): seq<ChannelCall>
  {
    if actions == [] then []
    else (match actions[0] case Called(k) => [k] case Did(_) => []) + Calls(actions[1..])
  }

  /** Channel calls, as actions. */
  function LiftCalls(calls: seq<ChannelCall>): (r: seq<Action>)
    ensures |r| == |calls|
    ensures forall i :: 0 <= i < |calls| ==> r[i] == Called(calls[i])
  {
    if calls == [] then [] else [Called(calls[0])] + LiftCalls(calls[1..])
  }

  /** The try/catch around the service call: the channel calls issued once the service
      has completed. `basicAck` sits inside the try block, so when it throws
      (`ackThrows`) the catch block still issues the negative acknowledgment. */
  function Decision(completion: OrderService.Completion, tag: Int64, ackThrows: bool): seq<ChannelCall>
  {
    var ack := BasicAck(tag, false);
    var nack := BasicNack(tag, false, Requeue);
    if completion == OrderService.Returned then
      if ackThrows then [ack, nack] else [ack]
    else [nack]
  }

  /** `handleOrderPlaced` of the listener: the service runs first and the channel calls
      follow its effects. */
  function HandleOrderPlaced(
    w: OrderService.World, e: OrderPlacedEvent, m: Message,
    c: OrderService.Clock, f: OrderService.Fault, ackThrows: bool): (r: Handled)
    requires Keyed(w.store)
    ensures r.world == OrderService.HandleOrderPlaced(w, e, c, f).world
    ensures Keyed(r.world.store)
  {
    var s := OrderService.HandleOrderPlaced(w, e, c, f);
    Handled(s.world, Lift(s.effects) + LiftCalls(Decision(s.completion, m.deliveryTag, ackThrows)))
  }

  lemma {:induction false} CallsOfLift(effects: seq<OrderService.Effect>)
    ensures Calls(Lift(effects)) == []
  {
    if effects != [] {
      assert Lift(effects)[1..] == Lift(effects[1..]);
      CallsOfLift(effects[1..]);
    }
  }

  lemma {:induction false} CallsOfLiftCalls(calls: seq<ChannelCall>)
    ensures Calls(LiftCalls(calls)) == calls
  {
    if calls != [] {
      assert LiftCalls(calls)[1..] == LiftCalls(calls[1..]);
      CallsOfLiftCalls(calls[1..]);
    }
  }

  lemma {:induction false} CallsAppend(a: seq<Action>, b: seq<Action>)
    ensures Calls(a + b) == Calls(a) + Calls(b)
  {
    if a == [] {
      assert a + b == b;
    } else {
      assert (a + b)[1..] == a[1..] + b;
      CallsAppend(a[1..], b);
    }
  }

  /** The channel calls of one delivery are exactly the decision taken on the service's
      completion, and they all come after the service's effects. */
  lemma CallsOfHandled(
    w: OrderService.World, e: OrderPlacedEvent, m: Message,
    c: OrderService.Clock, f: OrderService.Fault, ackThrows: bool)
    requires Keyed(w.store)
    ensures var s := OrderService.HandleOrderPlaced(w, e, c, f);
      var r := HandleOrderPlaced(w, e, m, c, f, ackThrows);
      && Calls(r.actions) == Decision(s.completion, m.deliveryTag, ackThrows)
      && |r.actions| == |s.effects| + |Calls(r.actions)|
      && (forall i :: 0 <= i < |s.effects| ==> r.actions[i] == Did(s.effects[i]))
      && (forall i :: |s.effects| <= i < |r.actions| ==> r.actions[i].Called?)
  {
    var s := OrderService.HandleOrderPlaced(w, e, c, f);
    var calls := Decision(s.completion, m.deliveryTag, ackThrows);
    CallsAppend(Lift(s.effects), LiftCalls(calls));
    CallsOfLift(s.effects);
    CallsOfLiftCalls(calls);
  }

  /** A normal return from the service is acknowledged once, singly, on the delivery's
      tag, and never negatively acknowledged while the channel accepts the ack. */
  lemma AckOnReturn(
    w: OrderService.World, e: OrderPlacedEvent, m: Message,
    c: OrderService.Clock, f: OrderService.Fault)
    requires Keyed(w.store)
    requires OrderService.HandleOrderPlaced(w, e, c, f).completion == OrderService.Returned
    ensures Calls(HandleOrderPlaced(w, e, m, c, f, false).actions) == [BasicAck(m.deliveryTag, false)]
  {
    CallsOfHandled(w, e, m, c, f, false);
  }

  /** An exception from the service is answered by one negative acknowledgment on the
      delivery's tag that asks for requeueing, and never by an acknowledgment. */
  lemma NackOnThrow(
    w: OrderService.World, e: OrderPlacedEvent, m: Message,
    c: OrderService.Clock, f: OrderService.Fault, ackThrows: bool)
    requires Keyed(w.store)
    requires OrderService.HandleOrderPlaced(w, e, c, f).completion == OrderService.Threw
    ensures Calls(HandleOrderPlaced(w, e, m, c, f, ackThrows).actions) == [BasicNack(m.deliveryTag, false, true)]
  {
    CallsOfHandled(w, e, m, c, f, ackThrows);
  }

  /** Each delivery gets exactly one decision, ack or nack but not both, unless the ack
      call itself throws; every call names the delivery's tag and never covers earlier
      deliveries. */
  lemma ExactlyOneDecision(
    w: OrderService.World, e: OrderPlacedEvent, m: Message,
    c: OrderService.Clock, f: OrderService.Fault, ackThrows: bool)
    requires Keyed(w.store)
    ensures var calls := Calls(HandleOrderPlaced(w, e, m, c, f, ackThrows).actions);
      && (!ackThrows ==> |calls| == 1)
      && (forall i, j :: 0 <= i < |calls| && 0 <= j < |calls| && calls[i].BasicAck? && calls[j].BasicNack? ==> ackThrows)
      && (forall i :: 0 <= i < |calls| ==> calls[i].deliveryTag == m.deliveryTag && !calls[i].multiple)
      && (forall i :: 0 <= i < |calls| && calls[i].BasicNack? ==> calls[i].requeue)
  {
    CallsOfHandled(w, e, m, c, f, ackThrows);
  }

  /** No acknowledgment precedes the state change: every service effect comes before
      every channel call, so the ack is issued only once the saves and the publish are done. */
  lemma AckAfterStateChange(
    w: OrderService.World, e: OrderPlacedEvent, m: Message,
    c: OrderService.Clock, f: OrderService.Fault, ackThrows: bool)
    requires Keyed(w.store)
    ensures var r := HandleOrderPlaced(w, e, m, c, f, ackThrows);
      forall i, j :: 0 <= i < |r.actions| && 0 <= j < |r.actions| && r.actions[i].Called? && r.actions[j].Did? ==> j < i
  {
    var s := OrderService.HandleOrderPlaced(w, e, c, f);
    var r := HandleOrderPlaced(w, e, m, c, f, ackThrows);
    assert forall i :: 0 <= i < |s.effects| ==> r.actions[i] == Did(s.effects[i]);
  }

  /** A duplicate delivery of an order already PROCESSED changes nothing and is still
      acknowledged, not negatively acknowledged. */
  lemma DuplicateIsAcked(
    w: OrderService.World, e: OrderPlacedEvent, m: Message,
    c: OrderService.Clock, f: OrderService.Fault)
    requires Keyed(w.store)
    requires e.orderId in w.store && w.store[e.orderId].status == Processed
    requires f != OrderService.FindThrows
    ensures var r := HandleOrderPlaced(w, e, m, c, f, false);
      && r.world == w
      && r.actions == [Called(BasicAck(m.deliveryTag, false))]
  {
    OrderService.ProcessedIsSkipped(w, e, c, f);
  }
}
