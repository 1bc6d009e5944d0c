/**
 Sequences of deliveries, as the broker produces them under at-least-once delivery:
 a negatively acknowledged message is requeued and delivered again, a producer may send
 the same order again (possibly with a new timestamp), and deliveries of other orders
 are interleaved.
 */
module Redelivery {
  import opened Orders
  import opened OrderStore
  import OrderService
  import OrderEventListener

  /** How one delivery goes: its tag, the clock readings during the service call, where
      the service throws, and whether the ack call throws. */
  datatype Attempt = Attempt(
    tag: Int64,
    clock: OrderService.Clock,
    fault: OrderService.Fault,
    ackThrows: bool)

  /** One delivery of one "order placed" event. */
  datatype Delivery = Delivery(event: OrderPlacedEvent, attempt: Attempt)

  /** The order `id` is stored and PROCESSED. */
  predicate IsProcessed(s: Store, id: string)
  {
    id in s && s[id].status == Processed
  }

  /** The world after the listener has handled one delivery. */
  function Deliver(w: OrderService.World, d: Delivery): (r: OrderService.World)
    requires Keyed(w.store)
    ensures Keyed(r.store)
  {
    var a := d.attempt;
    OrderEventListener.HandleOrderPlaced(
      w, d.event, OrderEventListener.Message(a.tag), a.clock, a.fault, a.ackThrows).world
  }

  /** The world after the listener has handled each delivery in turn. */
  function Run(w: OrderService.World, deliveries: seq<Delivery>): (r: OrderService.World)
    requires Keyed(w.store)
    ensures Keyed(r.store)
    ensures w.store.Keys <= r.store.Keys
    decreases |deliveries|
  {
    if deliveries == [] then w
    else Run(Deliver(w, deliveries[0]), deliveries[1..])
  }

  /** One delivery, of any event, announces the order `id` at most once, only when it
      leaves `id` PROCESSED, and not at all when `id` was already PROCESSED; a PROCESSED
      order stays PROCESSED. */
  lemma DeliveryAnnouncesAtMostOnce(w: OrderService.World, d: Delivery, id: string)
    requires Keyed(w.store)
    ensures var r := Deliver(w, d);
      && OrderService.CountFor(w.outbox, id) <= OrderService.CountFor(r.outbox, id) <= OrderService.CountFor(w.outbox, id) + 1
      && (OrderService.CountFor(r.outbox, id) > OrderService.CountFor(w.outbox, id) ==> IsProcessed(r.store, id))
      && (IsProcessed(w.store, id) ==>
            IsProcessed(r.store, id) && OrderService.CountFor(r.outbox, id) == OrderService.CountFor(w.outbox, id))
  {
    var e := d.event;
    var a := d.attempt;
    var s := OrderService.HandleOrderPlaced(w, e, a.clock, a.fault);
    assert Deliver(w, d) == s.world;
    var extra := s.world.outbox[|w.outbox|..];
    assert s.world.outbox == w.outbox + extra;
    OrderService.CountForAppend(w.outbox, extra, id);
    if id == e.orderId {
      OrderService.CountForOwnAnnouncements(extra, id);
      if IsProcessed(w.store, id) {
        OrderService.ProcessedIsSkipped(w, e, a.clock, a.fault);
      }
    } else {
      OrderService.CountForOtherAnnouncements(extra, e.orderId, id);
    }
  }

  /** Effectively-once announcement: across any sequence of deliveries, a PROCESSED order
      stays PROCESSED and is never announced again, and an order that was not PROCESSED is
      announced at most once in total. */
  lemma {:induction false} AtMostOneAnnouncement(w: OrderService.World, deliveries: seq<Delivery>, id: string)
    requires Keyed(w.store)
    ensures IsProcessed(w.store, id) ==>
      && IsProcessed(Run(w, deliveries).store, id)
      && OrderService.CountFor(Run(w, deliveries).outbox, id) == OrderService.CountFor(w.outbox, id)
    ensures OrderService.CountFor(Run(w, deliveries).outbox, id) <=
      OrderService.CountFor(w.outbox, id) + (if IsProcessed(w.store, id) then 0 else 1)
    decreases |deliveries|
  {
    if deliveries != [] {
      var mid := Deliver(w, deliveries[0]);
      DeliveryAnnouncesAtMostOnce(w, deliveries[0], id);
      AtMostOneAnnouncement(mid, deliveries[1..], id);
    }
  }

  /** Along any sequence of deliveries, whatever events they carry, a stored order that is
      not FAILED never becomes FAILED and never moves back down the placement path. */
  lemma {:induction false} StatusMonotoneOverRun(w: OrderService.World, deliveries: seq<Delivery>, id: string)
    requires Keyed(w.store)
    requires id in w.store && w.store[id].status != Failed
    ensures var r := Run(w, deliveries);
      && r.store[id].status != Failed
      && Rank(r.store[id].status) >= Rank(w.store[id].status)
    decreases |deliveries|
  {
    if deliveries != [] {
      var d := deliveries[0];
      var mid := Deliver(w, d);
      if d.event.orderId == id {
        OrderService.PlacementNeverRegresses(w, d.event, d.attempt.clock, d.attempt.fault);
      }
      StatusMonotoneOverRun(mid, deliveries[1..], id);
    }
  }

  /** One delivery on which no collaborator throws is enough: whatever comes before or
      after it, its order ends PROCESSED. */
  lemma {:induction false} CleanDeliveryCompletes(w: OrderService.World, deliveries: seq<Delivery>, i: nat)
    requires Keyed(w.store)
    requires i < |deliveries| && deliveries[i].attempt.fault == OrderService.NoFault
    ensures IsProcessed(Run(w, deliveries).store, deliveries[i].event.orderId)
    decreases |deliveries|
  {
    var d := deliveries[0];
    var mid := Deliver(w, d);
    if i == 0 {
      assert IsProcessed(mid.store, d.event.orderId);
      AtMostOneAnnouncement(mid, deliveries[1..], d.event.orderId);
    } else {
      CleanDeliveryCompletes(mid, deliveries[1..], i - 1);
    }
  }

  /** When the publish throws after both saves, the delivery is nacked and requeued, the
      order is already PROCESSED, and the redelivery is acked without publishing: the
      announcement of the order is lost, and no later delivery of any event makes it. */
  lemma PublishFailureLosesAnnouncement(
    w: OrderService.World, e: OrderPlacedEvent,
    first: Attempt, second: Attempt, later: seq<Delivery>)
    requires Keyed(w.store)
    requires !IsProcessed(w.store, e.orderId)
    requires first.fault == OrderService.PublishThrows
    requires second.fault == OrderService.NoFault && !second.ackThrows
    ensures var h1 := OrderEventListener.HandleOrderPlaced(
        w, e, OrderEventListener.Message(first.tag), first.clock, first.fault, first.ackThrows);
      var h2 := OrderEventListener.HandleOrderPlaced(
        h1.world, e, OrderEventListener.Message(second.tag), second.clock, second.fault, second.ackThrows);
      && OrderEventListener.Calls(h1.actions) == [OrderEventListener.BasicNack(first.tag, false, true)]
      && IsProcessed(h1.world.store, e.orderId)
      && h1.world.outbox == w.outbox
      && OrderEventListener.Calls(h2.actions) == [OrderEventListener.BasicAck(second.tag, false)]
      && h2.world == h1.world
    ensures OrderService.CountFor(Run(w, [Delivery(e, first), Delivery(e, second)] + later).outbox, e.orderId) ==
      OrderService.CountFor(w.outbox, e.orderId)
  {
    var h1 := OrderEventListener.HandleOrderPlaced(
      w, e, OrderEventListener.Message(first.tag), first.clock, first.fault, first.ackThrows);
    OrderEventListener.NackOnThrow(w, e, OrderEventListener.Message(first.tag), first.clock, first.fault, first.ackThrows);
    OrderEventListener.DuplicateIsAcked(h1.world, e, OrderEventListener.Message(second.tag), second.clock, second.fault);
    OrderEventListener.CallsOfHandled(h1.world, e, OrderEventListener.Message(second.tag), second.clock, second.fault, second.ackThrows);
    var all := [Delivery(e, first), Delivery(e, second)] + later;
    assert all[1..] == [Delivery(e, second)] + later;
    assert Deliver(w, all[0]) == h1.world;
    assert Run(w, all) == Run(h1.world, [Delivery(e, second)] + later);
    AtMostOneAnnouncement(h1.world, [Delivery(e, second)] + later, e.orderId);
  }

  /** When the second save throws, the order is left PROCESSING, stamped with the
      first write's reading, and the delivery is
      nacked; the requeued delivery completes it and announces it exactly once. */
  lemma ParkedOrderRecovers(w: OrderService.World, e: OrderPlacedEvent, c1: OrderService.Clock, c2: OrderService.Clock)
    requires Keyed(w.store)
    requires !IsProcessed(w.store, e.orderId)
    ensures var r1 := OrderService.ProcessOrder(w, e, c1, OrderService.SecondSaveThrows);
      var r2 := OrderService.ProcessOrder(r1.world, e, c2, OrderService.NoFault);
      && r1.completion == OrderService.Threw
      && e.orderId in r1.world.store
      && r1.world.store[e.orderId].status == Processing
      && r1.world.store[e.orderId].updatedAt == c1.processing
      && r1.world.outbox == w.outbox
      && r2.completion == OrderService.Returned
      && IsProcessed(r2.world.store, e.orderId)
      && OrderService.CountFor(r2.world.outbox, e.orderId) == OrderService.CountFor(w.outbox, e.orderId) + 1
  {
    var r1 := OrderService.ProcessOrder(w, e, c1, OrderService.SecondSaveThrows);
    OrderService.UnprocessedIsCompleted(r1.world, e, c2);
  }
}
