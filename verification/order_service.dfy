/**
 The order state machine: `processOrder` (reached through `handleOrderPlaced`),
 `markOrderFailed`, and the publication of the downstream "order processed" event,
 as pure steps over the order store and an outbox of published messages.
 */
module OrderService {
  import opened Orders
  import opened OrderStore

  /** Exchange and routing key of the downstream publish. */
  const OrderExchange: string := "order.events"
  const ProcessedRoutingKey: string := "order.processed"
  /** Status text carried by the downstream event. */
  const ProcessedLabel: string := "PROCESSED"

  /** A message handed to the broker. */
  datatype Outbound = Outbound(exchange: string, routingKey: string, event: OrderProcessedEvent)

  /** What the service can observe and change: the order table and everything published so far. */
  datatype World = World(store: Store, outbox: seq<Outbound>)

  /** One externally visible effect of the service, in the order it happens. */
  datatype Effect = Saved(order: Order) | Sent(message: Outbound)

  /** Which collaborator call, if any, raises an exception during `processOrder`. */
  datatype Fault = NoFault | FindThrows | FirstSaveThrows | SecondSaveThrows | PublishThrows

  /** Whether the Java method returned normally or threw. */
  datatype Completion = Returned | Threw

  /** The result of one service call: the new world, its effects in order, and how it ended. */
  datatype Step = Step(world: World, effects: seq<Effect>, completion: Completion)

  /** The successive `LocalDateTime.now()` readings of one `processOrder` call, in program
      order: the new order's createdAt and updatedAt, the PROCESSING write, the PROCESSED
      write, and the published event's timestamp. */
  datatype Clock = Clock(
    created: Instant,
    createdUpdated: Instant,
    processing: Instant,
    processed: Instant,
    published: Instant)

  /** The readings come from a clock that never goes backwards. */
  predicate NonDecreasing(c: Clock)
  {
    c.created <= c.createdUpdated <= c.processing <= c.processed <= c.published
  }

  /** `createNewOrder`: a PENDING order built from the event's fields. */
  function CreateNewOrder(e: OrderPlacedEvent, createdAt: Instant, updatedAt: Instant): Order
  {
    Order(e.orderId, e.productId, e.customerId, e.quantity, Pending, createdAt, updatedAt)
  }

  /** `publishOrderProcessedEvent`: the message sent for a completed order. */
  function ProcessedMessage(orderId: string, now: Instant): Outbound
  {
    Outbound(OrderExchange, ProcessedRoutingKey, OrderProcessedEvent(orderId, ProcessedLabel, now))
  }

  /** Number of published messages that announce `id`. */
  function CountFor(outbox: seq<Outbound>, id: string): nat
  {
    if outbox == [] then 0
    else (if outbox[0].event.orderId == id then 1 else 0) + CountFor(outbox[1..], id)
  }

  /** `processOrder`. Each repository save commits on its own: `handleOrderPlaced` calls
      `processOrder` on `this`, so no transaction wraps the two saves and the publish,
      and a later exception does not undo an earlier save. */
  function ProcessOrder(w: World, e: OrderPlacedEvent, c: Clock, f: Fault): (r: Step)
    requires Keyed(w.store)
    ensures Keyed(r.world.store)
    ensures forall k :: k != e.orderId ==> (k in r.world.store <==> k in w.store)
    ensures forall k :: k in w.store && k != e.orderId ==> r.world.store[k] == w.store[k]
    ensures w.store.Keys <= r.world.store.Keys
    ensures |w.outbox| <= |r.world.outbox| <= |w.outbox| + 1
    ensures r.world.outbox[..|w.outbox|] == w.outbox
    ensures forall i :: |w.outbox| <= i < |r.world.outbox| ==> r.world.outbox[i] == ProcessedMessage(e.orderId, c.published)
    ensures r.completion == Returned <==> f == NoFault || (f != FindThrows && e.orderId in w.store && w.store[e.orderId].status == Processed)
    ensures r.completion == Returned ==> e.orderId in r.world.store && r.world.store[e.orderId].status == Processed
    ensures r.completion == Threw ==> r.world.outbox == w.outbox
  {
    if f == FindThrows then Step(w, [], Threw)
    else
      var order := match FindById(w.store, e.orderId)
        case Some(o) => o
        case None => CreateNewOrder(e, c.created, c.createdUpdated);
      if order.status == Processed then Step(w, [], Returned)
      else
        var processing := order.(status := Processing, updatedAt := c.processing);
        if f == FirstSaveThrows then Step(w, [], Threw)
        else
          var s1 := Save(w.store, processing);
          var processed := processing.(status := Processed, updatedAt := c.processed);
          if f == SecondSaveThrows then Step(World(s1, w.outbox), [Saved(processing)], Threw)
          else
            var s2 := Save(s1, processed);
            if f == PublishThrows then
              Step(World(s2, w.outbox), [Saved(processing), Saved(processed)], Threw)
            else
              assert f == NoFault;
              var m := ProcessedMessage(processed.id, c.published);
              Step(World(s2, w.outbox + [m]), [Saved(processing), Saved(processed), Sent(m)], Returned)
  }

  /** `handleOrderPlaced`: a plain call of `processOrder` on the same object, so no
      transaction surrounds it. What the listener relies on: the store stays keyed, only
      the event's order changes, at most one announcement of it is published and only on a
      normal return, a normal return leaves the order PROCESSED, and when the publish
      throws the two saves before it stay in the store. */
  function HandleOrderPlaced(w: World, e: OrderPlacedEvent, c: Clock, f: Fault): (r: Step)
    requires Keyed(w.store)
    ensures Keyed(r.world.store)
    ensures forall k :: k != e.orderId ==> (k in r.world.store <==> k in w.store)
    ensures forall k :: k in w.store && k != e.orderId ==> r.world.store[k] == w.store[k]
    ensures w.store.Keys <= r.world.store.Keys
    ensures |w.outbox| <= |r.world.outbox| <= |w.outbox| + 1
    ensures r.world.outbox[..|w.outbox|] == w.outbox
    ensures forall i :: |w.outbox| <= i < |r.world.outbox| ==> r.world.outbox[i].event.orderId == e.orderId
    ensures r.completion == Returned ==> e.orderId in r.world.store && r.world.store[e.orderId].status == Processed
    ensures r.completion == Threw ==> r.world.outbox == w.outbox
    ensures f == PublishThrows && !(e.orderId in w.store && w.store[e.orderId].status == Processed) ==>
      && r.completion == Threw
      && e.orderId in r.world.store
      && r.world.store[e.orderId].status == Processed
  {
    ProcessOrder(w, e, c, f)
  }

  /** `markOrderFailed`: set FAILED on a stored order; an unknown id changes nothing. */
  function MarkOrderFailed(w: World, orderId: string, now: Instant): (r: World)
    requires Keyed(w.store)
    ensures Keyed(r.store)
    ensures r.outbox == w.outbox
    ensures r.store.Keys == w.store.Keys
    ensures forall k :: k in w.store && k != orderId ==> r.store[k] == w.store[k]
    ensures orderId in w.store ==>
      r.store[orderId].status == Failed && r.store[orderId].updatedAt == now &&
      r.store[orderId] == w.store[orderId].(status := Failed, updatedAt := now)
    ensures orderId !in w.store ==> r == w
  {
    match FindById(w.store, orderId)
    case Some(o) => World(Save(w.store, o.(status := Failed, updatedAt := now)), w.outbox)
    case None => w
  }

  /** The store as it stands after replaying the saves among `effects` in order. */
  function ApplySaves(s: Store, effects: seq<Effect>): Store
    decreases |effects|
  {
    if effects == [] then s
    else
      var s' := match effects[0] case Saved(o) => Save(s, o) case Sent(_) => s;
      ApplySaves(s', effects[1..])
  }

  /** The messages among `effects`, in order. */
  function SentMessages(effects: seq<Effect>): seq<Outbound>
  {
    if effects == [] then []
    else (match effects[0] case Sent(m) => [m] case Saved(_) => []) + SentMessages(effects[1..])
  }

  /** Counting announcements distributes over concatenation of outboxes. */
  lemma {:induction false} CountForAppend(outbox: seq<Outbound>, extra: seq<Outbound>, id: string)
    ensures CountFor(outbox + extra, id) == CountFor(outbox, id) + CountFor(extra, id)
  {
    if outbox == [] {
      assert outbox + extra == extra;
    } else {
      assert (outbox + extra)[1..] == outbox[1..] + extra;
      CountForAppend(outbox[1..], extra, id);
    }
  }

  /** A placement for an unknown id creates the order from the event's fields, drives it to
      PROCESSED and announces it once on `order.events` with routing key `order.processed`. */
  lemma NewOrderIsProcessed(w: World, e: OrderPlacedEvent, c: Clock)
    requires Keyed(w.store)
    requires e.orderId !in w.store
    ensures var r := ProcessOrder(w, e, c, NoFault);
      && r.completion == Returned
      && e.orderId in r.world.store
      && r.world.store[e.orderId] ==
         Order(e.orderId, e.productId, e.customerId, e.quantity, Processed, c.created, c.processed)
      && r.world.outbox ==
         w.outbox + [Outbound("order.events", "order.processed", OrderProcessedEvent(e.orderId, "PROCESSED", c.published))]
  {
  }

  /** The idempotency gate: an order already PROCESSED is left as it is and nothing is
      published; the call still returns normally unless the lookup itself throws. */
  lemma ProcessedIsSkipped(w: World, e: OrderPlacedEvent, c: Clock, f: Fault)
    requires Keyed(w.store)
    requires e.orderId in w.store && w.store[e.orderId].status == Processed
    ensures var r := ProcessOrder(w, e, c, f);
      && r.world == w
      && r.effects == []
      && (r.completion == Returned <==> f != FindThrows)
  {
  }

  /** A stored order in any status but PROCESSED (FAILED included) ends PROCESSED, and
      exactly one announcement of it is appended. */
  lemma UnprocessedIsCompleted(w: World, e: OrderPlacedEvent, c: Clock)
    requires Keyed(w.store)
    requires e.orderId in w.store && w.store[e.orderId].status != Processed
    ensures var r := ProcessOrder(w, e, c, NoFault);
      && r.completion == Returned
      && e.orderId in r.world.store
      && r.world.store[e.orderId] == w.store[e.orderId].(status := Processed, updatedAt := c.processed)
      && r.world.outbox ==
         w.outbox + [Outbound("order.events", "order.processed", OrderProcessedEvent(e.orderId, "PROCESSED", c.published))]
      && CountFor(r.world.outbox, e.orderId) == CountFor(w.outbox, e.orderId) + 1
  {
    var r := ProcessOrder(w, e, c, NoFault);
    var m := ProcessedMessage(e.orderId, c.published);
    CountForAppend(w.outbox, [m], e.orderId);
    assert [m][1..] == [];
  }

  /** A placement for a stored order never copies the event's fields over it: only the
      status and the update time can differ afterwards. */
  lemma ExistingOrderKeepsItsFields(w: World, e: OrderPlacedEvent, c: Clock, f: Fault)
    requires Keyed(w.store)
    requires e.orderId in w.store
    ensures var r := ProcessOrder(w, e, c, f);
      && e.orderId in r.world.store
      && var before := w.store[e.orderId];
         var after := r.world.store[e.orderId];
         after == before.(status := after.status, updatedAt := after.updatedAt)
  {
  }

  /** Along the placement path a status only moves forward: the order is either untouched
      or left PROCESSING or PROCESSED, and a non-FAILED status never drops in rank. */
  lemma PlacementNeverRegresses(w: World, e: OrderPlacedEvent, c: Clock, f: Fault)
    requires Keyed(w.store)
    ensures var r := ProcessOrder(w, e, c, f);
      e.orderId in r.world.store ==>
        || (e.orderId in w.store && r.world.store[e.orderId] == w.store[e.orderId])
        || r.world.store[e.orderId].status in {Processing, Processed}
    ensures var r := ProcessOrder(w, e, c, f);
      e.orderId in w.store && w.store[e.orderId].status != Failed ==>
        && r.world.store[e.orderId].status != Failed
        && Rank(r.world.store[e.orderId].status) >= Rank(w.store[e.orderId].status)
  {
  }

  /** With a clock that never goes backwards and has not fallen behind the store, no
      order's update time decreases, no creation time changes, and the store stays
      behind the clock for the next call. */
  lemma UpdatedAtNeverDecreases(w: World, e: OrderPlacedEvent, c: Clock, f: Fault)
    requires Keyed(w.store)
    requires NonDecreasing(c)
    requires UpdatedBy(w.store, c.processing)
    ensures var r := ProcessOrder(w, e, c, f);
      forall k :: k in w.store ==>
        && r.world.store[k].updatedAt >= w.store[k].updatedAt
        && r.world.store[k].createdAt == w.store[k].createdAt
    ensures UpdatedBy(ProcessOrder(w, e, c, f).world.store, c.published)
  {
  }

  /** `markOrderFailed` with a clock not behind the store never moves an update time back. */
  lemma MarkFailedNeverDecreasesUpdatedAt(w: World, orderId: string, now: Instant)
    requires Keyed(w.store)
    requires UpdatedBy(w.store, now)
    ensures var r := MarkOrderFailed(w, orderId, now);
      && UpdatedBy(r.store, now)
      && forall k :: k in w.store ==> r.store[k].updatedAt >= w.store[k].updatedAt
  {
  }

  /** The new world is exactly what the recorded effects produce: the store is the old one
      with the saves replayed, the outbox gains exactly the sent messages, the first save
      writes PROCESSING at the `processing` reading, the second PROCESSED at the
      `processed` reading, and nothing is saved after the publish. */
  lemma EffectsExplainWorld(w: World, e: OrderPlacedEvent, c: Clock, f: Fault)
    requires Keyed(w.store)
    ensures var r := ProcessOrder(w, e, c, f);
      && r.world.store == ApplySaves(w.store, r.effects)
      && r.world.outbox == w.outbox + SentMessages(r.effects)
    ensures var r := ProcessOrder(w, e, c, f);
      forall i :: 0 <= i < |r.effects| && r.effects[i].Saved? ==>
        && r.effects[i].order.status == (if i == 0 then Processing else Processed)
        && r.effects[i].order.updatedAt == (if i == 0 then c.processing else c.processed)
    ensures var r := ProcessOrder(w, e, c, f);
      forall i, j :: 0 <= i < j < |r.effects| && r.effects[i].Sent? ==> !r.effects[j].Saved?
  {
    var r := ProcessOrder(w, e, c, f);
    var es := r.effects;
    if |es| == 1 {
      ReplayOneSave(w.store, es[0].order);
    } else if |es| == 2 {
      ReplayTwoSaves(w.store, es[0].order, es[1].order);
    } else if |es| == 3 {
      ReplaySavesThenSend(w.store, es[0].order, es[1].order, es[2].message);
    }
  }

  lemma ReplayOneSave(s: Store, p: Order)
    ensures ApplySaves(s, [Saved(p)]) == Save(s, p)
    ensures SentMessages([Saved(p)]) == []
  {
    assert [Saved(p)][1..] == [];
  }

  lemma ReplayTwoSaves(s: Store, p: Order, q: Order)
    ensures ApplySaves(s, [Saved(p), Saved(q)]) == Save(Save(s, p), q)
    ensures SentMessages([Saved(p), Saved(q)]) == []
  {
    assert [Saved(p), Saved(q)][1..] == [Saved(q)];
    ReplayOneSave(Save(s, p), q);
  }

  lemma ReplaySavesThenSend(s: Store, p: Order, q: Order, m: Outbound)
    ensures ApplySaves(s, [Saved(p), Saved(q), Sent(m)]) == Save(Save(s, p), q)
    ensures SentMessages([Saved(p), Saved(q), Sent(m)]) == [m]
  {
    var es := [Saved(p), Saved(q), Sent(m)];
    assert es[1..] == [Saved(q), Sent(m)];
    ReplaySaveThenSend(Save(s, p), q, m);
  }

  lemma ReplaySaveThenSend(s: Store, q: Order, m: Outbound)
    ensures ApplySaves(s, [Saved(q), Sent(m)]) == Save(s, q)
    ensures SentMessages([Saved(q), Sent(m)]) == [m]
  {
    var es := [Saved(q), Sent(m)];
    assert es[1..] == [Sent(m)];
    ReplayOneSend(Save(s, q), m);
  }

  lemma ReplayOneSend(s: Store, m: Outbound)
    ensures ApplySaves(s, [Sent(m)]) == s
    ensures SentMessages([Sent(m)]) == [m]
  {
    assert [Sent(m)][1..] == [];
  }

  /** The saves are not undone when the publish throws: the order stays PROCESSED in the
      store while nothing reaches the outbox and the call reports failure. */
  lemma PublishFailureKeepsSaves(w: World, e: OrderPlacedEvent, c: Clock)
    requires Keyed(w.store)
    requires !(e.orderId in w.store && w.store[e.orderId].status == Processed)
    ensures var r := ProcessOrder(w, e, c, PublishThrows);
      && r.completion == Threw
      && e.orderId in r.world.store
      && r.world.store[e.orderId].status == Processed
      && r.world.outbox == w.outbox
  {
  }

  /** Processing the same event twice in a row, the first call returning normally, leaves
      the world as the first call left it, whatever the second call's clock or fault, and
      the outbox holds one announcement of the order more than before the first call, or
      none more if it was already PROCESSED. */
  lemma ProcessOrderIsIdempotent(w: World, e: OrderPlacedEvent, c1: Clock, f1: Fault, c2: Clock, f2: Fault)
    requires Keyed(w.store)
    requires ProcessOrder(w, e, c1, f1).completion == Returned
    ensures var r1 := ProcessOrder(w, e, c1, f1);
      var r2 := ProcessOrder(r1.world, e, c2, f2);
      && r2.world == r1.world
      && r2.effects == []
      && e.orderId in r2.world.store
      && r2.world.store[e.orderId].status == Processed
      && CountFor(r2.world.outbox, e.orderId) ==
         CountFor(w.outbox, e.orderId) + (if e.orderId in w.store && w.store[e.orderId].status == Processed then 0 else 1)
  {
    if e.orderId in w.store && w.store[e.orderId].status == Processed {
      ProcessedIsSkipped(w, e, c1, f1);
    } else {
      assert f1 == NoFault;
      if e.orderId in w.store {
        UnprocessedIsCompleted(w, e, c1);
      } else {
        NewOrderIsProcessed(w, e, c1);
        var m := ProcessedMessage(e.orderId, c1.published);
        CountForAppend(w.outbox, [m], e.orderId);
        assert [m][1..] == [];
      }
    }
    var r1 := ProcessOrder(w, e, c1, f1);
    ProcessedIsSkipped(r1.world, e, c2, f2);
  }

  /** Messages that all announce `id` count fully for `id`. */
  lemma {:induction false} CountForOwnAnnouncements(extra: seq<Outbound>, id: string)
    requires forall i :: 0 <= i < |extra| ==> extra[i].event.orderId == id
    ensures CountFor(extra, id) == |extra|
  {
    if extra != [] {
      CountForOwnAnnouncements(extra[1..], id);
    }
  }

  /** Messages that all announce `id` do not count for any other order. */
  lemma {:induction false} CountForOtherAnnouncements(extra: seq<Outbound>, id: string, other: string)
    requires forall i :: 0 <= i < |extra| ==> extra[i].event.orderId == id
    requires other != id
    ensures CountFor(extra, other) == 0
  {
    if extra != [] {
      CountForOtherAnnouncements(extra[1..], id, other);
    }
  }

  /** `markOrderFailed` reopens a PROCESSED order for the placement path: a later clean
      placement of the same id drives it to PROCESSED again and announces it a second time. */
  lemma MarkFailedReopens(w: World, e: OrderPlacedEvent, now: Instant, c: Clock)
    requires Keyed(w.store)
    requires e.orderId in w.store && w.store[e.orderId].status == Processed
    ensures var failed := MarkOrderFailed(w, e.orderId, now);
      var r := ProcessOrder(failed, e, c, NoFault);
      && failed.store[e.orderId].status == Failed
      && r.completion == Returned
      && r.world.store[e.orderId].status == Processed
      && CountFor(r.world.outbox, e.orderId) == CountFor(w.outbox, e.orderId) + 1
  {
    var failed := MarkOrderFailed(w, e.orderId, now);
    UnprocessedIsCompleted(failed, e, c);
  }
}
