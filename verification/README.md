# Order-processing consumer core, modelled in Dafny

The system is a queue-driven worker. It consumes "order placed" events from RabbitMQ. For each event it looks the order up, or creates a PENDING order in memory for an unknown id. Unless the order is already PROCESSED, it then saves it PROCESSING and then PROCESSED, and publishes one "order processed" event. Then it acknowledges the delivery manually: `basicAck` on success, `basicNack` with requeue on any exception. This project models that consumer core as pure functions over immutable data:

- `orders.dfy` (module `Orders`): the `Order` aggregate, its `Status`, and the inbound and outbound events. Java `int` and `long` are the bounded newtypes `Int32` and `Int64`. A `LocalDateTime` is a `nat` clock reading.
- `order_store.dfy` (module `OrderStore`): the JPA repository as a `map<string, Order>` keyed by order id, with `findById` and `save`.
- `order_service.dfy` (module `OrderService`): `processOrder`, `handleOrderPlaced`, `markOrderFailed`, `createNewOrder` and `publishOrderProcessedEvent`. These are steps over a `World` made of the store and an outbox of published messages.
  - Every exception the collaborators can raise is an abstract `Fault` input: the lookup, the first save, the second save or the publish.
  - Every `LocalDateTime.now()` call is one field of a `Clock` input.
  - Each step also returns its effects (saves and sends) in program order.
- `order_event_listener.dfy` (module `OrderEventListener`): the listener's `handleOrderPlaced`. It maps the service's completion to channel calls, which are appended after the service's effects.
- `redelivery.dfy` (module `Redelivery`): any sequence of deliveries, each carrying its own event. This covers requeued redeliveries, producer retries with a new timestamp, and deliveries of other orders in between. It holds the inductive properties over such runs.

Saves are not rolled back. `handleOrderPlaced` calls `processOrder` on `this`, so the `@Transactional` proxy is bypassed. Each repository `save` therefore commits on its own, and an exception thrown later (for example by the publish) leaves the earlier saves in place. The model keeps them: `PublishFailureKeepsSaves`.

Several consequences of the code are proved:
- When the publish throws after both saves, the delivery is nacked.
- The requeued delivery then finds the order PROCESSED, skips it and is acked.
- The "order processed" announcement is never made, by that delivery or by any later one (`PublishFailureLosesAnnouncement`).
- Across any run of deliveries, an order is announced at most once (`AtMostOneAnnouncement`). Runs contain only deliveries. `markOrderFailed` in between reopens the order: a PROCESSED order marked FAILED is processed again by the next clean delivery and announced a second time (`MarkFailedReopens`).

Further behaviour of the code that the model keeps:
- The two status writes are separate saves at `OrderService.java:47` and `:52`, and each commits on its own. A failed second save leaves the order PROCESSING (`ParkedOrderRecovers`).
- `markOrderFailed` (`OrderService.java:63-75`) sets FAILED on any stored order, PROCESSED included.
- The idempotency gate at `OrderService.java:36` tests only for PROCESSED. A placement event for a FAILED order therefore drives it to PROCESSED again (`UnprocessedIsCompleted`).
- `processOrder` returns `void` on both the skip path (`OrderService.java:41`) and the processing path, so the listener cannot tell them apart. The model's `Completion` is only `Returned | Threw`.
- The publish at `OrderService.java:55` runs inside the service call. The listener's `basicAck` at `OrderEventListener.java:37` comes after it.

## Model

| member | source | states |
|---|---|---|
| OrderService.ProcessOrder | src/main/java/com/example/orderprocessor/service/OrderService.java:28-61 | The store stays keyed by id. Only the entry for the event's order id can appear or change, and no entry is removed. The outbox keeps its old contents and gains at most one message, which announces the event's order. The call returns normally exactly when nothing throws, or when the stored order is already PROCESSED and the lookup succeeded. A normal return leaves the order PROCESSED, and a call that throws publishes nothing. |
| OrderService.HandleOrderPlaced | src/main/java/com/example/orderprocessor/service/OrderService.java:23-25 | What the listener relies on: the store stays keyed and keeps all its ids, and only the event's order can change. At most one announcement of that order is published. A normal return leaves the order PROCESSED, and a call that throws publishes nothing. When the publish throws for an order not yet PROCESSED, the call fails but the order stays PROCESSED in the store: nothing rolls back the saves. |
| OrderService.MarkOrderFailed | src/main/java/com/example/orderprocessor/service/OrderService.java:63-75 | A stored order, PROCESSED included, becomes FAILED with update time `now`, and its other fields are kept. An unknown id changes nothing: no order is created and nothing is published. No other entry changes and the outbox is untouched. |
| OrderService.NewOrderIsProcessed | src/main/java/com/example/orderprocessor/service/OrderService.java:77-87 | When no collaborator throws: for an unknown id, the order built by `CreateNewOrder` and stored takes its id, productId, customerId and quantity from the event. It ends PROCESSED, with the creation reading as `createdAt` and the second write's reading as `updatedAt`. Exactly one event `(orderId, "PROCESSED", now)` is appended, on exchange `order.events` with routing key `order.processed`. `ProcessedMessage` builds it as `publishOrderProcessedEvent` does at `OrderService.java:89-101`. |
| OrderService.ProcessedIsSkipped | src/main/java/com/example/orderprocessor/service/OrderService.java:36-42 | An already PROCESSED order leaves the world unchanged. There are no saves and no publish, and the call returns normally unless the lookup throws. |
| OrderService.UnprocessedIsCompleted | src/main/java/com/example/orderprocessor/service/OrderService.java:44-55 | When no collaborator throws: a stored order that is PENDING, PROCESSING or FAILED ends PROCESSED, with only status and update time changed. Exactly one announcement of it is appended: the `ProcessedMessage` of `publishOrderProcessedEvent` (`OrderService.java:89-101`), on `order.events` with routing key `order.processed`. |
| OrderService.ExistingOrderKeepsItsFields | src/main/java/com/example/orderprocessor/service/OrderService.java:31-52 | Processing never copies event fields onto a stored order: id, productId, customerId, quantity and createdAt stay as stored. |
| OrderService.PlacementNeverRegresses | src/main/java/com/example/orderprocessor/service/OrderService.java:44-52 | After a placement, the order is either untouched or PROCESSING or PROCESSED. A non-FAILED status never drops along PENDING < PROCESSING < PROCESSED. |
| OrderService.UpdatedAtNeverDecreases | src/main/java/com/example/orderprocessor/service/OrderService.java:45-51 | Under a non-decreasing clock that is not behind the store, no `updatedAt` decreases and no `createdAt` changes. The store stays behind the clock. |
| OrderService.MarkFailedNeverDecreasesUpdatedAt | src/main/java/com/example/orderprocessor/service/OrderService.java:65-68 | `markOrderFailed`, given a clock reading not behind the store, never moves an update time back. |
| OrderService.EffectsExplainWorld | src/main/java/com/example/orderprocessor/service/OrderService.java:44-55 | The new store is the old one with the recorded saves replayed. The outbox gains exactly the recorded sends. The first save writes PROCESSING with the first write's clock reading. Any later save writes PROCESSED with the second write's reading. No save follows the publish. |
| OrderService.PublishFailureKeepsSaves | src/main/java/com/example/orderprocessor/service/OrderService.java:47-55 | When the publish throws, the call fails, yet the order stays PROCESSED in the store and nothing is published. |
| OrderService.ProcessOrderIsIdempotent | src/main/java/com/example/orderprocessor/service/OrderService.java:31-55 | When the first call returns normally, processing the same event a second time leaves the world as the first call left it, whatever the second call's clock or fault. Over the two calls the order's announcements grow by exactly one, or by none if it was already PROCESSED. |
| OrderService.MarkFailedReopens | src/main/java/com/example/orderprocessor/service/OrderService.java:63-75 | Marking a PROCESSED order FAILED reopens it: a later clean placement of the same id drives it to PROCESSED again and announces it a second time. |
| OrderEventListener.HandleOrderPlaced | src/main/java/com/example/orderprocessor/service/OrderEventListener.java:22-50 | The listener changes no order state itself: the world after a delivery is the world the service's `handleOrderPlaced` left, so the listener inherits that contract. |
| OrderEventListener.CallsOfHandled | src/main/java/com/example/orderprocessor/service/OrderEventListener.java:30-49 | The service's effects come first, in order, and every later action is a channel call. The channel calls are exactly the decision taken on the service's completion. |
| OrderEventListener.AckOnReturn | src/main/java/com/example/orderprocessor/service/OrderEventListener.java:34-37 | When `basicAck` does not throw, a normal return gives exactly one call, `basicAck(tag, false)`, and no nack. |
| OrderEventListener.NackOnThrow | src/main/java/com/example/orderprocessor/service/OrderEventListener.java:39-48 | An exception from the service gives exactly one call, `basicNack(tag, false, true)`, and no ack. |
| OrderEventListener.ExactlyOneDecision | src/main/java/com/example/orderprocessor/service/OrderEventListener.java:28-48 | Unless `basicAck` itself throws, a delivery gets exactly one call, so never both an ack and a nack. Every call carries the delivery's tag with `multiple = false`, and every nack requests requeue. |
| OrderEventListener.AckAfterStateChange | src/main/java/com/example/orderprocessor/service/OrderEventListener.java:33-37 | Every channel call comes after every save and publish of the service, so there is no ack before the state change. |
| OrderEventListener.DuplicateIsAcked | src/test/java/com/example/orderprocessor/service/OrderEventListenerTest.java:45-55 | When the lookup succeeds and `basicAck` does not throw, a duplicate delivery of a PROCESSED order changes nothing and is answered by exactly `basicAck(tag, false)`. |
| Redelivery.Run | src/main/java/com/example/orderprocessor/service/OrderEventListener.java:22-50 | Handling any sequence of deliveries, of any events, keeps the store keyed by id and never deletes an order. |
| Redelivery.DeliveryAnnouncesAtMostOnce | src/main/java/com/example/orderprocessor/service/OrderService.java:36-55 | For any order id and a delivery of any event, the id's announcements grow by at most one, and only when the delivery leaves it PROCESSED. An order already PROCESSED stays PROCESSED and gains no announcement. |
| Redelivery.AtMostOneAnnouncement | src/main/java/com/example/orderprocessor/service/OrderService.java:36-55 | Over any sequence of deliveries of any events, for every order id: PROCESSED is terminal and a PROCESSED order gains no announcement. An order is announced at most once in total, or never if it was PROCESSED from the start. |
| Redelivery.StatusMonotoneOverRun | src/main/java/com/example/orderprocessor/service/OrderService.java:36-52 | Over any sequence of deliveries, of the same event, of retries of the order with other fields, or of other orders, a stored non-FAILED order never becomes FAILED and never drops in rank along PENDING < PROCESSING < PROCESSED. |
| Redelivery.CleanDeliveryCompletes | src/main/java/com/example/orderprocessor/service/OrderService.java:29-55 | If any one delivery in a run meets no exception in the service, that delivery's order ends PROCESSED, whatever deliveries come before or after it. |
| Redelivery.PublishFailureLosesAnnouncement | src/main/java/com/example/orderprocessor/service/OrderService.java:36-55 | If the publish fails after the saves, the delivery is nacked with requeue and the order is PROCESSED. The next clean delivery is acked with the world unchanged. No later delivery, of any event, ever announces the order. |
| Redelivery.ParkedOrderRecovers | src/main/java/com/example/orderprocessor/service/OrderService.java:44-55 | If the second save fails, the order is parked in PROCESSING, stamped with the first write's reading, and the call fails with nothing published. A clean redelivery completes it and announces it exactly once. |

## Left out

- Decoding the JSON payload: the Spring message converter runs before the listener method is entered, so a malformed payload never reaches the code modelled here. A failure inside the service, whatever its cause, is a `Fault`.
- `RabbitMQConfig.java` (exchanges, queues, dead-letter bindings, manual-ack factory): declarations with no logic. Only the requeue flag (`Requeue`) and the outbound exchange and routing key appear, as constants.
- Transactions, JPA and `OrderRepository`: the store is a map keyed by id and each save takes effect at once. No rollback is modelled, because the self-invocation at `OrderService.java:23-25` bypasses `@Transactional`.
- Null strings: ids and references are non-null `string`s. A null id makes the lookup throw, and a null reference makes a save fail its NOT NULL column. Both are covered by the abstract `Fault`.
- `LocalDateTime.now()` and its `toString()`: readings are `nat` inputs, and `processedAt` is a reading, not formatted text.
- Logging.
- `OrderService.MarkOrderFailed`: the lookup or the save throwing is not modelled. The operation has no caller in this core, and such an exception would leave the store unchanged anyway.
- `OrderEventListener.HandleOrderPlaced`: `basicNack` throwing is not modelled. Its exception propagates to the listener container and its handling belongs to the broker client. A `basicAck` that throws is modelled (`ackThrows`), and the catch block then nacks.
- Throwables that are not `Exception`s: the listener's catch clause does not intercept them, and they are not modelled.
- Concurrent consumers and per-key write races: the model is a single sequential consumer.
- Broker dead-letter routing and redelivery scheduling: `Redelivery.Run` takes any sequence of deliveries instead.
- The Testcontainers integration test, which needs Docker and is disabled.
