/**
 Entities of the order-processing worker: the persisted order aggregate,
 the inbound "order placed" event and the outbound "order processed" event.
 */
module Orders {

  /** Java `int`: the order quantity. */
  newtype Int32 = x: int | -0x8000_0000 <= x < 0x8000_0000

  /** Java `long`: a broker delivery tag. */
  newtype Int64 = x: int | -0x8000_0000_0000_0000 <= x < 0x8000_0000_0000_0000

  /** A `LocalDateTime` reading, as ticks of an abstract clock. */
  type Instant = nat

  datatype Option<+T> = None | Some(value: T)

  /** Lifecycle of an order. */
  datatype Status = Pending | Processing | Processed | Failed

  /** Position of a status along the placement path PENDING < PROCESSING < PROCESSED.
      FAILED is set only out of band and has no place on this path. */
  function Rank(s: Status): (r: nat)
    requires s != Failed
    ensures r <= 2
    ensures s == Processed <==> r == 2
    ensures s == Pending <==> r == 0
  {
    match s
    case Pending => 0
    case Processing => 1
    case Processed => 2
  }

  /** The persisted order, keyed by `id`. */
  datatype Order = Order(
    id: string,
    productId: string,
    customerId: string,
    quantity: Int32,
    status: Status,
    createdAt: Instant,
    updatedAt: Instant)

  /** Inbound message decoded from the broker. */
  datatype OrderPlacedEvent = OrderPlacedEvent(
    orderId: string,
    productId: string,
    quantity: Int32,
    customerId: string,
    timestamp: string)

  /** Outbound message announcing a completed order. */
  datatype OrderProcessedEvent = OrderProcessedEvent(
    orderId: string,
    status: string,
    processedAt: Instant)
}
