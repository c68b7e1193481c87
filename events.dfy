/** The creation event and the bounded channel that carries it
    (internal/events/event.go; the channel is the `chan *OrderCreatedEvent`
    the service sends on and the worker receives from). */
module Events {
  import opened Models

  datatype OrderCreatedEvent = OrderCreatedEvent(
    orderId: string,
    customerId: string,
    productId: string,
    quantity: int,
    totalPrice: Cents,
    timestamp: int)

  /** The event carries the order's id and its four request fields. */
  predicate Carries(e: OrderCreatedEvent, o: Order) {
    && e.orderId == o.id
    && e.customerId == o.customerId
    && e.productId == o.productId
    && e.quantity == o.quantity
    && e.totalPrice == o.totalPrice
  }

  /** The order an event describes.  The timestamps are left at their zero
      value and the event's own timestamp is dropped. */
  function ToOrder(e: OrderCreatedEvent): (o: Order)
    ensures Carries(e, o)
    ensures o.status == StatusCreated
    ensures o.orderTime == ZeroTime && o.createdAt == ZeroTime && o.updatedAt == ZeroTime
  {
    Order(e.orderId, e.customerId, e.productId, e.quantity, e.totalPrice, StatusCreated,
          ZeroTime, ZeroTime, ZeroTime)
  }

  /** The event the service builds from a persisted order, stamped with the
      emission time.  For an order in status "created", `ToOrder` gives that
      order back with its timestamps zeroed. */
  function NewEvent(o: Order, timestamp: int): (e: OrderCreatedEvent)
    ensures Carries(e, o) && e.timestamp == timestamp
    ensures o.status == StatusCreated ==>
      ToOrder(e) == o.(orderTime := ZeroTime, createdAt := ZeroTime, updatedAt := ZeroTime)
  {
    OrderCreatedEvent(o.id, o.customerId, o.productId, o.quantity, o.totalPrice, timestamp)
  }

  /** Converting an event to an order and building the event again, with the
      same timestamp, gives back the event. */
  lemma ToOrderThenNewEvent(e: OrderCreatedEvent)
    ensures NewEvent(ToOrder(e), e.timestamp) == e
  {
  }

  /** Two orders agree on everything an event can carry, plus the status. */
  predicate SameIdentity(a: Order, b: Order) {
    && a.id == b.id
    && a.customerId == b.customerId
    && a.productId == b.productId
    && a.quantity == b.quantity
    && a.totalPrice == b.totalPrice
    && a.status == b.status
  }

  /** Building the event from an order in status "created" and converting it
      back agrees with that order on id, request fields and status. */
  lemma EventRoundTrip(o: Order, timestamp: int)
    requires o.status == StatusCreated
    ensures SameIdentity(ToOrder(NewEvent(o, timestamp)), o)
  {
  }

  /** A buffered channel of creation events: FIFO, never holding more than
      `capacity` events. */
  class EventChannel {
    const capacity: nat
    var buffer: seq<OrderCreatedEvent>

    ghost predicate Valid()
      reads this
    {
      |buffer| <= capacity
    }

    /** `make(chan *OrderCreatedEvent, capacity)` */
    constructor (capacity: nat)
      ensures Valid()
      ensures this.capacity == capacity && buffer == []
    {
      this.capacity := capacity;
      buffer := [];
    }

    /** A send that the channel can accept without blocking. */
    method Send(e: OrderCreatedEvent)
      requires Valid() && |buffer| < capacity
      modifies this
      ensures Valid()
      ensures buffer == old(buffer) + [e]
    {
      buffer := buffer + [e];
    }

    /** The worker's receive: the oldest event leaves the channel. */
    method Receive() returns (e: OrderCreatedEvent)
      requires Valid() && buffer != []
      modifies this
      ensures Valid()
      ensures e == old(buffer)[0] && buffer == old(buffer)[1..]
    {
      e := buffer[0];
      buffer := buffer[1..];
    }
  }
}
