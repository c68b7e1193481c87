/** The order entity and the creation request (internal/models/order.go). */
module Models {

  /** Seconds on an abstract clock; `ZeroTime` plays the role of Go's zero `time.Time`. */
  type Time = int
  const ZeroTime: Time := 0

  /** Prices are only ever copied, so they are kept as integer cents. */
  type Cents = int

  /** The only status the core ever assigns. */
  const StatusCreated: string := "created"

  datatype Order = Order(
    id: string,
    customerId: string,
    productId: string,
    quantity: int,
    totalPrice: Cents,
    status: string,
    orderTime: Time,
    createdAt: Time,
    updatedAt: Time)

  datatype CreateOrderRequest = CreateOrderRequest(
    customerId: string,
    productId: string,
    quantity: int,
    totalPrice: Cents,
    orderTime: Time,
    idempotencyKey: string)

  /** What the request binding tags guarantee before the service is called:
      the identifiers and the key are present, at least one item is ordered and
      the price is not negative.  `orderTime` is optional. */
  predicate ValidRequest(req: CreateOrderRequest) {
    && req.customerId != ""
    && req.productId != ""
    && req.quantity >= 1
    && req.totalPrice >= 0
    && req.idempotencyKey != ""
  }

  /** The shape of every row the core writes to the orders table. */
  predicate WellFormed(o: Order) {
    && o.id != ""
    && o.customerId != ""
    && o.productId != ""
    && o.quantity >= 1
    && o.totalPrice >= 0
    && o.status == StatusCreated
  }
}
