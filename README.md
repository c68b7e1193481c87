# Idempotent order creation, modelled in Dafny

This project models the core of an order-management service. A request
first looks up a cached response under the triple (endpoint name, endpoint
scheme, key). On a hit it replays that response. Otherwise it inserts a new
order, records the order as the cached response for ten minutes (best
effort), and tries once, without blocking, to put a creation event on a
bounded in-process channel that a background worker drains.

So a retry with the same triple replays the first response while its record
is valid and the lookup works. It creates another order in three cases:
after a failed idempotency write, after a failed lookup, and after the
ten-minute expiry. Creation is therefore not at most once per key.

The files:

- `models.dfy` (module `Models`): the `Order` row and the `CreateOrderRequest`.
  It also has `ValidRequest`, the guarantees the request binding gives before
  the service runs, and `WellFormed`, the shape of every row the core writes.
- `json.dfy` (module `Json`): the cached response as an abstract payload.
  `Encode` is `json.Marshal`. `Decode` is `json.Unmarshal` and fails on
  malformed bytes.
- `events.dfy` (module `Events`): `OrderCreatedEvent` and `ToOrder`.
  `EventChannel` is the buffered channel, a class: `Send` is a send the
  buffer has room for, and `Receive` is the worker taking the oldest event.
- `repository.dfy` (module `Repository`): the `orders` and `idempotency_keys`
  tables, as maps.
  - `OrderRepository` is a class over the two tables. Its methods are
    `CreateOrder`, which stamps and inserts, and `StoreIdempotencyResponse`,
    the upsert.
  - The two read-only queries are functions over the tables:
    `GetOrderByID` and `GetIdempotencyResponse`.
- `service.dfy` (module `Service`):
  - `CreateOrderSpec` is the four-step decision procedure, written as a
    function of the state before the call.
  - `OrderService.CreateOrder` is the step-by-step method over the
    repository and the channel. It is proved equal to `CreateOrderSpec`.
  - The lemmas state the properties of `CreateOrderSpec`.
  - `Consistent` is the invariant kept between calls. It says:
    - the queue is within its capacity;
    - every row is well formed and stored under its own id;
    - every decodable cached response is a row of the table;
    - every queued event describes a row, field for field.

Environment inputs are parameters. They are collected in `Service.Env`:

- the clock `now`, in integer seconds, with 0 standing for Go's zero time;
- whether the request's context is already cancelled;
- which store calls fail: the idempotency lookup, the order insert, and the
  idempotency write (marshalling or the write itself);
- how Go's `select` breaks a tie when the send and `ctx.Done()` are both ready.

The database and the channel are assumed to start `Consistent` when the
service is built: `OrderRepository.constructor` requires every existing row to
be stored under its own non-empty id, and `OrderService.constructor` requires
the whole invariant. That invariant covers well-formed rows, cached responses
that are rows, and queued events that describe rows. An empty database and an
empty channel satisfy it.

The id that `uuid.New()` would produce is modelled by `Repository.NewId`. It
returns a non-empty string that no existing row uses.

## Model

| member | source | states |
|---|---|---|
| `Repository.Stamp` | internal/repository/order_repository.go:37-44 | the stamped order has the given id, status "created" and `createdAt = updatedAt = now`; `orderTime` is kept when non-zero and becomes `now` when zero; customer, product, quantity and price are copied unchanged |
| `Repository.NewId` | internal/repository/order_repository.go:38 | the generated id is non-empty and not an id already in the table |
| `Repository.OrderRepository.CreateOrder` | internal/repository/order_repository.go:31-70 | the returned order is the stamped draft with a fresh id; a failed insert returns the database error and leaves the table unchanged; otherwise exactly that row is added and `GetOrderByID` of its id returns it |
| `Repository.GetOrderByID` | internal/repository/order_repository.go:73-106 | success exactly when the query works and the id is present, returning that row; `ErrOrderNotFound` exactly when the query works and the id is absent; a failed query gives the generic database error |
| `Repository.GetIdempotencyResponse` | internal/repository/order_repository.go:109-134 | a response is returned exactly when the record exists and `valid_to > now`; absent and expired records both give `ErrIdempotencyNotFound`; a failed query gives the generic error |
| `Repository.Upsert` | internal/repository/order_repository.go:146-154 | the triple's record gets the new response and expiry; an existing record keeps its `created_at`, a new one gets `now`; every other triple's record is unchanged |
| `Repository.StoreError` | internal/repository/order_repository.go:138-163 | the call reports an error exactly when marshalling or the write fails |
| `Repository.OrderRepository.StoreIdempotencyResponse` | internal/repository/order_repository.go:137-166 | a marshal or write failure returns its error and leaves the table unchanged; success upserts the encoded response with expiry `now + validity` |
| `Repository.InsertThenGet` | internal/repository/order_repository.go:46-95 | after inserting a row, `GetOrderByID` of its id returns it, and lookups of other ids are unchanged |
| `Repository.StoreThenLookup` | internal/repository/order_repository.go:113-154 | after a successful store, a lookup of the triple at any time before `now + validity` returns the new response; lookups of other triples are unchanged |
| `Repository.ExpiredLooksAbsent` | internal/repository/order_repository.go:113-121 | a lookup of an expired record returns the same as a lookup in the table without it |
| `Json.Encode` | internal/repository/order_repository.go:138 | decoding the encoding of an order gives back that order |
| `Json.Decode` | internal/service/order_service.go:42-49 | decoding succeeds exactly on an encoding, and then the payload is the encoding of the result |
| `Json.DecodeInvertsEncode` | internal/service/order_service.go:42-49 | `Decode(p) == Some(o)` if and only if `p == Encode(o)` |
| `Events.ToOrder` | internal/events/event.go:16-24 | the order carries the event's id, customer, product, quantity and price, has status "created" and zero order, creation and update times; the event's timestamp is dropped |
| `Events.NewEvent` | internal/service/order_service.go:84-91 | the event carries the order's id, customer, product, quantity and price and the emission time; for an order in status "created", `ToOrder` of it is that order with its timestamps zeroed |
| `Events.ToOrderThenNewEvent` | internal/events/event.go:16-24 | converting an event to an order and building the event again with the same timestamp gives back the event |
| `Events.EventRoundTrip` | internal/events/event.go:16-24 | for an order in status "created", building its event and converting back agrees with the order on id, customer, product, quantity, price and status |
| `Events.EventChannel.constructor` | cmd/server/main.go:65 | a new channel is empty and has the configured capacity |
| `Events.EventChannel.Send` | internal/service/order_service.go:94 | a send with room appends the event at the tail and keeps the buffer within capacity |
| `Events.EventChannel.Receive` | internal/events/worker.go:32-33 | the worker receives the oldest event and the rest stay in order |
| `Service.Draft` | internal/service/order_service.go:59-65 | the order handed to the repository carries the request's customer, product, quantity, price and order time, with id, status and the creation and update times unset |
| `Service.CreationPath` | internal/service/order_service.go:58-108 | a failed insert returns `DbError` with the state unchanged and no emission; otherwise the call succeeds with a well-formed order (for a valid request) under the new id, adds exactly that row, attempts one emission, and leaves the queue as it was or one event longer |
| `Service.CreateOrderSpec` | internal/service/order_service.go:32-109 | a replayable record returns its order with nothing changed; the call fails exactly when there is no replay and the insert fails, and then with `DbError` and nothing changed; an emission is attempted exactly on a successful creation |
| `Service.SelectEmit` | internal/service/order_service.go:93-106 | the send is taken only when it is ready; cancellation only when the context is done; "queue full" exactly when neither is ready; a lone ready case is always taken |
| `Service.ReplayedOrder` | internal/service/order_service.go:34-50 | a cached order is replayed exactly when the lookup works, the record is still valid and its response decodes; the replayed order is the one encoded in the record |
| `Service.CacheHitReturnsEarly` | internal/service/order_service.go:34-50 | on a valid decodable record the call returns the cached order and the order table, idempotency table and queue are unchanged |
| `Service.UndecodableIsMiss` | internal/service/order_service.go:42-47 | a record whose response does not decode leads to the creation path, exactly as when the lookup failed |
| `Service.DegradedLookupIsMiss` | internal/service/order_service.go:51-56 | when the record is absent or expired, a failed lookup and a not-found lookup lead to the same creation path |
| `Service.FailedLookupProceedsToCreation` | internal/service/order_service.go:51-56 | a failed lookup leads to the creation path even when a valid, decodable record exists, so a degraded store can produce a second order for the same triple |
| `Service.InsertFailureAborts` | internal/service/order_service.go:67-69 | a failed insert returns the error with no row, no idempotency record and no event |
| `Service.CreationReturnsInsertedOrder` | internal/service/order_service.go:58-108 | the creation path succeeds with the stamped order, inserted under its id; a failed idempotency write is not surfaced and leaves the idempotency table unchanged |
| `Service.CreationRecordsResponse` | internal/service/order_service.go:71-73 | after a successful create and store, the triple's record decodes to the created order and expires at `now + 10 minutes`; an overwritten record keeps its `createdAt` |
| `Service.EmissionOutcomes` | internal/service/order_service.go:93-106 | exactly one of three outcomes; enqueue only with room and at the tail; a cancellation drop only with the context done; a "queue full" drop exactly when the queue is full and the context live; the queue never exceeds capacity; the order and idempotency tables are what the creation wrote |
| `Service.EmittedEventMatchesOrder` | internal/service/order_service.go:84-94 | an enqueued event carries the created order's id, customer, product, quantity and price, which are the request's, and `ToOrder` of it agrees with the order |
| `Service.CreateOrderPreservesConsistency` | internal/service/order_service.go:32-109 | a call keeps `Consistent`, and every order it returns, whether replayed or new, is a row of the table afterwards |
| `Service.RetryWithinWindowReplays` | internal/service/order_service.go:34-73 | after a successful creation and store, a retry with the same triple inside the window whose lookup works returns the first response and changes nothing |
| `Service.ExpiredRetryCreatesNewOrder` | internal/service/order_service.go:34-73 | once the window has passed, a retry with the same triple creates a second order with a different id |
| `Service.WriteFailureRetryCreatesNewOrder` | internal/service/order_service.go:34-81 | after a creation whose idempotency write failed, a retry with the same triple whose lookup works creates a second order with a different id |
| `Service.ConsumePreservesConsistency` | internal/events/worker.go:32-33 | the worker taking the oldest event keeps `Consistent` |
| `Service.OrderService.CreateOrder` | internal/service/order_service.go:32-109 | the result and the new tables and queue are exactly those of `CreateOrderSpec` on the old state, with a fresh generated id whenever the call reaches the insert; `Consistent` is kept |
| `Service.OrderService.GetOrderByID` | internal/service/order_service.go:112-114 | returns exactly the repository's outcome: the row, `ErrOrderNotFound` for an absent id, or the database error for a failed query; a found row carries the requested id |
| `Service.OrderService.ReceiveEvent` | internal/events/worker.go:32-33 | the worker's receive on the service's channel takes the oldest event, which describes a row of the orders table, and keeps `Consistent` |
| `Repository.OrderRepository.constructor` | internal/repository/order_repository.go:23-28 | a repository over an existing database holds exactly the given tables, whose rows must be stored under their own non-empty ids |
| `Service.OrderService.constructor` | internal/service/order_service.go:23-29 | the service shares the given repository and channel, which must start `Consistent` |

## Left out

- The check-then-act race between concurrent requests with the same triple. Requests are modelled one at a time, and the model does not claim at most one order per key under interleaving.
- The worker's `select` loop, its two shutdown signals and the stand-in `time.Sleep` (internal/events/worker.go). These are concurrency and shutdown. Consumption is modelled only as `EventChannel.Receive`.
- HTTP handlers, the server's wiring, signals and shutdown, configuration loading, logging and the database connection. These are plumbing around the core. Log calls are dropped.
- Request validation itself. It is done by the request binding library, so it appears only as the precondition `ValidRequest`. A price of 0 is allowed by that precondition. The model does not claim such a request reaches the service.
- The SQL text, the JSON wire format, the UUID format and float arithmetic. An order is encoded abstractly, prices are integer cents, and ids only need to be fresh.
- The database clock `NOW()` and Go's `time.Now()` are one integer clock `now`. The event timestamp is that clock too.
- Cancellation of the store calls by the request context. It is modelled only as the injected lookup, insert and write failures, which the model treats as independent.
- A response column read as SQL NULL, which makes `savedResponse` nil with no error. That lets the source proceed without a warning. Every stored record in the model has a payload.
- A channel of capacity 0. In Go, a send on it succeeds by direct hand-off to a waiting receiver. The model only enqueues into free buffer space, so such a send is always dropped.
- `Repository.OrderRepository.CreateOrder`: the source stamps the caller's `*Order` in place. The model returns the stamped value instead. The service uses only that value, so aliasing is not observable.
- The exact JSON round trip and the shared instant are assumptions, not proofs. In the source, a replayed order is the JSON of the in-memory order, which drops the monotonic clock reading and keeps nanoseconds. A row read back from the database keeps microseconds. So `Replayable` (replayed order equals its row) and `Decode(Encode(o)) == Some(o)` hold by construction of the model only. Also, the source computes `valid_to` from a later `time.Now()` than the stamp's `now`. The model uses one instant for both, and that fixes the expiry boundary in `Service.ExpiredRetryCreatesNewOrder` at exactly `now + 10 minutes`.
