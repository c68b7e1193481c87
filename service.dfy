/** The order service (internal/service/order_service.go): idempotent order
    creation over the repository's two tables and the event channel. */
module Service {
  import opened Wrappers
  import opened Models
  import opened Json
  import opened Events
  import opened Repository

  /** `10 * time.Minute`, in seconds. */
  const ValidityWindow: int := 10 * 60

  /** Everything one `CreateOrder` call can observe or change. */
  datatype State = State(
    orders: map<string, Order>,
    idempotency: map<IdemKey, IdemRecord>,
    queue: seq<OrderCreatedEvent>)

  /** What the outside world decides during one call: the clock, whether the
      request's context is already cancelled, which store calls fail, and how
      Go's `select` breaks a tie when the send and `ctx.Done()` are both ready. */
  datatype Env = Env(
    now: Time,
    ctxDone: bool,
    lookupFails: bool,
    insertFails: bool,
    storeFault: StoreFault,
    preferSend: bool)

  /** The three mutually exclusive results of the non-blocking send. */
  datatype EmitOutcome = Enqueued | DroppedCancelled | DroppedFull

  /** The call's result, the state after it, and which emission outcome
      happened (`None` when no event was attempted). */
  datatype Reply = Reply(result: Result<Order, Error>, state: State, emitted: Option<EmitOutcome>)

  /** The order the service hands to the repository. */
  function Draft(req: CreateOrderRequest): (d: Order)
    ensures d.customerId == req.customerId && d.productId == req.productId
    ensures d.quantity == req.quantity && d.totalPrice == req.totalPrice
    ensures d.orderTime == req.orderTime
    ensures d.id == "" && d.status == "" && d.createdAt == ZeroTime && d.updatedAt == ZeroTime
  {
    Order("", req.customerId, req.productId, req.quantity, req.totalPrice, "", req.orderTime, ZeroTime, ZeroTime)
  }

  /** A row created from a valid request under a non-empty id is well formed. */
  predicate WellFormedIfValid(req: CreateOrderRequest, newId: string, o: Order) {
    ValidRequest(req) && newId != "" ==> WellFormed(o)
  }

  function KeyOf(endpointName: string, endpointScheme: string, req: CreateOrderRequest): IdemKey {
    IdemKey(endpointName, endpointScheme, req.idempotencyKey)
  }

  /** Go's three-way `select` with a `default` case: a ready case is taken,
      a tie between two ready cases goes either way, and `default` runs only
      when neither is ready. */
  function SelectEmit(sendReady: bool, ctxDone: bool, preferSend: bool): (o: EmitOutcome)
    ensures o == Enqueued ==> sendReady
    ensures o == DroppedCancelled ==> ctxDone
    ensures o == DroppedFull <==> !sendReady && !ctxDone
    ensures sendReady && !ctxDone ==> o == Enqueued
    ensures !sendReady && ctxDone ==> o == DroppedCancelled
  {
    if sendReady && (preferSend || !ctxDone) then Enqueued
    else if ctxDone then DroppedCancelled
    else DroppedFull
  }

  /** The cached order that step 1 replays, if any: a valid record whose
      response decodes. */
  function ReplayedOrder(s: State, k: IdemKey, env: Env): (r: Option<Order>)
    ensures r.Some? <==>
      && !env.lookupFails && k in s.idempotency && env.now < s.idempotency[k].validTo
      && s.idempotency[k].response.Encoded?
    ensures r.Some? ==> s.idempotency[k].response == Encode(r.value)
  {
    var saved := GetIdempotencyResponse(s.idempotency, k.endpointName, k.endpointScheme, k.key, env.now, env.lookupFails);
    if saved.Success? then Decode(saved.value) else None
  }

  /** Steps 2-5: insert, best-effort record, best-effort emit, return. */
  function CreationPath(s: State, capacity: nat, k: IdemKey, req: CreateOrderRequest, env: Env, newId: string): (r: Reply)
    ensures r.result.Failure? <==> env.insertFails
    ensures r.result.Failure? ==> r == Reply(Failure(DbError), s, None)
    ensures r.result.Success? ==>
      && r.emitted.Some?
      && r.result.value.id == newId && WellFormedIfValid(req, newId, r.result.value)
      && r.state.orders == s.orders[newId := r.result.value]
      && (r.state.queue == s.queue || r.state.queue == s.queue + [NewEvent(r.result.value, env.now)])
  {
    if env.insertFails then Reply(Failure(DbError), s, None)
    else
      var o := Stamp(Draft(req), newId, env.now);
      var idempotency := StoredTable(s.idempotency, k, o, ValidityWindow, env.now, env.storeFault);
      var outcome := SelectEmit(|s.queue| < capacity, env.ctxDone, env.preferSend);
      var queue := if outcome == Enqueued then s.queue + [NewEvent(o, env.now)] else s.queue;
      Reply(Success(o), State(s.orders[newId := o], idempotency, queue), Some(outcome))
  }

  /** `CreateOrder` as a function of the state before the call; `newId` is the
      id the repository generates when it gets that far. */
  function CreateOrderSpec(s: State, capacity: nat, endpointName: string, endpointScheme: string,
                           req: CreateOrderRequest, env: Env, newId: string): (r: Reply)
    ensures var replay := ReplayedOrder(s, KeyOf(endpointName, endpointScheme, req), env);
      && (replay.Some? ==> r == Reply(Success(replay.value), s, None))
      && (r.result.Failure? <==> replay.None? && env.insertFails)
      && (r.result.Failure? ==> r.result.error == DbError && r.state == s)
      && (r.emitted.None? ==> r.state == s)
      && (r.emitted.Some? <==> replay.None? && !env.insertFails)
  {
    var k := KeyOf(endpointName, endpointScheme, req);
    match ReplayedOrder(s, k, env)
    case Some(o) => Reply(Success(o), s, None)
    case None => CreationPath(s, capacity, k, req, env, newId)
  }

  /** The event `e` describes, field for field, an order of the table. */
  predicate Describes(orders: map<string, Order>, e: OrderCreatedEvent) {
    e.orderId in orders && NewEvent(orders[e.orderId], e.timestamp) == e
  }

  /** A decodable cached response is an order of the table. */
  predicate Replayable(orders: map<string, Order>, p: Payload) {
    p.Encoded? ==> p.order.id in orders && orders[p.order.id] == p.order
  }

  /** What holds between calls: the queue is within capacity, every row is
      well formed under its own id, every decodable cached response is a row,
      and every queued event describes a row. */
  ghost predicate Consistent(s: State, capacity: nat) {
    && |s.queue| <= capacity
    && KeyedById(s.orders)
    && (forall id :: id in s.orders ==> WellFormed(s.orders[id]))
    && (forall k :: k in s.idempotency ==> Replayable(s.orders, s.idempotency[k].response))
    && (forall i :: 0 <= i < |s.queue| ==> Describes(s.orders, s.queue[i]))
  }

  // ---------------------------------------------------------------------
  // Properties of CreateOrderSpec

  /** A valid cached response is returned and nothing changes. */
  lemma CacheHitReturnsEarly(s: State, capacity: nat, endpointName: string, endpointScheme: string,
                             req: CreateOrderRequest, env: Env, newId: string, o: Order)
    requires var k := KeyOf(endpointName, endpointScheme, req);
      && !env.lookupFails && k in s.idempotency && env.now < s.idempotency[k].validTo
      && s.idempotency[k].response == Encode(o)
    ensures CreateOrderSpec(s, capacity, endpointName, endpointScheme, req, env, newId) == Reply(Success(o), s, None)
  {
  }

  /** A valid record that does not decode is treated as a miss: the call
      behaves exactly as when the lookup itself failed. */
  lemma UndecodableIsMiss(s: State, capacity: nat, endpointName: string, endpointScheme: string,
                          req: CreateOrderRequest, env: Env, newId: string)
    requires var k := KeyOf(endpointName, endpointScheme, req);
      k in s.idempotency && s.idempotency[k].response.Malformed?
    ensures CreateOrderSpec(s, capacity, endpointName, endpointScheme, req, env, newId)
         == CreateOrderSpec(s, capacity, endpointName, endpointScheme, req, env.(lookupFails := true), newId)
    ensures CreateOrderSpec(s, capacity, endpointName, endpointScheme, req, env, newId)
         == CreationPath(s, capacity, KeyOf(endpointName, endpointScheme, req), req, env, newId)
  {
  }

  /** A failed lookup proceeds to creation, exactly as a not-found one does. */
  lemma DegradedLookupIsMiss(s: State, capacity: nat, endpointName: string, endpointScheme: string,
                             req: CreateOrderRequest, env: Env, newId: string)
    requires var k := KeyOf(endpointName, endpointScheme, req);
      GetIdempotencyResponse(s.idempotency, k.endpointName, k.endpointScheme, k.key, env.now, false)
      == Failure(ErrIdempotencyNotFound)
    ensures CreateOrderSpec(s, capacity, endpointName, endpointScheme, req, env.(lookupFails := true), newId)
         == CreateOrderSpec(s, capacity, endpointName, endpointScheme, req, env.(lookupFails := false), newId)
    ensures CreateOrderSpec(s, capacity, endpointName, endpointScheme, req, env.(lookupFails := true), newId)
         == CreationPath(s, capacity, KeyOf(endpointName, endpointScheme, req), req, env, newId)
  {
  }

  /** A failed lookup proceeds to creation even when a valid, decodable
      record exists: availability is preferred over replay, so a degraded
      store can lead to a second order for the same triple. */
  lemma FailedLookupProceedsToCreation(s: State, capacity: nat, endpointName: string, endpointScheme: string,
                                       req: CreateOrderRequest, env: Env, newId: string)
    requires env.lookupFails
    ensures CreateOrderSpec(s, capacity, endpointName, endpointScheme, req, env, newId)
         == CreationPath(s, capacity, KeyOf(endpointName, endpointScheme, req), req, env, newId)
  {
  }

  /** A failed insert is returned as an error and changes nothing: no record,
      no event. */
  lemma InsertFailureAborts(s: State, capacity: nat, endpointName: string, endpointScheme: string,
                            req: CreateOrderRequest, env: Env, newId: string)
    requires ReplayedOrder(s, KeyOf(endpointName, endpointScheme, req), env).None?
    requires env.insertFails
    ensures CreateOrderSpec(s, capacity, endpointName, endpointScheme, req, env, newId) == Reply(Failure(DbError), s, None)
  {
  }

  /** A successful creation returns the inserted row, whatever happens to the
      idempotency write: a failed write is not surfaced and leaves the
      idempotency table as it was. */
  lemma CreationReturnsInsertedOrder(s: State, capacity: nat, endpointName: string, endpointScheme: string,
                                     req: CreateOrderRequest, env: Env, newId: string)
    requires ReplayedOrder(s, KeyOf(endpointName, endpointScheme, req), env).None?
    requires !env.insertFails
    ensures var r := CreateOrderSpec(s, capacity, endpointName, endpointScheme, req, env, newId);
      && r.result == Success(Stamp(Draft(req), newId, env.now))
      && r.state.orders == s.orders[newId := r.result.value]
      && (env.storeFault != NoFault ==> r.state.idempotency == s.idempotency)
  {
  }

  /** After a successful creation and store, the triple's record is the
      created order, valid for exactly the next ten minutes, with the original
      `createdAt` kept on an overwrite. */
  lemma CreationRecordsResponse(s: State, capacity: nat, endpointName: string, endpointScheme: string,
                                req: CreateOrderRequest, env: Env, newId: string)
    requires ReplayedOrder(s, KeyOf(endpointName, endpointScheme, req), env).None?
    requires !env.insertFails && env.storeFault == NoFault
    ensures var r := CreateOrderSpec(s, capacity, endpointName, endpointScheme, req, env, newId);
      var k := KeyOf(endpointName, endpointScheme, req);
      && k in r.state.idempotency
      && Decode(r.state.idempotency[k].response) == Some(r.result.value)
      && r.state.idempotency[k].validTo == env.now + ValidityWindow
      && r.state.idempotency[k].createdAt == (if k in s.idempotency then s.idempotency[k].createdAt else env.now)
  {
  }

  /** Emission has one of three outcomes and never overfills the queue: the
      event is appended only when there is room, a full queue drops it only
      when the context is live, and every other field of the state is what the
      creation wrote. */
  lemma EmissionOutcomes(s: State, capacity: nat, endpointName: string, endpointScheme: string,
                         req: CreateOrderRequest, env: Env, newId: string)
    requires |s.queue| <= capacity
    requires ReplayedOrder(s, KeyOf(endpointName, endpointScheme, req), env).None?
    requires !env.insertFails
    ensures var r := CreateOrderSpec(s, capacity, endpointName, endpointScheme, req, env, newId);
      && r.emitted.Some?
      && |r.state.queue| <= capacity
      && (r.emitted == Some(Enqueued) ==>
            |s.queue| < capacity && r.state.queue == s.queue + [NewEvent(r.result.value, env.now)])
      && (r.emitted == Some(DroppedCancelled) ==> env.ctxDone && r.state.queue == s.queue)
      && (r.emitted == Some(DroppedFull) <==> |s.queue| == capacity && !env.ctxDone)
      && (r.emitted == Some(DroppedFull) ==> r.state.queue == s.queue)
      && r.state.orders == s.orders[newId := r.result.value]
      && r.state.idempotency
         == StoredTable(s.idempotency, KeyOf(endpointName, endpointScheme, req), r.result.value,
                        ValidityWindow, env.now, env.storeFault)
  {
  }

  /** An enqueued event carries the created order's identity, and converting
      it back gives that order up to its timestamps. */
  lemma EmittedEventMatchesOrder(s: State, capacity: nat, endpointName: string, endpointScheme: string,
                                 req: CreateOrderRequest, env: Env, newId: string)
    requires var r := CreateOrderSpec(s, capacity, endpointName, endpointScheme, req, env, newId);
      r.emitted == Some(Enqueued)
    ensures var r := CreateOrderSpec(s, capacity, endpointName, endpointScheme, req, env, newId);
      var e := r.state.queue[|r.state.queue| - 1];
      && r.result.Success?
      && e == NewEvent(r.result.value, env.now)
      && e.orderId == r.result.value.id
      && e.customerId == r.result.value.customerId && e.customerId == req.customerId
      && e.productId == r.result.value.productId && e.productId == req.productId
      && e.quantity == r.result.value.quantity && e.quantity == req.quantity
      && e.totalPrice == r.result.value.totalPrice && e.totalPrice == req.totalPrice
      && SameIdentity(ToOrder(e), r.result.value)
  {
    var r := CreateOrderSpec(s, capacity, endpointName, endpointScheme, req, env, newId);
    EventRoundTrip(r.result.value, env.now);
  }

  /** Creation preserves `Consistent`, and every order it returns, replayed or
      new, is a row of the table afterwards. */
  lemma CreateOrderPreservesConsistency(s: State, capacity: nat, endpointName: string,
                                        endpointScheme: string, req: CreateOrderRequest,
                                        env: Env, newId: string)
    requires Consistent(s, capacity) && ValidRequest(req)
    requires newId != "" && newId !in s.orders
    ensures var r := CreateOrderSpec(s, capacity, endpointName, endpointScheme, req, env, newId);
      && Consistent(r.state, capacity)
      && (r.result.Success? ==> r.result.value.id in r.state.orders && r.state.orders[r.result.value.id] == r.result.value)
  {
  }

  /** A retry with the same triple inside the validity window replays the
      first response and changes nothing (assuming the record was written and
      the second lookup works). */
  lemma RetryWithinWindowReplays(s: State, capacity: nat, endpointName: string, endpointScheme: string,
                                 req: CreateOrderRequest, req2: CreateOrderRequest,
                                 env: Env, env2: Env, newId: string, newId2: string)
    requires var r := CreateOrderSpec(s, capacity, endpointName, endpointScheme, req, env, newId);
      r.emitted.Some? && env.storeFault == NoFault
    requires req2.idempotencyKey == req.idempotencyKey
    requires !env2.lookupFails && env2.now < env.now + ValidityWindow
    ensures var r := CreateOrderSpec(s, capacity, endpointName, endpointScheme, req, env, newId);
      CreateOrderSpec(r.state, capacity, endpointName, endpointScheme, req2, env2, newId2)
      == Reply(r.result, r.state, None)
  {
    var r := CreateOrderSpec(s, capacity, endpointName, endpointScheme, req, env, newId);
    CreationRecordsResponse(s, capacity, endpointName, endpointScheme, req, env, newId);
    var k := KeyOf(endpointName, endpointScheme, req);
    assert KeyOf(endpointName, endpointScheme, req2) == k;
    CacheHitReturnsEarly(r.state, capacity, endpointName, endpointScheme, req2, env2, newId2, r.result.value);
  }

  /** Once the window has passed, the same triple creates a new order with a
      different id (when the insert works). */
  lemma ExpiredRetryCreatesNewOrder(s: State, capacity: nat, endpointName: string, endpointScheme: string,
                                    req: CreateOrderRequest, req2: CreateOrderRequest,
                                    env: Env, env2: Env, newId: string, newId2: string)
    requires var r := CreateOrderSpec(s, capacity, endpointName, endpointScheme, req, env, newId);
      r.emitted.Some? && env.storeFault == NoFault && newId2 !in r.state.orders
    requires req2.idempotencyKey == req.idempotencyKey
    requires env.now + ValidityWindow <= env2.now && !env2.insertFails
    ensures var r := CreateOrderSpec(s, capacity, endpointName, endpointScheme, req, env, newId);
      var r2 := CreateOrderSpec(r.state, capacity, endpointName, endpointScheme, req2, env2, newId2);
      && r2.result.Success? && r2.emitted.Some?
      && r2.result.value.id != r.result.value.id
      && r.result.value.id in r2.state.orders && r2.result.value.id in r2.state.orders
  {
    var r := CreateOrderSpec(s, capacity, endpointName, endpointScheme, req, env, newId);
    CreationRecordsResponse(s, capacity, endpointName, endpointScheme, req, env, newId);
    var k := KeyOf(endpointName, endpointScheme, req);
    assert KeyOf(endpointName, endpointScheme, req2) == k;
    assert ReplayedOrder(r.state, k, env2).None?;
  }

  /** A failed idempotency write leaves no record to replay: a later retry
      with the same triple, whose lookup works, creates a second order with
      a different id. */
  lemma WriteFailureRetryCreatesNewOrder(s: State, capacity: nat, endpointName: string, endpointScheme: string,
                                         req: CreateOrderRequest, req2: CreateOrderRequest,
                                         env: Env, env2: Env, newId: string, newId2: string)
    requires var r := CreateOrderSpec(s, capacity, endpointName, endpointScheme, req, env, newId);
      r.emitted.Some? && !env.lookupFails && env.storeFault == WriteFails && newId2 !in r.state.orders
    requires req2.idempotencyKey == req.idempotencyKey
    requires env.now <= env2.now && !env2.insertFails
    ensures var r := CreateOrderSpec(s, capacity, endpointName, endpointScheme, req, env, newId);
      var r2 := CreateOrderSpec(r.state, capacity, endpointName, endpointScheme, req2, env2, newId2);
      && r2.result.Success? && r2.emitted.Some?
      && r2.result.value.id != r.result.value.id
      && r.result.value.id in r2.state.orders && r2.result.value.id in r2.state.orders
  {
    var k := KeyOf(endpointName, endpointScheme, req);
    assert KeyOf(endpointName, endpointScheme, req2) == k;
  }

  /** The worker taking the oldest event keeps `Consistent`. */
  lemma ConsumePreservesConsistency(s: State, capacity: nat)
    requires Consistent(s, capacity) && s.queue != []
    ensures Consistent(s.(queue := s.queue[1..]), capacity)
  {
    forall i | 0 <= i < |s.queue| - 1
      ensures Describes(s.orders, s.queue[1..][i])
    {
      assert s.queue[1..][i] == s.queue[i + 1];
    }
  }

  // ---------------------------------------------------------------------
  // The service object

  class OrderService {
    const repo: OrderRepository
    const channel: EventChannel

    ghost function Snapshot(): State
      reads repo, channel
    {
      State(repo.orders, repo.idempotency, channel.buffer)
    }

    ghost predicate Valid()
      reads repo, channel
    {
      Consistent(Snapshot(), channel.capacity)
    }

    /** `NewOrderService`: the service shares the repository and the channel. */
    constructor (repo: OrderRepository, channel: EventChannel)
      requires Consistent(State(repo.orders, repo.idempotency, channel.buffer), channel.capacity)
      ensures Valid()
      ensures this.repo == repo && this.channel == channel
    {
      this.repo := repo;
      this.channel := channel;
    }

    /** `CreateOrder`.  The new state and the result are those of
        `CreateOrderSpec`; `newId` is the id the repository generated, fresh
        whenever the call reached the insert. */
    method CreateOrder(endpointName: string, endpointScheme: string, req: CreateOrderRequest, env: Env)
      returns (result: Result<Order, Error>, ghost newId: string, ghost emitted: Option<EmitOutcome>)
      requires Valid() && ValidRequest(req)
      modifies repo, channel
      ensures Valid()
      ensures ReplayedOrder(old(Snapshot()), KeyOf(endpointName, endpointScheme, req), env).None? ==>
                newId != "" && newId !in old(repo.orders)
      ensures Reply(result, Snapshot(), emitted)
           == CreateOrderSpec(old(Snapshot()), channel.capacity, endpointName, endpointScheme, req, env, newId)
    {
      ghost var s0 := Snapshot();
      newId := "";
      emitted := None;

      // Step 1: replay a valid cached response that decodes.
      var saved := GetIdempotencyResponse(repo.idempotency, endpointName, endpointScheme, req.idempotencyKey,
                                          env.now, env.lookupFails);
      if saved.Success? {
        var cached := Decode(saved.value);
        if cached.Some? {
          result := Success(cached.value);
          return;
        }
        // An undecodable response falls through to creation.
      }
      // Not found, or a degraded lookup: proceed with creation.

      // Step 2: create the order; a failure aborts the call.
      var order, err := repo.CreateOrder(Draft(req), env.now, env.insertFails);
      newId := order.id;
      if err.Some? {
        result := Failure(err.value);
        return;
      }

      // Step 3: record the response; a failure is not surfaced.
      var storeErr := repo.StoreIdempotencyResponse(endpointName, endpointScheme, req.idempotencyKey,
                                                    order, ValidityWindow, env.now, env.storeFault);

      // Step 4: emit without blocking.
      var event := NewEvent(order, env.now);
      var outcome := SelectEmit(|channel.buffer| < channel.capacity, env.ctxDone, env.preferSend);
      if outcome == Enqueued {
        channel.Send(event);
      }
      emitted := Some(outcome);

      // Step 5.
      result := Success(order);
      CreateOrderPreservesConsistency(s0, channel.capacity, endpointName, endpointScheme, req, env, newId);
    }

    /** `GetOrderByID`: a pass-through that keeps the repository's not-found
        and error outcomes apart. */
    method GetOrderByID(id: string, queryFails: bool) returns (r: Result<Order, Error>)
      requires Valid()
      ensures r.Success? <==> !queryFails && id in repo.orders
      ensures r.Success? ==> r.value == repo.orders[id] && r.value.id == id
      ensures r == Failure(ErrOrderNotFound) <==> !queryFails && id !in repo.orders
      ensures queryFails ==> r == Failure(DbError)
      ensures r == Repository.GetOrderByID(repo.orders, id, queryFails)
    {
      r := Repository.GetOrderByID(repo.orders, id, queryFails);
    }

    /** The worker's receive on the shared channel: the oldest event leaves
        the queue, it describes a row of the orders table, and the service's
        invariant still holds. */
    method ReceiveEvent() returns (e: OrderCreatedEvent)
      requires Valid() && channel.buffer != []
      modifies channel
      ensures Valid()
      ensures e == old(channel.buffer)[0] && channel.buffer == old(channel.buffer)[1..]
      ensures Describes(repo.orders, e)
    {
      ConsumePreservesConsistency(Snapshot(), channel.capacity);
      e := channel.Receive();
    }
  }
}
