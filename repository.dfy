/** The two tables behind the order repository
    (internal/repository/order_repository.go, internal/repository/errors.go):
    `orders`, keyed by order id, and `idempotency_keys`, keyed by the triple
    (endpoint name, endpoint scheme, client key). */
module Repository {
  import opened Wrappers
  import opened Models
  import opened Json

  /** `ErrOrderNotFound` and `ErrIdempotencyNotFound` are the sentinels the
      repository returns; `DbError` is any failure reported by the database and
      `MarshalError` a failure of `json.Marshal`. */
  datatype Error = ErrOrderNotFound | ErrIdempotencyNotFound | DbError | MarshalError

  datatype IdemKey = IdemKey(endpointName: string, endpointScheme: string, key: string)

  datatype IdemRecord = IdemRecord(response: Payload, validTo: Time, createdAt: Time)

  /** How a `StoreIdempotencyResponse` call may fail. */
  datatype StoreFault = NoFault | MarshalFails | WriteFails

  /** Every row is stored under its own id, which is never empty. */
  ghost predicate KeyedById(orders: map<string, Order>) {
    forall id :: id in orders ==> orders[id].id == id && id != ""
  }

  /** The caller-supplied fields of `o` are those of `draft`. */
  predicate KeepsRequestFields(draft: Order, o: Order) {
    && o.customerId == draft.customerId
    && o.productId == draft.productId
    && o.quantity == draft.quantity
    && o.totalPrice == draft.totalPrice
  }

  /** The fields `CreateOrder` fills in before the insert. */
  function Stamp(draft: Order, id: string, now: Time): (o: Order)
    ensures o.id == id && o.status == StatusCreated
    ensures o.createdAt == now && o.updatedAt == now
    ensures o.orderTime == if draft.orderTime == ZeroTime then now else draft.orderTime
    ensures KeepsRequestFields(draft, o)
  {
    var o := draft.(id := id);
    var o := if o.orderTime == ZeroTime then o.(orderTime := now) else o;
    o.(createdAt := now, updatedAt := now, status := StatusCreated)
  }

  /** `GetOrderByID`: the row with that id, a distinct not-found outcome when
      there is none, or the database's own error. */
  function GetOrderByID(orders: map<string, Order>, id: string, queryFails: bool): (r: Result<Order, Error>)
    ensures r.Success? <==> !queryFails && id in orders
    ensures r.Success? ==> r.value == orders[id]
    ensures r == Failure(ErrOrderNotFound) <==> !queryFails && id !in orders
    ensures queryFails ==> r == Failure(DbError)
  {
    if queryFails then Failure(DbError)
    else if id !in orders then Failure(ErrOrderNotFound)
    else Success(orders[id])
  }

  /** `GetIdempotencyResponse`: only a record still valid at `now`
      (`valid_to > now`) is returned; an absent and an expired record both give
      `ErrIdempotencyNotFound`. */
  function GetIdempotencyResponse(table: map<IdemKey, IdemRecord>, endpointName: string,
                                  endpointScheme: string, key: string, now: Time,
                                  queryFails: bool): (r: Result<Payload, Error>)
    ensures var k := IdemKey(endpointName, endpointScheme, key);
      && (r.Success? <==> !queryFails && k in table && now < table[k].validTo)
      && (r.Success? ==> r.value == table[k].response)
      && (r == Failure(ErrIdempotencyNotFound) <==> !queryFails && (k !in table || table[k].validTo <= now))
      && (queryFails ==> r == Failure(DbError))
  {
    var k := IdemKey(endpointName, endpointScheme, key);
    if queryFails then Failure(DbError)
    else if k in table && table[k].validTo > now then Success(table[k].response)
    else Failure(ErrIdempotencyNotFound)
  }

  /** The upsert of `StoreIdempotencyResponse`: on conflict only the response
      and the expiry change, so an existing row keeps its `createdAt`. */
  function Upsert(table: map<IdemKey, IdemRecord>, k: IdemKey, response: Payload,
                  validTo: Time, now: Time): (r: map<IdemKey, IdemRecord>)
    ensures r.Keys == table.Keys + {k}
    ensures r[k].response == response && r[k].validTo == validTo
    ensures r[k].createdAt == if k in table then table[k].createdAt else now
    ensures forall k' :: k' in table && k' != k ==> r[k'] == table[k']
  {
    var createdAt := if k in table then table[k].createdAt else now;
    table[k := IdemRecord(response, validTo, createdAt)]
  }

  /** The table after a `StoreIdempotencyResponse` call: unchanged when
      marshalling or the write fails. */
  function StoredTable(table: map<IdemKey, IdemRecord>, k: IdemKey, response: Order,
                       validity: int, now: Time, fault: StoreFault): map<IdemKey, IdemRecord>
  {
    if fault == NoFault then Upsert(table, k, Encode(response), now + validity, now) else table
  }

  /** The error a `StoreIdempotencyResponse` call reports. */
  function StoreError(fault: StoreFault): (err: Option<Error>)
    ensures err.None? <==> fault == NoFault
  {
    match fault
    case NoFault => None
    case MarshalFails => Some(MarshalError)
    case WriteFails => Some(DbError)
  }

  /** Stand-in for `uuid.New().String()`: a non-empty id that is not already
      taken, found by making it longer than every taken id. */
  method NewId(taken: set<string>) returns (id: string)
    ensures id != "" && id !in taken
  {
    var rest := taken;
    var longest: nat := 0;
    while rest != {}
      invariant rest <= taken
      invariant forall s :: s in taken && s !in rest ==> |s| <= longest
      decreases |rest|
    {
      var s :| s in rest;
      if |s| > longest {
        longest := |s|;
      }
      rest := rest - {s};
    }
    id := seq(longest + 1, _ => 'u');
    assert |id| > longest;
  }

  /** Insert then read: the new row is returned under its id and every other
      lookup is as before. */
  lemma InsertThenGet(orders: map<string, Order>, o: Order, id: string, queryFails: bool)
    requires o.id !in orders
    ensures GetOrderByID(orders[o.id := o], o.id, false) == Success(o)
    ensures id != o.id ==> GetOrderByID(orders[o.id := o], id, queryFails) == GetOrderByID(orders, id, queryFails)
  {
  }

  /** After a successful store, every lookup of the triple strictly before the
      new expiry returns the new response, and other triples are unaffected. */
  lemma StoreThenLookup(table: map<IdemKey, IdemRecord>, k: IdemKey, response: Order,
                        validity: int, now: Time, t: Time, other: IdemKey)
    requires t < now + validity
    ensures var table' := StoredTable(table, k, response, validity, now, NoFault);
      && GetIdempotencyResponse(table', k.endpointName, k.endpointScheme, k.key, t, false) == Success(Encode(response))
      && (other != k ==>
            GetIdempotencyResponse(table', other.endpointName, other.endpointScheme, other.key, t, false)
            == GetIdempotencyResponse(table, other.endpointName, other.endpointScheme, other.key, t, false))
  {
  }

  /** An expired record is indistinguishable from an absent one. */
  lemma ExpiredLooksAbsent(table: map<IdemKey, IdemRecord>, k: IdemKey, now: Time, queryFails: bool)
    requires k in table && table[k].validTo <= now
    ensures GetIdempotencyResponse(table, k.endpointName, k.endpointScheme, k.key, now, queryFails)
         == GetIdempotencyResponse(table - {k}, k.endpointName, k.endpointScheme, k.key, now, queryFails)
  {
  }

  /** The repository's database, reduced to its two tables. */
  class OrderRepository {
    var orders: map<string, Order>
    var idempotency: map<IdemKey, IdemRecord>

    ghost predicate Valid()
      reads this
    {
      KeyedById(orders)
    }

    /** A repository over a database that already holds these rows. */
    constructor (orders: map<string, Order>, idempotency: map<IdemKey, IdemRecord>)
      requires KeyedById(orders)
      ensures Valid()
      ensures this.orders == orders && this.idempotency == idempotency
    {
      this.orders := orders;
      this.idempotency := idempotency;
    }

    /** `CreateOrder`: stamps a fresh id, the status and the timestamps onto
        `draft` (returned as `order`, the caller's order after the call), then
        inserts it.  A failed insert leaves the table unchanged. */
    method CreateOrder(draft: Order, now: Time, insertFails: bool) returns (order: Order, err: Option<Error>)
      requires Valid()
      modifies this`orders
      ensures Valid()
      ensures order == Stamp(draft, order.id, now)
      ensures order.id != "" && order.id !in old(orders)
      ensures err == if insertFails then Some(DbError) else None
      ensures orders == if insertFails then old(orders) else old(orders)[order.id := order]
      ensures !insertFails ==> GetOrderByID(orders, order.id, false) == Success(order)
    {
      order := draft;
      var id := NewId(orders.Keys);
      order := order.(id := id);
      if order.orderTime == ZeroTime {
        order := order.(orderTime := now);
      }
      order := order.(createdAt := now, updatedAt := now, status := StatusCreated);
      if insertFails {
        err := Some(DbError);
        return;
      }
      orders := orders[order.id := order];
      err := None;
    }

    /** `StoreIdempotencyResponse`: marshals `response` and upserts it with
        expiry `now + validity`; a failure is reported and writes nothing. */
    method StoreIdempotencyResponse(endpointName: string, endpointScheme: string, key: string,
                                    response: Order, validity: int, now: Time, fault: StoreFault)
      returns (err: Option<Error>)
      requires Valid()
      modifies this`idempotency
      ensures Valid()
      ensures err == StoreError(fault)
      ensures idempotency == StoredTable(old(idempotency), IdemKey(endpointName, endpointScheme, key),
                                         response, validity, now, fault)
    {
      if fault == MarshalFails {
        err := Some(MarshalError);
        return;
      }
      var responseJson := Encode(response);
      var validTo := now + validity;
      if fault == WriteFails {
        err := Some(DbError);
        return;
      }
      var k := IdemKey(endpointName, endpointScheme, key);
      var createdAt := if k in idempotency then idempotency[k].createdAt else now;
      idempotency := idempotency[k := IdemRecord(responseJson, validTo, createdAt)];
      err := None;
    }
  }
}
