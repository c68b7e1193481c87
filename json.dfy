/** The serialized response kept in the idempotency table, abstracted from the
    JSON wire format: either the encoding of an order, or bytes that do not
    decode to one. */
module Json {
  import opened Wrappers
  import opened Models

  datatype Payload = Encoded(order: Order) | Malformed(raw: seq<char>)

  /** `json.Marshal` of an order. */
  function Encode(o: Order): (p: Payload)
    ensures Decode(p) == Some(o)
  {
    Encoded(o)
  }

  /** `json.Unmarshal` into an order; fails on anything that is not an encoding. */
  function Decode(p: Payload): (r: Option<Order>)
    ensures r.Some? <==> p.Encoded?
    ensures r.Some? ==> p == Encoded(r.value)
  {
    match p
    case Encoded(o) => Some(o)
    case Malformed(_) => None
  }

  /** Decoding succeeds with `o` exactly on the encoding of `o`. */
  lemma DecodeInvertsEncode(p: Payload, o: Order)
    ensures Decode(p) == Some(o) <==> p == Encode(o)
  {
  }
}
