/**
 * Serialization as the store sees it. A codec turns a typed value into a record
 * (MessagePack bytes for the on-disk backends, JSON text for the browser one) and
 * back. Encoding may fail (a value serde cannot serialize), decoding may fail
 * (a record written for another type). The byte layouts themselves are not
 * modelled; what the store relies on is the round trip.
 */
module Codecs {
  import opened Wrappers

  type Byte = bv8
  type Bytes = seq<Byte>

  datatype Codec<!T, !R> = Codec(encode: T -> Option<R>, decode: R -> Option<T>)

  /** Every value the codec can encode decodes back to itself. */
  ghost predicate RoundTrips<T(!new), R>(c: Codec<T, R>) {
    forall v :: c.encode(v).Some? ==> c.decode(c.encode(v).value) == Some(v)
  }
}
