/**
 * The two pieces of Go's net package the check relies on: ParseIP and
 * IP.To16. The grammar of address literals is not modelled: ParseIP is a
 * parameter of every operation that parses the server, constrained only by
 * what the library guarantees about its result.
 */
module Net {
  import opened Wrappers

  /** A net.IP: the raw bytes of an address. */
  type Address = seq<bv8>

  const IPv4Len: nat := 4
  const IPv6Len: nat := 16

  /** The prefix of an IPv4-mapped IPv6 address (::ffff:a.b.c.d). */
  const V4InV6Prefix: seq<bv8> := [0, 0, 0, 0, 0, 0, 0, 0, 0, 0, 0xff, 0xff]

  /**
   * net.ParseIP: None for a string that is not an IP literal (Go's nil),
   * otherwise the address, always in its 16-byte form (IPv4 literals come
   * back IPv4-mapped).
   */
  type IPParser = parse: string -> Option<Address>
    | forall s :: parse(s).Some? ==> |parse(s).value| == IPv6Len
    witness (s: string) => None

  /** IP.To16: the 16-byte form of an address, or nil for a slice of any other length. */
  function To16(ip: Option<Address>): (r: Option<Address>)
    ensures r.Some? <==> ip.Some? && (|ip.value| == IPv4Len || |ip.value| == IPv6Len)
    ensures r.Some? ==> |r.value| == IPv6Len
    ensures r.Some? && |ip.value| == IPv4Len ==> r.value[..12] == V4InV6Prefix && r.value[12..] == ip.value
  {
    match ip
    case None => None
    case Some(b) =>
      if |b| == IPv4Len then Some(V4InV6Prefix + b)
      else if |b| == IPv6Len then Some(b)
      else None
  }
}
