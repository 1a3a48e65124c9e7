/** Go's `net.IP`: an address is a byte slice, 4 bytes for IPv4 and 16 for IPv6,
    and an IPv4 address may also be held in its 16-byte IPv4-mapped form. */
module Net {
  type Byte = bv8
  type Bytes = seq<Byte>
  datatype Port = Port(bits: bv16)

  datatype Option<+T> = None | Some(value: T)

  const AF_UNIX: bv16 := 1
  const AF_INET: bv16 := 2
  const AF_INET6: bv16 := 10
  const SOCK_STREAM: int := 1

  const ZERO4: Bytes := [0, 0, 0, 0]
  const ZERO8: Bytes := ZERO4 + ZERO4
  const MAPPED_PREFIX: Bytes := ZERO8 + [0, 0, 0xff, 0xff]

  /** The only lengths a caller of the engine may hand it. */
  predicate IsAddress(ip: Bytes) {
    |ip| == 4 || |ip| == 16
  }

  type IP = ip: Bytes | IsAddress(ip) witness ZERO4

  predicate IsMapped(ip: Bytes) {
    |ip| == 16 && ip[..12] == MAPPED_PREFIX
  }

  /** `IP.To4`; the empty slice stands for nil. */
  function To4(ip: Bytes): (r: Bytes)
    ensures r == [] || |r| == 4
  {
    if |ip| == 4 then ip
    else if IsMapped(ip) then ip[12..]
    else []
  }

  /** `IP.To16`; the empty slice stands for nil. */
  function To16(ip: Bytes): (r: Bytes)
    ensures r == [] || |r| == 16
  {
    if |ip| == 4 then MAPPED_PREFIX + ip
    else if |ip| == 16 then ip
    else []
  }

  /** `IP.Equal`: an IPv4 address equals its IPv4-mapped form. */
  predicate Equal(a: Bytes, b: Bytes) {
    if |a| == |b| then a == b
    else if |a| == 4 && |b| == 16 then b[..12] == MAPPED_PREFIX && b[12..] == a
    else if |a| == 16 && |b| == 4 then a[..12] == MAPPED_PREFIX && a[12..] == b
    else false
  }
}
