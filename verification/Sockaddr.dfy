/** `seccomp/sockaddr.go`: socket addresses and their wire image. */
module Sockaddrs {
  import opened Net

  /** `sockaddr`; of the embedded RawSockaddr only the family is ever used. */
  datatype Sockaddr = Sockaddr(family: bv16, ip: Bytes, port: Port, flowinfo: bv32, scopeID: bv32)

  const SIZE_INET4 := 16
  const SIZE_INET6 := 28

  // ---------------------------------------------------------------- byte order

  function HighByte(x: bv16): Byte { (x >> 8) as Byte }

  function LowByte(x: bv16): Byte { (x & 0xff) as Byte }

  function Word(high: Byte, low: Byte): (x: bv16)
    ensures HighByte(x) == high && LowByte(x) == low
  {
    ((high as bv16) << 8) | (low as bv16)
  }

  lemma WordOfBytes(x: bv16)
    ensures Word(HighByte(x), LowByte(x)) == x
  {
  }

  function Le16(b: Bytes): bv16
    requires |b| == 2
  {
    Word(b[1], b[0])
  }

  function PutLe16(x: bv16): (b: Bytes)
    ensures |b| == 2 && Le16(b) == x
  {
    WordOfBytes(x);
    [LowByte(x), HighByte(x)]
  }

  function Be16(b: Bytes): bv16
    requires |b| == 2
  {
    Word(b[0], b[1])
  }

  function PutBe16(x: bv16): (b: Bytes)
    ensures |b| == 2 && Be16(b) == x
  {
    WordOfBytes(x);
    [HighByte(x), LowByte(x)]
  }

  function Le32(b: Bytes): bv32
    requires |b| == 4
  {
    (b[0] as bv32) | ((b[1] as bv32) << 8) | ((b[2] as bv32) << 16) | ((b[3] as bv32) << 24)
  }

  function PutLe32(x: bv32): (b: Bytes)
    ensures |b| == 4
  {
    [(x & 0xff) as Byte, ((x >> 8) & 0xff) as Byte, ((x >> 16) & 0xff) as Byte, (x >> 24) as Byte]
  }

  lemma Le16RoundTrips(b: Bytes)
    requires |b| == 2
    ensures PutLe16(Le16(b)) == b && PutBe16(Be16(b)) == b
  {
  }

  lemma Le32RoundTrips(x: bv32, b: Bytes)
    requires |b| == 4
    ensures Le32(PutLe32(x)) == x && PutLe32(Le32(b)) == b
  {
  }

  /** Reading a port little-endian and swapping it through a big-endian buffer,
      as the source does, is reading it in network order. */
  lemma ReadPort(b: Bytes)
    requires |b| == 2
    ensures Le16(PutBe16(Le16(b))) == Be16(b)
  {
  }

  /** Likewise for writing. */
  lemma WritePort(port: bv16)
    ensures PutLe16(Be16([LowByte(port), HighByte(port)])) == PutBe16(port)
  {
  }

  // ------------------------------------------------------------- specification

  /** The wire image of section 3.3 of RFC 3493 (Linux layout): family in host
      order, port in network order, then the address. */
  function Print(sa: Sockaddr): (r: Option<Bytes>) {
    if sa.family == AF_INET then
      Some(PutLe16(sa.family) + PutBe16(sa.port.bits) + Fit(To4(sa.ip), 4) + ZERO8)
    else if sa.family == AF_INET6 then
      Some(PutLe16(sa.family) + PutBe16(sa.port.bits) + PutLe32(sa.flowinfo) + Fit(To16(sa.ip), 16) + PutLe32(sa.scopeID))
    else
      None
  }

  function Parse(buf: Bytes): (r: Option<Sockaddr>)
    ensures r.Some? ==> Valid(r.value) && IsAddress(r.value.ip)
  {
    if |buf| < SIZE_INET4 then None
    else
      var family := Le16(buf[..2]);
      if family == AF_INET then
        Some(Sockaddr(family, buf[4..8], Port(Be16(buf[2..4])), 0, 0))
      else if family == AF_INET6 && |buf| >= SIZE_INET6 then
        Some(Sockaddr(family, buf[8..24], Port(Be16(buf[2..4])), Le32(buf[4..8]), Le32(buf[24..28])))
      else
        None
  }

  /** `copy` of `src` into a zeroed array of length `n`. */
  function Fit(src: Bytes, n: nat): (r: Bytes)
    ensures |r| == n
    ensures |src| == n ==> r == src
  {
    if |src| >= n then src[..n] else src + seq(n - |src|, _ => 0)
  }

  predicate Valid(sa: Sockaddr) {
    (sa.family == AF_INET && |To4(sa.ip)| == 4) || (sa.family == AF_INET6 && |To16(sa.ip)| == 16)
  }

  /** `newSockAddrFromIPPort`. */
  function FromIPPort(domain: bv16, ip: Bytes, port: Port, flowinfo: bv32, scopeID: bv32): (r: Option<Sockaddr>) {
    if domain == AF_INET then Some(Sockaddr(domain, To4(ip), port, 0, 0))
    else if domain == AF_INET6 then Some(Sockaddr(domain, To16(ip), port, flowinfo, scopeID))
    else None
  }

  /** `zeroSockaddr`: `net.IPv4zero` is held in its 16-byte form. */
  const ZERO_SOCKADDR := Sockaddr(AF_INET, MAPPED_PREFIX + ZERO4, Port(0), 0, 0)

  /** What a printed address means: the family, the address in the family's own
      spelling, the port, and flow info and scope for AF_INET6 only. */
  function Canon(sa: Sockaddr): Sockaddr {
    if sa.family == AF_INET then Sockaddr(sa.family, To4(sa.ip), sa.port, 0, 0)
    else sa.(ip := To16(sa.ip))
  }

  // ---------------------------------------------------------------- properties

  lemma PrintLength(sa: Sockaddr)
    ensures Print(sa).Some? <==> sa.family == AF_INET || sa.family == AF_INET6
    ensures Print(sa).Some? ==> |Print(sa).value| == if sa.family == AF_INET then SIZE_INET4 else SIZE_INET6
  {
  }

  lemma PrintLayout(sa: Sockaddr)
    requires Print(sa).Some?
    ensures var b := Print(sa).value;
            && b[..2] == PutLe16(sa.family)
            && b[2..4] == PutBe16(sa.port.bits)
            && (sa.family == AF_INET ==> b[4..8] == Fit(To4(sa.ip), 4))
            && (sa.family == AF_INET6 ==> b[4..8] == PutLe32(sa.flowinfo) && b[8..24] == Fit(To16(sa.ip), 16) &&
                                          b[24..28] == PutLe32(sa.scopeID))
  {
    var b := Print(sa).value;
    if sa.family == AF_INET {
      Fields(PutLe16(sa.family), PutBe16(sa.port.bits), Fit(To4(sa.ip), 4), ZERO8, []);
      assert b == b + [];
    } else {
      Fields(PutLe16(sa.family), PutBe16(sa.port.bits), PutLe32(sa.flowinfo), Fit(To16(sa.ip), 16), PutLe32(sa.scopeID));
    }
  }

  /** Each field of a record image sits at the sum of the sizes before it. */
  lemma Fields(a: Bytes, b: Bytes, c: Bytes, d: Bytes, e: Bytes)
    ensures var r := a + b + c + d + e;
            var (i, j, k) := (|a| + |b|, |a| + |b| + |c|, |a| + |b| + |c| + |d|);
            r[..|a|] == a && r[|a|..i] == b && r[i..j] == c && r[j..k] == d && r[k..] == e
  {
  }

  lemma ParsePrint(sa: Sockaddr)
    requires Valid(sa)
    ensures Print(sa).Some? && Parse(Print(sa).value) == Some(Canon(sa))
    ensures Equal(Canon(sa).ip, sa.ip)
  {
    PrintLength(sa);
    PrintLayout(sa);
    Le32RoundTrips(sa.flowinfo, [0, 0, 0, 0]);
    Le32RoundTrips(sa.scopeID, [0, 0, 0, 0]);
    if sa.family == AF_INET6 && |sa.ip| == 4 {
      assert To16(sa.ip)[..12] == MAPPED_PREFIX && To16(sa.ip)[12..] == sa.ip;
    }
  }

  lemma WordIs(high: Byte, low: Byte, x: bv16)
    ensures Word(high, low) == x <==> high == HighByte(x) && low == LowByte(x)
  {
    WordOfBytes(x);
  }

  /** What is read of a buffer, byte by byte. A family of 2 takes 16 bytes and one of 10
      takes 28, the first byte being the low one; there is no other. */
  lemma ParseBytes(buf: Bytes)
    ensures Parse(buf) ==
            if |buf| >= 16 && buf[0] == 2 && buf[1] == 0 then
              Some(Sockaddr(2, buf[4..8], Port(Word(buf[2], buf[3])), 0, 0))
            else if |buf| >= 28 && buf[0] == 10 && buf[1] == 0 then
              Some(Sockaddr(10, buf[8..24], Port(Word(buf[2], buf[3])), Le32(buf[4..8]), Le32(buf[24..28])))
            else None
  {
    if |buf| >= 16 {
      WordIs(buf[1], buf[0], 2);
      WordIs(buf[1], buf[0], 10);
    }
    hide Word;
    hide Le32;
  }

  lemma PrintParse(buf: Bytes)
    ensures Parse(buf).Some? <==>
            |buf| >= SIZE_INET4 && (Le16(buf[..2]) == AF_INET || (Le16(buf[..2]) == AF_INET6 && |buf| >= SIZE_INET6))
    ensures Parse(buf).Some? ==>
            Print(Parse(buf).value) ==
            if Parse(buf).value.family == AF_INET then Some(buf[..8] + ZERO8) else Some(buf[..28])
    ensures Parse(buf).Some? ==> Valid(Parse(buf).value)
  {
    if Parse(buf).Some? {
      var sa := Parse(buf).value;
      Le16RoundTrips(buf[..2]);
      Le16RoundTrips(buf[2..4]);
      Le32RoundTrips(0, buf[4..8]);
      if sa.family == AF_INET {
        assert To4(sa.ip) == sa.ip == buf[4..8];
        assert buf[..8] == buf[..2] + buf[2..4] + buf[4..8];
      } else {
        Le32RoundTrips(0, buf[24..28]);
        assert buf[..28] == buf[..2] + buf[2..4] + buf[4..8] + buf[8..24] + buf[24..28];
      }
    }
  }

  // ------------------------------------------------- the source's own procedure

  /** `newSockaddr`. */
  method NewSockaddr(buf: Bytes) returns (r: Option<Sockaddr>)
    ensures r == Parse(buf)
  {
    if |buf| < SIZE_INET4 {
      return None;  // RawSockaddr cannot be read
    }
    var sa := Sockaddr(Le16(buf[..2]), [], Port(0), 0, 0);
    if sa.family == AF_INET {
      var rawPort := Le16(buf[2..4]);
      sa := sa.(ip := buf[4..8]);
      var p := PutBe16(rawPort);
      sa := sa.(port := Port(Le16(p)));
      ReadPort(buf[2..4]);
    } else if sa.family == AF_INET6 {
      if |buf| < SIZE_INET6 {
        return None;
      }
      var rawPort := Le16(buf[2..4]);
      sa := sa.(ip := buf[8..24]);
      var p := PutBe16(rawPort);
      sa := sa.(port := Port(Le16(p)));
      ReadPort(buf[2..4]);
      sa := sa.(flowinfo := Le32(buf[4..8]));
      sa := sa.(scopeID := Le32(buf[24..28]));
    } else {
      return None;
    }
    r := Some(sa);
  }

  /** `sockaddrToByte`. */
  method SockaddrToByte(sa: Sockaddr) returns (r: Option<Bytes>)
    ensures r == Print(sa)
  {
    var buf: Bytes;
    var rawPort := Be16([LowByte(sa.port.bits), HighByte(sa.port.bits)]);
    WritePort(sa.port.bits);
    if sa.family == AF_INET {
      var addr := Fit(To4(sa.ip), 4);
      buf := PutLe16(sa.family);
      buf := buf + PutLe16(rawPort);
      buf := buf + addr;
      buf := buf + ZERO8;
    } else if sa.family == AF_INET6 {
      var addr := Fit(To16(sa.ip), 16);
      buf := PutLe16(sa.family);
      buf := buf + PutLe16(rawPort);
      buf := buf + PutLe32(sa.flowinfo);
      buf := buf + addr;
      buf := buf + PutLe32(sa.scopeID);
    } else {
      return None;
    }
    r := Some(buf);
  }
}
