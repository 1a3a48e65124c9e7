/** `vip.IP2Int`: the key under which both tables file an address. */
module Vip {
  import opened Net

  datatype U64 = U64(bits: bv64)
  type Key = (U64, U64)

  function Pack4(b: Bytes): bv64
    requires |b| == 4
  {
    ((b[0] as bv64) << 24) | ((b[1] as bv64) << 16) | ((b[2] as bv64) << 8) | (b[3] as bv64)
  }

  function Pack8(b: Bytes): bv64
    requires |b| == 8
  {
    ((b[0] as bv64) << 56) | ((b[1] as bv64) << 48) | ((b[2] as bv64) << 40) | ((b[3] as bv64) << 32) |
    ((b[4] as bv64) << 24) | ((b[5] as bv64) << 16) | ((b[6] as bv64) << 8) | (b[7] as bv64)
  }

  /** The source indexes bytes 0..3 of any slice that is not 16 long, so it
      demands an address of length 4 or 16 (or at least 4) of its callers. */
  function IP2Int(ip: Bytes): (key: Key)
    requires IsAddress(ip)
  {
    if |ip| == 16 then
      var upper := Pack8(ip[..8]);
      if upper == 0 && ip[10] == 0xff && ip[11] == 0xff then
        (U64(upper), U64(Pack4(ip[12..])))
      else
        (U64(upper), U64(Pack8(ip[8..])))
    else
      (U64(0), U64(Pack4(ip)))
  }

  /** Addresses whose key fits in 32 bits: IPv4, and the 16-byte addresses with a
      zero upper half that either carry ff:ff at bytes 10-11 (bytes 8-9 are not
      looked at) or have bytes 8-11 zero. */
  predicate Low(ip: Bytes)
    requires IsAddress(ip)
  {
    |ip| == 4 ||
    (ip[..8] == ZERO8 && ((ip[10] == 0xff && ip[11] == 0xff) || ip[8..12] == ZERO4))
  }

  function Last4(ip: Bytes): Bytes
    requires IsAddress(ip)
  {
    ip[|ip| - 4..]
  }

  lemma Pack4Injective(a: Bytes, b: Bytes)
    requires |a| == |b| == 4
    ensures Pack4(a) == Pack4(b) <==> a == b
  {
    var x, y := Pack4(a), Pack4(b);
    Pack4Bytes(a[0], a[1], a[2], a[3]);
    Pack4Bytes(b[0], b[1], b[2], b[3]);
    if x == y {
      assert forall i | 0 <= i < 4 :: a[i] == b[i];
    }
  }

  /** Every byte can be read back out of the packed word. */
  lemma Pack4Bytes(b0: Byte, b1: Byte, b2: Byte, b3: Byte)
    ensures var x := ((b0 as bv64) << 24) | ((b1 as bv64) << 16) | ((b2 as bv64) << 8) | (b3 as bv64);
            (x >> 24) & 0xff == b0 as bv64 && (x >> 16) & 0xff == b1 as bv64 &&
            (x >> 8) & 0xff == b2 as bv64 && x & 0xff == b3 as bv64
  {
  }

  lemma Pack8Bytes(b0: Byte, b1: Byte, b2: Byte, b3: Byte, b4: Byte, b5: Byte, b6: Byte, b7: Byte)
    ensures var x := ((b0 as bv64) << 56) | ((b1 as bv64) << 48) | ((b2 as bv64) << 40) | ((b3 as bv64) << 32) |
                     ((b4 as bv64) << 24) | ((b5 as bv64) << 16) | ((b6 as bv64) << 8) | (b7 as bv64);
            (x >> 56) & 0xff == b0 as bv64 && (x >> 48) & 0xff == b1 as bv64 &&
            (x >> 40) & 0xff == b2 as bv64 && (x >> 32) & 0xff == b3 as bv64 &&
            (x >> 24) & 0xff == b4 as bv64 && (x >> 16) & 0xff == b5 as bv64 &&
            (x >> 8) & 0xff == b6 as bv64 && x & 0xff == b7 as bv64
  {
  }

  lemma Pack8Injective(a: Bytes, b: Bytes)
    requires |a| == |b| == 8
    ensures Pack8(a) == Pack8(b) <==> a == b
  {
    Pack8Bytes(a[0], a[1], a[2], a[3], a[4], a[5], a[6], a[7]);
    Pack8Bytes(b[0], b[1], b[2], b[3], b[4], b[5], b[6], b[7]);
    if Pack8(a) == Pack8(b) {
      assert forall i | 0 <= i < 8 :: a[i] == b[i];
    }
  }

  /** A packed 8-byte word fits in 32 bits exactly when its first half is zero. */
  lemma Pack8Halves(b: Bytes)
    requires |b| == 8
    ensures b[..4] == ZERO4 ==> Pack8(b) == Pack4(b[4..])
    ensures (Pack8(b) >> 32) == 0 ==> b[..4] == ZERO4
  {
    Pack8Bytes(b[0], b[1], b[2], b[3], b[4], b[5], b[6], b[7]);
    if (Pack8(b) >> 32) == 0 {
      Pack8High(Pack8(b));
      assert b[0] == 0 && b[1] == 0 && b[2] == 0 && b[3] == 0;
      assert b[..4] == ZERO4;
    }
    if b[..4] == ZERO4 {
      assert b[0] == b[..4][0] && b[1] == b[..4][1] && b[2] == b[..4][2] && b[3] == b[..4][3];
      assert b[4..][0] == b[4] && b[4..][1] == b[5] && b[4..][2] == b[6] && b[4..][3] == b[7];
    }
  }

  lemma Pack8High(x: bv64)
    requires (x >> 32) == 0
    ensures (x >> 56) & 0xff == 0 && (x >> 48) & 0xff == 0 && (x >> 40) & 0xff == 0 && (x >> 32) & 0xff == 0
  {
  }

  lemma Pack4High(b: Bytes)
    requires |b| == 4
    ensures (Pack4(b) >> 32) == 0
  {
  }

  /** What the key of an address is, by class. */
  lemma KeyOf(ip: Bytes)
    requires IsAddress(ip)
    ensures Low(ip) ==> IP2Int(ip) == (U64(0), U64(Pack4(Last4(ip))))
    ensures !Low(ip) ==> |ip| == 16 && IP2Int(ip) == (U64(Pack8(ip[..8])), U64(Pack8(ip[8..]))) &&
                         (IP2Int(ip).0.bits != 0 || (IP2Int(ip).1.bits >> 32) != 0)
  {
    if |ip| == 16 {
      Pack8Injective(ip[..8], ZERO8);
      Pack8Halves(ip[8..]);
      assert ip[8..][..4] == ip[8..12] && ip[8..][4..] == ip[12..];
    }
  }

  /** Exactly which addresses share a key: the equal ones, and those of the
      low 32-bit class that end in the same four bytes. */
  lemma KeyKernel(a: Bytes, b: Bytes)
    requires IsAddress(a) && IsAddress(b)
    ensures IP2Int(a) == IP2Int(b) <==> Equal(a, b) || (Low(a) && Low(b) && Last4(a) == Last4(b))
  {
    KeyOf(a);
    KeyOf(b);
    if Low(a) && Low(b) {
      Pack4Injective(Last4(a), Last4(b));
      EqualLow(a, b);
    } else if !Low(a) && !Low(b) {
      Pack8Injective(a[..8], b[..8]);
      Pack8Injective(a[8..], b[8..]);
      assert a == a[..8] + a[8..] && b == b[..8] + b[8..];
    } else {
      Pack4High(Last4(if Low(a) then a else b));
      EqualLow(a, b);
    }
  }

  lemma EqualLow(a: Bytes, b: Bytes)
    requires IsAddress(a) && IsAddress(b)
    ensures Equal(a, b) ==> (Low(a) <==> Low(b)) && Last4(a) == Last4(b)
  {
    if |a| != |b| && Equal(a, b) {
      var m := if |a| == 16 then a else b;
      assert m[..8] == m[..12][..8] == ZERO8;
      assert m[10] == m[..12][10] && m[11] == m[..12][11];
    }
  }

  /** Where keys are as fine as `IP.Equal`: IPv4, IPv4-mapped, and addresses
      whose upper 64 bits are not all zero. */
  predicate Canonical(ip: Bytes) {
    |ip| == 4 || IsMapped(ip) || (|ip| == 16 && ip[..8] != ZERO8)
  }

  lemma KeyIsEqual(a: Bytes, b: Bytes)
    requires IsAddress(a) && IsAddress(b)
    requires Canonical(a) && Canonical(b)
    ensures IP2Int(a) == IP2Int(b) <==> Equal(a, b)
  {
    KeyKernel(a, b);
    if Low(a) && Low(b) && Last4(a) == Last4(b) && |a| == |b| == 16 {
      assert a == a[..12] + a[12..] && b == b[..12] + b[12..];
    }
  }

  /** The table cannot tell apart the two spellings of one address. */
  lemma KeyOfSpellings(ip: Bytes)
    requires IsAddress(ip)
    ensures IP2Int(To16(ip)) == IP2Int(ip)
    ensures To4(ip) != [] ==> IP2Int(To4(ip)) == IP2Int(ip)
  {
    KeyKernel(ip, To16(ip));
    if |ip| == 4 {
      assert To16(ip)[..12] == MAPPED_PREFIX && To16(ip)[12..] == ip;
    }
    if To4(ip) != [] {
      KeyKernel(ip, To4(ip));
    }
  }

  /** Outside that domain a key can be shared by different addresses: ::1 and
      0.0.0.1, and an IPv4 address with 16-byte addresses whose bytes 8-9 are not
      zero. */
  lemma KeyCollisions()
    ensures var loopback6 := ZERO8 + ZERO4 + [0, 0, 0, 1];
            IP2Int(loopback6) == IP2Int([0, 0, 0, 1]) && !Equal(loopback6, [0, 0, 0, 1])
    ensures var skewed := ZERO8 + [0x12, 0x34, 0xff, 0xff, 10, 0, 0, 1];
            IP2Int(skewed) == IP2Int([10, 0, 0, 1]) && !Equal(skewed, [10, 0, 0, 1])
  {
    var loopback6 := ZERO8 + ZERO4 + [0, 0, 0, 1];
    KeyKernel(loopback6, [0, 0, 0, 1]);
    assert loopback6[..8] == ZERO8 && loopback6[8..12] == ZERO4 && loopback6[12..] == [0, 0, 0, 1];
    assert loopback6[..12][10] == 0;
    var skewed := ZERO8 + [0x12, 0x34, 0xff, 0xff, 10, 0, 0, 1];
    KeyKernel(skewed, [10, 0, 0, 1]);
    assert skewed[..8] == ZERO8 && skewed[12..] == [10, 0, 0, 1];
    assert skewed[..12][8] == 0x12;
  }
}
