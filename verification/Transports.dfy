/** The stepwise procedures of `seccomp/transport.go`, `transport_ipv4.go` and
    `transport_unix.go`, each against its specification in `Socket`. */
module Transports {
  import opened Net
  import opened Sockaddrs
  import opened Kernel
  import opened Socket
  import D = Destination

  /** The environment made a new descriptor `fd`, accepted every option recorded so far on
      it, and let bind(2) or connect(2) succeed on it. */
  predicate Obtains(s: Sock, o: Try, fd: int) {
    o.fd == Some(fd) && o.optsOk >= |s.socketOptions| + |s.fcntlOptions| && o.callOk
  }

  /** What it takes to connect a host socket to an entry. */
  predicate CanConnect(s: Sock, e: D.Entry, o: Try, fd: int) {
    && Obtains(s, o, fd)
    && ((e.transport.UNIX? && e.address.AddrUNIX?) || (e.transport.IPv4? && e.address.AddrIPv4?))
  }

  /** ... and to bind one; a stale file of the path must be gone. */
  predicate CanBind(s: Sock, e: D.Entry, o: Try, fd: int) {
    && Obtains(s, o, fd)
    && ((e.transport.UNIX? && e.address.AddrUNIX? && o.unlinked) || (e.transport.IPv4? && e.address.AddrIPv4?))
  }

  lemma ConnectsExactly(s: Sock, e: D.Entry, o: Try)
    ensures forall fd :: TransportConnect(s, e, o) == Fd(fd) <==> CanConnect(s, e, o, fd)
    ensures TransportConnect(s, e, o) == TryRdma <==> e.transport.RDMA?
  {
  }

  lemma BindsExactly(s: Sock, e: D.Entry, o: Try)
    ensures forall fd :: TransportBind(s, e, o) == Fd(fd) <==> CanBind(s, e, o, fd)
    ensures TransportBind(s, e, o) == TryRdma <==> e.transport.RDMA?
  {
  }

  lemma SetMore(k: Kern, fd: int, os: seq<HostOpt>, more: HostOpt)
    requires fd in k.open
    ensures k.Set(fd, os).Set(fd, [more]) == k.Set(fd, os + [more])
  {
    assert k.OptsOf(fd) + (os + [more]) == (k.OptsOf(fd) + os) + [more];
  }

  /** `configureSocket`: repeat every recorded option on a new host socket, until one
      is refused. */
  method ConfigureSocket(s: Sock, fd: int, optsOk: nat, k: Kern) returns (ok: bool, k': Kern)
    requires fd in k.open && fd in k.opts
    ensures ok <==> optsOk >= |AllOpts(s)|
    ensures k' == Configure(s, fd, optsOk, k)
  {
    ghost var all := AllOpts(s);
    k' := k;
    assert k == k.Set(fd, []) by { assert k.OptsOf(fd) + [] == k.OptsOf(fd); }
    for i := 0 to |s.socketOptions|
      invariant i <= optsOk && k' == k.Set(fd, all[..i])
    {
      if i >= optsOk {
        return false, k';
      }
      SetMore(k, fd, all[..i], all[i]);
      assert all[..i + 1] == all[..i] + [all[i]];
      k' := k'.Set(fd, [Opt(s.socketOptions[i])]);
    }
    for j := 0 to |s.fcntlOptions|
      invariant |s.socketOptions| + j <= optsOk && k' == k.Set(fd, all[..|s.socketOptions| + j])
    {
      if |s.socketOptions| + j >= optsOk {
        return false, k';
      }
      SetMore(k, fd, all[..|s.socketOptions| + j], all[|s.socketOptions| + j]);
      assert all[..|s.socketOptions| + j + 1] == all[..|s.socketOptions| + j] + [all[|s.socketOptions| + j]];
      k' := k'.Set(fd, [Fl(s.fcntlOptions[j])]);
    }
    assert all[..|all|] == all;
    ok := true;
  }

  /** `transportConnectUNIX`. */
  method ConnectUNIX(s: Sock, e: D.Entry, o: Try, k: Kern) returns (d: Dialed, k': Kern)
    requires e.transport.UNIX?
    ensures d == TransportConnect(s, e, o) && k' == AfterConnect(s, e, o, k)
    ensures forall fd :: d == Fd(fd) <==> CanConnect(s, e, o, fd)
  {
    if o.fd.None? {
      return NoFd, k;
    }
    k' := k.Open(o.fd.value, Loose);
    var ok;
    ok, k' := ConfigureSocket(s, o.fd.value, o.optsOk, k');
    if !ok || !e.address.AddrUNIX? || !o.callOk {
      return NoFd, k';
    }
    d := Fd(o.fd.value);
  }

  /** `transportConnectIPv4`. */
  method ConnectIPv4(s: Sock, e: D.Entry, o: Try, k: Kern) returns (d: Dialed, k': Kern)
    requires e.transport.IPv4?
    ensures d == TransportConnect(s, e, o) && k' == AfterConnect(s, e, o, k)
    ensures forall fd :: d == Fd(fd) <==> CanConnect(s, e, o, fd)
  {
    if o.fd.None? {
      return NoFd, k;
    }
    k' := k.Open(o.fd.value, Loose);
    var ok;
    ok, k' := ConfigureSocket(s, o.fd.value, o.optsOk, k');
    if !ok || !e.address.AddrIPv4? || !o.callOk {
      return NoFd, k';
    }
    d := Fd(o.fd.value);
  }

  /** `transportConnect`. */
  method Connect(s: Sock, e: D.Entry, o: Try, k: Kern) returns (d: Dialed, k': Kern)
    ensures d == TransportConnect(s, e, o) && k' == AfterConnect(s, e, o, k)
    ensures forall fd :: d == Fd(fd) <==> CanConnect(s, e, o, fd)
  {
    match e.transport
    case UNIX => d, k' := ConnectUNIX(s, e, o, k);
    case RDMA => d, k' := TryRdma, k;
    case IPv6 => d, k' := NoFd, k;
    case IPv4 => d, k' := ConnectIPv4(s, e, o, k);
  }

  /** `transportBindUNIX`: the address is looked at, and its stale file removed, before
      the socket is created. */
  method BindUNIX(s: Sock, e: D.Entry, o: Try, k: Kern) returns (d: Dialed, k': Kern)
    requires e.transport.UNIX?
    ensures d == TransportBind(s, e, o) && k' == AfterBind(s, e, o, k)
    ensures forall fd :: d == Fd(fd) <==> CanBind(s, e, o, fd)
  {
    if !e.address.AddrUNIX? || !o.unlinked || o.fd.None? {
      return NoFd, k;
    }
    k' := k.Open(o.fd.value, Loose);
    var ok;
    ok, k' := ConfigureSocket(s, o.fd.value, o.optsOk, k');
    if !ok || !o.callOk {
      return NoFd, k';
    }
    d := Fd(o.fd.value);
  }

  /** `transportBindIPv4`. */
  method BindIPv4(s: Sock, e: D.Entry, o: Try, k: Kern) returns (d: Dialed, k': Kern)
    requires e.transport.IPv4?
    ensures d == TransportBind(s, e, o) && k' == AfterBind(s, e, o, k)
    ensures forall fd :: d == Fd(fd) <==> CanBind(s, e, o, fd)
  {
    if o.fd.None? {
      return NoFd, k;
    }
    k' := k.Open(o.fd.value, Loose);
    var ok;
    ok, k' := ConfigureSocket(s, o.fd.value, o.optsOk, k');
    if !ok || !e.address.AddrIPv4? || !o.callOk {
      return NoFd, k';
    }
    d := Fd(o.fd.value);
  }

  /** `transportBind`. */
  method Bind(s: Sock, e: D.Entry, o: Try, k: Kern) returns (d: Dialed, k': Kern)
    ensures d == TransportBind(s, e, o) && k' == AfterBind(s, e, o, k)
    ensures forall fd :: d == Fd(fd) <==> CanBind(s, e, o, fd)
  {
    match e.transport
    case UNIX => d, k' := BindUNIX(s, e, o, k);
    case RDMA => d, k' := TryRdma, k;
    case IPv6 => d, k' := NoFd, k;
    case IPv4 => d, k' := BindIPv4(s, e, o, k);
  }

  /** A message that announces an address: 16 bytes that begin with AF_INET. */
  predicate Announces(msg: Option<Bytes>) {
    msg.Some? && |msg.value| == 16 && Le16(msg.value[..2]) == AF_INET
  }

  /** The host socket of a peer on `a`, as the bytes of its message name it. */
  function Named(a: Arrival, t: D.Transport, msg: Bytes): HostSocket
    requires |msg| == 16 && !t.RDMA?
  {
    var entry := D.RawEntry(msg[4..8], Port(Be16(msg[2..4])), t, a.from);
    HostSocket(a.fd, entry, HostSocketAccepted, false, a.conn, 0)
  }

  /** `recvDstVAddr`. */
  method RecvDstVAddr(msg: Option<Bytes>) returns (vsa: Option<Sockaddr>)
    ensures vsa.Some? <==> Announces(msg)
    ensures vsa.Some? ==> vsa.value.ip == msg.value[4..8] && vsa.value.port.bits == Be16(msg.value[2..4])
  {
    if msg.None? || |msg.value| != SIZE_INET4 {
      return None;
    }
    vsa := NewSockaddr(msg.value);
  }

  /** `transportAcceptUNIX` after accept(2): the cast, the handshake, the host socket. */
  method ReceiveUNIX(a: Arrival, msg: Option<Bytes>) returns (r: Option<HostSocket>)
    ensures r.Some? <==> a.from.AddrUNIX? && Announces(msg)
    ensures r.Some? ==> r.value == Named(a, D.UNIX, msg.value)
  {
    if !a.from.AddrUNIX? {
      return None;
    }
    var vsa := RecvDstVAddr(msg);
    if vsa.None? {
      return None;
    }
    var entry := D.RawEntry(vsa.value.ip, vsa.value.port, D.UNIX, D.AddrUNIX(a.from.path));
    r := Some(HostSocket(a.fd, entry, HostSocketAccepted, false, a.conn, 0));
  }

  /** Likewise of `transportAcceptIPv4`. */
  method ReceiveIPv4(a: Arrival, msg: Option<Bytes>) returns (r: Option<HostSocket>)
    ensures r.Some? <==> a.from.AddrIPv4? && Announces(msg)
    ensures r.Some? ==> r.value == Named(a, D.IPv4, msg.value)
  {
    if !a.from.AddrIPv4? {
      return None;
    }
    var vsa := RecvDstVAddr(msg);
    if vsa.None? {
      return None;
    }
    var entry := D.RawEntry(vsa.value.ip, vsa.value.port, D.IPv4, D.AddrIPv4(a.from.ip, a.from.port));
    r := Some(HostSocket(a.fd, entry, HostSocketAccepted, false, a.conn, 0));
  }

  /** `transportAcceptUNIX`. A descriptor that was accepted stays open on an error, held
      by nobody. */
  method AcceptUNIX(a: Option<Arrival>, msg: Option<Bytes>, holder: Owner, k: Kern) returns (r: Option<HostSocket>, k': Kern)
    ensures r == Socket.AcceptUNIX(a, msg)
    ensures k' == if a.None? then k else k.Open(a.value.fd, if r.Some? then holder else Loose)
  {
    if a.None? {
      return None, k;
    }
    PeerBytes(a.value, msg);
    k' := k.Open(a.value.fd, holder);
    r := ReceiveUNIX(a.value, msg);
    if r.None? {
      k' := k'.Give(a.value.fd, Loose);
      GivenAtOnce(k, a.value.fd, holder, Loose);
    }
  }

  /** `transportAcceptIPv4`. */
  method AcceptIPv4(a: Option<Arrival>, msg: Option<Bytes>, holder: Owner, k: Kern) returns (r: Option<HostSocket>, k': Kern)
    ensures r == Socket.AcceptIPv4(a, msg)
    ensures k' == if a.None? then k else k.Open(a.value.fd, if r.Some? then holder else Loose)
  {
    if a.None? {
      return None, k;
    }
    PeerBytes(a.value, msg);
    k' := k.Open(a.value.fd, holder);
    r := ReceiveIPv4(a.value, msg);
    if r.None? {
      k' := k'.Give(a.value.fd, Loose);
      GivenAtOnce(k, a.value.fd, holder, Loose);
    }
  }

  lemma GivenAtOnce(k: Kern, fd: int, first: Owner, second: Owner)
    ensures k.Open(fd, first).Give(fd, second) == k.Open(fd, second)
  {
    assert k.open[fd := first][fd := second] == k.open[fd := second];
  }

  /** What the two procedures make of a message, by its bytes: the same name, each with
      its own transport and source address. */
  lemma PeerBytes(a: Arrival, msg: Option<Bytes>)
    ensures PeerUNIX(a, msg) == if a.from.AddrUNIX? && Announces(msg) then Some(Named(a, D.UNIX, msg.value)) else None
    ensures PeerIPv4(a, msg) == if a.from.AddrIPv4? && Announces(msg) then Some(Named(a, D.IPv4, msg.value)) else None
  {
  }
}
