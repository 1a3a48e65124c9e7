/** The virtual socket of `seccomp/socket.go` as a value, and what each intercepted
    call and each accept goroutine does to it.

    A pointer to a hostSocket is modelled by its index in `hs`, the list of every
    host socket object made for the virtual socket. */
module Socket {
  import opened Net
  import opened Sockaddrs
  import opened Kernel
  import AC = AccessControl
  import D = Destination

  const QUEUE_CAPACITY := 0xffff
  const TRY_RDMA := 999

  const EACCES := 13
  const EINVAL := 22
  const EADDRINUSE := 98

  const F_SETFL := 4

  // --------------------------------------------------------------------- state

  datatype HostSocketState = HostSocketBinded | HostSocketListening | HostSocketAccepted | HostSocketError

  /** History: a kernel connection, by the host whose connect made it and its number
      among those. */
  datatype Link = Link(host: nat, index: nat)

  const NO_LINK := Link(0, 0)

  /** `cancelled` is whether Ctx is done. History: the kernel connection an accepted
      socket belongs to, and the step at which the policy admitted it. */
  datatype HostSocket = HostSocket(sockfd: int, entry: D.Entry, state: HostSocketState, cancelled: bool,
                                   conn: Link, checkedAt: nat)

  datatype SocketState = NotBypassable | NotBypassed | Binded | Listening | Bypassed | Error

  /** A new connection as accept(2) delivers it. */
  datatype Arrival = Arrival(fd: int, conn: Link, from: D.Address)

  /** Where an accept goroutine stands in its loop. */
  datatype Pc =
    | Poll
    | Accepting
    | Receiving(arrival: Arrival)
    | Checking(peer: HostSocket)
    | Storing(peer: HostSocket)
    | Sending(hid: nat)
    | Done

  /** History: one policy check, of the address a connection announced, and when. */
  datatype Verdict = Verdict(conn: Link, vip: Bytes, at: nat, allowed: bool)

  /** One accept goroutine. History: the verdicts it has reached, in order. */
  datatype Worker = Worker(listener: nat, pc: Pc, verdicts: seq<Verdict>)

  /** History: one send on the queue. */
  datatype Enqueue = Enqueue(wi: nat, hid: nat, conn: Link)

  datatype Sock = Sock(
    state: SocketState,
    pid: int, sockfd: int, sockDomain: int, sockType: int, sockProto: int,
    local: Sockaddr, remote: Sockaddr,
    socketOptions: seq<SockOpt>, fcntlOptions: seq<FcntlOpt>,
    hs: seq<HostSocket>,
    hostSockets: map<int, nat>,
    queue: seq<nat>,
    cancelled: bool,
    workers: seq<Worker>,
    enqueued: seq<Enqueue>, dequeued: seq<nat>)

  function NewSock(state: SocketState, pid: int, sockfd: int, sockDomain: int, sockType: int, sockProto: int): Sock {
    Sock(state, pid, sockfd, sockDomain, sockType, sockProto, ZERO_SOCKADDR, ZERO_SOCKADDR,
         [], [], [], map[], [], false, [], [], [])
  }

  // ------------------------------------------------------------------- replies

  /** The response to a notification: let the kernel continue with the call, or
      answer it in the kernel's place. */
  datatype Reply = Reply(cont: bool, error: int, val: int)

  const CONTINUE := Reply(true, 0, 0)

  function Emulated(val: int): Reply { Reply(false, 0, val) }

  function Fails(errno: int): Reply { Reply(false, errno, 0) }

  datatype Handled = Handled(s: Sock, reply: Reply, k: Kern)

  // ---------------------------------------------------------------- transports

  /** What the environment does to one attempt to bind or connect a host socket:
      the stale file could be removed, socket(2) gave this descriptor, this many
      options were accepted, bind(2) or connect(2) succeeded, and (RDMA) the
      rewritten address could be stored in the caller's memory. */
  datatype Try = Try(unlinked: bool, fd: Option<int>, optsOk: nat, callOk: bool, writeOk: bool)

  const HOPELESS := Try(false, None, 0, false, false)

  /** `TryRdma` is ErrTryRDMA, which carries the new address length. */
  datatype Dialed = Fd(fd: int) | TryRdma | NoFd

  function AllOpts(s: Sock): (r: seq<HostOpt>)
    ensures |r| == |s.socketOptions| + |s.fcntlOptions|
  {
    seq(|s.socketOptions|, i requires 0 <= i < |s.socketOptions| => Opt(s.socketOptions[i])) +
    seq(|s.fcntlOptions|, i requires 0 <= i < |s.fcntlOptions| => Fl(s.fcntlOptions[i]))
  }

  /** `configureSocket`: options until one is refused. */
  function Configure(s: Sock, fd: int, optsOk: nat, k: Kern): Kern {
    k.Set(fd, if optsOk < |AllOpts(s)| then AllOpts(s)[..optsOk] else AllOpts(s))
  }

  predicate Configured(s: Sock, o: Try) {
    o.optsOk >= |AllOpts(s)|
  }

  /** Create a host socket, configure it, call bind(2) or connect(2) on it. */
  function Prepared(s: Sock, addressOk: bool, o: Try): Dialed {
    if o.fd.Some? && Configured(s, o) && addressOk && o.callOk then Fd(o.fd.value) else NoFd
  }

  /** On failure the descriptor stays open and nobody holds it. */
  function Prepare(s: Sock, o: Try, k: Kern): Kern {
    if o.fd.None? then k else Configure(s, o.fd.value, o.optsOk, k.Open(o.fd.value, Loose))
  }

  function TransportConnect(s: Sock, e: D.Entry, o: Try): Dialed {
    match e.transport
    case UNIX => Prepared(s, e.address.AddrUNIX?, o)
    case RDMA => TryRdma
    case IPv6 => NoFd
    case IPv4 => Prepared(s, e.address.AddrIPv4?, o)
  }

  function AfterConnect(s: Sock, e: D.Entry, o: Try, k: Kern): Kern {
    if e.transport.UNIX? || e.transport.IPv4? then Prepare(s, o, k) else k
  }

  /** A UNIX address is checked and its stale file removed before socket(2). */
  function TransportBind(s: Sock, e: D.Entry, o: Try): Dialed {
    match e.transport
    case UNIX => if e.address.AddrUNIX? && o.unlinked then Prepared(s, true, o) else NoFd
    case RDMA => TryRdma
    case IPv6 => NoFd
    case IPv4 => Prepared(s, e.address.AddrIPv4?, o)
  }

  function AfterBind(s: Sock, e: D.Entry, o: Try, k: Kern): Kern {
    if (e.transport.UNIX? && e.address.AddrUNIX? && o.unlinked) || e.transport.IPv4? then Prepare(s, o, k) else k
  }

  // ---------------------------------------------------------------------- bind

  function TryAt(os: seq<Try>, i: nat): Try {
    if i < |os| then os[i] else HOPELESS
  }

  datatype Binding = Binding(s: Sock, k: Kern, ok: bool, rdma: bool)

  function AddHostSocket(s: Sock, h: HostSocket): Sock {
    s.(hs := s.hs + [h], hostSockets := s.hostSockets[h.sockfd := |s.hs|])
  }

  function BindOne(b: Binding, sid: nat, e: D.Entry, o: Try, featureRDMA: bool): Binding {
    var k := AfterBind(b.s, e, o, b.k);
    match TransportBind(b.s, e, o)
    case Fd(fd) =>
      Binding(AddHostSocket(b.s, HostSocket(fd, e, HostSocketBinded, false, NO_LINK, 0)), k.Give(fd, Host(sid)), true, b.rdma)
    case TryRdma =>
      if featureRDMA && o.writeOk then Binding(b.s, k, true, true) else b.(k := k)
    case NoFd => b.(k := k)
  }

  function BindEach(s: Sock, sid: nat, entries: seq<D.Entry>, os: seq<Try>, n: nat, featureRDMA: bool, k: Kern): Binding
    requires n <= |entries|
  {
    if n == 0 then Binding(s, k, false, false)
    else BindOne(BindEach(s, sid, entries, os, n - 1, featureRDMA, k), sid, entries[n - 1], TryAt(os, n - 1), featureRDMA)
  }

  /** `handleSysBind`; `buf` is the caller's address if it could be read. */
  function HandleBind(s: Sock, sid: nat, buf: Option<Bytes>, de: D.Dest, os: seq<Try>, featureRDMA: bool, k: Kern): Handled {
    if s.state != NotBypassed then Handled(s, Fails(EINVAL), k)
    else if buf.None? || Parse(buf.value).None? then Handled(s.(state := Error), Fails(EACCES), k)
    else
      var s1 := s.(local := Parse(buf.value).value);
      var entries := de.GetServer(s1.local.port);
      if entries == [] then Handled(s1, Emulated(0), k)
      else
        var b := BindEach(s1, sid, entries, os, |entries|, featureRDMA, k);
        if !b.ok then Handled(b.s.(state := Error), Fails(EACCES), b.k)
        else Handled(b.s.(state := Binded), Emulated(if b.rdma then TRY_RDMA + SIZE_INET4 else 0), b.k)
  }

  // -------------------------------------------------------------------- listen

  predicate InTable(s: Sock, hid: nat) {
    exists fd | fd in s.hostSockets :: s.hostSockets[fd] == hid
  }

  /** One iteration of the Range over the host sockets: listen and start a goroutine. */
  function ListenOne(s: Sock, hid: nat, listens: set<int>): Sock
    requires hid < |s.hs|
  {
    var h := s.hs[hid];
    if !InTable(s, hid) || h.state != HostSocketBinded then s
    else if h.entry.transport.RDMA? || h.sockfd !in listens then
      s.(hs := s.hs[hid := h.(state := HostSocketError)])
    else
      s.(hs := s.hs[hid := h.(state := HostSocketListening)], workers := s.workers + [Worker(hid, Poll, [])])
  }

  function ListenEach(s: Sock, n: nat, listens: set<int>): (r: Sock)
    requires n <= |s.hs|
    ensures |r.hs| == |s.hs|
  {
    if n == 0 then s else ListenOne(ListenEach(s, n - 1, listens), n - 1, listens)
  }

  /** `handleSysListen`; `listens` are the descriptors on which listen(2) succeeds. */
  function HandleListen(s: Sock, listens: set<int>, featureRDMA: bool, k: Kern): Handled {
    match s.state
    case NotBypassable => Handled(s, CONTINUE, k)
    case Listening => Handled(s, Fails(EADDRINUSE), k)
    case Binded =>
      var s1 := ListenEach(s, |s.hs|, listens);
      if !featureRDMA && |s1.workers| == |s.workers| then Handled(s1.(state := Error), Fails(EACCES), k)
      else Handled(s1.(state := Listening), Emulated(0), k)
    case _ => Handled(s.(state := NotBypassable), CONTINUE, k)
  }

  // ------------------------------------------------- setsockopt, fcntl, removal

  /** `handleSysSetsockopt`: the call is recorded and also continues in the kernel.
      On a bound socket it is repeated on the host, under the container's number. */
  function HandleSetsockopt(s: Sock, opt: Option<SockOpt>, callOk: bool, k: Kern): Handled {
    if opt.None? then Handled(s, CONTINUE, k)
    else
      var s1 := s.(socketOptions := s.socketOptions + [opt.value]);
      var again := (s.state.Binded? || s.state.Listening?) && callOk;
      Handled(s1, CONTINUE, if again then k.Set(s.sockfd, [Opt(opt.value)]) else k)
  }

  /** `handleSysFcntl`. On a bound socket any other command repeats fcntl with
      command 0, which duplicates the host descriptor of the container's number. */
  function HandleFcntl(s: Sock, cmd: nat, value: nat, callOk: bool, dup: Option<int>, k: Kern): Handled {
    var opt := FcntlOpt(cmd, value);
    var s1 := if cmd == F_SETFL then s.(fcntlOptions := s.fcntlOptions + [opt]) else s;
    var k1 :=
      if !(s.state.Binded? || s.state.Listening?) then k
      else if cmd == F_SETFL then if callOk then k.Set(s.sockfd, [Fl(opt)]) else k
      else if dup.Some? then k.Open(dup.value, Loose)
      else k;
    Handled(s1, CONTINUE, k1)
  }

  function CloseEach(s: Sock, sid: nat, n: nat, k: Kern): Kern
    requires n <= |s.hs|
  {
    if n == 0 then k
    else
      var k1 := CloseEach(s, sid, n - 1, k);
      if InTable(s, n - 1) then k1.Close(s.hs[n - 1].sockfd, Host(sid)) else k1
  }

  /** `socketStatus.removeSocket`: cancel, shut down and close every host socket. */
  function Removed(s: Sock): Sock {
    var hs := seq(|s.hs|, i requires 0 <= i < |s.hs| =>
                if InTable(s, i) then s.hs[i].(cancelled := true) else s.hs[i]);
    s.(hs := hs, cancelled := true)
  }

  // ---------------------------------------------------------- accept goroutines

  datatype WorkOracle = WorkOracle(arrival: Option<Arrival>, msg: Option<Bytes>)

  /** The loop ends on any error: the listener is in error and cancelled. */
  function WorkerFails(s: Sock, wi: nat): Sock
    requires wi < |s.workers| && s.workers[wi].listener < |s.hs|
  {
    var l := s.workers[wi].listener;
    s.(hs := s.hs[l := s.hs[l].(state := HostSocketError, cancelled := true)],
       workers := s.workers[wi := s.workers[wi].(pc := Done)])
  }

  function SetPc(s: Sock, wi: nat, pc: Pc): Sock
    requires wi < |s.workers|
  {
    s.(workers := s.workers[wi := s.workers[wi].(pc := pc)])
  }

  /** `recvDstVAddr`: a full message, and an address in it. */
  function Received(msg: Option<Bytes>): Option<Sockaddr> {
    if msg.None? || |msg.value| != SIZE_INET4 then None else Parse(msg.value)
  }

  /** The rest of `transportAcceptUNIX` once a connection has arrived: the source address
      is cast, the announced name received, and the host socket made. */
  function PeerUNIX(a: Arrival, msg: Option<Bytes>): Option<HostSocket> {
    if !a.from.AddrUNIX? || Received(msg).None? then None
    else
      var vsa := Received(msg).value;
      var entry := D.RawEntry(vsa.ip, vsa.port, D.UNIX, D.AddrUNIX(a.from.path));
      Some(HostSocket(a.fd, entry, HostSocketAccepted, false, a.conn, 0))
  }

  /** Likewise `transportAcceptIPv4`. */
  function PeerIPv4(a: Arrival, msg: Option<Bytes>): Option<HostSocket> {
    if !a.from.AddrIPv4? || Received(msg).None? then None
    else
      var vsa := Received(msg).value;
      var entry := D.RawEntry(vsa.ip, vsa.port, D.IPv4, D.AddrIPv4(a.from.ip, a.from.port));
      Some(HostSocket(a.fd, entry, HostSocketAccepted, false, a.conn, 0))
  }

  function Peer(transport: D.Transport, a: Arrival, msg: Option<Bytes>): Option<HostSocket> {
    match transport
    case UNIX => PeerUNIX(a, msg)
    case IPv4 => PeerIPv4(a, msg)
    case _ => None
  }

  /** The whole of `transportAcceptUNIX`, and of `transportAcceptIPv4`. */
  function AcceptUNIX(a: Option<Arrival>, msg: Option<Bytes>): Option<HostSocket> {
    if a.None? then None else PeerUNIX(a.value, msg)
  }

  function AcceptIPv4(a: Option<Arrival>, msg: Option<Bytes>): Option<HostSocket> {
    if a.None? then None else PeerIPv4(a.value, msg)
  }

  /** Does the source address have the type its accept procedure expects? */
  predicate FromOk(transport: D.Transport, from: D.Address) {
    (transport.UNIX? && from.AddrUNIX?) || (transport.IPv4? && from.AddrIPv4?)
  }

  /** One atomic step of `transportAccept`. */
  function WorkStep(s: Sock, sid: nat, wi: nat, o: WorkOracle, sae: AC.Acl, now: nat, k: Kern): (Sock, Kern)
    requires wi < |s.workers| && s.workers[wi].listener < |s.hs|
  {
    var me := s.workers[wi];
    var listener := s.hs[me.listener];
    match me.pc
    case Poll =>
      (SetPc(s, wi, if listener.cancelled then Done else Accepting), k)
    case Accepting =>
      var t := listener.entry.transport;
      if !(t.UNIX? || t.IPv4?) || o.arrival.None? then (WorkerFails(s, wi), k)
      else if !FromOk(t, o.arrival.value.from) then (WorkerFails(s, wi), k.Open(o.arrival.value.fd, Loose))
      else (SetPc(s, wi, Receiving(o.arrival.value)), k.Open(o.arrival.value.fd, Work(sid, wi)))
    case Receiving(a) =>
      var peer := Peer(listener.entry.transport, a, o.msg);
      if peer.None? then (WorkerFails(s, wi), k.Give(a.fd, Loose))
      else (SetPc(s, wi, Checking(peer.value)), k)
    case Checking(h) =>
      var ok := sae.Apply(h.entry.vip);
      var me' := me.(verdicts := me.verdicts + [Verdict(h.conn, h.entry.vip, now, ok)],
                     pc := if ok then Storing(h.(checkedAt := now)) else Poll);
      (s.(workers := s.workers[wi := me']), if ok then k else k.Close(h.sockfd, Work(sid, wi)))
    case Storing(h) =>
      (SetPc(AddHostSocket(s, h), wi, Sending(|s.hs|)), k.Give(h.sockfd, if s.cancelled then Loose else Host(sid)))
    case Sending(hid) =>
      if |s.queue| >= QUEUE_CAPACITY then (s, k)
      else
        var conn := if hid < |s.hs| then s.hs[hid].conn else NO_LINK;
        (SetPc(s.(queue := s.queue + [hid], enqueued := s.enqueued + [Enqueue(wi, hid, conn)]), wi, Poll), k)
    case Done => (s, k)
  }
}
