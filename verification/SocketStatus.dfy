/** `socketStatus` of `seccomp/socket.go` as the object it is: the handlers of the
    intercepted calls and the steps of its accept goroutines, each against its
    specification in `Socket` and `Connect`. */
module SocketStatuses {
  import opened Net
  import opened Sockaddrs
  import opened Kernel
  import opened Socket
  import opened Connect
  import AC = AccessControl
  import D = Destination
  import Transports

  /** `objs` holds every hostSocket made for this socket; pointers to them, in the map
      and in the channel, are indices. */
  class SocketStatus {
    var state: SocketState
    const pid: int
    const sockfd: int
    const sockDomain: int
    const sockType: int
    const sockProto: int
    var localVAddr: Sockaddr
    var remoteVAddr: Sockaddr
    var socketOptions: seq<SockOpt>
    var fcntlOptions: seq<FcntlOpt>
    var objs: seq<HostSocket>
    var hostSockets: map<int, nat>
    var acceptedSockets: seq<nat>
    var cancelled: bool
    var workers: seq<Worker>
    var enqueued: seq<Enqueue>
    var dequeued: seq<nat>

    function Abs(): Sock
      reads this
    {
      Sock(state, pid, sockfd, sockDomain, sockType, sockProto, localVAddr, remoteVAddr, socketOptions, fcntlOptions,
           objs, hostSockets, acceptedSockets, cancelled, workers, enqueued, dequeued)
    }

    constructor (pid: int, sockfd: int, sockDomain: int, sockType: int, sockProto: int)
      ensures Abs() == NewSock(NotBypassed, pid, sockfd, sockDomain, sockType, sockProto)
    {
      this.state := NotBypassed;
      this.pid, this.sockfd := pid, sockfd;
      this.sockDomain, this.sockType, this.sockProto := sockDomain, sockType, sockProto;
      localVAddr, remoteVAddr := ZERO_SOCKADDR, ZERO_SOCKADDR;
      socketOptions, fcntlOptions := [], [];
      objs, hostSockets, acceptedSockets := [], map[], [];
      cancelled := false;
      workers, enqueued, dequeued := [], [], [];
    }

    /** A new hostSocket, filed under its descriptor. */
    method Store(h: HostSocket)
      modifies this`objs, this`hostSockets
      ensures Abs() == AddHostSocket(old(Abs()), h)
    {
      hostSockets := hostSockets[h.sockfd := |objs|];
      objs := objs + [h];
    }

    /** `handleSysBind`. */
    method HandleSysBind(sid: nat, buf: Option<Bytes>, de: D.Entries, tries: seq<Try>, featureRDMA: bool, k: Kern)
      returns (reply: Reply, k': Kern)
      requires de.Valid()
      modifies this
      ensures Handled(Abs(), reply, k') == HandleBind(old(Abs()), sid, buf, de.Table, tries, featureRDMA, k)
    {
      k' := k;
      if state != NotBypassed {
        return Fails(EINVAL), k';
      }
      var dstAddr := None;
      if buf.Some? {
        dstAddr := NewSockaddr(buf.value);
      }
      if dstAddr.None? {
        state := Error;
        return Fails(EACCES), k';
      }
      localVAddr := dstAddr.value;
      var dEntries := de.GetServer(localVAddr.port);
      if dEntries == [] {
        return Emulated(0), k';
      }
      var ok, rdma := false, false;
      var val := 0;
      ghost var s1 := Abs();
      for i := 0 to |dEntries|
        invariant Binding(Abs(), k', ok, rdma) == BindEach(s1, sid, dEntries, tries, i, featureRDMA, k)
        invariant val == if rdma then TRY_RDMA + SIZE_INET4 else 0
      {
        var o := TryAt(tries, i);
        var dialed;
        dialed, k' := Transports.Bind(Abs(), dEntries[i], o, k');
        match dialed
        case Fd(fd) =>
          ok := true;
          k' := k'.Give(fd, Host(sid));
          Store(HostSocket(fd, dEntries[i], HostSocketBinded, false, NO_LINK, 0));
        case TryRdma =>
          if featureRDMA && o.writeOk {
            ok, rdma := true, true;
            val := TRY_RDMA + SIZE_INET4;
          }
        case NoFd =>
      }
      if !ok {
        state := Error;
        return Fails(EACCES), k';
      }
      state := Binded;
      reply := Emulated(val);
    }

    /** `transportListen` on one host socket, and the goroutine it gets. */
    method Listen1(hid: nat, listens: set<int>) returns (ok: bool)
      requires hid < |objs|
      modifies this`objs, this`workers
      ensures Abs() == ListenOne(old(Abs()), hid, listens)
      ensures |workers| == |old(workers)| + if ok then 1 else 0
    {
      ok := false;
      var h := objs[hid];
      if InTable(Abs(), hid) && h.state == HostSocketBinded {
        if !h.entry.transport.RDMA? && h.sockfd in listens {
          objs := objs[hid := h.(state := HostSocketListening)];
          workers := workers + [Worker(hid, Poll, [])];
          ok := true;
        } else {
          objs := objs[hid := h.(state := HostSocketError)];
        }
      }
    }

    /** `handleSysListen`. */
    method HandleSysListen(listens: set<int>, featureRDMA: bool, ghost k: Kern) returns (reply: Reply)
      modifies this
      ensures Handled(Abs(), reply, k) == HandleListen(old(Abs()), listens, featureRDMA, k)
      ensures old(state) == Listening ==> reply == Reply(false, 98, 0) && Abs() == old(Abs())
      ensures old(state) == NotBypassable ==> reply == Reply(true, 0, 0) && Abs() == old(Abs())
      ensures old(state) == NotBypassed || old(state) == Bypassed || old(state) == Error ==>
                reply == Reply(true, 0, 0) && Abs() == old(Abs()).(state := NotBypassable)
      ensures old(state) == Binded ==>
                || (state == Listening && reply == Reply(false, 0, 0))
                || (state == Error && reply == Reply(false, 13, 0) && !featureRDMA && |workers| == |old(workers)|)
    {
      if state == NotBypassable {
        return CONTINUE;
      }
      if state == Listening {
        return Fails(EADDRINUSE);
      }
      if state != Binded {
        state := NotBypassable;
        return CONTINUE;
      }
      var ok := false;
      var n := |objs|;
      for i := 0 to n
        invariant |objs| == n && Abs() == ListenEach(old(Abs()), i, listens)
        invariant |workers| >= |old(workers)| && (ok <==> |workers| > |old(workers)|)
      {
        var started := Listen1(i, listens);
        ok := ok || started;
      }
      if !featureRDMA && !ok {
        state := Error;
        return Fails(EACCES);
      }
      state := Listening;
      reply := Emulated(0);
    }

    /** The handshake of `handleSysConnect`: what is sent on the connected socket. */
    method SendHandshake(sendOk: bool) returns (sent: Option<Bytes>)
      ensures sent.Some? <==> localVAddr.family == AF_INET && sendOk
      ensures sent.Some? ==> sent == Print(localVAddr) && |sent.value| == 16
      ensures sent.Some? && Sockaddrs.Valid(localVAddr) ==>
                Parse(sent.value) == Some(Sockaddr(AF_INET, To4(localVAddr.ip), localVAddr.port, 0, 0))
    {
      PrintLength(localVAddr);
      if Sockaddrs.Valid(localVAddr) {
        ParsePrint(localVAddr);
      }
      hide Print;
      hide Parse;
      var localVAddrByte := SockaddrToByte(localVAddr);
      if localVAddrByte.Some? && |localVAddrByte.value| == SIZE_INET4 && sendOk {
        return localVAddrByte;
      }
      sent := None;
    }

    /** `handleSysConnect`; the draws made of the random source come out for the
        specification. */
    method HandleSysConnect(buf: Option<Bytes>, cae: AC.Entries, de: D.Entries, rnd: nat -> nat, tries: (nat, nat) -> Try,
                            featureRDMA: bool, sendOk: bool, addFdOk: bool, k: Kern)
      returns (reply: Reply, k': Kern, dialed: Option<int>, sent: Option<Bytes>, ghost draws: seq<Draw>, ghost attempts: seq<Attempt>)
      requires cae.Valid() && de.Valid() && Fair(rnd)
      modifies this
      ensures Connected(Abs(), reply, k', dialed, sent, attempts, false) ==
              HandleConnect(old(Abs()), buf, cae.Table, de.Table, draws, featureRDMA, sendOk, addFdOk, k)
    {
      hide Select;
      hide Parse;
      hide AC.Acl.Apply;
      hide D.Dest.GetClient;
      hide Handshake;
      k', dialed, sent, draws, attempts := k, None, None, [], [];
      var dstAddr := None;
      if buf.Some? {
        dstAddr := NewSockaddr(buf.value);
      }
      if dstAddr.None? {
        state := NotBypassable;
        return CONTINUE, k', None, None, [], [];
      }
      remoteVAddr := dstAddr.value;
      var allowed := cae.Apply(remoteVAddr.ip);
      if !allowed {
        state := Error;
        return Fails(EACCES), k', None, None, [], [];
      }
      var dEntries := de.GetClient(remoteVAddr.ip, remoteVAddr.port);
      if dEntries == [] {
        state := Error;
        return Fails(EACCES), k', None, None, [], [];
      }
      var result;
      result, k', draws := SelectTransport(Abs(), dEntries, rnd, tries, featureRDMA, k);
      attempts := Select(Abs(), dEntries, draws, featureRDMA, k).attempts;
      match result
      case AllFailed =>
        state := Error;
        reply := Fails(EACCES);
      case ViaRdma =>
        state := Bypassed;
        reply := Emulated(TRY_RDMA + SIZE_INET4);
      case Via(fd) =>
        dialed := Some(fd);
        sent := SendHandshake(sendOk);
        HandshakeByFamily(Abs(), sendOk);
        k' := k'.Close(fd, Loose);
        if addFdOk {
          state := Bypassed;
          reply := Emulated(0);
        } else {
          state := NotBypassable;
          reply := CONTINUE;
        }
    }

    /** `handleSysSetsockopt`. */
    method HandleSysSetsockopt(opt: Option<SockOpt>, callOk: bool, k: Kern) returns (reply: Reply, k': Kern)
      modifies this`socketOptions
      ensures Handled(Abs(), reply, k') == HandleSetsockopt(old(Abs()), opt, callOk, k)
    {
      reply, k' := CONTINUE, k;
      if opt.Some? {
        socketOptions := socketOptions + [opt.value];
        if (state == Binded || state == Listening) && callOk {
          k' := k.Set(sockfd, [Opt(opt.value)]);
        }
      }
    }

    /** `handleSysFcntl`. */
    method HandleSysFcntl(cmd: nat, value: nat, callOk: bool, dup: Option<int>, k: Kern) returns (reply: Reply, k': Kern)
      modifies this`fcntlOptions
      ensures Handled(Abs(), reply, k') == HandleFcntl(old(Abs()), cmd, value, callOk, dup, k)
    {
      reply, k' := CONTINUE, k;
      if cmd == F_SETFL {
        fcntlOptions := fcntlOptions + [FcntlOpt(cmd, value)];
      }
      if state == Binded || state == Listening {
        if cmd == F_SETFL {
          if callOk {
            k' := k.Set(sockfd, [Fl(FcntlOpt(cmd, value))]);
          }
        } else if dup.Some? {
          k' := k.Open(dup.value, Loose);
        }
      }
    }

    /** `removeSocket`. */
    method RemoveSocket(sid: nat, k: Kern) returns (k': Kern)
      modifies this`objs, this`cancelled
      ensures Abs() == Removed(old(Abs()))
      ensures k' == CloseEach(old(Abs()), sid, |old(objs)|, k)
    {
      k' := k;
      ghost var s := Abs();
      var n := |objs|;
      for i := 0 to n
        invariant |objs| == n && Abs() == s.(hs := objs)
        invariant forall j | 0 <= j < i :: objs[j] == if InTable(s, j) then s.hs[j].(cancelled := true) else s.hs[j]
        invariant forall j | i <= j < n :: objs[j] == s.hs[j]
        invariant k' == CloseEach(s, sid, i, k)
      {
        assert InTable(Abs(), i) == InTable(s, i);
        if InTable(Abs(), i) {
          objs := objs[i := objs[i].(cancelled := true)];
          k' := k'.Close(objs[i].sockfd, Host(sid));
        }
      }
      cancelled := true;
      assert objs == Removed(s).hs;
    }

    /** The socket made for an accepted connection takes its names. */
    method TakeNames(local: Sockaddr, remote: Sockaddr)
      modifies this`state, this`localVAddr, this`remoteVAddr
      ensures Abs() == old(Abs()).(state := Bypassed, local := local, remote := remote)
    {
      state, localVAddr, remoteVAddr := Bypassed, local, remote;
    }

    /** One atomic step of `transportAccept`, by goroutine `wi`. */
    method StepAccept(sid: nat, wi: nat, o: WorkOracle, sae: AC.Entries, now: nat, k: Kern) returns (k': Kern)
      requires sae.Valid()
      requires wi < |workers| && workers[wi].listener < |objs|
      modifies this
      ensures (Abs(), k') == WorkStep(old(Abs()), sid, wi, o, sae.Table, now, k)
    {
      k' := k;
      var me := workers[wi];
      var listener := objs[me.listener];
      match me.pc
      case Poll =>
        workers := workers[wi := me.(pc := if listener.cancelled then Done else Accepting)];
      case Accepting =>
        var transport := listener.entry.transport;
        if !(transport.UNIX? || transport.IPv4?) || o.arrival.None? {
          FailAccept(wi);
        } else if !FromOk(transport, o.arrival.value.from) {
          k' := k.Open(o.arrival.value.fd, Loose);
          FailAccept(wi);
        } else {
          k' := k.Open(o.arrival.value.fd, Work(sid, wi));
          workers := workers[wi := me.(pc := Receiving(o.arrival.value))];
        }
      case Receiving(a) =>
        var peer := None;
        match listener.entry.transport {
          case UNIX => peer := Transports.ReceiveUNIX(a, o.msg);
          case IPv4 => peer := Transports.ReceiveIPv4(a, o.msg);
          case _ =>
        }
        Transports.PeerBytes(a, o.msg);
        if peer.None? {
          k' := k.Give(a.fd, Loose);
          FailAccept(wi);
        } else {
          workers := workers[wi := me.(pc := Checking(peer.value))];
        }
      case Checking(h) =>
        var ok := sae.Apply(h.entry.vip);
        var verdicts := me.verdicts + [Verdict(h.conn, h.entry.vip, now, ok)];
        if !ok {
          k' := k.Close(h.sockfd, Work(sid, wi));
          workers := workers[wi := me.(verdicts := verdicts, pc := Poll)];
        } else {
          workers := workers[wi := me.(verdicts := verdicts, pc := Storing(h.(checkedAt := now)))];
        }
      case Storing(h) =>
        workers := workers[wi := me.(pc := Sending(|objs|))];
        k' := k.Give(h.sockfd, if cancelled then Loose else Host(sid));
        Store(h);
      case Sending(hid) =>
        if |acceptedSockets| < QUEUE_CAPACITY {
          acceptedSockets := acceptedSockets + [hid];
          enqueued := enqueued + [Enqueue(wi, hid, if hid < |objs| then objs[hid].conn else NO_LINK)];
          workers := workers[wi := me.(pc := Poll)];
        }
      case Done =>
    }

    /** An error ends the goroutine and its listener. */
    method FailAccept(wi: nat)
      requires wi < |workers| && workers[wi].listener < |objs|
      modifies this`objs, this`workers
      ensures Abs() == WorkerFails(old(Abs()), wi)
    {
      var l := workers[wi].listener;
      objs := objs[l := objs[l].(state := HostSocketError, cancelled := true)];
      workers := workers[wi := workers[wi].(pc := Done)];
    }
  }
}
