/** What becomes of one notification, told by what the kernel says of the caller and of its
    descriptor, what stands in its memory, and the state of its socket. */
module Notifications {
  import opened Net
  import opened Sockaddrs
  import opened Kernel
  import opened Socket
  import opened Connect
  import opened Engine
  import opened SocketInvariant
  import opened Invariant
  import opened Effects
  import opened HostSockets
  import opened Dialing
  import opened Progress
  import Runs
  import AC = AccessControl
  import D = Destination

  // -------------------------------------------------------------------- the caller

  /** The process a notification comes from: the task itself, or the process of a thread. */
  function CallerOf(w: World, req: Request, o: LoopOracle): Option<int> {
    if req.pid in w.pidInfos then Some(w.pidInfos[req.pid].tgid)
    else
      match o.pid
      case AsProcess(_) => Some(req.pid)
      case AsThread(tgid, _) => Some(tgid)
      case NoPid => None
  }

  /** The caller's process is known as a process, at the latest by this notification. */
  predicate ProcessKnown(w: World, req: Request, o: LoopOracle, pid: int) {
    if pid in w.pidInfos then w.pidInfos[pid].pidType.PROCESS? else req.pid == pid && o.pid.AsProcess?
  }

  /** What can be read of the caller's memory. */
  function Readable(w: World, pid: int, o: LoopOracle): Option<Bytes> {
    if pid in w.memfds || o.memfd.Some? then o.data else None
  }

  /** The kernel describes the descriptor as an unconnected stream socket of AF_INET or
      AF_INET6. */
  predicate Usable(o: RegOracle) {
    o.args.Some? && (o.args.value.domain == 2 || o.args.value.domain == 10) && o.args.value.kind == 1 && !o.connected
  }

  /** A virtual socket just registered for such a descriptor. */
  function Fresh(pid: int, fd: int, o: RegOracle): Sock
    requires o.args.Some?
  {
    NewSock(NotBypassed, pid, fd, o.args.value.domain, o.args.value.kind, o.args.value.proto)
  }

  /** Socket `sid` stands under the caller's process and the number of the call. */
  predicate Speaks(w: World, req: Request, o: LoopOracle, pid: int, sid: nat) {
    CallerOf(w, req, o) == Some(pid) && w.Registered(pid, req.fd) == Some(sid) && sid < |w.socks|
  }

  /** Nothing but caches and the kernel differs. */
  ghost predicate SameTables(w: World, w': World) {
    w' == w.(pidInfos := w'.pidInfos, memfds := w'.memfds, k := w'.k)
  }

  /** A thread resolves to its process. */
  lemma CallerIs(w: World, req: Request, o: LoopOracle)
    ensures var (w1, info) := GetPidFdInfo(w, req.pid, o.pid);
            && w1 == w.(pidInfos := w1.pidInfos, k := w1.k)
            && CallerOf(w, req, o) == (if info.Some? then Some(info.value.tgid) else None)
            && forall pid | CallerOf(w, req, o) == Some(pid) && ProcessKnown(w, req, o, pid) ::
                 pid in w1.pidInfos && w1.pidInfos[pid].pidType.PROCESS?
  {
  }

  // ------------------------------------------------------------------ the handlers

  lemma MemIs(w: World, pid: int, o: LoopOracle)
    ensures var (w1, buf) := ReadMem(w, pid, o);
            buf == Readable(w, pid, o) && SameTables(w, w1)
  {
  }

  /** The handler's result, on the socket alone. */
  ghost predicate Only(w: World, w': World, sid: nat)
    requires sid < |w.socks|
  {
    && w'.processes == w.processes && w'.featureRDMA == w.featureRDMA
    && |w'.socks| == |w.socks| && w'.socks == w.socks[sid := w'.socks[sid]]
  }

  lemma BindOn(w: World, pid: int, sid: nat, o: LoopOracle)
    requires Inv(w) && sid < |w.socks|
    ensures var out, s := Dispatch(w, pid, sid, Bind, o), w.socks[sid];
            && Only(w, out.w, sid) && out.end == Replied
            && if s.state == NotBypassed
               then BindListed(s, Readable(w, pid, o), w.de, o.tries, w.featureRDMA, out.w.socks[sid], out.reply, out.w.k.honest)
               else out.reply == Reply(false, 22, 0) && out.w.socks[sid] == s
  {
    hide BindListed;
    hide ReadMem;
    MemIs(w, pid, o);
    if w.socks[sid].state == NotBypassed {
      Unbound(w, sid);
      var (w1, buf) := ReadMem(w, pid, o);
      BindExactly(w1.socks[sid], sid, buf, w1.de, o.tries, w1.featureRDMA, w1.k);
    }
    hide Inv;
    hide HandleBind;
    hide Readable;
  }

  lemma Unbound(w: World, sid: nat)
    requires Inv(w) && sid < |w.socks| && w.socks[sid].state == NotBypassed
    ensures w.socks[sid].hs == [] && w.socks[sid].hostSockets == map[]
  {
    SockFacts(w, sid);
    hide Inv;
  }

  lemma ListenOn(w: World, pid: int, sid: nat, o: LoopOracle)
    requires sid < |w.socks|
    ensures var out, s := Dispatch(w, pid, sid, Listen, o), w.socks[sid];
            && Only(w, out.w, sid) && out.end == Replied
            && ListenListed(s, o.listens, w.featureRDMA, out.w.socks[sid], out.reply)
  {
    hide HandleListen;
    hide ListenListed;
    ListenExactly(w.socks[sid], o.listens, w.featureRDMA, w.k);
  }

  lemma ConnectRuns(w: World, pid: int, sid: nat, o: LoopOracle) returns (w1: World)
    requires sid < |w.socks| && w.socks[sid].pid == pid
    ensures SameTables(w, w1)
    ensures var c := HandleConnect(w.socks[sid], Readable(w, pid, o), w.cae, w.de, o.draws, w.featureRDMA, o.sendOk, o.addfd.Some?, w1.k);
            Dispatch(w, pid, sid, Call.Connect, o) == if c.stuck then Waits(w) else Answered(Dialled(w1, sid, c), c.reply)
  {
    hide ReadMem;
    hide HandleConnect;
    hide Readable;
    hide Dialled;
    MemIs(w, pid, o);
    w1 := ReadMem(w, pid, o).0;
  }

  /** ... with the kernel it finds once the address has been read. */
  lemma ConnectOn(w: World, pid: int, sid: nat, o: LoopOracle) returns (k1: Kern)
    requires sid < |w.socks| && w.socks[sid].pid == pid
    ensures var out, s, buf := Dispatch(w, pid, sid, Call.Connect, o), w.socks[sid], Readable(w, pid, o);
            var c := HandleConnect(s, buf, w.cae, w.de, o.draws, w.featureRDMA, o.sendOk, o.addfd.Some?, k1);
            && Only(w, out.w, sid)
            && out.end == (if c.stuck then Waiting else Replied)
            && (c.stuck ==> out.w == w)
            && (!c.stuck ==>
                  && ConnectListed(s, buf, w.cae, w.de, w.featureRDMA, o.addfd.Some?, c.attempts, out.w.socks[sid], out.reply, c.dialed)
                  && out.w.conns == w.conns + (if c.dialed.Some? then [Conn(sid, c.dialed.value, c.sent)] else [])
                  && (c.dialed.Some? ==> c.dialed.value !in out.w.k.open))
  {
    hide Dispatch;
    hide ConnectListed;
    hide HandleConnect;
    hide Readable;
    hide IsAddress;
    var w1 := ConnectRuns(w, pid, sid, o);
    k1 := w1.k;
    ConnectExactly(w.socks[sid], Readable(w, pid, o), w.cae, w.de, o.draws, w.featureRDMA, o.sendOk, o.addfd.Some?, k1);
  }

  // ------------------------------------------------------------ the way to a handler

  /** Does a call go to a handler of sockets at all? */
  predicate IsSocketCall(call: Call) {
    !call.Undecodable? && !call.Exit? && !call.ExitGroup? && !call.Close?
  }

  /** A call on a socket that the engine has in hand goes to its handler. */
  lemma HandlerCalled(w: World, req: Request, o: LoopOracle, pid: int, sid: nat) returns (w1: World)
    requires Speaks(w, req, o, pid, sid) && IsSocketCall(req.call)
    requires w.socks[sid].state != NotBypassable && w.socks[sid].state != Bypassed
    requires req.call.Connect? ==> !MayCarryRsocket(w.featureRDMA, w.socks[sid])
    ensures w1 == w.(pidInfos := w1.pidInfos, k := w1.k)
    ensures HandleReq(w, req, o) == Dispatch(w1, pid, sid, req.call, o)
    ensures ProcessKnown(w, req, o, pid) ==> pid in w1.pidInfos && w1.pidInfos[pid].pidType.PROCESS?
  {
    hide GetPidFdInfo;
    CallerIs(w, req, o);
    SettleEnters(w, req, o, pid, sid);
    w1 := GetPidFdInfo(w, req.pid, o.pid).0;
    hide CallerOf;
    hide Settle;
    hide Dispatch;
    hide Register;
    hide Unregister;
    hide ReadMem;
  }

  /** A registered number gets as far as the gates. */
  lemma SettleEnters(w: World, req: Request, o: LoopOracle, pid: int, sid: nat)
    requires Speaks(w, req, o, pid, sid) && IsSocketCall(req.call)
    ensures var w1 := GetPidFdInfo(w, req.pid, o.pid).0;
            sid < |w1.socks| && Settle(w, req, o) == Enter(w1, pid, sid, req, o)
  {
    hide GetPidFdInfo;
    hide Enter;
    CallerIs(w, req, o);
    StandsRegistered(GetPidFdInfo(w, req.pid, o.pid).0, pid, req.fd, o.reg, sid);
    hide Register;
  }

  lemma StandsRegistered(w: World, pid: int, fd: int, o: RegOracle, sid: nat)
    requires w.Registered(pid, fd) == Some(sid)
    ensures Register(w, pid, fd, o) == (w, Some(sid))
  {
  }

  /** A call that is not for the engine to handle continues in the kernel. */
  lemma Continues(w: World, req: Request, o: LoopOracle, pid: int, sid: nat)
    requires Speaks(w, req, o, pid, sid) && IsSocketCall(req.call)
    requires req.call.Connect? ==> !MayCarryRsocket(w.featureRDMA, w.socks[sid])
    requires || (w.socks[sid].state == Bypassed && !req.call.Getpeername? && !req.call.Getsockname?)
             || (w.socks[sid].state == NotBypassable && !req.call.Bind? && !req.call.Connect?)
    ensures var out := HandleReq(w, req, o);
            out.end == Replied && out.reply == Reply(true, 0, 0) && out.wrote.None? && SameTables(w, out.w)
  {
    hide GetPidFdInfo;
    CallerIs(w, req, o);
    SettleEnters(w, req, o, pid, sid);
    hide CallerOf;
    hide Settle;
    hide Dispatch;
    hide Register;
    hide Unregister;
    hide ReadMem;
  }

  // ------------------------------------------------------------- bind and listen

  /** Bind on a registered number. */
  lemma BindIsHandled(w: World, req: Request, o: LoopOracle, pid: int, sid: nat)
    requires Inv(w) && Speaks(w, req, o, pid, sid) && req.call.Bind? && w.socks[sid].state != NotBypassable
    ensures var out, s := HandleReq(w, req, o), w.socks[sid];
            && out.end == Replied && Only(w, out.w, sid)
            && if s.state == NotBypassed then
                 BindListed(s, Readable(w, pid, o), w.de, o.tries, w.featureRDMA, out.w.socks[sid], out.reply, out.w.k.honest)
               else if s.state == Bypassed then out.reply == Reply(true, 0, 0) && out.w.socks[sid] == s
               else out.reply == Reply(false, 22, 0) && out.w.socks[sid] == s
  {
    hide Inv;
    hide Sound;
    hide HandleReq;
    hide Dispatch;
    hide BindListed;
    hide CallerOf;
    if w.socks[sid].state == Bypassed {
      Continues(w, req, o, pid, sid);
    } else {
      var w1 := HandlerCalled(w, req, o, pid, sid);
      CachesSound(w, w1);
      SoundImplies(w, w1);
      BindOn(w1, pid, sid, o);
    }
  }

  /** Listen on a registered number. */
  lemma ListenIsHandled(w: World, req: Request, o: LoopOracle, pid: int, sid: nat)
    requires Speaks(w, req, o, pid, sid) && req.call.Listen?
    ensures var out, s := HandleReq(w, req, o), w.socks[sid];
            && out.end == Replied && Only(w, out.w, sid)
            && if s.state == Bypassed then out.reply == Reply(true, 0, 0) && out.w.socks[sid] == s
               else ListenListed(s, o.listens, w.featureRDMA, out.w.socks[sid], out.reply)
  {
    hide HandleReq;
    hide Dispatch;
    hide Visited;
    hide CallerOf;
    if w.socks[sid].state == Bypassed || w.socks[sid].state == NotBypassable {
      Continues(w, req, o, pid, sid);
    } else {
      var w1 := HandlerCalled(w, req, o, pid, sid);
      ListenOn(w1, pid, sid, o);
    }
  }

  // --------------------------------------------------------------------- connect

  /** Connect on a registered number, when it is not for the control channel. */
  lemma ConnectIsHandled(w: World, req: Request, o: LoopOracle, pid: int, sid: nat) returns (k1: Kern)
    requires Inv(w) && Speaks(w, req, o, pid, sid) && req.call.Connect?
    requires w.socks[sid].state != NotBypassable && w.socks[sid].state != Bypassed
    requires !MayCarryRsocket(w.featureRDMA, w.socks[sid])
    ensures var out, s, buf := HandleReq(w, req, o), w.socks[sid], Readable(w, pid, o);
            var c := HandleConnect(s, buf, w.cae, w.de, o.draws, w.featureRDMA, o.sendOk, o.addfd.Some?, k1);
            && Only(w, out.w, sid)
            && out.end == (if c.stuck then Waiting else Replied)
            && (c.stuck ==> SameTables(w, out.w))
            && (!c.stuck ==>
                  && ConnectListed(s, buf, w.cae, w.de, w.featureRDMA, o.addfd.Some?, c.attempts, out.w.socks[sid], out.reply, c.dialed)
                  && out.w.conns == w.conns + (if c.dialed.Some? then [Conn(sid, c.dialed.value, c.sent)] else [])
                  && (c.dialed.Some? ==> c.dialed.value !in out.w.k.open))
  {
    hide HandleReq;
    hide Dispatch;
    hide ConnectListed;
    hide HandleConnect;
    FiledAs(w, pid, req.fd, sid);
    hide Inv;
    var w1 := HandlerCalled(w, req, o, pid, sid);
    k1 := ConnectOn(w1, pid, sid, o);
  }

  /** A connect that was allowed, found its address registered, and is answered: what it comes
      to, and that it prefers as it should among what `ops` have written. */
  ghost predicate ConnectPreferred(w: World, out: Outcome, pid: int, sid: nat, o: LoopOracle, k1: Kern, ops: seq<D.Op>)
    requires sid < |w.socks|
  {
    var s, buf := w.socks[sid], Readable(w, pid, o);
    buf.Some? && Parse(buf.value).Some? ==>
      var to := Parse(buf.value).value;
      w.cae.Apply(to.ip) && w.de.GetClient(to.ip, to.port) != [] && out.end == Replied ==>
        var c := HandleConnect(s, buf, w.cae, w.de, o.draws, w.featureRDMA, o.sendOk, o.addfd.Some?, k1);
        && sid < |out.w.socks|
        && ConnectListed(s, buf, w.cae, w.de, w.featureRDMA, o.addfd.Some?, c.attempts, out.w.socks[sid], out.reply, c.dialed)
        && Prefers(s, c, ops, w.featureRDMA, D.SlotOf(to.ip, to.port), |ops|)
  }

  /** Priority over runs: whenever connect is handled, every entry the route updates of the
      run have written for its address, of a transport preferred to that of the one it ends
      through, was tried and failed. */
  lemma ConnectPrefers(c: Runs.Config, run: seq<Step>, n: nat, pid: int, sid: nat) returns (k1: Kern)
    requires n < |run| && run[n].Loop? && Speaks(c.At(run, n), run[n].req, run[n].o, pid, sid) && run[n].req.call.Connect?
    requires var s := c.At(run, n).socks[sid];
             s.state != NotBypassable && s.state != Bypassed && !MayCarryRsocket(c.featureRDMA, s)
    ensures var w := c.At(run, n);
            ConnectPreferred(w, HandleReq(w, run[n].req, run[n].o), pid, sid, run[n].o, k1, Runs.RouteOps(c, run, n))
  {
    Runs.Reachable(c, run, n, n);
    Runs.RoutesFollow(c, run, n);
    hide Runs.Config.At;
    hide Runs.RouteOps;
    hide Evolves;
    hide Inv;
    hide HandleReq;
    hide HandleConnect;
    hide ConnectListed;
    hide Prefers;
    hide Parse;
    hide AC.Acl.Apply;
    hide D.Dest.GetClient;
    hide D.After;
    hide D.SlotOf;
    hide CallerOf;
    hide Readable;
    hide MayCarryRsocket;
    var w, o, ops := c.At(run, n), run[n].o, Runs.RouteOps(c, run, n);
    k1 := ConnectIsHandled(w, run[n].req, o, pid, sid);
    var buf := Readable(w, pid, o);
    if buf.Some? && Parse(buf.value).Some? {
      EarlierTransportsFailed(c.myVIP, c.featureRDMA, ops, |ops|, w.socks[sid], buf, w.cae, o.draws, o.sendOk, o.addfd.Some?, k1);
    }
  }

  lemma FiledAs(w: World, pid: int, fd: int, sid: nat)
    requires Inv(w) && w.Registered(pid, fd) == Some(sid)
    ensures sid < |w.socks| && !w.socks[sid].cancelled && w.socks[sid].pid == pid && w.socks[sid].sockfd == fd
  {
    assert FiledOk(w.processes, w.socks, pid, fd);
  }

  // ---------------------------------------------------------------------- accept

  /** What accept comes to. A lost connection makes the listener unbypassable. */
  ghost predicate AcceptListed(w: World, out: Outcome, pid: int, sid: nat, o: LoopOracle)
    requires sid < |w.socks|
  {
    var s := w.socks[sid];
    if s.state == NotBypassable || s.state == Bypassed then
      out.end == Replied && out.reply == Reply(true, 0, 0) && out.w.socks == w.socks
    else if s.state != Listening then
      out.end == Replied && out.reply == Reply(false, 22, 0) && out.w.socks == w.socks
    else if s.queue == [] then out.end == Waiting && out.w.socks == w.socks
    else if o.addfd.None? then
      && out.end == Replied && out.reply == Reply(true, 0, 0) && out.w.lost
      && out.w.socks == w.socks[sid := s.(state := NotBypassable, queue := s.queue[1..], dequeued := s.dequeued + [s.queue[0]])]
      && s.queue[0] < |s.hs| && s.hs[s.queue[0]].sockfd !in out.w.k.open
    else w.Registered(pid, o.addfd.value).None? && o.acc.getfd.Some? ==> Delivered(w, out, pid, sid, o.addfd.value)
  }

  /** What registering an unregistered number of a known process comes to. */
  function Newly(pid: int, fd: int, o: RegOracle): Sock {
    var args := if o.args.None? then SockArgs(0, 0, 0) else o.args.value;
    NewSock(if Usable(o) then NotBypassed else NotBypassable, pid, fd, args.domain, args.kind, args.proto)
  }

  lemma RegistersNew(w: World, pid: int, fd: int, o: RegOracle)
    requires pid in w.pidInfos && w.pidInfos[pid].pidType.PROCESS? && w.Registered(pid, fd).None?
    ensures var (w', sid) := Register(w, pid, fd, o);
            && w' == w.(processes := w'.processes, socks := w'.socks, k := w'.k)
            && sid == (if o.getfd.Some? then Some(|w.socks|) else None)
            && w'.socks == w.socks + (if o.getfd.Some? then [Newly(pid, fd, o)] else [])
            && w'.Registered(pid, fd) == sid
  {
    hide FirstState;
    hide Usable;
    hide Kern.Open;
    hide Kern.Close;
    FirstIs(o);
    RegisterCases(w, pid, fd, o);
    var w1 := KnowProcess(w, pid);
    assert GetPidFdInfo(w1, pid, o.pid) == (w1, Some(w1.pidInfos[pid]));
    hide GetPidFdInfo;
    hide Register;
  }

  lemma FirstIs(o: RegOracle)
    ensures FirstState(o) == if Usable(o) then NotBypassed else NotBypassable
  {
  }

  lemma AcceptLoses(w: World, pid: int, sid: nat, o: LoopOracle)
    requires sid < |w.socks| && w.socks[sid].state == Listening && w.socks[sid].queue != [] && o.addfd.None?
    requires w.socks[sid].queue[0] < |w.socks[sid].hs| && w.socks[sid].hs[w.socks[sid].queue[0]].state == HostSocketAccepted
    ensures AcceptListed(w, DoAccept(w, pid, sid, o), pid, sid, o)
  {
    hide Inject;
    hide Delivered;
  }

  lemma AcceptRefuses(w: World, pid: int, sid: nat, o: LoopOracle)
    requires sid < |w.socks| && w.socks[sid].state != Bypassed
    requires w.socks[sid].state != Listening || w.socks[sid].queue == []
    ensures AcceptListed(w, DoAccept(w, pid, sid, o), pid, sid, o)
  {
    hide Inject;
    hide Delivered;
  }

  lemma AcceptOn(w: World, pid: int, sid: nat, call: Call, o: LoopOracle)
    requires Inv(w) && sid < |w.socks| && IsAccept(call) && w.socks[sid].state != Bypassed
    requires pid in w.pidInfos && w.pidInfos[pid].pidType.PROCESS?
    ensures AcceptListed(w, Dispatch(w, pid, sid, call, o), pid, sid, o)
  {
    hide DoAccept;
    hide Delivered;
    hide Register;
    hide Newly;
    hide PeerOf;
    hide SockOk;
    hide Inv;
    hide Sound;
    var s := w.socks[sid];
    if s.state != Listening || s.queue == [] {
      AcceptRefuses(w, pid, sid, o);
    } else {
      DequeueSound(w, sid);
      if o.addfd.None? {
        AcceptLoses(w, pid, sid, o);
      } else if w.Registered(pid, o.addfd.value).None? && o.acc.getfd.Some? {
        RegistersNew(w.SetSock(sid, Dequeue(s), w.k), pid, o.addfd.value, o.acc);
        AcceptDelivers(w, pid, sid, o);
      }
    }
  }

  /** Accept and accept4 on a registered number. */
  lemma AcceptIsHandled(w: World, req: Request, o: LoopOracle, pid: int, sid: nat)
    requires Inv(w) && Speaks(w, req, o, pid, sid) && IsAccept(req.call) && ProcessKnown(w, req, o, pid)
    ensures AcceptListed(w, HandleReq(w, req, o), pid, sid, o)
  {
    hide Inv;
    hide Sound;
    hide HandleReq;
    hide Dispatch;
    hide GetPidFdInfo;
    if w.socks[sid].state == Bypassed || w.socks[sid].state == NotBypassable {
      Continues(w, req, o, pid, sid);
    } else {
      CallerIs(w, req, o);
      var w1 := HandlerCalled(w, req, o, pid, sid);
      CachesSound(w, w1);
      SoundImplies(w, w1);
      AcceptOn(w1, pid, sid, req.call, o);
    }
  }

  // ----------------------------------------------------------------------- names

  function NameAsked(s: Sock, call: Call): Sockaddr {
    if call.Getpeername? then s.remote else s.local
  }

  /** What is stored of an image in the caller's memory: none of it, a prefix, or all. */
  function InMemory(w: World, pid: int, image: Option<Bytes>, o: LoopOracle): Option<Bytes> {
    if image.None? || o.stored.None? || (pid !in w.memfds && o.memfd.None?) then None
    else if o.stored.value < |image.value| then Some(image.value[..o.stored.value])
    else image
  }

  /** Getpeername and getsockname on a number the engine has in hand: answered with success
      if and only if the name has an image and all of it is stored. */
  lemma NameIsHandled(w: World, req: Request, o: LoopOracle, pid: int, sid: nat)
    requires Speaks(w, req, o, pid, sid) && (req.call.Getpeername? || req.call.Getsockname?)
    ensures var out, s := HandleReq(w, req, o), w.socks[sid];
            var image := Print(NameAsked(s, req.call));
            && out.end == Replied && SameTables(w, out.w)
            && out.wrote == (if s.state == NotBypassable then None else InMemory(w, pid, image, o))
            && out.reply == if out.wrote.Some? && out.wrote == image then Reply(false, 0, 0) else Reply(true, 0, 0)
  {
    hide HandleReq;
    hide CallerOf;
    hide Print;
    if w.socks[sid].state == NotBypassable {
      Continues(w, req, o, pid, sid);
    } else {
      var w1 := NamePasses(w, req, o, pid, sid);
    }
  }

  lemma NamePasses(w: World, req: Request, o: LoopOracle, pid: int, sid: nat) returns (w1: World)
    requires Speaks(w, req, o, pid, sid) && (req.call.Getpeername? || req.call.Getsockname?)
    requires w.socks[sid].state != NotBypassable
    ensures w1 == w.(pidInfos := w1.pidInfos, k := w1.k)
    ensures HandleReq(w, req, o) == DoName(w1, pid, NameAsked(w.socks[sid], req.call), o)
  {
    hide GetPidFdInfo;
    hide DoName;
    CallerIs(w, req, o);
    SettleEnters(w, req, o, pid, sid);
    w1 := GetPidFdInfo(w, req.pid, o.pid).0;
    hide CallerOf;
    hide Settle;
    hide Register;
    hide Unregister;
    hide ReadMem;
  }

  // ------------------------------------------------------------------ what continues

  lemma RecordedReplies(w: World, pid: int, sid: nat, call: Call, o: LoopOracle)
    requires sid < |w.socks| && (IsOption(call) || call.OtherCall?)
    ensures Dispatch(w, pid, sid, call, o).end == Replied && Dispatch(w, pid, sid, call, o).reply == Reply(true, 0, 0)
  {
    hide ReadMem;
    MemIs(w, pid, o);
    hide Readable;
  }

  /** Calls that are only recorded, or not intercepted, continue on a socket in hand. */
  lemma RecordedContinue(w: World, req: Request, o: LoopOracle, pid: int, sid: nat)
    requires Speaks(w, req, o, pid, sid) && (IsOption(req.call) || req.call.OtherCall?)
    ensures HandleReq(w, req, o).end == Replied && HandleReq(w, req, o).reply == Reply(true, 0, 0)
  {
    hide HandleReq;
    hide ReadMem;
    hide CallerOf;
    if w.socks[sid].state == Bypassed || w.socks[sid].state == NotBypassable {
      Continues(w, req, o, pid, sid);
    } else {
      var w1 := HandlerCalled(w, req, o, pid, sid);
      RecordedReplies(w1, pid, sid, req.call, o);
      hide Dispatch;
    }
  }

  /** What cannot be decoded, or comes from nowhere, continues and changes nothing. */
  lemma StrayContinues(w: World, req: Request, o: LoopOracle)
    requires req.call.Undecodable? || CallerOf(w, req, o).None?
    ensures HandleReq(w, req, o) == Outcome(w, Reply(true, 0, 0), None, Replied)
  {
    hide Register;
    hide Unregister;
    hide HandleExit;
    hide Enter;
  }

  // --------------------------------------------------------- accept after listen

  lemma ListenSettles(w: World, req: Request, o: LoopOracle, pid: int, sid: nat)
    requires Speaks(w, req, o, pid, sid) && req.call.Listen?
    requires w.socks[sid].state != Binded && w.socks[sid].state != Listening
    ensures var w' := Next(w, Loop(req, o));
            sid < |w'.socks| && Settled(w'.socks[sid])
  {
    ListenIsHandled(w, req, o, pid, sid);
    hide HandleReq;
    hide CallerOf;
  }

  /** Once a socket that is not bound has been listened on, accept on it always continues in
      the kernel, at every later moment while it stands registered. */
  lemma AcceptFollowsListen(c: Runs.Config, run: seq<Step>, m: nat, n: nat, pid: int, sid: nat)
    requires m < n < |run| && run[m].Loop? && run[n].Loop?
    requires Speaks(c.At(run, m), run[m].req, run[m].o, pid, sid) && run[m].req.call.Listen?
    requires c.At(run, m).socks[sid].state != Binded && c.At(run, m).socks[sid].state != Listening
    requires Speaks(c.At(run, n), run[n].req, run[n].o, pid, sid) && IsAccept(run[n].req.call)
    ensures !c.At(run, n).reused ==>
              var out := HandleReq(c.At(run, n), run[n].req, run[n].o);
              out.end == Replied && out.reply == Reply(true, 0, 0)
  {
    hide Runs.Config.At;
    hide HandleReq;
    hide Inv;
    hide CallerOf;
    hide Next;
    hide Speaks;
    ListenSettles(c.At(run, m), run[m].req, run[m].o, pid, sid);
    Runs.AtNext(c, run, m);
    if !c.At(run, n).reused {
      Runs.StaysSettled(c, run, m + 1, n, sid);
      Continues(c.At(run, n), run[n].req, run[n].o, pid, sid);
    }
  }
}
