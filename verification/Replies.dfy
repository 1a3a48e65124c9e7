/** What the container is told, against what has become of its sockets. */
module Replies {
  import opened Net
  import opened Sockaddrs
  import opened Kernel
  import opened Socket
  import opened Connect
  import opened Engine
  import opened SocketInvariant
  import opened Invariant
  import opened Effects
  import AC = AccessControl
  import D = Destination

  ghost predicate StandsAs(w: World, pid: int, fd: int, state: SocketState) {
    var sid := w.Registered(pid, fd);
    sid.Some? && sid.value < |w.socks| && w.socks[sid.value].state == state
  }

  /** A bind without a server entry for its port only records the name. */
  ghost predicate NamedOnly(w: World, pid: int, fd: int) {
    var sid := w.Registered(pid, fd);
    && sid.Some? && sid.value < |w.socks| && w.socks[sid.value].state == NotBypassed
    && w.de.GetServer(w.socks[sid.value].local.port) == []
  }

  /** The whole image of the name the registered socket goes by was stored. */
  ghost predicate NameWritten(w: World, pid: int, fd: int, peer: bool, wrote: Option<Bytes>) {
    var sid := w.Registered(pid, fd);
    && sid.Some? && sid.value < |w.socks|
    && wrote.Some? && wrote == Print(if peer then w.socks[sid.value].remote else w.socks[sid.value].local)
  }

  /** What an emulated success promises. */
  ghost predicate Kept(w: World, pid: int, fd: int, call: Call, val: int, wrote: Option<Bytes>) {
    match call
    case Bind => StandsAs(w, pid, fd, Binded) || NamedOnly(w, pid, fd)
    case Listen => StandsAs(w, pid, fd, Listening) && val == 0
    case Accept => StandsAs(w, pid, val, Bypassed)
    case Accept4 => StandsAs(w, pid, val, Bypassed)
    case Connect => StandsAs(w, pid, fd, Bypassed)
    case Getpeername => NameWritten(w, pid, fd, true, wrote) && val == 0
    case Getsockname => NameWritten(w, pid, fd, false, wrote) && val == 0
    case _ => false
  }

  /** A reply that lets the kernel continue carries no error and no value, as
      seccomp_unotify(2) demands; an error carries no value; an emulated success is
      kept; and only with the RDMA feature do bind and connect answer another value
      than 0. */
  ghost predicate Agrees(out: Outcome, pid: int, fd: int, call: Call) {
    var r := out.reply;
    && (r.cont ==> r.error == 0 && r.val == 0)
    && (r.error != 0 ==> r.val == 0)
    && (!r.cont && r.error == 0 ==> Kept(out.w, pid, fd, call, r.val, out.wrote))
    && (!out.w.featureRDMA && (call.Bind? || call.Connect?) ==> r.val == 0)
  }

  lemma {:induction false} RdmaOnlyWithFeature(s: Sock, sid: nat, entries: seq<D.Entry>, os: seq<Try>, n: nat, featureRDMA: bool, k: Kern)
    requires n <= |entries|
    ensures BindEach(s, sid, entries, os, n, featureRDMA, k).rdma ==> featureRDMA
  {
    if n > 0 {
      RdmaOnlyWithFeature(s, sid, entries, os, n - 1, featureRDMA, k);
    }
  }

  lemma {:induction false} BindKeepsName(s: Sock, sid: nat, entries: seq<D.Entry>, os: seq<Try>, n: nat, featureRDMA: bool, k: Kern)
    requires n <= |entries|
    ensures BindEach(s, sid, entries, os, n, featureRDMA, k).s.local == s.local
  {
    if n > 0 {
      BindKeepsName(s, sid, entries, os, n - 1, featureRDMA, k);
    }
  }

  /** Bind answers success exactly with a socket bound, or named only. */
  lemma BindAnswers(s: Sock, sid: nat, buf: Option<Bytes>, de: D.Dest, os: seq<Try>, featureRDMA: bool, k: Kern)
    ensures var h := HandleBind(s, sid, buf, de, os, featureRDMA, k);
            && !h.reply.cont
            && (h.reply.error != 0 ==> h.reply.val == 0)
            && (h.reply.error == 0 ==>
                  h.s.state == Binded || (h.s.state == NotBypassed && de.GetServer(h.s.local.port) == []))
            && (!featureRDMA ==> h.reply.val == 0)
  {
    hide Parse;
    hide D.Dest.GetServer;
    if s.state == NotBypassed && buf.Some? && Parse(buf.value).Some? {
      var s1 := s.(local := Parse(buf.value).value);
      var entries := de.GetServer(s1.local.port);
      RdmaOnlyWithFeature(s1, sid, entries, os, |entries|, featureRDMA, k);
      hide BindEach;
    }
  }

  lemma DoBindAgrees(w: World, pid: int, fd: int, sid: nat, o: LoopOracle)
    requires sid < |w.socks| && w.Registered(pid, fd) == Some(sid)
    ensures Agrees(DoBind(w, pid, sid, o), pid, fd, Bind)
  {
    CachesOnly(w, pid, o.pid, ZERO_SOCKADDR, o);
    var (w1, buf) := ReadMem(w, pid, o);
    hide ReadMem;
    BindAnswers(w1.socks[sid], sid, buf, w1.de, o.tries, w1.featureRDMA, w1.k);
    hide HandleBind;
  }

  lemma DoListenAgrees(w: World, pid: int, fd: int, sid: nat, listens: set<int>)
    requires sid < |w.socks| && w.Registered(pid, fd) == Some(sid)
    ensures Agrees(Lift(w, sid, HandleListen(w.socks[sid], listens, w.featureRDMA, w.k)), pid, fd, Listen)
  {
    hide ListenEach;
  }

  lemma {:induction false} ViaRdmaOnlyWithFeature(s: Sock, c: nat, entries: seq<D.Entry>, tried: set<nat>, attempts: seq<Attempt>,
                                                  draws: seq<Draw>, k: Kern)
    ensures !TryClass(s, c, entries, tried, attempts, draws, false, k).result.ViaRdma?
    decreases |draws|
  {
    if |tried| < |entries| && draws != [] {
      var n, o := Intn(draws[0].n, |entries|), draws[0].o;
      if n in tried {
        ViaRdmaOnlyWithFeature(s, c, entries, tried, attempts, draws[1..], k);
      } else {
        var attempts' := attempts + [Attempt(c, n, entries[n], o)];
        ViaRdmaOnlyWithFeature(s, c, entries, tried + {n}, attempts', draws[1..], AfterConnect(s, entries[n], o, k));
      }
    }
  }

  lemma {:induction false} SelectsSocketsWithoutFeature(s: Sock, c: nat, classes: seq<seq<D.Entry>>, attempts: seq<Attempt>,
                                                        draws: seq<Draw>, k: Kern)
    requires c <= |classes|
    ensures !TryClasses(s, c, classes, attempts, draws, false, k).result.ViaRdma?
    decreases |classes| - c
  {
    if c < |classes| {
      ViaRdmaOnlyWithFeature(s, c, classes[c], {}, attempts, draws, k);
      var p := TryClass(s, c, classes[c], {}, attempts, draws, false, k);
      hide TryClass;
      if p.result.AllFailed? {
        SelectsSocketsWithoutFeature(s, c + 1, classes, p.attempts, p.rest, p.k);
      }
    }
  }

  /** Connect answers success exactly with the socket bypassed. */
  lemma ConnectAnswers(s: Sock, buf: Option<Bytes>, cae: AC.Acl, de: D.Dest, draws: seq<Draw>, featureRDMA: bool,
                       sendOk: bool, addFdOk: bool, k: Kern)
    ensures var c := HandleConnect(s, buf, cae, de, draws, featureRDMA, sendOk, addFdOk, k);
            && (c.reply.cont ==> c.reply.error == 0 && c.reply.val == 0)
            && (c.reply.error != 0 ==> c.reply.val == 0)
            && (!c.reply.cont && c.reply.error == 0 ==> c.s.state == Bypassed)
            && (!featureRDMA ==> c.reply.val == 0)
  {
    hide TryClasses;
    hide Parse;
    hide AC.Acl.Apply;
    hide D.Dest.GetClient;
    hide Handshake;
    hide Kern.Close;
    if buf.Some? && Parse(buf.value).Some? && !featureRDMA {
      var s1 := s.(remote := Parse(buf.value).value);
      SelectsSocketsWithoutFeature(s1, 0, de.GetClient(s1.remote.ip, s1.remote.port), [], draws, k);
    }
  }

  lemma ContinueAgrees(w: World, pid: int, fd: int, call: Call)
    ensures Agrees(Waits(w), pid, fd, call) && Agrees(Answered(w, CONTINUE), pid, fd, call)
  {
  }

  lemma DialledAgrees(w: World, pid: int, fd: int, sid: nat, c: Connected)
    requires sid < |w.socks| && w.Registered(pid, fd) == Some(sid)
    requires c.reply.cont ==> c.reply.error == 0 && c.reply.val == 0
    requires c.reply.error != 0 ==> c.reply.val == 0
    requires !c.reply.cont && c.reply.error == 0 ==> c.s.state == Bypassed
    requires !w.featureRDMA ==> c.reply.val == 0
    ensures Agrees(Answered(Dialled(w, sid, c), c.reply), pid, fd, Connect)
  {
  }

  lemma DoConnectAgrees(w: World, pid: int, fd: int, sid: nat, o: LoopOracle)
    requires sid < |w.socks| && w.Registered(pid, fd) == Some(sid)
    ensures Agrees(DoConnect(w, sid, o), pid, fd, Connect)
  {
    hide Parse;
    CachesOnly(w, w.socks[sid].pid, o.pid, ZERO_SOCKADDR, o);
    var (w1, buf) := ReadMem(w, w.socks[sid].pid, o);
    hide ReadMem;
    ConnectAnswers(w1.socks[sid], buf, w1.cae, w1.de, o.draws, w1.featureRDMA, o.sendOk, o.addfd.Some?, w1.k);
    hide HandleConnect;
    hide Agrees;
    var c := HandleConnect(w1.socks[sid], buf, w1.cae, w1.de, o.draws, w1.featureRDMA, o.sendOk, o.addfd.Some?, w1.k);
    if c.stuck {
      ContinueAgrees(w, pid, fd, Connect);
    } else {
      DialledAgrees(w1, pid, fd, sid, c);
    }
  }

  lemma DoAcceptAgrees(w: World, pid: int, fd: int, sid: nat, call: Call, o: LoopOracle)
    requires Inv(w) && sid < |w.socks| && (call.Accept? || call.Accept4?)
    ensures Agrees(DoAccept(w, pid, sid, o), pid, fd, call)
  {
    hide Inv;
    hide Sound;
    hide SockOk;
    hide Inject;
    hide PeerOf;
    hide PeerAddress;
    var s := w.socks[sid];
    if s.state == Listening && s.queue != [] {
      DequeueSound(w, sid);
      var h := s.hs[s.queue[0]];
      var w1 := w.SetSock(sid, Dequeue(s), w.k);
      SoundImplies(w, w1);
      if o.addfd.Some? && !Inject(w1, pid, sid, h, o.addfd.value, o).stuck {
        InjectFacts(w1, pid, sid, h, o.addfd.value, o);
      }
    }
  }

  lemma DoNameAgrees(w: World, pid: int, fd: int, sid: nat, call: Call, o: LoopOracle)
    requires sid < |w.socks| && w.Registered(pid, fd) == Some(sid) && (call.Getpeername? || call.Getsockname?)
    ensures Agrees(Dispatch(w, pid, sid, call, o), pid, fd, call)
  {
    CachesOnly(w, pid, o.pid, w.socks[sid].remote, o);
    CachesOnly(w, pid, o.pid, w.socks[sid].local, o);
    hide WriteMem;
    hide Print;
  }

  /** The calls that are only recorded, and those not intercepted. */
  lemma OthersAgree(w: World, pid: int, fd: int, sid: nat, call: Call, o: LoopOracle)
    requires sid < |w.socks|
    requires !call.Bind? && !call.Listen? && !IsAccept(call) && !call.Connect? && !call.Getpeername? && !call.Getsockname?
    ensures Agrees(Dispatch(w, pid, sid, call, o), pid, fd, call)
  {
    hide ReadMem;
  }

  lemma DispatchAgrees(w: World, pid: int, fd: int, sid: nat, call: Call, o: LoopOracle)
    requires Inv(w) && sid < |w.socks| && w.Registered(pid, fd) == Some(sid)
    ensures Agrees(Dispatch(w, pid, sid, call, o), pid, fd, call)
  {
    hide Inv;
    hide Agrees;
    hide DoBind;
    hide DoAccept;
    hide DoConnect;
    hide HandleListen;
    hide DoName;
    match call
    case Bind => DoBindAgrees(w, pid, fd, sid, o);
    case Listen => DoListenAgrees(w, pid, fd, sid, o.listens);
    case Accept => DoAcceptAgrees(w, pid, fd, sid, call, o);
    case Accept4 => DoAcceptAgrees(w, pid, fd, sid, call, o);
    case Connect => DoConnectAgrees(w, pid, fd, sid, o);
    case Getpeername => DoNameAgrees(w, pid, fd, sid, call, o);
    case Getsockname => DoNameAgrees(w, pid, fd, sid, call, o);
    case _ => OthersAgree(w, pid, fd, sid, call, o);
  }

  /** Before its handler is called, a notification is answered only to let the kernel
      continue, or with success for a connect that was taken over. */
  ghost predicate SettledReply(st: Setting, pid: int, req: Request) {
    if st.sid.Some? then st.pid == pid
    else st.reply == CONTINUE || (st.reply == Emulated(0) && req.call.Connect? && StandsAs(st.w, pid, req.fd, Bypassed))
  }

  lemma GateReplies(w: World, pid: int, sid: nat, req: Request, o: LoopOracle)
    requires sid < |w.socks|
    ensures SettledReply(Gate(w, pid, sid, req, o), pid, req)
  {
    hide Register;
    hide Unregister;
    hide StandsAs;
  }

  lemma EnterReplies(w: World, pid: int, sid: nat, req: Request, o: LoopOracle)
    requires sid < |w.socks| && w.Registered(pid, req.fd) == Some(sid)
    ensures SettledReply(Enter(w, pid, sid, req, o), pid, req)
  {
    hide Gate;
    hide InitializeRsocket;
    if w.featureRDMA && req.call.Connect? {
      RsocketTouches(w, sid, o);
      var (w1, done) := InitializeRsocket(w, sid, o);
      if !done {
        GateReplies(w1, pid, sid, req, o);
      }
    } else {
      GateReplies(w, pid, sid, req, o);
    }
  }

  /** The process a request comes from, if it can be told. */
  function ProcessOf(w: World, req: Request, o: LoopOracle): int {
    var info := GetPidFdInfo(w, req.pid, o.pid).1;
    if info.Some? then info.value.tgid else 0
  }

  lemma SettleReplies(w: World, req: Request, o: LoopOracle)
    requires Inv(w)
    ensures SettledReply(Settle(w, req, o), ProcessOf(w, req, o), req)
  {
    hide Inv;
    hide Sound;
    hide Enter;
    hide HandleExit;
    hide Register;
    hide Unregister;
    hide StandsAs;
    CachesOnly(w, req.pid, o.pid, ZERO_SOCKADDR, o);
    var (w1, info) := GetPidFdInfo(w, req.pid, o.pid);
    hide GetPidFdInfo;
    CachesSound(w, w1);
    SoundImplies(w, w1);
    if info.Some? {
      var pid := info.value.tgid;
      RegisterSound(w1, pid, req.fd, o.reg);
      var (w2, sid) := Register(w1, pid, req.fd, o.reg);
      if sid.Some? {
        EnterReplies(w2, pid, sid.value, req, o);
      }
    }
  }

  /** Every answered notification tells the truth, on every path. */
  lemma RepliesAgree(w: World, req: Request, o: LoopOracle)
    requires Inv(w) && !HandleReq(w, req, o).stuck
    ensures Agrees(HandleReq(w, req, o), ProcessOf(w, req, o), req.fd, req.call)
  {
    hide Inv;
    hide Sound;
    hide Settle;
    hide Dispatch;
    hide StandsAs;
    hide NamedOnly;
    hide NameWritten;
    hide ProcessOf;
    SettleSound(w, req, o);
    SettleReplies(w, req, o);
    var st := Settle(w, req, o);
    SoundImplies(w, st.w);
    if st.sid.Some? {
      DispatchAgrees(st.w, st.pid, req.fd, st.sid.value, req.call, o);
    }
  }

  // ---------------------------------------------------------------- the state Error

  /** The client policy denies the address, or no host socket was reached, yet. */
  predicate ReachesNothing(s: Sock, cae: AC.Acl, de: D.Dest, draws: seq<Draw>, featureRDMA: bool, k: Kern)
    requires IsAddress(s.remote.ip)
  {
    var classes := de.GetClient(s.remote.ip, s.remote.port);
    || !cae.Apply(s.remote.ip)
    || classes == []
    || var result := Select(s, classes, draws, featureRDMA, k).result; result.AllFailed? || result.StillTrying?
  }

  /** Could the caller's address be read, and does it lead nowhere? */
  predicate ConnectFails(s: Sock, buf: Option<Bytes>, cae: AC.Acl, de: D.Dest, draws: seq<Draw>, featureRDMA: bool, k: Kern) {
    && buf.Some? && Parse(buf.value).Some?
    && ReachesNothing(s.(remote := Parse(buf.value).value), cae, de, draws, featureRDMA, k)
  }

  lemma ConnectInError(s: Sock, buf: Option<Bytes>, cae: AC.Acl, de: D.Dest, draws: seq<Draw>, featureRDMA: bool,
                       sendOk: bool, addFdOk: bool, k: Kern)
    requires s.state == Error
    ensures var c := HandleConnect(s, buf, cae, de, draws, featureRDMA, sendOk, addFdOk, k);
            c.s.state == Error <==> ConnectFails(s, buf, cae, de, draws, featureRDMA, k)
  {
    hide Parse;
    hide Select;
    hide AC.Acl.Apply;
    hide D.Dest.GetClient;
    hide Handshake;
  }

  lemma DoConnectInError(w: World, sid: nat, o: LoopOracle)
    requires sid < |w.socks| && w.socks[sid].state == Error
    ensures var (w1, buf) := ReadMem(w, w.socks[sid].pid, o);
            var w' := DoConnect(w, sid, o).w;
            && sid < |w'.socks|
            && (w'.socks[sid].state == Error <==>
                ConnectFails(w.socks[sid], buf, w.cae, w.de, o.draws, w.featureRDMA, w1.k))
  {
    CachesOnly(w, w.socks[sid].pid, o.pid, ZERO_SOCKADDR, o);
    var (w1, buf) := ReadMem(w, w.socks[sid].pid, o);
    hide ReadMem;
    var c := HandleConnect(w1.socks[sid], buf, w1.cae, w1.de, o.draws, w1.featureRDMA, o.sendOk, o.addfd.Some?, w1.k);
    ConnectInError(w1.socks[sid], buf, w1.cae, w1.de, o.draws, w1.featureRDMA, o.sendOk, o.addfd.Some?, w1.k);
    StuckConnect(w1.socks[sid], buf, w1.cae, w1.de, o.draws, w1.featureRDMA, o.sendOk, o.addfd.Some?, w1.k);
    hide HandleConnect;
    hide ConnectFails;
  }

  /** A connect still trying has changed nothing yet. */
  lemma StuckConnect(s: Sock, buf: Option<Bytes>, cae: AC.Acl, de: D.Dest, draws: seq<Draw>, featureRDMA: bool,
                     sendOk: bool, addFdOk: bool, k: Kern)
    ensures var c := HandleConnect(s, buf, cae, de, draws, featureRDMA, sendOk, addFdOk, k);
            c.stuck ==> c.s == s
  {
    hide Parse;
    hide Select;
    hide AC.Acl.Apply;
    hide D.Dest.GetClient;
    hide Handshake;
  }

  lemma RecordsInError(w: World, pid: int, sid: nat, call: Call, o: LoopOracle)
    requires sid < |w.socks| && w.socks[sid].state == Error && (IsOption(call) || call.Getpeername? || call.Getsockname?)
    ensures var w' := Dispatch(w, pid, sid, call, o).w;
            sid < |w'.socks| && w'.socks[sid].state == Error
  {
    CachesOnly(w, pid, o.pid, w.socks[sid].remote, o);
    CachesOnly(w, pid, o.pid, w.socks[sid].local, o);
    hide ReadMem;
    hide WriteMem;
  }

  lemma OthersInError(w: World, pid: int, sid: nat, call: Call, o: LoopOracle)
    requires sid < |w.socks| && w.socks[sid].state == Error && !call.Connect?
    ensures var w' := Dispatch(w, pid, sid, call, o).w;
            sid < |w'.socks| && (w'.socks[sid].state == Error <==> !call.Listen?)
  {
    if IsOption(call) || call.Getpeername? || call.Getsockname? {
      RecordsInError(w, pid, sid, call, o);
      hide Dispatch;
    }
    hide ReadMem;
    hide HandleBind;
    hide DoConnect;
    hide DoName;
    hide Inject;
    hide ListenEach;
  }

  /** A socket in error stays so under every call but listen, and under a connect if and
      only if its address can be read and is denied or cannot be reached. */
  lemma ErrorIsKeptExactly(w: World, pid: int, sid: nat, call: Call, o: LoopOracle)
    requires sid < |w.socks| && w.socks[sid].state == Error
    ensures var (w1, buf) := ReadMem(w, w.socks[sid].pid, o);
            var w' := Dispatch(w, pid, sid, call, o).w;
            && sid < |w'.socks|
            && (w'.socks[sid].state == Error <==>
                !call.Listen? &&
                (call.Connect? ==> ConnectFails(w.socks[sid], buf, w.cae, w.de, o.draws, w.featureRDMA, w1.k)))
  {
    hide ReadMem;
    hide DoConnect;
    hide ConnectFails;
    if call.Connect? {
      DoConnectInError(w, sid, o);
    } else {
      OthersInError(w, pid, sid, call, o);
      hide Dispatch;
    }
  }
}
