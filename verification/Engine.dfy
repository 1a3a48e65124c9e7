/** One notification handler (`seccomp/notif.go`) with its kernel and its tables, as a
    transition system: a loop step handles one notification, a work step advances
    one accept goroutine, a table step updates a policy or a route, and the rest of
    the host process opens and closes descriptors of its own, and sets options on any. */
module Engine {
  import opened Net
  import opened Sockaddrs
  import opened Kernel
  import opened Socket
  import opened Connect
  import opened Rsocket
  import AC = AccessControl
  import D = Destination

  const DOMAIN_UNIX := 1
  const DOMAIN_INET := 2
  const DOMAIN_INET6 := 10

  // --------------------------------------------------------------------- state

  datatype PidType = PROCESS | THREAD

  datatype PidInfo = PidInfo(pidType: PidType, pidfd: int, tgid: int)

  /** History: a host connection made by connect, its descriptor, and the handshake sent
      over it. */
  datatype Conn = Conn(sid: nat, fd: int, sent: Option<Bytes>)

  /** History: an accepted socket was injected as virtual socket `asid`; or connect
      reached `ip`. */
  datatype Event =
    | Injected(sid: nat, peer: HostSocket, asid: nat, at: nat)
    | Reached(sid: nat, ip: IP, at: nat)

  /** `socks` holds every socketStatus ever made; pointers to them are indices.
      History: `now` counts steps; `lost` is whether some accepted descriptor could
      not be injected, `reused` whether one was injected under a number that was
      still registered. */
  datatype World = World(
    processes: map<int, map<int, nat>>,
    memfds: map<int, int>,
    pidInfos: map<int, PidInfo>,
    socks: seq<Sock>,
    sae: AC.Acl, cae: AC.Acl, de: D.Dest,
    myVIP: IP, featureRDMA: bool,
    k: Kern,
    now: nat, log: seq<Event>, conns: seq<Conn>, lost: bool, reused: bool)
  {
    function SetSock(sid: nat, s: Sock, k: Kern): World
      requires sid < |socks|
    {
      this.(socks := socks[sid := s], k := k)
    }

    function Note(e: Event): World {
      this.(log := log + [e])
    }

    /** `getSocket`. */
    function Registered(pid: int, fd: int): Option<nat> {
      if pid in processes && fd in processes[pid] then Some(processes[pid][fd]) else None
    }
  }

  // ------------------------------------------------------------------- requests

  datatype Call =
    | Bind | Listen | Accept | Accept4 | Connect
    | Setsockopt(level: nat, optname: nat, optlen: nat)
    | Fcntl(cmd: nat, value: nat)
    | Getpeername | Getsockname | Close | Exit | ExitGroup | OtherCall | Undecodable

  datatype Request = Request(pid: int, fd: int, call: Call)

  datatype PidOpen = AsProcess(pidfd: int) | AsThread(tgid: int, tgidfd: int) | NoPid

  datatype SockArgs = SockArgs(domain: int, kind: int, proto: int)

  /** pidfd_open(2) if needed, pidfd_getfd(2), the three getsockopt(2) calls, and
      whether getpeername(2) succeeds. */
  datatype RegOracle = RegOracle(pid: PidOpen, getfd: Option<int>, args: Option<SockArgs>, connected: bool)

  /** The environment during one notification. `reg`, `rereg` and `acc` serve the
      first registration, the renewed one and that of an accepted descriptor. */
  datatype LoopOracle = LoopOracle(
    pid: PidOpen, reg: RegOracle, rereg: RegOracle, acc: RegOracle,
    memfd: Option<int>, data: Option<Bytes>, stored: Option<nat>,
    tries: seq<Try>, listens: set<int>, draws: seq<Draw>, sendOk: bool,
    addfd: Option<nat>, callOk: bool, dup: Option<int>, pair: Option<(int, int)>)

  /** How the handling of a request ends: with a reply; not yet, as accept waits on an
      empty queue or connect is still trying; or in a panic of the process. */
  datatype End = Replied | Waiting | Panicked

  /** The world after a request, the answer, and what was written into the caller's
      memory as a result. */
  datatype Outcome = Outcome(w: World, reply: Reply, wrote: Option<Bytes>, end: End)
  {
    const stuck: bool := end != Replied
  }

  function Answered(w: World, reply: Reply): Outcome { Outcome(w, reply, None, Replied) }

  function Waits(w: World): Outcome { Outcome(w, CONTINUE, None, Waiting) }

  function Panics(w: World): Outcome { Outcome(w, CONTINUE, None, Panicked) }

  // -------------------------------------------------------------------- caches

  function AddPid(w: World, pid: int, info: PidInfo): World {
    w.(pidInfos := w.pidInfos[pid := info], k := w.k.Open(info.pidfd, Pid(pid)))
  }

  /** `getPidFdInfo`. */
  function GetPidFdInfo(w: World, pid: int, o: PidOpen): (World, Option<PidInfo>) {
    if pid in w.pidInfos then (w, Some(w.pidInfos[pid]))
    else
      match o
      case AsProcess(fd) => var info := PidInfo(PROCESS, fd, pid); (AddPid(w, pid, info), Some(info))
      case AsThread(tgid, fd) => var info := PidInfo(THREAD, fd, tgid); (AddPid(w, pid, info), Some(info))
      case NoPid => (w, None)
  }

  /** `openMem`. */
  function OpenMem(w: World, pid: int, memfd: Option<int>): (World, bool) {
    if pid in w.memfds then (w, true)
    else if memfd.None? then (w, false)
    else (w.(memfds := w.memfds[pid := memfd.value], k := w.k.Open(memfd.value, Mem(pid))), true)
  }

  /** `readProcMem`. */
  function ReadMem(w: World, pid: int, o: LoopOracle): (World, Option<Bytes>) {
    var (w1, ok) := OpenMem(w, pid, o.memfd);
    (w1, if ok then o.data else None)
  }

  /** `writeSockaddrToProcess`: what is stored in the caller's memory, which a short write
      leaves incomplete. It succeeds if that is the whole image. */
  function WriteMem(w: World, pid: int, sa: Sockaddr, o: LoopOracle): (World, Option<Bytes>) {
    var image := Print(sa);
    if image.None? then (w, None)
    else
      var (w1, ok) := OpenMem(w, pid, o.memfd);
      if !ok || o.stored.None? then (w1, None)
      else (w1, Some(if o.stored.value < |image.value| then image.value[..o.stored.value] else image.value))
  }

  // -------------------------------------------------------------- registration

  function FirstState(o: RegOracle): SocketState {
    if o.args.None? then NotBypassable
    else if o.args.value.domain != DOMAIN_INET && o.args.value.domain != DOMAIN_INET6 then NotBypassable
    else if o.args.value.kind != SOCK_STREAM then NotBypassable
    else if o.connected then NotBypassable
    else NotBypassed
  }

  function Register1(w: World, pid: int, fd: int, o: RegOracle): World
    requires pid in w.processes
  {
    var args := if o.args.None? then SockArgs(0, 0, 0) else o.args.value;
    var fds: map<int, nat> := w.processes[pid][fd := |w.socks|];
    w.(socks := w.socks + [NewSock(FirstState(o), pid, fd, args.domain, args.kind, args.proto)],
       processes := w.processes[pid := fds])
  }

  function KnowProcess(w: World, pid: int): World {
    if pid in w.processes then w else w.(processes := w.processes[pid := map[]])
  }

  /** `registerSocket`; the descriptor fetched for inspection is closed again. */
  function Register(w: World, pid: int, fd: int, o: RegOracle): (World, Option<nat>) {
    var w1 := KnowProcess(w, pid);
    if fd in w1.processes[pid] then (w1, Some(w1.processes[pid][fd]))
    else if pid in w1.pidInfos && w1.pidInfos[pid].pidType.THREAD? then (w1, None)
    else
      var (w2, info) := GetPidFdInfo(w1, pid, o.pid);
      if info.None? || o.getfd.None? then (w2, None)
      else
        var k := w2.k.Open(o.getfd.value, Loose).Close(o.getfd.value, Loose);
        (Register1(w2.(k := k), pid, fd, o), Some(|w2.socks|))
  }

  function RemoveSid(w: World, sid: nat): World
    requires sid < |w.socks|
  {
    var s := w.socks[sid];
    w.SetSock(sid, Removed(s), CloseEach(s, sid, |s.hs|, w.k))
  }

  /** `notifHandler.removeSocket`. */
  function Unregister(w: World, pid: int, fd: int): World {
    if pid !in w.processes then w
    else
      var w1 := if fd in w.processes[pid] && w.processes[pid][fd] < |w.socks| then RemoveSid(w, w.processes[pid][fd]) else w;
      var fds: map<int, nat> := w1.processes[pid] - {fd};
      w1.(processes := w1.processes[pid := fds])
  }

  function RemoveEach(w: World, sids: set<nat>, n: nat): (r: World)
    requires n <= |w.socks|
    ensures |r.socks| == |w.socks|
  {
    if n == 0 then w
    else
      var w1 := RemoveEach(w, sids, n - 1);
      if n - 1 in sids then RemoveSid(w1, n - 1) else w1
  }

  function DropPid(w: World, pid: int): World {
    if pid in w.pidInfos
    then w.(k := w.k.Close(w.pidInfos[pid].pidfd, Pid(pid)), pidInfos := w.pidInfos - {pid})
    else w
  }

  function DropMem(w: World, pid: int): World {
    if pid in w.memfds
    then w.(k := w.k.Close(w.memfds[pid], Mem(pid)), memfds := w.memfds - {pid})
    else w
  }

  /** The sockets registered for a process. */
  function SidsOf(w: World, pid: int): set<nat>
    requires pid in w.processes
  {
    set fd | fd in w.processes[pid] :: w.processes[pid][fd]
  }

  function DropProcess(w: World, pid: int): World {
    if pid in w.processes
    then RemoveEach(w, SidsOf(w, pid), |w.socks|).(processes := w.processes - {pid})
    else w
  }

  /** Process or thread exit. */
  function HandleExit(w: World, pid: int, info: PidInfo): World {
    var w1 := DropPid(w, pid);
    if info.pidType.THREAD? then w1 else DropMem(DropProcess(w1, info.tgid), info.tgid)
  }

  // -------------------------------------------------------------------- handlers

  function Lift(w: World, sid: nat, h: Handled): Outcome
    requires sid < |w.socks|
  {
    Answered(w.SetSock(sid, h.s, h.k), h.reply)
  }

  /** A socket pair is made for the control channel, and one end injected if possible. */
  function TakeOver(w: World, sid: nat, pair: (int, int), injected: bool): World
    requires sid < |w.socks|
  {
    w.SetSock(sid, w.socks[sid].(state := if injected then Bypassed else NotBypassable),
              w.k.Open(pair.0, Loose).Open(pair.1, Loose))
  }

  /** `initializeRsocket`: is this connect for the RDMA control channel? */
  function InitializeRsocket(w: World, sid: nat, o: LoopOracle): (World, bool)
    requires sid < |w.socks|
  {
    var s := w.socks[sid];
    if s.sockDomain != DOMAIN_UNIX || s.sockType != SOCK_STREAM then (w, false)
    else
      var (w1, buf) := ReadMem(w, s.pid, o);
      if buf.None? || UnixPath(buf.value) != Some(CONTROL_PATH) || o.pair.None? then (w1, false)
      else
        (TakeOver(w1, sid, o.pair.value, o.addfd.Some?), o.addfd.Some?)
  }

  function DoName(w: World, pid: int, sa: Sockaddr, o: LoopOracle): Outcome {
    var (w1, wrote) := WriteMem(w, pid, sa, o);
    Outcome(w1, if wrote.Some? && wrote == Print(sa) then Emulated(0) else CONTINUE, wrote, Replied)
  }

  function DoBind(w: World, pid: int, sid: nat, o: LoopOracle): Outcome
    requires sid < |w.socks|
  {
    if w.socks[sid].state != NotBypassed then Answered(w, Fails(EINVAL))
    else
      var (w1, buf) := ReadMem(w, pid, o);
      Lift(w1, sid, HandleBind(w1.socks[sid], sid, buf, w1.de, o.tries, w1.featureRDMA, w1.k))
  }

  /** The world after connect, with what history records of it. */
  function Dialled(w: World, sid: nat, c: Connected): World
    requires sid < |w.socks|
  {
    w.(socks := w.socks[sid := c.s], k := c.k,
       conns := w.conns + if c.dialed.Some? then [Conn(sid, c.dialed.value, c.sent)] else [],
       log := w.log + if c.s.state.Bypassed? && IsAddress(c.s.remote.ip) then [Reached(sid, c.s.remote.ip, w.now)] else [])
  }

  function DoConnect(w: World, sid: nat, o: LoopOracle): Outcome
    requires sid < |w.socks|
  {
    var (w1, buf) := ReadMem(w, w.socks[sid].pid, o);
    var c := HandleConnect(w1.socks[sid], buf, w1.cae, w1.de, o.draws, w1.featureRDMA, o.sendOk, o.addfd.Some?, w1.k);
    if c.stuck then Waits(w) else Answered(Dialled(w1, sid, c), c.reply)
  }

  function DoSetsockopt(w: World, pid: int, sid: nat, level: nat, optname: nat, optlen: nat, o: LoopOracle): Outcome
    requires sid < |w.socks|
  {
    var (w1, optval) := ReadMem(w, pid, o);
    var opt := if optval.None? then None else Some(SockOpt(level, optname, optval.value, optlen));
    Lift(w1, sid, HandleSetsockopt(w1.socks[sid], opt, o.callOk, w1.k))
  }

  function DoFcntl(w: World, sid: nat, cmd: nat, value: nat, o: LoopOracle): Outcome
    requires sid < |w.socks|
  {
    Lift(w, sid, HandleFcntl(w.socks[sid], cmd, value, o.callOk, o.dup, w.k))
  }

  /** The accepted host socket could not be injected: it is closed, but stays in the
      table of host sockets. */
  function Lose(w: World, sid: nat, h: HostSocket): World
    requires sid < |w.socks|
  {
    w.SetSock(sid, w.socks[sid].(state := NotBypassable), w.k.Close(h.sockfd, Host(sid))).(lost := true)
  }

  /** The socket registered for the accepted descriptor answers for peer `h` from now
      on, bypassed and under the listener's name. */
  function Adopt(w: World, sid: nat, asid: nat, peer: Sockaddr, h: HostSocket): World
    requires sid < |w.socks| && asid < |w.socks|
  {
    w.SetSock(asid, w.socks[asid].(state := Bypassed, local := w.socks[sid].local, remote := peer), w.k)
     .Note(Injected(sid, h, asid, w.now))
  }

  /** ... and the host socket leaves the listener's table and is closed here. */
  function Release(w: World, sid: nat, h: HostSocket): World
    requires sid < |w.socks|
  {
    var s := w.socks[sid];
    w.SetSock(sid, s.(hostSockets := s.hostSockets - {h.sockfd}), w.k.Close(h.sockfd, Host(sid)))
  }

  function PeerAddress(s: Sock, h: HostSocket): Option<Sockaddr> {
    FromIPPort(s.local.family, h.entry.vip, h.entry.vport, s.local.flowinfo, s.local.scopeID)
  }

  /** The head of the queue was taken and injected as `newfd`. Registering it and
      spelling its address are assumed to succeed: the source dereferences both
      results either way. */
  function Inject(w: World, pid: int, sid: nat, h: HostSocket, newfd: nat, o: LoopOracle): Outcome
    requires sid < |w.socks|
  {
    var (w1, asid) := Register(w, pid, newfd, o.acc);
    var peer := PeerAddress(w.socks[sid], h);
    if asid.None? || asid.value >= |w1.socks| || sid >= |w1.socks| || peer.None? then Panics(w)
    else
      var (w2, wrote) := WriteMem(w1, pid, peer.value, o);
      if sid >= |w2.socks| || asid.value >= |w2.socks| then Panics(w)
      else
        var w3 := w2.(reused := w2.reused || w.Registered(pid, newfd).Some?);
        Outcome(Release(Adopt(w3, sid, asid.value, peer.value, h), sid, h), Emulated(newfd), wrote, Replied)
  }

  function Dequeue(s: Sock): Sock
    requires s.queue != []
  {
    s.(queue := s.queue[1..], dequeued := s.dequeued + [s.queue[0]])
  }

  /** `handleSysAcceptWithFlags`. */
  function DoAccept(w: World, pid: int, sid: nat, o: LoopOracle): Outcome
    requires sid < |w.socks|
  {
    var s := w.socks[sid];
    if s.state == NotBypassable then Answered(w, CONTINUE)
    else if s.state != Listening then Answered(w, Fails(EINVAL))
    else if s.queue == [] then Waits(w)
    else if s.queue[0] >= |s.hs| then Panics(w)
    else
      var h := s.hs[s.queue[0]];
      var w1 := w.SetSock(sid, Dequeue(s), w.k);
      if h.state != HostSocketAccepted then
        Answered(w1.SetSock(sid, Dequeue(s).(state := NotBypassable), w1.k), CONTINUE)
      else if o.addfd.None? then Answered(Lose(w1, sid, h), CONTINUE)
      else
        var out := Inject(w1, pid, sid, h, o.addfd.value, o);
        if out.stuck then Panics(w) else out
  }

  // -------------------------------------------------------------------- dispatch

  function Dispatch(w: World, pid: int, sid: nat, call: Call, o: LoopOracle): Outcome
    requires sid < |w.socks|
  {
    var s := w.socks[sid];
    match call
    case Bind => DoBind(w, pid, sid, o)
    case Listen => Lift(w, sid, HandleListen(s, o.listens, w.featureRDMA, w.k))
    case Accept => DoAccept(w, pid, sid, o)
    case Accept4 => DoAccept(w, pid, sid, o)
    case Connect => DoConnect(w, sid, o)
    case Setsockopt(level, optname, optlen) => DoSetsockopt(w, pid, sid, level, optname, optlen, o)
    case Fcntl(cmd, value) => DoFcntl(w, sid, cmd, value, o)
    case Getpeername => DoName(w, pid, s.remote, o)
    case Getsockname => DoName(w, pid, s.local, o)
    case _ => Answered(w, CONTINUE)
  }

  /** Where a notification gets to before its handler is called: the process is known,
      the socket registered, the call let through by the gates. If it gets that far,
      `sid` is the socket the handler is called on; otherwise `reply` is the answer. */
  datatype Setting = Setting(w: World, pid: int, sid: Option<nat>, reply: Reply)

  function Over(w: World, reply: Reply): Setting { Setting(w, 0, None, reply) }

  /** Gating by state. A descriptor that is not bypassable is registered afresh when
      it is bound or connected: its number may have been reused unnoticed. */
  function Gate(w: World, pid: int, sid: nat, req: Request, o: LoopOracle): Setting
    requires sid < |w.socks|
  {
    match w.socks[sid].state
    case NotBypassable =>
      if !(req.call.Connect? || req.call.Bind?) then Over(w, CONTINUE)
      else
        var (w1, sid1) := Register(Unregister(w, pid, req.fd), pid, req.fd, o.rereg);
        if sid1.None? || sid1.value >= |w1.socks| then Over(w1, CONTINUE)
        else if w1.socks[sid1.value].state != NotBypassed then Over(w1, CONTINUE)
        else Setting(w1, pid, sid1, CONTINUE)
    case Bypassed =>
      if req.call.Getpeername? || req.call.Getsockname? then Setting(w, pid, Some(sid), CONTINUE) else Over(w, CONTINUE)
    case _ => Setting(w, pid, Some(sid), CONTINUE)
  }

  /** A connect may be taken over for the RDMA control channel. */
  function Enter(w: World, pid: int, sid: nat, req: Request, o: LoopOracle): Setting
    requires sid < |w.socks|
  {
    if w.featureRDMA && req.call.Connect? then
      var (w1, done) := InitializeRsocket(w, sid, o);
      if done then Over(w1, Emulated(0))
      else if sid < |w1.socks| then Gate(w1, pid, sid, req, o)
      else Over(w1, CONTINUE)
    else Gate(w, pid, sid, req, o)
  }

  function Settle(w: World, req: Request, o: LoopOracle): Setting {
    if req.call.Undecodable? then Over(w, CONTINUE)
    else
      var (w1, info) := GetPidFdInfo(w, req.pid, o.pid);
      if info.None? then Over(w1, CONTINUE)
      else if req.call.Exit? || req.call.ExitGroup? then Over(HandleExit(w1, req.pid, info.value), CONTINUE)
      else if req.call.Close? then Over(Unregister(w1, info.value.tgid, req.fd), CONTINUE)
      else
        var pid := info.value.tgid;
        var (w2, sid) := Register(w1, pid, req.fd, o.reg);
        if sid.None? || sid.value >= |w2.socks| then Over(w2, CONTINUE)
        else Enter(w2, pid, sid.value, req, o)
  }

  /** `handleReq`. */
  function HandleReq(w: World, req: Request, o: LoopOracle): Outcome {
    var st := Settle(w, req, o);
    if st.sid.None? || st.sid.value >= |st.w.socks| then Answered(st.w, st.reply)
    else Dispatch(st.w, st.pid, st.sid.value, req.call, o)
  }

  // ----------------------------------------------------------------------- steps

  datatype Step =
    | Loop(req: Request, o: LoopOracle)
    | Worker(sid: nat, wi: nat, wo: WorkOracle)
    | ServerPolicy(aop: AC.Op)
    | ClientPolicy(cop: AC.Op)
    | Route(rop: D.Op)
    | EnvOpens(fd: int)
    | EnvCloses(fd: int)
    | EnvSets(fd: int, opt: HostOpt)

  function Do(w: World, st: Step): World {
    match st
    case Loop(req, o) => HandleReq(w, req, o).w
    case Worker(sid, wi, wo) =>
      if sid < |w.socks| && wi < |w.socks[sid].workers| && w.socks[sid].workers[wi].listener < |w.socks[sid].hs| then
        var (s, k) := WorkStep(w.socks[sid], sid, wi, wo, w.sae, w.now, w.k);
        w.SetSock(sid, s, k)
      else w
    case ServerPolicy(op) => w.(sae := AC.Do(w.sae, op))
    case ClientPolicy(op) => w.(cae := AC.Do(w.cae, op))
    case Route(op) => if D.Do(w.de, op).Some? then w.(de := D.Do(w.de, op).value) else w
    case EnvOpens(fd) => w.(k := w.k.Open(fd, Env))
    case EnvCloses(fd) => if Holds(w.k, fd, Env) then w.(k := w.k.Close(fd, Env)) else w
    case EnvSets(fd, opt) => w.(k := w.k.Set(fd, [opt]))
  }

  function Next(w: World, st: Step): World {
    Do(w, st).(now := w.now + 1)
  }

  function Init(myVIP: IP, featureRDMA: bool, serverDefault: bool, clientDefault: bool): World {
    World(map[], map[], map[], [], AC.Acl(serverDefault, map[]), AC.Acl(clientDefault, map[]), D.Empty(myVIP, featureRDMA),
          myVIP, featureRDMA, Kern(map[], map[], map[], true, 0), 0, [], [], false, false)
  }

  /** The world after the first `n` steps of a run. */
  function After(w0: World, run: seq<Step>, n: nat): World
    requires n <= |run|
  {
    if n == 0 then w0 else Next(After(w0, run, n - 1), run[n - 1])
  }
}
