/** `notifHandler` of `seccomp/notif.go` as the object it is, each method against its
    specification in `Engine`. */
module NotifHandlers {
  import opened Net
  import opened Sockaddrs
  import opened Kernel
  import opened Socket
  import opened Connect
  import opened Rsocket
  import opened Engine
  import opened SocketStatuses
  import opened Invariant
  import AC = AccessControl
  import D = Destination

  ghost function Socks(ss: seq<SocketStatus>): (r: seq<Sock>)
    reads ss
    ensures |r| == |ss| && forall i | 0 <= i < |ss| :: r[i] == ss[i].Abs()
  {
    seq(|ss|, i requires 0 <= i < |ss| reads ss => ss[i].Abs())
  }

  /** `sockets` holds every socketStatus ever made; pointers to them, in `processes`, are
      indices. */
  class NotifHandler {
    var processes: map<int, map<int, nat>>
    var memfds: map<int, int>
    var pidInfos: map<int, PidInfo>
    var sockets: seq<SocketStatus>
    const sae: AC.Entries
    const cae: AC.Entries
    const de: D.Entries
    const myVIP: IP
    const featureRDMA: bool
    var k: Kern
    ghost var now: nat
    ghost var log: seq<Event>
    ghost var conns: seq<Conn>
    ghost var lost: bool
    ghost var reused: bool

    ghost predicate Valid()
      reads this`sockets, sae, cae, de
    {
      && sae.Valid() && cae.Valid() && de.Valid()
      && (forall i, j | 0 <= i < j < |sockets| :: sockets[i] != sockets[j])
    }

    ghost function Abs(): World
      reads this, sockets, sae, cae, de
    {
      World(processes, memfds, pidInfos, Socks(sockets), sae.Table, cae.Table, de.Table, myVIP, featureRDMA, k,
            now, log, conns, lost, reused)
    }

    constructor (sae: AC.Entries, cae: AC.Entries, de: D.Entries, k: Kern)
      requires sae.Valid() && cae.Valid() && de.Valid()
      ensures Valid() && Abs() == World(map[], map[], map[], [], sae.Table, cae.Table, de.Table, de.myVIP, de.featureRDMA, k,
                                        0, [], [], false, false)
    {
      processes, memfds, pidInfos, sockets := map[], map[], map[], [];
      this.sae, this.cae, this.de, this.k := sae, cae, de, k;
      myVIP, featureRDMA := de.myVIP, de.featureRDMA;
      now, log, conns, lost, reused := 0, [], [], false, false;
    }

    // -------------------------------------------------------------------- caches

    /** `getPidFdInfo`. */
    method GetPidFdInfo(pid: int, o: PidOpen) returns (info: Option<PidInfo>)
      requires Valid()
      modifies this`pidInfos, this`k
      ensures Valid() && (Abs(), info) == Engine.GetPidFdInfo(old(Abs()), pid, o)
    {
      if pid in pidInfos {
        return Some(pidInfos[pid]);
      }
      match o
      case AsProcess(fd) =>
        k := k.Open(fd, Pid(pid));
        pidInfos := pidInfos[pid := PidInfo(PROCESS, fd, pid)];
        info := Some(pidInfos[pid]);
      case AsThread(tgid, fd) =>
        k := k.Open(fd, Pid(pid));
        pidInfos := pidInfos[pid := PidInfo(THREAD, fd, tgid)];
        info := Some(pidInfos[pid]);
      case NoPid =>
        info := None;
    }

    /** `openMem`. */
    method OpenMem(pid: int, memfd: Option<int>) returns (ok: bool)
      modifies this`memfds, this`k
      ensures (Abs(), ok) == Engine.OpenMem(old(Abs()), pid, memfd)
    {
      if pid in memfds {
        return true;
      }
      if memfd.None? {
        return false;
      }
      k := k.Open(memfd.value, Mem(pid));
      memfds := memfds[pid := memfd.value];
      ok := true;
    }

    /** `readProcMem`. */
    method ReadProcMem(pid: int, o: LoopOracle) returns (buf: Option<Bytes>)
      modifies this`memfds, this`k
      ensures (Abs(), buf) == ReadMem(old(Abs()), pid, o)
    {
      var ok := OpenMem(pid, o.memfd);
      buf := if ok then o.data else None;
    }

    /** `writeSockaddrToProcess`. */
    method WriteSockaddrToProcess(pid: int, sa: Sockaddr, o: LoopOracle) returns (wrote: Option<Bytes>)
      modifies this`memfds, this`k
      ensures (Abs(), wrote) == WriteMem(old(Abs()), pid, sa, o)
    {
      var image := SockaddrToByte(sa);
      if image.None? {
        return None;
      }
      var ok := OpenMem(pid, o.memfd);
      if !ok || o.stored.None? {
        return None;
      }
      wrote := Some(if o.stored.value < |image.value| then image.value[..o.stored.value] else image.value);
    }

    // -------------------------------------------------------------- registration

    /** The state of a newly registered socket, by what the kernel says of it. */
    method Inspect(sock: SocketStatus, o: RegOracle)
      requires sock.state == NotBypassed
      modifies sock`state
      ensures sock.Abs() == old(sock.Abs()).(state := FirstState(o))
      ensures sock.state == if o.args.Some? && (o.args.value.domain == 2 || o.args.value.domain == 10) &&
                               o.args.value.kind == 1 && !o.connected then NotBypassed else NotBypassable
    {
      if o.args.None? {
        sock.state := NotBypassable;
      } else {
        var args := o.args.value;
        if args.domain != DOMAIN_INET && args.domain != DOMAIN_INET6 {
          sock.state := NotBypassable;
        } else if args.kind != SOCK_STREAM {
          sock.state := NotBypassable;
        } else if o.connected {
          sock.state := NotBypassable;
        }
      }
    }

    /** A new socketStatus. */
    method NewSocket(pid: int, sockfd: int, args: SockArgs, o: RegOracle) returns (sock: SocketStatus)
      ensures fresh(sock) && sock.Abs() == NewSock(FirstState(o), pid, sockfd, args.domain, args.kind, args.proto)
    {
      hide FirstState;
      sock := new SocketStatus(pid, sockfd, args.domain, args.kind, args.proto);
      Inspect(sock, o);
    }

    /** ... registered under its process and number. */
    method AddSocket(pid: int, sockfd: int, o: RegOracle)
      requires Valid() && pid in processes
      modifies this`processes, this`sockets
      ensures Valid() && old(sockets) <= sockets && forall i | |old(sockets)| <= i < |sockets| :: fresh(sockets[i])
      ensures Abs() == Register1(old(Abs()), pid, sockfd, o)
    {
      hide FirstState;
      hide SocketStatus.Abs;
      var args := if o.args.None? then SockArgs(0, 0, 0) else o.args.value;
      var sock := NewSocket(pid, sockfd, args, o);
      var fds: map<int, nat> := processes[pid][sockfd := |sockets|];
      processes := processes[pid := fds];
      sockets := sockets + [sock];
      assert Socks(sockets) == old(Socks(sockets)) + [sock.Abs()];
    }

    method KnowProcess(pid: int)
      modifies this`processes
      ensures Abs() == Engine.KnowProcess(old(Abs()), pid)
    {
      if pid !in processes {
        processes := processes[pid := map[]];
      }
    }

    /** A descriptor of the container's process is fetched, and later closed again. */
    method FetchFd(fd: int)
      requires Valid()
      modifies this`k
      ensures Valid() && Abs() == old(Abs()).(k := old(k).Open(fd, Loose)) && k == old(k).Open(fd, Loose)
    {
      k := k.Open(fd, Loose);
    }

    method PutBackFd(fd: int)
      requires Valid()
      modifies this`k
      ensures Valid() && Abs() == old(Abs()).(k := old(Abs()).k.Close(fd, Loose))
    {
      k := k.Close(fd, Loose);
    }

    /** The descriptor is fetched, inspected, registered, and closed again. */
    method FetchAndAdd(pid: int, sockfd: int, fd: int, o: RegOracle)
      requires Valid() && pid in processes
      modifies this`processes, this`sockets, this`k
      ensures Valid() && old(sockets) <= sockets && forall i | |old(sockets)| <= i < |sockets| :: fresh(sockets[i])
      ensures Abs() == Register1(old(Abs()).(k := old(k).Open(fd, Loose).Close(fd, Loose)), pid, sockfd, o)
    {
      assert pid in Abs().processes;
      hide *;
      Register1Commutes(Abs(), k.Open(fd, Loose), k.Open(fd, Loose).Close(fd, Loose), pid, sockfd, o);
      FetchFd(fd);
      AddSocket(pid, sockfd, o);
      PutBackFd(fd);
    }

    /** `registerSocket`. */
    method RegisterSocket(pid: int, sockfd: int, o: RegOracle) returns (r: Option<nat>)
      requires Valid()
      modifies this`processes, this`sockets, this`pidInfos, this`k
      ensures Valid() && old(sockets) <= sockets && forall i | |old(sockets)| <= i < |sockets| :: fresh(sockets[i])
      ensures (Abs(), r) == Register(old(Abs()), pid, sockfd, o)
    {
      RegisterCases(Abs(), pid, sockfd, o);
      hide Register;
      hide Engine.GetPidFdInfo;
      hide Register1;
      hide Socks;
      KnowProcess(pid);
      assert pid in processes;
      if sockfd in processes[pid] {
        return Some(processes[pid][sockfd]);
      }
      if pid in pidInfos && pidInfos[pid].pidType == THREAD {
        return None;
      }
      PidOnly(Abs(), pid, o.pid);
      var info := GetPidFdInfo(pid, o.pid);
      if info.None? || o.getfd.None? {
        return None;
      }
      r := Some(|sockets|);
      FetchAndAdd(pid, sockfd, o.getfd.value, o);
    }

    /** One virtual socket is removed. */
    method RemoveOne(sid: nat)
      requires Valid() && sid < |sockets|
      modifies this`k, sockets
      ensures Valid() && Abs() == RemoveSid(old(Abs()), sid)
    {
      hide CloseEach;
      hide Removed;
      k := sockets[sid].RemoveSocket(sid, k);
      assert Socks(sockets) == old(Socks(sockets))[sid := sockets[sid].Abs()];
    }

    /** `removeSocket`. */
    method RemoveSocket(pid: int, sockfd: int)
      requires Valid()
      modifies this`processes, this`k, sockets
      ensures Valid() && Abs() == Unregister(old(Abs()), pid, sockfd)
    {
      hide RemoveSid;
      hide Socks;
      hide NotifHandler.Valid;
      if pid !in processes {
        return;
      }
      if sockfd in processes[pid] && processes[pid][sockfd] < |sockets| {
        RemoveOne(processes[pid][sockfd]);
        RemoveSidKeeps(old(Abs()), processes[pid][sockfd]);
      }
      processes := processes[pid := processes[pid] - {sockfd}];
    }

    method ClosePid(pid: int)
      modifies this`pidInfos, this`k
      ensures Abs() == DropPid(old(Abs()), pid)
    {
      if pid in pidInfos {
        k := k.Close(pidInfos[pid].pidfd, Pid(pid));
        pidInfos := pidInfos - {pid};
      }
    }

    method CloseMem(pid: int)
      modifies this`memfds, this`k
      ensures Abs() == DropMem(old(Abs()), pid)
    {
      if pid in memfds {
        k := k.Close(memfds[pid], Mem(pid));
        memfds := memfds - {pid};
      }
    }

    method RemoveAll(sids: set<nat>)
      requires Valid()
      modifies this`k, sockets
      ensures Valid() && Abs() == RemoveEach(old(Abs()), sids, |sockets|)
    {
      hide RemoveSid;
      hide Socks;
      hide NotifHandler.Valid;
      ghost var w := Abs();
      var n := |sockets|;
      for i := 0 to n
        invariant Valid() && sockets == old(sockets)
        invariant Abs() == RemoveEach(w, sids, i)
      {
        if i in sids {
          RemoveOne(i);
        }
      }
    }

    method RemoveProcess(pid: int)
      requires Valid()
      modifies this`processes, this`k, sockets
      ensures Valid() && sockets == old(sockets) && Abs() == DropProcess(old(Abs()), pid)
    {
      hide Socks;
      if pid in processes {
        ghost var w := Abs();
        var sids: set<nat> := set fd | fd in processes[pid] :: processes[pid][fd];
        assert sids == SidsOf(w, pid);
        hide RemoveEach;
        RemoveAll(sids);
        processes := processes - {pid};
      }
    }

    /** The cleanup of `handleReq` when a thread or process exits. */
    method Exit(pid: int, info: PidInfo)
      requires Valid()
      modifies this`processes, this`pidInfos, this`memfds, this`k, sockets
      ensures Valid() && sockets == old(sockets) && Abs() == HandleExit(old(Abs()), pid, info)
    {
      hide DropPid;
      hide DropProcess;
      hide DropMem;
      ClosePid(pid);
      if info.pidType == PROCESS {
        RemoveProcess(info.tgid);
        CloseMem(info.tgid);
      }
    }

    /** One virtual socket changes its state only. */
    method SetState(sid: nat, state: SocketState)
      requires Valid() && sid < |sockets|
      modifies sockets[sid]
      ensures Valid() && Abs() == old(Abs()).SetSock(sid, old(Abs()).socks[sid].(state := state), k)
    {
      sockets[sid].state := state;
      assert Socks(sockets) == old(Socks(sockets))[sid := sockets[sid].Abs()];
    }

    // ------------------------------------------------------------------ handlers

    /** The control socket pair, one end of which may be injected. */
    method PairUp(sid: nat, pair: (int, int), injected: bool)
      requires Valid() && sid < |sockets|
      modifies this`k, sockets[sid]
      ensures Valid() && Abs() == TakeOver(old(Abs()), sid, pair, injected)
    {
      hide Socks;
      hide NotifHandler.Valid;
      hide Kern.Open;
      k := k.Open(pair.0, Loose).Open(pair.1, Loose);
      if injected {
        SetState(sid, Bypassed);
      } else {
        SetState(sid, NotBypassable);
      }
    }

    /** Is the address in the caller's memory the control path? */
    method ReadsControlPath(pid: int, o: LoopOracle) returns (found: bool)
      requires Valid()
      modifies this`memfds, this`k
      ensures Valid()
      ensures var (w, buf) := ReadMem(old(Abs()), pid, o);
              Abs() == w && (found <==> buf.Some? && UnixPath(buf.value) == Some(CONTROL_PATH))
    {
      hide ReadMem;
      hide UnixPath;
      hide Socks;
      var buf := ReadProcMem(pid, o);
      if buf.None? {
        return false;
      }
      var path := GetSockaddrUnixPath(buf.value);
      found := path == Some(CONTROL_PATH);
    }

    /** `initializeRsocket`. */
    method InitRsocket(sid: nat, o: LoopOracle) returns (done: bool)
      requires Valid() && sid < |sockets|
      modifies this`memfds, this`k, sockets
      ensures Valid() && sockets == old(sockets) && (Abs(), done) == InitializeRsocket(old(Abs()), sid, o)
    {
      hide ReadMem;
      hide UnixPath;
      hide TakeOver;
      hide Socks;
      var sock := sockets[sid];
      assert Abs().socks[sid] == sock.Abs();
      MemOnly(Abs(), sock.pid, o);
      hide NotifHandler.Valid;
      if sock.sockDomain != DOMAIN_UNIX || sock.sockType != SOCK_STREAM {
        return false;
      }
      var found := ReadsControlPath(sock.pid, o);
      if !found || o.pair.None? {
        return false;
      }
      PairUp(sid, o.pair.value, o.addfd.Some?);
      done := o.addfd.Some?;
    }

    /** Receive from the channel. */
    method TakeHead(sid: nat) returns (hid: nat)
      requires Valid() && sid < |sockets| && sockets[sid].acceptedSockets != []
      modifies sockets[sid]
      ensures Valid() && Abs() == old(Abs()).SetSock(sid, Dequeue(old(Abs()).socks[sid]), k)
      ensures hid == old(Abs()).socks[sid].queue[0]
    {
      var sock := sockets[sid];
      hid := sock.acceptedSockets[0];
      sock.acceptedSockets, sock.dequeued := sock.acceptedSockets[1..], sock.dequeued + [hid];
      assert Socks(sockets) == old(Socks(sockets))[sid := sock.Abs()];
    }

    /** The host socket taken could not be injected. */
    method LoseAccepted(sid: nat, hs: HostSocket)
      requires Valid() && sid < |sockets|
      modifies this`k, this`lost, sockets[sid]
      ensures Valid() && Abs() == Lose(old(Abs()), sid, hs)
    {
      hide Socks;
      SetState(sid, NotBypassable);
      k := k.Close(hs.sockfd, Host(sid));
      lost := true;
    }

    /** `handleSysAcceptWithFlags`. With nothing in the channel it is waiting, and nothing
        has happened yet. */
    method HandleSysAccept(pid: int, sid: nat, o: LoopOracle) returns (reply: Reply, wrote: Option<Bytes>, end: End)
      requires Valid() && sid < |sockets|
      requires !DoAccept(Abs(), pid, sid, o).end.Panicked?
      modifies this, sockets
      ensures Valid() && old(sockets) <= sockets && forall i | |old(sockets)| <= i < |sockets| :: fresh(sockets[i])
      ensures DoAccept(old(Abs()), pid, sid, o) == Outcome(Abs(), reply, wrote, end)
    {
      hide NotifHandler.Valid;
      hide DoAccept;
      hide Engine.Inject;
      hide Lose;
      hide Socks;
      hide Dequeue;
      AcceptCases(Abs(), pid, sid, o);
      end := Replied;
      var state := sockets[sid].state;
      assert Abs().socks[sid] == sockets[sid].Abs();
      if state == NotBypassable {
        return CONTINUE, None, Replied;
      }
      if state != Listening {
        return Fails(EINVAL), None, Replied;
      }
      if sockets[sid].acceptedSockets == [] {
        return CONTINUE, None, Waiting;
      }
      var hs := sockets[sid].objs[sockets[sid].acceptedSockets[0]];
      var hid := TakeHead(sid);
      wrote := None;
      if hs.state != HostSocketAccepted {
        SetState(sid, NotBypassable);
        reply := CONTINUE;
      } else if o.addfd.None? {
        LoseAccepted(sid, hs);
        reply := CONTINUE;
      } else {
        wrote := InjectAccepted(pid, sid, hs, o.addfd.value, o);
        reply := Emulated(o.addfd.value);
      }
    }

    /** The socket registered for an accepted descriptor takes its names. */
    method AdoptAccepted(sid: nat, asid: nat, srcAddr: Sockaddr, hs: HostSocket)
      requires Valid() && sid < |sockets| && asid < |sockets|
      modifies this`log, sockets[asid]
      ensures Valid() && Abs() == Adopt(old(Abs()), sid, asid, srcAddr, hs)
    {
      var asock := sockets[asid];
      assert Abs().socks[sid].local == sockets[sid].localVAddr;
      hide SocketStatus.Abs;
      asock.TakeNames(sockets[sid].localVAddr, srcAddr);
      log := log + [Injected(sid, hs, asid, now)];
      assert Socks(sockets) == old(Socks(sockets))[asid := asock.Abs()];
    }

    /** The host socket leaves the table and is closed. */
    method ReleaseAccepted(sid: nat, hs: HostSocket)
      requires Valid() && sid < |sockets|
      modifies this`k, sockets[sid]
      ensures Valid() && Abs() == Release(old(Abs()), sid, hs)
    {
      var sock := sockets[sid];
      sock.hostSockets := sock.hostSockets - {hs.sockfd};
      k := k.Close(hs.sockfd, Host(sid));
      assert Socks(sockets) == old(Socks(sockets))[sid := sock.Abs()];
    }

    method FinishAccept(sid: nat, asid: nat, srcAddr: Sockaddr, hs: HostSocket)
      requires Valid() && sid < |sockets| && asid < |sockets|
      modifies this`log, this`k, sockets[asid], sockets[sid]
      ensures Valid() && Abs() == Release(Adopt(old(Abs()), sid, asid, srcAddr, hs), sid, hs)
    {
      hide *;
      AdoptAccepted(sid, asid, srcAddr, hs);
      ReleaseAccepted(sid, hs);
    }

    /** The injected descriptor is registered, and the peer's address reported. */
    method RegisterAccepted(pid: int, newfd: nat, srcAddr: Sockaddr, o: LoopOracle) returns (asid: Option<nat>, wrote: Option<Bytes>)
      requires Valid()
      modifies this`processes, this`sockets, this`pidInfos, this`memfds, this`k, this`reused
      ensures Valid() && old(sockets) <= sockets && forall i | |old(sockets)| <= i < |sockets| :: fresh(sockets[i])
      ensures Abs() == Prelude(old(Abs()), pid, newfd, srcAddr, o) && |Abs().socks| == |sockets|
      ensures asid == Register(old(Abs()), pid, newfd, o.acc).1
      ensures wrote == WriteMem(Register(old(Abs()), pid, newfd, o.acc).0, pid, srcAddr, o).1
    {
      hide Register;
      hide WriteMem;
      hide Socks;
      ghost var again := Abs().Registered(pid, newfd).Some?;
      asid := RegisterSocket(pid, newfd, o.acc);
      wrote := WriteSockaddrToProcess(pid, srcAddr, o);
      reused := reused || again;
    }

    /** The rest of accept: the descriptor has been injected as `newfd`. */
    method InjectAccepted(pid: int, sid: nat, hs: HostSocket, newfd: nat, o: LoopOracle) returns (wrote: Option<Bytes>)
      requires Valid() && sid < |sockets|
      requires !Inject(Abs(), pid, sid, hs, newfd, o).stuck
      modifies this, sockets
      ensures Valid() && old(sockets) <= sockets && forall i | |old(sockets)| <= i < |sockets| :: fresh(sockets[i])
      ensures Inject(old(Abs()), pid, sid, hs, newfd, o) == Outcome(Abs(), Emulated(newfd), wrote, Replied)
    {
      hide Engine.Inject;
      hide Register;
      hide WriteMem;
      hide PeerAddress;
      hide Prelude;
      hide Adopt;
      hide Release;
      hide Socks;
      hide NotifHandler.Valid;
      InjectShape(Abs(), pid, sid, hs, newfd, o);
      var sock := sockets[sid];
      assert Abs().socks[sid] == sock.Abs();
      var srcAddr := FromIPPort(sock.localVAddr.family, hs.entry.vip, hs.entry.vport, sock.localVAddr.flowinfo, sock.localVAddr.scopeID);
      PeerAddressIs(Abs().socks[sid], hs);
      hide *;
      var asid;
      asid, wrote := RegisterAccepted(pid, newfd, srcAddr.value, o);
      FinishAccept(sid, asid.value, srcAddr.value, hs);
    }

    // ------------------------------------------------------------------ dispatch

    method OnBind(pid: int, sid: nat, o: LoopOracle) returns (reply: Reply)
      requires Valid() && sid < |sockets|
      modifies this`memfds, this`k, sockets
      ensures Valid() && sockets == old(sockets)
      ensures var out := DoBind(old(Abs()), pid, sid, o);
              Abs() == out.w && reply == out.reply && out.wrote.None? && !out.stuck
    {
      hide HandleBind;
      hide ReadMem;
      assert Abs().socks[sid] == sockets[sid].Abs();
      MemOnly(Abs(), pid, o);
      if sockets[sid].state != NotBypassed {
        return Fails(EINVAL);
      }
      var buf := ReadProcMem(pid, o);
      reply, k := sockets[sid].HandleSysBind(sid, buf, de, o.tries, featureRDMA, k);
      assert Socks(sockets) == old(Socks(sockets))[sid := sockets[sid].Abs()];
    }

    method OnListen(sid: nat, listens: set<int>) returns (reply: Reply)
      requires Valid() && sid < |sockets|
      modifies sockets
      ensures Valid()
      ensures var w := old(Abs());
              var out := Lift(w, sid, HandleListen(w.socks[sid], listens, w.featureRDMA, w.k));
              Abs() == out.w && reply == out.reply
    {
      hide HandleListen;
      reply := sockets[sid].HandleSysListen(listens, featureRDMA, k);
      assert Socks(sockets) == old(Socks(sockets))[sid := sockets[sid].Abs()];
    }

    /** Connect, once the caller's address has been read. */
    method CallConnect(sid: nat, buf: Option<Bytes>, o: LoopOracle, rnd: nat -> nat, tries: (nat, nat) -> Try)
      returns (reply: Reply, ghost draws: seq<Draw>, ghost c: Connected)
      requires Valid() && sid < |sockets| && Fair(rnd)
      modifies this`k, sockets[sid]
      ensures Valid()
      ensures var w := old(Abs());
              && c == HandleConnect(w.socks[sid], buf, w.cae, w.de, draws, w.featureRDMA, o.sendOk, o.addfd.Some?, w.k)
              && Abs() == w.SetSock(sid, c.s, c.k)
      ensures !c.stuck && c.reply == reply
    {
      hide HandleConnect;
      hide Fair;
      var sock := sockets[sid];
      var dialed, sent;
      ghost var attempts;
      reply, k, dialed, sent, draws, attempts := sock.HandleSysConnect(buf, cae, de, rnd, tries, featureRDMA, o.sendOk, o.addfd.Some?, k);
      c := Connected(sock.Abs(), reply, k, dialed, sent, attempts, false);
      assert Socks(sockets) == old(Socks(sockets))[sid := sock.Abs()];
    }

    /** ... and what history records of it. */
    ghost method NoteConnect(sid: nat, c: Connected)
      requires Valid()
      modifies this`log, this`conns
      ensures Valid()
      ensures var w := old(Abs());
              Abs() == w.(conns := w.conns + if c.dialed.Some? then [Conn(sid, c.dialed.value, c.sent)] else [],
                          log := w.log + if c.s.state.Bypassed? && IsAddress(c.s.remote.ip) then [Reached(sid, c.s.remote.ip, w.now)] else [])
    {
      hide Socks;
      conns := conns + if c.dialed.Some? then [Conn(sid, c.dialed.value, c.sent)] else [];
      log := log + if c.s.state.Bypassed? && IsAddress(c.s.remote.ip) then [Reached(sid, c.s.remote.ip, now)] else [];
    }

    method ConnectTo(sid: nat, buf: Option<Bytes>, o: LoopOracle, rnd: nat -> nat, tries: (nat, nat) -> Try)
      returns (reply: Reply, ghost draws: seq<Draw>)
      requires Valid() && sid < |sockets| && Fair(rnd)
      modifies this`k, this`log, this`conns, sockets[sid]
      ensures Valid()
      ensures var w := old(Abs());
              var c := HandleConnect(w.socks[sid], buf, w.cae, w.de, draws, w.featureRDMA, o.sendOk, o.addfd.Some?, w.k);
              !c.stuck && Abs() == Dialled(w, sid, c) && reply == c.reply
    {
      ghost var w := Abs();
      assert |w.socks| == |sockets|;
      hide *;
      ghost var c;
      reply, draws, c := CallConnect(sid, buf, o, rnd, tries);
      DialledIs(w, sid, c);
      NoteConnect(sid, c);
    }

    method OnConnect(sid: nat, o: LoopOracle, rnd: nat -> nat, tries: (nat, nat) -> Try) returns (reply: Reply, ghost draws: seq<Draw>)
      requires Valid() && sid < |sockets| && Fair(rnd)
      modifies this`memfds, this`k, this`log, this`conns, sockets
      ensures Valid() && sockets == old(sockets)
      ensures DoConnect(old(Abs()), sid, o.(draws := draws)) == Outcome(Abs(), reply, None, Replied)
    {
      ghost var w := Abs();
      assert w.socks[sid] == sockets[sid].Abs();
      var pid := sockets[sid].pid;
      MemOnly(w, pid, o);
      hide HandleConnect;
      hide ReadMem;
      hide Dialled;
      hide Fair;
      hide Socks;
      var buf := ReadProcMem(pid, o);
      reply, draws := ConnectTo(sid, buf, o, rnd, tries);
      ConnectCases(w, sid, o, draws);
    }

    method RecordOption(sid: nat, opt: Option<SockOpt>, callOk: bool)
      requires Valid() && sid < |sockets|
      modifies this`k, sockets[sid]
      ensures Valid()
      ensures var w := old(Abs());
              var h := HandleSetsockopt(w.socks[sid], opt, callOk, w.k);
              Abs() == w.SetSock(sid, h.s, h.k) && h.reply == CONTINUE
    {
      hide HandleSetsockopt;
      var reply;
      reply, k := sockets[sid].HandleSysSetsockopt(opt, callOk, k);
      assert reply == CONTINUE by { OptionContinues(old(Abs()).socks[sid], opt, callOk, old(k)); }
      assert Socks(sockets) == old(Socks(sockets))[sid := sockets[sid].Abs()];
    }

    method OnSetsockopt(pid: int, sid: nat, level: nat, optname: nat, optlen: nat, o: LoopOracle) returns (reply: Reply)
      requires Valid() && sid < |sockets|
      modifies this`memfds, this`k, sockets
      ensures Valid() && sockets == old(sockets)
      ensures DoSetsockopt(old(Abs()), pid, sid, level, optname, optlen, o) == Outcome(Abs(), reply, None, Replied)
    {
      MemOnly(Abs(), pid, o);
      hide HandleSetsockopt;
      hide ReadMem;
      hide Socks;
      var optval := ReadProcMem(pid, o);
      var opt := if optval.None? then None else Some(SockOpt(level, optname, optval.value, optlen));
      RecordOption(sid, opt, o.callOk);
      reply := CONTINUE;
    }

    method RecordFcntl(sid: nat, cmd: nat, value: nat, o: LoopOracle)
      requires Valid() && sid < |sockets|
      modifies this`k, sockets[sid]
      ensures Valid()
      ensures var w := old(Abs());
              var h := HandleFcntl(w.socks[sid], cmd, value, o.callOk, o.dup, w.k);
              Abs() == w.SetSock(sid, h.s, h.k) && h.reply == CONTINUE
    {
      hide HandleFcntl;
      var reply;
      reply, k := sockets[sid].HandleSysFcntl(cmd, value, o.callOk, o.dup, k);
      assert reply == CONTINUE by { FcntlContinues(old(Abs()).socks[sid], cmd, value, o.callOk, o.dup, old(k)); }
      assert Socks(sockets) == old(Socks(sockets))[sid := sockets[sid].Abs()];
    }

    method OnFcntl(sid: nat, cmd: nat, value: nat, o: LoopOracle) returns (reply: Reply)
      requires Valid() && sid < |sockets|
      modifies this`k, sockets
      ensures Valid() && sockets == old(sockets)
      ensures DoFcntl(old(Abs()), sid, cmd, value, o) == Outcome(Abs(), reply, None, Replied)
    {
      hide HandleFcntl;
      hide Socks;
      RecordFcntl(sid, cmd, value, o);
      reply := CONTINUE;
    }

    /** `handleSysGetpeername` and `handleSysGetsockname`. */
    method OnName(pid: int, sa: Sockaddr, o: LoopOracle) returns (reply: Reply, wrote: Option<Bytes>)
      requires Valid()
      modifies this`memfds, this`k
      ensures Valid()
      ensures DoName(old(Abs()), pid, sa, o) == Outcome(Abs(), reply, wrote, Replied)
    {
      hide WriteMem;
      wrote := WriteSockaddrToProcess(pid, sa, o);
      reply := if wrote.Some? && wrote == Print(sa) then Emulated(0) else CONTINUE;
    }

    /** The last part of `handleReq`. Only the draws of connect are made up on the way. */
    method Dispatch(pid: int, sid: nat, call: Call, o: LoopOracle, rnd: nat -> nat, tries: (nat, nat) -> Try)
      returns (reply: Reply, wrote: Option<Bytes>, end: End, ghost draws: seq<Draw>)
      requires Valid() && sid < |sockets| && Fair(rnd)
      requires call.Accept? || call.Accept4? ==> !DoAccept(Abs(), pid, sid, o).end.Panicked?
      modifies this, sockets
      ensures Valid() && Engine.Dispatch(old(Abs()), pid, sid, call, o.(draws := draws)) == Outcome(Abs(), reply, wrote, end)
    {
      hide DoBind;
      hide DoAccept;
      hide DoConnect;
      hide DoSetsockopt;
      hide DoFcntl;
      hide DoName;
      hide HandleListen;
      hide Fair;
      hide Socks;
      hide NotifHandler.Valid;
      wrote, end, draws := None, Replied, o.draws;
      assert o.(draws := o.draws) == o;
      assert Abs().socks[sid] == sockets[sid].Abs();
      match call
      case Bind => reply := OnBind(pid, sid, o);
      case Listen => reply := OnListen(sid, o.listens);
      case Accept => reply, wrote, end := HandleSysAccept(pid, sid, o);
      case Accept4 => reply, wrote, end := HandleSysAccept(pid, sid, o);
      case Connect => reply, draws := OnConnect(sid, o, rnd, tries);
      case Setsockopt(level, optname, optlen) => reply := OnSetsockopt(pid, sid, level, optname, optlen, o);
      case Fcntl(cmd, value) => reply := OnFcntl(sid, cmd, value, o);
      case Getpeername => reply, wrote := OnName(pid, sockets[sid].remoteVAddr, o);
      case Getsockname => reply, wrote := OnName(pid, sockets[sid].localVAddr, o);
      case _ => reply := CONTINUE;
    }

    /** The number is registered afresh. */
    method Renew(pid: int, fd: int, o: RegOracle) returns (again: Option<nat>)
      requires Valid() && Inv(Abs())
      modifies this`processes, this`sockets, this`pidInfos, this`k, sockets
      ensures Valid() && old(sockets) <= sockets && forall i | |old(sockets)| <= i < |sockets| :: fresh(sockets[i])
      ensures (Abs(), again) == Register(Unregister(old(Abs()), pid, fd), pid, fd, o)
      ensures again.Some? ==> again.value < |sockets|
    {
      hide Register;
      hide Unregister;
      hide Inv;
      hide Sound;
      hide NotifHandler.Valid;
      ghost var w := Abs();
      UnregisterSound(w, pid, fd);
      SoundImplies(w, Unregister(w, pid, fd));
      RegisterSound(Unregister(w, pid, fd), pid, fd, o);
      RemoveSocket(pid, fd);
      again := RegisterSocket(pid, fd, o);
    }

    /** What `handleReq` does by the state of the socket: the socket the call is handled on,
        if it is. */
    method Gate(pid: int, sid: nat, req: Request, o: LoopOracle) returns (on: Option<nat>)
      requires Valid() && sid < |sockets| && Inv(Abs())
      modifies this, sockets
      ensures Valid() && Arrives(Engine.Gate(old(Abs()), pid, sid, req, o), Abs(), pid, on, CONTINUE)
      ensures old(sockets) <= sockets && forall i | |old(sockets)| <= i < |sockets| :: fresh(sockets[i])
      ensures on.Some? ==> on.value < |sockets|
    {
      hide Register;
      hide Unregister;
      hide Inv;
      hide Socks;
      hide NotifHandler.Valid;
      var state := sockets[sid].state;
      assert Abs().socks[sid].state == state;
      if state == NotBypassable {
        if !(req.call.Connect? || req.call.Bind?) {
          return None;
        }
        on := Renew(pid, req.fd, o.rereg);
        if on.Some? {
          assert Abs().socks[on.value].state == sockets[on.value].state;
          if sockets[on.value].state != NotBypassed {
            on := None;
          }
        }
      } else if state == Bypassed && !req.call.Getpeername? && !req.call.Getsockname? {
        on := None;
      } else {
        on := Some(sid);
      }
    }

    /** A connect may be taken over for the control channel first. */
    method Enter(pid: int, sid: nat, req: Request, o: LoopOracle) returns (on: Option<nat>, reply: Reply)
      requires Valid() && sid < |sockets| && Inv(Abs())
      modifies this, sockets
      ensures Valid() && Arrives(Engine.Enter(old(Abs()), pid, sid, req, o), Abs(), pid, on, reply)
      ensures old(sockets) <= sockets && forall i | |old(sockets)| <= i < |sockets| :: fresh(sockets[i])
      ensures on.Some? ==> on.value < |sockets|
    {
      hide Engine.Gate;
      hide InitializeRsocket;
      hide Inv;
      hide Sound;
      hide Socks;
      hide NotifHandler.Valid;
      reply := CONTINUE;
      if featureRDMA && req.call.Connect? {
        ghost var w := Abs();
        RsocketSound(w, sid, o);
        SoundImplies(w, InitializeRsocket(w, sid, o).0);
        var done := InitRsocket(sid, o);
        if done {
          return None, Emulated(0);
        }
      }
      on := Gate(pid, sid, req, o);
    }

    /** The socket is looked up or registered, and entered. */
    method LookUp(pid: int, req: Request, o: LoopOracle) returns (on: Option<nat>, reply: Reply)
      requires Valid() && Inv(Abs())
      modifies this, sockets
      ensures Valid()
      ensures var (w, sid) := Register(old(Abs()), pid, req.fd, o.reg);
              if sid.None? || sid.value >= |w.socks| then Abs() == w && on.None? && reply == CONTINUE
              else Arrives(Engine.Enter(w, pid, sid.value, req, o), Abs(), pid, on, reply)
      ensures old(sockets) <= sockets && forall i | |old(sockets)| <= i < |sockets| :: fresh(sockets[i])
      ensures on.Some? ==> on.value < |sockets|
    {
      hide Engine.Enter;
      hide Register;
      hide Inv;
      hide Sound;
      hide Arrives;
      hide NotifHandler.Valid;
      RegisterSound(Abs(), pid, req.fd, o.reg);
      SoundImplies(Abs(), Register(Abs(), pid, req.fd, o.reg).0);
      var sid := RegisterSocket(pid, req.fd, o.reg);
      if sid.None? {
        return None, CONTINUE;
      }
      assert |Abs().socks| == |sockets|;
      on, reply := Enter(pid, sid.value, req, o);
    }

    /** `handleReq` up to the point where the call's handler is called, if it is. */
    method Settle(req: Request, o: LoopOracle) returns (pid: int, on: Option<nat>, reply: Reply)
      requires Valid() && Inv(Abs())
      modifies this, sockets
      ensures Valid() && Arrives(Engine.Settle(old(Abs()), req, o), Abs(), pid, on, reply)
      ensures old(sockets) <= sockets && forall i | |old(sockets)| <= i < |sockets| :: fresh(sockets[i])
      ensures on.Some? ==> on.value < |sockets|
    {
      ghost var w := Abs();
      SettleCases(w, req, o);
      hide *;
      if req.call.Undecodable? {
        return 0, None, CONTINUE;
      }
      CachesOnly(w, req.pid, o.pid, ZERO_SOCKADDR, o);
      CachesSound(w, Engine.GetPidFdInfo(w, req.pid, o.pid).0);
      SoundImplies(w, Engine.GetPidFdInfo(w, req.pid, o.pid).0);
      var info := GetPidFdInfo(req.pid, o.pid);
      if info.None? {
        return 0, None, CONTINUE;
      }
      pid := info.value.tgid;
      if req.call.Exit? || req.call.ExitGroup? {
        Exit(req.pid, info.value);
        return pid, None, CONTINUE;
      }
      if req.call.Close? {
        RemoveSocket(pid, req.fd);
        return pid, None, CONTINUE;
      }
      on, reply := LookUp(pid, req, o);
    }

    /** `handleReq`: one notification. An accept on an empty channel is left waiting; the
        random search of connect is run to its end. */
    method HandleReq(req: Request, o: LoopOracle, rnd: nat -> nat, tries: (nat, nat) -> Try)
      returns (reply: Reply, wrote: Option<Bytes>, end: End, ghost draws: seq<Draw>)
      requires Valid() && Fair(rnd) && Inv(Abs())
      requires !Engine.HandleReq(Abs(), req, o).end.Panicked?
      modifies this, sockets
      ensures Valid() && Engine.HandleReq(old(Abs()), req, o.(draws := draws)) == Outcome(Abs(), reply, wrote, end)
      ensures Inv(Abs())
    {
      hide *;
      ghost var w := Abs();
      ReqCases(w, req, o, o.draws);
      var pid, on;
      pid, on, reply := Settle(req, o);
      ArrivedThere(Engine.Settle(w, req, o), Abs(), pid, on, reply);
      wrote, end, draws := None, Replied, o.draws;
      if on.Some? {
        SameCount();
        reply, wrote, end, draws := Dispatch(pid, on.value, req.call, o, rnd, tries);
      }
      ReqCases(w, req, o, draws);
      KeepsInv(w, req, o.(draws := draws));
    }

    lemma SameCount()
      ensures |Abs().socks| == |sockets|
    {
    }
  }

  /** The setting the specification reaches is the one the handler stands in. */
  predicate Arrives(st: Setting, w: World, pid: int, on: Option<nat>, reply: Reply) {
    st.w == w && st.sid == on && st.reply == reply && (on.Some? ==> st.pid == pid)
  }

  lemma ArrivedThere(st: Setting, w: World, pid: int, on: Option<nat>, reply: Reply)
    requires Arrives(st, w, pid, on, reply)
    ensures st.w == w && st.sid == on && st.reply == reply && (on.Some? ==> st.pid == pid)
  {
  }

  lemma OptionContinues(s: Sock, opt: Option<SockOpt>, callOk: bool, k: Kern)
    ensures HandleSetsockopt(s, opt, callOk, k).reply == CONTINUE
  {
  }

  lemma FcntlContinues(s: Sock, cmd: nat, value: nat, callOk: bool, dup: Option<int>, k: Kern)
    ensures HandleFcntl(s, cmd, value, callOk, dup, k).reply == CONTINUE
  {
  }

  lemma DialledIs(w: World, sid: nat, c: Connected)
    requires sid < |w.socks|
    ensures var w1 := w.SetSock(sid, c.s, c.k);
            Dialled(w, sid, c) ==
            w1.(conns := w1.conns + if c.dialed.Some? then [Conn(sid, c.dialed.value, c.sent)] else [],
                log := w1.log + if c.s.state.Bypassed? && IsAddress(c.s.remote.ip) then [Reached(sid, c.s.remote.ip, w1.now)] else [])
  {
  }

  /** Connect, spelled out, with the draws that were made. */
  lemma ConnectCases(w: World, sid: nat, o: LoopOracle, draws: seq<Draw>)
    requires sid < |w.socks|
    ensures var (w1, buf) := ReadMem(w, w.socks[sid].pid, o);
            && w1.socks == w.socks && w1.cae == w.cae && w1.de == w.de && w1.featureRDMA == w.featureRDMA
            && var c := HandleConnect(w.socks[sid], buf, w.cae, w.de, draws, w.featureRDMA, o.sendOk, o.addfd.Some?, w1.k);
            && (!c.stuck ==> DoConnect(w, sid, o.(draws := draws)) == Answered(Dialled(w1, sid, c), c.reply))
  {
    ReadMemIgnoresDraws(w, w.socks[sid].pid, o, draws);
    MemOnly(w, w.socks[sid].pid, o);
    hide ReadMem;
    hide HandleConnect;
    hide Dialled;
  }

  lemma KeepsInv(w: World, req: Request, o: LoopOracle)
    requires Inv(w)
    ensures Inv(Engine.HandleReq(w, req, o).w)
  {
    hide Inv;
    hide Sound;
    hide Engine.HandleReq;
    HandleReqSound(w, req, o);
    SoundImplies(w, Engine.HandleReq(w, req, o).w);
  }

  /** The way to the handler, spelled out. */
  lemma SettleCases(w: World, req: Request, o: LoopOracle)
    ensures var st := Engine.Settle(w, req, o);
            var (w1, info) := Engine.GetPidFdInfo(w, req.pid, o.pid);
            if req.call.Undecodable? then Arrives(st, w, 0, None, CONTINUE)
            else if info.None? then Arrives(st, w1, 0, None, CONTINUE)
            else
              var pid := info.value.tgid;
              if req.call.Exit? || req.call.ExitGroup? then Arrives(st, HandleExit(w1, req.pid, info.value), pid, None, CONTINUE)
              else if req.call.Close? then Arrives(st, Unregister(w1, pid, req.fd), pid, None, CONTINUE)
              else
                var (w2, sid) := Register(w1, pid, req.fd, o.reg);
                if sid.None? || sid.value >= |w2.socks| then Arrives(st, w2, pid, None, CONTINUE)
                else st == Engine.Enter(w2, pid, sid.value, req, o)
  {
    hide Engine.GetPidFdInfo;
    hide Register;
    hide Unregister;
    hide HandleExit;
    hide Engine.Enter;
  }

  lemma GateIgnoresDraws(w: World, pid: int, sid: nat, req: Request, o: LoopOracle, draws: seq<Draw>)
    requires sid < |w.socks|
    ensures Engine.Gate(w, pid, sid, req, o.(draws := draws)) == Engine.Gate(w, pid, sid, req, o)
  {
    hide Register;
    hide Unregister;
  }

  lemma EnterIgnoresDraws(w: World, pid: int, sid: nat, req: Request, o: LoopOracle, draws: seq<Draw>)
    requires sid < |w.socks|
    ensures Engine.Enter(w, pid, sid, req, o.(draws := draws)) == Engine.Enter(w, pid, sid, req, o)
  {
    RsocketIgnoresDraws(w, sid, o, draws);
    GateIgnoresDraws(w, pid, sid, req, o, draws);
    var w1 := InitializeRsocket(w, sid, o).0;
    if sid < |w1.socks| {
      GateIgnoresDraws(w1, pid, sid, req, o, draws);
    }
    hide InitializeRsocket;
    hide Engine.Gate;
  }

  lemma RsocketIgnoresDraws(w: World, sid: nat, o: LoopOracle, draws: seq<Draw>)
    requires sid < |w.socks|
    ensures InitializeRsocket(w, sid, o.(draws := draws)) == InitializeRsocket(w, sid, o)
  {
    ReadMemIgnoresDraws(w, w.socks[sid].pid, o, draws);
    hide ReadMem;
    hide UnixPath;
    hide TakeOver;
  }

  lemma SettleIgnoresDraws(w: World, req: Request, o: LoopOracle, draws: seq<Draw>)
    ensures Engine.Settle(w, req, o.(draws := draws)) == Engine.Settle(w, req, o)
  {
    hide Engine.GetPidFdInfo;
    hide Register;
    hide Unregister;
    hide HandleExit;
    hide Engine.Enter;
    var (w1, info) := Engine.GetPidFdInfo(w, req.pid, o.pid);
    if info.Some? {
      var (w2, sid) := Register(w1, info.value.tgid, req.fd, o.reg);
      if sid.Some? && sid.value < |w2.socks| {
        EnterIgnoresDraws(w2, info.value.tgid, sid.value, req, o, draws);
      }
    }
  }

  /** One notification, spelled out, with the draws that were made. */
  lemma ReqCases(w: World, req: Request, o: LoopOracle, draws: seq<Draw>)
    ensures o.(draws := o.draws) == o
    ensures var st, od := Engine.Settle(w, req, o), o.(draws := draws);
            var out := Engine.HandleReq(w, req, od);
            && (st.sid.None? ==> out == Outcome(st.w, st.reply, None, Replied))
            && (st.sid.Some? && st.sid.value < |st.w.socks| ==>
                  && out == Engine.Dispatch(st.w, st.pid, st.sid.value, req.call, od)
                  && (req.call.Accept? || req.call.Accept4? ==> out == DoAccept(st.w, st.pid, st.sid.value, od)))
  {
    SettleIgnoresDraws(w, req, o, draws);
    hide Engine.Settle;
    hide DoAccept;
  }

  lemma ReadMemIgnoresDraws(w: World, pid: int, o: LoopOracle, draws: seq<Draw>)
    ensures ReadMem(w, pid, o.(draws := draws)) == ReadMem(w, pid, o)
  {
  }

  /** Accept, spelled out. */
  lemma AcceptCases(w: World, pid: int, sid: nat, o: LoopOracle)
    requires sid < |w.socks| && !DoAccept(w, pid, sid, o).end.Panicked?
    ensures var s := w.socks[sid];
            if s.state == NotBypassable then DoAccept(w, pid, sid, o) == Answered(w, CONTINUE)
            else if s.state != Listening then DoAccept(w, pid, sid, o) == Answered(w, Fails(EINVAL))
            else if s.queue == [] then DoAccept(w, pid, sid, o) == Waits(w)
            else
              s.queue[0] < |s.hs| &&
              var h := s.hs[s.queue[0]];
              var w1 := w.SetSock(sid, Dequeue(s), w.k);
              if h.state != HostSocketAccepted then
                DoAccept(w, pid, sid, o) == Answered(w1.SetSock(sid, w1.socks[sid].(state := NotBypassable), w1.k), CONTINUE)
              else if o.addfd.None? then DoAccept(w, pid, sid, o) == Answered(Lose(w1, sid, h), CONTINUE)
              else !Inject(w1, pid, sid, h, o.addfd.value, o).stuck && DoAccept(w, pid, sid, o) == Inject(w1, pid, sid, h, o.addfd.value, o)
  {
    hide Engine.Inject;
    hide Lose;
  }

  lemma Register1Commutes(w: World, k1: Kern, k2: Kern, pid: int, fd: int, o: RegOracle)
    requires pid in w.processes
    ensures Register1(w.(k := k1), pid, fd, o).(k := k2) == Register1(w.(k := k2), pid, fd, o)
    ensures Register1(w.(k := k1), pid, fd, o).k == k1
  {
  }

  lemma RemoveSidKeeps(w: World, sid: nat)
    requires sid < |w.socks|
    ensures var w' := RemoveSid(w, sid);
            w' == w.(socks := w'.socks, k := w'.k) && |w'.socks| == |w.socks|
  {
  }

  lemma PeerAddressIs(s: Sock, h: HostSocket)
    ensures PeerAddress(s, h) == FromIPPort(s.local.family, h.entry.vip, h.entry.vport, s.local.flowinfo, s.local.scopeID)
  {
  }
}
