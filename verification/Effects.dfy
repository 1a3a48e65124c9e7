/** What each kind of call touches, and so what it leaves alone: the options recorded and
    those the kernel holds, the host sockets, the connections, removal and loss. */
module Effects {
  import opened Net
  import opened Sockaddrs
  import opened Kernel
  import opened Socket
  import opened Connect
  import opened Engine
  import opened SocketInvariant
  import opened Invariant
  import AC = AccessControl
  import D = Destination

  // ---------------------------------------------------------------- what is kept

  ghost predicate ListsKept(socks: seq<Sock>, socks': seq<Sock>) {
    && |socks| <= |socks'|
    && (forall sid | 0 <= sid < |socks| ::
          socks'[sid].socketOptions == socks[sid].socketOptions && socks'[sid].fcntlOptions == socks[sid].fcntlOptions)
    && (forall sid | |socks| <= sid < |socks'| :: socks'[sid].socketOptions == [] && socks'[sid].fcntlOptions == [])
  }

  ghost predicate HostsKept(socks: seq<Sock>, socks': seq<Sock>) {
    && |socks| <= |socks'|
    && (forall sid | 0 <= sid < |socks| :: |socks'[sid].hs| == |socks[sid].hs|)
    && (forall sid | |socks| <= sid < |socks'| :: socks'[sid].hs == [])
  }

  ghost predicate LivesKept(socks: seq<Sock>, socks': seq<Sock>) {
    |socks| <= |socks'| && forall sid | 0 <= sid < |socks| :: socks'[sid].cancelled == socks[sid].cancelled
  }

  /** Nothing but removal, states and names. */
  ghost predicate Aside(w: World, w': World) {
    && Steady(w.k, w'.k)
    && ListsKept(w.socks, w'.socks) && HostsKept(w.socks, w'.socks)
    && w'.conns == w.conns && w'.lost == w.lost
  }

  predicate IsOption(call: Call) {
    call.Setsockopt? || call.Fcntl?
  }

  predicate IsAccept(call: Call) {
    call.Accept? || call.Accept4?
  }

  /** What handling a call leaves alone. */
  ghost predicate Effect(w: World, w': World, call: Call) {
    && LivesKept(w.socks, w'.socks)
    && (!IsOption(call) ==> Steady(w.k, w'.k) && ListsKept(w.socks, w'.socks))
    && (!call.Bind? ==> HostsKept(w.socks, w'.socks))
    && (!call.Connect? ==> w'.conns == w.conns)
    && (!IsAccept(call) ==> w'.lost == w.lost)
  }

  lemma SteadyTransitive(k0: Kern, k1: Kern, k2: Kern)
    requires Steady(k0, k1) && Steady(k1, k2)
    ensures Steady(k0, k2)
  {
    hide Kern.OptsOf;
    hide Kern.Births;
    forall fd
      ensures k0.Births(fd) <= k2.Births(fd) && (k2.Births(fd) == k0.Births(fd) ==> k2.OptsOf(fd) == k0.OptsOf(fd))
    {
      assert k0.Births(fd) <= k1.Births(fd) <= k2.Births(fd);
    }
  }

  lemma AsideTransitive(w0: World, w1: World, w2: World)
    requires Aside(w0, w1) && Aside(w1, w2)
    ensures Aside(w0, w2)
  {
    SteadyTransitive(w0.k, w1.k, w2.k);
    hide Steady;
  }

  lemma AsideItself(w: World)
    ensures Aside(w, w)
  {
  }

  lemma EffectTransitive(w0: World, w1: World, w2: World, call: Call)
    requires Effect(w0, w1, call) && Effect(w1, w2, call)
    ensures Effect(w0, w2, call)
  {
    if !IsOption(call) {
      SteadyTransitive(w0.k, w1.k, w2.k);
    }
    hide Steady;
  }

  lemma AsideEffect(w: World, w': World, call: Call)
    requires Aside(w, w') && LivesKept(w.socks, w'.socks)
    ensures Effect(w, w', call)
  {
    hide Steady;
    hide ListsKept;
    hide HostsKept;
    hide LivesKept;
  }

  lemma AsideThen(w0: World, w1: World, w2: World, call: Call)
    requires Aside(w0, w1) && LivesKept(w0.socks, w1.socks) && Effect(w1, w2, call)
    ensures Effect(w0, w2, call)
  {
    hide Aside;
    hide LivesKept;
    hide Effect;
    AsideEffect(w0, w1, call);
    EffectTransitive(w0, w1, w2, call);
  }

  // -------------------------------------------------------------------- the kernel

  lemma KernSteady(k: Kern, fd: int, owner: Owner)
    ensures Steady(k, k) && Steady(k, k.Open(fd, owner)) && Steady(k, k.Close(fd, owner)) && Steady(k, k.Give(fd, owner))
  {
  }

  /** A new descriptor can be configured at will. */
  lemma PrepareSteady(s: Sock, o: Try, k: Kern)
    ensures Steady(k, Prepare(s, o, k))
  {
  }

  lemma {:induction false} CloseEachSteady(s: Sock, sid: nat, n: nat, k: Kern)
    requires n <= |s.hs|
    ensures Steady(k, CloseEach(s, sid, n, k))
  {
    KernSteady(k, 0, Loose);
    if n > 0 {
      CloseEachSteady(s, sid, n - 1, k);
      var k1 := CloseEach(s, sid, n - 1, k);
      KernSteady(k1, s.hs[n - 1].sockfd, Host(sid));
      SteadyTransitive(k, k1, k1.Close(s.hs[n - 1].sockfd, Host(sid)));
      hide Steady;
      hide InTable;
    }
  }

  lemma BindOneSteady(b: Binding, sid: nat, e: D.Entry, o: Try, featureRDMA: bool)
    ensures Steady(b.k, BindOne(b, sid, e, o, featureRDMA).k)
  {
    PrepareSteady(b.s, o, b.k);
    KernSteady(b.k, 0, Loose);
    var k := AfterBind(b.s, e, o, b.k);
    hide Prepare;
    match TransportBind(b.s, e, o) {
      case Fd(fd) =>
        KernSteady(k, fd, Host(sid));
        SteadyTransitive(b.k, k, k.Give(fd, Host(sid)));
      case _ =>
    }
    hide Steady;
    hide TransportBind;
  }

  lemma {:induction false} BindEachSteady(s: Sock, sid: nat, entries: seq<D.Entry>, os: seq<Try>, n: nat, featureRDMA: bool, k: Kern)
    requires n <= |entries|
    ensures Steady(k, BindEach(s, sid, entries, os, n, featureRDMA, k).k)
  {
    KernSteady(k, 0, Loose);
    if n > 0 {
      BindEachSteady(s, sid, entries, os, n - 1, featureRDMA, k);
      var b := BindEach(s, sid, entries, os, n - 1, featureRDMA, k);
      BindOneSteady(b, sid, entries[n - 1], TryAt(os, n - 1), featureRDMA);
      hide BindOne;
      SteadyTransitive(k, b.k, BindOne(b, sid, entries[n - 1], TryAt(os, n - 1), featureRDMA).k);
      hide Steady;
    }
  }

  lemma BindSteady(s: Sock, sid: nat, buf: Option<Bytes>, de: D.Dest, os: seq<Try>, featureRDMA: bool, k: Kern)
    ensures Steady(k, HandleBind(s, sid, buf, de, os, featureRDMA, k).k)
  {
    KernSteady(k, 0, Loose);
    hide Steady;
    hide Parse;
    hide D.Dest.GetServer;
    if buf.Some? && Parse(buf.value).Some? {
      var s1 := s.(local := Parse(buf.value).value);
      var entries := de.GetServer(s1.local.port);
      BindEachSteady(s1, sid, entries, os, |entries|, featureRDMA, k);
      hide BindEach;
    }
  }

  lemma {:induction false} ClassSteady(s: Sock, c: nat, entries: seq<D.Entry>, tried: set<nat>, attempts: seq<Attempt>,
                                       draws: seq<Draw>, featureRDMA: bool, k: Kern)
    ensures Steady(k, TryClass(s, c, entries, tried, attempts, draws, featureRDMA, k).k)
    decreases |draws|
  {
    KernSteady(k, 0, Loose);
    hide Steady;
    if |tried| < |entries| && draws != [] {
      var n, o := Intn(draws[0].n, |entries|), draws[0].o;
      if n in tried {
        ClassSteady(s, c, entries, tried, attempts, draws[1..], featureRDMA, k);
      } else {
        PrepareSteady(s, o, k);
        hide Prepare;
        hide TransportConnect;
        var k1, attempts' := AfterConnect(s, entries[n], o, k), attempts + [Attempt(c, n, entries[n], o)];
        ClassSteady(s, c, entries, tried + {n}, attempts', draws[1..], featureRDMA, k1);
        SteadyTransitive(k, k1, TryClass(s, c, entries, tried + {n}, attempts', draws[1..], featureRDMA, k1).k);
      }
    }
  }

  lemma {:induction false} ClassesSteady(s: Sock, c: nat, classes: seq<seq<D.Entry>>, attempts: seq<Attempt>,
                                         draws: seq<Draw>, featureRDMA: bool, k: Kern)
    requires c <= |classes|
    ensures Steady(k, TryClasses(s, c, classes, attempts, draws, featureRDMA, k).k)
    decreases |classes| - c
  {
    KernSteady(k, 0, Loose);
    hide Steady;
    if c < |classes| {
      ClassSteady(s, c, classes[c], {}, attempts, draws, featureRDMA, k);
      var p := TryClass(s, c, classes[c], {}, attempts, draws, featureRDMA, k);
      hide TryClass;
      if p.result.AllFailed? {
        ClassesSteady(s, c + 1, classes, p.attempts, p.rest, featureRDMA, p.k);
        SteadyTransitive(k, p.k, TryClasses(s, c + 1, classes, p.attempts, p.rest, featureRDMA, p.k).k);
      }
    }
  }

  lemma ConnectSteady(s: Sock, buf: Option<Bytes>, cae: AC.Acl, de: D.Dest, draws: seq<Draw>, featureRDMA: bool,
                      sendOk: bool, addFdOk: bool, k: Kern)
    ensures Steady(k, HandleConnect(s, buf, cae, de, draws, featureRDMA, sendOk, addFdOk, k).k)
  {
    KernSteady(k, 0, Loose);
    hide Steady;
    hide Parse;
    hide AC.Acl.Apply;
    hide D.Dest.GetClient;
    hide Handshake;
    if buf.Some? && Parse(buf.value).Some? {
      var s1 := s.(remote := Parse(buf.value).value);
      var classes := de.GetClient(s1.remote.ip, s1.remote.port);
      ClassesSteady(s1, 0, classes, [], draws, featureRDMA, k);
      hide TryClasses;
      var p := Select(s1, classes, draws, featureRDMA, k);
      if p.result.Via? {
        KernSteady(p.k, p.result.fd, Loose);
        SteadyTransitive(k, p.k, p.k.Close(p.result.fd, Loose));
      }
    }
  }

  lemma WorkSteady(s: Sock, sid: nat, wi: nat, o: WorkOracle, sae: AC.Acl, now: nat, k: Kern)
    requires wi < |s.workers| && s.workers[wi].listener < |s.hs|
    ensures Steady(k, WorkStep(s, sid, wi, o, sae, now, k).1)
  {
    hide AC.Acl.Apply;
    hide Peer;
    hide Steady;
    KernSteady(k, 0, Loose);
    match s.workers[wi].pc {
      case Accepting => if o.arrival.Some? { KernSteady(k, o.arrival.value.fd, Loose); KernSteady(k, o.arrival.value.fd, Work(sid, wi)); }
      case Receiving(a) => KernSteady(k, a.fd, Loose);
      case Checking(h) => KernSteady(k, h.sockfd, Work(sid, wi));
      case Storing(h) => KernSteady(k, h.sockfd, if s.cancelled then Loose else Host(sid));
      case _ =>
    }
  }

  // ------------------------------------------------------------- before the handler

  /** Only caches and registrations differ, and the kernel. */
  lemma CachesAside(w: World, w': World)
    requires w'.socks == w.socks && w'.conns == w.conns && w'.lost == w.lost && Steady(w.k, w'.k)
    ensures Aside(w, w') && LivesKept(w.socks, w'.socks)
  {
    hide Steady;
  }

  lemma PidAside(w: World, pid: int, p: PidOpen)
    ensures Aside(w, GetPidFdInfo(w, pid, p).0)
  {
    var w' := GetPidFdInfo(w, pid, p).0;
    KernSteady(w.k, if p.AsProcess? then p.pidfd else if p.AsThread? then p.tgidfd else 0, Pid(pid));
    hide Steady;
    CachesAside(w, w');
  }

  lemma MemAside(w: World, pid: int, o: LoopOracle, sa: Sockaddr)
    ensures Aside(w, ReadMem(w, pid, o).0) && Aside(w, WriteMem(w, pid, sa, o).0)
    ensures ReadMem(w, pid, o).0.socks == w.socks && WriteMem(w, pid, sa, o).0.socks == w.socks
  {
    hide Print;
    var w' := OpenMem(w, pid, o.memfd).0;
    KernSteady(w.k, if o.memfd.Some? then o.memfd.value else 0, Mem(pid));
    hide Steady;
    CachesAside(w, w');
    AsideItself(w);
    hide Aside;
  }

  lemma Register1Aside(w: World, pid: int, fd: int, o: RegOracle)
    requires pid in w.processes
    ensures Aside(w, Register1(w, pid, fd, o)) && LivesKept(w.socks, Register1(w, pid, fd, o).socks)
  {
    KernSteady(w.k, 0, Loose);
    hide Steady;
  }

  lemma RegisterAside(w: World, pid: int, fd: int, o: RegOracle)
    ensures Aside(w, Register(w, pid, fd, o).0) && LivesKept(w.socks, Register(w, pid, fd, o).0.socks)
  {
    hide *;
    RegisterCases(w, pid, fd, o);
    var w1 := KnowProcess(w, pid);
    KnowAside(w, pid);
    PidAside(w1, pid, o.pid);
    PidOnly(w1, pid, o.pid);
    var (w2, info) := GetPidFdInfo(w1, pid, o.pid);
    AsideTransitive(w, w1, w2);
    if info.Some? && o.getfd.Some? {
      var w3 := w2.(k := w2.k.Open(o.getfd.value, Loose).Close(o.getfd.value, Loose));
      InspectAside(w2, o.getfd.value);
      AsideTransitive(w, w2, w3);
      Register1Aside(w3, pid, fd, o);
      AsideTransitive(w, w3, Register1(w3, pid, fd, o));
    }
  }

  lemma KnowAside(w: World, pid: int)
    ensures pid in KnowProcess(w, pid).processes && KnowProcess(w, pid).socks == w.socks
    ensures Aside(w, KnowProcess(w, pid)) && LivesKept(w.socks, KnowProcess(w, pid).socks)
  {
    KernSteady(w.k, 0, Loose);
    hide Steady;
    CachesAside(w, KnowProcess(w, pid));
    hide Aside;
    hide LivesKept;
  }

  lemma InspectAside(w: World, fd: int)
    ensures Aside(w, w.(k := w.k.Open(fd, Loose).Close(fd, Loose)))
  {
    var k1 := w.k.Open(fd, Loose);
    KernSteady(w.k, fd, Loose);
    KernSteady(k1, fd, Loose);
    SteadyTransitive(w.k, k1, k1.Close(fd, Loose));
    hide Steady;
    CachesAside(w, w.(k := k1.Close(fd, Loose)));
    hide Aside;
  }

  lemma RemoveSidAside(w: World, sid: nat)
    requires sid < |w.socks|
    ensures Aside(w, RemoveSid(w, sid))
  {
    CloseEachSteady(w.socks[sid], sid, |w.socks[sid].hs|, w.k);
    hide CloseEach;
    hide Steady;
  }

  lemma UnregisterAside(w: World, pid: int, fd: int)
    ensures Aside(w, Unregister(w, pid, fd))
  {
    KernSteady(w.k, 0, Loose);
    hide Steady;
    if pid in w.processes && fd in w.processes[pid] && w.processes[pid][fd] < |w.socks| {
      var sid := w.processes[pid][fd];
      RemoveSidAside(w, sid);
      hide RemoveSid;
      var w1 := RemoveSid(w, sid);
      KernSteady(w1.k, 0, Loose);
      CachesAside(w1, w1.(processes := Unregister(w, pid, fd).processes));
      AsideTransitive(w, w1, Unregister(w, pid, fd));
    } else {
      CachesAside(w, Unregister(w, pid, fd));
    }
  }

  lemma {:induction false} RemoveEachAside(w: World, sids: set<nat>, n: nat)
    requires n <= |w.socks|
    ensures Aside(w, RemoveEach(w, sids, n))
  {
    hide Aside;
    hide RemoveSid;
    AsideItself(w);
    if n > 0 {
      RemoveEachAside(w, sids, n - 1);
      var w1 := RemoveEach(w, sids, n - 1);
      RemoveSidAside(w1, n - 1);
      AsideTransitive(w, w1, RemoveSid(w1, n - 1));
    }
  }

  lemma ExitAside(w: World, pid: int, info: PidInfo)
    ensures Aside(w, HandleExit(w, pid, info))
  {
    var w1 := DropPid(w, pid);
    DropAside(w, pid);
    hide DropPid;
    if info.pidType.PROCESS? {
      var w2 := DropProcess(w1, info.tgid);
      if info.tgid in w1.processes {
        var sids := SidsOf(w1, info.tgid);
        RemoveEachAside(w1, sids, |w1.socks|);
        var w1' := RemoveEach(w1, sids, |w1.socks|);
        hide RemoveEach;
        KernSteady(w1'.k, 0, Loose);
        CachesAside(w1', w2);
        AsideTransitive(w1, w1', w2);
      } else {
        AsideItself(w1);
      }
      hide DropProcess;
      DropAside(w2, info.tgid);
      hide Aside;
      AsideTransitive(w, w1, w2);
      AsideTransitive(w, w2, DropMem(w2, info.tgid));
    }
  }

  lemma DropAside(w: World, pid: int)
    ensures Aside(w, DropPid(w, pid)) && Aside(w, DropMem(w, pid))
  {
    KernSteady(w.k, if pid in w.pidInfos then w.pidInfos[pid].pidfd else 0, Pid(pid));
    KernSteady(w.k, if pid in w.memfds then w.memfds[pid] else 0, Mem(pid));
    hide Steady;
    CachesAside(w, DropPid(w, pid));
    CachesAside(w, DropMem(w, pid));
  }

  lemma TakeOverAside(w: World, sid: nat, pair: (int, int), injected: bool)
    requires sid < |w.socks|
    ensures Aside(w, TakeOver(w, sid, pair, injected))
  {
    var k1 := w.k.Open(pair.0, Loose);
    KernSteady(w.k, pair.0, Loose);
    KernSteady(k1, pair.1, Loose);
    SteadyTransitive(w.k, k1, k1.Open(pair.1, Loose));
    hide Steady;
  }

  lemma RsocketAside(w: World, sid: nat, o: LoopOracle)
    requires sid < |w.socks|
    ensures Aside(w, InitializeRsocket(w, sid, o).0)
  {
    hide Aside;
    hide TakeOver;
    AsideItself(w);
    var pid := w.socks[sid].pid;
    MemAside(w, pid, o, ZERO_SOCKADDR);
    var w1 := ReadMem(w, pid, o).0;
    hide ReadMem;
    if o.pair.Some? {
      TakeOverAside(w1, sid, o.pair.value, o.addfd.Some?);
      AsideTransitive(w, w1, TakeOver(w1, sid, o.pair.value, o.addfd.Some?));
    }
  }

  lemma GateAside(w: World, pid: int, sid: nat, req: Request, o: LoopOracle)
    requires sid < |w.socks|
    ensures Aside(w, Gate(w, pid, sid, req, o).w)
  {
    hide Aside;
    hide Register;
    hide Unregister;
    AsideItself(w);
    var w0 := Unregister(w, pid, req.fd);
    UnregisterAside(w, pid, req.fd);
    RegisterAside(w0, pid, req.fd, o.rereg);
    AsideTransitive(w, w0, Register(w0, pid, req.fd, o.rereg).0);
  }

  lemma EnterAside(w: World, pid: int, sid: nat, req: Request, o: LoopOracle)
    requires sid < |w.socks|
    ensures Aside(w, Enter(w, pid, sid, req, o).w)
  {
    hide Aside;
    hide Gate;
    hide InitializeRsocket;
    if w.featureRDMA && req.call.Connect? {
      RsocketAside(w, sid, o);
      var w1 := InitializeRsocket(w, sid, o).0;
      if sid < |w1.socks| {
        GateAside(w1, pid, sid, req, o);
        AsideTransitive(w, w1, Gate(w1, pid, sid, req, o).w);
      }
    } else {
      GateAside(w, pid, sid, req, o);
    }
  }

  lemma SettleAside(w: World, req: Request, o: LoopOracle)
    ensures Aside(w, Settle(w, req, o).w)
  {
    hide Aside;
    hide Enter;
    hide HandleExit;
    hide Register;
    hide Unregister;
    AsideItself(w);
    PidAside(w, req.pid, o.pid);
    var (w1, info) := GetPidFdInfo(w, req.pid, o.pid);
    hide GetPidFdInfo;
    if info.Some? {
      var pid := info.value.tgid;
      ExitAside(w1, req.pid, info.value);
      AsideTransitive(w, w1, HandleExit(w1, req.pid, info.value));
      UnregisterAside(w1, pid, req.fd);
      AsideTransitive(w, w1, Unregister(w1, pid, req.fd));
      var (w2, sid) := Register(w1, pid, req.fd, o.reg);
      RegisterAside(w1, pid, req.fd, o.reg);
      AsideTransitive(w, w1, w2);
      if sid.Some? && sid.value < |w2.socks| {
        EnterAside(w2, pid, sid.value, req, o);
        AsideTransitive(w, w2, Enter(w2, pid, sid.value, req, o).w);
      }
    }
  }

  // ------------------------------------------------------------------- the handlers

  /** One socket changed. */
  lemma SetEffect(w: World, sid: nat, s: Sock, k: Kern, call: Call)
    requires sid < |w.socks| && s.cancelled == w.socks[sid].cancelled
    requires IsOption(call) ||
             (Steady(w.k, k) && s.socketOptions == w.socks[sid].socketOptions && s.fcntlOptions == w.socks[sid].fcntlOptions)
    requires call.Bind? || |s.hs| == |w.socks[sid].hs|
    ensures Effect(w, w.SetSock(sid, s, k), call)
  {
    hide Steady;
  }

  lemma BindLists(s: Sock, sid: nat, buf: Option<Bytes>, de: D.Dest, os: seq<Try>, featureRDMA: bool, k: Kern)
    ensures var h := HandleBind(s, sid, buf, de, os, featureRDMA, k);
            h.s.socketOptions == s.socketOptions && h.s.fcntlOptions == s.fcntlOptions && h.s.cancelled == s.cancelled
  {
    hide Parse;
    hide D.Dest.GetServer;
    if buf.Some? && Parse(buf.value).Some? {
      var s1 := s.(local := Parse(buf.value).value);
      var entries := de.GetServer(s1.local.port);
      BindEachLists(s1, sid, entries, os, |entries|, featureRDMA, k);
      hide BindEach;
    }
  }

  lemma {:induction false} BindEachLists(s: Sock, sid: nat, entries: seq<D.Entry>, os: seq<Try>, n: nat, featureRDMA: bool, k: Kern)
    requires n <= |entries|
    ensures var b := BindEach(s, sid, entries, os, n, featureRDMA, k);
            b.s == s.(hs := b.s.hs, hostSockets := b.s.hostSockets)
  {
    if n > 0 {
      BindEachLists(s, sid, entries, os, n - 1, featureRDMA, k);
      hide TransportBind;
      hide AfterBind;
    }
  }

  lemma {:induction false} ListenEachLists(s: Sock, n: nat, listens: set<int>)
    requires n <= |s.hs|
    ensures ListenEach(s, n, listens) == s.(hs := ListenEach(s, n, listens).hs, workers := ListenEach(s, n, listens).workers)
  {
    if n > 0 {
      ListenEachLists(s, n - 1, listens);
    }
  }

  lemma DoBindEffect(w: World, pid: int, sid: nat, o: LoopOracle)
    requires sid < |w.socks|
    ensures Effect(w, DoBind(w, pid, sid, o).w, Bind)
  {
    AsideItself(w);
    MemAside(w, pid, o, ZERO_SOCKADDR);
    CachesOnly(w, pid, o.pid, ZERO_SOCKADDR, o);
    var (w1, buf) := ReadMem(w, pid, o);
    hide ReadMem;
    BindSteady(w1.socks[sid], sid, buf, w1.de, o.tries, w1.featureRDMA, w1.k);
    BindLists(w1.socks[sid], sid, buf, w1.de, o.tries, w1.featureRDMA, w1.k);
    var h := HandleBind(w1.socks[sid], sid, buf, w1.de, o.tries, w1.featureRDMA, w1.k);
    hide HandleBind;
    hide Steady;
    SetEffect(w1, sid, h.s, h.k, Bind);
    AsideThen(w, w1, w1.SetSock(sid, h.s, h.k), Bind);
  }

  lemma DoListenEffect(w: World, sid: nat, listens: set<int>)
    requires sid < |w.socks|
    ensures Effect(w, Lift(w, sid, HandleListen(w.socks[sid], listens, w.featureRDMA, w.k)).w, Listen)
  {
    var s := w.socks[sid];
    var h := HandleListen(s, listens, w.featureRDMA, w.k);
    ListenEachLists(s, |s.hs|, listens);
    hide ListenEach;
    KernSteady(w.k, 0, Loose);
    hide Steady;
    SetEffect(w, sid, h.s, h.k, Listen);
  }

  lemma DoConnectEffect(w: World, sid: nat, o: LoopOracle)
    requires sid < |w.socks|
    ensures Effect(w, DoConnect(w, sid, o).w, Connect)
  {
    var pid := w.socks[sid].pid;
    AsideItself(w);
    MemAside(w, pid, o, ZERO_SOCKADDR);
    CachesOnly(w, pid, o.pid, ZERO_SOCKADDR, o);
    var (w1, buf) := ReadMem(w, pid, o);
    hide ReadMem;
    var s := w1.socks[sid];
    ConnectTouches(s, buf, w1.cae, w1.de, o.draws, w1.featureRDMA, o.sendOk, o.addfd.Some?, w1.k);
    ConnectSteady(s, buf, w1.cae, w1.de, o.draws, w1.featureRDMA, o.sendOk, o.addfd.Some?, w1.k);
    var c := HandleConnect(s, buf, w1.cae, w1.de, o.draws, w1.featureRDMA, o.sendOk, o.addfd.Some?, w1.k);
    hide HandleConnect;
    hide Steady;
    hide Aside;
    hide Effect;
    if !c.stuck {
      DialledEffect(w1, sid, c);
      AsideThen(w, w1, Dialled(w1, sid, c), Connect);
    } else {
      AsideEffect(w, w, Connect);
    }
  }

  lemma DialledEffect(w: World, sid: nat, c: Connected)
    requires sid < |w.socks| && Steady(w.k, c.k) && c.s == w.socks[sid].(state := c.s.state, remote := c.s.remote)
    ensures Effect(w, Dialled(w, sid, c), Connect)
  {
    hide Steady;
  }

  lemma DoOptionEffect(w: World, pid: int, sid: nat, call: Call, o: LoopOracle)
    requires sid < |w.socks| && IsOption(call)
    ensures Effect(w, Dispatch(w, pid, sid, call, o).w, call)
  {
    AsideItself(w);
    MemAside(w, pid, o, ZERO_SOCKADDR);
    var (w1, optval) := ReadMem(w, pid, o);
    hide ReadMem;
    hide Steady;
    match call
    case Setsockopt(level, optname, optlen) =>
      var opt := if optval.None? then None else Some(SockOpt(level, optname, optval.value, optlen));
      var h := HandleSetsockopt(w1.socks[sid], opt, o.callOk, w1.k);
      SetEffect(w1, sid, h.s, h.k, call);
      AsideThen(w, w1, w1.SetSock(sid, h.s, h.k), call);
    case Fcntl(cmd, value) =>
      var h := HandleFcntl(w.socks[sid], cmd, value, o.callOk, o.dup, w.k);
      SetEffect(w, sid, h.s, h.k, call);
  }

  lemma DoNameEffect(w: World, pid: int, sa: Sockaddr, o: LoopOracle, call: Call)
    ensures Effect(w, DoName(w, pid, sa, o).w, call)
  {
    MemAside(w, pid, o, sa);
    hide WriteMem;
    AsideEffect(w, DoName(w, pid, sa, o).w, call);
  }

  lemma AdoptEffect(w: World, sid: nat, asid: nat, peer: Sockaddr, h: HostSocket, call: Call)
    requires sid < |w.socks| && asid < |w.socks|
    ensures Effect(w, Adopt(w, sid, asid, peer, h), call) && |Adopt(w, sid, asid, peer, h).socks| == |w.socks|
  {
    KernSteady(w.k, 0, Loose);
    hide Steady;
  }

  lemma ReleaseEffect(w: World, sid: nat, h: HostSocket, call: Call)
    requires sid < |w.socks|
    ensures Effect(w, Release(w, sid, h), call)
  {
    KernSteady(w.k, h.sockfd, Host(sid));
    hide Steady;
  }

  lemma PreludeAside(w: World, pid: int, newfd: nat, peer: Sockaddr, o: LoopOracle)
    ensures Aside(w, Prelude(w, pid, newfd, peer, o)) && LivesKept(w.socks, Prelude(w, pid, newfd, peer, o).socks)
  {
    RegisterAside(w, pid, newfd, o.acc);
    hide Register;
    var w1 := Register(w, pid, newfd, o.acc).0;
    MemAside(w1, pid, o, peer);
    hide WriteMem;
    var w2 := WriteMem(w1, pid, peer, o).0;
    AsideTransitive(w, w1, w2);
    KernSteady(w2.k, 0, Loose);
    CachesAside(w2, Prelude(w, pid, newfd, peer, o));
    AsideTransitive(w, w2, Prelude(w, pid, newfd, peer, o));
    hide Aside;
    hide Steady;
  }

  lemma InjectEffect(w: World, pid: int, sid: nat, h: HostSocket, newfd: nat, o: LoopOracle, call: Call)
    requires sid < |w.socks| && !Inject(w, pid, sid, h, newfd, o).stuck
    ensures Effect(w, Inject(w, pid, sid, h, newfd, o).w, call)
  {
    hide *;
    InjectShape(w, pid, sid, h, newfd, o);
    var asid, peer := Register(w, pid, newfd, o.acc).1, PeerAddress(w.socks[sid], h).value;
    var w3 := Prelude(w, pid, newfd, peer, o);
    PreludeAside(w, pid, newfd, peer, o);
    AsideEffect(w, w3, call);
    AdoptEffect(w3, sid, asid.value, peer, h, call);
    var w4 := Adopt(w3, sid, asid.value, peer, h);
    ReleaseEffect(w4, sid, h, call);
    EffectTransitive(w, w3, w4, call);
    EffectTransitive(w, w4, Release(w4, sid, h), call);
  }

  lemma LoseEffect(w: World, sid: nat, h: HostSocket, call: Call)
    requires sid < |w.socks| && IsAccept(call)
    ensures Effect(w, Lose(w, sid, h), call)
  {
    KernSteady(w.k, h.sockfd, Host(sid));
    hide Steady;
  }

  lemma DequeueEffect(w: World, sid: nat, call: Call)
    requires sid < |w.socks| && w.socks[sid].queue != []
    ensures var s := Dequeue(w.socks[sid]);
            Effect(w, w.SetSock(sid, s, w.k), call) && Effect(w, w.SetSock(sid, s.(state := NotBypassable), w.k), call)
  {
    KernSteady(w.k, 0, Loose);
    hide Steady;
    SetEffect(w, sid, Dequeue(w.socks[sid]), w.k, call);
    SetEffect(w, sid, Dequeue(w.socks[sid]).(state := NotBypassable), w.k, call);
    hide Effect;
  }

  lemma DoAcceptEffect(w: World, pid: int, sid: nat, o: LoopOracle, call: Call)
    requires sid < |w.socks| && IsAccept(call)
    ensures Effect(w, DoAccept(w, pid, sid, o).w, call)
  {
    AsideItself(w);
    hide Aside;
    hide Inject;
    hide Effect;
    hide Lose;
    hide LivesKept;
    assert LivesKept(w.socks, w.socks) by { LivesItself(w.socks); }
    AsideEffect(w, w, call);
    var s := w.socks[sid];
    if s.state == Listening && s.queue != [] && s.queue[0] < |s.hs| {
      var h := s.hs[s.queue[0]];
      var w1 := w.SetSock(sid, Dequeue(s), w.k);
      DequeueEffect(w, sid, call);
      LoseEffect(w1, sid, h, call);
      EffectTransitive(w, w1, Lose(w1, sid, h), call);
      assert w1.SetSock(sid, Dequeue(s).(state := NotBypassable), w1.k) == w.SetSock(sid, Dequeue(s).(state := NotBypassable), w.k);
      if o.addfd.Some? && !Inject(w1, pid, sid, h, o.addfd.value, o).stuck {
        InjectEffect(w1, pid, sid, h, o.addfd.value, o, call);
        EffectTransitive(w, w1, Inject(w1, pid, sid, h, o.addfd.value, o).w, call);
      }
    }
  }

  lemma LivesItself(socks: seq<Sock>)
    ensures LivesKept(socks, socks)
  {
  }

  lemma DispatchEffect(w: World, pid: int, sid: nat, call: Call, o: LoopOracle)
    requires sid < |w.socks|
    ensures Effect(w, Dispatch(w, pid, sid, call, o).w, call)
  {
    hide Effect;
    hide DoBind;
    hide DoAccept;
    hide DoConnect;
    hide HandleListen;
    hide DoSetsockopt;
    hide DoFcntl;
    hide DoName;
    match call
    case Bind => DoBindEffect(w, pid, sid, o);
    case Listen => DoListenEffect(w, sid, o.listens);
    case Accept => DoAcceptEffect(w, pid, sid, o, call);
    case Accept4 => DoAcceptEffect(w, pid, sid, o, call);
    case Connect => DoConnectEffect(w, sid, o);
    case Getpeername => DoNameEffect(w, pid, w.socks[sid].remote, o, call);
    case Getsockname => DoNameEffect(w, pid, w.socks[sid].local, o, call);
    case Setsockopt(_, _, _) => DoOptionEffect(w, pid, sid, call, o);
    case Fcntl(_, _) => DoOptionEffect(w, pid, sid, call, o);
    case _ => AsideItself(w); AsideEffect(w, w, call);
  }
}
