/** What every step keeps of the whole handler, and what it never does to a virtual
    socket, under any behaviour of the kernel and any interleaving. */
module Invariant {
  import opened Net
  import opened Sockaddrs
  import opened Kernel
  import opened Socket
  import opened Connect
  import opened Rsocket
  import opened Engine
  import opened SocketInvariant
  import AC = AccessControl
  import D = Destination

  // ------------------------------------------------------------ the registrations

  /** A registered socket is live and knows the process and number it is filed under. */
  ghost predicate FiledOk(processes: map<int, map<int, nat>>, socks: seq<Sock>, pid: int, fd: int)
    requires pid in processes && fd in processes[pid]
  {
    var sid := processes[pid][fd];
    sid < |socks| && !socks[sid].cancelled && socks[sid].pid == pid && socks[sid].sockfd == fd
  }

  /** A live socket is registered. */
  ghost predicate LiveIsFiled(processes: map<int, map<int, nat>>, socks: seq<Sock>, sid: nat)
    requires sid < |socks|
  {
    var s := socks[sid];
    s.cancelled || (s.pid in processes && s.sockfd in processes[s.pid] && processes[s.pid][s.sockfd] == sid)
  }

  ghost predicate Registry(processes: map<int, map<int, nat>>, socks: seq<Sock>) {
    && (forall pid, fd | pid in processes && fd in processes[pid] :: FiledOk(processes, socks, pid, fd))
    && (forall sid | 0 <= sid < |socks| :: LiveIsFiled(processes, socks, sid))
  }

  // ----------------------------------------------------------- what the log tells

  /** The socket can be taken over for the RDMA control channel. */
  predicate MayCarryRsocket(featureRDMA: bool, s: Sock) {
    featureRDMA && s.sockDomain == DOMAIN_UNIX && s.sockType == SOCK_STREAM
  }

  predicate Explains(e: Event, s: Sock, sid: nat) {
    (e.Injected? && e.asid == sid) || (e.Reached? && e.sid == sid && e.ip == s.remote.ip)
  }

  ghost predicate Explained(s: Sock, sid: nat, log: seq<Event>) {
    exists i | 0 <= i < |log| :: Explains(log[i], s, sid)
  }

  /** A bypassed socket was accepted, or its connect reached its peer. */
  ghost predicate Told(s: Sock, sid: nat, log: seq<Event>, featureRDMA: bool) {
    s.state.Bypassed? && !MayCarryRsocket(featureRDMA, s) ==> Explained(s, sid, log)
  }

  ghost predicate History(socks: seq<Sock>, log: seq<Event>, featureRDMA: bool) {
    forall sid | 0 <= sid < |socks| :: Told(socks[sid], sid, log, featureRDMA)
  }

  lemma StillExplained(s: Sock, s': Sock, sid: nat, log: seq<Event>, log': seq<Event>)
    requires s'.remote == s.remote && Explained(s, sid, log) && log <= log'
    ensures Explained(s', sid, log')
  {
    var i :| 0 <= i < |log| && Explains(log[i], s, sid);
    assert Explains(log'[i], s', sid);
  }

  /** One more event, and the one socket that changes. */
  lemma ToldMore(s: Sock, s': Sock, sid: nat, log: seq<Event>, e: Event, featureRDMA: bool)
    requires Told(s, sid, log, featureRDMA) && MayCarryRsocket(featureRDMA, s') == MayCarryRsocket(featureRDMA, s)
    requires s'.state.Bypassed? && !MayCarryRsocket(featureRDMA, s') ==>
               (s.state.Bypassed? && s'.remote == s.remote) || Explains(e, s', sid)
    ensures Told(s', sid, log + [e], featureRDMA)
  {
    if s'.state.Bypassed? && !MayCarryRsocket(featureRDMA, s') {
      if s.state.Bypassed? && s'.remote == s.remote {
        StillExplained(s, s', sid, log, log + [e]);
      } else {
        assert Explains((log + [e])[|log|], s', sid);
      }
    }
  }

  // ------------------------------------------------------------------- invariant

  ghost predicate AllOk(socks: seq<Sock>, featureRDMA: bool) {
    forall sid | 0 <= sid < |socks| :: SockOk(socks[sid], featureRDMA)
  }

  ghost predicate Inv(w: World) {
    && Registry(w.processes, w.socks)
    && AllOk(w.socks, w.featureRDMA)
    && History(w.socks, w.log, w.featureRDMA)
    && D.Shaped(w.de) && w.de.featureRDMA == w.featureRDMA
  }

  // ------------------------------------------------------ what becomes of a socket

  /** The names of a socket are settled once it is bypassed, or given up. */
  predicate Settled(s: Sock) {
    s.state.Bypassed? || s.state.NotBypassable?
  }

  /** What may become of a virtual socket: its identity is fixed, its removal final,
      its queue history only grows, its names settle, and a bypassed one stays so,
      unless it can carry RDMA control. */
  ghost predicate SockGrows(s: Sock, s': Sock, mayCarry: bool) {
    && s'.pid == s.pid && s'.sockfd == s.sockfd
    && s'.sockDomain == s.sockDomain && s'.sockType == s.sockType && s'.sockProto == s.sockProto
    && (s.cancelled ==> s'.cancelled)
    && s.enqueued <= s'.enqueued && s.dequeued <= s'.dequeued
    && (Settled(s) ==> Settled(s') && s'.local == s.local && s'.remote == s.remote)
    && (s.state.Bypassed? && !mayCarry ==> s'.state.Bypassed?)
  }

  ghost predicate SocksGrow(socks: seq<Sock>, socks': seq<Sock>, featureRDMA: bool) {
    && |socks| <= |socks'|
    && forall sid | 0 <= sid < |socks| :: SockGrows(socks[sid], socks'[sid], MayCarryRsocket(featureRDMA, socks[sid]))
  }

  /** A handshake announced the settled name of the socket that sent it. */
  predicate ConnNamed(socks: seq<Sock>, c: Conn) {
    && c.sid < |socks| && Settled(socks[c.sid])
    && (c.sent.Some? ==> c.sent == Print(socks[c.sid].local) && |c.sent.value| == SIZE_INET4)
  }

  /** An injected socket answers for its peer, under its own family. */
  predicate InjectionNamed(socks: seq<Sock>, e: Event) {
    e.Injected? ==>
      && e.asid < |socks| && Settled(socks[e.asid])
      && Some(socks[e.asid].remote) == PeerAddress(socks[e.asid], e.peer)
  }

  /** The connections and injections that are new in `w'` are named truly. */
  ghost predicate NewNames(w: World, w': World) {
    && (forall i | |w.conns| <= i < |w'.conns| :: ConnNamed(w'.socks, w'.conns[i]))
    && (forall i | |w.log| <= i < |w'.log| :: InjectionNamed(w'.socks, w'.log[i]))
  }

  // --------------------------------------------------------------- gated admission

  /** Peers and verdicts come from accept goroutines only: no handler makes or alters one. */
  ghost predicate Quiet(s: Sock, s': Sock) {
    && (forall i | 0 <= i < |s'.hs| && s'.hs[i].state == HostSocketAccepted ::
          i < |s.hs| && s'.hs[i] == s.hs[i].(cancelled := s'.hs[i].cancelled))
    && (forall wi | 0 <= wi < |s'.workers| && (s'.workers[wi].pc.Checking? || s'.workers[wi].pc.Storing?) ::
          wi < |s.workers| && s'.workers[wi].pc == s.workers[wi].pc)
    && |s.workers| <= |s'.workers|
    && (forall wi | 0 <= wi < |s'.workers| ::
          s'.workers[wi].verdicts == if wi < |s.workers| then s.workers[wi].verdicts else [])
  }

  ghost predicate Peerless(s: Sock) {
    && (forall i | 0 <= i < |s.hs| :: s.hs[i].state != HostSocketAccepted)
    && (forall wi | 0 <= wi < |s.workers| ::
          !s.workers[wi].pc.Checking? && !s.workers[wi].pc.Storing? && s.workers[wi].verdicts == [])
  }

  ghost predicate NoNewPeers(socks: seq<Sock>, socks': seq<Sock>) {
    && |socks| <= |socks'|
    && (forall sid | 0 <= sid < |socks| :: Quiet(socks[sid], socks'[sid]))
    && (forall sid | |socks| <= sid < |socks'| :: Peerless(socks'[sid]))
  }

  ghost predicate PeerOf(s: Sock, h: HostSocket) {
    exists hid | 0 <= hid < |s.hs| :: s.hs[hid].state == HostSocketAccepted && h == s.hs[hid].(cancelled := h.cancelled)
  }

  /** What is injected was a peer; what is reached was allowed, at the time. */
  ghost predicate EventOk(w: World, e: Event) {
    match e
    case Injected(sid, h, _, at) => at == w.now && sid < |w.socks| && PeerOf(w.socks[sid], h)
    case Reached(_, ip, at) => at == w.now && w.cae.Apply(ip)
  }

  ghost predicate NewEvents(w: World, w': World) {
    forall i | |w.log| <= i < |w'.log| :: EventOk(w, w'.log[i])
  }

  // ---------------------------------------------------------------------- growth

  ghost predicate Frame(w: World, w': World) {
    && w'.featureRDMA == w.featureRDMA && w'.myVIP == w.myVIP
    && w'.now == w.now && w'.sae == w.sae && w'.cae == w.cae && w'.de == w.de
    && w.log <= w'.log && w.conns <= w'.conns
    && (w.reused ==> w'.reused) && (w.lost ==> w'.lost)
  }

  /** What handling a notification does to the world at most. Sockets grow as above
      as long as no descriptor number is injected while it is still registered. */
  ghost predicate Grows(w: World, w': World) {
    && Frame(w, w')
    && NoNewPeers(w.socks, w'.socks)
    && NewEvents(w, w')
    && (!w'.reused ==> SocksGrow(w.socks, w'.socks, w.featureRDMA) && NewNames(w, w'))
  }

  lemma NoNewPeersTransitive(s0: seq<Sock>, s1: seq<Sock>, s2: seq<Sock>)
    requires NoNewPeers(s0, s1) && NoNewPeers(s1, s2)
    ensures NoNewPeers(s0, s2)
  {
    forall sid | 0 <= sid < |s2|
      ensures if sid < |s0| then Quiet(s0[sid], s2[sid]) else Peerless(s2[sid])
    {
      if sid < |s0| {
        assert Quiet(s0[sid], s1[sid]) && Quiet(s1[sid], s2[sid]);
      } else if sid < |s1| {
        assert Peerless(s1[sid]) && Quiet(s1[sid], s2[sid]);
      }
    }
  }

  lemma PeerWasThere(s0: seq<Sock>, s1: seq<Sock>, sid: nat, h: HostSocket)
    requires NoNewPeers(s0, s1) && sid < |s1| && PeerOf(s1[sid], h)
    ensures sid < |s0| && PeerOf(s0[sid], h)
  {
    assert if sid < |s0| then Quiet(s0[sid], s1[sid]) else Peerless(s1[sid]);
  }

  lemma NewEventsTransitive(w0: World, w1: World, w2: World)
    requires Frame(w0, w1) && Frame(w1, w2) && NoNewPeers(w0.socks, w1.socks)
    requires NewEvents(w0, w1) && NewEvents(w1, w2)
    ensures NewEvents(w0, w2)
  {
    hide AC.Acl.Apply;
    hide PeerOf;
    hide NoNewPeers;
    forall i | |w0.log| <= i < |w2.log|
      ensures EventOk(w0, w2.log[i])
    {
      if i < |w1.log| {
        assert EventOk(w0, w1.log[i]);
      } else {
        var e := w2.log[i];
        assert EventOk(w1, e);
        if e.Injected? {
          PeerWasThere(w0.socks, w1.socks, e.sid, e.peer);
        }
      }
    }
  }

  lemma SocksGrowTransitive(s0: seq<Sock>, s1: seq<Sock>, s2: seq<Sock>, featureRDMA: bool)
    requires SocksGrow(s0, s1, featureRDMA) && SocksGrow(s1, s2, featureRDMA)
    ensures SocksGrow(s0, s2, featureRDMA)
  {
    forall sid | 0 <= sid < |s0|
      ensures SockGrows(s0[sid], s2[sid], MayCarryRsocket(featureRDMA, s0[sid]))
    {
      assert SockGrows(s0[sid], s1[sid], MayCarryRsocket(featureRDMA, s0[sid]));
      assert SockGrows(s1[sid], s2[sid], MayCarryRsocket(featureRDMA, s1[sid]));
    }
  }

  lemma StayNamed(s1: seq<Sock>, s2: seq<Sock>, featureRDMA: bool, c: Conn, e: Event)
    requires SocksGrow(s1, s2, featureRDMA)
    ensures ConnNamed(s1, c) ==> ConnNamed(s2, c)
    ensures InjectionNamed(s1, e) ==> InjectionNamed(s2, e)
  {
    hide Print;
    if ConnNamed(s1, c) {
      assert SockGrows(s1[c.sid], s2[c.sid], MayCarryRsocket(featureRDMA, s1[c.sid]));
    }
    if e.Injected? && InjectionNamed(s1, e) {
      assert SockGrows(s1[e.asid], s2[e.asid], MayCarryRsocket(featureRDMA, s1[e.asid]));
    }
  }

  lemma NewNamesTransitive(w0: World, w1: World, w2: World)
    requires w0.log <= w1.log <= w2.log && w0.conns <= w1.conns <= w2.conns
    requires SocksGrow(w1.socks, w2.socks, w1.featureRDMA)
    requires NewNames(w0, w1) && NewNames(w1, w2)
    ensures NewNames(w0, w2)
  {
    hide SocksGrow;
    hide ConnNamed;
    hide InjectionNamed;
    forall i | |w0.conns| <= i < |w2.conns|
      ensures ConnNamed(w2.socks, w2.conns[i])
    {
      if i < |w1.conns| {
        StayNamed(w1.socks, w2.socks, w1.featureRDMA, w1.conns[i], Reached(0, ZERO4, 0));
      }
    }
    forall i | |w0.log| <= i < |w2.log|
      ensures InjectionNamed(w2.socks, w2.log[i])
    {
      if i < |w1.log| {
        StayNamed(w1.socks, w2.socks, w1.featureRDMA, Conn(0, 0, None), w1.log[i]);
      }
    }
  }

  lemma GrowsTransitive(w0: World, w1: World, w2: World)
    requires Grows(w0, w1) && Grows(w1, w2)
    ensures Grows(w0, w2)
  {
    hide NoNewPeers;
    hide NewEvents;
    hide SocksGrow;
    hide NewNames;
    NoNewPeersTransitive(w0.socks, w1.socks, w2.socks);
    NewEventsTransitive(w0, w1, w2);
    if !w2.reused {
      SocksGrowTransitive(w0.socks, w1.socks, w2.socks, w0.featureRDMA);
      NewNamesTransitive(w0, w1, w2);
    }
  }

  ghost predicate Sound(w: World, w': World) {
    Inv(w') && Grows(w, w')
  }

  lemma SoundTransitive(w0: World, w1: World, w2: World)
    requires Sound(w0, w1) && Sound(w1, w2)
    ensures Sound(w0, w2)
  {
    hide Grows;
    GrowsTransitive(w0, w1, w2);
  }

  // -------------------------------------------------------------- nothing changes

  lemma NothingGrows(w: World, w': World)
    requires w'.socks == w.socks && w'.log == w.log && w'.conns == w.conns
    ensures NoNewPeers(w.socks, w'.socks) && NewEvents(w, w') && NewNames(w, w')
    ensures SocksGrow(w.socks, w'.socks, w.featureRDMA)
  {
    hide EventOk;
  }

  /** With the sockets untouched only the registrations matter. */
  lemma SameSocksSound(w: World, w': World)
    requires Inv(w) && Registry(w'.processes, w'.socks)
    requires w' == w.(processes := w'.processes, memfds := w'.memfds, pidInfos := w'.pidInfos, k := w'.k,
                      lost := w'.lost, reused := w'.reused)
    requires (w.lost ==> w'.lost) && (w.reused ==> w'.reused)
    ensures Sound(w, w')
  {
    hide AllOk;
    hide History;
    hide D.Shaped;
    hide Registry;
    NothingGrows(w, w');
    hide NoNewPeers;
    hide NewEvents;
    hide SocksGrow;
    hide NewNames;
  }

  /** Only the descriptor caches and the kernel differ. */
  ghost predicate SameButCaches(w: World, w': World) {
    w' == w.(memfds := w'.memfds, pidInfos := w'.pidInfos, k := w'.k)
  }

  lemma InvRegistry(w: World)
    requires Inv(w)
    ensures Registry(w.processes, w.socks)
  {
  }

  lemma CachesSound(w: World, w': World)
    requires Inv(w) && SameButCaches(w, w')
    ensures Sound(w, w')
  {
    InvRegistry(w);
    hide Inv;
    hide Registry;
    SameSocksSound(w, w');
  }

  lemma FlagsSound(w: World, w': World)
    requires Inv(w) && w' == w.(lost := w'.lost, reused := w'.reused)
    requires (w.lost ==> w'.lost) && (w.reused ==> w'.reused)
    ensures Sound(w, w')
  {
    InvRegistry(w);
    hide Inv;
    hide Registry;
    SameSocksSound(w, w');
  }

  lemma CachesOnly(w: World, pid: int, p: PidOpen, sa: Sockaddr, o: LoopOracle)
    ensures SameButCaches(w, GetPidFdInfo(w, pid, p).0)
    ensures SameButCaches(w, ReadMem(w, pid, o).0)
    ensures SameButCaches(w, WriteMem(w, pid, sa, o).0)
  {
    hide Print;
  }

  lemma PidOnly(w: World, pid: int, p: PidOpen)
    ensures var w' := GetPidFdInfo(w, pid, p).0;
            w' == w.(pidInfos := w'.pidInfos, k := w'.k)
  {
  }

  lemma MemOnly(w: World, pid: int, o: LoopOracle)
    ensures var w' := ReadMem(w, pid, o).0;
            w' == w.(memfds := w'.memfds, k := w'.k)
  {
  }

  // ------------------------------------------------------------ one socket changes

  ghost predicate SameIdentity(s: Sock, s': Sock) {
    && s'.pid == s.pid && s'.sockfd == s.sockfd && s'.cancelled == s.cancelled
    && s'.sockDomain == s.sockDomain && s'.sockType == s.sockType && s'.sockProto == s.sockProto
  }

  /** A change that needs no telling. */
  ghost predicate Tame(s: Sock, s': Sock, mayCarry: bool) {
    && SameIdentity(s, s')
    && s.enqueued <= s'.enqueued && s.dequeued <= s'.dequeued
    && (s'.state.Bypassed? && !mayCarry ==> s.state.Bypassed? && s'.remote == s.remote)
  }

  lemma SetRegistry(processes: map<int, map<int, nat>>, socks: seq<Sock>, sid: nat, s: Sock)
    requires Registry(processes, socks) && sid < |socks| && SameIdentity(socks[sid], s)
    ensures Registry(processes, socks[sid := s])
  {
    var socks' := socks[sid := s];
    forall p, f | p in processes && f in processes[p]
      ensures FiledOk(processes, socks', p, f)
    {
      assert FiledOk(processes, socks, p, f);
    }
    forall i | 0 <= i < |socks'|
      ensures LiveIsFiled(processes, socks', i)
    {
      assert LiveIsFiled(processes, socks, i);
    }
  }

  lemma SetHistory(socks: seq<Sock>, log: seq<Event>, featureRDMA: bool, sid: nat, s: Sock)
    requires History(socks, log, featureRDMA) && sid < |socks|
    requires Tame(socks[sid], s, MayCarryRsocket(featureRDMA, socks[sid]))
    ensures History(socks[sid := s], log, featureRDMA)
  {
    assert Told(socks[sid], sid, log, featureRDMA);
    if s.state.Bypassed? && !MayCarryRsocket(featureRDMA, s) {
      StillExplained(socks[sid], s, sid, log, log);
    }
    assert Told(s, sid, log, featureRDMA);
    hide Told;
  }

  /** The same, with one event told about the socket that changes. */
  lemma NoteHistory(socks: seq<Sock>, log: seq<Event>, featureRDMA: bool, sid: nat, s: Sock, e: Event)
    requires History(socks, log, featureRDMA) && sid < |socks|
    requires Told(s, sid, log + [e], featureRDMA)
    ensures History(socks[sid := s], log + [e], featureRDMA)
  {
    var socks', log' := socks[sid := s], log + [e];
    hide Explained;
    forall i | 0 <= i < |socks'|
      ensures Told(socks'[i], i, log', featureRDMA)
    {
      if i != sid {
        assert Told(socks[i], i, log, featureRDMA);
        ToldMore(socks[i], socks[i], i, log, e, featureRDMA);
      }
    }
  }

  lemma SetSockInv(w: World, sid: nat, s: Sock, k: Kern)
    requires Inv(w) && sid < |w.socks| && SockOk(s, w.featureRDMA)
    requires Tame(w.socks[sid], s, MayCarryRsocket(w.featureRDMA, w.socks[sid]))
    ensures Inv(w.SetSock(sid, s, k))
  {
    hide SockOk;
    hide D.Shaped;
    SetRegistry(w.processes, w.socks, sid, s);
    SetHistory(w.socks, w.log, w.featureRDMA, sid, s);
    hide Registry;
    hide History;
  }

  lemma QuietItself(s: Sock)
    ensures Quiet(s, s)
  {
  }

  lemma SetNoNewPeers(socks: seq<Sock>, sid: nat, s: Sock)
    requires sid < |socks| && Quiet(socks[sid], s)
    ensures NoNewPeers(socks, socks[sid := s])
  {
    forall i | 0 <= i < |socks| && i != sid
      ensures Quiet(socks[i], socks[sid := s][i])
    {
      QuietItself(socks[i]);
    }
    hide Quiet;
  }

  lemma SetSocksGrow(socks: seq<Sock>, sid: nat, s: Sock, featureRDMA: bool)
    requires sid < |socks| && SockGrows(socks[sid], s, MayCarryRsocket(featureRDMA, socks[sid]))
    ensures SocksGrow(socks, socks[sid := s], featureRDMA)
  {
  }

  lemma SetSockSound(w: World, sid: nat, s: Sock, k: Kern)
    requires Inv(w) && sid < |w.socks| && SockOk(s, w.featureRDMA)
    requires SockGrows(w.socks[sid], s, MayCarryRsocket(w.featureRDMA, w.socks[sid]))
    requires Tame(w.socks[sid], s, MayCarryRsocket(w.featureRDMA, w.socks[sid])) && Quiet(w.socks[sid], s)
    ensures Sound(w, w.SetSock(sid, s, k))
  {
    hide Inv;
    SetSockInv(w, sid, s, k);
    SetNoNewPeers(w.socks, sid, s);
    SetSocksGrow(w.socks, sid, s, w.featureRDMA);
    hide NoNewPeers;
    hide SocksGrow;
    hide EventOk;
  }

  /** A socket changes, and one event tells of it. */
  lemma NoteInv(w: World, sid: nat, s: Sock, w': World, e: Event)
    requires Inv(w) && sid < |w.socks| && SockOk(s, w.featureRDMA) && SameIdentity(w.socks[sid], s)
    requires w' == w.(socks := w.socks[sid := s], k := w'.k, conns := w'.conns, log := w.log + [e])
    requires Told(s, sid, w.log + [e], w.featureRDMA)
    ensures Inv(w')
  {
    hide SockOk;
    hide D.Shaped;
    SetRegistry(w.processes, w.socks, sid, s);
    NoteHistory(w.socks, w.log, w.featureRDMA, sid, s, e);
    hide Registry;
    hide History;
  }

  lemma ToldAt(w: World, sid: nat)
    requires Inv(w) && sid < |w.socks|
    ensures Told(w.socks[sid], sid, w.log, w.featureRDMA)
  {
  }

  // ---------------------------------------------------------------- registration

  /** Registering, spelled out. */
  lemma RegisterCases(w: World, pid: int, fd: int, o: RegOracle)
    ensures var w1 := KnowProcess(w, pid);
            var (w2, info) := GetPidFdInfo(w1, pid, o.pid);
            && pid in w1.processes && w2.processes == w1.processes
            && Register(w, pid, fd, o) ==
               if fd in w1.processes[pid] then (w1, Some(w1.processes[pid][fd]))
               else if pid in w1.pidInfos && w1.pidInfos[pid].pidType.THREAD? then (w1, None)
               else if info.None? || o.getfd.None? then (w2, None)
               else (Register1(w2.(k := w2.k.Open(o.getfd.value, Loose).Close(o.getfd.value, Loose)), pid, fd, o), Some(|w2.socks|))
  {
    PidOnly(KnowProcess(w, pid), pid, o.pid);
    hide GetPidFdInfo;
    hide Register1;
  }

  lemma EmptyProcess(processes: map<int, map<int, nat>>, socks: seq<Sock>, pid: int)
    requires Registry(processes, socks) && pid !in processes
    ensures Registry(processes[pid := map[]], socks)
  {
    var processes' := processes[pid := map[]];
    forall p, f | p in processes' && f in processes'[p]
      ensures FiledOk(processes', socks, p, f)
    {
      assert FiledOk(processes, socks, p, f);
    }
    forall sid | 0 <= sid < |socks|
      ensures LiveIsFiled(processes', socks, sid)
    {
      assert LiveIsFiled(processes, socks, sid);
    }
  }

  lemma KnowProcessSound(w: World, pid: int)
    requires Inv(w)
    ensures Sound(w, KnowProcess(w, pid))
  {
    InvRegistry(w);
    hide Inv;
    if pid !in w.processes {
      EmptyProcess(w.processes, w.socks, pid);
    }
    hide Registry;
    SameSocksSound(w, KnowProcess(w, pid));
  }

  lemma AddRegistry(w: World, pid: int, fd: int, o: RegOracle)
    requires Registry(w.processes, w.socks) && pid in w.processes && fd !in w.processes[pid]
    ensures var w' := Register1(w, pid, fd, o);
            Registry(w'.processes, w'.socks)
  {
    var w' := Register1(w, pid, fd, o);
    forall p, f | p in w'.processes && f in w'.processes[p]
      ensures FiledOk(w'.processes, w'.socks, p, f)
    {
      if p != pid || f != fd {
        assert FiledOk(w.processes, w.socks, p, f);
      }
    }
    forall sid | 0 <= sid < |w'.socks|
      ensures LiveIsFiled(w'.processes, w'.socks, sid)
    {
      if sid < |w.socks| {
        assert LiveIsFiled(w.processes, w.socks, sid);
      }
    }
  }

  lemma AddHistory(socks: seq<Sock>, s: Sock, log: seq<Event>, featureRDMA: bool)
    requires History(socks, log, featureRDMA) && !s.state.Bypassed?
    ensures History(socks + [s], log, featureRDMA)
  {
    assert Told(s, |socks|, log, featureRDMA);
    hide Told;
  }

  lemma AddGrows(w: World, w': World, s: Sock)
    requires w'.socks == w.socks + [s] && w'.log == w.log && w'.conns == w.conns
    requires s.hs == [] && s.workers == []
    ensures NoNewPeers(w.socks, w'.socks) && NewEvents(w, w') && NewNames(w, w')
    ensures SocksGrow(w.socks, w'.socks, w.featureRDMA)
  {
    hide EventOk;
  }

  lemma Register1Sound(w: World, pid: int, fd: int, o: RegOracle)
    requires Inv(w) && pid in w.processes && fd !in w.processes[pid]
    ensures Sound(w, Register1(w, pid, fd, o))
  {
    var args := if o.args.None? then SockArgs(0, 0, 0) else o.args.value;
    var s := NewSock(FirstState(o), pid, fd, args.domain, args.kind, args.proto);
    NewSockOk(FirstState(o), pid, fd, args.domain, args.kind, args.proto, w.featureRDMA);
    var w' := Register1(w, pid, fd, o);
    AddRegistry(w, pid, fd, o);
    AddHistory(w.socks, s, w.log, w.featureRDMA);
    AddGrows(w, w', s);
    hide SockOk;
    hide D.Shaped;
    hide Registry;
    hide History;
    hide NoNewPeers;
    hide SocksGrow;
    hide NewEvents;
    hide NewNames;
    assert AllOk(w'.socks, w.featureRDMA);
  }

  /** Registering always files a live socket under the given number, and does
      nothing else to the sockets already there. */
  lemma RegisterSound(w: World, pid: int, fd: int, o: RegOracle)
    requires Inv(w)
    ensures var (w', sid) := Register(w, pid, fd, o);
            && Sound(w, w') && w.socks <= w'.socks
            && w'.log == w.log && w'.conns == w.conns && w'.reused == w.reused && w'.lost == w.lost
            && (sid.Some? ==> sid.value < |w'.socks| && w'.Registered(pid, fd) == sid)
            && (w.Registered(pid, fd).Some? ==> sid == w.Registered(pid, fd) && w'.socks == w.socks)
            && (w.Registered(pid, fd).None? && sid.Some? ==> sid.value == |w.socks| && |w'.socks| == |w.socks| + 1)
  {
    hide Sound;
    hide Inv;
    hide Register;
    hide Register1;
    hide GetPidFdInfo;
    RegisterCases(w, pid, fd, o);
    KnowProcessSound(w, pid);
    var w1 := KnowProcess(w, pid);
    SoundImplies(w, w1);
    if w1.Registered(pid, fd).Some? || (pid in w1.pidInfos && w1.pidInfos[pid].pidType.THREAD?) {
      Filed(w1, pid, fd);
    } else {
      RegisterCases(w1, pid, fd, o);
      NewRegistrationSound(w1, pid, fd, o);
      SoundTransitive(w, w1, Register(w1, pid, fd, o).0);
    }
  }

  lemma NewRegistrationSound(w: World, pid: int, fd: int, o: RegOracle)
    requires Inv(w) && pid in w.processes && fd !in w.processes[pid]
    requires !(pid in w.pidInfos && w.pidInfos[pid].pidType.THREAD?)
    ensures var (w', sid) := Register(w, pid, fd, o);
            && Sound(w, w') && w.socks <= w'.socks
            && w'.log == w.log && w'.conns == w.conns && w'.reused == w.reused && w'.lost == w.lost
            && (sid.Some? ==> sid.value == |w.socks| && |w'.socks| == |w.socks| + 1 && w'.Registered(pid, fd) == sid)
  {
    hide Sound;
    hide Inv;
    var w2 := GetPidFdInfo(w, pid, o.pid).0;
    CachesOnly(w, pid, o.pid, ZERO_SOCKADDR, NoOracle(o));
    hide GetPidFdInfo;
    CachesSound(w, w2);
    if Register(w, pid, fd, o).1.Some? {
      var w3 := w2.(k := w2.k.Open(o.getfd.value, Loose).Close(o.getfd.value, Loose));
      CachesSound(w, w3);
      SoundImplies(w, w3);
      Register1Sound(w3, pid, fd, o);
      SoundTransitive(w, w3, Register1(w3, pid, fd, o));
    }
  }

  lemma SoundImplies(w: World, w': World)
    requires Sound(w, w')
    ensures Inv(w') && |w.socks| <= |w'.socks|
  {
    hide Inv;
  }

  lemma Filed(w: World, pid: int, fd: int)
    requires Inv(w)
    ensures w.Registered(pid, fd).Some? ==> w.Registered(pid, fd).value < |w.socks|
  {
    if w.Registered(pid, fd).Some? {
      assert FiledOk(w.processes, w.socks, pid, fd);
    }
  }

  function NoOracle(o: RegOracle): LoopOracle {
    LoopOracle(o.pid, o, o, o, None, None, None, [], {}, [], false, None, false, None, None)
  }

  // --------------------------------------------------------------------- removal

  /** Two registrations never share a socket. */
  lemma FiledOnce(w: World, pid: int, fd: int, pid': int, fd': int)
    requires Inv(w)
    requires w.Registered(pid, fd).Some? && w.Registered(pid, fd) == w.Registered(pid', fd')
    ensures pid == pid' && fd == fd'
  {
    assert FiledOk(w.processes, w.socks, pid, fd) && FiledOk(w.processes, w.socks, pid', fd');
  }

  lemma RemoveSound(s: Sock, mayCarry: bool, featureRDMA: bool)
    requires SockOk(s, featureRDMA)
    ensures SockOk(Removed(s), featureRDMA) && SockGrows(s, Removed(s), mayCarry) && Quiet(s, Removed(s)) && Removed(s).cancelled
  {
    RemoveKeeps(s, featureRDMA);
  }

  /** All sockets in `sids` are removed, the others untouched. */
  ghost predicate RemovedExactly(w: World, w': World, sids: set<nat>) {
    && w' == w.(processes := w'.processes, socks := w'.socks, k := w'.k)
    && |w'.socks| == |w.socks|
    && forall sid | 0 <= sid < |w.socks| :: w'.socks[sid] == if sid in sids then Removed(w.socks[sid]) else w.socks[sid]
  }

  lemma RemovedHistory(w: World, w': World, sids: set<nat>)
    requires History(w.socks, w.log, w.featureRDMA) && RemovedExactly(w, w', sids)
    ensures History(w'.socks, w.log, w.featureRDMA)
  {
    forall sid | 0 <= sid < |w'.socks|
      ensures Told(w'.socks[sid], sid, w.log, w.featureRDMA)
    {
      assert Told(w.socks[sid], sid, w.log, w.featureRDMA);
      if sid in sids && w.socks[sid].state.Bypassed? && !MayCarryRsocket(w.featureRDMA, w.socks[sid]) {
        StillExplained(w.socks[sid], Removed(w.socks[sid]), sid, w.log, w.log);
      }
    }
    hide Told;
  }

  lemma RemovedGrows(w: World, w': World, sids: set<nat>)
    requires AllOk(w.socks, w.featureRDMA) && RemovedExactly(w, w', sids)
    ensures AllOk(w'.socks, w.featureRDMA) && NoNewPeers(w.socks, w'.socks) && SocksGrow(w.socks, w'.socks, w.featureRDMA)
  {
    forall sid | 0 <= sid < |w.socks|
      ensures SockOk(w'.socks[sid], w.featureRDMA) && Quiet(w.socks[sid], w'.socks[sid])
      ensures SockGrows(w.socks[sid], w'.socks[sid], MayCarryRsocket(w.featureRDMA, w.socks[sid]))
    {
      assert SockOk(w.socks[sid], w.featureRDMA);
      RemoveSound(w.socks[sid], MayCarryRsocket(w.featureRDMA, w.socks[sid]), w.featureRDMA);
      QuietItself(w.socks[sid]);
      hide SockOk;
      hide Removed;
      hide Quiet;
    }
    hide SockOk;
    hide SockGrows;
    hide Quiet;
    hide Removed;
  }

  lemma RemovedSound(w: World, w': World, sids: set<nat>)
    requires Inv(w) && RemovedExactly(w, w', sids) && Registry(w'.processes, w'.socks)
    ensures Sound(w, w')
  {
    hide Registry;
    hide D.Shaped;
    RemovedGrows(w, w', sids);
    RemovedHistory(w, w', sids);
    hide AllOk;
    hide NoNewPeers;
    hide SocksGrow;
    hide History;
    hide EventOk;
    hide Removed;
  }

  lemma UnregisterSound(w: World, pid: int, fd: int)
    requires Inv(w)
    ensures Sound(w, Unregister(w, pid, fd)) && |Unregister(w, pid, fd).socks| == |w.socks|
    ensures Unregister(w, pid, fd).Registered(pid, fd).None?
  {
    hide Inv;
    UnregisterIs(w, pid, fd);
    var w' := Unregister(w, pid, fd);
    UnregisterRegistry(w, pid, fd, w');
    hide Registry;
    hide Unregister;
    RemovedSound(w, w', if w.Registered(pid, fd).Some? then {w.Registered(pid, fd).value} else {});
  }

  ghost predicate UnregisteredExactly(w: World, w': World, pid: int, fd: int) {
    && (w.Registered(pid, fd).Some? ==> w.Registered(pid, fd).value < |w.socks|)
    && RemovedExactly(w, w', if w.Registered(pid, fd).Some? then {w.Registered(pid, fd).value} else {})
    && (forall p, f :: p in w'.processes && f in w'.processes[p] <==>
                       p in w.processes && f in w.processes[p] && !(p == pid && f == fd))
    && (forall p, f :: p in w'.processes && f in w'.processes[p] ==> w'.processes[p][f] == w.processes[p][f])
  }

  lemma UnregisterRegistry(w: World, pid: int, fd: int, w': World)
    requires Inv(w) && UnregisteredExactly(w, w', pid, fd)
    ensures Registry(w'.processes, w'.socks)
  {
    InvRegistry(w);
    hide Inv;
    var sid := w.Registered(pid, fd);
    forall p, f | p in w'.processes && f in w'.processes[p]
      ensures FiledOk(w'.processes, w'.socks, p, f)
    {
      assert FiledOk(w.processes, w.socks, p, f);
      if sid.Some? && sid == w.Registered(p, f) {
        FiledOnce(w, pid, fd, p, f);
      }
    }
    forall i | 0 <= i < |w'.socks|
      ensures LiveIsFiled(w'.processes, w'.socks, i)
    {
      assert LiveIsFiled(w.processes, w.socks, i);
    }
  }

  lemma UnregisterIs(w: World, pid: int, fd: int)
    requires Inv(w)
    ensures UnregisteredExactly(w, Unregister(w, pid, fd), pid, fd)
    ensures Unregister(w, pid, fd).Registered(pid, fd).None?
  {
    hide Inv;
    hide Removed;
    hide CloseEach;
    Filed(w, pid, fd);
  }

  lemma {:induction false} RemoveEachIs(w: World, sids: set<nat>, n: nat)
    requires n <= |w.socks|
    ensures var w' := RemoveEach(w, sids, n);
            && w' == w.(socks := w'.socks, k := w'.k)
            && forall sid | 0 <= sid < |w.socks| ::
                 w'.socks[sid] == if sid in sids && sid < n then Removed(w.socks[sid]) else w.socks[sid]
  {
    hide Removed;
    hide CloseEach;
    if n > 0 {
      RemoveEachIs(w, sids, n - 1);
    }
  }

  lemma DropRegistry(w: World, pid: int, w': World)
    requires Inv(w) && pid in w.processes && RemovedExactly(w, w', SidsOf(w, pid)) && w'.processes == w.processes - {pid}
    ensures Registry(w'.processes, w'.socks)
  {
    InvRegistry(w);
    hide Inv;
    forall p, f | p in w'.processes && f in w'.processes[p]
      ensures FiledOk(w'.processes, w'.socks, p, f)
    {
      assert FiledOk(w.processes, w.socks, p, f);
      forall f' | f' in w.processes[pid]
        ensures w.processes[pid][f'] != w.processes[p][f]
      {
        assert FiledOk(w.processes, w.socks, pid, f');
      }
    }
    forall sid | 0 <= sid < |w'.socks|
      ensures LiveIsFiled(w'.processes, w'.socks, sid)
    {
      assert LiveIsFiled(w.processes, w.socks, sid);
      if w.socks[sid].pid == pid && !w.socks[sid].cancelled {
        assert sid in SidsOf(w, pid);
      }
    }
  }

  lemma DropProcessSound(w: World, pid: int)
    requires Inv(w)
    ensures Sound(w, DropProcess(w, pid))
  {
    var w' := DropProcess(w, pid);
    if pid in w.processes {
      hide Inv;
      hide Removed;
      hide RemoveEach;
      RemoveEachIs(w, SidsOf(w, pid), |w.socks|);
      DropRegistry(w, pid, w');
      hide Registry;
      RemovedSound(w, w', SidsOf(w, pid));
    } else {
      CachesSound(w, w');
    }
  }

  lemma HandleExitSound(w: World, pid: int, info: PidInfo)
    requires Inv(w)
    ensures Sound(w, HandleExit(w, pid, info))
  {
    hide Inv;
    hide Sound;
    var w1 := DropPid(w, pid);
    CachesSound(w, w1);
    SoundImplies(w, w1);
    var w2 := DropProcess(w1, info.tgid);
    DropProcessSound(w1, info.tgid);
    SoundTransitive(w, w1, w2);
    SoundImplies(w, w2);
    CachesSound(w2, DropMem(w2, info.tgid));
    SoundTransitive(w, w2, DropMem(w2, info.tgid));
  }

  // -------------------------------------------------------------------- handlers

  lemma UnsettledGrows(s: Sock, s': Sock, mayCarry: bool)
    requires Tame(s, s', mayCarry) && !Settled(s)
    ensures SockGrows(s, s', mayCarry)
  {
  }

  /** A handler that changed one unsettled socket, keeping it well formed. */
  lemma LiftSound(w: World, sid: nat, h: Handled)
    requires Inv(w) && sid < |w.socks| && !Settled(w.socks[sid])
    requires SockOk(h.s, w.featureRDMA) && Quiet(w.socks[sid], h.s)
    requires Tame(w.socks[sid], h.s, MayCarryRsocket(w.featureRDMA, w.socks[sid]))
    ensures Sound(w, Lift(w, sid, h).w)
  {
    hide Inv;
    hide Sound;
    hide SockOk;
    UnsettledGrows(w.socks[sid], h.s, MayCarryRsocket(w.featureRDMA, w.socks[sid]));
    SetSockSound(w, sid, h.s, h.k);
  }

  lemma SockFacts(w: World, sid: nat)
    requires Inv(w) && sid < |w.socks|
    ensures SockOk(w.socks[sid], w.featureRDMA) && D.Shaped(w.de) && w.de.featureRDMA == w.featureRDMA
    ensures Valid(w.socks[sid].local) && Valid(w.socks[sid].remote)
  {
    assert SockOk(w.socks[sid], w.featureRDMA);
  }

  lemma BoundTame(s: Sock, s1: Sock, b: Binding, state: SocketState, mayCarry: bool, featureRDMA: bool)
    requires s.hs == [] && s.workers == [] && s1 == s.(local := s1.local)
    requires Binding1(s1, b, featureRDMA) && !state.Bypassed?
    ensures Tame(s, b.s.(state := state), mayCarry) && Quiet(s, b.s.(state := state))
  {
  }

  lemma UnboundHasNothing(s: Sock, featureRDMA: bool)
    requires SockOk(s, featureRDMA) && s.state == NotBypassed
    ensures s.hs == [] && s.hostSockets == map[] && s.workers == []
  {
  }

  lemma NamedTame(s: Sock, s': Sock, mayCarry: bool)
    requires s' == s.(state := s'.state, local := s'.local) && (s'.state.Bypassed? ==> s.state.Bypassed?)
    ensures Tame(s, s', mayCarry) && Quiet(s, s')
  {
  }

  lemma BindTame(s: Sock, sid: nat, buf: Option<Bytes>, de: D.Dest, os: seq<Try>, featureRDMA: bool, k: Kern, mayCarry: bool)
    requires SockOk(s, featureRDMA) && D.Shaped(de)
    ensures var h := HandleBind(s, sid, buf, de, os, featureRDMA, k);
            Tame(s, h.s, mayCarry) && Quiet(s, h.s)
  {
    hide Parse;
    hide SockOk;
    hide D.Shaped;
    hide Tame;
    hide Quiet;
    hide Binding1;
    var h := HandleBind(s, sid, buf, de, os, featureRDMA, k);
    if s.state != NotBypassed || buf.None? || Parse(buf.value).None? {
      NamedTame(s, h.s, mayCarry);
    } else {
      UnboundHasNothing(s, featureRDMA);
      var s1 := s.(local := Parse(buf.value).value);
      NamedTame(s, s1, mayCarry);
      var entries := de.GetServer(s1.local.port);
      ServerPorts(de, s1.local.port);
      hide D.Dest.GetServer;
      if entries != [] {
        BindEachKeeps(s1, sid, entries, os, |entries|, featureRDMA, k);
        BoundTame(s, s1, BindEach(s1, sid, entries, os, |entries|, featureRDMA, k), h.s.state, mayCarry, featureRDMA);
      }
    }
  }

  lemma ListenOneTame(s: Sock, r: Sock, hid: nat, listens: set<int>)
    requires hid < |r.hs| && r == s.(hs := r.hs, workers := r.workers) && Quiet(s, r)
    ensures var r' := ListenOne(r, hid, listens);
            r' == s.(hs := r'.hs, workers := r'.workers) && Quiet(s, r')
  {
    ListenOneIs(r, hid, listens);
    ListenOneMakesNone(r, hid, listens);
    hide ListenOne;
  }

  lemma ListenOneMakesNone(s: Sock, hid: nat, listens: set<int>)
    requires hid < |s.hs|
    ensures ListenOne(s, hid, listens).hs[hid].state == HostSocketAccepted ==> ListenOne(s, hid, listens) == s
  {
    hide InTable;
  }

  lemma {:induction false} ListenTame(s: Sock, n: nat, listens: set<int>)
    requires n <= |s.hs|
    ensures var r := ListenEach(s, n, listens);
            r == s.(hs := r.hs, workers := r.workers) && Quiet(s, r)
  {
    hide ListenOne;
    hide Quiet;
    if n == 0 {
      QuietItself(s);
    } else {
      ListenTame(s, n - 1, listens);
      ListenOneTame(s, ListenEach(s, n - 1, listens), n - 1, listens);
    }
  }

  lemma DoBindSound(w: World, pid: int, sid: nat, o: LoopOracle)
    requires Inv(w) && sid < |w.socks| && !Settled(w.socks[sid])
    ensures Sound(w, DoBind(w, pid, sid, o).w)
  {
    hide Inv;
    hide Sound;
    hide SockOk;
    hide HandleBind;
    hide Valid;
    hide D.Shaped;
    hide Tame;
    hide Quiet;
    CachesSound(w, w);
    CachesOnly(w, pid, o.pid, ZERO_SOCKADDR, o);
    var (w1, buf) := ReadMem(w, pid, o);
    hide ReadMem;
    CachesSound(w, w1);
    SoundImplies(w, w1);
    SockFacts(w1, sid);
    var s := w1.socks[sid];
    BindKeeps(s, sid, buf, w1.de, o.tries, w1.featureRDMA, w1.k);
    BindTame(s, sid, buf, w1.de, o.tries, w1.featureRDMA, w1.k, MayCarryRsocket(w1.featureRDMA, s));
    var h := HandleBind(s, sid, buf, w1.de, o.tries, w1.featureRDMA, w1.k);
    LiftSound(w1, sid, h);
    SoundTransitive(w, w1, Lift(w1, sid, h).w);
  }

  lemma ListeningTame(s: Sock, listens: set<int>, featureRDMA: bool, k: Kern, mayCarry: bool)
    ensures var h := HandleListen(s, listens, featureRDMA, k);
            Tame(s, h.s, mayCarry) && Quiet(s, h.s)
  {
    ListenTame(s, |s.hs|, listens);
    hide ListenEach;
  }

  lemma DoListenSound(w: World, sid: nat, listens: set<int>)
    requires Inv(w) && sid < |w.socks| && !Settled(w.socks[sid])
    ensures Sound(w, Lift(w, sid, HandleListen(w.socks[sid], listens, w.featureRDMA, w.k)).w)
  {
    hide Inv;
    hide Sound;
    hide SockOk;
    hide Valid;
    hide HandleListen;
    hide Tame;
    hide Quiet;
    SockFacts(w, sid);
    var s := w.socks[sid];
    ListenKeeps(s, listens, w.featureRDMA, w.k);
    ListeningTame(s, listens, w.featureRDMA, w.k, MayCarryRsocket(w.featureRDMA, s));
    LiftSound(w, sid, HandleListen(s, listens, w.featureRDMA, w.k));
  }

  lemma DoSetsockoptSound(w: World, pid: int, sid: nat, level: nat, optname: nat, optlen: nat, o: LoopOracle)
    requires Inv(w) && sid < |w.socks| && !Settled(w.socks[sid])
    ensures Sound(w, DoSetsockopt(w, pid, sid, level, optname, optlen, o).w)
  {
    hide Inv;
    hide Sound;
    hide SockOk;
    hide Valid;
    CachesOnly(w, pid, o.pid, ZERO_SOCKADDR, o);
    var (w1, optval) := ReadMem(w, pid, o);
    hide ReadMem;
    CachesSound(w, w1);
    SoundImplies(w, w1);
    var s := w1.socks[sid];
    var opt := if optval.None? then None else Some(SockOpt(level, optname, optval.value, optlen));
    SockFacts(w1, sid);
    OptionsKeep(s, opt, 0, 0, o.callOk, o.dup, w1.featureRDMA, w1.k);
    QuietItself(s);
    LiftSound(w1, sid, HandleSetsockopt(s, opt, o.callOk, w1.k));
    SoundTransitive(w, w1, Lift(w1, sid, HandleSetsockopt(s, opt, o.callOk, w1.k)).w);
  }

  lemma DoFcntlSound(w: World, sid: nat, cmd: nat, value: nat, o: LoopOracle)
    requires Inv(w) && sid < |w.socks| && !Settled(w.socks[sid])
    ensures Sound(w, DoFcntl(w, sid, cmd, value, o).w)
  {
    hide Inv;
    hide Sound;
    hide SockOk;
    hide Valid;
    var s := w.socks[sid];
    SockFacts(w, sid);
    OptionsKeep(s, None, cmd, value, o.callOk, o.dup, w.featureRDMA, w.k);
    QuietItself(s);
    LiftSound(w, sid, HandleFcntl(s, cmd, value, o.callOk, o.dup, w.k));
  }

  /** A connect that ends bypassed was allowed to reach its peer, and the handshake it
      sent announced the socket's own name. */
  lemma ConnectTells(s: Sock, buf: Option<Bytes>, cae: AC.Acl, de: D.Dest, draws: seq<Draw>, featureRDMA: bool,
                     sendOk: bool, addFdOk: bool, k: Kern)
    requires !s.state.Bypassed?
    ensures var c := HandleConnect(s, buf, cae, de, draws, featureRDMA, sendOk, addFdOk, k);
            && (c.s.state.Bypassed? ==> IsAddress(c.s.remote.ip) && cae.Apply(c.s.remote.ip))
            && (c.dialed.Some? ==> !c.stuck && Settled(c.s))
            && (c.sent.Some? ==> c.dialed.Some? && c.sent == Print(c.s.local) && |c.sent.value| == SIZE_INET4)
  {
    hide Select;
    hide AC.Acl.Apply;
    hide D.Dest.GetClient;
    hide Print;
  }

  lemma DialledInv(w: World, sid: nat, c: Connected)
    requires Inv(w) && sid < |w.socks| && !Settled(w.socks[sid]) && SockOk(c.s, w.featureRDMA)
    requires c.s == w.socks[sid].(state := c.s.state, remote := c.s.remote)
    requires c.s.state.Bypassed? ==> IsAddress(c.s.remote.ip)
    ensures Inv(Dialled(w, sid, c))
  {
    hide SockOk;
    ToldAt(w, sid);
    hide Inv;
    var w' := Dialled(w, sid, c);
    if c.s.state.Bypassed? {
      var e := Reached(sid, c.s.remote.ip, w.now);
      ToldMore(w.socks[sid], c.s, sid, w.log, e, w.featureRDMA);
      hide Told;
      NoteInv(w, sid, c.s, w', e);
    } else {
      SetSockInv(w, sid, c.s, c.k);
      ConnsInv(w.SetSock(sid, c.s, c.k), w');
    }
  }

  lemma DialledNews(w: World, sid: nat, c: Connected)
    requires sid < |w.socks|
    requires c.s.state.Bypassed? && IsAddress(c.s.remote.ip) ==> w.cae.Apply(c.s.remote.ip)
    requires c.dialed.Some? ==> Settled(c.s)
    requires c.sent.Some? ==> c.sent == Print(c.s.local) && |c.sent.value| == SIZE_INET4
    ensures NewEvents(w, Dialled(w, sid, c)) && NewNames(w, Dialled(w, sid, c))
  {
    hide Print;
    hide AC.Acl.Apply;
    hide PeerOf;
    hide PeerAddress;
    var w' := Dialled(w, sid, c);
    assert forall i | |w.log| <= i < |w'.log| :: EventOk(w, w'.log[i]) && InjectionNamed(w'.socks, w'.log[i]);
    hide EventOk;
    hide InjectionNamed;
    assert forall i | |w.conns| <= i < |w'.conns| :: ConnNamed(w'.socks, w'.conns[i]);
  }

  lemma TouchedGrows(s: Sock, s': Sock, mayCarry: bool)
    requires s' == s.(state := s'.state, remote := s'.remote) && !Settled(s)
    ensures Quiet(s, s') && SockGrows(s, s', mayCarry)
  {
  }

  lemma DialledFrame(w: World, sid: nat, c: Connected)
    requires sid < |w.socks|
    ensures Frame(w, Dialled(w, sid, c)) && Dialled(w, sid, c).socks == w.socks[sid := c.s]
  {
  }

  lemma DialledSound(w: World, sid: nat, c: Connected)
    requires Inv(w) && sid < |w.socks| && !Settled(w.socks[sid]) && SockOk(c.s, w.featureRDMA)
    requires c.s == w.socks[sid].(state := c.s.state, remote := c.s.remote)
    requires c.s.state.Bypassed? ==> IsAddress(c.s.remote.ip) && w.cae.Apply(c.s.remote.ip)
    requires c.dialed.Some? ==> Settled(c.s)
    requires c.sent.Some? ==> c.sent == Print(c.s.local) && |c.sent.value| == SIZE_INET4
    ensures Sound(w, Dialled(w, sid, c))
  {
    hide *;
    DialledInv(w, sid, c);
    DialledNews(w, sid, c);
    DialledFrame(w, sid, c);
    TouchedGrows(w.socks[sid], c.s, MayCarryRsocket(w.featureRDMA, w.socks[sid]));
    SetNoNewPeers(w.socks, sid, c.s);
    SetSocksGrow(w.socks, sid, c.s, w.featureRDMA);
    assert Grows(w, Dialled(w, sid, c)) by { GrowsParts(w, Dialled(w, sid, c)); }
    SoundIs(w, Dialled(w, sid, c));
  }

  lemma GrowsParts(w: World, w': World)
    requires Frame(w, w') && NoNewPeers(w.socks, w'.socks) && NewEvents(w, w')
    requires SocksGrow(w.socks, w'.socks, w.featureRDMA) && NewNames(w, w')
    ensures Grows(w, w')
  {
  }

  lemma SoundIs(w: World, w': World)
    requires Inv(w') && Grows(w, w')
    ensures Sound(w, w')
  {
    hide Inv;
    hide Grows;
  }

  lemma ConnsInv(w: World, w': World)
    requires Inv(w) && w' == w.(conns := w'.conns)
    ensures Inv(w')
  {
    hide Registry;
    hide AllOk;
    hide History;
    hide D.Shaped;
  }

  lemma DoConnectSound(w: World, sid: nat, o: LoopOracle)
    requires Inv(w) && sid < |w.socks| && !Settled(w.socks[sid])
    ensures Sound(w, DoConnect(w, sid, o).w)
  {
    hide Inv;
    hide Sound;
    hide SockOk;
    hide Valid;
    hide HandleConnect;
    hide D.Shaped;
    hide Print;
    hide AC.Acl.Apply;
    CachesOnly(w, w.socks[sid].pid, o.pid, ZERO_SOCKADDR, o);
    var (w1, buf) := ReadMem(w, w.socks[sid].pid, o);
    hide ReadMem;
    CachesSound(w, w);
    CachesSound(w, w1);
    SoundImplies(w, w1);
    SockFacts(w1, sid);
    var s := w1.socks[sid];
    ConnectKeeps(s, buf, w1.cae, w1.de, o.draws, w1.featureRDMA, o.sendOk, o.addfd.Some?, w1.k);
    ConnectTouches(s, buf, w1.cae, w1.de, o.draws, w1.featureRDMA, o.sendOk, o.addfd.Some?, w1.k);
    ConnectTells(s, buf, w1.cae, w1.de, o.draws, w1.featureRDMA, o.sendOk, o.addfd.Some?, w1.k);
    var c := HandleConnect(s, buf, w1.cae, w1.de, o.draws, w1.featureRDMA, o.sendOk, o.addfd.Some?, w1.k);
    if !c.stuck {
      DialledSound(w1, sid, c);
      SoundTransitive(w, w1, Dialled(w1, sid, c));
    }
  }

  // ---------------------------------------------------------------------- accept

  /** The address a queued peer is known by can always be spelled. */
  lemma PeerAddressValid(s: Sock, h: HostSocket)
    requires Valid(s.local) && IsPeer(h)
    ensures PeerAddress(s, h).Some? && Valid(PeerAddress(s, h).value)
  {
    assert |To4(h.entry.vip)| == 4 && |To16(h.entry.vip)| == 16;
    if s.local.family == AF_INET6 {
      assert To16(To16(h.entry.vip)) == To16(h.entry.vip);
    }
  }

  /** Adoption: the socket is bypassed under the listener's name, and the log says so. */
  lemma AdoptInv(w: World, sid: nat, a: nat, peer: Sockaddr, h: HostSocket)
    requires Inv(w) && sid < |w.socks| && a < |w.socks| && Valid(peer)
    ensures Inv(Adopt(w, sid, a, peer, h))
  {
    SockFacts(w, sid);
    SockFacts(w, a);
    ToldAt(w, a);
    hide Valid;
    hide Inv;
    hide SockOk;
    var l, e := w.socks[sid].local, Injected(sid, h, a, w.now);
    var s := w.socks[a].(state := Bypassed, local := l, remote := peer);
    AdoptKeeps(w.socks[a], l, peer, w.featureRDMA);
    ToldMore(w.socks[a], s, a, w.log, e, w.featureRDMA);
    hide Told;
    NoteInv(w, a, s, Adopt(w, sid, a, peer, h), e);
  }

  lemma ReleaseSound(w: World, sid: nat, h: HostSocket)
    requires Inv(w) && sid < |w.socks| && w.socks[sid].state != NotBypassed && w.socks[sid].state != Binded
    ensures Sound(w, Release(w, sid, h))
  {
    SockFacts(w, sid);
    hide Inv;
    hide SockOk;
    var s := w.socks[sid];
    ReleaseKeeps(s, h.sockfd, w.featureRDMA);
    SetSockSound(w, sid, s.(hostSockets := s.hostSockets - {h.sockfd}), w.k.Close(h.sockfd, Host(sid)));
  }

  /** Adopting an unregistered descriptor's new socket disturbs none that was there
      before it; any adoption is on behalf of a peer. */
  lemma AdoptGrows(w: World, w2: World, sid: nat, a: nat, peer: Sockaddr, h: HostSocket)
    requires Grows(w, w2) && w2.log == w.log && w2.conns == w.conns
    requires sid < |w2.socks| && a < |w2.socks| && (w2.reused || a >= |w.socks|)
    requires PeerOf(w2.socks[sid], h) && Some(peer) == PeerAddress(w2.socks[sid], h)
    ensures Grows(w, Adopt(w2, sid, a, peer, h))
  {
    hide PeerAddress;
    hide PeerOf;
    var w3 := Adopt(w2, sid, a, peer, h);
    SetNoNewPeers(w2.socks, a, w3.socks[a]);
    NoNewPeersTransitive(w.socks, w2.socks, w3.socks);
    assert NewEvents(w2, w3);
    NewEventsTransitive(w, w2, w3);
    hide NewEvents;
    hide NoNewPeers;
    if !w3.reused {
      AdoptNames(w, w2, sid, a, peer, h);
    }
  }

  lemma AdoptNames(w: World, w2: World, sid: nat, a: nat, peer: Sockaddr, h: HostSocket)
    requires sid < |w2.socks| && a < |w2.socks| && a >= |w.socks|
    requires w.log <= w2.log && w.conns == w2.conns && w2.log == w.log
    requires SocksGrow(w.socks, w2.socks, w.featureRDMA)
    requires Some(peer) == PeerAddress(w2.socks[sid], h)
    ensures var w3 := Adopt(w2, sid, a, peer, h);
            SocksGrow(w.socks, w3.socks, w.featureRDMA) && NewNames(w, w3)
  {
    hide SockGrows;
  }

  /** Injecting, spelled out: register, report, adopt, release. */
  lemma InjectShape(w: World, pid: int, sid: nat, h: HostSocket, newfd: nat, o: LoopOracle)
    requires sid < |w.socks| && !Inject(w, pid, sid, h, newfd, o).stuck
    ensures var (w1, asid) := Register(w, pid, newfd, o.acc);
            && asid.Some? && PeerAddress(w.socks[sid], h).Some?
            && var peer := PeerAddress(w.socks[sid], h).value;
            && var w3 := Prelude(w, pid, newfd, peer, o);
            && sid < |w3.socks| && asid.value < |w3.socks|
            && Inject(w, pid, sid, h, newfd, o) ==
               Outcome(Release(Adopt(w3, sid, asid.value, peer, h), sid, h), Emulated(newfd), WriteMem(w1, pid, peer, o).1, Replied)
  {
    hide Register;
    hide PeerAddress;
    hide Adopt;
    hide Release;
    hide Print;
    var (w1, asid) := Register(w, pid, newfd, o.acc);
    if PeerAddress(w.socks[sid], h).Some? {
      CachesOnly(w1, pid, o.pid, PeerAddress(w.socks[sid], h).value, o);
    }
    hide WriteMem;
  }

  /** It goes wrong exactly if the descriptor cannot be registered or its address spelled. */
  lemma InjectRuns(w: World, pid: int, sid: nat, h: HostSocket, newfd: nat, o: LoopOracle)
    requires Inv(w) && sid < |w.socks|
    ensures Inject(w, pid, sid, h, newfd, o).stuck <==>
            Register(w, pid, newfd, o.acc).1.None? || PeerAddress(w.socks[sid], h).None?
  {
    RegisterSound(w, pid, newfd, o.acc);
    var w1 := Register(w, pid, newfd, o.acc).0;
    hide Inv;
    hide Sound;
    hide Register;
    hide PeerAddress;
    if PeerAddress(w.socks[sid], h).Some? {
      CachesOnly(w1, pid, o.pid, PeerAddress(w.socks[sid], h).value, o);
    }
    hide WriteMem;
  }

  /** The world in which the descriptor has been registered and its address reported. */
  function Prelude(w: World, pid: int, newfd: nat, peer: Sockaddr, o: LoopOracle): World {
    var w2 := WriteMem(Register(w, pid, newfd, o.acc).0, pid, peer, o).0;
    w2.(reused := w2.reused || w.Registered(pid, newfd).Some?)
  }

  lemma PreludeSound(w: World, pid: int, newfd: nat, peer: Sockaddr, o: LoopOracle)
    requires Inv(w) && Register(w, pid, newfd, o.acc).1.Some?
    ensures var w3, asid := Prelude(w, pid, newfd, peer, o), Register(w, pid, newfd, o.acc).1;
            && Sound(w, w3) && w.socks <= w3.socks
            && w3.log == w.log && w3.conns == w.conns && w3.lost == w.lost
            && w3.reused == (w.reused || w.Registered(pid, newfd).Some?)
            && asid.value < |w3.socks| && w3.Registered(pid, newfd) == asid
            && (w.Registered(pid, newfd).None? ==> asid.value == |w.socks| && |w3.socks| == |w.socks| + 1)
  {
    RegisterSound(w, pid, newfd, o.acc);
    hide Register;
    hide Inv;
    hide Sound;
    var (w1, asid) := Register(w, pid, newfd, o.acc);
    SoundImplies(w, w1);
    CachesOnly(w1, pid, o.pid, peer, o);
    var w2 := WriteMem(w1, pid, peer, o).0;
    hide WriteMem;
    CachesSound(w1, w2);
    SoundTransitive(w, w1, w2);
    SoundImplies(w1, w2);
    var w3 := Prelude(w, pid, newfd, peer, o);
    FlagsSound(w2, w3);
    SoundTransitive(w, w2, w3);
  }

  lemma SoundParts(w: World, w': World)
    requires Sound(w, w')
    ensures Inv(w') && Grows(w, w') && |w.socks| <= |w'.socks| && w'.featureRDMA == w.featureRDMA && w'.now == w.now
  {
    hide Inv;
  }

  lemma ReleaseFacts(w: World, sid: nat, h: HostSocket)
    requires sid < |w.socks|
    ensures var w' := Release(w, sid, h);
            && w' == w.(socks := w'.socks, k := w'.k) && |w'.socks| == |w.socks|
            && w'.socks[sid] == w.socks[sid].(hostSockets := w.socks[sid].hostSockets - {h.sockfd})
            && forall i | 0 <= i < |w.socks| && i != sid :: w'.socks[i] == w.socks[i]
  {
  }

  /** Injecting a peer keeps the invariant, and disturbs no settled socket unless it
      reuses a registered number. */
  lemma InjectSound(w: World, pid: int, sid: nat, h: HostSocket, newfd: nat, o: LoopOracle)
    requires Inv(w) && sid < |w.socks| && w.socks[sid].state == Listening && IsPeer(h) && PeerOf(w.socks[sid], h)
    requires !Inject(w, pid, sid, h, newfd, o).stuck
    ensures Sound(w, Inject(w, pid, sid, h, newfd, o).w)
  {
    InjectShape(w, pid, sid, h, newfd, o);
    SockFacts(w, sid);
    PeerAddressValid(w.socks[sid], h);
    hide Inject;
    hide Valid;
    hide Register;
    hide WriteMem;
    hide PeerAddress;
    hide Inv;
    hide SockOk;
    hide Grows;
    hide Release;
    hide PeerOf;
    hide IsPeer;
    var asid := Register(w, pid, newfd, o.acc).1;
    var peer := PeerAddress(w.socks[sid], h).value;
    PreludeSound(w, pid, newfd, peer, o);
    var w3 := Prelude(w, pid, newfd, peer, o);
    AdoptInv(w3, sid, asid.value, peer, h);
    AdoptGrows(w, w3, sid, asid.value, peer, h);
    var w4 := Adopt(w3, sid, asid.value, peer, h);
    ReleaseSound(w4, sid, h);
    SoundTransitive(w, w4, Release(w4, sid, h));
  }

  /** What injecting a peer leaves behind: socket `asid` answers for it under the
      listener's own name. */
  lemma InjectFacts(w: World, pid: int, sid: nat, h: HostSocket, newfd: nat, o: LoopOracle)
    requires Inv(w) && sid < |w.socks| && w.socks[sid].state == Listening && IsPeer(h)
    requires !Inject(w, pid, sid, h, newfd, o).stuck
    ensures var out := Inject(w, pid, sid, h, newfd, o);
            var asid := out.w.Registered(pid, newfd);
            && asid.Some? && asid.value < |out.w.socks|
            && out.w.log == w.log + [Injected(sid, h, asid.value, w.now)]
            && out.w.conns == w.conns && out.w.lost == w.lost
            && out.w.reused == (w.reused || w.Registered(pid, newfd).Some?)
            && out.reply == Emulated(newfd)
            && out.w.socks[asid.value].state == Bypassed
            && out.w.socks[asid.value].local == w.socks[sid].local
            && Some(out.w.socks[asid.value].remote) == PeerAddress(w.socks[sid], h)
            && (w.Registered(pid, newfd).None? ==>
                  && asid.value == |w.socks| && |out.w.socks| == |w.socks| + 1
                  && out.w.socks[sid] == w.socks[sid].(hostSockets := w.socks[sid].hostSockets - {h.sockfd}))
  {
    hide Inject;
    hide Register;
    hide WriteMem;
    hide PeerAddress;
    hide Inv;
    hide Release;
    hide Prelude;
    hide Grows;
    hide Sound;
    InjectShape(w, pid, sid, h, newfd, o);
    var asid := Register(w, pid, newfd, o.acc).1;
    var peer := PeerAddress(w.socks[sid], h).value;
    PreludeSound(w, pid, newfd, peer, o);
    var w3 := Prelude(w, pid, newfd, peer, o);
    SoundParts(w, w3);
    ReleaseFacts(Adopt(w3, sid, asid.value, peer, h), sid, h);
  }

  /** Accept takes the head of the queue, and finds it accepted. */
  lemma DequeueSound(w: World, sid: nat)
    requires Inv(w) && sid < |w.socks| && w.socks[sid].state == Listening && w.socks[sid].queue != []
    ensures var s := w.socks[sid];
            var w1 := w.SetSock(sid, Dequeue(s), w.k);
            && s.queue[0] < |s.hs| && IsPeer(s.hs[s.queue[0]]) && PeerOf(Dequeue(s), s.hs[s.queue[0]])
            && Sound(w, w1) && SockOk(Dequeue(s), w.featureRDMA)
  {
    SockFacts(w, sid);
    var s := w.socks[sid];
    DequeueKeeps(s, w.featureRDMA);
    QueuedAreAccepted(s, w.featureRDMA, 0);
    hide Inv;
    hide Sound;
    hide SockOk;
    LiftSound(w, sid, Handled(Dequeue(s), CONTINUE, w.k));
  }

  lemma LoseSound(w: World, sid: nat, h: HostSocket)
    requires Inv(w) && sid < |w.socks| && w.socks[sid].state == Listening
    ensures Sound(w, Lose(w, sid, h))
  {
    SockFacts(w, sid);
    hide Inv;
    hide Sound;
    hide SockOk;
    hide Valid;
    var s := w.socks[sid].(state := NotBypassable);
    NamesKeep(w.socks[sid], s, w.featureRDMA);
    var k := w.k.Close(h.sockfd, Host(sid));
    LiftSound(w, sid, Handled(s, CONTINUE, k));
    var w1 := w.SetSock(sid, s, k);
    SoundImplies(w, w1);
    FlagsSound(w1, w1.(lost := true));
    SoundTransitive(w, w1, w1.(lost := true));
  }

  lemma DoAcceptSound(w: World, pid: int, sid: nat, o: LoopOracle)
    requires Inv(w) && sid < |w.socks| && !Settled(w.socks[sid])
    ensures Sound(w, DoAccept(w, pid, sid, o).w)
  {
    hide Inv;
    hide Sound;
    hide SockOk;
    hide Inject;
    hide Lose;
    hide PeerOf;
    CachesSound(w, w);
    var s := w.socks[sid];
    if s.state == Listening && s.queue != [] {
      DequeueSound(w, sid);
      var h := s.hs[s.queue[0]];
      var w1 := w.SetSock(sid, Dequeue(s), w.k);
      SoundImplies(w, w1);
      if o.addfd.None? {
        LoseSound(w1, sid, h);
        SoundTransitive(w, w1, Lose(w1, sid, h));
      } else {
        var out := Inject(w1, pid, sid, h, o.addfd.value, o);
        if !out.stuck {
          InjectSound(w1, pid, sid, h, o.addfd.value, o);
          SoundTransitive(w, w1, out.w);
        }
      }
    }
  }

  // -------------------------------------------------------------------- dispatch

  lemma DoNameSound(w: World, pid: int, sa: Sockaddr, o: LoopOracle)
    requires Inv(w)
    ensures Sound(w, DoName(w, pid, sa, o).w)
  {
    CachesOnly(w, pid, o.pid, sa, o);
    hide WriteMem;
    CachesSound(w, WriteMem(w, pid, sa, o).0);
  }

  lemma DispatchSound(w: World, pid: int, sid: nat, call: Call, o: LoopOracle)
    requires Inv(w) && sid < |w.socks|
    requires !Settled(w.socks[sid]) || call.Getpeername? || call.Getsockname?
    ensures Sound(w, Dispatch(w, pid, sid, call, o).w)
  {
    hide Inv;
    hide Sound;
    hide DoBind;
    hide DoConnect;
    hide DoAccept;
    hide DoSetsockopt;
    hide DoName;
    hide HandleListen;
    hide DoFcntl;
    match call
    case Bind => DoBindSound(w, pid, sid, o);
    case Listen => DoListenSound(w, sid, o.listens);
    case Accept => DoAcceptSound(w, pid, sid, o);
    case Accept4 => DoAcceptSound(w, pid, sid, o);
    case Connect => DoConnectSound(w, sid, o);
    case Setsockopt(level, optname, optlen) => DoSetsockoptSound(w, pid, sid, level, optname, optlen, o);
    case Fcntl(cmd, value) => DoFcntlSound(w, sid, cmd, value, o);
    case Getpeername => DoNameSound(w, pid, w.socks[sid].remote, o);
    case Getsockname => DoNameSound(w, pid, w.socks[sid].local, o);
    case _ => CachesSound(w, w);
  }

  /** A handler is called on a registered socket, and on a settled one only to ask for
      its names. */
  ghost predicate Called(st: Setting, req: Request) {
    st.sid.Some? ==>
      && st.sid.value < |st.w.socks| && st.w.Registered(st.pid, req.fd) == st.sid
      && (!Settled(st.w.socks[st.sid.value]) || req.call.Getpeername? || req.call.Getsockname?)
  }

  lemma GateSound(w: World, pid: int, sid: nat, req: Request, o: LoopOracle)
    requires Inv(w) && sid < |w.socks| && w.Registered(pid, req.fd) == Some(sid)
    ensures Sound(w, Gate(w, pid, sid, req, o).w) && Called(Gate(w, pid, sid, req, o), req)
  {
    hide Inv;
    hide Sound;
    hide Register;
    hide Unregister;
    CachesSound(w, w);
    if w.socks[sid].state == NotBypassable && (req.call.Connect? || req.call.Bind?) {
      UnregisterSound(w, pid, req.fd);
      var w0 := Unregister(w, pid, req.fd);
      SoundImplies(w, w0);
      RegisterSound(w0, pid, req.fd, o.rereg);
      SoundTransitive(w, w0, Register(w0, pid, req.fd, o.rereg).0);
    }
  }

  lemma RsocketSound(w: World, sid: nat, o: LoopOracle)
    requires Inv(w) && sid < |w.socks| && w.featureRDMA
    ensures Sound(w, InitializeRsocket(w, sid, o).0)
  {
    hide Inv;
    hide Sound;
    hide SockOk;
    hide UnixPath;
    hide Valid;
    CachesSound(w, w);
    var s := w.socks[sid];
    if s.sockDomain == DOMAIN_UNIX && s.sockType == SOCK_STREAM {
      CachesOnly(w, s.pid, o.pid, ZERO_SOCKADDR, o);
      var (w1, buf) := ReadMem(w, s.pid, o);
      hide ReadMem;
      CachesSound(w, w1);
      SoundImplies(w, w1);
      SockFacts(w1, sid);
      var s' := s.(state := if o.addfd.None? then NotBypassable else Bypassed);
      QuietItself(s);
      NamesKeep(s, s', w.featureRDMA);
      var w' := InitializeRsocket(w, sid, o).0;
      SetSockSound(w1, sid, s', w'.k);
      SoundTransitive(w, w1, w1.SetSock(sid, s', w'.k));
    }
  }

  lemma RsocketTouches(w: World, sid: nat, o: LoopOracle)
    requires sid < |w.socks|
    ensures var w' := InitializeRsocket(w, sid, o).0;
            && w' == w.(memfds := w'.memfds, socks := w'.socks, k := w'.k)
            && |w'.socks| == |w.socks|
            && (forall i | 0 <= i < |w.socks| && i != sid :: w'.socks[i] == w.socks[i])
            && w'.socks[sid] == w.socks[sid].(state := w'.socks[sid].state)
            && (w.featureRDMA && !MayCarryRsocket(w.featureRDMA, w.socks[sid]) ==> w'.socks == w.socks)
            && (InitializeRsocket(w, sid, o).1 ==> w'.socks[sid].state == Bypassed)
  {
    hide UnixPath;
    hide ReadMem;
    hide TakeOver;
    MemOnly(w, w.socks[sid].pid, o);
    var w1 := ReadMem(w, w.socks[sid].pid, o).0;
    if o.pair.Some? {
      TakeOverTouches(w1, sid, o.pair.value, o.addfd.Some?);
    }
  }

  lemma TakeOverTouches(w: World, sid: nat, pair: (int, int), injected: bool)
    requires sid < |w.socks|
    ensures var w' := TakeOver(w, sid, pair, injected);
            && w' == w.(socks := w'.socks, k := w'.k) && |w'.socks| == |w.socks|
            && (forall i | 0 <= i < |w.socks| && i != sid :: w'.socks[i] == w.socks[i])
            && w'.socks[sid] == w.socks[sid].(state := w'.socks[sid].state)
            && (injected ==> w'.socks[sid].state == Bypassed)
  {
  }

  lemma EnterSound(w: World, pid: int, sid: nat, req: Request, o: LoopOracle)
    requires Inv(w) && sid < |w.socks| && w.Registered(pid, req.fd) == Some(sid)
    ensures Sound(w, Enter(w, pid, sid, req, o).w) && Called(Enter(w, pid, sid, req, o), req)
  {
    hide Inv;
    hide Sound;
    hide Gate;
    hide InitializeRsocket;
    if w.featureRDMA && req.call.Connect? {
      RsocketSound(w, sid, o);
      RsocketTouches(w, sid, o);
      var (w1, done) := InitializeRsocket(w, sid, o);
      SoundImplies(w, w1);
      if !done {
        GateSound(w1, pid, sid, req, o);
        SoundTransitive(w, w1, Gate(w1, pid, sid, req, o).w);
      }
    } else {
      GateSound(w, pid, sid, req, o);
    }
  }

  lemma SettleSound(w: World, req: Request, o: LoopOracle)
    requires Inv(w)
    ensures Sound(w, Settle(w, req, o).w) && Called(Settle(w, req, o), req)
  {
    hide Inv;
    hide Sound;
    hide Enter;
    hide HandleExit;
    hide Register;
    hide Unregister;
    CachesSound(w, w);
    CachesOnly(w, req.pid, o.pid, ZERO_SOCKADDR, o);
    var (w1, info) := GetPidFdInfo(w, req.pid, o.pid);
    hide GetPidFdInfo;
    CachesSound(w, w1);
    SoundImplies(w, w1);
    if info.Some? {
      var pid := info.value.tgid;
      HandleExitSound(w1, req.pid, info.value);
      SoundTransitive(w, w1, HandleExit(w1, req.pid, info.value));
      UnregisterSound(w1, pid, req.fd);
      SoundTransitive(w, w1, Unregister(w1, pid, req.fd));
      RegisterSound(w1, pid, req.fd, o.reg);
      var (w2, sid) := Register(w1, pid, req.fd, o.reg);
      SoundTransitive(w, w1, w2);
      SoundImplies(w1, w2);
      if sid.Some? {
        EnterSound(w2, pid, sid.value, req, o);
        SoundTransitive(w, w2, Enter(w2, pid, sid.value, req, o).w);
      }
    }
  }

  /** Every notification keeps the invariant and lets sockets grow. */
  lemma HandleReqSound(w: World, req: Request, o: LoopOracle)
    requires Inv(w)
    ensures Sound(w, HandleReq(w, req, o).w)
  {
    hide Inv;
    hide Sound;
    hide Dispatch;
    hide Settle;
    SettleSound(w, req, o);
    var st := Settle(w, req, o);
    SoundImplies(w, st.w);
    if st.sid.Some? {
      DispatchSound(st.w, st.pid, st.sid.value, req.call, o);
      SoundTransitive(w, st.w, Dispatch(st.w, st.pid, st.sid.value, req.call, o).w);
    }
  }

  // ----------------------------------------------------------------------- runs

  lemma WorkIdentity(s: Sock, sid: nat, wi: nat, o: WorkOracle, sae: AC.Acl, now: nat, mayCarry: bool, k: Kern)
    requires wi < |s.workers| && s.workers[wi].listener < |s.hs|
    ensures var s' := WorkStep(s, sid, wi, o, sae, now, k).0;
            && SockGrows(s, s', mayCarry) && Tame(s, s', mayCarry)
  {
    hide AC.Acl.Apply;
    hide Parse;
  }

  /** From one moment of a run to a later one. */
  ghost predicate Evolves(w: World, w': World) {
    && |w.socks| <= |w'.socks| && w'.featureRDMA == w.featureRDMA && w'.myVIP == w.myVIP
    && w.now <= w'.now
    && w.log <= w'.log && w.conns <= w'.conns
    && (w.reused ==> w'.reused) && (w.lost ==> w'.lost)
    && (!w'.reused ==> SocksGrow(w.socks, w'.socks, w.featureRDMA) && NewNames(w, w'))
  }

  lemma WorkerInv(w: World, sid: nat, wi: nat, wo: WorkOracle)
    requires Inv(w)
    ensures Inv(Engine.Do(w, Step.Worker(sid, wi, wo))) && Evolves(w, Engine.Do(w, Step.Worker(sid, wi, wo)))
  {
    hide Inv;
    hide SockOk;
    hide WorkStep;
    NothingGrows(w, w);
    if sid < |w.socks| && wi < |w.socks[sid].workers| && w.socks[sid].workers[wi].listener < |w.socks[sid].hs| {
      SockFacts(w, sid);
      var s := w.socks[sid];
      WorkKeeps(s, sid, wi, wo, w.sae, w.now, w.featureRDMA, w.k);
      WorkIdentity(s, sid, wi, wo, w.sae, w.now, MayCarryRsocket(w.featureRDMA, s), w.k);
      var (s', k) := WorkStep(s, sid, wi, wo, w.sae, w.now, w.k);
      SetSockInv(w, sid, s', k);
      SetSocksGrow(w.socks, sid, s', w.featureRDMA);
    }
    hide SocksGrow;
  }

  /** The tables and the kernel can be replaced freely. */
  lemma TablesKeep(w: World, w': World)
    requires Inv(w) && D.Shaped(w'.de) && w'.de.featureRDMA == w.featureRDMA && w.now <= w'.now
    requires w' == w.(sae := w'.sae, cae := w'.cae, de := w'.de, k := w'.k, now := w'.now)
    ensures Inv(w') && Evolves(w, w')
  {
    hide Registry;
    hide AllOk;
    hide History;
    hide D.Shaped;
    NothingGrows(w, w');
    hide SocksGrow;
    hide NewNames;
  }

  lemma ShapedDe(w: World)
    requires Inv(w)
    ensures D.Shaped(w.de) && w.de.featureRDMA == w.featureRDMA
  {
    hide D.Shaped;
  }

  lemma DoTables(w: World, st: Step)
    requires !st.Loop? && !st.Worker?
    ensures var w' := Engine.Do(w, st);
            && w' == w.(sae := w'.sae, cae := w'.cae, de := w'.de, k := w'.k)
            && (w'.de == w.de || (st.Route? && D.Do(w.de, st.rop) == Some(w'.de)))
  {
    hide D.Do;
    hide AC.Do;
    hide HandleReq;
    hide WorkStep;
  }

  lemma TablesInv(w: World, st: Step)
    requires Inv(w) && !st.Loop? && !st.Worker?
    ensures Inv(Engine.Do(w, st)) && Evolves(w, Engine.Do(w, st))
  {
    hide *;
    ShapedDe(w);
    DoTables(w, st);
    if st.Route? && D.Do(w.de, st.rop).Some? {
      D.DoKeepsShaped(w.de, st.rop);
    }
    TablesKeep(w, Engine.Do(w, st));
  }

  lemma SoundEvolves(w: World, w': World)
    requires Sound(w, w')
    ensures Inv(w') && Evolves(w, w')
  {
    hide Inv;
    hide NewEvents;
    hide SocksGrow;
    hide NewNames;
  }

  /** Every step keeps the invariant and lets sockets grow. */
  lemma NextSound(w: World, st: Step)
    requires Inv(w)
    ensures Inv(Next(w, st)) && Evolves(w, Next(w, st))
  {
    hide Inv;
    hide Sound;
    hide Evolves;
    var w1 := Engine.Do(w, st);
    match st {
      case Loop(req, o) => HandleReqSound(w, req, o); SoundEvolves(w, w1);
      case Worker(sid, wi, wo) => WorkerInv(w, sid, wi, wo);
      case _ => TablesInv(w, st);
    }
    SameNow(w, st);
    ShapedDe(w1);
    hide Engine.Do;
    TablesKeep(w1, Next(w, st));
    EvolvesTransitive(w, w1, Next(w, st));
  }

  lemma SameNow(w: World, st: Step)
    requires Inv(w)
    ensures Engine.Do(w, st).now == w.now
  {
    hide Inv;
    hide HandleReq;
    hide WorkStep;
    match st {
      case Loop(req, o) => HandleReqSound(w, req, o); SoundParts(w, HandleReq(w, req, o).w);
      case _ =>
    }
  }

  lemma InitInv(myVIP: IP, featureRDMA: bool, serverDefault: bool, clientDefault: bool)
    ensures Inv(Init(myVIP, featureRDMA, serverDefault, clientDefault))
  {
  }

  lemma EvolvesTransitive(w0: World, w1: World, w2: World)
    requires Evolves(w0, w1) && Evolves(w1, w2)
    ensures Evolves(w0, w2)
  {
    hide SocksGrow;
    hide NewNames;
    if !w2.reused {
      SocksGrowTransitive(w0.socks, w1.socks, w2.socks, w0.featureRDMA);
      NewNamesTransitive(w0, w1, w2);
    }
  }

  lemma EvolvesReflexive(w: World)
    ensures Evolves(w, w)
  {
    NothingGrows(w, w);
    hide SocksGrow;
    hide NewNames;
  }

  /** Over any run, from any moment on. */
  lemma {:induction false} RunSound(w0: World, run: seq<Step>, m: nat, n: nat)
    requires Inv(w0) && m <= n <= |run|
    ensures Inv(Engine.After(w0, run, m)) && Inv(Engine.After(w0, run, n))
    ensures Evolves(Engine.After(w0, run, m), Engine.After(w0, run, n))
  {
    hide Inv;
    hide Evolves;
    hide Next;
    if n == 0 {
      EvolvesReflexive(w0);
    } else if m == n {
      RunSound(w0, run, n - 1, n - 1);
      NextSound(Engine.After(w0, run, n - 1), run[n - 1]);
      EvolvesReflexive(Engine.After(w0, run, n));
    } else {
      RunSound(w0, run, m, n - 1);
      NextSound(Engine.After(w0, run, n - 1), run[n - 1]);
      EvolvesTransitive(Engine.After(w0, run, m), Engine.After(w0, run, n - 1), Engine.After(w0, run, n));
    }
  }
}
