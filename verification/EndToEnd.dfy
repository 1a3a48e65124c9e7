/** Any number of hosts, each with a handler, joined by the connections their sockets
    make: what a server's container is told about its peer is what the client's
    container is told about itself. */
module EndToEnd {
  import opened Net
  import opened Sockaddrs
  import opened Kernel
  import opened Socket
  import opened Connect
  import opened Engine
  import opened SocketInvariant
  import opened Invariant
  import opened Runs
  import opened Notifications
  import Gating
  import AC = AccessControl
  import D = Destination

  // ---------------------------------------------------------------------- network

  /** One handler takes a step. */
  datatype Move = Move(host: nat, st: Step)

  function AfterMove(hosts: seq<World>, mv: Move): seq<World> {
    if mv.host < |hosts| then hosts[mv.host := Next(hosts[mv.host], mv.st)] else hosts
  }

  function Start(cs: seq<Config>): seq<World> {
    seq(|cs|, i requires 0 <= i < |cs| => cs[i].At([], 0))
  }

  function At(cs: seq<Config>, run: seq<Move>, n: nat): (hosts: seq<World>)
    requires n <= |run|
    ensures |hosts| == |cs|
  {
    if n == 0 then Start(cs) else AfterMove(At(cs, run, n - 1), run[n - 1])
  }

  predicate Made(hosts: seq<World>, l: Link) {
    l.host < |hosts| && l.index < |hosts[l.host].conns|
  }

  /** What was received on a connection made from one of the hosts. A handshake, if one
      was sent, was the first thing written to the stream. */
  predicate Carried(hosts: seq<World>, l: Link, msg: Option<Bytes>) {
    l.host < |hosts| ==>
      && Made(hosts, l)
      && (hosts[l.host].conns[l.index].sent.Some? ==> hosts[l.host].conns[l.index].sent == msg)
  }

  /** A goroutine that receives 16 bytes receives what the connection carried. */
  predicate Delivers(hosts: seq<World>, mv: Move) {
    mv.host < |hosts| && mv.st.Worker? ==>
      var w := hosts[mv.host];
      mv.st.sid < |w.socks| && mv.st.wi < |w.socks[mv.st.sid].workers| ==>
        var pc, msg := w.socks[mv.st.sid].workers[mv.st.wi].pc, mv.st.wo.msg;
        pc.Receiving? && msg.Some? && |msg.value| == SIZE_INET4 ==> Carried(hosts, pc.arrival.conn, msg)
  }

  ghost predicate Faithful(cs: seq<Config>, run: seq<Move>) {
    forall i | 0 <= i < |run| :: Delivers(At(cs, run, i), run[i])
  }

  // ------------------------------------------------------------ each host by itself

  /** The steps host `b` has taken among the first `n` moves. */
  function Own(run: seq<Move>, b: nat, n: nat): seq<Step>
    requires n <= |run|
  {
    if n == 0 then [] else Own(run, b, n - 1) + if run[n - 1].host == b then [run[n - 1].st] else []
  }

  lemma MovedHost(hosts: seq<World>, mv: Move, b: nat)
    requires b < |hosts|
    ensures |AfterMove(hosts, mv)| == |hosts|
    ensures AfterMove(hosts, mv)[b] == if mv.host == b then Next(hosts[b], mv.st) else hosts[b]
  {
    hide Next;
  }

  lemma {:induction false} AfterPrefix(w0: World, run: seq<Step>, more: seq<Step>, n: nat)
    requires n <= |run|
    ensures Engine.After(w0, run + more, n) == Engine.After(w0, run, n)
  {
    hide Next;
    if n > 0 {
      AfterPrefix(w0, run, more, n - 1);
    }
  }

  /** In the network each host runs just as it would by itself, on its own steps: what
      holds of every run of one handler holds of it. */
  lemma {:induction false} HostRunsAlone(cs: seq<Config>, run: seq<Move>, n: nat, b: nat)
    requires n <= |run| && b < |cs|
    ensures At(cs, run, n)[b] == cs[b].At(Own(run, b, n), |Own(run, b, n)|)
  {
    hide Next;
    if n > 0 {
      HostRunsAlone(cs, run, n - 1, b);
      var hosts, mv, before := At(cs, run, n - 1), run[n - 1], Own(run, b, n - 1);
      assert At(cs, run, n) == AfterMove(hosts, mv);
      MovedHost(hosts, mv, b);
      hide AfterMove;
      hide At;
      if mv.host == b {
        var c := cs[b];
        AfterPrefix(Init(c.myVIP, c.featureRDMA, c.serverDefault, c.clientDefault), before, [mv.st], |before|);
        assert Own(run, b, n) == before + [mv.st];
        assert c.At(before + [mv.st], |before| + 1) == Next(c.At(before, |before|), mv.st);
      } else {
        assert Own(run, b, n) == before + [] == before;
      }
    }
  }

  lemma HostFacts(cs: seq<Config>, run: seq<Move>, n: nat, b: nat)
    requires n <= |run| && b < |cs|
    ensures var w := At(cs, run, n)[b];
            && Inv(w)
            && (!w.reused ==>
                  && (forall i | 0 <= i < |w.conns| :: ConnNamed(w.socks, w.conns[i]))
                  && (forall i | 0 <= i < |w.log| :: InjectionNamed(w.socks, w.log[i])))
  {
    HostRunsAlone(cs, run, n, b);
    var own := Own(run, b, n);
    Reachable(cs[b], own, 0, |own|);
    var w0, w := cs[b].At(own, 0), At(cs, run, n)[b];
    assert w0.log == [] && w0.conns == [];
    hide Config.At;
    hide Inv;
    hide SocksGrow;
    hide ConnNamed;
    hide InjectionNamed;
    assert !w.reused ==> NewNames(w0, w);
  }

  lemma HostInv(cs: seq<Config>, run: seq<Move>, n: nat, b: nat)
    requires n <= |run| && b < |cs|
    ensures Inv(At(cs, run, n)[b])
  {
    HostFacts(cs, run, n, b);
    hide Inv;
  }

  // --------------------------------------------------------------- what peers say

  /** If a handler of the network sent a handshake, the peer is known by the address
      and port in it. */
  ghost predicate AsAnnounced(hosts: seq<World>, h: HostSocket) {
    h.conn.host < |hosts| ==>
      && Made(hosts, h.conn)
      && var sent := hosts[h.conn.host].conns[h.conn.index].sent;
         sent.Some? ==>
           && Parse(sent.value).Some?
           && Parse(sent.value).value.ip == h.entry.vip && Parse(sent.value).value.port == h.entry.vport
  }

  ghost predicate SockAnnounced(hosts: seq<World>, s: Sock) {
    && (forall i | 0 <= i < |s.hs| && s.hs[i].state == HostSocketAccepted :: AsAnnounced(hosts, s.hs[i]))
    && (forall wi | 0 <= wi < |s.workers| && (s.workers[wi].pc.Checking? || s.workers[wi].pc.Storing?) ::
          AsAnnounced(hosts, s.workers[wi].pc.peer))
  }

  ghost predicate HostAnnounced(hosts: seq<World>, w: World) {
    && (forall sid | 0 <= sid < |w.socks| :: SockAnnounced(hosts, w.socks[sid]))
    && (forall i | 0 <= i < |w.log| && w.log[i].Injected? :: AsAnnounced(hosts, w.log[i].peer))
  }

  ghost predicate ConnsGrow(hosts: seq<World>, hosts': seq<World>) {
    |hosts'| == |hosts| && forall a | 0 <= a < |hosts| :: hosts[a].conns <= hosts'[a].conns
  }

  lemma StaysAnnounced(hosts: seq<World>, hosts': seq<World>, h: HostSocket)
    requires AsAnnounced(hosts, h) && ConnsGrow(hosts, hosts')
    ensures AsAnnounced(hosts', h)
  {
    hide Parse;
  }

  lemma HostStaysAnnounced(hosts: seq<World>, hosts': seq<World>, w: World)
    requires HostAnnounced(hosts, w) && ConnsGrow(hosts, hosts')
    ensures HostAnnounced(hosts', w)
  {
    hide ConnsGrow;
    hide AsAnnounced;
    forall h | AsAnnounced(hosts, h)
      ensures AsAnnounced(hosts', h)
    {
      StaysAnnounced(hosts, hosts', h);
    }
    forall sid | 0 <= sid < |w.socks|
      ensures SockAnnounced(hosts', w.socks[sid])
    {
      assert SockAnnounced(hosts, w.socks[sid]);
    }
  }

  /** The whole history of a peer is its connection and what was received on it. */
  lemma CancelledAnnounced(hosts: seq<World>, h: HostSocket, h': HostSocket)
    requires AsAnnounced(hosts, h) && h'.conn == h.conn && h'.entry == h.entry
    ensures AsAnnounced(hosts, h')
  {
    hide Parse;
  }

  lemma QuietAnnounced(hosts: seq<World>, s: Sock, s': Sock)
    requires SockAnnounced(hosts, s) && Quiet(s, s')
    ensures SockAnnounced(hosts, s')
  {
    forall i | 0 <= i < |s'.hs| && s'.hs[i].state == HostSocketAccepted
      ensures AsAnnounced(hosts, s'.hs[i])
    {
      CancelledAnnounced(hosts, s.hs[i], s'.hs[i]);
    }
    hide AsAnnounced;
  }

  lemma LoopAnnounced(hosts: seq<World>, w: World, w': World)
    requires HostAnnounced(hosts, w)
    requires NoNewPeers(w.socks, w'.socks) && NewEvents(w, w') && w.log <= w'.log
    ensures HostAnnounced(hosts, w')
  {
    hide AsAnnounced;
    forall sid | 0 <= sid < |w'.socks|
      ensures SockAnnounced(hosts, w'.socks[sid])
    {
      if sid < |w.socks| {
        assert Quiet(w.socks[sid], w'.socks[sid]);
        hide Quiet;
        QuietAnnounced(hosts, w.socks[sid], w'.socks[sid]);
      } else {
        assert Peerless(w'.socks[sid]);
      }
    }
    forall i | 0 <= i < |w'.log| && w'.log[i].Injected?
      ensures AsAnnounced(hosts, w'.log[i].peer)
    {
      if i < |w.log| {
        assert w'.log[i] == w.log[i];
      } else {
        EventAnnounced(hosts, w, w'.log[i]);
      }
    }
    hide SockAnnounced;
  }

  lemma EventAnnounced(hosts: seq<World>, w: World, e: Event)
    requires HostAnnounced(hosts, w) && EventOk(w, e) && e.Injected?
    ensures AsAnnounced(hosts, e.peer)
  {
    var s := w.socks[e.sid];
    assert SockAnnounced(hosts, s);
    var hid :| 0 <= hid < |s.hs| && s.hs[hid].state == HostSocketAccepted && e.peer == s.hs[hid].(cancelled := e.peer.cancelled);
    CancelledAnnounced(hosts, s.hs[hid], e.peer);
  }

  /** A new peer is made of what was received. */
  lemma PeerAnnounced(hosts: seq<World>, t: D.Transport, a: Arrival, msg: Option<Bytes>)
    requires Peer(t, a, msg).Some? && Carried(hosts, a.conn, msg)
    ensures AsAnnounced(hosts, Peer(t, a, msg).value)
  {
    hide Parse;
  }

  lemma PeerNeedsMessage(t: D.Transport, a: Arrival, msg: Option<Bytes>)
    ensures Peer(t, a, msg).Some? ==> msg.Some? && |msg.value| == SIZE_INET4
  {
    hide Parse;
  }

  lemma CheckedAnnounced(hosts: seq<World>, h: HostSocket, now: nat)
    requires AsAnnounced(hosts, h)
    ensures AsAnnounced(hosts, h.(checkedAt := now))
  {
    CancelledAnnounced(hosts, h, h.(checkedAt := now));
  }

  lemma WorkAnnounced(hosts: seq<World>, s: Sock, sid: nat, wi: nat, o: WorkOracle, sae: AC.Acl, now: nat, k: Kern)
    requires wi < |s.workers| && s.workers[wi].listener < |s.hs| && SockAnnounced(hosts, s)
    requires var pc := s.workers[wi].pc;
             pc.Receiving? && o.msg.Some? && |o.msg.value| == SIZE_INET4 ==> Carried(hosts, pc.arrival.conn, o.msg)
    ensures SockAnnounced(hosts, WorkStep(s, sid, wi, o, sae, now, k).0)
  {
    hide AC.Acl.Apply;
    hide Peer;
    hide AsAnnounced;
    hide Carried;
    match s.workers[wi].pc
    case Receiving(a) =>
      var t := s.hs[s.workers[wi].listener].entry.transport;
      PeerNeedsMessage(t, a, o.msg);
      if Peer(t, a, o.msg).Some? {
        PeerAnnounced(hosts, t, a, o.msg);
      }
    case Checking(h) => CheckedAnnounced(hosts, h, now);
    case _ =>
  }

  lemma WorkerAnnounced(hosts: seq<World>, w: World, sid: nat, wi: nat, wo: WorkOracle)
    requires HostAnnounced(hosts, w)
    requires sid < |w.socks| && wi < |w.socks[sid].workers| ==>
               var pc := w.socks[sid].workers[wi].pc;
               pc.Receiving? && wo.msg.Some? && |wo.msg.value| == SIZE_INET4 ==> Carried(hosts, pc.arrival.conn, wo.msg)
    ensures HostAnnounced(hosts, Next(w, Step.Worker(sid, wi, wo)))
  {
    hide WorkStep;
    hide AsAnnounced;
    hide Carried;
    if sid < |w.socks| && wi < |w.socks[sid].workers| && w.socks[sid].workers[wi].listener < |w.socks[sid].hs| {
      assert SockAnnounced(hosts, w.socks[sid]);
      WorkAnnounced(hosts, w.socks[sid], sid, wi, wo, w.sae, w.now, w.k);
    }
    hide SockAnnounced;
  }

  lemma NextAnnounced(hosts: seq<World>, b: nat, st: Step)
    requires b < |hosts| && Inv(hosts[b]) && HostAnnounced(hosts, hosts[b]) && Delivers(hosts, Move(b, st))
    ensures HostAnnounced(hosts, Next(hosts[b], st))
  {
    hide Inv;
    hide HostAnnounced;
    hide HandleReq;
    hide WorkStep;
    hide NoNewPeers;
    hide NewEvents;
    var w := hosts[b];
    match st {
      case Loop(req, o) =>
        HandleReqSound(w, req, o);
        SoundParts(w, HandleReq(w, req, o).w);
        Gating.LaterEvents(w, HandleReq(w, req, o).w, Next(w, st));
        LoopAnnounced(hosts, w, Next(w, st));
      case Worker(sid, wi, wo) => WorkerAnnounced(hosts, w, sid, wi, wo);
      case _ =>
        NothingGrows(w, Next(w, st));
        LoopAnnounced(hosts, w, Next(w, st));
    }
  }

  lemma MoveGrows(hosts: seq<World>, mv: Move)
    requires mv.host < |hosts| ==> Inv(hosts[mv.host])
    ensures ConnsGrow(hosts, AfterMove(hosts, mv))
  {
    hide Inv;
    hide Next;
    if mv.host < |hosts| {
      NextSound(hosts[mv.host], mv.st);
    }
  }

  lemma MoveAnnounces(hosts: seq<World>, mv: Move, b: nat)
    requires b < |hosts| && HostAnnounced(hosts, hosts[b]) && Delivers(hosts, mv)
    requires mv.host < |hosts| ==> Inv(hosts[mv.host])
    ensures HostAnnounced(AfterMove(hosts, mv), AfterMove(hosts, mv)[b])
  {
    hide *;
    MoveGrows(hosts, mv);
    var hosts' := AfterMove(hosts, mv);
    if mv.host == b {
      NextAnnounced(hosts, b, mv.st);
      assert hosts'[b] == Next(hosts[b], mv.st) by { MovedHost(hosts, mv, b); }
    } else {
      MovedHost(hosts, mv, b);
    }
    HostStaysAnnounced(hosts, hosts', hosts'[b]);
  }

  lemma OneMove(cs: seq<Config>, run: seq<Move>, n: nat)
    requires 0 < n <= |run| && Faithful(cs, run)
    ensures At(cs, run, n) == AfterMove(At(cs, run, n - 1), run[n - 1])
    ensures Delivers(At(cs, run, n - 1), run[n - 1])
  {
    hide Delivers;
    hide AfterMove;
  }

  lemma StartAnnounced(cs: seq<Config>, run: seq<Move>, b: nat)
    requires b < |cs|
    ensures HostAnnounced(At(cs, run, 0), At(cs, run, 0)[b])
  {
  }

  lemma {:induction false} AllAnnounced(cs: seq<Config>, run: seq<Move>, n: nat, b: nat)
    requires n <= |run| && b < |cs| && Faithful(cs, run)
    ensures HostAnnounced(At(cs, run, n), At(cs, run, n)[b])
    decreases n
  {
    hide *;
    if n == 0 {
      StartAnnounced(cs, run, b);
    } else {
      AllAnnounced(cs, run, n - 1, b);
      OneMove(cs, run, n);
      if run[n - 1].host < |cs| {
        HostInv(cs, run, n - 1, run[n - 1].host);
      }
      MoveAnnounces(At(cs, run, n - 1), run[n - 1], b);
    }
  }

  // ----------------------------------------------------------------------- identity

  /** How the two ends of a connection name the client. */
  ghost predicate SameName(server: Sock, client: Sock) {
    && (server.local.family == AF_INET || server.local.family == AF_INET6)
    && (server.local.family == AF_INET ==> Print(server.remote) == Print(client.local))
    && Equal(server.remote.ip, client.local.ip) && server.remote.port == client.local.port
  }

  /** A name that crossed the wire in a handshake comes out the same. */
  lemma NameCrosses(server: Sock, client: Sock, h: HostSocket)
    requires Valid(server.local) && Valid(client.local)
    requires Print(client.local).Some? && |Print(client.local).value| == SIZE_INET4
    requires var sa := Parse(Print(client.local).value);
             sa.Some? && sa.value.ip == h.entry.vip && sa.value.port == h.entry.vport
    requires Some(server.remote) == PeerAddress(server, h)
    ensures SameName(server, client)
    ensures forall acl: AC.Acl :: IsAddress(client.local.ip) ==> acl.Apply(h.entry.vip) == acl.Apply(client.local.ip)
  {
    PrintLength(client.local);
    ParsePrint(client.local);
    var ip := client.local.ip;
    assert h.entry.vip == To4(ip) && |To4(ip)| == 4;
    MappedEqual(ip);
    forall acl: AC.Acl
      ensures acl.Apply(To4(ip)) == acl.Apply(ip)
    {
      AC.ApplyIgnoresSpelling(acl, ip);
    }
    hide Parse;
    hide AC.Acl.Apply;
  }

  lemma MappedEqual(ip: Bytes)
    requires |To4(ip)| == 4
    ensures IsAddress(ip) && Equal(To4(ip), ip) && Equal(To16(To4(ip)), ip) && To4(To4(ip)) == To4(ip)
  {
    if |ip| == 16 {
      assert To16(To4(ip)) == ip[..12] + ip[12..] == ip;
    } else {
      assert To16(ip)[..12] == MAPPED_PREFIX && To16(ip)[12..] == ip;
    }
  }

  /** For every connection from one of the hosts whose handshake was sent, from the
      moment the server's container has accepted it and for as long as both hosts run,
      the server's socket names its peer just as the client's socket names itself: in
      the same bytes for an AF_INET listener, by the same address and port for an
      AF_INET6 one. And the policy that admitted it was asked about that very address. Of
      the kernels it is assumed only that no injected number is one still
      registered. */
  lemma EndToEndIdentity(cs: seq<Config>, run: seq<Move>, n: nat, b: nat, i: nat)
    requires n <= |run| && Faithful(cs, run)
    requires b < |cs| && i < |At(cs, run, n)[b].log| && At(cs, run, n)[b].log[i].Injected?
    requires At(cs, run, n)[b].log[i].peer.conn.host < |cs|
    ensures var hosts := At(cs, run, n);
            var e := hosts[b].log[i];
            Made(hosts, e.peer.conn) &&
            var a, conn := e.peer.conn.host, hosts[e.peer.conn.host].conns[e.peer.conn.index];
            conn.sent.Some? && !hosts[a].reused && !hosts[b].reused ==>
              && conn.sid < |hosts[a].socks| && e.asid < |hosts[b].socks|
              && SameName(hosts[b].socks[e.asid], hosts[a].socks[conn.sid])
              && IsAddress(hosts[a].socks[conn.sid].local.ip)
              && (forall acl: AC.Acl :: acl.Apply(e.peer.entry.vip) == acl.Apply(hosts[a].socks[conn.sid].local.ip))
  {
    AllAnnounced(cs, run, n, b);
    var hosts := At(cs, run, n);
    var e := hosts[b].log[i];
    assert AsAnnounced(hosts, e.peer);
    var a := e.peer.conn.host;
    var conn := hosts[a].conns[e.peer.conn.index];
    HostFacts(cs, run, n, a);
    HostFacts(cs, run, n, b);
    if conn.sent.Some? && !hosts[a].reused && !hosts[b].reused {
      assert ConnNamed(hosts[a].socks, conn) && InjectionNamed(hosts[b].socks, e);
      var client, server := hosts[a].socks[conn.sid], hosts[b].socks[e.asid];
      SockFacts(hosts[a], conn.sid);
      SockFacts(hosts[b], e.asid);
      hide At;
      hide Inv;
      hide SockOk;
      hide HostAnnounced;
      hide Valid;
      hide Parse;
      hide Print;
      hide SameName;
      hide PeerAddress;
      hide AC.Acl.Apply;
      NameCrosses(server, client, e.peer);
      ValidAddress(client.local);
    }
  }

  lemma ValidAddress(sa: Sockaddr)
    requires Valid(sa)
    ensures IsAddress(sa.ip)
  {
  }

  /** A handshake is sent exactly if the client's own name is an AF_INET one and the
      send succeeds; the other end's `recvDstVAddr` then reads that name. */
  lemma HandshakeExactly(s: Sock, sendOk: bool)
    requires Valid(s.local)
    ensures Handshake(s, sendOk).Some? <==> s.local.family == AF_INET && sendOk
    ensures Handshake(s, sendOk).Some? ==> Handshake(s, sendOk) == Print(s.local)
    ensures Handshake(s, sendOk).Some? ==> Received(Handshake(s, sendOk)) == Some(Canon(s.local))
  {
    HandshakeByFamily(s, sendOk);
    PrintLength(s.local);
    ParsePrint(s.local);
    hide Print;
    hide Parse;
    hide Canon;
    hide Handshake;
  }

  // ------------------------------------------------------------ what is answered

  /** Socket `sid` is bypassed and the caller's memory takes the whole of its name. */
  ghost predicate CanAnswer(w: World, req: Request, o: LoopOracle, sid: nat) {
    var pid := CallerOf(w, req, o);
    && (req.call.Getpeername? || req.call.Getsockname?)
    && pid.Some? && Speaks(w, req, o, pid.value, sid) && w.socks[sid].state.Bypassed?
    && (pid.value in w.memfds || o.memfd.Some?)
    && var name := Print(NameAsked(w.socks[sid], req.call));
    && o.stored.Some? && (name.Some? ==> o.stored.value >= |name.value|)
  }

  /** A bypassed socket's name queries are answered with its recorded names. */
  lemma NameAnswers(w: World, req: Request, o: LoopOracle, sid: nat)
    requires Inv(w) && CanAnswer(w, req, o, sid)
    ensures HandleReq(w, req, o).reply == Emulated(0)
    ensures HandleReq(w, req, o).wrote == Print(NameAsked(w.socks[sid], req.call))
  {
    SockFacts(w, sid);
    hide Inv;
    hide SockOk;
    hide HandleReq;
    hide CallerOf;
    PrintLength(w.socks[sid].local);
    PrintLength(w.socks[sid].remote);
    hide Print;
    NameIsHandled(w, req, o, CallerOf(w, req, o).value, sid);
  }

  /** What getpeername writes for the server's container are the bytes getsockname
      writes for the client's, at any moment both are answered. */
  lemma TwoEndsAgree(cs: seq<Config>, run: seq<Move>, n: nat, b: nat, i: nat,
                     serverReq: Request, so: LoopOracle, clientReq: Request, co: LoopOracle)
    requires n <= |run| && Faithful(cs, run)
    requires b < |cs| && i < |At(cs, run, n)[b].log| && At(cs, run, n)[b].log[i].Injected?
    requires var hosts := At(cs, run, n);
             var e := hosts[b].log[i];
             Made(hosts, e.peer.conn) &&
             var a, conn := e.peer.conn.host, hosts[e.peer.conn.host].conns[e.peer.conn.index];
             && conn.sent.Some? && !hosts[a].reused && !hosts[b].reused
             && serverReq.call.Getpeername? && CanAnswer(hosts[b], serverReq, so, e.asid)
             && clientReq.call.Getsockname? && CanAnswer(hosts[a], clientReq, co, conn.sid)
             && hosts[b].socks[e.asid].local.family == AF_INET
    ensures var hosts := At(cs, run, n);
            var a := hosts[b].log[i].peer.conn.host;
            HandleReq(hosts[b], serverReq, so).wrote == HandleReq(hosts[a], clientReq, co).wrote
  {
    var hosts := At(cs, run, n);
    var e := hosts[b].log[i];
    var a, conn := e.peer.conn.host, hosts[e.peer.conn.host].conns[e.peer.conn.index];
    EndToEndIdentity(cs, run, n, b, i);
    HostInv(cs, run, n, a);
    HostInv(cs, run, n, b);
    hide At;
    hide Inv;
    hide Faithful;
    hide AC.Acl.Apply;
    hide Equal;
    NameAnswers(hosts[b], serverReq, so, e.asid);
    NameAnswers(hosts[a], clientReq, co, conn.sid);
    hide HandleReq;
    hide Print;
  }
}
