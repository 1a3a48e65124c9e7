/** Who owns which descriptor, over every run: what the tables of the handler hold is
    open and held once, and the handler closes only what it holds. */
module Ledger {
  import opened Net
  import opened Sockaddrs
  import opened Kernel
  import opened Socket
  import opened Connect
  import opened Rsocket
  import opened Engine
  import opened SocketInvariant
  import opened Invariant
  import AC = AccessControl
  import D = Destination

  // ---------------------------------------------------------------------- ledger

  /** The descriptor a goroutine has accepted and not yet handed on. */
  function InHand(pc: Pc): Option<int> {
    match pc
    case Receiving(a) => Some(a.fd)
    case Checking(h) => Some(h.sockfd)
    case Storing(h) => Some(h.sockfd)
    case _ => None
  }

  ghost predicate HostsHeld(s: Sock, sid: nat, k: Kern) {
    forall fd | fd in s.hostSockets :: Holds(k, fd, Host(sid))
  }

  ghost predicate InHandHeld(s: Sock, sid: nat, k: Kern) {
    forall wi | 0 <= wi < |s.workers| && InHand(s.workers[wi].pc).Some? ::
      Holds(k, InHand(s.workers[wi].pc).value, Work(sid, wi))
  }

  ghost predicate Listed(s: Sock, hid: nat) {
    hid < |s.hs| && s.hs[hid].sockfd in s.hostSockets && s.hostSockets[s.hs[hid].sockfd] == hid
  }

  /** What waits for accept is still in the table of host sockets. */
  ghost predicate WaitingListed(s: Sock) {
    && (forall i | 0 <= i < |s.queue| :: Listed(s, s.queue[i]))
    && (forall wi | 0 <= wi < |s.workers| && s.workers[wi].pc.Sending? :: Listed(s, s.workers[wi].pc.hid))
  }

  ghost predicate SockLedger(s: Sock, sid: nat, k: Kern) {
    && InHandHeld(s, sid, k)
    && (!s.cancelled ==> HostsHeld(s, sid, k) && WaitingListed(s))
  }

  ghost predicate Ledger(w: World) {
    && (forall sid | 0 <= sid < |w.socks| :: SockLedger(w.socks[sid], sid, w.k))
    && (forall pid | pid in w.pidInfos :: Holds(w.k, w.pidInfos[pid].pidfd, Pid(pid)))
    && (forall pid | pid in w.memfds :: Holds(w.k, w.memfds[pid], Mem(pid)))
    && w.k.badCloses == 0
  }

  /** What the ledger says without its tags. */
  datatype Place = HostTable(sid: nat, fd: int) | Goroutine(sid: nat, wi: nat) | PidCache(pid: int) | MemCache(mpid: int)

  ghost predicate Keeps(w: World, p: Place, fd: int) {
    match p
    case HostTable(sid, f) => sid < |w.socks| && !w.socks[sid].cancelled && f in w.socks[sid].hostSockets && f == fd
    case Goroutine(sid, wi) =>
      sid < |w.socks| && wi < |w.socks[sid].workers| && InHand(w.socks[sid].workers[wi].pc) == Some(fd)
    case PidCache(pid) => pid in w.pidInfos && w.pidInfos[pid].pidfd == fd
    case MemCache(pid) => pid in w.memfds && w.memfds[pid] == fd
  }

  /** Everything kept is open, is kept in one place only, and every key of a live
      table of host sockets is the descriptor of its host socket. */
  lemma KeptOnce(w: World)
    requires Inv(w) && Ledger(w)
    ensures forall p, fd | Keeps(w, p, fd) :: fd in w.k.open
    ensures forall p, q, fd | Keeps(w, p, fd) && Keeps(w, q, fd) :: p == q
    ensures forall sid, fd | 0 <= sid < |w.socks| && fd in w.socks[sid].hostSockets ::
              w.socks[sid].hostSockets[fd] < |w.socks[sid].hs| && w.socks[sid].hs[w.socks[sid].hostSockets[fd]].sockfd == fd
  {
    forall p, fd | Keeps(w, p, fd)
      ensures Holds(w.k, fd, OwnerOf(p))
    {
      match p
      case HostTable(sid, f) => assert SockLedger(w.socks[sid], sid, w.k);
      case Goroutine(sid, wi) => assert SockLedger(w.socks[sid], sid, w.k);
      case _ =>
    }
    forall p, q, fd | Keeps(w, p, fd) && Keeps(w, q, fd)
      ensures p == q
    {
      assert OwnerOf(p) == OwnerOf(q);
    }
    forall sid, fd | 0 <= sid < |w.socks| && fd in w.socks[sid].hostSockets
      ensures w.socks[sid].hostSockets[fd] < |w.socks[sid].hs| && w.socks[sid].hs[w.socks[sid].hostSockets[fd]].sockfd == fd
    {
      assert TableOk(w.socks[sid]);
    }
  }

  function OwnerOf(p: Place): Owner {
    match p
    case HostTable(sid, fd) => Host(sid)
    case Goroutine(sid, wi) => Work(sid, wi)
    case PidCache(pid) => Pid(pid)
    case MemCache(pid) => Mem(pid)
  }

  // ---------------------------------------------------------------- kernel frames

  lemma SparesAllTransitive(k0: Kern, k1: Kern, k2: Kern)
    requires SparesAll(k0, k1) && SparesAll(k1, k2)
    ensures SparesAll(k0, k2)
  {
  }

  lemma PrepareSpares(s: Sock, o: Try, k: Kern)
    ensures SparesAll(k, Prepare(s, o, k))
    ensures Prepare(s, o, k).honest && o.fd.Some? ==> o.fd.value !in k.open && Holds(Prepare(s, o, k), o.fd.value, Loose)
  {
  }

  lemma SparesAllKeeps(s: Sock, sid: nat, k: Kern, k': Kern)
    requires SockLedger(s, sid, k) && SparesAll(k, k') && k'.honest
    ensures SockLedger(s, sid, k')
  {
  }

  lemma SparesOthersKeeps(s: Sock, sid: nat, k: Kern, k': Kern, other: nat)
    requires SockLedger(s, sid, k) && SparesOthers(k, k', other) && k'.honest && sid != other
    ensures SockLedger(s, sid, k')
  {
  }

  // ------------------------------------------------------- the handlers of a socket

  /** What a handler of socket `sid` must guarantee for the ledger. */
  ghost predicate HandlerKeeps(s: Sock, k: Kern, s': Sock, k': Kern, sid: nat) {
    SparesOthers(k, k', sid) && (k'.honest && SockLedger(s, sid, k) ==> SockLedger(s', sid, k'))
  }

  lemma SameHoldings(s: Sock, k: Kern, s': Sock, k': Kern, sid: nat)
    requires SparesAll(k, k')
    requires s'.hostSockets == s.hostSockets && s'.queue == s.queue && s'.workers == s.workers && s'.cancelled == s.cancelled
    requires |s'.hs| == |s.hs| && forall i | 0 <= i < |s.hs| :: s'.hs[i].sockfd == s.hs[i].sockfd
    ensures HandlerKeeps(s, k, s', k', sid)
  {
    if k'.honest && SockLedger(s, sid, k) {
      assert forall hid :: Listed(s, hid) == Listed(s', hid);
    }
  }

  ghost predicate BindingHeld(k0: Kern, b: Binding, sid: nat) {
    SparesAll(k0, b.k) && (b.k.honest ==> HostsHeld(b.s, sid, b.k))
  }

  lemma BindOneHeld(k0: Kern, b: Binding, sid: nat, e: D.Entry, o: Try, featureRDMA: bool)
    requires BindingHeld(k0, b, sid)
    ensures BindingHeld(k0, BindOne(b, sid, e, o, featureRDMA), sid)
  {
    AfterBindSpares(b.s, e, o, b.k);
    hide AfterBind;
    hide TransportBind;
  }

  lemma AfterBindSpares(s: Sock, e: D.Entry, o: Try, k: Kern)
    ensures var k', d := AfterBind(s, e, o, k), TransportBind(s, e, o);
            SparesAll(k, k') && (d.Fd? && k'.honest ==> d.fd !in k.open && Holds(k', d.fd, Loose))
  {
    PrepareSpares(s, o, k);
    hide Prepare;
  }

  lemma {:induction false} BindEachHeld(s: Sock, sid: nat, entries: seq<D.Entry>, os: seq<Try>, n: nat, featureRDMA: bool, k: Kern)
    requires n <= |entries| && s.hostSockets == map[]
    ensures BindingHeld(k, BindEach(s, sid, entries, os, n, featureRDMA, k), sid)
  {
    if n > 0 {
      BindEachHeld(s, sid, entries, os, n - 1, featureRDMA, k);
      BindOneHeld(k, BindEach(s, sid, entries, os, n - 1, featureRDMA, k), sid, entries[n - 1], TryAt(os, n - 1), featureRDMA);
      hide BindingHeld;
      hide BindOne;
    }
  }

  lemma BindLedger(s: Sock, sid: nat, buf: Option<Bytes>, de: D.Dest, os: seq<Try>, featureRDMA: bool, k: Kern)
    requires SockOk(s, featureRDMA) && D.Shaped(de)
    ensures var h := HandleBind(s, sid, buf, de, os, featureRDMA, k);
            HandlerKeeps(s, k, h.s, h.k, sid)
  {
    hide Parse;
    var h := HandleBind(s, sid, buf, de, os, featureRDMA, k);
    if s.state == NotBypassed && buf.Some? && Parse(buf.value).Some? {
      assert s.hs == [] && s.hostSockets == map[] && s.workers == [] && s.queue == [];
      hide SockOk;
      var s1 := s.(local := Parse(buf.value).value);
      var entries := de.GetServer(s1.local.port);
      ServerPorts(de, s1.local.port);
      hide D.Shaped;
      hide D.Dest.GetServer;
      BindEachHeld(s1, sid, entries, os, |entries|, featureRDMA, k);
      BindEachKeeps(s1, sid, entries, os, |entries|, featureRDMA, k);
      hide BindEach;
    } else {
      SameHoldings(s, k, h.s, h.k, sid);
    }
  }

  lemma ListenLedger(s: Sock, sid: nat, listens: set<int>, featureRDMA: bool, k: Kern)
    requires SockOk(s, featureRDMA)
    ensures var h := HandleListen(s, listens, featureRDMA, k);
            HandlerKeeps(s, k, h.s, h.k, sid)
  {
    var h := HandleListen(s, listens, featureRDMA, k);
    if s.state == Binded {
      assert s.workers == [] && s.queue == [];
      hide SockOk;
      ListenEachKeeps(s, |s.hs|, listens);
    } else {
      hide SockOk;
      SameHoldings(s, k, h.s, h.k, sid);
    }
  }

  lemma {:induction false} TryClassSpares(s: Sock, c: nat, entries: seq<D.Entry>, tried: set<nat>, attempts: seq<Attempt>,
                                          draws: seq<Draw>, featureRDMA: bool, k: Kern)
    ensures var p := TryClass(s, c, entries, tried, attempts, draws, featureRDMA, k);
            SparesAll(k, p.k) && (p.result.Via? && p.k.honest ==> Holds(p.k, p.result.fd, Loose))
    decreases |draws|
  {
    if |tried| < |entries| && draws != [] {
      var n, o := Intn(draws[0].n, |entries|), draws[0].o;
      if n in tried {
        TryClassSpares(s, c, entries, tried, attempts, draws[1..], featureRDMA, k);
      } else {
        var k1 := AfterConnect(s, entries[n], o, k);
        PrepareSpares(s, o, k);
        hide Prepare;
        var attempts' := attempts + [Attempt(c, n, entries[n], o)];
        TryClassSpares(s, c, entries, tried + {n}, attempts', draws[1..], featureRDMA, k1);
        SparesAllTransitive(k, k1, TryClass(s, c, entries, tried + {n}, attempts', draws[1..], featureRDMA, k1).k);
        hide SparesAll;
      }
    }
  }

  lemma {:induction false} SelectSpares(s: Sock, c: nat, classes: seq<seq<D.Entry>>, attempts: seq<Attempt>,
                                        draws: seq<Draw>, featureRDMA: bool, k: Kern)
    requires c <= |classes|
    ensures var p := TryClasses(s, c, classes, attempts, draws, featureRDMA, k);
            SparesAll(k, p.k) && (p.result.Via? && p.k.honest ==> Holds(p.k, p.result.fd, Loose))
    decreases |classes| - c
  {
    if c < |classes| {
      TryClassSpares(s, c, classes[c], {}, attempts, draws, featureRDMA, k);
      var p := TryClass(s, c, classes[c], {}, attempts, draws, featureRDMA, k);
      hide TryClass;
      if p.result.AllFailed? {
        SelectSpares(s, c + 1, classes, p.attempts, p.rest, featureRDMA, p.k);
        SparesAllTransitive(k, p.k, TryClasses(s, c + 1, classes, p.attempts, p.rest, featureRDMA, p.k).k);
      }
      hide SparesAll;
    }
  }

  lemma ConnectLedger(s: Sock, sid: nat, buf: Option<Bytes>, cae: AC.Acl, de: D.Dest, draws: seq<Draw>, featureRDMA: bool,
                      sendOk: bool, addFdOk: bool, k: Kern)
    ensures var c := HandleConnect(s, buf, cae, de, draws, featureRDMA, sendOk, addFdOk, k);
            HandlerKeeps(s, k, c.s, c.k, sid)
  {
    ConnectSpares(s, buf, cae, de, draws, featureRDMA, sendOk, addFdOk, k);
    ConnectTouches(s, buf, cae, de, draws, featureRDMA, sendOk, addFdOk, k);
    var c := HandleConnect(s, buf, cae, de, draws, featureRDMA, sendOk, addFdOk, k);
    hide HandleConnect;
    SameHoldings(s, k, c.s, c.k, sid);
  }

  lemma ConnectSpares(s: Sock, buf: Option<Bytes>, cae: AC.Acl, de: D.Dest, draws: seq<Draw>, featureRDMA: bool,
                      sendOk: bool, addFdOk: bool, k: Kern)
    ensures SparesAll(k, HandleConnect(s, buf, cae, de, draws, featureRDMA, sendOk, addFdOk, k).k)
  {
    hide Parse;
    hide AC.Acl.Apply;
    hide D.Dest.GetClient;
    hide Handshake;
    if buf.Some? && Parse(buf.value).Some? {
      var s1 := s.(remote := Parse(buf.value).value);
      SelectSpares(s1, 0, de.GetClient(s1.remote.ip, s1.remote.port), [], draws, featureRDMA, k);
      hide TryClasses;
    }
  }

  lemma OptionsLedger(s: Sock, sid: nat, opt: Option<SockOpt>, cmd: nat, value: nat, callOk: bool, dup: Option<int>, k: Kern)
    ensures HandlerKeeps(s, k, HandleSetsockopt(s, opt, callOk, k).s, HandleSetsockopt(s, opt, callOk, k).k, sid)
    ensures HandlerKeeps(s, k, HandleFcntl(s, cmd, value, callOk, dup, k).s, HandleFcntl(s, cmd, value, callOk, dup, k).k, sid)
  {
    var h1, h2 := HandleSetsockopt(s, opt, callOk, k), HandleFcntl(s, cmd, value, callOk, dup, k);
    assert SparesAll(k, h1.k) && SparesAll(k, h2.k);
    SameHoldings(s, k, h1.s, h1.k, sid);
    SameHoldings(s, k, h2.s, h2.k, sid);
  }

  // --------------------------------------------------------------------- removal

  lemma FdOf(s: Sock, hid: nat) returns (fd: int)
    requires InTable(s, hid)
    ensures fd in s.hostSockets && s.hostSockets[fd] == hid
  {
    fd :| fd in s.hostSockets && s.hostSockets[fd] == hid;
  }

  /** Removal closes each host socket once, whose table and kernel agree. */
  lemma {:induction false} CloseEachIs(s: Sock, sid: nat, n: nat, k: Kern)
    requires n <= |s.hs| && TableOk(s) && HostsHeld(s, sid, k)
    ensures var k' := CloseEach(s, sid, n, k);
            && k'.honest == k.honest && k'.badCloses == k.badCloses
            && (forall fd :: fd in k'.open <==> fd in k.open && !(fd in s.hostSockets && s.hostSockets[fd] < n))
            && (forall fd | fd in k'.open :: k'.open[fd] == k.open[fd])
  {
    if n > 0 {
      CloseEachIs(s, sid, n - 1, k);
      if InTable(s, n - 1) {
        var fd := FdOf(s, n - 1);
        assert s.hs[n - 1].sockfd == fd;
        assert Holds(k, fd, Host(sid));
      }
    }
  }

  lemma RemoveLedger(s: Sock, sid: nat, k: Kern)
    requires TableOk(s) && !s.cancelled
    ensures SockLedger(s, sid, k) ==> HandlerKeeps(s, k, Removed(s), CloseEach(s, sid, |s.hs|, k), sid)
  {
    if SockLedger(s, sid, k) {
      CloseEachIs(s, sid, |s.hs|, k);
      hide CloseEach;
      forall fd | fd in s.hostSockets
        ensures Holds(k, fd, Host(sid))
      {
      }
    }
  }

  // ---------------------------------------------------------- goroutine steps

  /** A descriptor in hand is not in the table of host sockets, nor in another hand. */
  lemma StoreLedger(s: Sock, sid: nat, wi: nat, h: HostSocket, k: Kern)
    requires wi < |s.workers| && s.workers[wi].pc == Storing(h) && SockLedger(s, sid, k)
    ensures HandlerKeeps(s, k, Stored(s, wi, h), k.Give(h.sockfd, if s.cancelled then Loose else Host(sid)), sid)
  {
    var k' := k.Give(h.sockfd, if s.cancelled then Loose else Host(sid));
    if k'.honest && SockLedger(s, sid, k) {
      assert InHand(s.workers[wi].pc) == Some(h.sockfd);
      assert Holds(k, h.sockfd, Work(sid, wi));
      var s' := Stored(s, wi, h);
      forall wj | 0 <= wj < |s'.workers| && InHand(s'.workers[wj].pc).Some?
        ensures Holds(k', InHand(s'.workers[wj].pc).value, Work(sid, wj))
      {
        assert wj != wi;
        assert Holds(k, InHand(s.workers[wj].pc).value, Work(sid, wj));
      }
      if !s.cancelled {
        assert h.sockfd !in s.hostSockets;
        assert forall hid :: Listed(s, hid) ==> Listed(s', hid);
        assert Listed(s', |s.hs|);
        assert WaitingListed(s');
        assert HostsHeld(s', sid, k');
      }
    }
  }

  /** A goroutine that moves on takes nothing in hand but what it had or just got. */
  lemma MoveLedger(s: Sock, sid: nat, wi: nat, s': Sock, k: Kern, k': Kern)
    requires wi < |s.workers| && !s.workers[wi].pc.Storing? && !s.workers[wi].pc.Sending?
    requires s' == s.(workers := s'.workers, hs := s'.hs) && |s'.workers| == |s.workers| && |s'.hs| == |s.hs|
    requires forall wj | 0 <= wj < |s.workers| && wj != wi :: s'.workers[wj] == s.workers[wj]
    requires forall i | 0 <= i < |s.hs| :: s'.hs[i].sockfd == s.hs[i].sockfd
    requires !s'.workers[wi].pc.Sending?
    requires SparesOthers(k, k', sid)
    requires k'.honest && SockLedger(s, sid, k) ==>
      && (forall fd | fd in k.open && k.open[fd] != Work(sid, wi) && !k.open[fd].Loose? :: Holds(k', fd, k.open[fd]))
      && (InHand(s'.workers[wi].pc).Some? ==> Holds(k', InHand(s'.workers[wi].pc).value, Work(sid, wi)))
    ensures HandlerKeeps(s, k, s', k', sid)
  {
    if k'.honest && SockLedger(s, sid, k) {
      forall wj | 0 <= wj < |s'.workers| && InHand(s'.workers[wj].pc).Some?
        ensures Holds(k', InHand(s'.workers[wj].pc).value, Work(sid, wj))
      {
        if wj != wi {
          assert Holds(k, InHand(s.workers[wj].pc).value, Work(sid, wj));
        }
      }
      assert forall hid :: Listed(s, hid) ==> Listed(s', hid);
    }
  }

  lemma ReceiveLedger(s: Sock, sid: nat, wi: nat, o: WorkOracle, sae: AC.Acl, now: nat, k: Kern)
    requires wi < |s.workers| && s.workers[wi].listener < |s.hs| && s.workers[wi].pc.Receiving?
    requires SockLedger(s, sid, k)
    ensures var (s', k') := WorkStep(s, sid, wi, o, sae, now, k);
            HandlerKeeps(s, k, s', k', sid)
  {
    hide HandlerKeeps;
    hide Peer;
    var (s', k') := WorkStep(s, sid, wi, o, sae, now, k);
    var pc := s.workers[wi].pc;
    assert Holds(k, pc.arrival.fd, Work(sid, wi));
    PeerFd(s.hs[s.workers[wi].listener].entry.transport, pc.arrival, o.msg);
    hide SockLedger;
    MoveLedger(s, sid, wi, s', k, k');
  }

  lemma AcceptLedger(s: Sock, sid: nat, wi: nat, o: WorkOracle, sae: AC.Acl, now: nat, k: Kern)
    requires wi < |s.workers| && s.workers[wi].listener < |s.hs|
    requires s.workers[wi].pc.Poll? || s.workers[wi].pc.Accepting? || s.workers[wi].pc.Done?
    requires SockLedger(s, sid, k)
    ensures var (s', k') := WorkStep(s, sid, wi, o, sae, now, k);
            HandlerKeeps(s, k, s', k', sid)
  {
    hide HandlerKeeps;
    hide SockLedger;
    var (s', k') := WorkStep(s, sid, wi, o, sae, now, k);
    MoveLedger(s, sid, wi, s', k, k');
  }

  lemma CheckLedger(s: Sock, sid: nat, wi: nat, o: WorkOracle, sae: AC.Acl, now: nat, k: Kern)
    requires wi < |s.workers| && s.workers[wi].listener < |s.hs| && s.workers[wi].pc.Checking?
    requires SockLedger(s, sid, k)
    ensures var (s', k') := WorkStep(s, sid, wi, o, sae, now, k);
            HandlerKeeps(s, k, s', k', sid)
  {
    hide AC.Acl.Apply;
    var (s', k') := WorkStep(s, sid, wi, o, sae, now, k);
    assert Holds(k, s.workers[wi].pc.peer.sockfd, Work(sid, wi));
    MoveLedger(s, sid, wi, s', k, k');
  }

  lemma WorkLedger(s: Sock, sid: nat, wi: nat, o: WorkOracle, sae: AC.Acl, now: nat, k: Kern)
    requires wi < |s.workers| && s.workers[wi].listener < |s.hs|
    requires s.workers[wi].pc.Sending? ==> s.workers[wi].pc.hid < |s.hs|
    requires SockLedger(s, sid, k)
    ensures var (s', k') := WorkStep(s, sid, wi, o, sae, now, k);
            HandlerKeeps(s, k, s', k', sid)
  {
    hide HandlerKeeps;
    hide SockLedger;
    match s.workers[wi].pc
    case Storing(h) => StoreLedger(s, sid, wi, h, k);
    case Sending(hid) => SendLedger(s, sid, wi, hid, k);
    case Checking(h) => CheckLedger(s, sid, wi, o, sae, now, k);
    case Receiving(a) => ReceiveLedger(s, sid, wi, o, sae, now, k);
    case _ => AcceptLedger(s, sid, wi, o, sae, now, k);
  }

  lemma PeerFd(t: D.Transport, a: Arrival, msg: Option<Bytes>)
    ensures Peer(t, a, msg).Some? ==> Peer(t, a, msg).value.sockfd == a.fd
  {
  }

  lemma SendLedger(s: Sock, sid: nat, wi: nat, hid: nat, k: Kern)
    requires wi < |s.workers| && s.workers[wi].pc == Sending(hid) && hid < |s.hs|
    ensures HandlerKeeps(s, k, s, k, sid) && HandlerKeeps(s, k, Sent(s, wi, hid), k, sid)
  {
    if k.honest && SockLedger(s, sid, k) {
      var s' := Sent(s, wi, hid);
      assert forall h :: Listed(s, h) ==> Listed(s', h);
      forall wj | 0 <= wj < |s'.workers| && InHand(s'.workers[wj].pc).Some?
        ensures Holds(k, InHand(s'.workers[wj].pc).value, Work(sid, wj))
      {
        assert wj != wi;
        assert Holds(k, InHand(s.workers[wj].pc).value, Work(sid, wj));
      }
    }
  }

  // ------------------------------------------------------------ the whole handler

  /** The ledger is carried over, as long as the kernel stays honest and no accepted
      descriptor is lost. */
  ghost predicate Carries(w: World, w': World) {
    && (w'.k.honest ==> w.k.honest)
    && (w.lost ==> w'.lost)
    && (w'.k.honest && !w'.lost && Ledger(w) ==> Ledger(w'))
  }

  lemma CarriesTransitive(w0: World, w1: World, w2: World)
    requires Carries(w0, w1) && Carries(w1, w2)
    ensures Carries(w0, w2)
  {
  }

  lemma CarriesItself(w: World)
    ensures Carries(w, w)
  {
  }

  /** Only history that the ledger does not look at differs. */
  lemma HistoryCarries(w: World, w': World)
    requires w' == w.(processes := w'.processes, log := w'.log, conns := w'.conns, reused := w'.reused, now := w'.now,
                      sae := w'.sae, cae := w'.cae, de := w'.de)
    ensures Carries(w, w')
  {
    hide SockLedger;
  }

  lemma SparesAllCarries(w: World, w': World)
    requires w' == w.(processes := w'.processes, socks := w'.socks, k := w'.k) && SparesAll(w.k, w'.k)
    requires w.socks <= w'.socks
    requires forall sid | |w.socks| <= sid < |w'.socks| ::
               w'.socks[sid].workers == [] && w'.socks[sid].hostSockets == map[] && w'.socks[sid].queue == []
    ensures Carries(w, w')
  {
    if w'.k.honest && Ledger(w) {
      forall sid | 0 <= sid < |w'.socks|
        ensures SockLedger(w'.socks[sid], sid, w'.k)
      {
        if sid < |w.socks| {
          SparesAllKeeps(w.socks[sid], sid, w.k, w'.k);
        }
      }
      hide SockLedger;
    }
  }

  lemma OpenSpares(k: Kern, fd: int, owner: Owner)
    ensures SparesAll(k, k.Open(fd, owner))
  {
  }

  lemma CachesCarry(w: World, pid: int, p: PidOpen, sa: Sockaddr, o: LoopOracle)
    ensures Carries(w, GetPidFdInfo(w, pid, p).0)
    ensures Carries(w, ReadMem(w, pid, o).0)
    ensures Carries(w, WriteMem(w, pid, sa, o).0)
  {
    hide Print;
    PidCarries(w, pid, p);
    MemCarries(w, pid, o.memfd);
    CarriesItself(w);
    hide Carries;
    hide OpenMem;
    hide GetPidFdInfo;
  }

  lemma AddPidCarries(w: World, pid: int, info: PidInfo)
    requires pid !in w.pidInfos
    ensures Carries(w, AddPid(w, pid, info))
  {
    var w' := AddPid(w, pid, info);
    OpenSpares(w.k, info.pidfd, Pid(pid));
    if w'.k.honest && Ledger(w) {
      forall sid | 0 <= sid < |w.socks|
        ensures SockLedger(w.socks[sid], sid, w'.k)
      {
        SparesAllKeeps(w.socks[sid], sid, w.k, w'.k);
      }
      hide SockLedger;
    }
  }

  lemma PidCarries(w: World, pid: int, p: PidOpen)
    ensures Carries(w, GetPidFdInfo(w, pid, p).0)
  {
    hide Carries;
    hide AddPid;
    CarriesItself(w);
    if pid !in w.pidInfos {
      match p
      case AsProcess(fd) => AddPidCarries(w, pid, PidInfo(PROCESS, fd, pid));
      case AsThread(tgid, fd) => AddPidCarries(w, pid, PidInfo(THREAD, fd, tgid));
      case NoPid =>
    }
  }

  lemma MemCarries(w: World, pid: int, memfd: Option<int>)
    ensures Carries(w, OpenMem(w, pid, memfd).0)
  {
    var w' := OpenMem(w, pid, memfd).0;
    if w'.k.honest && Ledger(w) {
      forall sid | 0 <= sid < |w.socks|
        ensures SockLedger(w.socks[sid], sid, w'.k)
      {
        SparesAllKeeps(w.socks[sid], sid, w.k, w'.k);
      }
      hide SockLedger;
    }
  }

  /** One socket changed, by a handler that guards the ledger. */
  lemma SetSockCarries(w: World, sid: nat, s: Sock, k: Kern)
    requires sid < |w.socks| && (k.honest ==> w.k.honest)
    requires SockLedger(w.socks[sid], sid, w.k) ==> HandlerKeeps(w.socks[sid], w.k, s, k, sid)
    ensures Carries(w, w.SetSock(sid, s, k))
  {
    var w' := w.SetSock(sid, s, k);
    if w'.k.honest && Ledger(w) {
      assert SockLedger(w.socks[sid], sid, w.k);
      forall i | 0 <= i < |w.socks|
        ensures SockLedger(w'.socks[i], i, w'.k)
      {
        if i != sid {
          SparesOthersKeeps(w.socks[i], i, w.k, k, sid);
        }
      }
      hide SockLedger;
    }
  }

  lemma RegisterCarries(w: World, pid: int, fd: int, o: RegOracle)
    ensures Carries(w, Register(w, pid, fd, o).0)
  {
    hide *;
    RegisterCases(w, pid, fd, o);
    var w1 := KnowProcess(w, pid);
    KnowCarries(w, pid);
    PidCarries(w1, pid, o.pid);
    var (w2, info) := GetPidFdInfo(w1, pid, o.pid);
    CarriesTransitive(w, w1, w2);
    if info.Some? && o.getfd.Some? {
      AddCarries(w2, pid, fd, o);
      CarriesTransitive(w, w2, Register1(w2.(k := w2.k.Open(o.getfd.value, Loose).Close(o.getfd.value, Loose)), pid, fd, o));
    }
  }

  lemma KnowCarries(w: World, pid: int)
    ensures Carries(w, KnowProcess(w, pid))
  {
    HistoryCarries(w, KnowProcess(w, pid));
    hide Carries;
  }

  /** A descriptor is fetched, inspected and closed, and a socket is registered. */
  lemma AddCarries(w: World, pid: int, fd: int, o: RegOracle)
    requires pid in w.processes && o.getfd.Some?
    ensures Carries(w, Register1(w.(k := w.k.Open(o.getfd.value, Loose).Close(o.getfd.value, Loose)), pid, fd, o))
  {
    hide Carries;
    SparesAllCarries(w, Register1(w.(k := w.k.Open(o.getfd.value, Loose).Close(o.getfd.value, Loose)), pid, fd, o));
  }

  lemma {:induction false} CloseEachHonest(s: Sock, sid: nat, n: nat, k: Kern)
    requires n <= |s.hs|
    ensures CloseEach(s, sid, n, k).honest == k.honest
  {
    if n > 0 {
      CloseEachHonest(s, sid, n - 1, k);
    }
  }

  lemma RemoveSidCarries(w: World, sid: nat)
    requires sid < |w.socks| && TableOk(w.socks[sid]) && !w.socks[sid].cancelled
    ensures Carries(w, RemoveSid(w, sid))
  {
    var s := w.socks[sid];
    RemoveLedger(s, sid, w.k);
    CloseEachHonest(s, sid, |s.hs|, w.k);
    hide CloseEach;
    hide Removed;
    hide TableOk;
    hide Carries;
    hide SockLedger;
    hide HandlerKeeps;
    SetSockCarries(w, sid, Removed(s), CloseEach(s, sid, |s.hs|, w.k));
  }

  lemma LiveFiled(w: World, pid: int, fd: int)
    requires Inv(w) && w.Registered(pid, fd).Some?
    ensures var sid := w.Registered(pid, fd).value;
            sid < |w.socks| && TableOk(w.socks[sid]) && !w.socks[sid].cancelled
  {
    assert FiledOk(w.processes, w.socks, pid, fd);
    assert SockOk(w.socks[w.processes[pid][fd]], w.featureRDMA);
  }

  lemma UnregisterCarries(w: World, pid: int, fd: int)
    requires Inv(w)
    ensures Carries(w, Unregister(w, pid, fd))
  {
    var w' := Unregister(w, pid, fd);
    if w.Registered(pid, fd).Some? {
      LiveFiled(w, pid, fd);
      var sid := w.Registered(pid, fd).value;
      hide Inv;
      RemoveSidCarries(w, sid);
      hide Carries;
      var w1 := RemoveSid(w, sid);
      hide RemoveSid;
      HistoryCarries(w1, w');
      CarriesTransitive(w, w1, w');
    } else {
      HistoryCarries(w, w');
    }
  }

  lemma {:induction false} RemoveEachCarries(w: World, sids: set<nat>, n: nat)
    requires n <= |w.socks|
    requires forall sid | sid in sids && sid < |w.socks| :: TableOk(w.socks[sid]) && !w.socks[sid].cancelled
    ensures Carries(w, RemoveEach(w, sids, n))
  {
    hide Carries;
    hide RemoveSid;
    hide TableOk;
    if n == 0 {
      CarriesItself(w);
    } else {
      RemoveEachCarries(w, sids, n - 1);
      RemoveEachIs(w, sids, n - 1);
      var w1 := RemoveEach(w, sids, n - 1);
      if n - 1 in sids {
        assert w1.socks[n - 1] == w.socks[n - 1];
        RemoveSidCarries(w1, n - 1);
        CarriesTransitive(w, w1, RemoveSid(w1, n - 1));
      }
    }
  }

  lemma ExitCarries(w: World, pid: int, info: PidInfo)
    requires Inv(w)
    ensures Carries(w, HandleExit(w, pid, info))
  {
    var w1 := DropPid(w, pid);
    DropPidCarries(w, pid);
    CachesSound(w, w1);
    SoundImplies(w, w1);
    hide DropPid;
    hide Inv;
    hide Sound;
    hide Carries;
    if info.pidType.PROCESS? {
      var w2 := DropProcess(w1, info.tgid);
      DropProcessCarries(w1, info.tgid);
      CarriesTransitive(w, w1, w2);
      DropMemCarries(w2, info.tgid);
      CarriesTransitive(w, w2, DropMem(w2, info.tgid));
    }
  }

  lemma DropPidCarries(w: World, pid: int)
    ensures Carries(w, DropPid(w, pid))
  {
    if pid in w.pidInfos && Ledger(w) {
      var w' := DropPid(w, pid);
      assert Holds(w.k, w.pidInfos[pid].pidfd, Pid(pid));
      forall sid | 0 <= sid < |w.socks|
        ensures SockLedger(w.socks[sid], sid, w'.k)
      {
        assert SockLedger(w.socks[sid], sid, w.k);
      }
      hide SockLedger;
    }
  }

  lemma DropMemCarries(w: World, pid: int)
    ensures Carries(w, DropMem(w, pid))
  {
    if pid in w.memfds && Ledger(w) {
      var w' := DropMem(w, pid);
      assert Holds(w.k, w.memfds[pid], Mem(pid));
      forall sid | 0 <= sid < |w.socks|
        ensures SockLedger(w.socks[sid], sid, w'.k)
      {
        assert SockLedger(w.socks[sid], sid, w.k);
      }
      hide SockLedger;
    }
  }

  lemma DropProcessCarries(w: World, pid: int)
    requires Inv(w)
    ensures Carries(w, DropProcess(w, pid))
  {
    if pid in w.processes {
      var sids := SidsOf(w, pid);
      forall sid | sid in sids && sid < |w.socks|
        ensures TableOk(w.socks[sid]) && !w.socks[sid].cancelled
      {
        var fd :| fd in w.processes[pid] && w.processes[pid][fd] == sid;
        LiveFiled(w, pid, fd);
      }
      hide Inv;
      hide TableOk;
      hide Carries;
      RemoveEachCarries(w, sids, |w.socks|);
      var w1 := RemoveEach(w, sids, |w.socks|);
      hide RemoveEach;
      HistoryCarries(w1, DropProcess(w, pid));
      CarriesTransitive(w, w1, DropProcess(w, pid));
    } else {
      CarriesItself(w);
    }
  }

  // -------------------------------------------------------------------- handlers

  lemma LiftCarries(w: World, sid: nat, h: Handled)
    requires sid < |w.socks| && HandlerKeeps(w.socks[sid], w.k, h.s, h.k, sid)
    ensures Carries(w, Lift(w, sid, h).w)
  {
    hide SockLedger;
    hide Carries;
    assert h.k.honest ==> w.k.honest;
    hide HandlerKeeps;
    SetSockCarries(w, sid, h.s, h.k);
  }

  lemma DoBindCarries(w: World, pid: int, sid: nat, o: LoopOracle)
    requires Inv(w) && sid < |w.socks|
    ensures Carries(w, DoBind(w, pid, sid, o).w)
  {
    hide Inv;
    hide Sound;
    hide Carries;
    hide HandleBind;
    hide HandlerKeeps;
    hide D.Shaped;
    CarriesItself(w);
    CachesCarry(w, pid, o.pid, ZERO_SOCKADDR, o);
    CachesOnly(w, pid, o.pid, ZERO_SOCKADDR, o);
    var (w1, buf) := ReadMem(w, pid, o);
    hide ReadMem;
    CachesSound(w, w1);
    SoundImplies(w, w1);
    SockFacts(w1, sid);
    var s := w1.socks[sid];
    BindLedger(s, sid, buf, w1.de, o.tries, w1.featureRDMA, w1.k);
    var h := HandleBind(s, sid, buf, w1.de, o.tries, w1.featureRDMA, w1.k);
    LiftCarries(w1, sid, h);
    CarriesTransitive(w, w1, Lift(w1, sid, h).w);
  }

  lemma DoListenCarries(w: World, sid: nat, listens: set<int>)
    requires Inv(w) && sid < |w.socks|
    ensures Carries(w, Lift(w, sid, HandleListen(w.socks[sid], listens, w.featureRDMA, w.k)).w)
  {
    hide Inv;
    hide Carries;
    hide HandlerKeeps;
    SockFacts(w, sid);
    ListenLedger(w.socks[sid], sid, listens, w.featureRDMA, w.k);
    LiftCarries(w, sid, HandleListen(w.socks[sid], listens, w.featureRDMA, w.k));
  }

  lemma DoOptionsCarry(w: World, pid: int, sid: nat, level: nat, optname: nat, optlen: nat, cmd: nat, value: nat, o: LoopOracle)
    requires sid < |w.socks|
    ensures Carries(w, DoSetsockopt(w, pid, sid, level, optname, optlen, o).w)
    ensures Carries(w, DoFcntl(w, sid, cmd, value, o).w)
  {
    hide Carries;
    hide HandlerKeeps;
    CachesCarry(w, pid, o.pid, ZERO_SOCKADDR, o);
    CachesOnly(w, pid, o.pid, ZERO_SOCKADDR, o);
    var (w1, optval) := ReadMem(w, pid, o);
    hide ReadMem;
    var opt := if optval.None? then None else Some(SockOpt(level, optname, optval.value, optlen));
    OptionsLedger(w1.socks[sid], sid, opt, cmd, value, o.callOk, o.dup, w1.k);
    OptionsLedger(w.socks[sid], sid, opt, cmd, value, o.callOk, o.dup, w.k);
    hide HandleSetsockopt;
    hide HandleFcntl;
    LiftCarries(w1, sid, HandleSetsockopt(w1.socks[sid], opt, o.callOk, w1.k));
    LiftCarries(w, sid, HandleFcntl(w.socks[sid], cmd, value, o.callOk, o.dup, w.k));
    CarriesTransitive(w, w1, DoSetsockopt(w, pid, sid, level, optname, optlen, o).w);
  }

  lemma DoConnectCarries(w: World, sid: nat, o: LoopOracle)
    requires sid < |w.socks|
    ensures Carries(w, DoConnect(w, sid, o).w)
  {
    hide Carries;
    hide HandlerKeeps;
    hide HandleConnect;
    hide SockLedger;
    CarriesItself(w);
    CachesCarry(w, w.socks[sid].pid, o.pid, ZERO_SOCKADDR, o);
    CachesOnly(w, w.socks[sid].pid, o.pid, ZERO_SOCKADDR, o);
    var (w1, buf) := ReadMem(w, w.socks[sid].pid, o);
    hide ReadMem;
    var s := w1.socks[sid];
    ConnectLedger(s, sid, buf, w1.cae, w1.de, o.draws, w1.featureRDMA, o.sendOk, o.addfd.Some?, w1.k);
    var c := HandleConnect(s, buf, w1.cae, w1.de, o.draws, w1.featureRDMA, o.sendOk, o.addfd.Some?, w1.k);
    LiftCarries(w1, sid, Handled(c.s, c.reply, c.k));
    var w2 := w1.SetSock(sid, c.s, c.k);
    CarriesTransitive(w, w1, w2);
    var w' := DoConnect(w, sid, o).w;
    if !c.stuck {
      HistoryCarries(w2, w');
      CarriesTransitive(w, w2, w');
    }
  }

  // ---------------------------------------------------------------------- accept

  /** Host socket `hid` is listed, and no later accept can be handed it. */
  ghost predicate Releasable(s: Sock, hid: nat) {
    && Listed(s, hid)
    && hid !in s.queue
    && forall wi | 0 <= wi < |s.workers| :: s.workers[wi].pc != Sending(hid)
  }

  lemma DequeueLedger(s: Sock, sid: nat, featureRDMA: bool, k: Kern)
    requires SockOk(s, featureRDMA) && s.queue != [] && !s.cancelled && SockLedger(s, sid, k)
    ensures SockLedger(Dequeue(s), sid, k) && Releasable(Dequeue(s), s.queue[0])
  {
    var s' := Dequeue(s);
    assert forall hid :: Listed(s, hid) == Listed(s', hid);
    assert s.queue[0] == (s.dequeued + s.queue)[|s.dequeued|] == s.enqueued[|s.dequeued|].hid;
    forall i | 1 <= i < |s.queue|
      ensures s.queue[i] != s.queue[0]
    {
      DequeuedOnce(s, featureRDMA, |s.dequeued|, |s.dequeued| + i);
    }
    forall wi | 0 <= wi < |s.workers|
      ensures s.workers[wi].pc != Sending(s.queue[0])
    {
      assert WorkerOk(s, wi);
    }
  }

  lemma ReleaseLedger(s: Sock, sid: nat, hid: nat, k: Kern)
    requires !s.cancelled && SockLedger(s, sid, k) && Releasable(s, hid) && TableOk(s)
    ensures var fd := s.hs[hid].sockfd;
            HandlerKeeps(s, k, s.(hostSockets := s.hostSockets - {fd}), k.Close(fd, Host(sid)), sid)
  {
    var fd := s.hs[hid].sockfd;
    var s' := s.(hostSockets := s.hostSockets - {fd});
    var k' := k.Close(fd, Host(sid));
    assert Holds(k, fd, Host(sid));
    forall x: nat | Listed(s, x) && x != hid
      ensures Listed(s', x)
    {
    }
    forall wi | 0 <= wi < |s.workers| && InHand(s.workers[wi].pc).Some?
      ensures Holds(k', InHand(s.workers[wi].pc).value, Work(sid, wi))
    {
      assert Holds(k, InHand(s.workers[wi].pc).value, Work(sid, wi));
    }
  }

  lemma AdoptCarries(w: World, sid: nat, a: nat, peer: Sockaddr, h: HostSocket)
    requires sid < |w.socks| && a < |w.socks|
    ensures Carries(w, Adopt(w, sid, a, peer, h))
  {
    var s := w.socks[a];
    var s' := s.(state := Bypassed, local := w.socks[sid].local, remote := peer);
    SameHoldings(s, w.k, s', w.k, a);
    hide HandlerKeeps;
    hide Carries;
    SetSockCarries(w, a, s', w.k);
    var w1 := w.SetSock(a, s', w.k);
    HistoryCarries(w1, Adopt(w, sid, a, peer, h));
    CarriesTransitive(w, w1, Adopt(w, sid, a, peer, h));
  }

  lemma ReleaseCarries(w: World, sid: nat, hid: nat)
    requires sid < |w.socks| && hid < |w.socks[sid].hs| && !w.socks[sid].cancelled && TableOk(w.socks[sid])
    requires Releasable(w.socks[sid], hid)
    ensures Carries(w, Release(w, sid, w.socks[sid].hs[hid]))
  {
    var s := w.socks[sid];
    var fd := s.hs[hid].sockfd;
    var k := w.k.Close(fd, Host(sid));
    if Ledger(w) {
      assert SockLedger(s, sid, w.k);
      ReleaseLedger(s, sid, hid, w.k);
      hide HandlerKeeps;
      hide SockLedger;
      hide Releasable;
      SetSockCarries(w, sid, s.(hostSockets := s.hostSockets - {fd}), k);
    }
  }

  /** The table, the queue and the goroutines of a socket. */
  ghost predicate SameHolding(s: Sock, s': Sock) {
    && s'.hs == s.hs && s'.hostSockets == s.hostSockets && s'.queue == s.queue && s'.workers == s.workers
    && s'.cancelled == s.cancelled
  }

  /** Up to the adoption nothing the listener holds has changed. */
  lemma AdoptedCarries(w: World, pid: int, sid: nat, h: HostSocket, newfd: nat, o: LoopOracle)
    requires Inv(w) && sid < |w.socks|
    requires !Inject(w, pid, sid, h, newfd, o).stuck
    ensures var asid := Register(w, pid, newfd, o.acc).1;
            && asid.Some? && PeerAddress(w.socks[sid], h).Some?
            && var peer := PeerAddress(w.socks[sid], h).value;
            && var w2 := Prelude(w, pid, newfd, peer, o);
            && sid < |w2.socks| && asid.value < |w2.socks|
            && var w3 := Adopt(w2, sid, asid.value, peer, h);
            && Inject(w, pid, sid, h, newfd, o).w == Release(w3, sid, h)
            && Carries(w, w3) && SameHolding(w.socks[sid], w3.socks[sid])
  {
    hide Inject;
    hide PeerAddress;
    hide Inv;
    hide Register;
    hide Prelude;
    hide Sound;
    hide Carries;
    hide WriteMem;
    InjectShape(w, pid, sid, h, newfd, o);
    var asid, peer := Register(w, pid, newfd, o.acc).1, PeerAddress(w.socks[sid], h).value;
    PreludeSound(w, pid, newfd, peer, o);
    PreludeCarries(w, pid, newfd, peer, o);
    var w3 := Prelude(w, pid, newfd, peer, o);
    AdoptCarries(w3, sid, asid.value, peer, h);
    CarriesTransitive(w, w3, Adopt(w3, sid, asid.value, peer, h));
  }

  lemma PreludeCarries(w: World, pid: int, newfd: nat, peer: Sockaddr, o: LoopOracle)
    ensures Carries(w, Prelude(w, pid, newfd, peer, o))
  {
    hide Register;
    hide WriteMem;
    hide Carries;
    var w1 := Register(w, pid, newfd, o.acc).0;
    RegisterCarries(w, pid, newfd, o.acc);
    CachesCarry(w1, pid, o.pid, peer, o);
    var w2 := WriteMem(w1, pid, peer, o).0;
    CarriesTransitive(w, w1, w2);
    HistoryCarries(w2, Prelude(w, pid, newfd, peer, o));
    CarriesTransitive(w, w2, Prelude(w, pid, newfd, peer, o));
  }

  /** The kernel does not become honest, nor does a lost descriptor come back. */
  ghost predicate Remembers(w: World, w': World) {
    (w'.k.honest ==> w.k.honest) && (w.lost ==> w'.lost)
  }

  lemma TableOkAt(w: World, sid: nat)
    requires Inv(w) && sid < |w.socks|
    ensures TableOk(w.socks[sid])
  {
    assert SockOk(w.socks[sid], w.featureRDMA);
  }

  lemma SameHoldingKeeps(s: Sock, s': Sock, hid: nat)
    requires SameHolding(s, s')
    ensures TableOk(s) ==> TableOk(s')
    ensures Releasable(s, hid) ==> Releasable(s', hid)
  {
  }

  lemma InjectCarries(w: World, pid: int, sid: nat, hid: nat, newfd: nat, o: LoopOracle)
    requires Inv(w) && sid < |w.socks| && !w.socks[sid].cancelled
    requires hid < |w.socks[sid].hs|
    requires !Inject(w, pid, sid, w.socks[sid].hs[hid], newfd, o).stuck
    ensures Remembers(w, Inject(w, pid, sid, w.socks[sid].hs[hid], newfd, o).w)
    ensures Releasable(w.socks[sid], hid) ==> Carries(w, Inject(w, pid, sid, w.socks[sid].hs[hid], newfd, o).w)
  {
    var h := w.socks[sid].hs[hid];
    AdoptedCarries(w, pid, sid, h, newfd, o);
    TableOkAt(w, sid);
    hide Inject;
    hide PeerAddress;
    hide Register;
    hide Prelude;
    hide Inv;
    var asid := Register(w, pid, newfd, o.acc).1;
    var peer := PeerAddress(w.socks[sid], h).value;
    var w3 := Adopt(Prelude(w, pid, newfd, peer, o), sid, asid.value, peer, h);
    SameHoldingKeeps(w.socks[sid], w3.socks[sid], hid);
    hide Adopt;
    hide TableOk;
    hide Releasable;
    hide Ledger;
    if Releasable(w.socks[sid], hid) {
      ReleaseCarries(w3, sid, hid);
      CarriesTransitive(w, w3, Release(w3, sid, h));
    }
  }

  lemma DequeueCarries(w: World, sid: nat)
    requires Inv(w) && sid < |w.socks| && w.socks[sid].queue != [] && !w.socks[sid].cancelled
    ensures Carries(w, w.SetSock(sid, Dequeue(w.socks[sid]), w.k))
    ensures Ledger(w) ==> Releasable(Dequeue(w.socks[sid]), w.socks[sid].queue[0])
  {
    var s := w.socks[sid];
    SockFacts(w, sid);
    hide Inv;
    if SockLedger(s, sid, w.k) {
      DequeueLedger(s, sid, w.featureRDMA, w.k);
    }
    assert Ledger(w) ==> SockLedger(s, sid, w.k);
    hide SockOk;
    hide SockLedger;
    hide Releasable;
    SetSockCarries(w, sid, Dequeue(s), w.k);
  }

  lemma DoAcceptCarries(w: World, pid: int, sid: nat, o: LoopOracle)
    requires Inv(w) && sid < |w.socks| && !w.socks[sid].cancelled
    ensures Carries(w, DoAccept(w, pid, sid, o).w)
  {
    hide Inv;
    hide Sound;
    hide SockOk;
    hide Inject;
    hide Releasable;
    hide Ledger;
    hide PeerOf;
    var s := w.socks[sid];
    CarriesItself(w);
    if s.state == Listening && s.queue != [] {
      DequeueSound(w, sid);
      DequeueCarries(w, sid);
      var hid := s.queue[0];
      var w1 := w.SetSock(sid, Dequeue(s), w.k);
      SoundImplies(w, w1);
      if o.addfd.Some? && !Inject(w1, pid, sid, s.hs[hid], o.addfd.value, o).stuck {
        InjectCarries(w1, pid, sid, hid, o.addfd.value, o);
      }
    }
  }

  // -------------------------------------------------------------------- dispatch

  lemma DispatchCarries(w: World, pid: int, sid: nat, call: Call, o: LoopOracle)
    requires Inv(w) && sid < |w.socks| && !w.socks[sid].cancelled
    ensures Carries(w, Dispatch(w, pid, sid, call, o).w)
  {
    hide Inv;
    hide Carries;
    hide DoBind;
    hide DoConnect;
    hide DoAccept;
    hide DoSetsockopt;
    hide HandleListen;
    hide DoFcntl;
    hide WriteMem;
    CarriesItself(w);
    match call
    case Bind => DoBindCarries(w, pid, sid, o);
    case Listen => DoListenCarries(w, sid, o.listens);
    case Accept => DoAcceptCarries(w, pid, sid, o);
    case Accept4 => DoAcceptCarries(w, pid, sid, o);
    case Connect => DoConnectCarries(w, sid, o);
    case Setsockopt(level, optname, optlen) => DoOptionsCarry(w, pid, sid, level, optname, optlen, 0, 0, o);
    case Fcntl(cmd, value) => DoOptionsCarry(w, pid, sid, 0, 0, 0, cmd, value, o);
    case Getpeername => CachesCarry(w, pid, o.pid, w.socks[sid].remote, o);
    case Getsockname => CachesCarry(w, pid, o.pid, w.socks[sid].local, o);
    case _ =>
  }

  lemma RegisteredIsLive(w: World, pid: int, fd: int, sid: nat)
    requires Inv(w) && w.Registered(pid, fd) == Some(sid)
    ensures sid < |w.socks| && !w.socks[sid].cancelled
  {
    assert FiledOk(w.processes, w.socks, pid, fd);
  }

  lemma GateCarries(w: World, pid: int, sid: nat, req: Request, o: LoopOracle)
    requires Inv(w) && sid < |w.socks|
    ensures Carries(w, Gate(w, pid, sid, req, o).w)
  {
    hide Inv;
    hide Sound;
    hide Carries;
    hide Register;
    hide Unregister;
    CarriesItself(w);
    if w.socks[sid].state == NotBypassable && (req.call.Connect? || req.call.Bind?) {
      UnregisterSound(w, pid, req.fd);
      UnregisterCarries(w, pid, req.fd);
      var w0 := Unregister(w, pid, req.fd);
      SoundImplies(w, w0);
      RegisterCarries(w0, pid, req.fd, o.rereg);
      CarriesTransitive(w, w0, Register(w0, pid, req.fd, o.rereg).0);
    }
  }

  /** Two more descriptors, and a new state for one socket. */
  lemma TakeOverCarries(w: World, sid: nat, pair: (int, int), injected: bool)
    requires sid < |w.socks|
    ensures Carries(w, TakeOver(w, sid, pair, injected))
  {
    var s, k1 := w.socks[sid], w.k.Open(pair.0, Loose);
    var s', k2 := s.(state := if injected then Bypassed else NotBypassable), k1.Open(pair.1, Loose);
    OpenSpares(w.k, pair.0, Loose);
    OpenSpares(k1, pair.1, Loose);
    SparesAllTransitive(w.k, k1, k2);
    SameHoldings(s, w.k, s', k2, sid);
    assert k2.honest ==> w.k.honest;
    hide SparesAll;
    hide SockLedger;
    hide HandlerKeeps;
    hide Carries;
    SetSockCarries(w, sid, s', k2);
  }

  lemma RsocketCarries(w: World, sid: nat, o: LoopOracle)
    requires sid < |w.socks|
    ensures Carries(w, InitializeRsocket(w, sid, o).0)
  {
    hide Carries;
    hide UnixPath;
    hide TakeOver;
    CarriesItself(w);
    var pid := w.socks[sid].pid;
    CachesCarry(w, pid, o.pid, ZERO_SOCKADDR, o);
    CachesOnly(w, pid, o.pid, ZERO_SOCKADDR, o);
    var w1 := ReadMem(w, pid, o).0;
    hide ReadMem;
    if o.pair.Some? {
      TakeOverCarries(w1, sid, o.pair.value, o.addfd.Some?);
      CarriesTransitive(w, w1, TakeOver(w1, sid, o.pair.value, o.addfd.Some?));
    }
  }

  lemma EnterCarries(w: World, pid: int, sid: nat, req: Request, o: LoopOracle)
    requires Inv(w) && sid < |w.socks|
    ensures Carries(w, Enter(w, pid, sid, req, o).w)
  {
    hide Inv;
    hide Sound;
    hide Carries;
    hide Gate;
    hide InitializeRsocket;
    if w.featureRDMA && req.call.Connect? {
      RsocketSound(w, sid, o);
      RsocketCarries(w, sid, o);
      var (w1, done) := InitializeRsocket(w, sid, o);
      SoundImplies(w, w1);
      if !done {
        GateCarries(w1, pid, sid, req, o);
        CarriesTransitive(w, w1, Gate(w1, pid, sid, req, o).w);
      }
    } else {
      GateCarries(w, pid, sid, req, o);
    }
  }

  lemma SettleCarries(w: World, req: Request, o: LoopOracle)
    requires Inv(w)
    ensures Carries(w, Settle(w, req, o).w)
  {
    hide Inv;
    hide Sound;
    hide Carries;
    hide Enter;
    hide HandleExit;
    hide Register;
    hide Unregister;
    CarriesItself(w);
    CachesOnly(w, req.pid, o.pid, ZERO_SOCKADDR, o);
    CachesCarry(w, req.pid, o.pid, ZERO_SOCKADDR, o);
    var (w1, info) := GetPidFdInfo(w, req.pid, o.pid);
    hide GetPidFdInfo;
    CachesSound(w, w1);
    SoundImplies(w, w1);
    if info.Some? {
      var pid := info.value.tgid;
      ExitCarries(w1, req.pid, info.value);
      CarriesTransitive(w, w1, HandleExit(w1, req.pid, info.value));
      UnregisterCarries(w1, pid, req.fd);
      CarriesTransitive(w, w1, Unregister(w1, pid, req.fd));
      RegisterSound(w1, pid, req.fd, o.reg);
      RegisterCarries(w1, pid, req.fd, o.reg);
      var (w2, sid) := Register(w1, pid, req.fd, o.reg);
      CarriesTransitive(w, w1, w2);
      SoundImplies(w1, w2);
      if sid.Some? {
        EnterCarries(w2, pid, sid.value, req, o);
        CarriesTransitive(w, w2, Enter(w2, pid, sid.value, req, o).w);
      }
    }
  }

  /** The handler is called in a world that satisfies the invariant, on a live socket. */
  lemma SettleFacts(w: World, req: Request, o: LoopOracle)
    requires Inv(w)
    ensures var st := Settle(w, req, o);
            Inv(st.w) && (st.sid.Some? ==> st.sid.value < |st.w.socks| && !st.w.socks[st.sid.value].cancelled)
  {
    hide Inv;
    hide Settle;
    hide Sound;
    SettleSound(w, req, o);
    var st := Settle(w, req, o);
    SoundImplies(w, st.w);
    if st.sid.Some? {
      RegisteredIsLive(st.w, st.pid, req.fd, st.sid.value);
    }
  }

  lemma HandleReqCarries(w: World, req: Request, o: LoopOracle)
    requires Inv(w)
    ensures Carries(w, HandleReq(w, req, o).w)
  {
    hide Inv;
    hide Carries;
    hide Settle;
    hide Dispatch;
    SettleFacts(w, req, o);
    SettleCarries(w, req, o);
    var st := Settle(w, req, o);
    if st.sid.Some? {
      DispatchCarries(st.w, st.pid, st.sid.value, req.call, o);
      CarriesTransitive(w, st.w, Dispatch(st.w, st.pid, st.sid.value, req.call, o).w);
    }
  }

  // ----------------------------------------------------------------------- runs

  lemma WorkHonest(s: Sock, sid: nat, wi: nat, o: WorkOracle, sae: AC.Acl, now: nat, k: Kern)
    requires wi < |s.workers| && s.workers[wi].listener < |s.hs|
    ensures WorkStep(s, sid, wi, o, sae, now, k).1.honest ==> k.honest
  {
    hide AC.Acl.Apply;
    hide Peer;
  }

  lemma WorkerCarries(w: World, sid: nat, wi: nat, wo: WorkOracle)
    requires Inv(w)
    ensures Carries(w, Engine.Do(w, Step.Worker(sid, wi, wo)))
  {
    CarriesItself(w);
    if sid < |w.socks| && wi < |w.socks[sid].workers| && w.socks[sid].workers[wi].listener < |w.socks[sid].hs| {
      SockFacts(w, sid);
      var s := w.socks[sid];
      assert WorkerOk(s, wi);
      hide Inv;
      hide SockOk;
      hide Carries;
      WorkHonest(s, sid, wi, wo, w.sae, w.now, w.k);
      if SockLedger(s, sid, w.k) {
        WorkLedger(s, sid, wi, wo, w.sae, w.now, w.k);
      }
      hide WorkStep;
      hide SockLedger;
      hide HandlerKeeps;
      var (s', k) := WorkStep(s, sid, wi, wo, w.sae, w.now, w.k);
      SetSockCarries(w, sid, s', k);
    }
  }

  lemma EnvOpensCarries(w: World, fd: int)
    ensures Carries(w, Engine.Do(w, EnvOpens(fd)))
  {
    OpenSpares(w.k, fd, Env);
    hide SparesAll;
    hide Carries;
    SparesAllCarries(w, Engine.Do(w, EnvOpens(fd)));
  }

  lemma EnvClosesCarries(w: World, fd: int)
    ensures Carries(w, Engine.Do(w, EnvCloses(fd)))
  {
    CarriesItself(w);
    if Holds(w.k, fd, Env) && Ledger(w) {
      var w' := Engine.Do(w, EnvCloses(fd));
      forall sid | 0 <= sid < |w.socks|
        ensures SockLedger(w.socks[sid], sid, w'.k)
      {
        assert SockLedger(w.socks[sid], sid, w.k);
      }
      hide SockLedger;
    }
  }

  lemma EnvSetsCarries(w: World, fd: int, opt: HostOpt)
    ensures Carries(w, Engine.Do(w, EnvSets(fd, opt)))
  {
    hide Carries;
    SparesAllCarries(w, Engine.Do(w, EnvSets(fd, opt)));
  }

  lemma NextCarries(w: World, st: Step)
    requires Inv(w)
    ensures Carries(w, Next(w, st))
  {
    hide Inv;
    hide Carries;
    hide HandleReq;
    var w1 := Engine.Do(w, st);
    match st {
      case Loop(req, o) => HandleReqCarries(w, req, o);
      case Worker(sid, wi, wo) => WorkerCarries(w, sid, wi, wo);
      case EnvOpens(fd) => EnvOpensCarries(w, fd);
      case EnvCloses(fd) => EnvClosesCarries(w, fd);
      case EnvSets(fd, opt) => EnvSetsCarries(w, fd, opt);
      case _ => HistoryCarries(w, w1);
    }
    hide Engine.Do;
    HistoryCarries(w1, Next(w, st));
    CarriesTransitive(w, w1, Next(w, st));
  }

  lemma {:induction false} RunCarries(w0: World, run: seq<Step>, n: nat)
    requires Inv(w0) && n <= |run|
    ensures Carries(w0, Engine.After(w0, run, n))
  {
    hide Inv;
    hide Evolves;
    hide Carries;
    hide Next;
    if n == 0 {
      CarriesItself(w0);
    } else {
      RunCarries(w0, run, n - 1);
      RunSound(w0, run, n - 1, n - 1);
      NextCarries(Engine.After(w0, run, n - 1), run[n - 1]);
      CarriesTransitive(w0, Engine.After(w0, run, n - 1), Engine.After(w0, run, n));
    }
  }

  /** The ownership ledger, over every run of every handler: while the kernel hands
      out only numbers that are not open and every accepted descriptor could be
      injected, everything kept is open and kept once, and nothing was ever closed
      by one who did not hold it. */
  lemma LedgerOverRuns(myVIP: IP, featureRDMA: bool, serverDefault: bool, clientDefault: bool, run: seq<Step>, n: nat)
    requires n <= |run|
    requires var w := Engine.After(Init(myVIP, featureRDMA, serverDefault, clientDefault), run, n);
             w.k.honest && !w.lost
    ensures var w := Engine.After(Init(myVIP, featureRDMA, serverDefault, clientDefault), run, n);
            && Ledger(w) && w.k.badCloses == 0
            && (forall p, fd | Keeps(w, p, fd) :: fd in w.k.open)
            && (forall p, q, fd | Keeps(w, p, fd) && Keeps(w, q, fd) :: p == q)
  {
    var w0 := Init(myVIP, featureRDMA, serverDefault, clientDefault);
    InitInv(myVIP, featureRDMA, serverDefault, clientDefault);
    assert Ledger(w0);
    RunCarries(w0, run, n);
    RunSound(w0, run, n, n);
    hide Ledger;
    hide Inv;
    hide Keeps;
    KeptOnce(Engine.After(w0, run, n));
  }

  // ------------------------------------------------------------------- exactness

  /** When an accepted descriptor cannot be injected the ledger breaks at once: the
      live listener still lists a descriptor that has been closed. */
  lemma LosingBreaksTheLedger(w: World, pid: int, sid: nat, o: LoopOracle)
    requires Inv(w) && Ledger(w) && sid < |w.socks| && !w.socks[sid].cancelled
    requires w.socks[sid].state == Listening && w.socks[sid].queue != [] && o.addfd.None?
    ensures var w' := DoAccept(w, pid, sid, o).w;
            var fd := w.socks[sid].hs[w.socks[sid].queue[0]].sockfd;
            && w'.lost && !Ledger(w')
            && Keeps(w', HostTable(sid, fd), fd) && fd !in w'.k.open
  {
    SockFacts(w, sid);
    DequeueSound(w, sid);
    var s := w.socks[sid];
    DequeueLedger(s, sid, w.featureRDMA, w.k);
    var fd := s.hs[s.queue[0]].sockfd;
    hide SockOk;
    hide Inv;
    var w' := DoAccept(w, pid, sid, o).w;
    assert !HostsHeld(w'.socks[sid], sid, w'.k);
  }

  /** The listed numbers, of host sockets before the `n`-th, that the socket does not hold. */
  ghost function NotHeld(s: Sock, sid: nat, k: Kern, n: nat): set<int> {
    set fd | fd in s.hostSockets && s.hostSockets[fd] < n && !Holds(k, fd, Host(sid))
  }

  /** Removal closes one number wrongly for each that is listed and not held. */
  lemma {:induction false} CloseEachCounts(s: Sock, sid: nat, n: nat, k: Kern)
    requires n <= |s.hs| && TableOk(s)
    ensures var k' := CloseEach(s, sid, n, k);
            && k'.badCloses == k.badCloses + |NotHeld(s, sid, k, n)|
            && forall fd, x | fd !in s.hostSockets || s.hostSockets[fd] >= n :: Holds(k', fd, x) <==> Holds(k, fd, x)
  {
    if n > 0 {
      CloseEachCounts(s, sid, n - 1, k);
      var before, after := NotHeld(s, sid, k, n - 1), NotHeld(s, sid, k, n);
      if InTable(s, n - 1) {
        var fd := FdOf(s, n - 1);
        assert s.hs[n - 1].sockfd == fd;
        assert after == if Holds(k, fd, Host(sid)) then before else before + {fd};
      } else {
        assert after == before;
      }
    } else {
      assert NotHeld(s, sid, k, 0) == {};
    }
  }

  /** Removing a socket closes some number wrongly if and only if its table lists one it
      does not hold at that time. */
  lemma RemovalIsBadExactly(w: World, sid: nat)
    requires Inv(w) && sid < |w.socks|
    ensures RemoveSid(w, sid).k.badCloses > w.k.badCloses <==>
            exists fd :: fd in w.socks[sid].hostSockets && !Holds(w.k, fd, Host(sid))
  {
    TableOkAt(w, sid);
    hide Inv;
    var s := w.socks[sid];
    CloseEachCounts(s, sid, |s.hs|, w.k);
    hide CloseEach;
    hide Removed;
    var bad := NotHeld(s, sid, w.k, |s.hs|);
    if fd :| fd in s.hostSockets && !Holds(w.k, fd, Host(sid)) {
      assert fd in bad;
    } else {
      assert bad == {};
    }
  }

  /** What a failed injection leaves: the host sockets and their table as they were, and the
      lost descriptor closed. */
  lemma LosingLeaves(w: World, pid: int, sid: nat, o: LoopOracle)
    requires Inv(w) && sid < |w.socks| && w.socks[sid].state == Listening && w.socks[sid].queue != [] && o.addfd.None?
    ensures w.socks[sid].queue[0] < |w.socks[sid].hs|
    ensures var s, w' := w.socks[sid], DoAccept(w, pid, sid, o).w;
            && w'.k == w.k.Close(s.hs[s.queue[0]].sockfd, Host(sid))
            && |w'.socks| == |w.socks| && w'.socks[sid].hs == s.hs && w'.socks[sid].hostSockets == s.hostSockets
  {
    hide Inv;
    hide Sound;
    hide PeerOf;
    hide SockOk;
    hide Inject;
    DequeueSound(w, sid);
  }

  /** Closing a held number of the table early makes removal close exactly that one wrongly. */
  lemma ClosedTwice(s: Sock, sid: nat, k: Kern, fd: int)
    requires TableOk(s) && HostsHeld(s, sid, k) && fd in s.hostSockets
    ensures k.Close(fd, Host(sid)).badCloses == k.badCloses
    ensures CloseEach(s, sid, |s.hs|, k.Close(fd, Host(sid))).badCloses == k.badCloses + 1
  {
    var k' := k.Close(fd, Host(sid));
    CloseEachCounts(s, sid, |s.hs|, k');
    hide CloseEach;
    assert Holds(k, fd, Host(sid));
    assert NotHeld(s, sid, k', |s.hs|) == {fd};
  }

  lemma {:induction false} CloseEachSame(s: Sock, s': Sock, sid: nat, n: nat, k: Kern)
    requires n <= |s.hs| && s'.hs == s.hs && s'.hostSockets == s.hostSockets
    ensures CloseEach(s', sid, n, k) == CloseEach(s, sid, n, k)
  {
    if n > 0 {
      CloseEachSame(s, s', sid, n - 1, k);
      assert InTable(s', n - 1) == InTable(s, n - 1);
    }
  }

  /** A failed injection, then removal of the listener before anything else: the number
      of the lost descriptor, and only that, is closed a second time. */
  lemma LosingClosesTwice(w: World, pid: int, sid: nat, o: LoopOracle)
    requires Inv(w) && Ledger(w) && sid < |w.socks| && !w.socks[sid].cancelled
    requires w.socks[sid].state == Listening && w.socks[sid].queue != [] && o.addfd.None?
    ensures w.k.badCloses == 0 && DoAccept(w, pid, sid, o).w.k.badCloses == 0
    ensures sid < |DoAccept(w, pid, sid, o).w.socks| && RemoveSid(DoAccept(w, pid, sid, o).w, sid).k.badCloses == 1
  {
    LosingLeaves(w, pid, sid, o);
    TableOkAt(w, sid);
    HeadIsHeld(w, sid);
    hide Inv;
    hide DoAccept;
    var s, w' := w.socks[sid], DoAccept(w, pid, sid, o).w;
    var fd := s.hs[s.queue[0]].sockfd;
    ClosedTwice(s, sid, w.k, fd);
    CloseEachSame(s, w'.socks[sid], sid, |s.hs|, w'.k);
    hide CloseEach;
    hide Removed;
    hide SockLedger;
    hide TableOk;
    hide HostsHeld;
  }

  lemma HeadIsHeld(w: World, sid: nat)
    requires Inv(w) && Ledger(w) && sid < |w.socks| && !w.socks[sid].cancelled && w.socks[sid].queue != []
    ensures var s := w.socks[sid];
            s.queue[0] < |s.hs| && s.hs[s.queue[0]].sockfd in s.hostSockets && HostsHeld(s, sid, w.k)
  {
    hide Inv;
    assert SockLedger(w.socks[sid], sid, w.k);
    assert Listed(w.socks[sid], w.socks[sid].queue[0]);
  }

  /** ... unless a goroutine stores a new peer under that number first: storing a peer
      takes its number, and no other, out of those removal would close wrongly. */
  lemma StoringRestores(s: Sock, sid: nat, wi: nat, h: HostSocket, k: Kern)
    requires TableOk(s) && wi < |s.workers| && s.workers[wi].pc == Storing(h) && !s.cancelled
    requires Holds(k, h.sockfd, Work(sid, wi))
    ensures var s', k' := Stored(s, wi, h), k.Give(h.sockfd, Host(sid));
            && NotHeld(s', sid, k', |s'.hs|) == NotHeld(s, sid, k, |s.hs|) - {h.sockfd}
            && CloseEach(s', sid, |s'.hs|, k').badCloses == k.badCloses + |NotHeld(s, sid, k, |s.hs|) - {h.sockfd}|
  {
    var s', k' := Stored(s, wi, h), k.Give(h.sockfd, Host(sid));
    assert TableOk(s');
    CloseEachCounts(s', sid, |s'.hs|, k');
    hide CloseEach;
    assert NotHeld(s', sid, k', |s'.hs|) == NotHeld(s, sid, k, |s.hs|) - {h.sockfd};
  }
}
