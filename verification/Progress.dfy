/** What is sure to happen: bind makes a host socket for every entry that can be bound,
    a goroutine queues exactly the peers the policy admits, and accept hands out the
    head of the queue. */
module Progress {
  import opened Net
  import opened Sockaddrs
  import opened Kernel
  import opened Socket
  import opened Transports
  import opened Rsocket
  import opened Engine
  import opened SocketInvariant
  import opened Invariant
  import opened Effects
  import HostSockets
  import AC = AccessControl
  import D = Destination

  // ------------------------------------------------------------------------- bind

  /** The host sockets of those among the first `n` entries that could be bound. */
  function Bound(s: Sock, entries: seq<D.Entry>, os: seq<Try>, n: nat): seq<HostSocket>
    requires n <= |entries|
  {
    if n == 0 then []
    else
      var e, o := entries[n - 1], TryAt(os, n - 1);
      Bound(s, entries, os, n - 1) +
      if o.fd.Some? && CanBind(s, e, o, o.fd.value) then [HostSocket(o.fd.value, e, HostSocketBinded, false, NO_LINK, 0)] else []
  }

  /** Was the container told to bind an RDMA address itself? */
  predicate ToldRdma(s: Sock, entries: seq<D.Entry>, os: seq<Try>, n: nat, featureRDMA: bool)
    requires n <= |entries|
  {
    featureRDMA && exists i | 0 <= i < n :: entries[i].transport.RDMA? && TryAt(os, i).writeOk
  }

  /** Entry `i` gets a host socket if and only if the environment lets it be bound. */
  lemma {:induction false} BoundHas(s: Sock, entries: seq<D.Entry>, os: seq<Try>, n: nat)
    requires n <= |entries|
    ensures forall h :: h in Bound(s, entries, os, n) <==>
              exists i | 0 <= i < n :: CanBind(s, entries[i], TryAt(os, i), h.sockfd) &&
                h == HostSocket(h.sockfd, entries[i], HostSocketBinded, false, NO_LINK, 0)
  {
    hide CanBind;
    hide TryAt;
    if n > 0 {
      BoundHas(s, entries, os, n - 1);
      OnlyThere(s, entries[n - 1], TryAt(os, n - 1));
    }
  }

  lemma OnlyThere(s: Sock, e: D.Entry, o: Try)
    ensures forall fd :: CanBind(s, e, o, fd) <==> o.fd == Some(fd) && CanBind(s, e, o, o.fd.value)
  {
  }

  lemma SameBind(s: Sock, s': Sock, e: D.Entry, o: Try)
    requires s'.socketOptions == s.socketOptions && s'.fcntlOptions == s.fcntlOptions
    ensures forall fd :: CanBind(s', e, o, fd) == CanBind(s, e, o, fd)
  {
  }

  lemma {:induction false} BindEachExactly(s: Sock, sid: nat, entries: seq<D.Entry>, os: seq<Try>, n: nat, featureRDMA: bool, k: Kern)
    requires n <= |entries|
    ensures var b := BindEach(s, sid, entries, os, n, featureRDMA, k);
            && b.s == s.(hs := s.hs + Bound(s, entries, os, n), hostSockets := b.s.hostSockets)
            && (b.rdma <==> ToldRdma(s, entries, os, n, featureRDMA))
            && (b.ok <==> b.rdma || Bound(s, entries, os, n) != [])
  {
    if n > 0 {
      BindEachExactly(s, sid, entries, os, n - 1, featureRDMA, k);
      var b := BindEach(s, sid, entries, os, n - 1, featureRDMA, k);
      SameBind(s, b.s, entries[n - 1], TryAt(os, n - 1));
      BindsExactly(b.s, entries[n - 1], TryAt(os, n - 1));
      hide CanBind;
      hide TransportBind;
      hide AfterBind;
    }
  }

  /** The table lists each host socket, and only those, under its own descriptor. */
  ghost predicate Tabled(table: map<int, nat>, hosts: seq<HostSocket>) {
    && (forall fd | fd in table :: table[fd] < |hosts| && hosts[table[fd]].sockfd == fd)
    && (forall i | 0 <= i < |hosts| :: hosts[i].sockfd in table && table[hosts[i].sockfd] == i)
  }

  lemma {:induction false} BindEachTable(s: Sock, sid: nat, entries: seq<D.Entry>, os: seq<Try>, n: nat, featureRDMA: bool, k: Kern)
    requires n <= |entries| && s.hostSockets == map[]
    ensures TableOk(BindEach(s, sid, entries, os, n, featureRDMA, k).s)
  {
    if n > 0 {
      BindEachTable(s, sid, entries, os, n - 1, featureRDMA, k);
      hide TransportBind;
      hide AfterBind;
    }
  }

  lemma BindTable(s: Sock, sid: nat, buf: Option<Bytes>, de: D.Dest, os: seq<Try>, featureRDMA: bool, k: Kern)
    requires s.hs == [] && s.hostSockets == map[]
    ensures var h := HandleBind(s, sid, buf, de, os, featureRDMA, k);
            h.k.honest ==> Tabled(h.s.hostSockets, h.s.hs)
  {
    HostSockets.BindReplays(s, sid, buf, de, os, featureRDMA, k);
    hide Parse;
    hide D.Dest.GetServer;
    if buf.Some? && Parse(buf.value).Some? {
      var s1 := s.(local := Parse(buf.value).value);
      var entries := de.GetServer(s1.local.port);
      BindEachTable(s1, sid, entries, os, |entries|, featureRDMA, k);
      hide BindEach;
    }
  }

  /** What bind leaves and answers: bound if and only if the address could be read and some
      entry of its port could be bound, and then with exactly those host sockets, each in
      the table under its descriptor if the kernel is honest; without entries it only takes
      the name; otherwise it fails. */
  ghost predicate BindListed(s: Sock, buf: Option<Bytes>, de: D.Dest, os: seq<Try>, featureRDMA: bool, s': Sock, reply: Reply, honest: bool) {
    if buf.None? || Parse(buf.value).None? then s' == s.(state := Error) && reply == Reply(false, 13, 0)
    else
      var name := Parse(buf.value).value;
      var entries := de.GetServer(name.port);
      var hosts, rdma := Bound(s, entries, os, |entries|), ToldRdma(s, entries, os, |entries|, featureRDMA);
      && s' == s.(local := name, hs := hosts, hostSockets := s'.hostSockets,
                  state := if entries == [] then NotBypassed else if hosts != [] || rdma then Binded else Error)
      && (honest ==> Tabled(s'.hostSockets, hosts))
      && reply == (if entries == [] then Reply(false, 0, 0)
                   else if rdma then Reply(false, 0, 999 + 16)
                   else if hosts != [] then Reply(false, 0, 0) else Reply(false, 13, 0))
  }

  lemma BindExactly(s: Sock, sid: nat, buf: Option<Bytes>, de: D.Dest, os: seq<Try>, featureRDMA: bool, k: Kern)
    requires s.state == NotBypassed && s.hs == [] && s.hostSockets == map[]
    ensures var h := HandleBind(s, sid, buf, de, os, featureRDMA, k);
            BindListed(s, buf, de, os, featureRDMA, h.s, h.reply, h.k.honest)
  {
    BindTable(s, sid, buf, de, os, featureRDMA, k);
    hide Parse;
    hide D.Dest.GetServer;
    hide Tabled;
    if buf.Some? && Parse(buf.value).Some? {
      var s1 := s.(local := Parse(buf.value).value);
      var entries := de.GetServer(s1.local.port);
      BindEachExactly(s1, sid, entries, os, |entries|, featureRDMA, k);
      SameBound(s, s1, entries, os, |entries|);
      assert entries == [] ==> Bound(s, entries, os, |entries|) == [];
      assert s.hs + Bound(s, entries, os, |entries|) == Bound(s, entries, os, |entries|);
      hide BindEach;
      hide Bound;
    }
  }

  lemma {:induction false} SameBound(s: Sock, s': Sock, entries: seq<D.Entry>, os: seq<Try>, n: nat)
    requires n <= |entries| && s'.socketOptions == s.socketOptions && s'.fcntlOptions == s.fcntlOptions
    ensures Bound(s', entries, os, n) == Bound(s, entries, os, n)
  {
    if n > 0 {
      SameBound(s, s', entries, os, n - 1);
      SameBind(s, s', entries[n - 1], TryAt(os, n - 1));
      hide CanBind;
    }
  }

  // ------------------------------------------------------------------ a goroutine

  /** Goroutine `wi` stands as `me`. */
  function With(s: Sock, wi: nat, me: Worker): Sock
    requires wi < |s.workers|
  {
    s.(workers := s.workers[wi := me])
  }

  lemma WithTwice(s: Sock, wi: nat, me: Worker, me': Worker)
    requires wi < |s.workers|
    ensures With(With(s, wi, me), wi, me') == With(s, wi, me') && With(s, wi, me).workers[wi] == me
    ensures me == s.workers[wi] ==> With(s, wi, me) == s
  {
    assert s.workers[wi := me][wi := me'] == s.workers[wi := me'];
  }

  /** The goroutine waits for a connection from where `a` comes. */
  predicate Awaits(s: Sock, wi: nat, a: Arrival) {
    && wi < |s.workers| && s.workers[wi].listener < |s.hs| && s.workers[wi].pc == Poll
    && !s.hs[s.workers[wi].listener].cancelled && FromOk(s.hs[s.workers[wi].listener].entry.transport, a.from)
  }

  /** A turn as far as the peer's name. */
  lemma ReceivesPeer(s: Sock, sid: nat, wi: nat, a: Arrival, msg: Bytes, sae: AC.Acl, now: nat, k: Kern)
    requires Awaits(s, wi, a) && Announces(Some(msg))
    ensures var me := s.workers[wi];
            var peer := Named(a, s.hs[me.listener].entry.transport, msg);
            Steps(s, sid, wi, WorkOracle(Some(a), Some(msg)), sae, now, k, 3) ==
            (With(s, wi, me.(pc := Checking(peer))), k.Open(a.fd, Work(sid, wi)))
  {
    PeerBytes(a, Some(msg));
    var peer := Named(a, s.hs[s.workers[wi].listener].entry.transport, msg);
    hide Announces;
    hide Named;
    hide Kern.Open;
    hide PeerUNIX;
    hide PeerIPv4;
    var o := WorkOracle(Some(a), Some(msg));
    var me := s.workers[wi];
    WithTwice(s, wi, me, me.(pc := Accepting));
    assert Steps(s, sid, wi, o, sae, now, k, 0) == (s, k);
    assert Steps(s, sid, wi, o, sae, now, k, 1) == (With(s, wi, me.(pc := Accepting)), k);
    WithTwice(s, wi, me.(pc := Accepting), me.(pc := Receiving(a)));
    assert Steps(s, sid, wi, o, sae, now, k, 2) == (With(s, wi, me.(pc := Receiving(a))), k.Open(a.fd, Work(sid, wi)));
    WithTwice(s, wi, me.(pc := Receiving(a)), me.(pc := Checking(peer)));
  }

  /** A connection over which an address is announced is queued, as a peer of that
      address, if the policy admits it; otherwise it is closed, and the goroutine is
      back where it was. */
  lemma WorkerDelivers(s: Sock, sid: nat, wi: nat, a: Arrival, msg: Bytes, sae: AC.Acl, now: nat, k: Kern)
    requires Awaits(s, wi, a) && Announces(Some(msg)) && |s.queue| < 65535
    ensures var me, o := s.workers[wi], WorkOracle(Some(a), Some(msg));
            var peer := Named(a, s.hs[me.listener].entry.transport, msg);
            var verdict := Verdict(a.conn, msg[4..8], now, Admits(sae, msg));
            if Admits(sae, msg) then
              var (s', k') := Steps(s, sid, wi, o, sae, now, k, 6);
              && s'.queue == s.queue + [|s.hs|]
              && s'.hs == s.hs + [peer.(checkedAt := now)]
              && s'.hostSockets == s.hostSockets[a.fd := |s.hs|]
              && wi < |s'.workers| && s'.workers[wi] == me.(verdicts := me.verdicts + [verdict])
              && Holds(k', a.fd, if s.cancelled then Loose else Host(sid))
            else
              var (s', k') := Steps(s, sid, wi, o, sae, now, k, 4);
              && s' == With(s, wi, me.(verdicts := me.verdicts + [verdict]))
              && a.fd !in k'.open
  {
    ReceivesPeer(s, sid, wi, a, msg, sae, now, k);
    var me, o := s.workers[wi], WorkOracle(Some(a), Some(msg));
    var peer := Named(a, s.hs[me.listener].entry.transport, msg);
    var k1 := k.Open(a.fd, Work(sid, wi));
    ChecksPeer(With(s, wi, me.(pc := Checking(peer))), sid, wi, o, sae, now, k1);
    var me4 := me.(verdicts := me.verdicts + [Verdict(a.conn, msg[4..8], now, true)], pc := Storing(peer.(checkedAt := now)));
    WithTwice(s, wi, me.(pc := Checking(peer)), me4);
    WithTwice(s, wi, me.(pc := Checking(peer)), me.(verdicts := me.verdicts + [Verdict(a.conn, msg[4..8], now, false)]));
    hide AC.Acl.Apply;
    hide WorkStep;
    if Admits(sae, msg) {
      assert Steps(s, sid, wi, o, sae, now, k, 4) == (With(s, wi, me4), k1);
      StoredAndSent(s, sid, wi, me4, peer.(checkedAt := now), o, sae, now, k1);
      var (s5, k5) := WorkStep(With(s, wi, me4), sid, wi, o, sae, now, k1);
      assert Steps(s, sid, wi, o, sae, now, k, 5) == (s5, k5);
    }
  }

  lemma ChecksPeer(s: Sock, sid: nat, wi: nat, o: WorkOracle, sae: AC.Acl, now: nat, k: Kern)
    requires wi < |s.workers| && s.workers[wi].listener < |s.hs| && s.workers[wi].pc.Checking?
    ensures var me := s.workers[wi];
            var h, ok := me.pc.peer, sae.Apply(me.pc.peer.entry.vip);
            WorkStep(s, sid, wi, o, sae, now, k) ==
            (With(s, wi, me.(verdicts := me.verdicts + [Verdict(h.conn, h.entry.vip, now, ok)],
                             pc := if ok then Storing(h.(checkedAt := now)) else Poll)),
             if ok then k else k.Close(h.sockfd, Work(sid, wi)))
  {
    hide AC.Acl.Apply;
  }

  lemma StoredAndSent(s: Sock, sid: nat, wi: nat, me: Worker, h: HostSocket, o: WorkOracle, sae: AC.Acl, now: nat, k: Kern)
    requires wi < |s.workers| && me.listener < |s.hs| && me.pc == Storing(h) && h.sockfd in k.open && |s.queue| < 65535
    ensures var (s5, k5) := WorkStep(With(s, wi, me), sid, wi, o, sae, now, k);
            wi < |s5.workers| && s5.workers[wi].listener < |s5.hs| &&
            var (s6, k6) := WorkStep(s5, sid, wi, o, sae, now, k5);
            && wi < |s6.workers|
            && s6.queue == s.queue + [|s.hs|] && s6.hs == s.hs + [h]
            && s6.hostSockets == s.hostSockets[h.sockfd := |s.hs|]
            && s6.workers[wi] == me.(pc := Poll)
            && Holds(k6, h.sockfd, if s.cancelled then Loose else Host(sid))
  {
  }

  /** When a goroutine ends: on finding its listener cancelled, or on an error of accept or of
      the handshake, which leaves the listener in error and cancelled. */
  lemma EndsExactly(s: Sock, sid: nat, wi: nat, o: WorkOracle, sae: AC.Acl, now: nat, k: Kern)
    requires wi < |s.workers| && s.workers[wi].listener < |s.hs| && !s.workers[wi].pc.Done?
    ensures var s', me := WorkStep(s, sid, wi, o, sae, now, k).0, s.workers[wi];
            var l := s.hs[me.listener];
            && (IsAt(s', wi, Done) <==>
                || (me.pc.Poll? && l.cancelled)
                || (me.pc.Accepting? && (o.arrival.None? || !FromOk(l.entry.transport, o.arrival.value.from)))
                || (me.pc.Receiving? && !(FromOk(l.entry.transport, me.pc.arrival.from) && Announces(o.msg))))
            && (IsAt(s', wi, Done) ==>
                  s' == With(s, wi, me.(pc := Done)).(
                          hs := if me.pc.Poll? then s.hs else s.hs[me.listener := l.(state := HostSocketError, cancelled := true)]))
  {
    hide AC.Acl.Apply;
    match s.workers[wi].pc {
      case Receiving(a) => PeerBytes(a, o.msg);
      case _ =>
    }
    hide Announces;
    hide PeerUNIX;
    hide PeerIPv4;
  }

  // ----------------------------------------------------------------------- accept

  /** The head of the queue has been handed out as `newfd`: a new socket, bypassed under the
      listener's name, that answers for the peer and has inherited no options. */
  ghost predicate Delivered(w: World, out: Outcome, pid: int, sid: nat, newfd: nat)
    requires sid < |w.socks| && w.socks[sid].queue != []
  {
    var s, n := w.socks[sid], |w.socks|;
    && s.queue[0] < |s.hs|
    && out.end == Replied && out.reply == Reply(false, 0, newfd)
    && |out.w.socks| == n + 1
    && out.w.Registered(pid, newfd) == Some(n)
    && out.w.log == w.log + [Injected(sid, s.hs[s.queue[0]], n, w.now)]
    && out.w.socks[sid].queue == s.queue[1..]
    && out.w.socks[sid].hostSockets == s.hostSockets - {s.hs[s.queue[0]].sockfd}
    && out.w.socks[n].state == Bypassed && out.w.socks[n].local == s.local
    && Some(out.w.socks[n].remote) == PeerAddress(s, s.hs[s.queue[0]])
    && out.w.socks[n].socketOptions == [] && out.w.socks[n].fcntlOptions == []
    && s.hs[s.queue[0]].sockfd !in out.w.k.open
  }

  lemma InjectCloses(w: World, pid: int, sid: nat, h: HostSocket, newfd: nat, o: LoopOracle)
    requires sid < |w.socks| && !Inject(w, pid, sid, h, newfd, o).stuck
    ensures h.sockfd !in Inject(w, pid, sid, h, newfd, o).w.k.open
  {
    hide Register;
    hide WriteMem;
    hide Adopt;
    hide PeerAddress;
  }

  /** Accept on a listening socket hands out the head of the queue, and only it, if the
      descriptor can be injected and registered: the new socket is bypassed under the
      listener's name, answers for the peer, and inherits none of the listener's options. */
  lemma AcceptDelivers(w: World, pid: int, sid: nat, o: LoopOracle)
    requires Inv(w) && sid < |w.socks| && w.socks[sid].state == Listening && w.socks[sid].queue != []
    requires o.addfd.Some? && w.Registered(pid, o.addfd.value).None?
    requires Register(w.SetSock(sid, Dequeue(w.socks[sid]), w.k), pid, o.addfd.value, o.acc).1.Some?
    ensures Delivered(w, DoAccept(w, pid, sid, o), pid, sid, o.addfd.value)
  {
    hide Inv;
    hide Sound;
    hide SockOk;
    hide PeerOf;
    hide PeerAddress;
    hide Valid;
    hide Register;
    hide Inject;
    hide Effect;
    DequeueSound(w, sid);
    SockFacts(w, sid);
    InheritsNothing(w, pid, sid, o);
    var s := w.socks[sid];
    var h := s.hs[s.queue[0]];
    var w1 := w.SetSock(sid, Dequeue(s), w.k);
    SoundImplies(w, w1);
    PeerAddressValid(w1.socks[sid], h);
    PeerKept(s, h);
    InjectRuns(w1, pid, sid, h, o.addfd.value, o);
    InjectFacts(w1, pid, sid, h, o.addfd.value, o);
    InjectCloses(w1, pid, sid, h, o.addfd.value, o);
  }

  lemma InheritsNothing(w: World, pid: int, sid: nat, o: LoopOracle)
    requires sid < |w.socks|
    ensures var socks := DoAccept(w, pid, sid, o).w.socks;
            forall i | |w.socks| <= i < |socks| :: socks[i].socketOptions == [] && socks[i].fcntlOptions == []
  {
    DoAcceptEffect(w, pid, sid, o, Accept);
    hide DoAccept;
    hide Steady;
  }

  lemma PeerKept(s: Sock, h: HostSocket)
    requires s.queue != []
    ensures PeerAddress(Dequeue(s), h) == PeerAddress(s, h)
  {
  }
}
