/** What every call and every goroutine step keeps of one virtual socket, under any
    behaviour of the kernel. */
module SocketInvariant {
  import opened Net
  import opened Sockaddrs
  import opened Kernel
  import opened Socket
  import opened Connect
  import AC = AccessControl
  import D = Destination

  // ------------------------------------------------------------------- invariant

  /** The table of host sockets is keyed by their own descriptors. */
  ghost predicate TableOk(s: Sock) {
    forall fd | fd in s.hostSockets :: s.hostSockets[fd] < |s.hs| && s.hs[s.hostSockets[fd]].sockfd == fd
  }

  /** A peer let in by accept(2): it announced an IPv4 address. */
  predicate IsPeer(h: HostSocket) {
    h.state == HostSocketAccepted && |h.entry.vip| == 4
  }

  ghost predicate Accepted(s: Sock, hid: nat) {
    hid < |s.hs| && IsPeer(s.hs[hid])
  }

  function Hids(es: seq<Enqueue>): (r: seq<nat>)
    ensures |r| == |es| && forall i | 0 <= i < |es| :: r[i] == es[i].hid
  {
    if es == [] then [] else Hids(es[..|es| - 1]) + [es[|es| - 1].hid]
  }

  /** Nothing is lost, reordered or handed out twice: what was taken from the queue,
      followed by what waits in it, is what was sent to it. */
  ghost predicate QueueOk(s: Sock) {
    && |s.queue| <= QUEUE_CAPACITY
    && s.dequeued + s.queue == Hids(s.enqueued)
    && (forall i | 0 <= i < |s.enqueued| ::
          Accepted(s, s.enqueued[i].hid) && s.enqueued[i].wi < |s.workers| && s.enqueued[i].conn == s.hs[s.enqueued[i].hid].conn)
    && (forall i, j | 0 <= i < j < |s.enqueued| :: s.enqueued[i].hid != s.enqueued[j].hid)
  }

  ghost predicate WorkerOk(s: Sock, wi: nat)
    requires wi < |s.workers|
  {
    var me := s.workers[wi];
    && me.listener < |s.hs|
    && (s.hs[me.listener].state == HostSocketListening || s.hs[me.listener].state == HostSocketError)
    && match me.pc
       case Checking(h) => IsPeer(h)
       case Storing(h) => IsPeer(h)
       case Sending(hid) =>
         && Accepted(s, hid)
         && (forall i | 0 <= i < |s.enqueued| :: s.enqueued[i].hid != hid)
         && (forall wj | 0 <= wj < |s.workers| && wj != wi :: s.workers[wj].pc != Sending(hid))
       case _ => true
  }

  /** The connections a goroutine's policy checks admitted, in order. */
  function AdmittedConns(vs: seq<Verdict>): seq<Link> {
    if vs == [] then []
    else AdmittedConns(vs[..|vs| - 1]) + if vs[|vs| - 1].allowed then [vs[|vs| - 1].conn] else []
  }

  /** The connections one goroutine has sent on the queue, in order. */
  function SentBy(es: seq<Enqueue>, wi: nat): seq<Link> {
    if es == [] then []
    else SentBy(es[..|es| - 1], wi) + if es[|es| - 1].wi == wi then [es[|es| - 1].conn] else []
  }

  /** The admitted connection a goroutine has still to send. */
  function Pending(s: Sock, wi: nat): seq<Link>
    requires wi < |s.workers|
  {
    match s.workers[wi].pc
    case Storing(h) => [h.conn]
    case Sending(hid) => if hid < |s.hs| then [s.hs[hid].conn] else []
    case _ => []
  }

  ghost predicate VerdictsOk(s: Sock, wi: nat)
    requires wi < |s.workers|
  {
    AdmittedConns(s.workers[wi].verdicts) == SentBy(s.enqueued, wi) + Pending(s, wi)
  }

  ghost predicate HasHost(s: Sock) {
    exists fd :: fd in s.hostSockets
  }

  /** What the state of the socket says about everything else. */
  ghost predicate StateOk(s: Sock, featureRDMA: bool) {
    match s.state
    case NotBypassed =>
      s.hs == [] && s.hostSockets == map[] && s.workers == [] && s.enqueued == []
    case Binded =>
      && s.workers == [] && s.enqueued == []
      && (forall hid | 0 <= hid < |s.hs| :: s.hs[hid].state == HostSocketBinded && s.hs[hid].entry.vport == s.local.port)
      && (featureRDMA || HasHost(s))
    case Listening =>
      forall fd | fd in s.hostSockets && s.hostSockets[fd] < |s.hs| :: s.hs[s.hostSockets[fd]].state != HostSocketBinded
    case _ => true
  }

  ghost predicate SockOk(s: Sock, featureRDMA: bool) {
    && Valid(s.local) && Valid(s.remote)
    && TableOk(s)
    && QueueOk(s)
    && (forall wi | 0 <= wi < |s.workers| :: WorkerOk(s, wi) && VerdictsOk(s, wi))
    && StateOk(s, featureRDMA)
  }

  lemma NewSockOk(state: SocketState, pid: int, sockfd: int, sockDomain: int, sockType: int, sockProto: int, featureRDMA: bool)
    requires state == NotBypassed || state == NotBypassable
    ensures SockOk(NewSock(state, pid, sockfd, sockDomain, sockType, sockProto), featureRDMA)
  {
    assert ZERO_SOCKADDR.ip[..12] == MAPPED_PREFIX;
  }

  // ------------------------------------------------------------------------ bind

  ghost predicate Binding1(s: Sock, b: Binding, featureRDMA: bool) {
    && b.s == s.(hs := b.s.hs, hostSockets := b.s.hostSockets)
    && TableOk(b.s)
    && (forall hid | 0 <= hid < |b.s.hs| :: b.s.hs[hid].state == HostSocketBinded && b.s.hs[hid].entry.vport == s.local.port)
    && (b.rdma ==> featureRDMA)
    && (b.ok && !b.rdma ==> HasHost(b.s))
  }

  lemma BindOneKeeps(s: Sock, b: Binding, sid: nat, e: D.Entry, o: Try, featureRDMA: bool)
    requires Binding1(s, b, featureRDMA) && e.vport == s.local.port
    ensures Binding1(s, BindOne(b, sid, e, o, featureRDMA), featureRDMA)
  {
    hide AfterBind;
    var b' := BindOne(b, sid, e, o, featureRDMA);
    if b.ok && !b.rdma {
      var fd :| fd in b.s.hostSockets;
      assert fd in b'.s.hostSockets;
    }
    match TransportBind(b.s, e, o) {
      case Fd(fd) => assert fd in b'.s.hostSockets;
      case _ =>
    }
    hide TransportBind;
  }

  lemma {:induction false} BindEachKeeps(s: Sock, sid: nat, entries: seq<D.Entry>, os: seq<Try>, n: nat, featureRDMA: bool, k: Kern)
    requires n <= |entries|
    requires s.hs == [] && s.hostSockets == map[]
    requires forall e | e in entries :: e.vport == s.local.port
    ensures Binding1(s, BindEach(s, sid, entries, os, n, featureRDMA, k), featureRDMA)
  {
    if n > 0 {
      BindEachKeeps(s, sid, entries, os, n - 1, featureRDMA, k);
      BindOneKeeps(s, BindEach(s, sid, entries, os, n - 1, featureRDMA, k), sid, entries[n - 1], TryAt(os, n - 1), featureRDMA);
      hide Binding1;
      hide BindOne;
    }
  }

  lemma ServerPorts(de: D.Dest, port: Port)
    requires D.Shaped(de)
    ensures forall e | e in de.GetServer(port) :: e.vport == port
  {
  }

  // ---------------------------------------------------------------------- listen

  ghost predicate Listened(s: Sock, r: Sock, n: nat)
    requires n <= |s.hs|
  {
    && r == s.(hs := r.hs, workers := r.workers) && |r.hs| == |s.hs|
    && (forall i | 0 <= i < |s.hs| :: r.hs[i] == s.hs[i].(state := r.hs[i].state))
    && (forall i | n <= i < |s.hs| :: r.hs[i] == s.hs[i])
    && (forall i | 0 <= i < n && InTable(s, i) :: r.hs[i].state != HostSocketBinded)
    && (forall wi | 0 <= wi < |r.workers| ::
          var me := r.workers[wi];
          me.listener < n && r.hs[me.listener].state == HostSocketListening && me.pc == Poll && me.verdicts == [])
  }

  /** One turn of the loop, by cases. */
  lemma ListenOneIs(s: Sock, hid: nat, listens: set<int>)
    requires hid < |s.hs|
    ensures var r := ListenOne(s, hid, listens);
            && |r.hs| == |s.hs| && r == s.(hs := r.hs, workers := r.workers)
            && (forall i | 0 <= i < |s.hs| && i != hid :: r.hs[i] == s.hs[i])
            && r.hs[hid] == s.hs[hid].(state := r.hs[hid].state)
            && (InTable(s, hid) ==> r.hs[hid].state != HostSocketBinded)
            && (s.hs[hid].state != HostSocketBinded ==> r == s)
            && (r.workers == s.workers ||
                (r.workers == s.workers + [Worker(hid, Poll, [])] && r.hs[hid].state == HostSocketListening))
  {
    hide InTable;
  }

  lemma ListenOneKeeps(s: Sock, r: Sock, n: nat, listens: set<int>)
    requires 0 < n <= |s.hs| && Listened(s, r, n - 1)
    ensures Listened(s, ListenOne(r, n - 1, listens), n)
  {
    ListenOneIs(r, n - 1, listens);
    assert forall hid :: InTable(r, hid) == InTable(s, hid);
    hide ListenOne;
    hide InTable;
  }

  lemma {:induction false} ListenEachKeeps(s: Sock, n: nat, listens: set<int>)
    requires n <= |s.hs| && s.workers == []
    ensures Listened(s, ListenEach(s, n, listens), n)
  {
    if n > 0 {
      ListenEachKeeps(s, n - 1, listens);
      ListenOneKeeps(s, ListenEach(s, n - 1, listens), n, listens);
      hide Listened;
    }
  }

  // ----------------------------------------------------------- the other handlers

  /** The host sockets differ at most in whether they are cancelled. */
  ghost predicate SameHosts(s: Sock, s': Sock) {
    && s'.hostSockets == s.hostSockets && |s'.hs| == |s.hs|
    && forall i | 0 <= i < |s.hs| :: s'.hs[i] == s.hs[i].(cancelled := s'.hs[i].cancelled)
  }

  lemma SameQueueOk(s: Sock, s': Sock)
    requires SameHosts(s, s') && QueueOk(s)
    requires s'.enqueued == s.enqueued && s'.dequeued == s.dequeued && s'.queue == s.queue && |s'.workers| == |s.workers|
    ensures QueueOk(s')
  {
    forall i | 0 <= i < |s.enqueued|
      ensures Accepted(s', s.enqueued[i].hid)
    {
      assert Accepted(s, s.enqueued[i].hid);
    }
  }

  lemma SameWorkerOk(s: Sock, s': Sock, wi: nat)
    requires SameHosts(s, s') && s'.workers == s.workers && s'.enqueued == s.enqueued
    requires wi < |s.workers| && WorkerOk(s, wi) && VerdictsOk(s, wi)
    ensures WorkerOk(s', wi) && VerdictsOk(s', wi)
  {
  }

  /** Whatever touches only state, names, options and cancellation keeps the rest. */
  lemma SameKeeps(s: Sock, s': Sock, featureRDMA: bool)
    requires SockOk(s, featureRDMA) && SameHosts(s, s')
    requires s'.workers == s.workers && s'.enqueued == s.enqueued && s'.dequeued == s.dequeued && s'.queue == s.queue
    requires s'.local == s.local && Valid(s'.remote)
    requires s'.state == s.state || !(s'.state.NotBypassed? || s'.state.Binded? || s'.state.Listening?)
    ensures SockOk(s', featureRDMA)
  {
    SameQueueOk(s, s');
    forall wi | 0 <= wi < |s'.workers|
      ensures WorkerOk(s', wi) && VerdictsOk(s', wi)
    {
      SameWorkerOk(s, s', wi);
    }
    hide QueueOk;
    hide WorkerOk;
    hide VerdictsOk;
  }

  lemma NamesKeep(s: Sock, s': Sock, featureRDMA: bool)
    requires SockOk(s, featureRDMA)
    requires s' == s.(state := s'.state, remote := s'.remote, socketOptions := s'.socketOptions, fcntlOptions := s'.fcntlOptions)
    requires Valid(s'.remote)
    requires s'.state == s.state || !(s'.state.NotBypassed? || s'.state.Binded? || s'.state.Listening?)
    ensures SockOk(s', featureRDMA)
  {
    hide SockOk;
    hide Valid;
    SameKeeps(s, s', featureRDMA);
  }

  lemma Facts(s: Sock, featureRDMA: bool)
    requires SockOk(s, featureRDMA)
    ensures Valid(s.local) && Valid(s.remote)
  {
  }

  lemma ListenedIsOk(s: Sock, r: Sock, state: SocketState, featureRDMA: bool)
    requires SockOk(s, featureRDMA) && s.state == Binded
    requires Listened(s, r, |s.hs|)
    requires state == Listening || state == Error
    ensures SockOk(r.(state := state), featureRDMA)
  {
    var s1 := r.(state := state);
    forall fd | fd in s1.hostSockets
      ensures s1.hs[s1.hostSockets[fd]].state != HostSocketBinded
    {
      assert InTable(s, s1.hostSockets[fd]);
    }
    forall wi | 0 <= wi < |s1.workers|
      ensures WorkerOk(s1, wi) && VerdictsOk(s1, wi)
    {
    }
  }

  lemma ListenKeeps(s: Sock, listens: set<int>, featureRDMA: bool, k: Kern)
    requires SockOk(s, featureRDMA)
    ensures SockOk(HandleListen(s, listens, featureRDMA, k).s, featureRDMA)
  {
    var h := HandleListen(s, listens, featureRDMA, k);
    if s.state == Binded {
      assert s.workers == [];
      hide SockOk;
      ListenEachKeeps(s, |s.hs|, listens);
      ListenedIsOk(s, ListenEach(s, |s.hs|, listens), h.s.state, featureRDMA);
      hide Listened;
    } else {
      Facts(s, featureRDMA);
      hide SockOk;
      NamesKeep(s, h.s, featureRDMA);
    }
  }

  lemma BoundIsOk(s: Sock, s1: Sock, b: Binding, state: SocketState, featureRDMA: bool)
    requires SockOk(s, featureRDMA) && s.state == NotBypassed
    requires s1 == s.(local := s1.local) && Valid(s1.local)
    requires Binding1(s1, b, featureRDMA)
    requires state == Error || (state == Binded && b.ok)
    ensures SockOk(b.s.(state := state), featureRDMA)
  {
  }

  lemma NamedIsOk(s: Sock, s1: Sock, featureRDMA: bool)
    requires SockOk(s, featureRDMA) && s.state == NotBypassed
    requires s1 == s.(local := s1.local) && Valid(s1.local)
    ensures SockOk(s1, featureRDMA)
    ensures s.hs == [] && s.hostSockets == map[]
  {
  }

  lemma BindKeeps(s: Sock, sid: nat, buf: Option<Bytes>, de: D.Dest, os: seq<Try>, featureRDMA: bool, k: Kern)
    requires SockOk(s, featureRDMA) && D.Shaped(de)
    ensures SockOk(HandleBind(s, sid, buf, de, os, featureRDMA, k).s, featureRDMA)
  {
    hide D.Shaped;
    hide SockOk;
    hide Parse;
    hide Valid;
    hide Binding1;
    var h := HandleBind(s, sid, buf, de, os, featureRDMA, k);
    if s.state == NotBypassed {
      Facts(s, featureRDMA);
      if buf.None? || Parse(buf.value).None? {
        NamesKeep(s, h.s, featureRDMA);
      } else {
        var s1 := s.(local := Parse(buf.value).value);
        NamedIsOk(s, s1, featureRDMA);
        var entries := de.GetServer(s1.local.port);
        ServerPorts(de, s1.local.port);
        hide D.Dest.GetServer;
        if entries != [] {
          BindEachKeeps(s1, sid, entries, os, |entries|, featureRDMA, k);
          var b := BindEach(s1, sid, entries, os, |entries|, featureRDMA, k);
          BoundIsOk(s, s1, b, h.s.state, featureRDMA);
        }
      }
    }
  }

  /** Connect touches the state and the remote name only. */
  lemma ConnectTouches(s: Sock, buf: Option<Bytes>, cae: AC.Acl, de: D.Dest, draws: seq<Draw>, featureRDMA: bool,
                       sendOk: bool, addFdOk: bool, k: Kern)
    ensures var c := HandleConnect(s, buf, cae, de, draws, featureRDMA, sendOk, addFdOk, k);
            && c.s == s.(state := c.s.state, remote := c.s.remote)
            && (c.s.remote == s.remote || Valid(c.s.remote))
            && (c.s.state == s.state || !(c.s.state.NotBypassed? || c.s.state.Binded? || c.s.state.Listening?))
  {
    hide Select;
    hide AC.Acl.Apply;
    hide D.Dest.GetClient;
    hide Handshake;
    hide Parse;
    hide Valid;
  }

  lemma ConnectKeeps(s: Sock, buf: Option<Bytes>, cae: AC.Acl, de: D.Dest, draws: seq<Draw>, featureRDMA: bool,
                     sendOk: bool, addFdOk: bool, k: Kern)
    requires SockOk(s, featureRDMA)
    ensures SockOk(HandleConnect(s, buf, cae, de, draws, featureRDMA, sendOk, addFdOk, k).s, featureRDMA)
  {
    Facts(s, featureRDMA);
    hide SockOk;
    hide Valid;
    hide HandleConnect;
    ConnectTouches(s, buf, cae, de, draws, featureRDMA, sendOk, addFdOk, k);
    NamesKeep(s, HandleConnect(s, buf, cae, de, draws, featureRDMA, sendOk, addFdOk, k).s, featureRDMA);
  }

  lemma OptionsKeep(s: Sock, opt: Option<SockOpt>, cmd: nat, value: nat, callOk: bool, dup: Option<int>, featureRDMA: bool, k: Kern)
    requires SockOk(s, featureRDMA)
    ensures SockOk(HandleSetsockopt(s, opt, callOk, k).s, featureRDMA)
    ensures SockOk(HandleFcntl(s, cmd, value, callOk, dup, k).s, featureRDMA)
  {
    Facts(s, featureRDMA);
    hide SockOk;
    hide Valid;
    NamesKeep(s, HandleSetsockopt(s, opt, callOk, k).s, featureRDMA);
    NamesKeep(s, HandleFcntl(s, cmd, value, callOk, dup, k).s, featureRDMA);
  }

  lemma RemoveKeeps(s: Sock, featureRDMA: bool)
    requires SockOk(s, featureRDMA)
    ensures SockOk(Removed(s), featureRDMA)
  {
    SameKeeps(s, Removed(s), featureRDMA);
  }

  // ---------------------------------------------------------- goroutine steps

  /** A socket with goroutines has been listened on. */
  lemma HasBeenListening(s: Sock, wi: nat, featureRDMA: bool)
    requires SockOk(s, featureRDMA) && wi < |s.workers|
    ensures s.state != NotBypassed && s.state != Binded
    ensures WorkerOk(s, wi) && VerdictsOk(s, wi)
  {
  }

  /** What a goroutine relies on survives if accepted sockets stay accepted, its
      listener stays a listener, and nobody else sends what it is sending. */
  lemma OtherWorker(s: Sock, s': Sock, wj: nat)
    requires wj < |s.workers| && WorkerOk(s, wj) && VerdictsOk(s, wj)
    requires |s'.workers| == |s.workers| && s'.workers[wj] == s.workers[wj]
    requires |s.hs| <= |s'.hs| && forall i | 0 <= i < |s.hs| :: s'.hs[i] == s.hs[i] || KeepsListener(s.hs[i], s'.hs[i])
    requires s'.workers[wj].pc.Sending? ==>
               forall wk | 0 <= wk < |s'.workers| && wk != wj :: s'.workers[wk].pc != s'.workers[wj].pc
    requires s'.workers[wj].pc.Sending? ==>
               forall i | 0 <= i < |s'.enqueued| :: s'.enqueued[i].hid != s'.workers[wj].pc.hid
    requires SentBy(s'.enqueued, wj) == SentBy(s.enqueued, wj)
    ensures WorkerOk(s', wj) && VerdictsOk(s', wj)
  {
    hide SentBy;
    hide AdmittedConns;
  }

  ghost predicate KeepsListener(h: HostSocket, h': HostSocket) {
    h.state != HostSocketAccepted && h'.state == HostSocketError && h'.conn == h.conn && h'.sockfd == h.sockfd
  }

  /** One goroutine moves on, to anything but a send. */
  lemma WorkerMoves(s: Sock, wi: nat, me: Worker, featureRDMA: bool)
    requires SockOk(s, featureRDMA) && wi < |s.workers|
    requires me.listener == s.workers[wi].listener && !me.pc.Sending?
    requires me.pc.Checking? || me.pc.Storing? ==> IsPeer(me.pc.peer)
    requires AdmittedConns(me.verdicts) == SentBy(s.enqueued, wi) + if me.pc.Storing? then [me.pc.peer.conn] else []
    ensures SockOk(s.(workers := s.workers[wi := me]), featureRDMA)
  {
    Parts(s, featureRDMA);
    var s' := s.(workers := s.workers[wi := me]);
    MovedQueueOk(s, s');
    hide QueueOk;
    hide WorkerOk;
    hide VerdictsOk;
    forall wj | 0 <= wj < |s'.workers|
      ensures WorkerOk(s', wj) && VerdictsOk(s', wj)
    {
      MovedWorker(s, wi, me, wj);
    }
    Reassembled(s, s', wi, featureRDMA);
  }

  lemma MovedWorker(s: Sock, wi: nat, me: Worker, wj: nat)
    requires wi < |s.workers| && wj < |s.workers| && WorkerOk(s, wi) && WorkerOk(s, wj) && VerdictsOk(s, wj)
    requires me.listener == s.workers[wi].listener && !me.pc.Sending?
    requires me.pc.Checking? || me.pc.Storing? ==> IsPeer(me.pc.peer)
    requires AdmittedConns(me.verdicts) == SentBy(s.enqueued, wi) + if me.pc.Storing? then [me.pc.peer.conn] else []
    ensures var s' := s.(workers := s.workers[wi := me]);
            WorkerOk(s', wj) && VerdictsOk(s', wj)
  {
    hide SentBy;
    hide AdmittedConns;
    var s' := s.(workers := s.workers[wi := me]);
    if wj != wi {
      OtherWorker(s, s', wj);
    }
  }

  lemma MovedQueueOk(s: Sock, s': Sock)
    requires QueueOk(s)
    requires s'.enqueued == s.enqueued && s'.dequeued == s.dequeued && s'.queue == s.queue && |s'.workers| >= |s.workers|
    requires |s.hs| <= |s'.hs| && forall i | 0 <= i < |s.hs| :: s'.hs[i] == s.hs[i] || KeepsListener(s.hs[i], s'.hs[i])
    ensures QueueOk(s')
  {
    hide Hids;
    forall i | 0 <= i < |s.enqueued|
      ensures Accepted(s', s.enqueued[i].hid) && s'.hs[s.enqueued[i].hid] == s.hs[s.enqueued[i].hid]
    {
      assert Accepted(s, s.enqueued[i].hid);
    }
  }

  lemma FailWorker(s: Sock, wi: nat, wj: nat)
    requires wi < |s.workers| && wj < |s.workers| && WorkerOk(s, wi) && WorkerOk(s, wj) && VerdictsOk(s, wj)
    requires !s.workers[wi].pc.Storing? && !s.workers[wi].pc.Sending?
    ensures WorkerOk(WorkerFails(s, wi), wj) && VerdictsOk(WorkerFails(s, wi), wj)
  {
    hide SentBy;
    hide AdmittedConns;
    var s' := WorkerFails(s, wi);
    if wj != wi {
      OtherWorker(s, s', wj);
    } else {
      assert s'.workers[wi].pc == Done;
    }
  }

  /** The loop ends on an error of the listener: nothing accepted is touched. */
  lemma FailKeeps(s: Sock, wi: nat, featureRDMA: bool)
    requires SockOk(s, featureRDMA) && wi < |s.workers| && s.workers[wi].listener < |s.hs|
    requires !s.workers[wi].pc.Storing? && !s.workers[wi].pc.Sending?
    ensures SockOk(WorkerFails(s, wi), featureRDMA)
  {
    HasBeenListening(s, wi, featureRDMA);
    var s' := WorkerFails(s, wi);
    assert KeepsListener(s.hs[s.workers[wi].listener], s'.hs[s.workers[wi].listener]);
    MovedQueueOk(s, s');
    hide QueueOk;
    hide WorkerOk;
    hide VerdictsOk;
    forall wj | 0 <= wj < |s'.workers|
      ensures WorkerOk(s', wj) && VerdictsOk(s', wj)
    {
      FailWorker(s, wi, wj);
    }
  }

  function Stored(s: Sock, wi: nat, h: HostSocket): Sock
    requires wi < |s.workers|
  {
    SetPc(AddHostSocket(s, h), wi, Sending(|s.hs|))
  }

  lemma StoreWorker(s: Sock, wi: nat, h: HostSocket, wj: nat)
    requires wi < |s.workers| && wj < |s.workers| && WorkerOk(s, wi) && VerdictsOk(s, wi) && WorkerOk(s, wj) && VerdictsOk(s, wj)
    requires s.workers[wi].pc == Storing(h)
    requires forall i | 0 <= i < |s.enqueued| :: s.enqueued[i].hid < |s.hs|
    requires forall wk | 0 <= wk < |s.workers| :: s.workers[wk].pc != Sending(|s.hs|)
    ensures WorkerOk(Stored(s, wi, h), wj) && VerdictsOk(Stored(s, wi, h), wj)
  {
    hide SentBy;
    hide AdmittedConns;
    var s' := Stored(s, wi, h);
    if wj != wi {
      OtherWorker(s, s', wj);
    } else {
      assert s'.workers[wi].pc == Sending(|s.hs|);
    }
  }

  lemma StoredTable(s: Sock, wi: nat, h: HostSocket, featureRDMA: bool)
    requires TableOk(s) && StateOk(s, featureRDMA) && wi < |s.workers| && IsPeer(h)
    ensures TableOk(Stored(s, wi, h)) && StateOk(Stored(s, wi, h), featureRDMA)
  {
  }

  /** An admitted peer is stored in the table, by the goroutine about to send it. */
  lemma StoreKeeps(s: Sock, wi: nat, h: HostSocket, featureRDMA: bool)
    requires SockOk(s, featureRDMA) && wi < |s.workers| && s.workers[wi].pc == Storing(h)
    ensures SockOk(Stored(s, wi, h), featureRDMA)
  {
    Parts(s, featureRDMA);
    assert WorkerOk(s, wi);
    BelowCount(s);
    StoredTable(s, wi, h, featureRDMA);
    var s' := Stored(s, wi, h);
    MovedQueueOk(s, s');
    hide QueueOk;
    hide WorkerOk;
    hide VerdictsOk;
    hide TableOk;
    hide StateOk;
    forall wj | 0 <= wj < |s'.workers|
      ensures WorkerOk(s', wj) && VerdictsOk(s', wj)
    {
      StoreWorker(s, wi, h, wj);
    }
  }

  /** No host socket that has been sent or is being sent is yet to be made. */
  lemma BelowCount(s: Sock)
    requires QueueOk(s) && forall wi | 0 <= wi < |s.workers| :: WorkerOk(s, wi)
    ensures forall i | 0 <= i < |s.enqueued| :: s.enqueued[i].hid < |s.hs|
    ensures forall wi | 0 <= wi < |s.workers| :: s.workers[wi].pc != Sending(|s.hs|)
  {
    forall wi | 0 <= wi < |s.workers|
      ensures s.workers[wi].pc != Sending(|s.hs|)
    {
      assert WorkerOk(s, wi);
    }
    forall i | 0 <= i < |s.enqueued|
      ensures s.enqueued[i].hid < |s.hs|
    {
      assert Accepted(s, s.enqueued[i].hid);
    }
  }

  function Sent(s: Sock, wi: nat, hid: nat): Sock
    requires wi < |s.workers| && hid < |s.hs|
  {
    SetPc(s.(queue := s.queue + [hid], enqueued := s.enqueued + [Enqueue(wi, hid, s.hs[hid].conn)]), wi, Poll)
  }

  lemma SendWorker(s: Sock, wi: nat, hid: nat, wj: nat)
    requires wi < |s.workers| && wj < |s.workers| && WorkerOk(s, wi) && WorkerOk(s, wj) && VerdictsOk(s, wj)
    requires s.workers[wi].pc == Sending(hid)
    ensures WorkerOk(Sent(s, wi, hid), wj) && VerdictsOk(Sent(s, wi, hid), wj)
  {
    hide SentBy;
    hide AdmittedConns;
    var s' := Sent(s, wi, hid);
    SentByAppend(s.enqueued, Enqueue(wi, hid, s.hs[hid].conn), wj);
    if wj != wi {
      OtherWorker(s, s', wj);
    } else {
      assert s'.workers[wi].pc == Poll;
    }
  }

  /** With the host sockets untouched only the queue and the goroutines matter. */
  lemma Reassembled(s: Sock, s': Sock, wi: nat, featureRDMA: bool)
    requires SockOk(s, featureRDMA) && wi < |s.workers|
    requires s'.hs == s.hs && s'.hostSockets == s.hostSockets && s'.state == s.state
    requires s'.local == s.local && s'.remote == s.remote
    requires QueueOk(s') && forall wj | 0 <= wj < |s'.workers| :: WorkerOk(s', wj) && VerdictsOk(s', wj)
    ensures SockOk(s', featureRDMA)
  {
    HasBeenListening(s, wi, featureRDMA);
    hide QueueOk;
    hide WorkerOk;
    hide VerdictsOk;
  }

  lemma Parts(s: Sock, featureRDMA: bool)
    requires SockOk(s, featureRDMA)
    ensures QueueOk(s) && forall wi | 0 <= wi < |s.workers| :: WorkerOk(s, wi) && VerdictsOk(s, wi)
  {
  }

  /** The stored peer is sent on the queue. */
  lemma SendKeeps(s: Sock, wi: nat, hid: nat, featureRDMA: bool)
    requires SockOk(s, featureRDMA) && wi < |s.workers| && s.workers[wi].pc == Sending(hid)
    requires |s.queue| < QUEUE_CAPACITY
    ensures hid < |s.hs| && SockOk(Sent(s, wi, hid), featureRDMA)
  {
    Parts(s, featureRDMA);
    hide SockOk;
    hide VerdictsOk;
    assert WorkerOk(s, wi);
    var s' := Sent(s, wi, hid);
    SentQueueOk(s, s', Enqueue(wi, hid, s.hs[hid].conn));
    hide QueueOk;
    hide WorkerOk;
    forall wj | 0 <= wj < |s'.workers|
      ensures WorkerOk(s', wj) && VerdictsOk(s', wj)
    {
      SendWorker(s, wi, hid, wj);
    }
    Reassembled(s, s', wi, featureRDMA);
  }

  lemma SentByAppend(es: seq<Enqueue>, e: Enqueue, wi: nat)
    ensures SentBy(es + [e], wi) == SentBy(es, wi) + if e.wi == wi then [e.conn] else []
  {
    assert (es + [e])[..|es|] == es;
  }

  lemma SentQueueOk(s: Sock, s': Sock, e: Enqueue)
    requires QueueOk(s) && |s.queue| < QUEUE_CAPACITY
    requires Accepted(s, e.hid) && e.wi < |s.workers| && e.conn == s.hs[e.hid].conn
    requires forall i | 0 <= i < |s.enqueued| :: s.enqueued[i].hid != e.hid
    requires s'.hs == s.hs && |s'.workers| == |s.workers|
    requires s'.enqueued == s.enqueued + [e] && s'.queue == s.queue + [e.hid] && s'.dequeued == s.dequeued
    ensures QueueOk(s')
  {
    assert s'.enqueued[..|s.enqueued|] == s.enqueued;
    assert s'.dequeued + s'.queue == (s.dequeued + s.queue) + [e.hid];
    assert forall x :: Accepted(s', x) == Accepted(s, x);
  }

  lemma AcceptingKeeps(s: Sock, sid: nat, wi: nat, o: WorkOracle, sae: AC.Acl, now: nat, featureRDMA: bool, k: Kern)
    requires SockOk(s, featureRDMA) && wi < |s.workers| && s.workers[wi].listener < |s.hs|
    requires s.workers[wi].pc.Poll? || s.workers[wi].pc.Accepting?
    ensures SockOk(WorkStep(s, sid, wi, o, sae, now, k).0, featureRDMA)
  {
    HasBeenListening(s, wi, featureRDMA);
    hide SockOk;
    hide WorkerOk;
    hide AdmittedConns;
    hide SentBy;
    var me := s.workers[wi];
    FailKeeps(s, wi, featureRDMA);
    WorkerMoves(s, wi, me.(pc := Done), featureRDMA);
    WorkerMoves(s, wi, me.(pc := Accepting), featureRDMA);
    if o.arrival.Some? {
      WorkerMoves(s, wi, me.(pc := Receiving(o.arrival.value)), featureRDMA);
    }
  }

  lemma ReceivingKeeps(s: Sock, sid: nat, wi: nat, o: WorkOracle, sae: AC.Acl, now: nat, featureRDMA: bool, k: Kern)
    requires SockOk(s, featureRDMA) && wi < |s.workers| && s.workers[wi].listener < |s.hs| && s.workers[wi].pc.Receiving?
    ensures SockOk(WorkStep(s, sid, wi, o, sae, now, k).0, featureRDMA)
  {
    HasBeenListening(s, wi, featureRDMA);
    hide SockOk;
    hide WorkerOk;
    hide AdmittedConns;
    hide SentBy;
    var me := s.workers[wi];
    var t := s.hs[me.listener].entry.transport;
    FailKeeps(s, wi, featureRDMA);
    if Peer(t, me.pc.arrival, o.msg).Some? {
      PeerIsIPv4(t, me.pc.arrival, o.msg);
      WorkerMoves(s, wi, me.(pc := Checking(Peer(t, me.pc.arrival, o.msg).value)), featureRDMA);
    }
    hide Peer;
  }

  lemma CheckingKeeps(s: Sock, sid: nat, wi: nat, o: WorkOracle, sae: AC.Acl, now: nat, featureRDMA: bool, k: Kern)
    requires SockOk(s, featureRDMA) && wi < |s.workers| && s.workers[wi].listener < |s.hs| && s.workers[wi].pc.Checking?
    ensures SockOk(WorkStep(s, sid, wi, o, sae, now, k).0, featureRDMA)
  {
    HasBeenListening(s, wi, featureRDMA);
    hide AC.Acl.Apply;
    hide SockOk;
    hide WorkerOk;
    var me := s.workers[wi];
    AcceptedPeer(s, wi, me.pc.peer, featureRDMA);
    var me' := WorkStep(s, sid, wi, o, sae, now, k).0.workers[wi];
    assert me'.verdicts[..|me.verdicts|] == me.verdicts;
    WorkerMoves(s, wi, me', featureRDMA);
  }

  lemma WorkKeeps(s: Sock, sid: nat, wi: nat, o: WorkOracle, sae: AC.Acl, now: nat, featureRDMA: bool, k: Kern)
    requires SockOk(s, featureRDMA) && wi < |s.workers| && s.workers[wi].listener < |s.hs|
    ensures SockOk(WorkStep(s, sid, wi, o, sae, now, k).0, featureRDMA)
  {
    hide SockOk;
    hide Peer;
    hide AC.Acl.Apply;
    match s.workers[wi].pc
    case Receiving(a) => ReceivingKeeps(s, sid, wi, o, sae, now, featureRDMA, k);
    case Checking(h) => CheckingKeeps(s, sid, wi, o, sae, now, featureRDMA, k);
    case Storing(h) => StoreKeeps(s, wi, h, featureRDMA);
    case Sending(hid) => if |s.queue| < QUEUE_CAPACITY { SendKeeps(s, wi, hid, featureRDMA); }
    case Done =>
    case _ => AcceptingKeeps(s, sid, wi, o, sae, now, featureRDMA, k);
  }

  lemma PeerIsIPv4(t: D.Transport, a: Arrival, msg: Option<Bytes>)
    requires Peer(t, a, msg).Some?
    ensures IsPeer(Peer(t, a, msg).value)
  {
  }

  lemma AcceptedPeer(s: Sock, wi: nat, h: HostSocket, featureRDMA: bool)
    requires SockOk(s, featureRDMA) && wi < |s.workers| && s.workers[wi].pc == Checking(h)
    ensures IsPeer(h)
  {
    assert WorkerOk(s, wi);
  }

  // ---------------------------------------------------------------------- accept

  /** Everything queued is an accepted socket: the branch of accept for any other
      state is never taken. */
  lemma QueuedAreAccepted(s: Sock, featureRDMA: bool, i: nat)
    requires SockOk(s, featureRDMA) && i < |s.queue|
    ensures Accepted(s, s.queue[i])
  {
    assert s.queue[i] == (s.dequeued + s.queue)[|s.dequeued| + i];
    assert s.queue[i] == s.enqueued[|s.dequeued| + i].hid;
  }

  /** A queued socket is handed to at most one accept call. */
  lemma DequeuedOnce(s: Sock, featureRDMA: bool, i: nat, j: nat)
    requires SockOk(s, featureRDMA)
    requires i < j < |s.dequeued + s.queue|
    ensures (s.dequeued + s.queue)[i] != (s.dequeued + s.queue)[j]
  {
    assert (s.dequeued + s.queue)[i] == s.enqueued[i].hid && (s.dequeued + s.queue)[j] == s.enqueued[j].hid;
  }

  lemma DequeueKeeps(s: Sock, featureRDMA: bool)
    requires SockOk(s, featureRDMA) && s.queue != []
    ensures var s' := s.(queue := s.queue[1..], dequeued := s.dequeued + [s.queue[0]]);
            SockOk(s', featureRDMA)
  {
    var s' := s.(queue := s.queue[1..], dequeued := s.dequeued + [s.queue[0]]);
    assert s'.dequeued + s'.queue == s.dequeued + s.queue;
    assert |s.enqueued| > 0;
    assert QueueOk(s') by {
      assert forall hid :: Accepted(s', hid) == Accepted(s, hid);
    }
    hide QueueOk;
    forall wi | 0 <= wi < |s'.workers|
      ensures WorkerOk(s', wi) && VerdictsOk(s', wi)
    {
      assert WorkerOk(s, wi) && VerdictsOk(s, wi);
      OtherWorker(s, s', wi);
    }
    hide WorkerOk;
    hide VerdictsOk;
  }

  lemma ReleaseKeeps(s: Sock, fd: int, featureRDMA: bool)
    requires SockOk(s, featureRDMA) && s.state != NotBypassed && s.state != Binded
    ensures SockOk(s.(hostSockets := s.hostSockets - {fd}), featureRDMA)
  {
    var s' := s.(hostSockets := s.hostSockets - {fd});
    assert QueueOk(s') by {
      assert forall hid :: Accepted(s', hid) == Accepted(s, hid);
    }
    hide QueueOk;
    forall wi | 0 <= wi < |s'.workers|
      ensures WorkerOk(s', wi) && VerdictsOk(s', wi)
    {
      assert WorkerOk(s, wi) && VerdictsOk(s, wi);
      OtherWorker(s, s', wi);
    }
    hide WorkerOk;
    hide VerdictsOk;
  }

  lemma AdoptKeeps(s: Sock, local: Sockaddr, remote: Sockaddr, featureRDMA: bool)
    requires SockOk(s, featureRDMA) && Valid(local) && Valid(remote)
    ensures SockOk(s.(state := Bypassed, local := local, remote := remote), featureRDMA)
  {
    hide Valid;
    var s1 := s.(state := Bypassed, remote := remote);
    NamesKeep(s, s1, featureRDMA);
    var s' := s1.(local := local);
    assert QueueOk(s') by {
      assert forall hid :: Accepted(s', hid) == Accepted(s1, hid);
    }
    hide QueueOk;
    forall wi | 0 <= wi < |s'.workers|
      ensures WorkerOk(s', wi) && VerdictsOk(s', wi)
    {
      assert WorkerOk(s1, wi) && VerdictsOk(s1, wi);
      OtherWorker(s1, s', wi);
    }
    hide WorkerOk;
    hide VerdictsOk;
  }
}
