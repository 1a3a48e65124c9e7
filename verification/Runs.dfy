/** What holds at every moment of every run of one handler: of its accept queues, of
    the states of its sockets, and of the names of its bypassed sockets. */
module Runs {
  import opened Net
  import opened Socket
  import opened Engine
  import opened SocketInvariant
  import opened Invariant
  import AC = AccessControl
  import D = Destination

  /** The configuration a handler is started with. */
  datatype Config = Config(myVIP: IP, featureRDMA: bool, serverDefault: bool, clientDefault: bool)
  {
    function At(run: seq<Step>, n: nat): World
      requires n <= |run|
    {
      Engine.After(Init(myVIP, featureRDMA, serverDefault, clientDefault), run, n)
    }
  }

  lemma Reachable(c: Config, run: seq<Step>, m: nat, n: nat)
    requires m <= n <= |run|
    ensures Inv(c.At(run, m)) && Inv(c.At(run, n)) && Evolves(c.At(run, m), c.At(run, n))
    ensures c.At(run, m).featureRDMA == c.featureRDMA
  {
    InitInv(c.myVIP, c.featureRDMA, c.serverDefault, c.clientDefault);
    var w0 := Init(c.myVIP, c.featureRDMA, c.serverDefault, c.clientDefault);
    RunSound(w0, run, m, n);
    RunSound(w0, run, 0, m);
    hide Inv;
  }

  lemma AtStart(c: Config, run: seq<Step>)
    ensures c.At(run, 0) == Init(c.myVIP, c.featureRDMA, c.serverDefault, c.clientDefault) && c.At(run, 0).socks == []
  {
  }

  lemma AtNext(c: Config, run: seq<Step>, n: nat)
    requires n < |run|
    ensures c.At(run, n + 1) == Next(c.At(run, n), run[n])
  {
    hide Next;
  }

  // ---------------------------------------------------------------- accept queues

  /** For each virtual socket: what was taken off the queue, then what waits in it, is
      what was sent to it, in order; no host socket is sent twice, so none is handed
      to two accept calls; the queue never overflows; and what each goroutine has
      sent is what its policy checks admitted, in order, but for the one it is still
      about to send. */
  lemma QueueConservation(c: Config, run: seq<Step>, n: nat, sid: nat)
    requires n <= |run| && sid < |c.At(run, n).socks|
    ensures var s := c.At(run, n).socks[sid];
            && s.dequeued + s.queue == Hids(s.enqueued)
            && (forall i, j | 0 <= i < j < |s.dequeued + s.queue| :: (s.dequeued + s.queue)[i] != (s.dequeued + s.queue)[j])
            && |s.queue| <= 0xffff
            && (forall wi | 0 <= wi < |s.workers| ::
                  AdmittedConns(s.workers[wi].verdicts) == SentBy(s.enqueued, wi) + Pending(s, wi))
  {
    Reachable(c, run, n, n);
    var w := c.At(run, n);
    SockFacts(w, sid);
    var s := w.socks[sid];
    forall i, j | 0 <= i < j < |s.dequeued + s.queue|
      ensures (s.dequeued + s.queue)[i] != (s.dequeued + s.queue)[j]
    {
      DequeuedOnce(s, c.featureRDMA, i, j);
    }
    hide Config.At;
    hide Inv;
    hide WorkerOk;
    forall wi | 0 <= wi < |s.workers|
      ensures AdmittedConns(s.workers[wi].verdicts) == SentBy(s.enqueued, wi) + Pending(s, wi)
    {
      assert VerdictsOk(s, wi);
    }
  }

  /** What has been sent or taken is never forgotten or reordered: the queue is first
      in, first out over time. */
  lemma QueueIsFifo(c: Config, run: seq<Step>, m: nat, n: nat, sid: nat)
    requires m <= n <= |run|
    ensures sid < |c.At(run, m).socks| && !c.At(run, n).reused ==>
              sid < |c.At(run, n).socks| &&
              var s, s' := c.At(run, m).socks[sid], c.At(run, n).socks[sid];
              && s.enqueued <= s'.enqueued && s.dequeued <= s'.dequeued
              && s'.dequeued + s'.queue == Hids(s'.enqueued)
  {
    Reachable(c, run, m, n);
    hide Config.At;
    var w, w' := c.At(run, m), c.At(run, n);
    if sid < |w.socks| && !w'.reused {
      assert SocksGrow(w.socks, w'.socks, w.featureRDMA);
      assert SockGrows(w.socks[sid], w'.socks[sid], MayCarryRsocket(w.featureRDMA, w.socks[sid]));
      SockFacts(w', sid);
    }
  }

  // ----------------------------------------------------------------------- states

  /** Nothing has been sent on the queue of a socket that was never listened on. */
  lemma NeverListened(s: Sock, featureRDMA: bool)
    requires SockOk(s, featureRDMA) && (s.state == NotBypassed || s.state == Binded)
    ensures s.queue == [] && s.workers == []
    ensures s.state == NotBypassed ==> s.hs == [] && s.hostSockets == map[]
  {
    assert s.enqueued == [] && |s.dequeued + s.queue| == 0;
  }

  lemma BindedHosts(s: Sock, featureRDMA: bool)
    requires SockOk(s, featureRDMA) && s.state == Binded
    ensures forall fd | fd in s.hostSockets ::
              s.hostSockets[fd] < |s.hs| && s.hs[s.hostSockets[fd]].state == HostSocketBinded &&
              s.hs[s.hostSockets[fd]].sockfd == fd && s.hs[s.hostSockets[fd]].entry.vport == s.local.port
    ensures !featureRDMA ==> HasHost(s)
  {
    hide QueueOk;
    hide WorkerOk;
    hide VerdictsOk;
  }

  lemma ListeningHosts(s: Sock, featureRDMA: bool)
    requires SockOk(s, featureRDMA) && s.state == Listening
    ensures forall fd | fd in s.hostSockets :: s.hostSockets[fd] < |s.hs| && s.hs[s.hostSockets[fd]].state != HostSocketBinded
  {
    hide QueueOk;
    hide WorkerOk;
    hide VerdictsOk;
  }

  lemma GoroutinesListen(s: Sock, featureRDMA: bool)
    requires SockOk(s, featureRDMA)
    ensures forall wi | 0 <= wi < |s.workers| ::
              s.workers[wi].listener < |s.hs| && s.hs[s.workers[wi].listener].state in {HostSocketListening, HostSocketError}
  {
    hide QueueOk;
    hide StateOk;
    forall wi | 0 <= wi < |s.workers|
      ensures s.workers[wi].listener < |s.hs| && s.hs[s.workers[wi].listener].state in {HostSocketListening, HostSocketError}
    {
      assert WorkerOk(s, wi);
    }
  }

  /** What the state of a virtual socket says about its host sockets and its queue. */
  lemma JointState(c: Config, run: seq<Step>, n: nat, sid: nat)
    requires n <= |run| && sid < |c.At(run, n).socks|
    ensures var s := c.At(run, n).socks[sid];
            && (s.state == NotBypassed ==> s.hostSockets == map[] && s.queue == [] && s.workers == [])
            && (s.state == Binded ==>
                  && s.queue == [] && s.workers == []
                  && (forall fd | fd in s.hostSockets ::
                        s.hostSockets[fd] < |s.hs| && s.hs[s.hostSockets[fd]].state == HostSocketBinded &&
                        s.hs[s.hostSockets[fd]].sockfd == fd && s.hs[s.hostSockets[fd]].entry.vport == s.local.port)
                  && (!c.featureRDMA ==> HasHost(s)))
            && (s.state == Listening ==>
                  forall fd | fd in s.hostSockets ::
                    s.hostSockets[fd] < |s.hs| && s.hs[s.hostSockets[fd]].state != HostSocketBinded)
            && (forall i | 0 <= i < |s.queue| :: s.queue[i] < |s.hs| && s.hs[s.queue[i]].state == HostSocketAccepted)
            && (forall wi | 0 <= wi < |s.workers| :: s.workers[wi].listener < |s.hs| &&
                  s.hs[s.workers[wi].listener].state in {HostSocketListening, HostSocketError})
  {
    Reachable(c, run, n, n);
    SockFacts(c.At(run, n), sid);
    hide Config.At;
    hide Inv;
    hide SockOk;
    hide HasHost;
    var s := c.At(run, n).socks[sid];
    forall i | 0 <= i < |s.queue|
      ensures s.queue[i] < |s.hs| && s.hs[s.queue[i]].state == HostSocketAccepted
    {
      QueuedAreAccepted(s, c.featureRDMA, i);
    }
    GoroutinesListen(s, c.featureRDMA);
    match s.state {
      case NotBypassed => NeverListened(s, c.featureRDMA);
      case Binded => NeverListened(s, c.featureRDMA); BindedHosts(s, c.featureRDMA);
      case Listening => ListeningHosts(s, c.featureRDMA);
      case _ =>
    }
  }

  // ------------------------------------------------------------------------ names

  /** A bypassed socket stays bypassed under unchanged names, and registered under its
      process and number until it is removed: unless it can be taken over for RDMA
      control, and as long as no injected number is one still registered. */
  lemma BypassedIsStable(c: Config, run: seq<Step>, m: nat, n: nat, sid: nat)
    requires m <= n <= |run| && sid < |c.At(run, m).socks| && !c.At(run, n).reused
    requires c.At(run, m).socks[sid].state == Bypassed && !MayCarryRsocket(c.featureRDMA, c.At(run, m).socks[sid])
    ensures sid < |c.At(run, n).socks|
    ensures var s, s' := c.At(run, m).socks[sid], c.At(run, n).socks[sid];
            && s'.state == Bypassed && s'.local == s.local && s'.remote == s.remote
            && (!s'.cancelled ==> c.At(run, n).Registered(s.pid, s.sockfd) == Some(sid))
  {
    Reachable(c, run, m, n);
    hide Config.At;
    var w, w' := c.At(run, m), c.At(run, n);
    assert SocksGrow(w.socks, w'.socks, w.featureRDMA);
    assert SockGrows(w.socks[sid], w'.socks[sid], MayCarryRsocket(w.featureRDMA, w.socks[sid]));
    InvRegistry(w');
    hide Inv;
    assert LiveIsFiled(w'.processes, w'.socks, sid);
  }

  /** A socket that is bypassed, or given up, stays one or the other. */
  lemma StaysSettled(c: Config, run: seq<Step>, m: nat, n: nat, sid: nat)
    requires m <= n <= |run| && sid < |c.At(run, m).socks| && Settled(c.At(run, m).socks[sid]) && !c.At(run, n).reused
    ensures sid < |c.At(run, n).socks| && Settled(c.At(run, n).socks[sid])
  {
    Reachable(c, run, m, n);
    hide Config.At;
    hide Inv;
    hide NewNames;
    var w, w' := c.At(run, m), c.At(run, n);
    assert SockGrows(w.socks[sid], w'.socks[sid], MayCarryRsocket(w.featureRDMA, w.socks[sid]));
  }

  // ------------------------------------------------------------- policies and routes

  /** The operations on the server policy among the first `n` steps. */
  function ServerOps(run: seq<Step>, n: nat): seq<AC.Op>
    requires n <= |run|
  {
    if n == 0 then [] else ServerOps(run, n - 1) + if run[n - 1].ServerPolicy? then [run[n - 1].aop] else []
  }

  function ClientOps(run: seq<Step>, n: nat): seq<AC.Op>
    requires n <= |run|
  {
    if n == 0 then [] else ClientOps(run, n - 1) + if run[n - 1].ClientPolicy? then [run[n - 1].cop] else []
  }

  /** The operations on the destinations, but for those on which the table panics. */
  function RouteOps(c: Config, run: seq<Step>, n: nat): seq<D.Op>
    requires n <= |run|
  {
    if n == 0 then []
    else
      var st := run[n - 1];
      RouteOps(c, run, n - 1) + if st.Route? && D.Do(c.At(run, n - 1).de, st.rop).Some? then [st.rop] else []
  }

  lemma ReplayMore(defaultPolicy: bool, ops: seq<AC.Op>, op: AC.Op)
    ensures AC.Replay(defaultPolicy, ops + [op]) == AC.Do(AC.Replay(defaultPolicy, ops), op)
  {
    assert (ops + [op])[..|ops|] == ops;
  }

  lemma {:induction false} AfterPrefix(myVIP: IP, featureRDMA: bool, ops: seq<D.Op>, more: seq<D.Op>, n: nat)
    requires n <= |ops|
    ensures D.After(myVIP, featureRDMA, ops + more, n) == D.After(myVIP, featureRDMA, ops, n)
  {
    if n > 0 {
      AfterPrefix(myVIP, featureRDMA, ops, more, n - 1);
      hide D.Do;
    }
  }

  lemma StepOfTables(w: World, st: Step)
    requires Inv(w)
    ensures var w' := Next(w, st);
            && w'.sae == (if st.ServerPolicy? then AC.Do(w.sae, st.aop) else w.sae)
            && w'.cae == (if st.ClientPolicy? then AC.Do(w.cae, st.cop) else w.cae)
            && w'.de == (if st.Route? && D.Do(w.de, st.rop).Some? then D.Do(w.de, st.rop).value else w.de)
  {
    hide Inv;
    hide HandleReq;
    hide WorkStep;
    hide AC.Do;
    hide D.Do;
    if st.Loop? {
      HandleReqSound(w, st.req, st.o);
      TablesStay(w, HandleReq(w, st.req, st.o).w);
    }
  }

  lemma TablesStay(w: World, w': World)
    requires Sound(w, w')
    ensures w'.sae == w.sae && w'.cae == w.cae && w'.de == w.de
  {
    hide Inv;
    hide NoNewPeers;
    hide NewEvents;
    hide SocksGrow;
    hide NewNames;
  }

  /** At every moment of every run the two policies are what the updates of the run so far
      have made of them: each update acts on its own table, in order, and nothing else does. */
  lemma {:induction false} PoliciesFollow(c: Config, run: seq<Step>, n: nat)
    requires n <= |run|
    ensures c.At(run, n).sae == AC.Replay(c.serverDefault, ServerOps(run, n))
    ensures c.At(run, n).cae == AC.Replay(c.clientDefault, ClientOps(run, n))
  {
    hide AC.Do;
    hide D.Do;
    hide Config.At;
    hide Next;
    hide Inv;
    hide Evolves;
    if n == 0 {
      AtStart(c, run);
    } else {
      hide AC.Replay;
      PoliciesFollow(c, run, n - 1);
      AtNext(c, run, n - 1);
      Reachable(c, run, n - 1, n - 1);
      var st := run[n - 1];
      StepOfTables(c.At(run, n - 1), st);
      if st.ServerPolicy? {
        ReplayMore(c.serverDefault, ServerOps(run, n - 1), st.aop);
      }
      if st.ClientPolicy? {
        ReplayMore(c.clientDefault, ClientOps(run, n - 1), st.cop);
      }
      assert ServerOps(run, n - 1) + [] == ServerOps(run, n - 1) && ClientOps(run, n - 1) + [] == ClientOps(run, n - 1);
    }
  }

  lemma OneMoreRoute(myVIP: IP, featureRDMA: bool, ops: seq<D.Op>, op: D.Op)
    ensures D.After(myVIP, featureRDMA, ops + [op], |ops| + 1) ==
            match D.After(myVIP, featureRDMA, ops, |ops|) case None => None case Some(de) => D.Do(de, op)
  {
    AfterPrefix(myVIP, featureRDMA, ops, [op], |ops|);
    hide D.Do;
  }

  /** Likewise the destinations. */
  lemma {:induction false} RoutesFollow(c: Config, run: seq<Step>, n: nat)
    requires n <= |run|
    ensures var ops := RouteOps(c, run, n);
            D.After(c.myVIP, c.featureRDMA, ops, |ops|) == Some(c.At(run, n).de)
  {
    hide AC.Do;
    hide D.Do;
    hide Config.At;
    hide Next;
    hide Inv;
    hide Evolves;
    if n == 0 {
      AtStart(c, run);
    } else {
      hide D.After;
      RoutesFollow(c, run, n - 1);
      AtNext(c, run, n - 1);
      Reachable(c, run, n - 1, n - 1);
      var w, st, ops := c.At(run, n - 1), run[n - 1], RouteOps(c, run, n - 1);
      StepOfTables(w, st);
      assert ops + [] == ops;
      if st.Route? && D.Do(w.de, st.rop).Some? {
        OneMoreRoute(c.myVIP, c.featureRDMA, ops, st.rop);
        assert RouteOps(c, run, n) == ops + [st.rop];
      }
    }
  }

  /** With the RDMA feature off no RDMA entry is in either index. */
  lemma NoRdmaEntries(c: Config, run: seq<Step>, n: nat, ip: IP, port: Port, t: D.Transport)
    requires n <= |run| && !c.featureRDMA
    ensures var de := c.At(run, n).de;
            && (forall e | e in de.GetServer(port) :: !e.transport.RDMA?)
            && (de.GetClient(ip, port) != [] ==>
                  |de.GetClient(ip, port)| == 4 &&
                  forall e | e in de.GetClient(ip, port)[D.Class(t)] :: e.transport == t && !t.RDMA?)
  {
    Reachable(c, run, n, n);
    hide Config.At;
    var de := c.At(run, n).de;
    ShapedDe(c.At(run, n));
    hide Inv;
    hide D.SlotOf;
    if de.GetClient(ip, port) != [] {
      var slot := D.SlotOf(ip, port);
      assert D.WellFiled(de.client[slot], slot, de.featureRDMA);
    }
  }
}
