/** Nobody is let in or reached without leave of the policy, under every interleaving
    of notifications, accept goroutines and policy updates. */
module Gating {
  import opened Net
  import opened Kernel
  import opened Socket
  import opened Engine
  import opened SocketInvariant
  import opened Invariant
  import AC = AccessControl

  /** The server policy in force when `h` was checked, before `now`, admits its address. */
  ghost predicate WasAdmitted(w0: World, run: seq<Step>, h: HostSocket, now: nat) {
    h.checkedAt < now <= |run| && Engine.After(w0, run, h.checkedAt).sae.Apply(h.entry.vip)
  }

  /** A verdict is what the server policy said of the announced address at the time. */
  ghost predicate VerdictTrue(w0: World, run: seq<Step>, v: Verdict, now: nat) {
    v.at < now <= |run| && IsAddress(v.vip) && (v.allowed <==> Engine.After(w0, run, v.at).sae.Apply(v.vip))
  }

  ghost predicate VerdictsTrue(w0: World, run: seq<Step>, me: Worker, now: nat) {
    forall j | 0 <= j < |me.verdicts| :: VerdictTrue(w0, run, me.verdicts[j], now)
  }

  ghost predicate SockGated(w0: World, run: seq<Step>, s: Sock, now: nat) {
    && (forall hid | 0 <= hid < |s.hs| && s.hs[hid].state == HostSocketAccepted :: WasAdmitted(w0, run, s.hs[hid], now))
    && (forall wi | 0 <= wi < |s.workers| && s.workers[wi].pc.Storing? :: WasAdmitted(w0, run, s.workers[wi].pc.peer, now))
    && (forall wi | 0 <= wi < |s.workers| :: VerdictsTrue(w0, run, s.workers[wi], now))
  }

  ghost predicate EventGated(w0: World, run: seq<Step>, e: Event, now: nat) {
    match e
    case Injected(_, h, _, at) => at < now && WasAdmitted(w0, run, h, at)
    case Reached(_, ip, at) => at < now <= |run| && Engine.After(w0, run, at).cae.Apply(ip)
  }

  ghost predicate Gated(w0: World, run: seq<Step>, w: World) {
    && (forall sid | 0 <= sid < |w.socks| :: SockGated(w0, run, w.socks[sid], w.now))
    && (forall i | 0 <= i < |w.log| :: EventGated(w0, run, w.log[i], w.now))
  }

  // ------------------------------------------------------------------- goroutines

  /** A goroutine's step reaches a verdict only by asking the policy, makes a peer only by
      such a verdict, and stores only what it has checked. */
  ghost predicate ChecksPeers(s: Sock, s': Sock, sae: AC.Acl, now: nat) {
    && (forall i | 0 <= i < |s'.hs| && s'.hs[i].state == HostSocketAccepted ::
          (i < |s.hs| && s'.hs[i] == s.hs[i]) ||
          exists wi | 0 <= wi < |s.workers| :: s.workers[wi].pc == Storing(s'.hs[i]))
    && (forall wi | 0 <= wi < |s'.workers| && s'.workers[wi].pc.Storing? ::
          (wi < |s.workers| && s'.workers[wi].pc == s.workers[wi].pc) ||
          (s'.workers[wi].pc.peer.checkedAt == now && sae.Apply(s'.workers[wi].pc.peer.entry.vip)))
  }

  ghost predicate ReachesVerdicts(s: Sock, s': Sock, sae: AC.Acl, now: nat) {
    && |s'.workers| == |s.workers|
    && forall wi | 0 <= wi < |s.workers| ::
         var vs, vs' := s.workers[wi].verdicts, s'.workers[wi].verdicts;
         vs' == vs || (|vs'| == |vs| + 1 && vs'[..|vs|] == vs && NewVerdict(vs'[|vs|], sae, now))
  }

  ghost predicate NewVerdict(v: Verdict, sae: AC.Acl, now: nat) {
    v.at == now && IsAddress(v.vip) && (v.allowed <==> sae.Apply(v.vip))
  }

  lemma WorkChecks(s: Sock, sid: nat, wi: nat, o: WorkOracle, sae: AC.Acl, now: nat, k: Kern)
    requires wi < |s.workers| && s.workers[wi].listener < |s.hs|
    ensures ChecksPeers(s, WorkStep(s, sid, wi, o, sae, now, k).0, sae, now)
  {
    hide AC.Acl.Apply;
    hide Peer;
    var s' := WorkStep(s, sid, wi, o, sae, now, k).0;
    if s.workers[wi].pc.Storing? {
      assert s'.hs == s.hs + [s.workers[wi].pc.peer];
    }
  }

  lemma WorkReaches(s: Sock, sid: nat, wi: nat, o: WorkOracle, sae: AC.Acl, now: nat, k: Kern)
    requires wi < |s.workers| && s.workers[wi].listener < |s.hs|
    ensures ReachesVerdicts(s, WorkStep(s, sid, wi, o, sae, now, k).0, sae, now)
  {
    hide AC.Acl.Apply;
    hide Peer;
  }

  lemma PeersGated(w0: World, run: seq<Step>, s: Sock, s': Sock, sae: AC.Acl, now: nat)
    requires SockGated(w0, run, s, now) && ChecksPeers(s, s', sae, now)
    requires now < |run| && sae == Engine.After(w0, run, now).sae
    ensures forall hid | 0 <= hid < |s'.hs| && s'.hs[hid].state == HostSocketAccepted :: WasAdmitted(w0, run, s'.hs[hid], now + 1)
    ensures forall wi | 0 <= wi < |s'.workers| && s'.workers[wi].pc.Storing? :: WasAdmitted(w0, run, s'.workers[wi].pc.peer, now + 1)
  {
    hide AC.Acl.Apply;
    hide Engine.After;
    hide VerdictsTrue;
    forall i | 0 <= i < |s'.hs| && s'.hs[i].state == HostSocketAccepted
      ensures WasAdmitted(w0, run, s'.hs[i], now + 1)
    {
      if !(i < |s.hs| && s'.hs[i] == s.hs[i]) {
        var wi :| 0 <= wi < |s.workers| && s.workers[wi].pc == Storing(s'.hs[i]);
        assert WasAdmitted(w0, run, s.workers[wi].pc.peer, now);
      }
    }
  }

  lemma VerdictsGated(w0: World, run: seq<Step>, s: Sock, s': Sock, sae: AC.Acl, now: nat)
    requires SockGated(w0, run, s, now) && ReachesVerdicts(s, s', sae, now)
    requires now < |run| && sae == Engine.After(w0, run, now).sae
    ensures forall wi | 0 <= wi < |s'.workers| :: VerdictsTrue(w0, run, s'.workers[wi], now + 1)
  {
    hide AC.Acl.Apply;
    hide Engine.After;
    hide WasAdmitted;
    forall wi | 0 <= wi < |s'.workers|
      ensures VerdictsTrue(w0, run, s'.workers[wi], now + 1)
    {
      var vs, vs' := s.workers[wi].verdicts, s'.workers[wi].verdicts;
      assert VerdictsTrue(w0, run, s.workers[wi], now);
      forall j | 0 <= j < |vs'|
        ensures VerdictTrue(w0, run, vs'[j], now + 1)
      {
        if j < |vs| {
          assert vs'[j] == vs[j] && VerdictTrue(w0, run, vs[j], now);
        }
      }
    }
  }

  lemma WorkGated(w0: World, run: seq<Step>, s: Sock, s': Sock, sae: AC.Acl, now: nat)
    requires SockGated(w0, run, s, now) && ChecksPeers(s, s', sae, now) && ReachesVerdicts(s, s', sae, now)
    requires now < |run| && sae == Engine.After(w0, run, now).sae
    ensures SockGated(w0, run, s', now + 1)
  {
    PeersGated(w0, run, s, s', sae, now);
    VerdictsGated(w0, run, s, s', sae, now);
    hide VerdictsTrue;
    hide WasAdmitted;
    hide ChecksPeers;
    hide ReachesVerdicts;
  }

  // ---------------------------------------------------------------------- handlers

  lemma QuietVerdicts(w0: World, run: seq<Step>, s: Sock, s': Sock, now: nat)
    requires SockGated(w0, run, s, now) && Quiet(s, s') && now < |run|
    ensures forall wi | 0 <= wi < |s'.workers| :: VerdictsTrue(w0, run, s'.workers[wi], now + 1)
  {
    hide AC.Acl.Apply;
    hide Engine.After;
    hide WasAdmitted;
    forall wi | 0 <= wi < |s'.workers|
      ensures VerdictsTrue(w0, run, s'.workers[wi], now + 1)
    {
      if wi < |s.workers| {
        assert VerdictsTrue(w0, run, s.workers[wi], now);
      }
    }
  }

  lemma QuietGated(w0: World, run: seq<Step>, s: Sock, s': Sock, now: nat)
    requires SockGated(w0, run, s, now) && Quiet(s, s') && now < |run|
    ensures SockGated(w0, run, s', now + 1)
  {
    hide AC.Acl.Apply;
    hide Engine.After;
    QuietVerdicts(w0, run, s, s', now);
    forall i | 0 <= i < |s'.hs| && s'.hs[i].state == HostSocketAccepted
      ensures WasAdmitted(w0, run, s'.hs[i], now + 1)
    {
      assert WasAdmitted(w0, run, s.hs[i], now);
    }
    forall wi | 0 <= wi < |s'.workers| && s'.workers[wi].pc.Storing?
      ensures WasAdmitted(w0, run, s'.workers[wi].pc.peer, now + 1)
    {
      assert WasAdmitted(w0, run, s.workers[wi].pc.peer, now);
    }
    hide VerdictsTrue;
  }

  lemma SockStaysGated(w0: World, run: seq<Step>, s: Sock, now: nat)
    requires SockGated(w0, run, s, now) && now < |run|
    ensures SockGated(w0, run, s, now + 1)
  {
    QuietItself(s);
    hide Quiet;
    QuietGated(w0, run, s, s, now);
  }

  lemma EventStaysGated(w0: World, run: seq<Step>, e: Event, now: nat)
    requires EventGated(w0, run, e, now) && now < |run|
    ensures EventGated(w0, run, e, now + 1)
  {
    hide AC.Acl.Apply;
    hide Engine.After;
  }

  lemma NewEventGated(w0: World, run: seq<Step>, w: World, e: Event)
    requires Gated(w0, run, w) && EventOk(w, e)
    requires w.now < |run| && w == Engine.After(w0, run, w.now)
    ensures EventGated(w0, run, e, w.now + 1)
  {
    hide AC.Acl.Apply;
    if e.Injected? {
      var s := w.socks[e.sid];
      assert SockGated(w0, run, s, w.now);
      var hid :| 0 <= hid < |s.hs| && s.hs[hid].state == HostSocketAccepted && e.peer == s.hs[hid].(cancelled := e.peer.cancelled);
      assert WasAdmitted(w0, run, s.hs[hid], w.now);
    }
  }

  lemma LoopGated(w0: World, run: seq<Step>, w: World, w': World)
    requires Gated(w0, run, w) && w.now < |run| && w == Engine.After(w0, run, w.now)
    requires NoNewPeers(w.socks, w'.socks) && NewEvents(w, w') && w.log <= w'.log && w'.now == w.now + 1
    ensures Gated(w0, run, w')
  {
    hide Engine.After;
    hide EventGated;
    hide EventOk;
    forall sid | 0 <= sid < |w'.socks|
      ensures SockGated(w0, run, w'.socks[sid], w'.now)
    {
      if sid < |w.socks| {
        assert Quiet(w.socks[sid], w'.socks[sid]);
        hide Quiet;
        QuietGated(w0, run, w.socks[sid], w'.socks[sid], w.now);
      } else {
        assert Peerless(w'.socks[sid]);
      }
    }
    forall i | 0 <= i < |w'.log|
      ensures EventGated(w0, run, w'.log[i], w'.now)
    {
      if i < |w.log| {
        assert w'.log[i] == w.log[i];
        EventStaysGated(w0, run, w.log[i], w.now);
      } else {
        NewEventGated(w0, run, w, w'.log[i]);
      }
    }
    hide SockGated;
  }

  lemma EventsStayGated(w0: World, run: seq<Step>, w: World, w': World)
    requires Gated(w0, run, w) && w.now < |run| && w'.log == w.log && w'.now == w.now + 1
    requires forall sid | 0 <= sid < |w'.socks| :: SockGated(w0, run, w'.socks[sid], w'.now)
    ensures Gated(w0, run, w')
  {
    hide SockGated;
    forall i | 0 <= i < |w'.log|
      ensures EventGated(w0, run, w'.log[i], w'.now)
    {
      EventStaysGated(w0, run, w.log[i], w.now);
    }
    hide EventGated;
  }

  lemma WorkerGated(w0: World, run: seq<Step>, w: World, sid: nat, wi: nat, wo: WorkOracle)
    requires Gated(w0, run, w) && w.now < |run| && w == Engine.After(w0, run, w.now)
    ensures Gated(w0, run, Next(w, Step.Worker(sid, wi, wo)))
  {
    hide WorkStep;
    hide SockGated;
    hide EventGated;
    hide ChecksPeers;
    hide ReachesVerdicts;
    hide NewVerdict;
    hide Engine.After;
    hide AC.Acl.Apply;
    var w' := Next(w, Step.Worker(sid, wi, wo));
    var runs := sid < |w.socks| && wi < |w.socks[sid].workers| && w.socks[sid].workers[wi].listener < |w.socks[sid].hs|;
    forall i | 0 <= i < |w'.socks|
      ensures SockGated(w0, run, w'.socks[i], w'.now)
    {
      assert SockGated(w0, run, w.socks[i], w.now);
      if runs && i == sid {
        WorkChecks(w.socks[sid], sid, wi, wo, w.sae, w.now, w.k);
        WorkReaches(w.socks[sid], sid, wi, wo, w.sae, w.now, w.k);
        WorkGated(w0, run, w.socks[sid], w'.socks[sid], w.sae, w.now);
      } else {
        SockStaysGated(w0, run, w.socks[i], w.now);
      }
    }
    EventsStayGated(w0, run, w, w');
  }

  lemma NextGated(w0: World, run: seq<Step>, w: World, st: Step)
    requires Inv(w) && Gated(w0, run, w) && w.now < |run| && w == Engine.After(w0, run, w.now)
    ensures Gated(w0, run, Next(w, st))
  {
    hide Inv;
    hide Gated;
    hide HandleReq;
    hide NoNewPeers;
    hide NewEvents;
    match st {
      case Loop(req, o) =>
        HandleReqSound(w, req, o);
        SoundParts(w, HandleReq(w, req, o).w);
        LaterEvents(w, HandleReq(w, req, o).w, Next(w, st));
        LoopGated(w0, run, w, Next(w, st));
      case Worker(sid, wi, wo) => WorkerGated(w0, run, w, sid, wi, wo);
      case _ =>
        NothingGrows(w, Next(w, st));
        LoopGated(w0, run, w, Next(w, st));
    }
  }

  lemma LaterEvents(w: World, w1: World, w': World)
    requires NewEvents(w, w1) && w'.log == w1.log
    ensures NewEvents(w, w')
  {
    hide EventOk;
  }

  lemma {:induction false} NowIs(w0: World, run: seq<Step>, n: nat)
    requires Inv(w0) && w0.now == 0 && n <= |run|
    ensures Engine.After(w0, run, n).now == n
  {
    hide Inv;
    hide Engine.Do;
    if n > 0 {
      NowIs(w0, run, n - 1);
      RunSound(w0, run, n - 1, n - 1);
      SameNow(Engine.After(w0, run, n - 1), run[n - 1]);
    }
  }

  lemma {:induction false} RunGated(w0: World, run: seq<Step>, n: nat)
    requires Inv(w0) && w0.now == 0 && w0.socks == [] && w0.log == [] && n <= |run|
    ensures Gated(w0, run, Engine.After(w0, run, n))
  {
    hide Inv;
    hide Next;
    NowIs(w0, run, n);
    if n > 0 {
      RunGated(w0, run, n - 1);
      NowIs(w0, run, n - 1);
      RunSound(w0, run, n - 1, n - 1);
      hide Gated;
      NextGated(w0, run, Engine.After(w0, run, n - 1), run[n - 1]);
    }
  }

  // ----------------------------------------------------------------------- theorem

  /** A socket that the engine let in, or let out. */
  ghost predicate Vouched(w0: World, run: seq<Step>, w: World, sid: nat)
    requires sid < |w.socks|
  {
    exists i | 0 <= i < |w.log| :: Explains(w.log[i], w.socks[sid], sid) && EventGated(w0, run, w.log[i], w.now)
  }

  /** At every moment of every run, whatever the interleaving:
      every verdict of an accept goroutine, refusing or admitting, is what the server
      policy in force at that moment says of the announced address; every peer kept or
      queued was admitted at its own check; every injected peer was admitted before it
      was injected; every address connect reached was allowed by the client policy in
      force in that very step; and no socket is bypassed but by one of the two, RDMA
      control channels aside. */
  lemma GatedAdmission(myVIP: IP, featureRDMA: bool, serverDefault: bool, clientDefault: bool, run: seq<Step>, n: nat)
    requires n <= |run|
    ensures var w0 := Init(myVIP, featureRDMA, serverDefault, clientDefault);
            var w := Engine.After(w0, run, n);
            && w.now == n
            && (forall sid, hid | 0 <= sid < |w.socks| && 0 <= hid < |w.socks[sid].hs| &&
                                  w.socks[sid].hs[hid].state == HostSocketAccepted ::
                  WasAdmitted(w0, run, w.socks[sid].hs[hid], n))
            && (forall sid, i | 0 <= sid < |w.socks| && 0 <= i < |w.socks[sid].queue| ::
                  Accepted(w.socks[sid], w.socks[sid].queue[i]) && WasAdmitted(w0, run, w.socks[sid].hs[w.socks[sid].queue[i]], n))
            && (forall sid, wi | 0 <= sid < |w.socks| && 0 <= wi < |w.socks[sid].workers| ::
                  VerdictsTrue(w0, run, w.socks[sid].workers[wi], n))
            && (forall i | 0 <= i < |w.log| :: EventGated(w0, run, w.log[i], n))
            && (forall sid | 0 <= sid < |w.socks| && w.socks[sid].state.Bypassed? &&
                             !MayCarryRsocket(featureRDMA, w.socks[sid]) ::
                  Vouched(w0, run, w, sid))
  {
    var w0 := Init(myVIP, featureRDMA, serverDefault, clientDefault);
    InitInv(myVIP, featureRDMA, serverDefault, clientDefault);
    RunGated(w0, run, n);
    NowIs(w0, run, n);
    RunSound(w0, run, 0, n);
    var w := Engine.After(w0, run, n);
    assert w.featureRDMA == featureRDMA;
    hide Engine.After;
    forall sid, i | 0 <= sid < |w.socks| && 0 <= i < |w.socks[sid].queue|
      ensures Accepted(w.socks[sid], w.socks[sid].queue[i]) && WasAdmitted(w0, run, w.socks[sid].hs[w.socks[sid].queue[i]], n)
    {
      SockFacts(w, sid);
      QueuedAreAccepted(w.socks[sid], featureRDMA, i);
      assert SockGated(w0, run, w.socks[sid], n);
    }
    forall sid | 0 <= sid < |w.socks| && w.socks[sid].state.Bypassed? && !MayCarryRsocket(featureRDMA, w.socks[sid])
      ensures Vouched(w0, run, w, sid)
    {
      ToldAt(w, sid);
      var i :| 0 <= i < |w.log| && Explains(w.log[i], w.socks[sid], sid);
      assert EventGated(w0, run, w.log[i], w.now);
    }
    hide Inv;
    hide Evolves;
    forall sid, wi | 0 <= sid < |w.socks| && 0 <= wi < |w.socks[sid].workers|
      ensures VerdictsTrue(w0, run, w.socks[sid].workers[wi], n)
    {
      assert SockGated(w0, run, w.socks[sid], n);
    }
    hide VerdictsTrue;
    forall sid, hid | 0 <= sid < |w.socks| && 0 <= hid < |w.socks[sid].hs| && w.socks[sid].hs[hid].state == HostSocketAccepted
      ensures WasAdmitted(w0, run, w.socks[sid].hs[hid], n)
    {
      assert SockGated(w0, run, w.socks[sid], n);
    }
  }
}
