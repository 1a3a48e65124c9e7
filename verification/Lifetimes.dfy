/** How long a bypassed socket lives: until its number is closed or its process exits. */
module Lifetimes {
  import opened Net
  import opened Sockaddrs
  import opened Kernel
  import opened Socket
  import opened Engine
  import opened Invariant
  import opened Effects
  import opened Runs

  /** The step closes the socket's number in its process, or is the exit of it. */
  ghost predicate Ends(w: World, st: Step, s: Sock) {
    st.Loop? &&
    var info := GetPidFdInfo(w, st.req.pid, st.o.pid).1;
    && info.Some? && info.value.tgid == s.pid
    && ((st.req.call.Close? && st.req.fd == s.sockfd) ||
        ((st.req.call.Exit? || st.req.call.ExitGroup?) && info.value.pidType.PROCESS?))
  }

  lemma UnregisterRemoves(w: World, pid: int, fd: int, x: nat)
    requires Inv(w) && x < |w.socks| && !w.socks[x].cancelled
    ensures var w' := Unregister(w, pid, fd);
            && |w'.socks| == |w.socks|
            && (w'.socks[x].cancelled <==> w.socks[x].pid == pid && w.socks[x].sockfd == fd)
  {
    UnregisterIs(w, pid, fd);
    InvRegistry(w);
    hide Inv;
    hide Unregister;
    assert LiveIsFiled(w.processes, w.socks, x);
    var sid := w.Registered(pid, fd);
    if sid.Some? {
      assert FiledOk(w.processes, w.socks, pid, fd);
    }
  }

  ghost predicate Live(w: World, x: nat) {
    x < |w.socks| && !w.socks[x].cancelled
  }

  /** Registering afresh never removes a bypassed socket. */
  lemma GateSpares(w: World, pid: int, sid: nat, req: Request, o: LoopOracle, x: nat)
    requires Inv(w) && sid < |w.socks| && w.Registered(pid, req.fd) == Some(sid)
    requires Live(w, x) && w.socks[x].state.Bypassed?
    ensures Live(Gate(w, pid, sid, req, o).w, x)
  {
    hide Inv;
    hide Sound;
    hide Register;
    hide Unregister;
    if w.socks[sid].state == NotBypassable && (req.call.Connect? || req.call.Bind?) {
      FiledIdentity(w, pid, req.fd, x);
      UnregisterRemoves(w, pid, req.fd, x);
      UnregisterSound(w, pid, req.fd);
      var w0 := Unregister(w, pid, req.fd);
      SoundImplies(w, w0);
      RegisterSound(w0, pid, req.fd, o.rereg);
      assert Register(w0, pid, req.fd, o.rereg).0.socks[x] == w0.socks[x];
    }
  }

  /** A live socket under this process and number is the one registered there. */
  lemma FiledIdentity(w: World, pid: int, fd: int, x: nat)
    requires Inv(w) && x < |w.socks| && !w.socks[x].cancelled
    ensures w.socks[x].pid == pid && w.socks[x].sockfd == fd ==> w.Registered(pid, fd) == Some(x)
  {
    assert LiveIsFiled(w.processes, w.socks, x);
  }

  lemma EnterSpares(w: World, pid: int, sid: nat, req: Request, o: LoopOracle, x: nat)
    requires Inv(w) && sid < |w.socks| && w.Registered(pid, req.fd) == Some(sid)
    requires Live(w, x) && w.socks[x].state.Bypassed? && !MayCarryRsocket(w.featureRDMA, w.socks[x])
    ensures Live(Enter(w, pid, sid, req, o).w, x)
  {
    hide Inv;
    hide Sound;
    hide Gate;
    hide InitializeRsocket;
    hide MayCarryRsocket;
    if w.featureRDMA && req.call.Connect? {
      RsocketSound(w, sid, o);
      RsocketTouches(w, sid, o);
      var (w1, done) := InitializeRsocket(w, sid, o);
      SoundImplies(w, w1);
      if !done {
        GateSpares(w1, pid, sid, req, o, x);
      }
    } else {
      GateSpares(w, pid, sid, req, o, x);
    }
  }

  lemma DropRemoves(w: World, pid: int, x: nat)
    requires Inv(w) && x < |w.socks| && !w.socks[x].cancelled
    ensures var w' := DropProcess(w, pid);
            |w'.socks| == |w.socks| && (w'.socks[x].cancelled <==> w.socks[x].pid == pid)
  {
    InvRegistry(w);
    hide Inv;
    assert LiveIsFiled(w.processes, w.socks, x);
    if pid in w.processes {
      var sids := SidsOf(w, pid);
      RemoveEachIs(w, sids, |w.socks|);
      hide RemoveEach;
      if x in sids {
        var fd :| fd in w.processes[pid] && w.processes[pid][fd] == x;
        assert FiledOk(w.processes, w.socks, pid, fd);
      }
    }
  }

  lemma ExitRemoves(w: World, pid: int, info: PidInfo, x: nat)
    requires Inv(w) && x < |w.socks| && !w.socks[x].cancelled
    ensures var w' := HandleExit(w, pid, info);
            && |w'.socks| == |w.socks|
            && (w'.socks[x].cancelled <==> info.pidType.PROCESS? && w.socks[x].pid == info.tgid)
  {
    hide Inv;
    hide Sound;
    var w1 := DropPid(w, pid);
    CachesSound(w, w1);
    SoundImplies(w, w1);
    DropRemoves(w1, info.tgid, x);
    hide DropProcess;
  }

  /** Only before its handler is called does a request remove anything. */
  lemma SettleRemoves(w: World, req: Request, o: LoopOracle, x: nat)
    requires Inv(w) && Live(w, x) && w.socks[x].state.Bypassed? && !MayCarryRsocket(w.featureRDMA, w.socks[x])
    ensures var st := Settle(w, req, o);
            x < |st.w.socks| && (st.w.socks[x].cancelled <==> Ends(w, Loop(req, o), w.socks[x]))
  {
    hide Inv;
    hide Sound;
    hide Enter;
    hide HandleExit;
    hide Register;
    hide Unregister;
    hide MayCarryRsocket;
    hide NewEvents;
    hide NoNewPeers;
    hide NewNames;
    CachesOnly(w, req.pid, o.pid, ZERO_SOCKADDR, o);
    var (w1, info) := GetPidFdInfo(w, req.pid, o.pid);
    hide GetPidFdInfo;
    CachesSound(w, w1);
    SoundImplies(w, w1);
    if info.Some? {
      var pid := info.value.tgid;
      ExitRemoves(w1, req.pid, info.value, x);
      UnregisterRemoves(w1, pid, req.fd, x);
      RegisterSound(w1, pid, req.fd, o.reg);
      var (w2, sid) := Register(w1, pid, req.fd, o.reg);
      SoundImplies(w1, w2);
      if sid.Some? {
        assert w2.socks[x] == w1.socks[x];
        SoundParts(w1, w2);
        EnterSpares(w2, pid, sid.value, req, o, x);
      }
    }
  }

  lemma HandleReqRemoves(w: World, req: Request, o: LoopOracle, x: nat)
    requires Inv(w) && Live(w, x) && w.socks[x].state.Bypassed? && !MayCarryRsocket(w.featureRDMA, w.socks[x])
    ensures var w' := HandleReq(w, req, o).w;
            x < |w'.socks| && (w'.socks[x].cancelled <==> Ends(w, Loop(req, o), w.socks[x]))
  {
    SettleRemoves(w, req, o, x);
    hide Inv;
    hide Settle;
    hide Dispatch;
    hide Ends;
    var st := Settle(w, req, o);
    if st.sid.Some? && st.sid.value < |st.w.socks| {
      DispatchEffect(st.w, st.pid, st.sid.value, req.call, o);
    }
    hide Steady;
  }

  /** A live bypassed socket is removed in a step exactly if the step ends it. */
  lemma RemovedExactlyWhenEnded(w: World, st: Step, x: nat)
    requires Inv(w) && x < |w.socks| && !w.socks[x].cancelled && w.socks[x].state.Bypassed?
    requires !MayCarryRsocket(w.featureRDMA, w.socks[x])
    ensures x < |Next(w, st).socks| && (Next(w, st).socks[x].cancelled <==> Ends(w, st, w.socks[x]))
  {
    hide Inv;
    hide HandleReq;
    hide WorkStep;
    hide MayCarryRsocket;
    match st {
      case Loop(req, o) => HandleReqRemoves(w, req, o, x); hide Ends;
      case Worker(sid, wi, wo) => WorkerSpares(w, sid, wi, wo); hide Engine.Do;
      case _ =>
    }
  }

  lemma WorkerSpares(w: World, sid: nat, wi: nat, wo: WorkOracle)
    ensures LivesKept(w.socks, Engine.Do(w, Step.Worker(sid, wi, wo)).socks)
  {
    hide WorkStep;
    hide SockGrows;
    if sid < |w.socks| && wi < |w.socks[sid].workers| && w.socks[sid].workers[wi].listener < |w.socks[sid].hs| {
      WorkIdentity(w.socks[sid], sid, wi, wo, w.sae, w.now, false, w.k);
    }
  }

  /** Step `i` of the run ends the socket as it stands then. */
  ghost predicate EndsAt(c: Config, run: seq<Step>, i: nat, sid: nat) {
    i < |run| && sid < |c.At(run, i).socks| && Ends(c.At(run, i), run[i], c.At(run, i).socks[sid])
  }

  ghost predicate LiveAt(c: Config, run: seq<Step>, n: nat, sid: nat)
    requires n <= |run|
  {
    sid < |c.At(run, n).socks| && !c.At(run, n).socks[sid].cancelled
  }

  lemma LivesOn(c: Config, run: seq<Step>, n: nat, sid: nat)
    requires n < |run| && LiveAt(c, run, n, sid) && !EndsAt(c, run, n, sid)
    requires c.At(run, n).socks[sid].state == Bypassed && !MayCarryRsocket(c.featureRDMA, c.At(run, n).socks[sid])
    ensures LiveAt(c, run, n + 1, sid)
  {
    Reachable(c, run, n, n);
    var w := c.At(run, n);
    assert c.At(run, n + 1) == Next(w, run[n]);
    hide Inv;
    hide Next;
    hide Config.At;
    hide Evolves;
    hide Ends;
    RemovedExactlyWhenEnded(w, run[n], sid);
  }

  /** Socket `sid` is live and bypassed, and cannot be taken over for RDMA control. */
  ghost predicate Stands(c: Config, run: seq<Step>, n: nat, sid: nat)
    requires n <= |run|
  {
    LiveAt(c, run, n, sid) &&
    var s := c.At(run, n).socks[sid];
    s.state == Bypassed && !MayCarryRsocket(c.featureRDMA, s)
  }

  /** From the moment it is bypassed until a step ends it, a socket is live, registered
      under its process and number, and bypassed with the same names. */
  lemma {:induction false} BypassedUntilEnded(c: Config, run: seq<Step>, m: nat, n: nat, sid: nat)
    requires m <= n <= |run|
    ensures Stands(c, run, m, sid) && !c.At(run, n).reused && (forall i | m <= i < n :: !EndsAt(c, run, i, sid)) ==>
              Stands(c, run, n, sid) &&
              var s, s' := c.At(run, m).socks[sid], c.At(run, n).socks[sid];
              && s'.local == s.local && s'.remote == s.remote
              && c.At(run, n).Registered(s.pid, s.sockfd) == Some(sid)
    decreases n
  {
    hide Config.At;
    hide EndsAt;
    if Stands(c, run, m, sid) && !c.At(run, n).reused && forall i | m <= i < n :: !EndsAt(c, run, i, sid) {
      BypassedIsStable(c, run, m, n, sid);
      IdentityKept(c, run, m, n, sid);
      if m < n {
        NotReusedBefore(c, run, n - 1, n);
        BypassedUntilEnded(c, run, m, n - 1, sid);
        hide MayCarryRsocket;
        LivesOn(c, run, n - 1, sid);
      }
    }
  }

  lemma NotReusedBefore(c: Config, run: seq<Step>, m: nat, n: nat)
    requires m <= n <= |run| && !c.At(run, n).reused
    ensures !c.At(run, m).reused
  {
    Reachable(c, run, m, n);
    hide Config.At;
    hide SocksGrow;
    hide NewNames;
  }

  lemma IdentityKept(c: Config, run: seq<Step>, m: nat, n: nat, sid: nat)
    requires m <= n <= |run| && sid < |c.At(run, m).socks| && !c.At(run, n).reused
    ensures sid < |c.At(run, n).socks| && c.At(run, n).featureRDMA == c.featureRDMA
    ensures MayCarryRsocket(c.featureRDMA, c.At(run, n).socks[sid]) == MayCarryRsocket(c.featureRDMA, c.At(run, m).socks[sid])
  {
    Reachable(c, run, m, n);
    hide Config.At;
    var w, w' := c.At(run, m), c.At(run, n);
    assert SocksGrow(w.socks, w'.socks, w.featureRDMA);
    assert SockGrows(w.socks[sid], w'.socks[sid], MayCarryRsocket(w.featureRDMA, w.socks[sid]));
  }
}
