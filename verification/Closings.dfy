/** Close and exit: what is removed, what is closed, and what stays. */
module Closings {
  import opened Net
  import opened Kernel
  import opened Socket
  import opened Engine
  import opened SocketInvariant
  import opened Invariant
  import opened Notifications

  /** Nothing is opened, and what stays open stays with its holder. */
  ghost predicate Shrinks(k: Kern, k': Kern) {
    forall fd | fd in k'.open :: Holds(k, fd, k'.open[fd])
  }

  /** Every descriptor in the table of host sockets is closed. */
  ghost predicate Shut(s: Sock, k: Kern) {
    forall fd | fd in s.hostSockets :: fd !in k.open
  }

  lemma {:induction false} CloseEachShuts(s: Sock, sid: nat, n: nat, k: Kern)
    requires n <= |s.hs| && TableOk(s)
    ensures Shrinks(k, CloseEach(s, sid, n, k))
    ensures forall fd | fd in s.hostSockets && s.hostSockets[fd] < n :: fd !in CloseEach(s, sid, n, k).open
  {
    if n > 0 {
      CloseEachShuts(s, sid, n - 1, k);
      forall fd | fd in s.hostSockets && s.hostSockets[fd] == n - 1
        ensures InTable(s, n - 1) && s.hs[n - 1].sockfd == fd
      {
      }
      hide InTable;
    }
  }

  /** The socket is cancelled with all host sockets of its table, which are closed. */
  ghost predicate Gone(s: Sock, s': Sock, k: Kern) {
    && s' == s.(cancelled := true, hs := s'.hs) && |s'.hs| == |s.hs|
    && (forall i | 0 <= i < |s.hs| :: s'.hs[i] == s.hs[i].(cancelled := s'.hs[i].cancelled))
    && (forall fd | fd in s.hostSockets && s.hostSockets[fd] < |s.hs| :: s'.hs[s.hostSockets[fd]].cancelled)
    && Shut(s, k)
  }

  lemma RemovedIsGone(s: Sock, k: Kern)
    requires Shut(s, k)
    ensures Gone(s, Removed(s), k)
  {
    forall fd | fd in s.hostSockets && s.hostSockets[fd] < |s.hs|
      ensures Removed(s).hs[s.hostSockets[fd]].cancelled
    {
      assert InTable(s, s.hostSockets[fd]);
    }
    hide InTable;
    hide Shut;
  }

  lemma TablesOk(w: World)
    requires Inv(w)
    ensures forall sid | 0 <= sid < |w.socks| :: TableOk(w.socks[sid])
  {
    forall sid | 0 <= sid < |w.socks|
      ensures TableOk(w.socks[sid])
    {
      SockFacts(w, sid);
    }
    hide Inv;
  }

  // ----------------------------------------------------------------------- close

  lemma UnregisterShuts(w: World, pid: int, fd: int, sid: nat)
    requires Inv(w) && w.Registered(pid, fd) == Some(sid) && sid < |w.socks|
    ensures Gone(w.socks[sid], Unregister(w, pid, fd).socks[sid], Unregister(w, pid, fd).k)
  {
    TablesOk(w);
    hide Inv;
    var s := w.socks[sid];
    CloseEachShuts(s, sid, |s.hs|, w.k);
    assert Shut(s, CloseEach(s, sid, |s.hs|, w.k));
    RemovedIsGone(s, CloseEach(s, sid, |s.hs|, w.k));
    hide Gone;
    hide Removed;
    hide CloseEach;
    hide TableOk;
  }

  /** Close of a number by a known caller: the socket registered there, and only it, is
      removed, and the number is free. */
  lemma CloseIsHandled(w: World, req: Request, o: LoopOracle, pid: int)
    requires Inv(w) && CallerOf(w, req, o) == Some(pid) && req.call.Close?
    ensures var out, sid := HandleReq(w, req, o), w.Registered(pid, req.fd);
            && out.end == Replied && out.reply == Reply(true, 0, 0) && out.wrote.None?
            && |out.w.socks| == |w.socks|
            && (forall p, f :: out.w.Registered(p, f) == if p == pid && f == req.fd then None else w.Registered(p, f))
            && (forall i | 0 <= i < |w.socks| && sid != Some(i) :: out.w.socks[i] == w.socks[i])
            && (sid.Some? ==> sid.value < |w.socks| && Gone(w.socks[sid.value], out.w.socks[sid.value], out.w.k))
  {
    CallerIs(w, req, o);
    var w1 := GetPidFdInfo(w, req.pid, o.pid).0;
    CachesSound(w, w1);
    SoundImplies(w, w1);
    UnregisterIs(w1, pid, req.fd);
    Filed(w1, pid, req.fd);
    if w1.Registered(pid, req.fd).Some? {
      UnregisterShuts(w1, pid, req.fd, w1.Registered(pid, req.fd).value);
    }
    assert HandleReq(w, req, o) == Answered(Unregister(w1, pid, req.fd), CONTINUE) by {
      hide Unregister;
      hide Inv;
      hide Sound;
    }
    hide HandleReq;
    hide GetPidFdInfo;
    hide Unregister;
    hide Removed;
    hide Gone;
    hide Inv;
    hide Sound;
    hide CallerOf;
  }

  // ------------------------------------------------------------------------ exit

  lemma ShrinksTransitive(k0: Kern, k1: Kern, k2: Kern)
    requires Shrinks(k0, k1) && Shrinks(k1, k2)
    ensures Shrinks(k0, k2)
  {
  }

  lemma {:induction false} RemoveEachShuts(w: World, sids: set<nat>, n: nat)
    requires n <= |w.socks| && forall sid | 0 <= sid < |w.socks| :: TableOk(w.socks[sid])
    ensures var w' := RemoveEach(w, sids, n);
            && Shrinks(w.k, w'.k)
            && forall sid | sid in sids && sid < n :: Shut(w.socks[sid], w'.k)
  {
    hide TableOk;
    hide Removed;
    hide CloseEach;
    if n > 0 {
      RemoveEachShuts(w, sids, n - 1);
      RemoveEachIs(w, sids, n - 1);
      var w1, s := RemoveEach(w, sids, n - 1), w.socks[n - 1];
      if n - 1 in sids {
        CloseEachShuts(s, n - 1, |s.hs|, w1.k);
        assert Shut(s, CloseEach(s, n - 1, |s.hs|, w1.k)) by { AllShut(s, n - 1, w1.k); }
        ShrinksTransitive(w.k, w1.k, CloseEach(s, n - 1, |s.hs|, w1.k));
      }
    }
  }

  lemma AllShut(s: Sock, sid: nat, k: Kern)
    requires TableOk(s)
    ensures Shut(s, CloseEach(s, sid, |s.hs|, k))
  {
    CloseEachShuts(s, sid, |s.hs|, k);
    hide CloseEach;
  }

  /** Is the caller a process, rather than one of its threads? */
  predicate IsProcess(w: World, req: Request, o: LoopOracle) {
    if req.pid in w.pidInfos then w.pidInfos[req.pid].pidType.PROCESS? else o.pid.AsProcess?
  }

  /** Every socket of the process is gone, and no other has changed. */
  ghost predicate ProcessGone(w: World, w': World, pid: int) {
    && w'.processes == w.processes - {pid}
    && |w'.socks| == |w.socks|
    && forall sid | 0 <= sid < |w.socks| ::
         if pid in w.processes && sid in SidsOf(w, pid) then Gone(w.socks[sid], w'.socks[sid], w'.k)
         else w'.socks[sid] == w.socks[sid]
  }

  lemma DropProcessShuts(w: World, pid: int)
    requires Inv(w)
    ensures var w' := DropProcess(w, pid);
            && ProcessGone(w, w', pid) && Shrinks(w.k, w'.k)
            && w' == w.(processes := w'.processes, socks := w'.socks, k := w'.k)
  {
    hide Inv;
    hide Removed;
    hide RemoveEach;
    hide TableOk;
    hide Gone;
    hide Shut;
    TablesOk(w);
    var w' := DropProcess(w, pid);
    if pid in w.processes {
      var sids := SidsOf(w, pid);
      RemoveEachIs(w, sids, |w.socks|);
      RemoveEachShuts(w, sids, |w.socks|);
      forall sid | 0 <= sid < |w.socks| && sid in sids
        ensures Gone(w.socks[sid], w'.socks[sid], w'.k)
      {
        RemovedIsGone(w.socks[sid], w'.k);
      }
    }
  }

  lemma GoneStays(w0: World, w: World, w': World, w'': World, pid: int)
    requires ProcessGone(w, w', pid) && Shrinks(w'.k, w''.k)
    requires w0.processes == w.processes && w0.socks == w.socks && w''.processes == w'.processes && w''.socks == w'.socks
    ensures ProcessGone(w0, w'', pid)
  {
  }

  /** What exit leaves behind. A thread is only forgotten; with a process go all of its
      sockets, its registrations, and the descriptors cached for it. */
  ghost predicate ExitListed(w: World, w': World, tid: int, pid: int, process: bool) {
    && w'.pidInfos == w.pidInfos - {tid}
    && (tid in w.pidInfos ==> w.pidInfos[tid].pidfd !in w'.k.open)
    && if process then
         && ProcessGone(w, w', pid)
         && w'.memfds == w.memfds - {pid} && (pid in w.memfds ==> w.memfds[pid] !in w'.k.open)
       else w'.processes == w.processes && w'.socks == w.socks && w'.memfds == w.memfds
  }

  /** Exit of a known caller. */
  lemma ExitIsHandled(w: World, req: Request, o: LoopOracle, pid: int)
    requires Inv(w) && CallerOf(w, req, o) == Some(pid) && (req.call.Exit? || req.call.ExitGroup?)
    ensures var out := HandleReq(w, req, o);
            && out.end == Replied && out.reply == Reply(true, 0, 0) && out.wrote.None?
            && ExitListed(w, out.w, req.pid, pid, IsProcess(w, req, o))
  {
    hide HandleExit;
    hide Inv;
    hide Sound;
    hide ProcessGone;
    hide Gone;
    CallerIs(w, req, o);
    CallerKind(w, req, o);
    var (w1, info) := GetPidFdInfo(w, req.pid, o.pid);
    CachesSound(w, w1);
    SoundImplies(w, w1);
    hide IsProcess;
    hide CallerOf;
    hide GetPidFdInfo;
    ExitShuts(w1, req.pid, info.value);
    if info.value.pidType.PROCESS? {
      GoneThere(w, w1, HandleExit(w1, req.pid, info.value), pid);
    }
  }

  lemma CallerKind(w: World, req: Request, o: LoopOracle)
    requires CallerOf(w, req, o).Some?
    ensures var (w1, info) := GetPidFdInfo(w, req.pid, o.pid);
            && info.Some? && (IsProcess(w, req, o) <==> info.value.pidType.PROCESS?)
            && w1.pidInfos - {req.pid} == w.pidInfos - {req.pid}
            && (req.pid in w.pidInfos ==> req.pid in w1.pidInfos && w1.pidInfos[req.pid] == w.pidInfos[req.pid])
  {
  }

  lemma GoneThere(w0: World, w: World, w': World, pid: int)
    requires ProcessGone(w, w', pid) && w0.processes == w.processes && w0.socks == w.socks
    ensures ProcessGone(w0, w', pid)
  {
  }

  lemma DropPidIs(w: World, tid: int)
    ensures var w' := DropPid(w, tid);
            && w' == w.(pidInfos := w.pidInfos - {tid}, k := w'.k)
            && (tid in w.pidInfos ==> w.pidInfos[tid].pidfd !in w'.k.open)
  {
  }

  lemma DropMemIs(w: World, pid: int)
    ensures var w' := DropMem(w, pid);
            && w' == w.(memfds := w.memfds - {pid}, k := w'.k) && Shrinks(w.k, w'.k)
            && (pid in w.memfds ==> w.memfds[pid] !in w'.k.open)
  {
  }

  lemma StaysShut(k: Kern, k': Kern, fd: int)
    requires Shrinks(k, k') && fd !in k.open
    ensures fd !in k'.open
  {
  }

  lemma ExitShuts(w: World, tid: int, info: PidInfo)
    requires Inv(w)
    ensures ExitListed(w, HandleExit(w, tid, info), tid, info.tgid, info.pidType.PROCESS?)
  {
    hide Inv;
    hide Sound;
    hide DropPid;
    hide DropProcess;
    hide DropMem;
    hide ProcessGone;
    hide Shrinks;
    var w1 := DropPid(w, tid);
    DropPidIs(w, tid);
    CachesSound(w, w1);
    SoundImplies(w, w1);
    if info.pidType.PROCESS? {
      var w2 := DropProcess(w1, info.tgid);
      var w3 := DropMem(w2, info.tgid);
      DropProcessShuts(w1, info.tgid);
      DropMemIs(w2, info.tgid);
      GoneStays(w, w1, w2, w3, info.tgid);
      if tid in w.pidInfos {
        StaysShut(w1.k, w2.k, w.pidInfos[tid].pidfd);
        StaysShut(w2.k, w3.k, w.pidInfos[tid].pidfd);
      }
    }
  }
}
