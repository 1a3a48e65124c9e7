/** Bind and connect on a number that is not registered yet, or stands registered as not
    bypassable: the kernel is asked what the descriptor is, and that decides. */
module FirstCalls {
  import opened Net
  import opened Kernel
  import opened Socket
  import opened Connect
  import opened Rsocket
  import opened Engine
  import opened Invariant
  import opened Dialing
  import opened Progress
  import opened Notifications

  /** The number is unregistered, or its socket is not bypassable. */
  predicate AskedAfresh(w: World, pid: int, fd: int) {
    var sid := w.Registered(pid, fd);
    sid.None? || (sid.value < |w.socks| && w.socks[sid.value].state == NotBypassable)
  }

  /** The inspection that decides: the first on an unregistered number if it finds a usable
      descriptor; otherwise the one made on registering afresh. */
  function Deciding(w: World, pid: int, fd: int, o: LoopOracle): RegOracle {
    if w.Registered(pid, fd).None? && Usable(o.reg) then o.reg else o.rereg
  }

  /** The descriptor can be fetched for each inspection that is made. */
  predicate Fetched(w: World, pid: int, fd: int, o: LoopOracle) {
    && (w.Registered(pid, fd).None? ==> o.reg.getfd.Some?)
    && ((w.Registered(pid, fd).None? && Usable(o.reg)) || o.rereg.getfd.Some?)
  }

  /** A connect that is surely not for the control channel. */
  predicate NoControl(w: World, req: Request, o: LoopOracle, pid: int) {
    w.featureRDMA && req.call.Connect? ==>
      var sid := w.Registered(pid, req.fd);
      if sid.Some? then sid.value < |w.socks| && !MayCarryRsocket(w.featureRDMA, w.socks[sid.value])
      else o.reg.args.None? || o.reg.args.value.domain != 1 || o.reg.args.value.kind != 1
  }

  /** The number is registered anew for what `r` found. */
  ghost predicate Renewed(w: World, w': World, pid: int, fd: int, r: RegOracle) {
    && w' == w.(pidInfos := w'.pidInfos, processes := w'.processes, socks := w'.socks, k := w'.k)
    && var sid := w'.Registered(pid, fd);
       sid.Some? && sid.value < |w'.socks| && w'.socks[sid.value] == Newly(pid, fd, r)
  }

  /** A setting reached with the number registered anew: on to the handler if the descriptor
      is usable, and otherwise the kernel continues. */
  ghost predicate Decided(w: World, st: Setting, pid: int, fd: int, r: RegOracle) {
    && Renewed(w, st.w, pid, fd, r)
    && (Usable(r) ==> st.sid == st.w.Registered(pid, fd) && st.pid == pid)
    && (!Usable(r) ==> st.sid.None? && st.reply == CONTINUE)
  }

  lemma NewlyIs(pid: int, fd: int, r: RegOracle)
    ensures Newly(pid, fd, r).state == if Usable(r) then NotBypassed else NotBypassable
    ensures Newly(pid, fd, r).sockDomain == 1 && Newly(pid, fd, r).sockType == 1 <==>
            r.args.Some? && r.args.value.domain == 1 && r.args.value.kind == 1
    ensures Newly(pid, fd, r).pid == pid
    ensures Usable(r) ==> r.args.Some? && Newly(pid, fd, r) == Fresh(pid, fd, r)
  {
  }

  lemma GateRenews(w: World, pid: int, sid: nat, req: Request, o: LoopOracle)
    requires Inv(w) && w.Registered(pid, req.fd) == Some(sid) && sid < |w.socks| && w.socks[sid].state == NotBypassable
    requires (req.call.Bind? || req.call.Connect?) && pid in w.pidInfos && w.pidInfos[pid].pidType.PROCESS?
    ensures var st := Gate(w, pid, sid, req, o);
            if o.rereg.getfd.Some? then Decided(w, st, pid, req.fd, o.rereg)
            else st.sid.None? && st.reply == CONTINUE && st.w.Registered(pid, req.fd).None?
  {
    UnregisterIs(w, pid, req.fd);
    var w0 := Unregister(w, pid, req.fd);
    hide Inv;
    hide Unregister;
    hide Removed;
    RegistersNew(w0, pid, req.fd, o.rereg);
    NewlyIs(pid, req.fd, o.rereg);
    hide Register;
    hide Newly;
    hide Usable;
  }

  lemma EnterGates(w: World, pid: int, sid: nat, req: Request, o: LoopOracle)
    requires sid < |w.socks|
    requires w.featureRDMA && req.call.Connect? ==> !MayCarryRsocket(w.featureRDMA, w.socks[sid])
    ensures Enter(w, pid, sid, req, o) == Gate(w, pid, sid, req, o)
  {
    hide Gate;
    hide ReadMem;
  }

  /** From the moment the caller is looked up. */
  lemma SettleLooksUp(w: World, req: Request, o: LoopOracle, pid: int) returns (w1: World)
    requires CallerOf(w, req, o) == Some(pid) && ProcessKnown(w, req, o, pid) && IsSocketCall(req.call)
    ensures w1 == w.(pidInfos := w1.pidInfos, k := w1.k)
    ensures pid in w1.pidInfos && w1.pidInfos[pid].pidType.PROCESS?
    ensures var (w2, sid) := Register(w1, pid, req.fd, o.reg);
            Settle(w, req, o) ==
            if sid.None? || sid.value >= |w2.socks| then Over(w2, CONTINUE) else Enter(w2, pid, sid.value, req, o)
  {
    CallerIs(w, req, o);
    w1 := GetPidFdInfo(w, req.pid, o.pid).0;
    hide GetPidFdInfo;
    hide Register;
    hide Enter;
  }

  lemma SettleAnew(w: World, req: Request, o: LoopOracle, pid: int)
    requires Inv(w) && CallerOf(w, req, o) == Some(pid) && ProcessKnown(w, req, o, pid)
    requires (req.call.Bind? || req.call.Connect?) && AskedAfresh(w, pid, req.fd) && NoControl(w, req, o, pid)
    ensures var st := Settle(w, req, o);
            if Fetched(w, pid, req.fd, o) then Decided(w, st, pid, req.fd, Deciding(w, pid, req.fd, o))
            else st.sid.None? && st.reply == CONTINUE && st.w.Registered(pid, req.fd).None?
  {
    hide Inv;
    hide Sound;
    hide Settle;
    hide Enter;
    hide Register;
    hide Gate;
    hide Usable;
    hide Newly;
    hide CallerOf;
    hide ProcessKnown;
    var w1 := SettleLooksUp(w, req, o, pid);
    CachesSound(w, w1);
    SoundImplies(w, w1);
    var sid := w.Registered(pid, req.fd);
    if sid.Some? {
      StandsRegistered(w1, pid, req.fd, o.reg, sid.value);
      EnterGates(w1, pid, sid.value, req, o);
      GateRenews(w1, pid, sid.value, req, o);
    } else {
      RegistersNew(w1, pid, req.fd, o.reg);
      NewlyIs(pid, req.fd, o.reg);
      if o.reg.getfd.Some? {
        RegisterSound(w1, pid, req.fd, o.reg);
        var w2, n := Register(w1, pid, req.fd, o.reg).0, |w.socks|;
        SoundImplies(w1, w2);
        assert w2.socks[n] == Newly(pid, req.fd, o.reg);
        EnterGates(w2, pid, n, req, o);
        if Usable(o.reg) {
          GatePasses(w2, pid, n, req, o);
        } else {
          GateRenews(w2, pid, n, req, o);
        }
      }
    }
  }

  lemma GatePasses(w: World, pid: int, sid: nat, req: Request, o: LoopOracle)
    requires sid < |w.socks| && w.socks[sid].state == NotBypassed
    ensures Gate(w, pid, sid, req, o) == Setting(w, pid, Some(sid), CONTINUE)
  {
  }

  /** What bind comes to on such a number: on a usable descriptor what it comes to on a new
      socket; on any other the kernel continues, and the number is not bypassable. */
  ghost predicate BindAnew(w: World, out: Outcome, pid: int, fd: int, o: LoopOracle, r: RegOracle) {
    var sid := out.w.Registered(pid, fd);
    && out.end == Replied && sid.Some? && sid.value < |out.w.socks|
    && if Usable(r) then
         BindListed(Fresh(pid, fd, r), Readable(w, pid, o), w.de, o.tries, w.featureRDMA,
                    out.w.socks[sid.value], out.reply, out.w.k.honest)
       else out.reply == Reply(true, 0, 0) && out.w.socks[sid.value].state == NotBypassable
  }

  /** Bind reaches its handler if and only if the kernel describes the descriptor as an
      unconnected AF_INET or AF_INET6 stream socket. */
  lemma FirstBind(w: World, req: Request, o: LoopOracle, pid: int)
    requires Inv(w) && CallerOf(w, req, o) == Some(pid) && ProcessKnown(w, req, o, pid)
    requires req.call.Bind? && AskedAfresh(w, pid, req.fd)
    ensures var out := HandleReq(w, req, o);
            if Fetched(w, pid, req.fd, o) then BindAnew(w, out, pid, req.fd, o, Deciding(w, pid, req.fd, o))
            else out.end == Replied && out.reply == Reply(true, 0, 0) && out.w.Registered(pid, req.fd).None?
  {
    hide Inv;
    hide Sound;
    hide Settle;
    hide Dispatch;
    hide Usable;
    hide AskedAfresh;
    hide Fetched;
    hide Deciding;
    hide CallerOf;
    hide ProcessKnown;
    hide BindListed;
    SettleAnew(w, req, o, pid);
    SettleSound(w, req, o);
    var st := Settle(w, req, o);
    SoundImplies(w, st.w);
    if st.sid.Some? && st.sid.value < |st.w.socks| {
      BindOn(st.w, pid, st.sid.value, o);
    }
    NewlyIs(pid, req.fd, Deciding(w, pid, req.fd, o));
  }

  /** Likewise connect. */
  ghost predicate ConnectAnew(w: World, out: Outcome, pid: int, fd: int, o: LoopOracle, r: RegOracle, k1: Kern) {
    var sid := out.w.Registered(pid, fd);
    && sid.Some? && sid.value < |out.w.socks|
    && if Usable(r) then
         var c := HandleConnect(Fresh(pid, fd, r), Readable(w, pid, o), w.cae, w.de, o.draws, w.featureRDMA, o.sendOk, o.addfd.Some?, k1);
         && out.end == (if c.stuck then Waiting else Replied)
         && (!c.stuck ==> ConnectListed(Fresh(pid, fd, r), Readable(w, pid, o), w.cae, w.de, w.featureRDMA, o.addfd.Some?,
                                        c.attempts, out.w.socks[sid.value], out.reply, c.dialed))
       else out.end == Replied && out.reply == Reply(true, 0, 0) && out.w.socks[sid.value].state == NotBypassable
  }

  lemma FirstConnect(w: World, req: Request, o: LoopOracle, pid: int) returns (k1: Kern)
    requires Inv(w) && CallerOf(w, req, o) == Some(pid) && ProcessKnown(w, req, o, pid)
    requires req.call.Connect? && AskedAfresh(w, pid, req.fd) && NoControl(w, req, o, pid)
    ensures var out := HandleReq(w, req, o);
            if Fetched(w, pid, req.fd, o) then ConnectAnew(w, out, pid, req.fd, o, Deciding(w, pid, req.fd, o), k1)
            else out.end == Replied && out.reply == Reply(true, 0, 0) && out.w.Registered(pid, req.fd).None?
  {
    hide Inv;
    hide Sound;
    hide Settle;
    hide Dispatch;
    hide Usable;
    hide AskedAfresh;
    hide Fetched;
    hide Deciding;
    hide NoControl;
    hide CallerOf;
    hide ProcessKnown;
    hide ConnectListed;
    hide HandleConnect;
    SettleAnew(w, req, o, pid);
    NewlyIs(pid, req.fd, Deciding(w, pid, req.fd, o));
    k1 := w.k;
    var st := Settle(w, req, o);
    if st.sid.Some? && st.sid.value < |st.w.socks| {
      k1 := ConnectOn(st.w, pid, st.sid.value, o);
    }
  }

  /** Listen on an unregistered number is left to the kernel, whatever the descriptor is. */
  lemma FirstListen(w: World, req: Request, o: LoopOracle, pid: int)
    requires Inv(w) && CallerOf(w, req, o) == Some(pid) && ProcessKnown(w, req, o, pid)
    requires req.call.Listen? && w.Registered(pid, req.fd).None? && o.reg.getfd.Some?
    ensures var out := HandleReq(w, req, o);
            var sid := out.w.Registered(pid, req.fd);
            && out.end == Replied && out.reply == Reply(true, 0, 0)
            && sid.Some? && sid.value < |out.w.socks| && out.w.socks[sid.value].state == NotBypassable
  {
    hide Inv;
    hide Settle;
    hide Register;
    hide Newly;
    hide Usable;
    hide CallerOf;
    hide ProcessKnown;
    hide HandleListen;
    var w1 := SettleLooksUp(w, req, o, pid);
    RegistersNew(w1, pid, req.fd, o.reg);
    NewlyIs(pid, req.fd, o.reg);
    var w2, n := Register(w1, pid, req.fd, o.reg).0, |w.socks|;
    assert w2.socks[n] == Newly(pid, req.fd, o.reg);
    EnterGates(w2, pid, n, req, o);
    if Usable(o.reg) {
      GatePasses(w2, pid, n, req, o);
      ListenOn(w2, pid, n, o);
      hide Dispatch;
    }
  }

  // -------------------------------------------------------------- control channel

  /** An AF_UNIX address whose path is "tiaccoon-rsocket-control". */
  predicate NamesControl(buf: Bytes) {
    && |buf| >= 110 && buf[0] == 1 && buf[1] == 0
    && buf[2..26] == [116, 105, 97, 99, 99, 111, 111, 110, 45, 114, 115, 111, 99, 107, 101, 116, 45, 99, 111, 110, 116, 114, 111, 108]
    && buf[26] == 0
  }

  /** The caller's socket and address are those of the control channel, and a socket pair can
      be had and injected. */
  predicate TakesControl(w: World, o: LoopOracle, pid: int, s: Sock) {
    && s.sockDomain == 1 && s.sockType == 1
    && Readable(w, pid, o).Some? && NamesControl(Readable(w, pid, o).value)
    && o.pair.Some? && o.addfd.Some?
  }

  lemma ControlPath(buf: Bytes)
    ensures UnixPath(buf) == Some(CONTROL_PATH) <==> NamesControl(buf)
  {
    PathExactly(buf, CONTROL_PATH);
    hide UnixPath;
  }

  lemma RsocketExactly(w: World, pid: int, sid: nat, o: LoopOracle)
    requires sid < |w.socks| && w.socks[sid].pid == pid
    ensures var (w', done) := InitializeRsocket(w, sid, o);
            && (done <==> TakesControl(w, o, pid, w.socks[sid]))
            && (done ==> w'.processes == w.processes && w'.socks == w.socks[sid := w.socks[sid].(state := Bypassed)])
  {
    MemIs(w, pid, o);
    var (w1, buf) := ReadMem(w, pid, o);
    if buf.Some? {
      ControlPath(buf.value);
    }
    hide ReadMem;
    hide UnixPath;
    hide NamesControl;
    hide Readable;
  }

  /** A connect is taken over for the control channel, with the feature on, if it is for it:
      answered with success, its socket bypassed and nothing else changed. */
  lemma ControlIsTaken(w: World, req: Request, o: LoopOracle, pid: int, sid: nat)
    requires Inv(w) && Speaks(w, req, o, pid, sid) && req.call.Connect?
    requires w.featureRDMA && TakesControl(w, o, pid, w.socks[sid])
    ensures var out := HandleReq(w, req, o);
            && out.end == Replied && out.reply == Reply(false, 0, 0) && out.wrote.None?
            && Only(w, out.w, sid) && out.w.socks[sid] == w.socks[sid].(state := Bypassed)
  {
    hide InitializeRsocket;
    hide TakesControl;
    hide GetPidFdInfo;
    FiledAs(w, pid, req.fd, sid);
    hide Inv;
    CallerIs(w, req, o);
    var w1 := GetPidFdInfo(w, req.pid, o.pid).0;
    SameControl(w, w1, o, pid, w.socks[sid]);
    RsocketExactly(w1, pid, sid, o);
    RsocketTouches(w1, sid, o);
    SettleEnters(w, req, o, pid, sid);
    hide Settle;
    hide CallerOf;
    hide Gate;
    hide Dispatch;
  }

  lemma SameControl(w: World, w': World, o: LoopOracle, pid: int, s: Sock)
    requires w'.memfds == w.memfds
    ensures TakesControl(w', o, pid, s) == TakesControl(w, o, pid, s)
  {
    hide NamesControl;
  }
}
