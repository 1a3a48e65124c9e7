/** The options a container asks for: recorded as asked over every run, replayed on every
    host socket that is made, and what becomes of those asked for later. */
module Options {
  import opened Net
  import opened Sockaddrs
  import opened Kernel
  import opened Socket
  import opened Connect
  import opened Engine
  import opened SocketInvariant
  import opened Invariant
  import opened Effects
  import opened HostSockets
  import opened Runs
  import AC = AccessControl
  import D = Destination

  // ----------------------------------------------------------------- what is asked

  /** What a step asks: an option, on a virtual socket or on none of this handler. `onto` is
      the host descriptor on which it is set or repeated, if it is and the descriptor is
      there. */
  datatype Asking = Nothing | Asks(sid: Option<nat>, opt: HostOpt, onto: Option<int>)

  function Onto(s: Sock, callOk: bool, k: Kern): Option<int> {
    if (s.state.Binded? || s.state.Listening?) && callOk && s.sockfd in k.open then Some(s.sockfd) else None
  }

  /** The socket registered for the process and number of a request, at the latest now. */
  function LookedUp(w: World, req: Request, o: LoopOracle): (World, int, Option<nat>) {
    var (w1, info) := GetPidFdInfo(w, req.pid, o.pid);
    if info.None? then (w1, 0, None)
    else
      var (w2, sid) := Register(w1, info.value.tgid, req.fd, o.reg);
      (w2, info.value.tgid, sid)
  }

  /** A setsockopt whose value can be read, or an fcntl F_SETFL (4), on a socket that is
      neither bypassed nor out of the engine's hands. */
  function AskAt(w: World, pid: int, sid: nat, call: Call, o: LoopOracle): Asking
    requires sid < |w.socks|
  {
    var s := w.socks[sid];
    match call
    case Setsockopt(level, optname, optlen) =>
      var (w1, optval) := ReadMem(w, pid, o);
      if optval.None? then Nothing
      else Asks(Some(sid), Opt(SockOpt(level, optname, optval.value, optlen)), Onto(s, o.callOk, w1.k))
    case Fcntl(cmd, value) =>
      if cmd == F_SETFL then Asks(Some(sid), Fl(FcntlOpt(cmd, value)), Onto(s, o.callOk, w.k)) else Nothing
    case _ => Nothing
  }

  function AskOf(w: World, st: Step): Asking {
    if st.EnvSets? then Asks(None, st.opt, if st.fd in w.k.open then Some(st.fd) else None)
    else if !st.Loop? then Nothing
    else
      var (w1, pid, sid) := LookedUp(w, st.req, st.o);
      if sid.None? || sid.value >= |w1.socks| || Settled(w1.socks[sid.value]) then Nothing
      else AskAt(w1, pid, sid.value, st.req.call, st.o)
  }

  function OptOn(a: Asking, sid: nat): seq<SockOpt> {
    if a.Asks? && a.sid == Some(sid) && a.opt.Opt? then [a.opt.opt] else []
  }

  function FlOn(a: Asking, sid: nat): seq<FcntlOpt> {
    if a.Asks? && a.sid == Some(sid) && a.opt.Fl? then [a.opt.fl] else []
  }

  function Repeated(a: Asking, fd: int): seq<HostOpt> {
    if a.Asks? && a.onto == Some(fd) then [a.opt] else []
  }

  /** The socket options asked for on a virtual socket during the first `n` steps. */
  ghost function AskedOpts(c: Config, run: seq<Step>, n: nat, sid: nat): seq<SockOpt>
    requires n <= |run|
  {
    if n == 0 then [] else AskedOpts(c, run, n - 1, sid) + OptOn(AskOf(c.At(run, n - 1), run[n - 1]), sid)
  }

  /** Likewise the file status flags. */
  ghost function AskedFls(c: Config, run: seq<Step>, n: nat, sid: nat): seq<FcntlOpt>
    requires n <= |run|
  {
    if n == 0 then [] else AskedFls(c, run, n - 1, sid) + FlOn(AskOf(c.At(run, n - 1), run[n - 1]), sid)
  }

  // -------------------------------------------------------- one step, asked and done

  /** What is recorded for a socket; nothing yet for one that is still to be made. */
  function OptsIn(socks: seq<Sock>, sid: nat): seq<SockOpt> {
    if sid < |socks| then socks[sid].socketOptions else []
  }

  function FlsIn(socks: seq<Sock>, sid: nat): seq<FcntlOpt> {
    if sid < |socks| then socks[sid].fcntlOptions else []
  }

  /** The lists grow by what is asked. */
  ghost predicate Recorded(socks: seq<Sock>, socks': seq<Sock>, a: Asking) {
    && |socks| <= |socks'| && (a.Asks? && a.sid.Some? ==> a.sid.value < |socks'|)
    && forall sid | 0 <= sid < |socks'| ::
         && socks'[sid].socketOptions == OptsIn(socks, sid) + OptOn(a, sid)
         && socks'[sid].fcntlOptions == FlsIn(socks, sid) + FlOn(a, sid)
  }

  /** Descriptors not handed out anew get what is repeated on them, and nothing else. */
  ghost predicate Applied(k: Kern, k': Kern, a: Asking) {
    forall fd ::
      && k.Births(fd) <= k'.Births(fd)
      && (k'.Births(fd) == k.Births(fd) ==> k'.OptsOf(fd) == k.OptsOf(fd) + Repeated(a, fd))
  }

  lemma NothingRecorded(socks: seq<Sock>, socks': seq<Sock>)
    requires ListsKept(socks, socks')
    ensures Recorded(socks, socks', Nothing)
  {
  }

  lemma NothingApplied(k: Kern, k': Kern)
    requires Steady(k, k')
    ensures Applied(k, k', Nothing)
  {
    hide Kern.OptsOf;
    hide Kern.Births;
  }

  lemma RecordedAfter(s0: seq<Sock>, s1: seq<Sock>, s2: seq<Sock>, a: Asking)
    requires ListsKept(s0, s1) && Recorded(s1, s2, a)
    ensures Recorded(s0, s2, a)
  {
    hide OptOn;
    hide FlOn;
  }

  lemma AppliedAfter(k0: Kern, k1: Kern, k2: Kern, a: Asking)
    requires Steady(k0, k1) && Applied(k1, k2, a)
    ensures Applied(k0, k2, a)
  {
    hide Kern.OptsOf;
    hide Kern.Births;
    hide Repeated;
    forall fd
      ensures k0.Births(fd) <= k2.Births(fd)
      ensures k2.Births(fd) == k0.Births(fd) ==> k2.OptsOf(fd) == k0.OptsOf(fd) + Repeated(a, fd)
    {
      assert k0.Births(fd) <= k1.Births(fd) <= k2.Births(fd);
    }
  }

  /** A socket option set late: recorded, and repeated on the descriptor of the
      container's own number, whatever that is in the host process. */
  lemma SetsockoptExactly(s: Sock, sid: nat, opt: SockOpt, callOk: bool, k: Kern)
    ensures var h, a := HandleSetsockopt(s, Some(opt), callOk, k), Asks(Some(sid), Opt(opt), Onto(s, callOk, k));
            && h.s.socketOptions == s.socketOptions + [opt] && h.s.fcntlOptions == s.fcntlOptions
            && Applied(k, h.k, a)
            && (forall fd :: h.k.OptsOf(fd) == k.OptsOf(fd) + Repeated(a, fd))
  {
  }

  /** Likewise file status flags; any other fcntl at most duplicates a descriptor, which is
      then open and held by nobody. */
  lemma FcntlExactly(s: Sock, sid: nat, cmd: nat, value: nat, callOk: bool, dup: Option<int>, k: Kern)
    ensures var h, a := HandleFcntl(s, cmd, value, callOk, dup, k), Asks(Some(sid), Fl(FcntlOpt(cmd, value)), Onto(s, callOk, k));
            && h.s.socketOptions == s.socketOptions
            && (cmd == 4 ==>
                  && h.s.fcntlOptions == s.fcntlOptions + [FcntlOpt(cmd, value)]
                  && Applied(k, h.k, a)
                  && (forall fd :: h.k.OptsOf(fd) == k.OptsOf(fd) + Repeated(a, fd)))
            && (cmd != 4 ==>
                  && h.s == s && Applied(k, h.k, Nothing)
                  && ((s.state.Binded? || s.state.Listening?) && dup.Some? ==> Holds(h.k, dup.value, Loose)))
  {
  }

  lemma SetRecorded(socks: seq<Sock>, sid: nat, s: Sock, a: Asking)
    requires sid < |socks|
    requires a.Asks? ==> a.sid == Some(sid)
    requires s.socketOptions == socks[sid].socketOptions + OptOn(a, sid)
    requires s.fcntlOptions == socks[sid].fcntlOptions + FlOn(a, sid)
    ensures Recorded(socks, socks[sid := s], a)
  {
  }

  /** A handler's result, reached through a world that only caches. */
  lemma LiftAsks(w: World, w1: World, sid: nat, h: Handled, a: Asking)
    requires w1.socks == w.socks && Steady(w.k, w1.k) && sid < |w.socks|
    requires Applied(w1.k, h.k, a) && (a.Asks? ==> a.sid == Some(sid))
    requires h.s.socketOptions == w.socks[sid].socketOptions + OptOn(a, sid)
    requires h.s.fcntlOptions == w.socks[sid].fcntlOptions + FlOn(a, sid)
    ensures Recorded(w.socks, Lift(w1, sid, h).w.socks, a) && Applied(w.k, Lift(w1, sid, h).w.k, a)
  {
    hide Steady;
    hide Recorded;
    hide Applied;
    hide OptOn;
    hide FlOn;
    AppliedAfter(w.k, w1.k, h.k, a);
    SetRecorded(w.socks, sid, h.s, a);
  }

  lemma DispatchSetsockopt(w: World, pid: int, sid: nat, call: Call, o: LoopOracle)
    requires sid < |w.socks| && call.Setsockopt?
    ensures var w', a := Dispatch(w, pid, sid, call, o).w, AskAt(w, pid, sid, call, o);
            Recorded(w.socks, w'.socks, a) && Applied(w.k, w'.k, a)
  {
    hide Onto;
    hide ReadMem;
    hide Steady;
    hide ListsKept;
    hide HostsKept;
    hide Recorded;
    hide Applied;
    hide Lift;
    MemAside(w, pid, o, ZERO_SOCKADDR);
    var (w1, optval) := ReadMem(w, pid, o);
    var s, a := w1.socks[sid], AskAt(w, pid, sid, call, o);
    KernSteady(w1.k, 0, Loose);
    NothingApplied(w1.k, w1.k);
    if optval.Some? {
      SetsockoptExactly(s, sid, SockOpt(call.level, call.optname, optval.value, call.optlen), o.callOk, w1.k);
    }
    var opt := if optval.None? then None else Some(SockOpt(call.level, call.optname, optval.value, call.optlen));
    var h := HandleSetsockopt(s, opt, o.callOk, w1.k);
    assert optval.None? ==> h == Handled(s, CONTINUE, w1.k);
    hide HandleSetsockopt;
    LiftAsks(w, w1, sid, h, a);
  }

  lemma DispatchFcntl(w: World, pid: int, sid: nat, call: Call, o: LoopOracle)
    requires sid < |w.socks| && call.Fcntl?
    ensures var w', a := Dispatch(w, pid, sid, call, o).w, AskAt(w, pid, sid, call, o);
            Recorded(w.socks, w'.socks, a) && Applied(w.k, w'.k, a)
  {
    hide Onto;
    hide Steady;
    hide Recorded;
    hide Applied;
    hide Lift;
    hide HandleFcntl;
    KernSteady(w.k, 0, Loose);
    FcntlExactly(w.socks[sid], sid, call.cmd, call.value, o.callOk, o.dup, w.k);
    LiftAsks(w, w, sid, HandleFcntl(w.socks[sid], call.cmd, call.value, o.callOk, o.dup, w.k), AskAt(w, pid, sid, call, o));
  }

  /** Only the calls that ask for an option record or apply any. */
  lemma DispatchAsks(w: World, pid: int, sid: nat, call: Call, o: LoopOracle)
    requires sid < |w.socks|
    ensures var w', a := Dispatch(w, pid, sid, call, o).w, AskAt(w, pid, sid, call, o);
            Recorded(w.socks, w'.socks, a) && Applied(w.k, w'.k, a)
  {
    hide Dispatch;
    hide Recorded;
    hide Applied;
    hide Onto;
    hide ReadMem;
    if call.Setsockopt? {
      DispatchSetsockopt(w, pid, sid, call, o);
    } else if call.Fcntl? {
      DispatchFcntl(w, pid, sid, call, o);
    } else {
      DispatchEffect(w, pid, sid, call, o);
      var w' := Dispatch(w, pid, sid, call, o).w;
      NothingRecorded(w.socks, w'.socks);
      NothingApplied(w.k, w'.k);
    }
    hide Steady;
    hide ListsKept;
  }

  /** The handler of a call that sets options runs on the socket it resolves to, or not
      at all. */
  lemma SettleOption(w: World, req: Request, o: LoopOracle)
    requires IsOption(req.call)
    ensures var st, (w1, pid, sid) := Settle(w, req, o), LookedUp(w, req, o);
            && st.w == w1
            && if sid.None? || sid.value >= |w1.socks| || Settled(w1.socks[sid.value]) then st.sid.None?
               else st.sid == sid && st.pid == pid
  {
    hide GetPidFdInfo;
    hide Register;
    hide Unregister;
    hide InitializeRsocket;
  }

  lemma LoopAsks(w: World, req: Request, o: LoopOracle)
    requires Inv(w)
    ensures var w', a := HandleReq(w, req, o).w, AskOf(w, Loop(req, o));
            Recorded(w.socks, w'.socks, a) && Applied(w.k, w'.k, a)
  {
    hide Inv;
    hide Settle;
    hide Dispatch;
    hide LookedUp;
    hide AskAt;
    hide Recorded;
    hide Applied;
    hide Steady;
    hide ListsKept;
    var st := Settle(w, req, o);
    SettleAside(w, req, o);
    NothingRecorded(w.socks, st.w.socks);
    NothingApplied(w.k, st.w.k);
    if st.sid.Some? && st.sid.value < |st.w.socks| {
      var sid := st.sid.value;
      DispatchAsks(st.w, st.pid, sid, req.call, o);
      var w' := Dispatch(st.w, st.pid, sid, req.call, o).w;
      RecordedAfter(w.socks, st.w.socks, w'.socks, AskAt(st.w, st.pid, sid, req.call, o));
      AppliedAfter(w.k, st.w.k, w'.k, AskAt(st.w, st.pid, sid, req.call, o));
      AskedThere(w, req, o);
    } else {
      AskedThere(w, req, o);
    }
  }

  lemma AskedThere(w: World, req: Request, o: LoopOracle)
    ensures var st := Settle(w, req, o);
            AskOf(w, Loop(req, o)) ==
            if st.sid.None? || st.sid.value >= |st.w.socks| then Nothing else AskAt(st.w, st.pid, st.sid.value, req.call, o)
  {
    if IsOption(req.call) {
      SettleOption(w, req, o);
      hide AskAt;
    }
    hide Settle;
    hide LookedUp;
  }

  lemma SameRecorded(socks: seq<Sock>, a: Asking)
    requires a.Asks? ==> a.sid.None?
    ensures Recorded(socks, socks, a)
  {
  }

  lemma WorkerAsks(w: World, sid: nat, wi: nat, wo: WorkOracle)
    ensures var w' := Engine.Do(w, Step.Worker(sid, wi, wo));
            Recorded(w.socks, w'.socks, Nothing) && Applied(w.k, w'.k, Nothing)
  {
    hide WorkStep;
    hide Applied;
    hide Steady;
    hide Recorded;
    KernSteady(w.k, 0, Loose);
    NothingApplied(w.k, w.k);
    if sid < |w.socks| && wi < |w.socks[sid].workers| && w.socks[sid].workers[wi].listener < |w.socks[sid].hs| {
      WorkSteady(w.socks[sid], sid, wi, wo, w.sae, w.now, w.k);
      var (s, k) := WorkStep(w.socks[sid], sid, wi, wo, w.sae, w.now, w.k);
      NothingApplied(w.k, k);
      WorkLists(w.socks[sid], sid, wi, wo, w.sae, w.now, w.k);
      SetRecorded(w.socks, sid, s, Nothing);
    } else {
      SameRecorded(w.socks, Nothing);
    }
  }

  lemma WorkLists(s: Sock, sid: nat, wi: nat, o: WorkOracle, sae: AC.Acl, now: nat, k: Kern)
    requires wi < |s.workers| && s.workers[wi].listener < |s.hs|
    ensures var s' := WorkStep(s, sid, wi, o, sae, now, k).0;
            s'.socketOptions == s.socketOptions && s'.fcntlOptions == s.fcntlOptions
  {
    hide Peer;
    hide AC.Acl.Apply;
  }

  lemma TablesAsk(w: World, st: Step)
    requires !st.Loop? && !st.Worker? && !st.EnvSets?
    ensures Recorded(w.socks, Engine.Do(w, st).socks, Nothing) && Applied(w.k, Engine.Do(w, st).k, Nothing)
  {
    hide *;
    DoTables(w, st);
    TablesSteady(w, st);
    NothingApplied(w.k, Engine.Do(w, st).k);
    SameRecorded(w.socks, Nothing);
  }

  /** The rest of the host process sets an option. */
  lemma StrayAsks(w: World, fd: int, opt: HostOpt)
    ensures var w', a := Engine.Do(w, EnvSets(fd, opt)), AskOf(w, EnvSets(fd, opt));
            Recorded(w.socks, w'.socks, a) && Applied(w.k, w'.k, a)
  {
    SameRecorded(w.socks, AskOf(w, EnvSets(fd, opt)));
    hide Recorded;
  }

  lemma TablesSteady(w: World, st: Step)
    requires !st.Loop? && !st.Worker? && !st.EnvSets?
    ensures Steady(w.k, Engine.Do(w, st).k)
  {
    hide D.Do;
    hide AC.Do;
    hide HandleReq;
    hide WorkStep;
    hide Steady;
    KernSteady(w.k, if st.EnvOpens? || st.EnvCloses? then st.fd else 0, Env);
  }

  /** Every step records what it asks and applies what it repeats, and nothing else. */
  lemma NextAsks(w: World, st: Step)
    requires Inv(w)
    ensures Recorded(w.socks, Next(w, st).socks, AskOf(w, st)) && Applied(w.k, Next(w, st).k, AskOf(w, st))
  {
    hide Inv;
    hide HandleReq;
    hide WorkStep;
    hide Recorded;
    hide Applied;
    match st {
      case Loop(req, o) => LoopAsks(w, req, o); hide AskOf;
      case Worker(sid, wi, wo) => WorkerAsks(w, sid, wi, wo);
      case EnvSets(fd, opt) => StrayAsks(w, fd, opt);
      case _ => TablesAsk(w, st);
    }
    hide Engine.Do;
  }

  // ------------------------------------------------------------- recorded as asked

  lemma RecordedMore(socks: seq<Sock>, socks': seq<Sock>, a: Asking, sid: nat)
    requires Recorded(socks, socks', a)
    ensures OptsIn(socks', sid) == OptsIn(socks, sid) + OptOn(a, sid)
    ensures FlsIn(socks', sid) == FlsIn(socks, sid) + FlOn(a, sid)
  {
  }

  /** At every moment of every run the options recorded for a socket are those the
      requests of the run have asked for on it, in order. */
  lemma {:induction false} RecordedAsAsked(c: Config, run: seq<Step>, n: nat, sid: nat)
    requires n <= |run|
    ensures AskedOpts(c, run, n, sid) == OptsIn(c.At(run, n).socks, sid)
    ensures AskedFls(c, run, n, sid) == FlsIn(c.At(run, n).socks, sid)
  {
    hide AskOf;
    hide Next;
    hide Inv;
    hide Applied;
    hide Recorded;
    hide Evolves;
    hide Config.At;
    hide OptOn;
    hide FlOn;
    if n == 0 {
      AtStart(c, run);
    } else {
      hide OptsIn;
      hide FlsIn;
      var w, st := c.At(run, n - 1), run[n - 1];
      RecordedAsAsked(c, run, n - 1, sid);
      Reachable(c, run, n - 1, n - 1);
      AtNext(c, run, n - 1);
      NextAsks(w, st);
      RecordedMore(w.socks, Next(w, st).socks, AskOf(w, st), sid);
    }
  }

  // --------------------------------------------------------------- option replay

  /** Host socket `hid` of virtual socket `sid` was made on the way from `w` to `w'`. */
  predicate NewHost(w: World, w': World, sid: nat, hid: nat) {
    sid < |w'.socks| && hid < |w'.socks[sid].hs| && (sid < |w.socks| ==> hid >= |w.socks[sid].hs|)
  }

  /** Every host socket that is new carries what is recorded on its virtual socket. */
  ghost predicate Replayed(w: World, w': World) {
    && (w'.k.honest ==> forall sid: nat, hid: nat | NewHost(w, w', sid, hid) ::
          w'.k.OptsOf(w'.socks[sid].hs[hid].sockfd) == AllOpts(w'.socks[sid]))
    && (forall i | |w.conns| <= i < |w'.conns| ::
          w'.conns[i].sid < |w'.socks| && w'.k.OptsOf(w'.conns[i].fd) == AllOpts(w'.socks[w'.conns[i].sid]))
  }

  lemma NoneReplayed(w: World, w': World)
    requires HostsKept(w.socks, w'.socks) && w'.conns == w.conns
    ensures Replayed(w, w')
  {
    forall sid: nat, hid: nat | NewHost(w, w', sid, hid)
      ensures false
    {
    }
  }

  lemma ReplayedAfter(w: World, w1: World, w': World)
    requires HostsKept(w.socks, w1.socks) && w1.conns == w.conns && Replayed(w1, w')
    ensures Replayed(w, w')
  {
    hide AllOpts;
    forall sid: nat, hid: nat | NewHost(w, w', sid, hid)
      ensures NewHost(w1, w', sid, hid)
    {
    }
  }

  lemma BindMade(w: World, sid: nat, h: Handled)
    requires sid < |w.socks| && AllOpts(h.s) == AllOpts(w.socks[sid])
    requires h.k.honest ==> forall hid | 0 <= hid < |h.s.hs| :: h.k.OptsOf(h.s.hs[hid].sockfd) == AllOpts(w.socks[sid])
    ensures Replayed(w, Lift(w, sid, h).w)
  {
    hide AllOpts;
    hide Kern.OptsOf;
  }

  lemma DoBindReplays(w: World, pid: int, sid: nat, o: LoopOracle)
    requires Inv(w) && sid < |w.socks|
    ensures Replayed(w, DoBind(w, pid, sid, o).w)
  {
    SockFacts(w, sid);
    hide Inv;
    hide Valid;
    hide Replayed;
    hide Steady;
    hide HandleBind;
    hide AllOpts;
    hide Lift;
    hide ReadMem;
    MemAside(w, pid, o, ZERO_SOCKADDR);
    NoneReplayed(w, w);
    if w.socks[sid].state == NotBypassed {
      UnboundHasNothing(w.socks[sid], w.featureRDMA);
      hide SockOk;
      var (w1, buf) := ReadMem(w, pid, o);
      BindReplays(w1.socks[sid], sid, buf, w1.de, o.tries, w1.featureRDMA, w1.k);
      BindLists(w1.socks[sid], sid, buf, w1.de, o.tries, w1.featureRDMA, w1.k);
      var h := HandleBind(w1.socks[sid], sid, buf, w1.de, o.tries, w1.featureRDMA, w1.k);
      SameOptions(w1.socks[sid], h.s);
      BindMade(w1, sid, h);
      ReplayedAfter(w, w1, Lift(w1, sid, h).w);
    }
  }

  /** The host socket connect succeeded with carries what is recorded. */
  lemma ConnectReplays(s: Sock, buf: Option<Bytes>, cae: AC.Acl, de: D.Dest, draws: seq<Draw>, featureRDMA: bool,
                       sendOk: bool, addFdOk: bool, k: Kern)
    ensures var c := HandleConnect(s, buf, cae, de, draws, featureRDMA, sendOk, addFdOk, k);
            && c.s.socketOptions == s.socketOptions && c.s.fcntlOptions == s.fcntlOptions
            && (c.dialed.Some? ==> c.k.OptsOf(c.dialed.value) == AllOpts(s))
  {
    hide Parse;
    hide AC.Acl.Apply;
    hide D.Dest.GetClient;
    hide Handshake;
    hide AllOpts;
    hide TryClasses;
    if buf.Some? && Parse(buf.value).Some? {
      var s1 := s.(remote := Parse(buf.value).value);
      SameOptions(s, s1);
      SelectConfigures(s1, 0, de.GetClient(s1.remote.ip, s1.remote.port), [], draws, featureRDMA, k);
    }
  }

  lemma DialledReplays(w: World, sid: nat, c: Connected)
    requires sid < |w.socks| && |c.s.hs| == |w.socks[sid].hs|
    requires c.dialed.Some? ==> c.k.OptsOf(c.dialed.value) == AllOpts(c.s)
    ensures Replayed(w, Dialled(w, sid, c))
  {
    hide AllOpts;
    hide Kern.OptsOf;
    var w' := Dialled(w, sid, c);
    forall sid': nat, hid: nat | NewHost(w, w', sid', hid)
      ensures false
    {
    }
  }

  lemma DoConnectReplays(w: World, sid: nat, o: LoopOracle)
    requires sid < |w.socks|
    ensures Replayed(w, DoConnect(w, sid, o).w)
  {
    hide Replayed;
    hide Steady;
    hide HandleConnect;
    hide Dialled;
    hide AllOpts;
    hide ReadMem;
    hide Valid;
    var pid := w.socks[sid].pid;
    MemAside(w, pid, o, ZERO_SOCKADDR);
    NoneReplayed(w, w);
    var (w1, buf) := ReadMem(w, pid, o);
    var s := w1.socks[sid];
    var c := HandleConnect(s, buf, w1.cae, w1.de, o.draws, w1.featureRDMA, o.sendOk, o.addfd.Some?, w1.k);
    ConnectReplays(s, buf, w1.cae, w1.de, o.draws, w1.featureRDMA, o.sendOk, o.addfd.Some?, w1.k);
    ConnectTouches(s, buf, w1.cae, w1.de, o.draws, w1.featureRDMA, o.sendOk, o.addfd.Some?, w1.k);
    SameOptions(s, c.s);
    DialledReplays(w1, sid, c);
    ReplayedAfter(w, w1, Dialled(w1, sid, c));
  }

  lemma LoopReplays(w: World, req: Request, o: LoopOracle)
    requires Inv(w)
    ensures Replayed(w, HandleReq(w, req, o).w)
  {
    hide Inv;
    hide Settle;
    hide Replayed;
    hide Steady;
    hide ListsKept;
    hide HostsKept;
    hide Sound;
    SettleAside(w, req, o);
    SettleSound(w, req, o);
    var st := Settle(w, req, o);
    SoundImplies(w, st.w);
    if st.sid.Some? {
      var w' := Dispatch(st.w, st.pid, st.sid.value, req.call, o).w;
      DispatchEffect(st.w, st.pid, st.sid.value, req.call, o);
      match req.call {
        case Bind => DoBindReplays(st.w, st.pid, st.sid.value, o);
        case Connect => DoConnectReplays(st.w, st.sid.value, o);
        case _ => NoneReplayed(st.w, w');
      }
      hide Dispatch;
      ReplayedAfter(w, st.w, w');
    } else {
      NoneReplayed(w, st.w);
    }
  }

  /** The options of a descriptor are what was asked for on a virtual socket so far: all
      setsockopt calls in order, then all F_SETFL calls in order. */
  ghost predicate UpToDate(c: Config, run: seq<Step>, n: nat, sid: nat, fd: int) {
    n <= |run| && InReplayOrder(c.At(run, n).k.OptsOf(fd), AskedOpts(c, run, n, sid), AskedFls(c, run, n, sid))
  }

  lemma NextReplays(w: World, st: Step)
    requires Inv(w) && st.Loop?
    ensures Replayed(w, Next(w, st))
  {
    LoopReplays(w, st.req, st.o);
    hide Inv;
    hide HandleReq;
    hide AllOpts;
    hide Kern.OptsOf;
    hide NewHost;
    assert forall sid: nat, hid: nat :: NewHost(w, Next(w, st), sid, hid) == NewHost(w, HandleReq(w, st.req, st.o).w, sid, hid) by {
      SameNewHosts(w, HandleReq(w, st.req, st.o).w, Next(w, st));
    }
  }

  lemma SameNewHosts(w: World, w1: World, w2: World)
    requires w2.socks == w1.socks
    ensures forall sid: nat, hid: nat :: NewHost(w, w2, sid, hid) == NewHost(w, w1, sid, hid)
  {
  }

  lemma RecordedIsUpToDate(c: Config, run: seq<Step>, n: nat, sid: nat, fd: int)
    requires n <= |run| && sid < |c.At(run, n).socks|
    requires c.At(run, n).k.OptsOf(fd) == AllOpts(c.At(run, n).socks[sid])
    ensures UpToDate(c, run, n, sid, fd)
  {
    RecordedAsAsked(c, run, n, sid);
    AllOptsInOrder(c.At(run, n).socks[sid]);
    hide Config.At;
    hide AllOpts;
    hide InReplayOrder;
    hide AskedOpts;
    hide AskedFls;
    hide Kern.OptsOf;
  }

  /** Whenever a notification makes a host socket, by bind or by connect, on a virtual
      socket old, new or registered afresh, it carries what was asked for. */
  lemma OptionReplay(c: Config, run: seq<Step>, n: nat)
    requires n < |run| && run[n].Loop?
    ensures var w, w' := c.At(run, n), c.At(run, n + 1);
            && (w'.k.honest ==> forall sid: nat, hid: nat | NewHost(w, w', sid, hid) ::
                  UpToDate(c, run, n + 1, sid, w'.socks[sid].hs[hid].sockfd))
            && (forall i | |w.conns| <= i < |w'.conns| :: UpToDate(c, run, n + 1, w'.conns[i].sid, w'.conns[i].fd))
  {
    hide Config.At;
    hide Inv;
    hide Evolves;
    hide AllOpts;
    hide Next;
    hide UpToDate;
    hide Kern.OptsOf;
    var w, w' := c.At(run, n), c.At(run, n + 1);
    Reachable(c, run, n, n);
    AtNext(c, run, n);
    NextReplays(w, run[n]);
    if w'.k.honest {
      forall sid: nat, hid: nat | NewHost(w, w', sid, hid)
        ensures UpToDate(c, run, n + 1, sid, w'.socks[sid].hs[hid].sockfd)
      {
        RecordedIsUpToDate(c, run, n + 1, sid, w'.socks[sid].hs[hid].sockfd);
      }
    }
    forall i | |w.conns| <= i < |w'.conns|
      ensures UpToDate(c, run, n + 1, w'.conns[i].sid, w'.conns[i].fd)
    {
      RecordedIsUpToDate(c, run, n + 1, w'.conns[i].sid, w'.conns[i].fd);
    }
  }

  // ------------------------------------------------------------------ late options

  /** One more option, asked for on the virtual socket or set on the descriptor. */
  lemma OneMoreOption(applied: seq<HostOpt>, opts: seq<SockOpt>, fls: seq<FcntlOpt>, opt: HostOpt, asked: bool, repeated: bool)
    requires InReplayOrder(applied, opts, fls)
    ensures var opts' := opts + if asked && opt.Opt? then [opt.opt] else [];
            var fls' := fls + if asked && opt.Fl? then [opt.fl] else [];
            InReplayOrder(applied + if repeated then [opt] else [], opts', fls') <==>
            asked == repeated && (asked && opt.Opt? ==> fls == [])
  {
    if asked && repeated && opt.Opt? && fls != [] {
      assert (applied + [opt])[|opts|] == Fl(fls[0]);
    }
  }

  /** On a bound socket: a host socket that carried what was recorded carries it after one
      more setsockopt if and only if the call is repeated on that very descriptor, and no
      file status flags are recorded; after one more F_SETFL, if and only if it is repeated
      on that descriptor. */
  lemma LateOptionExactly(s: Sock, opt: SockOpt, value: nat, callOk: bool, dup: Option<int>, k: Kern, fd: int)
    requires s.state.Binded? || s.state.Listening?
    requires fd in k.open && InReplayOrder(k.OptsOf(fd), s.socketOptions, s.fcntlOptions)
    ensures var h := HandleSetsockopt(s, Some(opt), callOk, k);
            && h.k.OptsOf(fd) == k.OptsOf(fd) + (if callOk && fd == s.sockfd then [Opt(opt)] else [])
            && (InReplayOrder(h.k.OptsOf(fd), h.s.socketOptions, h.s.fcntlOptions) <==>
                callOk && fd == s.sockfd && s.fcntlOptions == [])
    ensures var h := HandleFcntl(s, F_SETFL, value, callOk, dup, k);
            && h.k.OptsOf(fd) == k.OptsOf(fd) + (if callOk && fd == s.sockfd then [Fl(FcntlOpt(F_SETFL, value))] else [])
            && (InReplayOrder(h.k.OptsOf(fd), h.s.socketOptions, h.s.fcntlOptions) <==> callOk && fd == s.sockfd)
  {
    hide InReplayOrder;
    SetsockoptExactly(s, 0, opt, callOk, k);
    FcntlExactly(s, 0, F_SETFL, value, callOk, dup, k);
    assert s.socketOptions + [] == s.socketOptions && s.fcntlOptions + [] == s.fcntlOptions;
    OneMoreOption(k.OptsOf(fd), s.socketOptions, s.fcntlOptions, Opt(opt), true, callOk && fd == s.sockfd);
    OneMoreOption(k.OptsOf(fd), s.socketOptions, s.fcntlOptions, Fl(FcntlOpt(F_SETFL, value)), true, callOk && fd == s.sockfd);
    hide Kern.OptsOf;
    hide HandleSetsockopt;
    hide HandleFcntl;
    hide Applied;
  }

  /** For instance: the container's socket 3 is bound to host socket 7, and SO_KEEPALIVE is
      then set on it. The host socket does not get it. */
  lemma LateOptionIsMissed()
    ensures var s := NewSock(Binded, 1, 3, DOMAIN_INET, SOCK_STREAM, 0);
            var k := Kern(map[7 := Host(0)], map[7 := []], map[7 := 1], true, 0);
            var h := HandleSetsockopt(s, Some(SockOpt(1, 9, [1, 0, 0, 0], 4)), true, k);
            && InReplayOrder(k.OptsOf(7), s.socketOptions, s.fcntlOptions)
            && |h.s.socketOptions| == 1 && h.k.OptsOf(7) == []
            && !InReplayOrder(h.k.OptsOf(7), h.s.socketOptions, h.s.fcntlOptions)
  {
  }

  /** Step `i` asks for an option on virtual socket `sid` exactly if it is repeated on `fd`,
      and for a socket option only while no file status flags have been asked for. */
  ghost predicate KeepsPace(c: Config, run: seq<Step>, i: nat, sid: nat, fd: int) {
    i < |run| &&
    var a := AskOf(c.At(run, i), run[i]);
    a.Asks? ==>
      && (a.sid == Some(sid) <==> a.onto == Some(fd))
      && (a.sid == Some(sid) && a.opt.Opt? ==> AskedFls(c, run, i, sid) == [])
  }

  /** A call is repeated, if at all, under the container's own number. */
  lemma OntoOwnNumber(w: World, st: Step, sid: nat)
    requires Inv(w) && sid < |w.socks|
    ensures var a := AskOf(w, st);
            a.Asks? && a.sid == Some(sid) ==> a.onto == None || a.onto == Some(w.socks[sid].sockfd)
  {
    hide Inv;
    hide LookedUp;
    hide ReadMem;
    if st.Loop? {
      LookedUpKeeps(w, st.req, st.o);
    }
  }

  /** Looking a socket up changes none that is there. */
  lemma LookedUpKeeps(w: World, req: Request, o: LoopOracle)
    requires Inv(w)
    ensures w.socks <= LookedUp(w, req, o).0.socks
  {
    hide Inv;
    hide Sound;
    hide GetPidFdInfo;
    hide Register;
    var (w1, info) := GetPidFdInfo(w, req.pid, o.pid);
    CachesOnly(w, req.pid, o.pid, ZERO_SOCKADDR, o);
    CachesSound(w, w1);
    SoundImplies(w, w1);
    if info.Some? {
      RegisterSound(w1, info.value.tgid, req.fd, o.reg);
    }
  }

  /** A host socket under another number than the container's keeps pace exactly while
      nothing is asked for on the virtual socket, and nothing repeated on it for another. */
  lemma ElsewhereKeepsPace(c: Config, run: seq<Step>, i: nat, sid: nat, fd: int)
    requires i < |run| && sid < |c.At(run, i).socks| && c.At(run, i).socks[sid].sockfd != fd
    ensures var a := AskOf(c.At(run, i), run[i]);
            KeepsPace(c, run, i, sid, fd) <==> (a.Asks? ==> a.sid != Some(sid) && a.onto != Some(fd))
  {
    Reachable(c, run, i, i);
    OntoOwnNumber(c.At(run, i), run[i], sid);
    hide Config.At;
    hide AskOf;
    hide Inv;
    hide Evolves;
  }

  /** The number was last handed out before step `m`. */
  ghost predicate SameSince(c: Config, run: seq<Step>, m: nat, n: nat, fd: int)
    requires m <= n <= |run|
  {
    c.At(run, m).k.Births(fd) == c.At(run, n).k.Births(fd)
  }

  lemma StepKeepsUpToDate(c: Config, run: seq<Step>, n: nat, sid: nat, fd: int)
    requires n < |run| && UpToDate(c, run, n, sid, fd) && SameSince(c, run, n, n + 1, fd)
    ensures UpToDate(c, run, n + 1, sid, fd) <==> KeepsPace(c, run, n, sid, fd)
  {
    var w, st := c.At(run, n), run[n];
    Reachable(c, run, n, n);
    AtNext(c, run, n);
    NextAsks(w, st);
    hide Config.At;
    hide Inv;
    hide Evolves;
    hide Next;
    hide AskOf;
    hide Recorded;
    hide InReplayOrder;
    hide Kern.OptsOf;
    var a := AskOf(w, st);
    var opts, fls := AskedOpts(c, run, n, sid), AskedFls(c, run, n, sid);
    assert opts + [] == opts && fls + [] == fls && w.k.OptsOf(fd) + [] == w.k.OptsOf(fd);
    if a.Asks? {
      OneMoreOption(w.k.OptsOf(fd), opts, fls, a.opt, a.sid == Some(sid), a.onto == Some(fd));
    }
  }

  lemma {:induction false} BirthsGrow(c: Config, run: seq<Step>, m: nat, n: nat, fd: int)
    requires m <= n <= |run|
    ensures c.At(run, m).k.Births(fd) <= c.At(run, n).k.Births(fd)
  {
    hide Config.At;
    hide Inv;
    hide Evolves;
    hide Next;
    hide Kern.Births;
    hide AskOf;
    hide Recorded;
    if m < n {
      BirthsGrow(c, run, m, n - 1, fd);
      Reachable(c, run, n - 1, n - 1);
      AtNext(c, run, n - 1);
      NextAsks(c.At(run, n - 1), run[n - 1]);
    }
  }

  /** As long as its number is not handed out anew, a host socket that carries what was
      asked for keeps carrying what is asked for if and only if every step keeps pace. */
  lemma {:induction false} StaysUpToDate(c: Config, run: seq<Step>, m: nat, n: nat, sid: nat, fd: int)
    requires m <= n <= |run| && UpToDate(c, run, m, sid, fd) && SameSince(c, run, m, n, fd)
    ensures (forall i: nat | m <= i <= n :: UpToDate(c, run, i, sid, fd)) <==>
            (forall i: nat | m <= i < n :: KeepsPace(c, run, i, sid, fd))
  {
    hide UpToDate;
    hide KeepsPace;
    hide Config.At;
    if m < n {
      BirthsGrow(c, run, m, n - 1, fd);
      BirthsGrow(c, run, n - 1, n, fd);
      StaysUpToDate(c, run, m, n - 1, sid, fd);
      if UpToDate(c, run, n - 1, sid, fd) {
        StepKeepsUpToDate(c, run, n - 1, sid, fd);
      }
    }
  }

  /** A host socket made by bind in step `n` carries at every later moment what has been
      asked for by then, if and only if every step since keeps pace: as long as the kernel
      is honest in that step and does not hand out the number anew. */
  lemma BoundStaysUpToDate(c: Config, run: seq<Step>, n: nat, m: nat, sid: nat, hid: nat)
    requires n < m <= |run| && run[n].Loop?
    requires NewHost(c.At(run, n), c.At(run, n + 1), sid, hid) && c.At(run, n + 1).k.honest
    requires SameSince(c, run, n + 1, m, c.At(run, n + 1).socks[sid].hs[hid].sockfd)
    ensures var fd := c.At(run, n + 1).socks[sid].hs[hid].sockfd;
            (forall i: nat | n < i <= m :: UpToDate(c, run, i, sid, fd)) <==>
            (forall i: nat | n < i < m :: KeepsPace(c, run, i, sid, fd))
  {
    hide Config.At;
    hide UpToDate;
    hide KeepsPace;
    hide SameSince;
    OptionReplay(c, run, n);
    StaysUpToDate(c, run, n + 1, m, sid, c.At(run, n + 1).socks[sid].hs[hid].sockfd);
  }
}
