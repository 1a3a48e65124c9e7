/** Host sockets: how they are configured before use, and who accepts on them. */
module HostSockets {
  import opened Net
  import opened Sockaddrs
  import opened Kernel
  import opened Socket
  import opened Connect
  import opened SocketInvariant
  import D = Destination

  // ---------------------------------------------------------------- option replay

  /** All socket options first, then all file status flags, each in recording order. */
  predicate InReplayOrder(applied: seq<HostOpt>, opts: seq<SockOpt>, fls: seq<FcntlOpt>) {
    && |applied| == |opts| + |fls|
    && (forall i | 0 <= i < |opts| :: applied[i] == Opt(opts[i]))
    && (forall i | 0 <= i < |fls| :: applied[|opts| + i] == Fl(fls[i]))
  }

  /** A prepared socket carries all options; no other socket's are touched, unless the
      kernel hands out a number that is open. */
  lemma PrepareConfigures(s: Sock, o: Try, k: Kern)
    ensures var k' := Prepare(s, o, k);
            && (forall fd :: fd in k.open ==> fd in k'.open)
            && (forall fd :: (o.fd.None? || fd != o.fd.value) ==> k'.OptsOf(fd) == k.OptsOf(fd))
            && (o.fd.Some? && Configured(s, o) ==> o.fd.value in k'.open && k'.OptsOf(o.fd.value) == AllOpts(s))
  {
    if o.fd.Some? {
      assert k.Open(o.fd.value, Loose).OptsOf(o.fd.value) == [];
      assert [] + AllOpts(s) == AllOpts(s);
    }
  }

  /** With an honest kernel every host socket made carries the options recorded, and is
      the one filed under its descriptor. */
  ghost predicate AllConfigured(s: Sock, b: Binding) {
    && b.s == s.(hs := b.s.hs, hostSockets := b.s.hostSockets)
    && (b.k.honest ==> forall hid | 0 <= hid < |b.s.hs| ::
          var fd := b.s.hs[hid].sockfd;
          && fd in b.k.open && b.k.OptsOf(fd) == AllOpts(s)
          && fd in b.s.hostSockets && b.s.hostSockets[fd] == hid)
  }

  lemma SameOptions(s: Sock, s': Sock)
    requires s'.socketOptions == s.socketOptions && s'.fcntlOptions == s.fcntlOptions
    ensures AllOpts(s') == AllOpts(s)
  {
  }

  /** The kernel around one bind: other descriptors are left alone; on success the new
      one was not open, and is configured. */
  lemma BoundDescriptor(s: Sock, e: D.Entry, o: Try, k: Kern)
    ensures var k', d := AfterBind(s, e, o, k), TransportBind(s, e, o);
            && (k'.honest ==> k.honest)
            && (k'.honest ==> forall fd | fd in k.open :: fd in k'.open && k'.OptsOf(fd) == k.OptsOf(fd))
            && (d.Fd? ==> d.fd in k'.open && k'.OptsOf(d.fd) == AllOpts(s) && (k'.honest ==> d.fd !in k.open))
  {
    PrepareConfigures(s, o, k);
    PrepareHonest(s, o, k);
    hide Prepare;
    hide AllOpts;
    hide Kern.OptsOf;
  }

  lemma BindOneConfigures(s: Sock, b: Binding, sid: nat, e: D.Entry, o: Try, featureRDMA: bool)
    requires AllConfigured(s, b)
    ensures AllConfigured(s, BindOne(b, sid, e, o, featureRDMA))
  {
    BoundDescriptor(b.s, e, o, b.k);
    SameOptions(s, b.s);
    hide AfterBind;
    hide TransportBind;
    hide AllOpts;
  }

  lemma {:induction false} BindEachConfigures(s: Sock, sid: nat, entries: seq<D.Entry>, os: seq<Try>, n: nat, featureRDMA: bool, k: Kern)
    requires n <= |entries| && s.hs == []
    ensures AllConfigured(s, BindEach(s, sid, entries, os, n, featureRDMA, k))
  {
    if n > 0 {
      BindEachConfigures(s, sid, entries, os, n - 1, featureRDMA, k);
      BindOneConfigures(s, BindEach(s, sid, entries, os, n - 1, featureRDMA, k), sid, entries[n - 1], TryAt(os, n - 1), featureRDMA);
      hide AllConfigured;
      hide BindOne;
    }
  }

  lemma PrepareHonest(s: Sock, o: Try, k: Kern)
    ensures Prepare(s, o, k).honest ==> k.honest && (o.fd.Some? ==> o.fd.value !in k.open)
  {
  }

  lemma {:induction false} ClassConfigures(s: Sock, c: nat, entries: seq<D.Entry>, tried: set<nat>, attempts: seq<Attempt>,
                                           draws: seq<Draw>, featureRDMA: bool, k: Kern)
    ensures var p := TryClass(s, c, entries, tried, attempts, draws, featureRDMA, k);
            p.result.Via? ==> p.k.OptsOf(p.result.fd) == AllOpts(s)
    decreases |draws|
  {
    if |tried| < |entries| && draws != [] {
      var n, o := Intn(draws[0].n, |entries|), draws[0].o;
      if n in tried {
        ClassConfigures(s, c, entries, tried, attempts, draws[1..], featureRDMA, k);
      } else {
        PrepareConfigures(s, o, k);
        var attempts' := attempts + [Attempt(c, n, entries[n], o)];
        ClassConfigures(s, c, entries, tried + {n}, attempts', draws[1..], featureRDMA, AfterConnect(s, entries[n], o, k));
        hide Prepare;
        hide AllOpts;
      }
    }
  }

  lemma {:induction false} SelectConfigures(s: Sock, c: nat, classes: seq<seq<D.Entry>>, attempts: seq<Attempt>,
                                            draws: seq<Draw>, featureRDMA: bool, k: Kern)
    requires c <= |classes|
    ensures var p := TryClasses(s, c, classes, attempts, draws, featureRDMA, k);
            p.result.Via? ==> p.k.OptsOf(p.result.fd) == AllOpts(s)
    decreases |classes| - c
  {
    hide AllOpts;
    if c < |classes| {
      ClassConfigures(s, c, classes[c], {}, attempts, draws, featureRDMA, k);
      var p := TryClass(s, c, classes[c], {}, attempts, draws, featureRDMA, k);
      hide TryClass;
      if p.result.AllFailed? {
        SelectConfigures(s, c + 1, classes, p.attempts, p.rest, featureRDMA, p.k);
      }
    }
  }

  lemma AllOptsInOrder(s: Sock)
    ensures InReplayOrder(AllOpts(s), s.socketOptions, s.fcntlOptions)
  {
  }

  /** What bind leaves behind, with an honest kernel: every host socket carries the options
      recorded, and is the one filed under its descriptor. */
  lemma BindReplays(s: Sock, sid: nat, buf: Option<Bytes>, de: D.Dest, os: seq<Try>, featureRDMA: bool, k: Kern)
    requires s.hs == []
    ensures var h := HandleBind(s, sid, buf, de, os, featureRDMA, k);
            h.k.honest ==> forall hid | 0 <= hid < |h.s.hs| ::
              var fd := h.s.hs[hid].sockfd;
              h.k.OptsOf(fd) == AllOpts(s) && fd in h.s.hostSockets && h.s.hostSockets[fd] == hid
  {
    hide Parse;
    hide AllOpts;
    hide D.Dest.GetServer;
    if buf.Some? && Parse(buf.value).Some? {
      var s1 := s.(local := Parse(buf.value).value);
      var entries := de.GetServer(s1.local.port);
      SameOptions(s, s1);
      BindEachConfigures(s1, sid, entries, os, |entries|, featureRDMA, k);
      hide BindEach;
    }
  }

  // ------------------------------------------------------------ accept goroutines

  /** Can this host socket be listened on? */
  predicate CanListen(s: Sock, hid: nat, listens: set<int>)
    requires hid < |s.hs|
  {
    InTable(s, hid) && s.hs[hid].state == HostSocketBinded && !s.hs[hid].entry.transport.RDMA? && s.hs[hid].sockfd in listens
  }

  /** The host sockets among the first `n` that can be listened on, in order. */
  function Listenable(s: Sock, listens: set<int>, n: nat): (r: seq<nat>)
    requires n <= |s.hs|
    ensures forall i | 0 <= i < |r| :: r[i] < n
  {
    if n == 0 then []
    else Listenable(s, listens, n - 1) + if CanListen(s, n - 1, listens) then [n - 1] else []
  }

  lemma {:induction false} ListenableIs(s: Sock, listens: set<int>, n: nat)
    requires n <= |s.hs|
    ensures var r := Listenable(s, listens, n);
            && (forall hid: nat :: hid in r <==> hid < n && CanListen(s, hid, listens))
            && (forall i, j | 0 <= i < j < |r| :: r[i] < r[j])
  {
    hide CanListen;
    if n > 0 {
      ListenableIs(s, listens, n - 1);
    }
  }

  function Started(hids: seq<nat>): seq<Worker> {
    seq(|hids|, i requires 0 <= i < |hids| => Socket.Worker.Worker(hids[i], Poll, []))
  }

  /** What becomes of a host socket when its virtual socket is listened on: one that is bound
      and in the table is listened on if it can be, and is in error otherwise. */
  function Heard(s: Sock, hid: nat, listens: set<int>): HostSocketState
    requires hid < |s.hs|
  {
    if InTable(s, hid) && s.hs[hid].state == HostSocketBinded then
      if !s.hs[hid].entry.transport.RDMA? && s.hs[hid].sockfd in listens then HostSocketListening else HostSocketError
    else s.hs[hid].state
  }

  /** The first `n` host sockets have been visited. */
  ghost predicate Visited(s: Sock, r: Sock, listens: set<int>, n: nat)
    requires n <= |s.hs|
  {
    && r == s.(hs := r.hs, workers := s.workers + Started(Listenable(s, listens, n))) && |r.hs| == |s.hs|
    && (forall i | 0 <= i < n :: r.hs[i] == s.hs[i].(state := Heard(s, i, listens)))
    && (forall i | n <= i < |s.hs| :: r.hs[i] == s.hs[i])
  }

  lemma ListenOneVisits(s: Sock, r: Sock, listens: set<int>, hid: nat)
    requires hid < |s.hs| && |r.hs| == |s.hs| && r.hostSockets == s.hostSockets && r.hs[hid] == s.hs[hid]
    ensures ListenOne(r, hid, listens) ==
            r.(hs := r.hs[hid := s.hs[hid].(state := Heard(s, hid, listens))],
               workers := r.workers + Started(if CanListen(s, hid, listens) then [hid] else []))
  {
    assert InTable(r, hid) == InTable(s, hid);
    hide InTable;
    assert r.hs[hid := r.hs[hid]] == r.hs && r.workers + [] == r.workers;
  }

  lemma StartedAppend(a: seq<nat>, b: seq<nat>)
    ensures Started(a + b) == Started(a) + Started(b)
  {
  }

  lemma {:induction false} ListenEachVisits(s: Sock, listens: set<int>, n: nat)
    requires n <= |s.hs|
    ensures Visited(s, ListenEach(s, n, listens), listens, n)
  {
    hide CanListen;
    hide ListenOne;
    hide Heard;
    if n > 0 {
      ListenEachVisits(s, listens, n - 1);
      var r := ListenEach(s, n - 1, listens);
      ListenOneVisits(s, r, listens, n - 1);
      StartedAppend(Listenable(s, listens, n - 1), if CanListen(s, n - 1, listens) then [n - 1] else []);
      hide Started;
    } else {
      assert s.workers + Started([]) == s.workers;
    }
  }

  /** What listen leaves and answers from each state. On a bound socket every host socket that
      can be listened on is, with one goroutine for each; it succeeds if there is one, and
      with the RDMA feature always. */
  ghost predicate ListenListed(s: Sock, listens: set<int>, featureRDMA: bool, s': Sock, reply: Reply) {
    match s.state
    case Listening => s' == s && reply == Reply(false, 98, 0)
    case NotBypassable => s' == s && reply == Reply(true, 0, 0)
    case NotBypassed => s' == s.(state := NotBypassable) && reply == Reply(true, 0, 0)
    case Bypassed => s' == s.(state := NotBypassable) && reply == Reply(true, 0, 0)
    case Error => s' == s.(state := NotBypassable) && reply == Reply(true, 0, 0)
    case Binded =>
      && Visited(s, s'.(state := Binded), listens, |s.hs|)
      && if featureRDMA || exists hid | 0 <= hid < |s.hs| :: CanListen(s, hid, listens)
         then s'.state == Listening && reply == Reply(false, 0, 0)
         else s'.state == Error && reply == Reply(false, 13, 0)
  }

  lemma AnyStarted(hids: seq<nat>)
    ensures |Started(hids)| == |hids|
  {
  }

  lemma AnyListenable(s: Sock, listens: set<int>)
    ensures |Started(Listenable(s, listens, |s.hs|))| > 0 <==> exists hid | 0 <= hid < |s.hs| :: CanListen(s, hid, listens)
  {
    hide CanListen;
    var r := Listenable(s, listens, |s.hs|);
    AnyStarted(r);
    ListenableIs(s, listens, |s.hs|);
    hide Listenable;
    hide Started;
    assert |r| > 0 ==> CanListen(s, r[0], listens);
    forall hid | 0 <= hid < |s.hs| && CanListen(s, hid, listens)
      ensures |r| > 0
    {
      assert hid in r;
    }
  }

  lemma ListenExactly(s: Sock, listens: set<int>, featureRDMA: bool, k: Kern)
    ensures var h := HandleListen(s, listens, featureRDMA, k);
            h.k == k && ListenListed(s, listens, featureRDMA, h.s, h.reply)
  {
    hide CanListen;
    hide Started;
    hide ListenEach;
    hide Listenable;
    hide Heard;
    if s.state == Binded {
      ListenEachVisits(s, listens, |s.hs|);
      AnyListenable(s, listens);
    }
  }

  /** Listen puts every host socket that can be listened on into listening and starts
      one goroutine for each, and without the RDMA feature it succeeds exactly if
      there is one. */
  lemma ListenStartsGoroutines(s: Sock, listens: set<int>, featureRDMA: bool, k: Kern)
    requires SockOk(s, featureRDMA) && s.state == Binded
    ensures var h := HandleListen(s, listens, featureRDMA, k);
            && h.s.workers == Started(Listenable(s, listens, |s.hs|))
            && |h.s.hs| == |s.hs|
            && (forall hid | 0 <= hid < |s.hs| && CanListen(s, hid, listens) :: h.s.hs[hid].state == HostSocketListening)
            && (h.reply == Emulated(0) <==> h.s.state == Listening)
            && (h.s.state == Listening <==> featureRDMA || exists hid | 0 <= hid < |s.hs| :: CanListen(s, hid, listens))
  {
    NotYetListening(s, featureRDMA);
    ListenExactly(s, listens, featureRDMA, k);
    assert [] + Started(Listenable(s, listens, |s.hs|)) == Started(Listenable(s, listens, |s.hs|));
    hide SockOk;
    hide HandleListen;
    hide Listenable;
    hide Started;
    hide InTable;
  }

  lemma NotYetListening(s: Sock, featureRDMA: bool)
    requires SockOk(s, featureRDMA) && s.state == Binded
    ensures s.workers == []
  {
  }
}
