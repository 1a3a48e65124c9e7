/** What connect comes to, told by the outcomes of its attempts and by transports, without
    the search: which entries are tried, in which order, and which one is used. */
module Dialing {
  import opened Net
  import opened Sockaddrs
  import opened Kernel
  import opened Socket
  import opened Transports
  import opened Connect
  import AC = AccessControl
  import D = Destination

  /** The last attempt, if there is one and it succeeded. */
  predicate EndsWell(s: Sock, attempts: seq<Attempt>, featureRDMA: bool) {
    attempts != [] && Succeeds(s, attempts[|attempts| - 1].entry, attempts[|attempts| - 1].o, featureRDMA)
  }

  /** What connect leaves and answers, by whether the address can be read and is allowed,
      whether anything is registered for it, and how the attempts ended. */
  ghost predicate ConnectListed(s: Sock, buf: Option<Bytes>, cae: AC.Acl, de: D.Dest, featureRDMA: bool, addFdOk: bool,
                                attempts: seq<Attempt>, s': Sock, reply: Reply, dialed: Option<int>) {
    if buf.None? || Parse(buf.value).None? then
      s' == s.(state := NotBypassable) && reply == Reply(true, 0, 0) && dialed.None?
    else
      var s1 := s.(remote := Parse(buf.value).value);
      if !cae.Apply(s1.remote.ip) || de.GetClient(s1.remote.ip, s1.remote.port) == [] || !EndsWell(s, attempts, featureRDMA) then
        s' == s1.(state := Error) && reply == Reply(false, 13, 0) && dialed.None?
      else if attempts[|attempts| - 1].entry.transport.RDMA? then
        s' == s1.(state := Bypassed) && reply == Reply(false, 0, 999 + 16) && dialed.None?
      else
        && dialed.Some? && dialed == attempts[|attempts| - 1].o.fd
        && s' == s1.(state := if addFdOk then Bypassed else NotBypassable)
        && reply == if addFdOk then Reply(false, 0, 0) else Reply(true, 0, 0)
  }

  ghost predicate TriedInVain(s: Sock, attempts: seq<Attempt>, e: D.Entry, featureRDMA: bool) {
    exists a | 0 <= a < |attempts| :: attempts[a].entry == e && !Succeeds(s, e, attempts[a].o, featureRDMA)
  }

  /** Search made of draws: each attempt's outcome is one the environment gave. */
  ghost predicate Drawn(attempts: seq<Attempt>, draws: seq<Draw>) {
    forall a | 0 <= a < |attempts| :: exists d | 0 <= d < |draws| :: draws[d].o == attempts[a].o
  }

  lemma DrawnMore(attempts: seq<Attempt>, a: Attempt, draws: seq<Draw>, d: nat)
    requires Drawn(attempts, draws) && d < |draws| && draws[d].o == a.o
    ensures Drawn(attempts + [a], draws)
  {
    var attempts' := attempts + [a];
    forall i | 0 <= i < |attempts'|
      ensures exists d | 0 <= d < |draws| :: draws[d].o == attempts'[i].o
    {
      if i < |attempts| {
        assert attempts'[i] == attempts[i];
      }
    }
  }

  /** What is left of the draws. */
  ghost predicate Left(draws: seq<Draw>, all: seq<Draw>) {
    |draws| <= |all| && all[|all| - |draws|..] == draws
  }

  lemma LeftNext(draws: seq<Draw>, all: seq<Draw>)
    requires draws != [] && Left(draws, all)
    ensures Left(draws[1..], all) && |draws| <= |all| && all[|all| - |draws|] == draws[0]
  {
  }

  lemma {:induction false} ClassDrawn(s: Sock, c: nat, entries: seq<D.Entry>, tried: set<nat>, attempts: seq<Attempt>,
                                      draws: seq<Draw>, featureRDMA: bool, k: Kern, all: seq<Draw>)
    requires Drawn(attempts, all) && Left(draws, all)
    ensures var p := TryClass(s, c, entries, tried, attempts, draws, featureRDMA, k);
            Drawn(p.attempts, all) && Left(p.rest, all)
    decreases |draws|
  {
    if |tried| < |entries| && draws != [] {
      var n, o := Intn(draws[0].n, |entries|), draws[0].o;
      LeftNext(draws, all);
      hide Left;
      hide AfterConnect;
      hide TransportConnect;
      hide Intn;
      if n in tried {
        ClassDrawn(s, c, entries, tried, attempts, draws[1..], featureRDMA, k, all);
      } else {
        var a := Attempt(c, n, entries[n], o);
        DrawnMore(attempts, a, all, |all| - |draws|);
        hide Drawn;
        ClassDrawn(s, c, entries, tried + {n}, attempts + [a], draws[1..], featureRDMA, AfterConnect(s, entries[n], o, k), all);
      }
    }
  }

  lemma {:induction false} ClassesDrawn(s: Sock, c: nat, classes: seq<seq<D.Entry>>, attempts: seq<Attempt>,
                                        draws: seq<Draw>, featureRDMA: bool, k: Kern, all: seq<Draw>)
    requires c <= |classes| && Drawn(attempts, all) && Left(draws, all)
    ensures Drawn(TryClasses(s, c, classes, attempts, draws, featureRDMA, k).attempts, all)
    decreases |classes| - c
  {
    if c < |classes| {
      ClassDrawn(s, c, classes[c], {}, attempts, draws, featureRDMA, k, all);
      var p := TryClass(s, c, classes[c], {}, attempts, draws, featureRDMA, k);
      hide TryClass;
      hide Drawn;
      hide Left;
      if p.result.AllFailed? {
        ClassesDrawn(s, c + 1, classes, p.attempts, p.rest, featureRDMA, p.k, all);
      }
    }
  }

  lemma SameSuccess(s: Sock, s': Sock, e: D.Entry, o: Try, featureRDMA: bool)
    requires s'.socketOptions == s.socketOptions && s'.fcntlOptions == s.fcntlOptions
    ensures Succeeds(s', e, o, featureRDMA) == Succeeds(s, e, o, featureRDMA)
  {
  }

  /** How the search ends, by the last attempt alone. */
  lemma SelectEnds(x: Context, draws: seq<Draw>, k: Kern)
    ensures var p := Select(x.s, x.classes, draws, x.featureRDMA, k);
            && (p.result.AllFailed? ==> !EndsWell(x.s, p.attempts, x.featureRDMA))
            && (p.result.ViaRdma? || p.result.Via? ==> EndsWell(x.s, p.attempts, x.featureRDMA))
  {
    SelectEstablishes(x, draws, k);
    hide Select;
    hide Succeeds;
  }

  lemma {:induction false} ClassResult(s: Sock, c: nat, entries: seq<D.Entry>, tried: set<nat>, attempts: seq<Attempt>,
                                       draws: seq<Draw>, featureRDMA: bool, k: Kern)
    ensures var p := TryClass(s, c, entries, tried, attempts, draws, featureRDMA, k);
            && (p.result.Via? ==> p.attempts != [] && var last := p.attempts[|p.attempts| - 1];
                                  !last.entry.transport.RDMA? && last.o.fd == Some(p.result.fd))
            && (p.result.ViaRdma? ==> p.attempts != [] && p.attempts[|p.attempts| - 1].entry.transport.RDMA?)
    decreases |draws|
  {
    if |tried| < |entries| && draws != [] {
      var n, o := Intn(draws[0].n, |entries|), draws[0].o;
      if n in tried {
        ClassResult(s, c, entries, tried, attempts, draws[1..], featureRDMA, k);
      } else {
        ConnectsExactly(s, entries[n], o);
        hide TransportConnect;
        hide AfterConnect;
        var attempts' := attempts + [Attempt(c, n, entries[n], o)];
        ClassResult(s, c, entries, tried + {n}, attempts', draws[1..], featureRDMA, AfterConnect(s, entries[n], o, k));
      }
    }
  }

  lemma {:induction false} SelectResult(s: Sock, c: nat, classes: seq<seq<D.Entry>>, attempts: seq<Attempt>,
                                        draws: seq<Draw>, featureRDMA: bool, k: Kern)
    requires c <= |classes|
    ensures var p := TryClasses(s, c, classes, attempts, draws, featureRDMA, k);
            && (p.result.Via? ==> p.attempts != [] && var last := p.attempts[|p.attempts| - 1];
                                  !last.entry.transport.RDMA? && last.o.fd == Some(p.result.fd))
            && (p.result.ViaRdma? ==> p.attempts != [] && p.attempts[|p.attempts| - 1].entry.transport.RDMA?)
    decreases |classes| - c
  {
    if c < |classes| {
      ClassResult(s, c, classes[c], {}, attempts, draws, featureRDMA, k);
      var p := TryClass(s, c, classes[c], {}, attempts, draws, featureRDMA, k);
      hide TryClass;
      if p.result.AllFailed? {
        SelectResult(s, c + 1, classes, p.attempts, p.rest, featureRDMA, p.k);
      }
    }
  }

  /** The outcome of connect, exactly, unless it is still trying. */
  lemma ConnectExactly(s: Sock, buf: Option<Bytes>, cae: AC.Acl, de: D.Dest, draws: seq<Draw>, featureRDMA: bool,
                       sendOk: bool, addFdOk: bool, k: Kern)
    ensures var c := HandleConnect(s, buf, cae, de, draws, featureRDMA, sendOk, addFdOk, k);
            && Drawn(c.attempts, draws)
            && (c.stuck ==> c.s == s && c.dialed.None?)
            && (!c.stuck ==> ConnectListed(s, buf, cae, de, featureRDMA, addFdOk, c.attempts, c.s, c.reply, c.dialed))
            && (c.dialed.Some? ==> c.dialed.value !in c.k.open)
  {
    DialedIsClosed(s, buf, cae, de, draws, featureRDMA, sendOk, addFdOk, k);
    hide Kern.Close;
    hide Parse;
    hide AC.Acl.Apply;
    hide D.Dest.GetClient;
    hide Handshake;
    hide TryClasses;
    hide Drawn;
    assert Drawn([], draws) by { NothingDrawn(draws); }
    if buf.Some? && Parse(buf.value).Some? {
      var s1 := s.(remote := Parse(buf.value).value);
      var classes := de.GetClient(s1.remote.ip, s1.remote.port);
      var p := Select(s1, classes, draws, featureRDMA, k);
      SelectEnds(Context(s1, classes, featureRDMA), draws, k);
      SelectResult(s1, 0, classes, [], draws, featureRDMA, k);
      ClassesDrawn(s1, 0, classes, [], draws, featureRDMA, k, draws);
      if p.attempts != [] {
        SameSuccess(s, s1, p.attempts[|p.attempts| - 1].entry, p.attempts[|p.attempts| - 1].o, featureRDMA);
      }
      hide Succeeds;
    }
  }

  /** The engine's own end of the connection is closed again. */
  lemma DialedIsClosed(s: Sock, buf: Option<Bytes>, cae: AC.Acl, de: D.Dest, draws: seq<Draw>, featureRDMA: bool,
                       sendOk: bool, addFdOk: bool, k: Kern)
    ensures var c := HandleConnect(s, buf, cae, de, draws, featureRDMA, sendOk, addFdOk, k);
            c.dialed.Some? ==> c.dialed.value !in c.k.open
  {
    hide Parse;
    hide AC.Acl.Apply;
    hide D.Dest.GetClient;
    hide Handshake;
    hide Select;
  }

  lemma NothingDrawn(draws: seq<Draw>)
    ensures Drawn([], draws)
  {
  }

  // ------------------------------------------------------------------- priority

  /** Connect ended through entry `e`. */
  ghost predicate Through(s: Sock, c: Connected, e: D.Entry, featureRDMA: bool) {
    !c.stuck && EndsWell(s, c.attempts, featureRDMA) && c.attempts[|c.attempts| - 1].entry == e
  }

  /** Everything in the classes before the last attempt's was tried and failed; after a search
      that found nothing, everything was. */
  lemma EarlierClasses(x: Context, draws: seq<Draw>, k: Kern, c: nat, i: nat)
    requires c < |x.classes| && i < |x.classes[c]|
    ensures var p := Select(x.s, x.classes, draws, x.featureRDMA, k);
            && (p.result.AllFailed? ==> TriedInVain(x.s, p.attempts, x.classes[c][i], x.featureRDMA))
            && (p.result.Via? || p.result.ViaRdma? ==>
                  && p.attempts != [] && x.Names(p.attempts[|p.attempts| - 1])
                  && (c < p.attempts[|p.attempts| - 1].cls ==> TriedInVain(x.s, p.attempts, x.classes[c][i], x.featureRDMA)))
  {
    SelectEstablishes(x, draws, k);
    hide Select;
    hide Succeeds;
    var p := Select(x.s, x.classes, draws, x.featureRDMA, k);
    if p.result.AllFailed? || (!p.result.StillTrying? && c < p.attempts[|p.attempts| - 1].cls) {
      assert FailedAt(x, p.attempts, c, i);
      var a :| 0 <= a < |p.attempts| && p.attempts[a].cls == c && p.attempts[a].index == i && x.Names(p.attempts[a]) && !x.Won(p.attempts[a]);
    }
  }

  /** An entry was written for the slot by the first `n` operations of a history. */
  ghost predicate WrittenFor(ops: seq<D.Op>, featureRDMA: bool, slot: D.Slot, n: nat, e: D.Entry)
    requires n <= |ops|
  {
    e in D.Written(ops, featureRDMA, slot, e.transport, n)
  }

  /** The classes of one address after a history. */
  ghost predicate InOrder(classes: seq<seq<D.Entry>>, ops: seq<D.Op>, featureRDMA: bool, slot: D.Slot, n: nat)
    requires n <= |ops|
  {
    classes == [D.Written(ops, featureRDMA, slot, D.UNIX, n), D.Written(ops, featureRDMA, slot, D.RDMA, n),
                D.Written(ops, featureRDMA, slot, D.IPv6, n), D.Written(ops, featureRDMA, slot, D.IPv4, n)]
  }

  lemma ClassOf(classes: seq<seq<D.Entry>>, ops: seq<D.Op>, featureRDMA: bool, slot: D.Slot, n: nat, c: nat, i: nat)
    requires n <= |ops| && InOrder(classes, ops, featureRDMA, slot, n) && c < |classes| && i < |classes[c]|
    ensures WrittenFor(ops, featureRDMA, slot, n, classes[c][i])
    ensures c == match classes[c][i].transport case UNIX => 0 case RDMA => 1 case IPv6 => 2 case IPv4 => 3
  {
    D.WrittenAre(ops, featureRDMA, slot, D.UNIX, n);
    D.WrittenAre(ops, featureRDMA, slot, D.RDMA, n);
    D.WrittenAre(ops, featureRDMA, slot, D.IPv6, n);
    D.WrittenAre(ops, featureRDMA, slot, D.IPv4, n);
    hide D.Written;
  }

  /** Where an entry written for the slot stands. */
  lemma PlaceOf(classes: seq<seq<D.Entry>>, ops: seq<D.Op>, featureRDMA: bool, slot: D.Slot, n: nat, e: D.Entry)
    returns (c: nat, i: nat)
    requires n <= |ops| && InOrder(classes, ops, featureRDMA, slot, n) && WrittenFor(ops, featureRDMA, slot, n, e)
    ensures c < |classes| && i < |classes[c]| && classes[c][i] == e
    ensures c == match e.transport case UNIX => 0 case RDMA => 1 case IPv6 => 2 case IPv4 => 3
  {
    hide D.Written;
    c := match e.transport case UNIX => 0 case RDMA => 1 case IPv6 => 2 case IPv4 => 3;
    i :| 0 <= i < |classes[c]| && classes[c][i] == e;
  }

  /** What the search does with one entry written for the address. */
  lemma OneEntry(x: Context, draws: seq<Draw>, k: Kern, ops: seq<D.Op>, slot: D.Slot, n: nat, e: D.Entry)
    requires n <= |ops| && InOrder(x.classes, ops, x.featureRDMA, slot, n) && WrittenFor(ops, x.featureRDMA, slot, n, e)
    ensures var p := Select(x.s, x.classes, draws, x.featureRDMA, k);
            && (p.result.AllFailed? ==> TriedInVain(x.s, p.attempts, e, x.featureRDMA))
            && (p.result.Via? || p.result.ViaRdma? ==>
                  && p.attempts != []
                  && var last := p.attempts[|p.attempts| - 1];
                  && WrittenFor(ops, x.featureRDMA, slot, n, last.entry)
                  && (D.Before(e.transport, last.entry.transport) ==> TriedInVain(x.s, p.attempts, e, x.featureRDMA)))
  {
    var c, i := PlaceOf(x.classes, ops, x.featureRDMA, slot, n, e);
    EarlierClasses(x, draws, k, c, i);
    var p := Select(x.s, x.classes, draws, x.featureRDMA, k);
    if p.result.Via? || p.result.ViaRdma? {
      var last := p.attempts[|p.attempts| - 1];
      ClassOf(x.classes, ops, x.featureRDMA, slot, n, last.cls, last.index);
    }
    hide Select;
    hide Succeeds;
    hide InOrder;
    hide WrittenFor;
    hide TriedInVain;
  }

  lemma LastIsWritten(x: Context, draws: seq<Draw>, k: Kern, ops: seq<D.Op>, slot: D.Slot, n: nat)
    requires n <= |ops| && InOrder(x.classes, ops, x.featureRDMA, slot, n)
    ensures var p := Select(x.s, x.classes, draws, x.featureRDMA, k);
            p.result.Via? || p.result.ViaRdma? ==>
              p.attempts != [] && WrittenFor(ops, x.featureRDMA, slot, n, p.attempts[|p.attempts| - 1].entry)
  {
    SelectEstablishes(x, draws, k);
    hide Select;
    hide Succeeds;
    var p := Select(x.s, x.classes, draws, x.featureRDMA, k);
    if p.result.Via? || p.result.ViaRdma? {
      var last := p.attempts[|p.attempts| - 1];
      ClassOf(x.classes, ops, x.featureRDMA, slot, n, last.cls, last.index);
    }
    hide InOrder;
    hide WrittenFor;
  }

  /** Connect to an address whose entries were written by a history of the table: every entry
      whose transport is preferred to that of the entry it ended through was tried and failed,
      and if it found nothing, every entry was. */
  ghost predicate Prefers(s: Sock, c: Connected, ops: seq<D.Op>, featureRDMA: bool, slot: D.Slot, n: nat)
    requires n <= |ops|
  {
    if EndsWell(s, c.attempts, featureRDMA) then
      var used := c.attempts[|c.attempts| - 1].entry;
      && WrittenFor(ops, featureRDMA, slot, n, used)
      && forall e: D.Entry | WrittenFor(ops, featureRDMA, slot, n, e) && D.Before(e.transport, used.transport) ::
           TriedInVain(s, c.attempts, e, featureRDMA)
    else forall e: D.Entry | WrittenFor(ops, featureRDMA, slot, n, e) :: TriedInVain(s, c.attempts, e, featureRDMA)
  }

  lemma SamePrefers(s: Sock, s': Sock, c: Connected, ops: seq<D.Op>, featureRDMA: bool, slot: D.Slot, n: nat)
    requires n <= |ops| && Prefers(s', c, ops, featureRDMA, slot, n)
    requires s'.socketOptions == s.socketOptions && s'.fcntlOptions == s.fcntlOptions
    ensures Prefers(s, c, ops, featureRDMA, slot, n)
  {
    assert forall e: D.Entry, o :: Succeeds(s', e, o, featureRDMA) == Succeeds(s, e, o, featureRDMA);
    hide Succeeds;
    hide WrittenFor;
  }

  lemma SearchPrefers(c: Connected, x: Context, draws: seq<Draw>, k: Kern, ops: seq<D.Op>, slot: D.Slot, n: nat)
    requires n <= |ops| && InOrder(x.classes, ops, x.featureRDMA, slot, n)
    requires var p := Select(x.s, x.classes, draws, x.featureRDMA, k); c.attempts == p.attempts && !p.result.StillTrying?
    ensures Prefers(x.s, c, ops, x.featureRDMA, slot, n)
  {
    hide Succeeds;
    hide Select;
    hide InOrder;
    hide WrittenFor;
    hide TriedInVain;
    SelectEnds(x, draws, k);
    LastIsWritten(x, draws, k, ops, slot, n);
    hide EndsWell;
    forall e: D.Entry | WrittenFor(ops, x.featureRDMA, slot, n, e)
      ensures var p := Select(x.s, x.classes, draws, x.featureRDMA, k);
              && (p.result.AllFailed? ==> TriedInVain(x.s, p.attempts, e, x.featureRDMA))
              && (p.result.Via? || p.result.ViaRdma? ==>
                    (D.Before(e.transport, p.attempts[|p.attempts| - 1].entry.transport) ==> TriedInVain(x.s, p.attempts, e, x.featureRDMA)))
    {
      OneEntry(x, draws, k, ops, slot, n, e);
    }
  }

  /** An allowed connect to a registered address is what its search comes to. */
  lemma ConnectSearches(s: Sock, to: Sockaddr, buf: Option<Bytes>, cae: AC.Acl, de: D.Dest, draws: seq<Draw>, featureRDMA: bool,
                        sendOk: bool, addFdOk: bool, k: Kern)
    requires buf.Some? && Parse(buf.value) == Some(to)
    requires cae.Apply(to.ip) && de.GetClient(to.ip, to.port) != []
    ensures var c := HandleConnect(s, buf, cae, de, draws, featureRDMA, sendOk, addFdOk, k);
            var p := Select(s.(remote := to), de.GetClient(to.ip, to.port), draws, featureRDMA, k);
            c.attempts == p.attempts && (c.stuck <==> p.result.StillTrying?)
  {
    hide Select;
    hide Parse;
    hide AC.Acl.Apply;
    hide D.Dest.GetClient;
    hide Handshake;
    hide Kern.Close;
  }

  /** Priority of transports, after any history of the table. */
  lemma EarlierTransportsFailed(myVIP: IP, featureRDMA: bool, ops: seq<D.Op>, n: nat, s: Sock, buf: Option<Bytes>, cae: AC.Acl,
                                draws: seq<Draw>, sendOk: bool, addFdOk: bool, k: Kern)
    requires n <= |ops| && D.After(myVIP, featureRDMA, ops, n).Some?
    requires buf.Some? && Parse(buf.value).Some?
    ensures var to, de := Parse(buf.value).value, D.After(myVIP, featureRDMA, ops, n).value;
            var c := HandleConnect(s, buf, cae, de, draws, featureRDMA, sendOk, addFdOk, k);
            cae.Apply(to.ip) && de.GetClient(to.ip, to.port) != [] && !c.stuck ==>
              Prefers(s, c, ops, featureRDMA, D.SlotOf(to.ip, to.port), n)
  {
    hide HandleConnect;
    hide Select;
    hide Parse;
    hide AC.Acl.Apply;
    hide D.Dest.GetClient;
    hide D.After;
    hide D.Written;
    hide D.Filled;
    hide D.Retired;
    hide D.SlotOf;
    hide Prefers;
    var to, de := Parse(buf.value).value, D.After(myVIP, featureRDMA, ops, n).value;
    D.ClassesInOrder(myVIP, featureRDMA, ops, n, to.ip, to.port);
    var c := HandleConnect(s, buf, cae, de, draws, featureRDMA, sendOk, addFdOk, k);
    var classes, slot := de.GetClient(to.ip, to.port), D.SlotOf(to.ip, to.port);
    if cae.Apply(to.ip) && classes != [] && !c.stuck {
      ConnectSearches(s, to, buf, cae, de, draws, featureRDMA, sendOk, addFdOk, k);
      assert InOrder(classes, ops, featureRDMA, slot, n);
      hide InOrder;
      SearchPrefers(c, Context(s.(remote := to), classes, featureRDMA), draws, k, ops, slot, n);
      SamePrefers(s, s.(remote := to), c, ops, featureRDMA, slot, n);
    }
  }

  /** The best entry of those written for the slot that `env` lets be reached is used. */
  ghost predicate UsesTheBest(s: Sock, c: Connected, ops: seq<D.Op>, featureRDMA: bool, slot: D.Slot, n: nat, env: D.Entry -> Try)
    requires n <= |ops|
  {
    if exists e: D.Entry :: WrittenFor(ops, featureRDMA, slot, n, e) && Succeeds(s, e, env(e), featureRDMA) then
      && EndsWell(s, c.attempts, featureRDMA)
      && var used := c.attempts[|c.attempts| - 1].entry;
      && WrittenFor(ops, featureRDMA, slot, n, used) && Succeeds(s, used, env(used), featureRDMA)
      && forall e: D.Entry | WrittenFor(ops, featureRDMA, slot, n, e) && Succeeds(s, e, env(e), featureRDMA) ::
           !D.Before(e.transport, used.transport)
    else !EndsWell(s, c.attempts, featureRDMA)
  }

  lemma PrefersTheBest(s: Sock, c: Connected, ops: seq<D.Op>, featureRDMA: bool, slot: D.Slot, n: nat, env: D.Entry -> Try)
    requires n <= |ops| && Prefers(s, c, ops, featureRDMA, slot, n)
    requires forall a | 0 <= a < |c.attempts| :: c.attempts[a].o == env(c.attempts[a].entry)
    ensures UsesTheBest(s, c, ops, featureRDMA, slot, n, env)
  {
    hide Succeeds;
    hide WrittenFor;
  }

  /** In an environment that treats each entry alike at every attempt: after any history of
      the table, a connect that is allowed and finds its address registered uses an entry of
      the most preferred transport that can be reached, and fails only if none can. */
  lemma ConnectUsesTheBest(myVIP: IP, featureRDMA: bool, ops: seq<D.Op>, n: nat, s: Sock, buf: Option<Bytes>, cae: AC.Acl,
                           draws: seq<Draw>, sendOk: bool, addFdOk: bool, k: Kern, env: D.Entry -> Try)
    requires n <= |ops| && D.After(myVIP, featureRDMA, ops, n).Some?
    requires buf.Some? && Parse(buf.value).Some?
    ensures var to, de := Parse(buf.value).value, D.After(myVIP, featureRDMA, ops, n).value;
            var c := HandleConnect(s, buf, cae, de, draws, featureRDMA, sendOk, addFdOk, k);
            cae.Apply(to.ip) && de.GetClient(to.ip, to.port) != [] && !c.stuck &&
            (forall a | 0 <= a < |c.attempts| :: c.attempts[a].o == env(c.attempts[a].entry)) ==>
              UsesTheBest(s, c, ops, featureRDMA, D.SlotOf(to.ip, to.port), n, env)
  {
    hide HandleConnect;
    hide Parse;
    hide AC.Acl.Apply;
    hide D.Dest.GetClient;
    hide D.After;
    hide D.SlotOf;
    hide Prefers;
    hide UsesTheBest;
    EarlierTransportsFailed(myVIP, featureRDMA, ops, n, s, buf, cae, draws, sendOk, addFdOk, k);
    var to, de := Parse(buf.value).value, D.After(myVIP, featureRDMA, ops, n).value;
    var c := HandleConnect(s, buf, cae, de, draws, featureRDMA, sendOk, addFdOk, k);
    if cae.Apply(to.ip) && de.GetClient(to.ip, to.port) != [] && !c.stuck &&
       forall a | 0 <= a < |c.attempts| :: c.attempts[a].o == env(c.attempts[a].entry) {
      PrefersTheBest(s, c, ops, featureRDMA, D.SlotOf(to.ip, to.port), n, env);
    }
  }
}
