/** Transport selection in `handleSysConnect`: classes in priority order, and within a
    class the entries in random order until one can be reached. */
module Connect {
  import opened Net
  import opened Sockaddrs
  import opened Kernel
  import opened Socket
  import AC = AccessControl
  import D = Destination
  import opened Transports

  /** One draw of `rand.Intn`, and what the environment does should it be tried. */
  datatype Draw = Draw(n: nat, o: Try)

  /** History: one entry tried, and what the environment did. */
  datatype Attempt = Attempt(cls: nat, index: nat, entry: D.Entry, o: Try)

  datatype Result = Via(fd: int) | ViaRdma | AllFailed | StillTrying

  datatype Pick = Pick(result: Result, rest: seq<Draw>, attempts: seq<Attempt>, k: Kern)

  /** `rand.Intn(n)`, which panics for n = 0. */
  function Intn(draw: nat, n: nat): (r: nat)
    requires n > 0
    ensures r < n
  {
    draw % n
  }

  /** An attempt ends the search if its host socket is connected; an RDMA entry
      needs the feature, and its address stored in the caller's memory. */
  predicate Succeeds(s: Sock, e: D.Entry, o: Try, featureRDMA: bool) {
    (o.fd.Some? && CanConnect(s, e, o, o.fd.value)) || (e.transport.RDMA? && featureRDMA && o.writeOk)
  }

  /** The inner loop, from a state in which `tried` have failed. The draws run out
      only if the loop has not ended yet. */
  function TryClass(s: Sock, c: nat, entries: seq<D.Entry>, tried: set<nat>, attempts: seq<Attempt>,
                    draws: seq<Draw>, featureRDMA: bool, k: Kern): (p: Pick)
    ensures |p.rest| <= |draws|
    decreases |draws|
  {
    if |tried| >= |entries| then Pick(AllFailed, draws, attempts, k)
    else if draws == [] then Pick(StillTrying, draws, attempts, k)
    else
      var n := Intn(draws[0].n, |entries|);
      if n in tried then TryClass(s, c, entries, tried, attempts, draws[1..], featureRDMA, k)
      else
        var o := draws[0].o;
        var dialed, k1 := TransportConnect(s, entries[n], o), AfterConnect(s, entries[n], o, k);
        var attempts' := attempts + [Attempt(c, n, entries[n], o)];
        if dialed.Fd? then Pick(Via(dialed.fd), draws[1..], attempts', k1)
        else if dialed.TryRdma? && featureRDMA && o.writeOk then Pick(ViaRdma, draws[1..], attempts', k1)
        else TryClass(s, c, entries, tried + {n}, attempts', draws[1..], featureRDMA, k1)
  }

  /** The outer loop, from class `c` on. */
  function TryClasses(s: Sock, c: nat, classes: seq<seq<D.Entry>>, attempts: seq<Attempt>,
                      draws: seq<Draw>, featureRDMA: bool, k: Kern): (p: Pick)
    requires c <= |classes|
    decreases |classes| - c
  {
    if c == |classes| then Pick(AllFailed, draws, attempts, k)
    else
      var p := TryClass(s, c, classes[c], {}, attempts, draws, featureRDMA, k);
      if p.result.AllFailed? then TryClasses(s, c + 1, classes, p.attempts, p.rest, featureRDMA, p.k) else p
  }

  function Select(s: Sock, classes: seq<seq<D.Entry>>, draws: seq<Draw>, featureRDMA: bool, k: Kern): Pick {
    TryClasses(s, 0, classes, [], draws, featureRDMA, k)
  }

  // ----------------------------------------------------- what the search has done

  /** The search under way: the caller's socket, the entries, the feature. */
  datatype Context = Context(s: Sock, classes: seq<seq<D.Entry>>, featureRDMA: bool)
  {
    predicate Names(a: Attempt) {
      a.cls < |classes| && a.index < |classes[a.cls]| && a.entry == classes[a.cls][a.index]
    }

    predicate Won(a: Attempt) {
      Names(a) && Succeeds(s, a.entry, a.o, featureRDMA)
    }
  }

  ghost predicate FailedAt(x: Context, attempts: seq<Attempt>, c: nat, i: nat) {
    exists a | 0 <= a < |attempts| :: attempts[a].cls == c && attempts[a].index == i && x.Names(attempts[a]) && !x.Won(attempts[a])
  }

  /** No entry is tried twice. */
  ghost predicate OnceEach(attempts: seq<Attempt>) {
    forall a, b | 0 <= a < b < |attempts| :: attempts[a].cls != attempts[b].cls || attempts[a].index != attempts[b].index
  }

  /** Every entry of the classes before `c` has been tried and has failed. */
  ghost predicate Exhausted(x: Context, attempts: seq<Attempt>, c: nat)
    requires c <= |x.classes|
  {
    forall c', i | 0 <= c' < c && 0 <= i < |x.classes[c']| :: FailedAt(x, attempts, c', i)
  }

  /** The search so far: failures only, in classes up to `c`, no entry twice. */
  ghost predicate Searched(x: Context, attempts: seq<Attempt>, c: nat) {
    && OnceEach(attempts)
    && (forall a | 0 <= a < |attempts| :: attempts[a].cls <= c && x.Names(attempts[a]) && !x.Won(attempts[a]))
  }

  ghost predicate TriedIn(attempts: seq<Attempt>, c: nat, tried: set<nat>) {
    && (forall a | 0 <= a < |attempts| && attempts[a].cls == c :: attempts[a].index in tried)
    && (forall i | i in tried :: exists a | 0 <= a < |attempts| :: attempts[a].cls == c && attempts[a].index == i)
  }

  /** What a finished search established. */
  ghost predicate Established(x: Context, p: Pick) {
    match p.result
    case StillTrying => true
    case AllFailed => Searched(x, p.attempts, |x.classes|) && Exhausted(x, p.attempts, |x.classes|)
    case _ =>
      && p.attempts != []
      && var last := p.attempts[|p.attempts| - 1];
      && x.Names(last) && x.Won(last)
      && OnceEach(p.attempts)
      && Searched(x, p.attempts[..|p.attempts| - 1], last.cls)
      && Exhausted(x, p.attempts, last.cls)
  }

  /** Pigeonhole: as many distinct indices below `n` as there are, are all of them. */
  lemma {:induction false} FullSet(t: set<nat>, n: nat)
    requires forall i | i in t :: i < n
    requires |t| >= n
    ensures forall i: nat | i < n :: i in t
  {
    if n > 0 {
      if n - 1 !in t {
        SmallSet(t, n - 1);
      } else {
        FullSet(t - {n - 1}, n - 1);
      }
    }
  }

  lemma {:induction false} SmallSet(t: set<nat>, n: nat)
    requires forall i | i in t :: i < n
    ensures |t| <= n
  {
    if n > 0 {
      SmallSet(t - {n - 1}, n - 1);
    } else {
      assert t == {};
    }
  }

  lemma {:induction false} ClassEstablishes(x: Context, c: nat, tried: set<nat>, attempts: seq<Attempt>, draws: seq<Draw>, k: Kern)
    requires c < |x.classes|
    requires Searched(x, attempts, c) && Exhausted(x, attempts, c) && TriedIn(attempts, c, tried)
    requires forall i | i in tried :: i < |x.classes[c]|
    ensures var p := TryClass(x.s, c, x.classes[c], tried, attempts, draws, x.featureRDMA, k);
            if p.result.AllFailed? then Searched(x, p.attempts, c) && Exhausted(x, p.attempts, c + 1)
            else Established(x, p)
    decreases |draws|
  {
    hide TransportConnect;
    hide AfterConnect;
    hide FailedAt;
    hide TriedIn;
    hide OnceEach;
    var entries := x.classes[c];
    if |tried| >= |entries| {
      TriedAll(x, c, tried, attempts);
    } else if draws != [] {
      var n := Intn(draws[0].n, |entries|);
      if n in tried {
        ClassEstablishes(x, c, tried, attempts, draws[1..], k);
      } else {
        var attempt := Attempt(c, n, entries[n], draws[0].o);
        ConnectsExactly(x.s, entries[n], draws[0].o);
        var k1 := AfterConnect(x.s, entries[n], draws[0].o, k);
        OneMoreAttempt(x, c, tried, attempts, attempt);
        if !x.Won(attempt) {
          ClassEstablishes(x, c, tried + {n}, attempts + [attempt], draws[1..], k1);
        }
      }
    }
  }

  lemma TriedAll(x: Context, c: nat, tried: set<nat>, attempts: seq<Attempt>)
    requires c < |x.classes|
    requires Searched(x, attempts, c) && Exhausted(x, attempts, c) && TriedIn(attempts, c, tried)
    requires forall i | i in tried :: i < |x.classes[c]|
    requires |tried| >= |x.classes[c]|
    ensures Exhausted(x, attempts, c + 1)
  {
    FullSet(tried, |x.classes[c]|);
    forall i: nat | i < |x.classes[c]|
      ensures FailedAt(x, attempts, c, i)
    {
      assert i in tried;
    }
  }

  lemma OneMoreAttempt(x: Context, c: nat, tried: set<nat>, attempts: seq<Attempt>, a: Attempt)
    requires c < |x.classes| && x.Names(a) && a.cls == c && a.index !in tried
    requires Searched(x, attempts, c) && Exhausted(x, attempts, c) && TriedIn(attempts, c, tried)
    ensures var attempts' := attempts + [a];
            && attempts'[..|attempts'| - 1] == attempts
            && OnceEach(attempts') && TriedIn(attempts', c, tried + {a.index}) && Exhausted(x, attempts', c)
            && (!x.Won(a) ==> Searched(x, attempts', c))
  {
    var attempts' := attempts + [a];
    assert attempts'[|attempts|] == a;
    forall i | i in tried + {a.index}
      ensures exists b | 0 <= b < |attempts'| :: attempts'[b].cls == c && attempts'[b].index == i
    {
      if i in tried {
        var b :| 0 <= b < |attempts| && attempts[b].cls == c && attempts[b].index == i;
        assert attempts'[b] == attempts[b];
      }
    }
    forall c', i | 0 <= c' < c && 0 <= i < |x.classes[c']|
      ensures FailedAt(x, attempts', c', i)
    {
      assert FailedAt(x, attempts, c', i);
      var b :| 0 <= b < |attempts| && attempts[b].cls == c' && attempts[b].index == i && x.Names(attempts[b]) && !x.Won(attempts[b]);
      assert attempts'[b] == attempts[b];
    }
  }

  lemma {:induction false} ClassesEstablish(x: Context, c: nat, attempts: seq<Attempt>, draws: seq<Draw>, k: Kern)
    requires c <= |x.classes|
    requires Searched(x, attempts, c) && Exhausted(x, attempts, c)
    requires forall a | 0 <= a < |attempts| :: attempts[a].cls < c
    ensures Established(x, TryClasses(x.s, c, x.classes, attempts, draws, x.featureRDMA, k))
    decreases |x.classes| - c
  {
    if c < |x.classes| {
      ClassEstablishes(x, c, {}, attempts, draws, k);
      var p := TryClass(x.s, c, x.classes[c], {}, attempts, draws, x.featureRDMA, k);
      if p.result.AllFailed? {
        ClassesEstablish(x, c + 1, p.attempts, p.rest, p.k);
      }
    }
  }

  /** A finished search tried every entry of every class before the chosen one
      exactly once, and all of them failed; it gives up only after the same holds
      of all classes. */
  lemma SelectEstablishes(x: Context, draws: seq<Draw>, k: Kern)
    ensures Established(x, Select(x.s, x.classes, draws, x.featureRDMA, k))
  {
    ClassesEstablish(x, 0, [], draws, k);
  }

  /** "All destinations failed" is reported exactly when every entry of every class
      was tried and failed. */
  lemma AllFailedExactly(x: Context, draws: seq<Draw>, k: Kern)
    ensures var p := Select(x.s, x.classes, draws, x.featureRDMA, k);
            !p.result.StillTrying? ==> (p.result.AllFailed? <==> Exhausted(x, p.attempts, |x.classes|))
  {
    SelectEstablishes(x, draws, k);
    var p := Select(x.s, x.classes, draws, x.featureRDMA, k);
    if !p.result.StillTrying? && !p.result.AllFailed? {
      var last := p.attempts[|p.attempts| - 1];
      assert forall a | 0 <= a < |p.attempts| - 1 ::
          p.attempts[a].cls != last.cls || p.attempts[a].index != last.index;
      assert !FailedAt(x, p.attempts, last.cls, last.index);
    }
  }

  // ------------------------------------------- the loop itself, and that it ends

  ghost predicate Recurs(rnd: nat -> nat, n: nat, i: nat, p: nat)
    requires n > 0
  {
    exists q: nat :: p <= q && Intn(rnd(q), n) == i
  }

  /** Every index keeps recurring: what is needed of the random source. */
  ghost predicate Fair(rnd: nat -> nat) {
    forall n: nat, i: nat, p: nat | i < n :: Recurs(rnd, n, i, p)
  }

  lemma {:induction false} Untried(tried: set<nat>, n: nat) returns (i: nat)
    requires |tried| < n
    ensures i < n && i !in tried
    decreases n
  {
    if n - 1 !in tried {
      i := n - 1;
    } else {
      i := Untried(tried - {n - 1}, n - 1);
    }
  }

  /** Some later draw hits an index not yet tried. */
  lemma NextHit(rnd: nat -> nat, n: nat, tried: set<nat>, p: nat) returns (hit: nat)
    requires Fair(rnd) && |tried| < n
    ensures p <= hit && Intn(rnd(hit), n) !in tried
  {
    var i := Untried(tried, n);
    assert Recurs(rnd, n, i, p);
    hit :| p <= hit && Intn(rnd(hit), n) == i;
  }

  /** How the search goes on from inside class `c`. */
  ghost function Resume(x: Context, c: nat, tried: set<nat>, attempts: seq<Attempt>, draws: seq<Draw>, k: Kern): Pick
    requires c < |x.classes|
  {
    var p := TryClass(x.s, c, x.classes[c], tried, attempts, draws, x.featureRDMA, k);
    if p.result.AllFailed? then TryClasses(x.s, c + 1, x.classes, p.attempts, p.rest, x.featureRDMA, p.k) else p
  }

  /** After `drawn`, whatever is drawn next, the search stands before class `c`. */
  ghost predicate BeforeClass(x: Context, k0: Kern, drawn: seq<Draw>, c: nat, attempts: seq<Attempt>, k: Kern)
    requires c <= |x.classes|
  {
    forall next: seq<Draw> ::
      Select(x.s, x.classes, drawn + next, x.featureRDMA, k0) == TryClasses(x.s, c, x.classes, attempts, next, x.featureRDMA, k)
  }

  /** Likewise inside class `c`. */
  ghost predicate InClass(x: Context, k0: Kern, drawn: seq<Draw>, c: nat, tried: set<nat>, attempts: seq<Attempt>, k: Kern)
    requires c < |x.classes|
  {
    forall next: seq<Draw> ::
      Select(x.s, x.classes, drawn + next, x.featureRDMA, k0) == Resume(x, c, tried, attempts, next, k)
  }

  /** One turn of the inner loop. */
  lemma ResumeStep(x: Context, c: nat, tried: set<nat>, attempts: seq<Attempt>, k: Kern, d: Draw, next: seq<Draw>)
    requires c < |x.classes| && |tried| < |x.classes[c]|
    ensures var n := Intn(d.n, |x.classes[c]|);
            var a := Attempt(c, n, x.classes[c][n], d.o);
            var k1 := AfterConnect(x.s, x.classes[c][n], d.o, k);
            var dialed := TransportConnect(x.s, x.classes[c][n], d.o);
            Resume(x, c, tried, attempts, [d] + next, k) ==
            if n in tried then Resume(x, c, tried, attempts, next, k)
            else if !x.Won(a) then Resume(x, c, tried + {n}, attempts + [a], next, k1)
            else Pick(if dialed.Fd? then Via(dialed.fd) else ViaRdma, next, attempts + [a], k1)
  {
    hide TransportConnect;
    hide AfterConnect;
    ConnectsExactly(x.s, x.classes[c][Intn(d.n, |x.classes[c]|)], d.o);
    assert ([d] + next)[1..] == next;
  }

  lemma OneDraw(x: Context, k0: Kern, drawn: seq<Draw>, c: nat, tried: set<nat>, attempts: seq<Attempt>, k: Kern, d: Draw)
    requires c < |x.classes| && InClass(x, k0, drawn, c, tried, attempts, k)
    requires |tried| < |x.classes[c]|
    ensures var n := Intn(d.n, |x.classes[c]|);
            var a := Attempt(c, n, x.classes[c][n], d.o);
            var k1 := AfterConnect(x.s, x.classes[c][n], d.o, k);
            && (n in tried ==> InClass(x, k0, drawn + [d], c, tried, attempts, k))
            && (n !in tried && !x.Won(a) ==> InClass(x, k0, drawn + [d], c, tried + {n}, attempts + [a], k1))
            && (n !in tried && x.Won(a) ==>
                  var dialed := TransportConnect(x.s, x.classes[c][n], d.o);
                  Select(x.s, x.classes, drawn + [d], x.featureRDMA, k0) ==
                  Pick(if dialed.Fd? then Via(dialed.fd) else ViaRdma, [], attempts + [a], k1))
  {
    hide TransportConnect;
    hide AfterConnect;
    hide Resume;
    hide Select;
    forall next: seq<Draw>
      ensures Select(x.s, x.classes, (drawn + [d]) + next, x.featureRDMA, k0) == Resume(x, c, tried, attempts, [d] + next, k)
    {
      assert (drawn + [d]) + next == drawn + ([d] + next);
    }
    forall next: seq<Draw> {
      ResumeStep(x, c, tried, attempts, k, d, next);
    }
    assert (drawn + [d]) + [] == drawn + [d];
  }

  lemma EnterClass(x: Context, k0: Kern, drawn: seq<Draw>, c: nat, attempts: seq<Attempt>, k: Kern)
    requires c < |x.classes| && BeforeClass(x, k0, drawn, c, attempts, k)
    ensures InClass(x, k0, drawn, c, {}, attempts, k)
  {
  }

  lemma LeaveClass(x: Context, k0: Kern, drawn: seq<Draw>, c: nat, tried: set<nat>, attempts: seq<Attempt>, k: Kern)
    requires c < |x.classes| && InClass(x, k0, drawn, c, tried, attempts, k)
    requires |tried| >= |x.classes[c]|
    ensures BeforeClass(x, k0, drawn, c + 1, attempts, k)
  {
  }

  lemma OutOfClasses(x: Context, k0: Kern, drawn: seq<Draw>, attempts: seq<Attempt>, k: Kern)
    requires BeforeClass(x, k0, drawn, |x.classes|, attempts, k)
    ensures Select(x.s, x.classes, drawn, x.featureRDMA, k0) == Pick(AllFailed, [], attempts, k)
  {
    assert drawn + [] == drawn;
  }

  ghost predicate DrawnFrom(draws: seq<Draw>, rnd: nat -> nat, p: nat) {
    |draws| == p && forall i | 0 <= i < p :: draws[i].n == rnd(i)
  }

  /** In an environment that always gives the same attempt the same outcome: can entry
      `i` of class `c` be reached? */
  predicate Reaches(x: Context, tries: (nat, nat) -> Try, c: nat, i: nat) {
    c < |x.classes| && i < |x.classes[c]| && Succeeds(x.s, x.classes[c][i], tries(c, i), x.featureRDMA)
  }

  ghost predicate NoneBefore(x: Context, tries: (nat, nat) -> Try, c: nat) {
    forall c': nat, i: nat | c' < c :: !Reaches(x, tries, c', i)
  }

  /** Entry `i` of class `c`, which can be reached, in the first class that has such. */
  ghost predicate BestChoice(x: Context, tries: (nat, nat) -> Try, c: nat, i: nat, result: Result) {
    && Reaches(x, tries, c, i) && NoneBefore(x, tries, c)
    && result == if x.classes[c][i].transport.RDMA? then ViaRdma
                 else if tries(c, i).fd.Some? then Via(tries(c, i).fd.value)
                 else AllFailed
  }

  ghost predicate Chosen(x: Context, tries: (nat, nat) -> Try, result: Result) {
    exists c: nat, i: nat :: BestChoice(x, tries, c, i, result)
  }

  lemma NoneInClass(x: Context, tries: (nat, nat) -> Try, c: nat, tried: set<nat>)
    requires c < |x.classes| && NoneBefore(x, tries, c)
    requires |tried| >= |x.classes[c]|
    requires forall i | i in tried :: i < |x.classes[c]| && !Reaches(x, tries, c, i)
    ensures NoneBefore(x, tries, c + 1)
  {
    FullSet(tried, |x.classes[c]|);
  }

  /** The selection loop of the source over an endless random source. It ends: each
      round either tries a new entry or comes one draw closer to an untried one. It
      ends well if any entry of any class can be reached, in the first class that
      has such an entry. */
  method SelectTransport(s: Sock, classes: seq<seq<D.Entry>>, rnd: nat -> nat, tries: (nat, nat) -> Try, featureRDMA: bool, k0: Kern)
    returns (result: Result, k: Kern, ghost draws: seq<Draw>)
    requires Fair(rnd)
    ensures !result.StillTrying?
    ensures result == Select(s, classes, draws, featureRDMA, k0).result
    ensures k == Select(s, classes, draws, featureRDMA, k0).k
    ensures DrawnFrom(draws, rnd, |draws|)
    ensures var x := Context(s, classes, featureRDMA);
            if result.AllFailed? then NoneBefore(x, tries, |classes|) else Chosen(x, tries, result)
  {
    hide Resume;
    hide TryClass;
    hide TryClasses;
    hide BeforeClass;
    hide InClass;
    hide NoneBefore;
    hide Fair;
    hide TransportConnect;
    hide AfterConnect;
    ghost var x := Context(s, classes, featureRDMA);
    ghost var attempts: seq<Attempt> := [];
    k := k0;
    draws := [];
    var p: nat := 0;
    SearchBegins(x, tries, k0);
    for c := 0 to |classes|
      invariant DrawnFrom(draws, rnd, p)
      invariant BeforeClass(x, k0, draws, c, attempts, k)
      invariant NoneBefore(x, tries, c)
    {
      var entries := classes[c];
      var tried: set<nat> := {};
      var cnt := 0;
      ghost var hit := 0;
      if |entries| > 0 {
        hit := NextHit(rnd, |entries|, {}, p);
      }
      EnterClass(x, k0, draws, c, attempts, k);
      while cnt < |entries|
        invariant DrawnFrom(draws, rnd, p)
        invariant cnt == |tried| <= |entries|
        invariant InClass(x, k0, draws, c, tried, attempts, k)
        invariant forall i | i in tried :: i < |entries| && !Reaches(x, tries, c, i)
        invariant cnt < |entries| ==> p <= hit && Intn(rnd(hit), |entries|) !in tried
        decreases |entries| - cnt, hit - p
      {
        var n := Intn(rnd(p), |entries|);
        var o := tries(c, n);
        OneDraw(x, k0, draws, c, tried, attempts, k, Draw(rnd(p), o));
        draws := draws + [Draw(rnd(p), o)];
        p := p + 1;
        if n in tried {
          continue;
        }
        tried := tried + {n};
        cnt := cnt + 1;
        attempts := attempts + [Attempt(c, n, entries[n], o)];
        ConnectsExactly(s, entries[n], o);
        var dialed;
        dialed, k := Transports.Connect(s, entries[n], o, k);
        if dialed.TryRdma? && featureRDMA {
          if o.writeOk {
            assert BestChoice(x, tries, c, n, ViaRdma);
            return ViaRdma, k, draws;
          }
        } else if dialed.Fd? {
          assert BestChoice(x, tries, c, n, Via(dialed.fd));
          return Via(dialed.fd), k, draws;
        }
        if cnt < |entries| {
          hit := NextHit(rnd, |entries|, tried, p);
        }
      }
      LeaveClass(x, k0, draws, c, tried, attempts, k);
      NoneInClass(x, tries, c, tried);
    }
    OutOfClasses(x, k0, draws, attempts, k);
    result := AllFailed;
  }

  lemma SearchBegins(x: Context, tries: (nat, nat) -> Try, k0: Kern)
    ensures BeforeClass(x, k0, [], 0, [], k0) && NoneBefore(x, tries, 0)
  {
    hide TryClass;
    forall next: seq<Draw>
      ensures Select(x.s, x.classes, [] + next, x.featureRDMA, k0) == TryClasses(x.s, 0, x.classes, [], next, x.featureRDMA, k0)
    {
      assert [] + next == next;
    }
  }

  // --------------------------------------------------------------- connect(2)

  /** What connect does: the socket, the answer, the host socket connected if any, and
      the handshake sent over it. `stuck` while still trying. History: the attempts made. */
  datatype Connected = Connected(s: Sock, reply: Reply, k: Kern, dialed: Option<int>, sent: Option<Bytes>,
                                 attempts: seq<Attempt>, stuck: bool)

  /** The handshake announces the virtual address the socket is bound to, and is
      sent only in its 16-byte form. */
  function Handshake(s: Sock, sendOk: bool): Option<Bytes> {
    var image := Print(s.local);
    if image.Some? && |image.value| == SIZE_INET4 && sendOk then image else None
  }

  /** The handshake as the wire sees it: the image of an AF_INET name, if it can be sent. */
  lemma HandshakeByFamily(s: Sock, sendOk: bool)
    ensures Handshake(s, sendOk) == if s.local.family == AF_INET && sendOk then Print(s.local) else None
  {
    PrintLength(s.local);
    hide Print;
  }

  /** `handleSysConnect`. */
  function HandleConnect(s: Sock, buf: Option<Bytes>, cae: AC.Acl, de: D.Dest, draws: seq<Draw>, featureRDMA: bool,
                         sendOk: bool, addFdOk: bool, k: Kern): Connected {
    if buf.None? || Parse(buf.value).None? then
      Connected(s.(state := NotBypassable), CONTINUE, k, None, None, [], false)
    else
      var s1 := s.(remote := Parse(buf.value).value);
      if !cae.Apply(s1.remote.ip) then
        Connected(s1.(state := Error), Fails(EACCES), k, None, None, [], false)
      else
        var classes := de.GetClient(s1.remote.ip, s1.remote.port);
        if classes == [] then
          Connected(s1.(state := Error), Fails(EACCES), k, None, None, [], false)
        else
          var p := Select(s1, classes, draws, featureRDMA, k);
          match p.result
          case StillTrying => Connected(s, CONTINUE, k, None, None, p.attempts, true)
          case AllFailed => Connected(s1.(state := Error), Fails(EACCES), p.k, None, None, p.attempts, false)
          case ViaRdma => Connected(s1.(state := Bypassed), Emulated(TRY_RDMA + SIZE_INET4), p.k, None, None, p.attempts, false)
          case Via(fd) =>
            var k1 := p.k.Close(fd, Loose);
            if addFdOk then Connected(s1.(state := Bypassed), Emulated(0), k1, Some(fd), Handshake(s1, sendOk), p.attempts, false)
            else Connected(s1.(state := NotBypassable), CONTINUE, k1, Some(fd), Handshake(s1, sendOk), p.attempts, false)
  }
}
