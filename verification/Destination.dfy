/** `destination/entry.go`: how to reach a virtual address and port, indexed once for
    clients (by address, port and transport) and once for servers (by port). */
module Destination {
  import opened Net
  import opened Vip

  /** In priority order. */
  datatype Transport = UNIX | RDMA | IPv6 | IPv4

  const NUM_TRANSPORT := 4

  function Class(t: Transport): (i: nat)
    ensures i < NUM_TRANSPORT
  {
    match t case UNIX => 0 case RDMA => 1 case IPv6 => 2 case IPv4 => 3
  }

  datatype Address = AddrIPv4(ip: Bytes, port: int) | AddrUNIX(path: string) | AddrRDMA(rip: Bytes, rport: Port)

  datatype RawEntry = RawEntry(vip: Bytes, vport: Port, transport: Transport, address: Address)

  /** Both uses of an RDMA entry assert its address to be an RDMA one and panic
      otherwise; the source demands that of whoever fills the table. */
  predicate WellTyped(e: RawEntry) {
    IsAddress(e.vip) && (e.transport.RDMA? ==> e.address.AddrRDMA?)
  }

  type Entry = e: RawEntry | WellTyped(e) witness RawEntry(ZERO4, Port(0), UNIX, AddrUNIX(""))

  datatype Slot = Slot(key: Key, port: Port)

  function SlotOf(ip: IP, port: Port): Slot {
    Slot(IP2Int(ip), port)
  }

  const NO_ENTRIES: seq<seq<Entry>> := [[], [], [], []]

  /** Append an entry to its class, on a fresh slice of classes if there is none. */
  function AppendTo(classes: seq<seq<Entry>>, e: Entry): (r: seq<seq<Entry>>)
    requires classes == [] || |classes| == NUM_TRANSPORT
    ensures |r| == NUM_TRANSPORT
  {
    var base := if classes == [] then NO_ENTRIES else classes;
    base[Class(e.transport) := base[Class(e.transport)] + [e]]
  }

  /** The table as a value. The empty sequence stands for Go's nil slice: no slice
      the table holds is empty without being nil. */
  datatype Dest = Dest(myVIP: IP, featureRDMA: bool, client: map<Slot, seq<seq<Entry>>>, server: map<Port, seq<Entry>>)
  {
    function GetClient(ip: IP, port: Port): seq<seq<Entry>> {
      var slot := SlotOf(ip, port);
      if slot in client then client[slot] else []
    }

    function GetServer(port: Port): seq<Entry> {
      if port in server then server[port] else []
    }

    /** None: the process panics, indexing a nil slice. */
    function Upsert(e: Entry): Option<Dest> {
      var slot := SlotOf(e.vip, e.vport);
      if !featureRDMA && e.transport.RDMA? then Some(this)
      else if slot in client && |client[slot]| != NUM_TRANSPORT then None
      else
        var client' := client[slot := AppendTo(GetClient(e.vip, e.vport), e)];
        var server' := if Equal(e.vip, myVIP) then server[e.vport := GetServer(e.vport) + [e]] else server;
        Some(Dest(myVIP, featureRDMA, client', server'))
    }

    function Remove(ip: IP, port: Port): Option<Dest> {
      var slot := SlotOf(ip, port);
      if slot in client && |client[slot]| != NUM_TRANSPORT then None
      else
        var client' := if slot in client then client[slot := []] else client;
        var server' := if Equal(ip, myVIP) && port in server then server[port := []] else server;
        Some(Dest(myVIP, featureRDMA, client', server'))
    }
  }

  datatype Op = Upsert(entry: Entry) | Remove(ip: IP, port: Port)
  {
    function Target(): Slot {
      if Upsert? then SlotOf(entry.vip, entry.vport) else SlotOf(ip, port)
    }

    function Address(): IP {
      if Upsert? then entry.vip else ip
    }

    /** With the RDMA feature off an RDMA upsert returns at once. */
    predicate Ignored(featureRDMA: bool) {
      Upsert? && entry.transport.RDMA? && !featureRDMA
    }
  }

  function Empty(myVIP: IP, featureRDMA: bool): Dest {
    Dest(myVIP, featureRDMA, map[], map[])
  }

  function Do(d: Dest, op: Op): Option<Dest> {
    match op
    case Upsert(entry) => d.Upsert(entry)
    case Remove(ip, port) => d.Remove(ip, port)
  }

  /** The table after the first `n` operations of a history; None once one panicked. */
  function After(myVIP: IP, featureRDMA: bool, ops: seq<Op>, n: nat): (d: Option<Dest>)
    requires n <= |ops|
    ensures d.Some? ==> d.value.myVIP == myVIP && d.value.featureRDMA == featureRDMA
  {
    if n == 0 then Some(Empty(myVIP, featureRDMA))
    else
      var before := After(myVIP, featureRDMA, ops, n - 1);
      if before.None? then None else Do(before.value, ops[n - 1])
  }

  // ------------------------------------------------- what a history leaves behind

  ghost predicate Upserts(ops: seq<Op>, featureRDMA: bool, slot: Slot, j: nat) {
    j < |ops| && ops[j].Upsert? && ops[j].Target() == slot && !ops[j].Ignored(featureRDMA)
  }

  ghost predicate Removes(ops: seq<Op>, slot: Slot, l: nat) {
    l < |ops| && ops[l].Remove? && ops[l].Target() == slot
  }

  /** Among the first `n` operations the slot was filled and later removed. */
  ghost predicate Retired(ops: seq<Op>, featureRDMA: bool, slot: Slot, n: nat) {
    exists j: nat, l: nat | j < l < n :: Upserts(ops, featureRDMA, slot, j) && Removes(ops, slot, l)
  }

  ghost predicate Filled(ops: seq<Op>, featureRDMA: bool, slot: Slot, n: nat) {
    exists j: nat | j < n :: Upserts(ops, featureRDMA, slot, j)
  }

  /** The entries the first `n` operations upserted into a slot's class, in order. */
  function Written(ops: seq<Op>, featureRDMA: bool, slot: Slot, t: Transport, n: nat): seq<Entry>
    requires n <= |ops|
  {
    if n == 0 then []
    else
      var op := ops[n - 1];
      Written(ops, featureRDMA, slot, t, n - 1) +
      if op.Upsert? && op.Target() == slot && op.entry.transport == t && !op.Ignored(featureRDMA) then [op.entry] else []
  }

  ghost predicate HoldsWritten(classes: seq<seq<Entry>>, ops: seq<Op>, featureRDMA: bool, slot: Slot, n: nat)
    requires n <= |ops|
  {
    |classes| == NUM_TRANSPORT && forall t: Transport :: classes[Class(t)] == Written(ops, featureRDMA, slot, t, n)
  }

  lemma OneMore(ops: seq<Op>, featureRDMA: bool, slot: Slot, n: nat)
    requires 0 < n <= |ops|
    ensures Filled(ops, featureRDMA, slot, n) <==>
            Filled(ops, featureRDMA, slot, n - 1) || Upserts(ops, featureRDMA, slot, n - 1)
    ensures Retired(ops, featureRDMA, slot, n) <==>
            Retired(ops, featureRDMA, slot, n - 1) || (Filled(ops, featureRDMA, slot, n - 1) && Removes(ops, slot, n - 1))
  {
    hide IP2Int;
    if Retired(ops, featureRDMA, slot, n) {
      var j: nat, l: nat :| j < l < n && Upserts(ops, featureRDMA, slot, j) && Removes(ops, slot, l);
    }
  }

  /** What a client lookup finds: nothing if the slot was never filled or was
      retired, and otherwise four classes holding exactly what was written. */
  lemma {:induction false} ClientIndex(myVIP: IP, featureRDMA: bool, ops: seq<Op>, n: nat, slot: Slot)
    requires n <= |ops|
    requires After(myVIP, featureRDMA, ops, n).Some?
    ensures var d := After(myVIP, featureRDMA, ops, n).value;
            && (slot in d.client <==> Filled(ops, featureRDMA, slot, n))
            && (Retired(ops, featureRDMA, slot, n) ==> d.client[slot] == [])
            && (Filled(ops, featureRDMA, slot, n) && !Retired(ops, featureRDMA, slot, n) ==>
                  HoldsWritten(d.client[slot], ops, featureRDMA, slot, n))
    ensures !Filled(ops, featureRDMA, slot, n) ==>
            forall t: Transport :: Written(ops, featureRDMA, slot, t, n) == []
  {
    hide IP2Int;
    if n > 0 {
      ClientIndex(myVIP, featureRDMA, ops, n - 1, slot);
      OneMore(ops, featureRDMA, slot, n);
      var op := ops[n - 1];
      var before := After(myVIP, featureRDMA, ops, n - 1).value;
      var after := After(myVIP, featureRDMA, ops, n).value;
      if op.Target() != slot || op.Ignored(featureRDMA) {
        assert slot in before.client <==> slot in after.client;
        assert forall t: Transport :: Written(ops, featureRDMA, slot, t, n) == Written(ops, featureRDMA, slot, t, n - 1);
      } else if op.Upsert? {
        assert Upserts(ops, featureRDMA, slot, n - 1);
        forall t: Transport
          ensures after.client[slot][Class(t)] == Written(ops, featureRDMA, slot, t, n)
        {
        }
      }
    }
  }

  lemma {:induction false} WrittenAre(ops: seq<Op>, featureRDMA: bool, slot: Slot, t: Transport, n: nat)
    requires n <= |ops|
    ensures forall e | e in Written(ops, featureRDMA, slot, t, n) :: e.transport == t
  {
    if n > 0 {
      WrittenAre(ops, featureRDMA, slot, t, n - 1);
    }
  }

  /** The order in which transports are preferred. */
  predicate Before(t: Transport, u: Transport) {
    match t
    case UNIX => u.RDMA? || u.IPv6? || u.IPv4?
    case RDMA => u.IPv6? || u.IPv4?
    case IPv6 => u.IPv4?
    case IPv4 => false
  }

  /** The four classes of a lookup, by number: UNIX, RDMA, IPv6 and IPv4, each with exactly
      what was written. */
  lemma ClassesInOrder(myVIP: IP, featureRDMA: bool, ops: seq<Op>, n: nat, ip: IP, port: Port)
    requires n <= |ops| && After(myVIP, featureRDMA, ops, n).Some?
    ensures var slot := SlotOf(ip, port);
            After(myVIP, featureRDMA, ops, n).value.GetClient(ip, port) ==
            if Filled(ops, featureRDMA, slot, n) && !Retired(ops, featureRDMA, slot, n) then
              [Written(ops, featureRDMA, slot, UNIX, n), Written(ops, featureRDMA, slot, RDMA, n),
               Written(ops, featureRDMA, slot, IPv6, n), Written(ops, featureRDMA, slot, IPv4, n)]
            else []
  {
    var slot := SlotOf(ip, port);
    ClientIndex(myVIP, featureRDMA, ops, n, slot);
    hide After;
    hide Written;
    hide Filled;
    hide Retired;
    var classes := After(myVIP, featureRDMA, ops, n).value.GetClient(ip, port);
    if Filled(ops, featureRDMA, slot, n) && !Retired(ops, featureRDMA, slot, n) {
      assert classes[Class(UNIX)] == Written(ops, featureRDMA, slot, UNIX, n);
      assert classes[Class(RDMA)] == Written(ops, featureRDMA, slot, RDMA, n);
      assert classes[Class(IPv6)] == Written(ops, featureRDMA, slot, IPv6, n);
      assert classes[Class(IPv4)] == Written(ops, featureRDMA, slot, IPv4, n);
    }
  }

  /** A history kills the process exactly when it touches a retired slot again. */
  lemma {:induction false} PanicsExactly(myVIP: IP, featureRDMA: bool, ops: seq<Op>, n: nat)
    requires n <= |ops|
    ensures After(myVIP, featureRDMA, ops, n).None? <==>
            exists i: nat | i < n :: !ops[i].Ignored(featureRDMA) && Retired(ops, featureRDMA, ops[i].Target(), i)
  {
    hide IP2Int;
    if n > 0 {
      PanicsExactly(myVIP, featureRDMA, ops, n - 1);
      if After(myVIP, featureRDMA, ops, n - 1).Some? {
        ClientIndex(myVIP, featureRDMA, ops, n - 1, ops[n - 1].Target());
      }
    }
  }

  /** For instance: one destination is upserted, removed, and upserted again. */
  lemma RefillPanics(myVIP: IP, featureRDMA: bool)
    ensures var e := RawEntry([10, 0, 0, 2], Port(80), UNIX, AddrUNIX("/run/web.sock"));
            var ops := [Upsert(e), Remove(e.vip, e.vport), Upsert(e)];
            After(myVIP, featureRDMA, ops, 2).Some? && After(myVIP, featureRDMA, ops, 3).None?
  {
    hide IP2Int;
    var e := RawEntry([10, 0, 0, 2], Port(80), UNIX, AddrUNIX("/run/web.sock"));
    var ops := [Upsert(e), Remove(e.vip, e.vport), Upsert(e)];
    assert After(myVIP, featureRDMA, ops, 0).Some?;
    assert After(myVIP, featureRDMA, ops, 1) == Empty(myVIP, featureRDMA).Upsert(e);
    assert After(myVIP, featureRDMA, ops, 2) == After(myVIP, featureRDMA, ops, 1).value.Remove(e.vip, e.vport);
  }

  // ------------------------------------------------------------ table invariant

  ghost predicate FiledUnder(e: Entry, slot: Slot, t: Transport, featureRDMA: bool) {
    e.transport == t && e.vport == slot.port && IP2Int(e.vip) == slot.key && (featureRDMA || !t.RDMA?)
  }

  ghost predicate WellFiled(classes: seq<seq<Entry>>, slot: Slot, featureRDMA: bool) {
    && |classes| == NUM_TRANSPORT
    && (exists t: Transport :: classes[Class(t)] != [])
    && forall t: Transport, e :: e in classes[Class(t)] ==> FiledUnder(e, slot, t, featureRDMA)
  }

  ghost predicate Shaped(d: Dest) {
    && (forall slot :: slot in d.client && d.client[slot] != [] ==> WellFiled(d.client[slot], slot, d.featureRDMA))
    && (forall port, e :: e in d.GetServer(port) ==>
          e.vport == port && Equal(e.vip, d.myVIP) && (d.featureRDMA || !e.transport.RDMA?))
  }

  /** What every lookup may rely on, after any history that did not panic: the
      entries found carry the class's transport, the queried port and key, and
      no RDMA entry exists while the feature is off. */
  lemma {:induction false} AlwaysShaped(myVIP: IP, featureRDMA: bool, ops: seq<Op>, n: nat)
    requires n <= |ops|
    requires After(myVIP, featureRDMA, ops, n).Some?
    ensures Shaped(After(myVIP, featureRDMA, ops, n).value)
  {
    hide IP2Int;
    if n > 0 {
      AlwaysShaped(myVIP, featureRDMA, ops, n - 1);
      DoKeepsShaped(After(myVIP, featureRDMA, ops, n - 1).value, ops[n - 1]);
    }
  }

  lemma AppendIsWellFiled(classes: seq<seq<Entry>>, slot: Slot, e: Entry, featureRDMA: bool)
    requires classes == [] || WellFiled(classes, slot, featureRDMA)
    requires FiledUnder(e, slot, e.transport, featureRDMA)
    ensures WellFiled(AppendTo(classes, e), slot, featureRDMA)
  {
    hide IP2Int;
    var classes' := AppendTo(classes, e);
    assert classes'[Class(e.transport)] != [];
    forall t: Transport, x | x in classes'[Class(t)]
      ensures FiledUnder(x, slot, t, featureRDMA)
    {
      assert (classes != [] && x in classes[Class(t)]) || (x == e && t == e.transport);
    }
  }

  lemma DoKeepsShaped(d: Dest, op: Op)
    requires Shaped(d) && Do(d, op).Some?
    ensures Shaped(Do(d, op).value) && Do(d, op).value.featureRDMA == d.featureRDMA
  {
    hide IP2Int;
    var d' := Do(d, op).value;
    if op.Upsert? && !op.Ignored(d.featureRDMA) {
      var slot := op.Target();
      AppendIsWellFiled(d.GetClient(op.entry.vip, op.entry.vport), slot, op.entry, d.featureRDMA);
    }
    forall port, e | e in d'.GetServer(port)
      ensures e.vport == port && Equal(e.vip, d.myVIP) && (d.featureRDMA || !e.transport.RDMA?)
    {
      assert e in d.GetServer(port) || (op.Upsert? && e == op.entry && !op.Ignored(d.featureRDMA));
    }
  }

  /** On canonical addresses a client lookup returns the queried address itself. */
  lemma ClientFindsTheAddress(d: Dest, ip: IP, port: Port, t: Transport, e: Entry)
    requires Shaped(d) && d.GetClient(ip, port) != []
    requires Canonical(ip) && Canonical(e.vip)
    requires |d.GetClient(ip, port)| == NUM_TRANSPORT && e in d.GetClient(ip, port)[Class(t)]
    ensures Equal(e.vip, ip) && e.vport == port && e.transport == t
  {
    assert FiledUnder(e, SlotOf(ip, port), t, d.featureRDMA);
    KeyIsEqual(e.vip, ip);
  }

  // -------------------------------------------------------- the indexes compared

  function OfClass(es: seq<Entry>, t: Transport): seq<Entry> {
    if es == [] then []
    else OfClass(es[..|es| - 1], t) + if es[|es| - 1].transport == t then [es[|es| - 1]] else []
  }

  lemma OfClassAppend(es: seq<Entry>, e: Entry, t: Transport)
    ensures OfClass(es + [e], t) == OfClass(es, t) + if e.transport == t then [e] else []
  {
    assert (es + [e])[..|es|] == es;
  }

  ghost predicate SameEntries(classes: seq<seq<Entry>>, server: seq<Entry>) {
    if classes == [] then server == []
    else |classes| == NUM_TRANSPORT && forall t: Transport :: OfClass(server, t) == classes[Class(t)]
  }

  lemma AppendToOneOrBoth(classes: seq<seq<Entry>>, server: seq<Entry>, e: Entry)
    requires SameEntries(classes, server)
    ensures SameEntries(AppendTo(classes, e), server + [e])
    ensures !SameEntries(AppendTo(classes, e), server)
  {
    var r := AppendTo(classes, e);
    forall t: Transport
      ensures r[Class(t)] == OfClass(server, t) + if e.transport == t then [e] else []
    {
      assert OfClass(server, t) == if classes == [] then [] else classes[Class(t)];
    }
    forall t: Transport
      ensures OfClass(server + [e], t) == r[Class(t)]
    {
      OfClassAppend(server, e, t);
    }
    assert |r[Class(e.transport)]| == |OfClass(server, e.transport)| + 1;
  }

  ghost predicate AgreeAt(d: Dest, port: Port) {
    SameEntries(d.GetClient(d.myVIP, port), d.GetServer(port))
  }

  /** For its own address, a server reads by port what a client reads by class. */
  ghost predicate IndexesAgree(d: Dest) {
    forall port: Port :: AgreeAt(d, port)
  }

  /** An operation that files under this server's key addresses this server. The
      key and `IP.Equal` differ only on the addresses `Vip.KeyKernel` names. */
  ghost predicate Aligned(d: Dest, op: Op) {
    IP2Int(op.Address()) == IP2Int(d.myVIP) <==> Equal(op.Address(), d.myVIP)
  }

  /** Nothing is written: a filtered upsert, or a removal of an unused slot. */
  ghost predicate Idle(d: Dest, op: Op) {
    op.Ignored(d.featureRDMA) || (op.Remove? && op.Target() !in d.client)
  }

  lemma EqualHaveOneKey(a: IP, b: IP)
    requires Equal(a, b)
    ensures IP2Int(a) == IP2Int(b)
  {
    KeyKernel(a, b);
  }

  lemma AgreementKeptAtOtherPorts(d: Dest, op: Op)
    requires Do(d, op).Some?
    ensures forall port | port != op.Target().port :: AgreeAt(Do(d, op).value, port) <==> AgreeAt(d, port)
  {
    hide IP2Int;
    var d' := Do(d, op).value;
    forall port | port != op.Target().port
      ensures AgreeAt(d', port) <==> AgreeAt(d, port)
    {
      assert d'.GetClient(d.myVIP, port) == d.GetClient(d.myVIP, port);
      assert d'.GetServer(port) == d.GetServer(port);
    }
  }

  lemma UpsertAgreement(d: Dest, e: Entry)
    requires AgreeAt(d, e.vport) && d.Upsert(e).Some?
    requires !Upsert(e).Ignored(d.featureRDMA)
    ensures AgreeAt(d.Upsert(e).value, e.vport) <==> Aligned(d, Upsert(e))
  {
    hide IP2Int;
    if Equal(e.vip, d.myVIP) {
      EqualHaveOneKey(e.vip, d.myVIP);
    }
    hide Equal;
    if IP2Int(e.vip) == IP2Int(d.myVIP) {
      AppendToOneOrBoth(d.GetClient(d.myVIP, e.vport), d.GetServer(e.vport), e);
    }
    hide SameEntries;
    hide AppendTo;
  }

  lemma RemoveAgreement(d: Dest, ip: IP, port: Port)
    requires Shaped(d) && AgreeAt(d, port) && d.Remove(ip, port).Some?
    ensures AgreeAt(d.Remove(ip, port).value, port) <==> Aligned(d, Remove(ip, port)) || SlotOf(ip, port) !in d.client
  {
    hide IP2Int;
    var d' := d.Remove(ip, port).value;
    var slot := SlotOf(ip, port);
    if Equal(ip, d.myVIP) {
      EqualHaveOneKey(ip, d.myVIP);
    } else if IP2Int(ip) == IP2Int(d.myVIP) && slot in d.client {
      assert WellFiled(d.client[slot], slot, d.featureRDMA);
      assert d.GetServer(port) != [];
      assert d'.GetServer(port) == d.GetServer(port) && d'.GetClient(d.myVIP, port) == [];
    } else {
      assert d'.GetClient(d.myVIP, port) == d.GetClient(d.myVIP, port);
      assert d'.GetServer(port) == d.GetServer(port);
    }
  }

  /** One operation keeps the indexes in agreement exactly when it is aligned or
      writes nothing. */
  lemma AgreementStep(d: Dest, op: Op)
    requires Shaped(d) && IndexesAgree(d) && Do(d, op).Some?
    ensures IndexesAgree(Do(d, op).value) <==> Aligned(d, op) || Idle(d, op)
  {
    hide IP2Int;
    var port := op.Target().port;
    AgreementKeptAtOtherPorts(d, op);
    assert AgreeAt(d, port);
    match op
    case Upsert(e) =>
      if !op.Ignored(d.featureRDMA) { UpsertAgreement(d, e); }
    case Remove(ip, port) =>
      RemoveAgreement(d, ip, port);
  }

  ghost predicate AgreesAfter(myVIP: IP, featureRDMA: bool, ops: seq<Op>, i: nat) {
    i <= |ops| && After(myVIP, featureRDMA, ops, i).Some? && IndexesAgree(After(myVIP, featureRDMA, ops, i).value)
  }

  ghost predicate HarmlessNext(myVIP: IP, featureRDMA: bool, ops: seq<Op>, i: nat) {
    i < |ops| && After(myVIP, featureRDMA, ops, i).Some? &&
    var d := After(myVIP, featureRDMA, ops, i).value;
    Aligned(d, ops[i]) || Idle(d, ops[i])
  }

  /** Over a whole history the indexes agree at every moment exactly when every
      operation that writes is aligned. */
  lemma {:induction false} IndexesAgreeThroughout(myVIP: IP, featureRDMA: bool, ops: seq<Op>, n: nat)
    requires n <= |ops|
    requires After(myVIP, featureRDMA, ops, n).Some?
    ensures (forall i: nat | i <= n :: AgreesAfter(myVIP, featureRDMA, ops, i)) <==>
            (forall i: nat | i < n :: HarmlessNext(myVIP, featureRDMA, ops, i))
  {
    hide IP2Int;
    if n == 0 {
      assert IndexesAgree(Empty(myVIP, featureRDMA));
    } else {
      IndexesAgreeThroughout(myVIP, featureRDMA, ops, n - 1);
      AlwaysShaped(myVIP, featureRDMA, ops, n - 1);
      if AgreesAfter(myVIP, featureRDMA, ops, n - 1) {
        AgreementStep(After(myVIP, featureRDMA, ops, n - 1).value, ops[n - 1]);
        assert AgreesAfter(myVIP, featureRDMA, ops, n) <==> HarmlessNext(myVIP, featureRDMA, ops, n - 1);
      }
    }
  }

  /** Canonical addresses are always aligned. */
  lemma CanonicalIsAligned(d: Dest, op: Op)
    requires Canonical(d.myVIP) && Canonical(op.Address())
    ensures Aligned(d, op)
  {
    KeyIsEqual(op.Address(), d.myVIP);
  }

  // ------------------------------------------------- the source's own structure

  type Nested = map<U64, map<U64, map<Port, seq<seq<Entry>>>>>

  predicate Present(m: Nested, slot: Slot) {
    slot.key.0 in m && slot.key.1 in m[slot.key.0] && slot.port in m[slot.key.0][slot.key.1]
  }

  function Find(m: Nested, slot: Slot): seq<seq<Entry>>
    requires Present(m, slot)
  {
    m[slot.key.0][slot.key.1][slot.port]
  }

  ghost predicate Mirrors(flat: map<Slot, seq<seq<Entry>>>, m: Nested) {
    && (forall slot: Slot :: slot in flat <==> Present(m, slot))
    && (forall slot: Slot :: slot in flat ==> flat[slot] == Find(m, slot))
  }

  lemma MirrorsAt(flat: map<Slot, seq<seq<Entry>>>, m: Nested, slot: Slot)
    requires Mirrors(flat, m)
    ensures slot in flat <==> Present(m, slot)
    ensures slot in flat ==> flat[slot] == Find(m, slot)
  {
  }

  lemma PutMirrors(flat: map<Slot, seq<seq<Entry>>>, m: Nested, slot: Slot, classes: seq<seq<Entry>>)
    requires Mirrors(flat, m)
    ensures Mirrors(flat[slot := classes], Put(m, slot, classes))
  {
    var m' := Put(m, slot, classes);
    forall s: Slot
      ensures Present(m', s) <==> s == slot || Present(m, s)
      ensures Present(m', s) ==> Find(m', s) == if s == slot then classes else Find(m, s)
    {
      assert s == slot <==> s.key.0 == slot.key.0 && s.key.1 == slot.key.1 && s.port == slot.port;
    }
  }

  function Put(m: Nested, slot: Slot, classes: seq<seq<Entry>>): Nested {
    var v1 := if slot.key.0 in m then m[slot.key.0] else map[];
    var v2 := if slot.key.1 in v1 then v1[slot.key.1] else map[];
    m[slot.key.0 := v1[slot.key.1 := v2[slot.port := classes]]]
  }

  /** Three maps deep by key halves and port, and by port for servers. Upsert and
      Remove index whatever slice they find, so the slot must not be retired. */
  class Entries {
    const myVIP: IP
    const featureRDMA: bool
    var clientEntries: Nested
    var serverEntries: map<Port, seq<Entry>>
    ghost var Table: Dest

    ghost predicate Valid()
      reads this
    {
      && Table.myVIP == myVIP && Table.featureRDMA == featureRDMA && Table.server == serverEntries
      && Mirrors(Table.client, clientEntries)
    }

    constructor (myVIP: IP, featureRDMA: bool)
      ensures Valid() && Table == Empty(myVIP, featureRDMA)
    {
      this.myVIP := myVIP;
      this.featureRDMA := featureRDMA;
      clientEntries := map[];
      serverEntries := map[];
      Table := Empty(myVIP, featureRDMA);
    }

    method Upsert(ip: IP, port: Port, transport: Transport, address: Address)
      requires Valid()
      requires WellTyped(RawEntry(ip, port, transport, address))
      requires Table.Upsert(RawEntry(ip, port, transport, address)).Some?
      modifies this
      ensures Valid() && Some(Table) == old(Table).Upsert(RawEntry(ip, port, transport, address))
    {
      hide IP2Int;
      hide Equal;
      hide Put;
      hide Mirrors;
      hide AppendTo;
      var entry: Entry := RawEntry(ip, port, transport, address);
      if !featureRDMA && transport == RDMA {
        return;
      }
      var (upper, lower) := IP2Int(ip);
      ghost var slot, classes := SlotOf(ip, port), Table.GetClient(ip, port);
      MirrorsAt(Table.client, clientEntries, slot);
      PutMirrors(Table.client, clientEntries, slot, AppendTo(classes, entry));
      UpsertClient(upper, lower, port, transport, entry);
      if Equal(ip, myVIP) {
        if port !in serverEntries {
          serverEntries := serverEntries[port := []];
        }
        serverEntries := serverEntries[port := serverEntries[port] + [entry]];
      }
      Table := Table.Upsert(entry).value;
    }

    /** The client half of Upsert: create what is missing on the way down, append. */
    method UpsertClient(upper: U64, lower: U64, port: Port, transport: Transport, entry: Entry)
      requires entry.transport == transport
      requires Present(clientEntries, Slot((upper, lower), port)) ==>
               |Find(clientEntries, Slot((upper, lower), port))| == NUM_TRANSPORT
      modifies this`clientEntries
      ensures var slot := Slot((upper, lower), port);
              var classes := if Present(old(clientEntries), slot) then Find(old(clientEntries), slot) else [];
              clientEntries == Put(old(clientEntries), slot, AppendTo(classes, entry))
    {
      ghost var v1 := if upper in clientEntries then clientEntries[upper] else map[];
      ghost var v2 := if lower in v1 then v1[lower] else map[];
      if upper !in clientEntries {
        clientEntries := clientEntries[upper := map[]];
      }
      assert clientEntries == old(clientEntries)[upper := v1];
      if lower !in clientEntries[upper] {
        clientEntries := clientEntries[upper := clientEntries[upper][lower := map[]]];
      }
      assert clientEntries[upper] == v1[lower := v2];
      assert clientEntries == old(clientEntries)[upper := v1[lower := v2]];
      var ports := clientEntries[upper][lower];
      if port !in ports {
        ports := ports[port := NO_ENTRIES];
      }
      ports := ports[port := ports[port][Class(transport) := ports[port][Class(transport)] + [entry]]];
      assert ports == v2[port := AppendTo(if port in v2 then v2[port] else [], entry)];
      clientEntries := clientEntries[upper := clientEntries[upper][lower := ports]];
      assert clientEntries[upper] == v1[lower := ports];
      assert clientEntries == old(clientEntries)[upper := v1[lower := ports]];
    }

    method Remove(ip: IP, port: Port)
      requires Valid()
      requires Table.Remove(ip, port).Some?
      modifies this
      ensures Valid() && Some(Table) == old(Table).Remove(ip, port)
    {
      hide IP2Int;
      var (upper, lower) := IP2Int(ip);
      ghost var slot, before := SlotOf(ip, port), clientEntries;
      MirrorsAt(Table.client, clientEntries, slot);
      PutMirrors(Table.client, clientEntries, slot, []);
      if upper in clientEntries {
        if lower in clientEntries[upper] {
          if port in clientEntries[upper][lower] {
            var classes := clientEntries[upper][lower][port];
            for i := 0 to NUM_TRANSPORT
              invariant |classes| == NUM_TRANSPORT
            {
              classes := classes[i := []];
            }
            clientEntries := clientEntries[upper := clientEntries[upper][lower := clientEntries[upper][lower][port := []]]];
            assert clientEntries == Put(before, slot, []);
          }
        }
      }
      if Equal(ip, myVIP) {
        if port in serverEntries {
          serverEntries := serverEntries[port := []];
        }
      }
      Table := Table.Remove(ip, port).value;
    }

    method GetClient(ip: IP, port: Port) returns (r: seq<seq<Entry>>)
      requires Valid()
      ensures r == Table.GetClient(ip, port)
    {
      hide IP2Int;
      var (upper, lower) := IP2Int(ip);
      MirrorsAt(Table.client, clientEntries, SlotOf(ip, port));
      if upper in clientEntries {
        var v1 := clientEntries[upper];
        if lower in v1 {
          var v2 := v1[lower];
          if port in v2 {
            return v2[port];
          }
        }
      }
      return [];
    }

    method GetServer(port: Port) returns (r: seq<Entry>)
      requires Valid()
      ensures r == Table.GetServer(port)
    {
      if port in serverEntries {
        return serverEntries[port];
      }
      return [];
    }
  }
}
