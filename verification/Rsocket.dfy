/** `seccomp/rsocket.go`: the control channel of the RDMA library, and the policy
    verdict on a peer, whichever transport announces it. */
module Rsocket {
  import opened Net
  import opened Sockaddrs
  import opened Kernel
  import opened Socket
  import AC = AccessControl
  import D = Destination
  import opened Transports

  const SIZE_UNIX := 110

  const OK: Bytes := [79, 75]
  const NO: Bytes := [78, 79]
  const ER: Bytes := [69, 82]
  const PING: Bytes := [80, 73, 78, 71]
  const MVIP: Bytes := [77, 86, 73, 80]
  const ACON: Bytes := [65, 67, 79, 78]

  /** "tiaccoon-rsocket-control" */
  const CONTROL_PATH: Bytes :=
    [116, 105, 97, 99, 99, 111, 111, 110, 45, 114, 115, 111, 99, 107, 101, 116, 45, 99, 111, 110, 116, 114, 111, 108]

  // --------------------------------------------------------------- control path

  /** The bytes before the first NUL. */
  function CString(b: Bytes): (r: Bytes)
    ensures |r| <= |b| && r == b[..|r|] && 0 !in r
    ensures |r| < |b| ==> b[|r|] == 0
  {
    if b == [] || b[0] == 0 then [] else [b[0]] + CString(b[1..])
  }

  /** `getSockaddrUnixPath`: the whole structure must be there. */
  function UnixPath(buf: Bytes): Option<Bytes> {
    if |buf| < SIZE_UNIX || Le16(buf[..2]) != AF_UNIX then None else Some(CString(buf[2..SIZE_UNIX]))
  }

  lemma {:induction false} CStringIs(b: Bytes, n: nat)
    requires n <= |b| && 0 !in b[..n] && (n < |b| ==> b[n] == 0)
    ensures CString(b) == b[..n]
  {
    if n > 0 {
      assert b[0] in b[..n] && b[1..][..n - 1] == b[..n][1..];
      CStringIs(b[1..], n - 1);
      assert b[..n] == [b[0]] + b[1..][..n - 1];
    }
  }

  /** Which buffers name a path: an AF_UNIX address that is wholly there, with the path from
      its third byte up to a NUL or to the end of the structure. */
  lemma PathExactly(buf: Bytes, path: Bytes)
    requires 0 !in path
    ensures UnixPath(buf) == Some(path) <==>
            && |buf| >= 110 && buf[0] == 1 && buf[1] == 0
            && |path| <= 108 && buf[2..2 + |path|] == path && (|path| < 108 ==> buf[2 + |path|] == 0)
  {
    if |buf| >= 110 {
      WordIs(buf[1], buf[0], 1);
      var b := buf[2..110];
      if |path| <= 108 && buf[2..2 + |path|] == path && (|path| < 108 ==> buf[2 + |path|] == 0) {
        assert b[..|path|] == path;
        CStringIs(b, |path|);
      }
      if CString(b) == path {
        assert b[..|path|] == path && buf[2..2 + |path|] == b[..|path|];
      }
    }
    hide CString;
    hide Word;
  }

  method GetSockaddrUnixPath(buf: Bytes) returns (r: Option<Bytes>)
    ensures r == UnixPath(buf)
  {
    if |buf| < SIZE_UNIX || Le16(buf[..2]) != AF_UNIX {
      return None;
    }
    var path := buf[2..SIZE_UNIX];
    var bp: Bytes := [];
    for i := 0 to |path|
      invariant bp == path[..i] && 0 !in bp
    {
      if path[i] == 0 {
        CStringIs(path, i);
        return Some(bp);
      }
      bp := bp + [path[i]];
    }
    CStringIs(path, |path|);
    r := Some(bp);
  }

  // ------------------------------------------------------------------- commands

  /** `handleRsocketMYVIP`. */
  function MyVip(myVIP: IP): Option<Bytes> {
    var image := Print(FromIPPort(AF_INET, myVIP, Port(0), 0, 0).value);
    if image.None? then None else Some(OK + image.value)
  }

  /** `handleRsocketAccessControl`; None is an error. */
  function AccessVerdict(sae: AC.Acl, addr: Bytes): Option<Bytes> {
    if |addr| != 16 || Parse(addr).None? then None
    else if sae.Apply(Parse(addr).value.ip) then Some(OK) else Some(NO)
  }

  /** One command in the 64-byte buffer of `handleRsocket`. */
  function Answer(sae: AC.Acl, myVIP: IP, buf: Bytes): Bytes
    requires |buf| == 64
  {
    var r :=
      if buf[..4] == PING then Some(OK)
      else if buf[..4] == MVIP then MyVip(myVIP)
      else if buf[..4] == ACON then AccessVerdict(sae, buf[4..20])
      else Some(ER);
    if r.None? then ER else r.value
  }

  /** The engine's address as MVIP tells it: 16 bytes, with 0.0.0.0 for one that has no
      IPv4 form. */
  lemma MyVipBytes(myVIP: IP)
    ensures MyVip(myVIP) ==
            Some([79, 75] + ([2, 0, 0, 0] + (if To4(myVIP) != [] then To4(myVIP) else [0, 0, 0, 0]) + [0, 0, 0, 0, 0, 0, 0, 0]))
  {
    var ip := if To4(myVIP) != [] then To4(myVIP) else [0, 0, 0, 0];
    assert Fit(To4(To4(myVIP)), 4) == ip;
    assert PutLe16(AF_INET) + PutBe16(0) == [2, 0, 0, 0];
    assert ZERO8 == [0, 0, 0, 0, 0, 0, 0, 0];
  }

  /** The verdict on 16 bytes: there is none unless they are an AF_INET address. */
  lemma VerdictBytes(sae: AC.Acl, addr: Bytes)
    requires |addr| == 16
    ensures AccessVerdict(sae, addr) ==
            if addr[0] == 2 && addr[1] == 0 then Some(if sae.Apply(addr[4..8]) then [79, 75] else [78, 79]) else None
  {
    ParseBytes(addr);
    hide Parse;
    hide AC.Acl.Apply;
  }

  /** The answer to each command, by its bytes: OK to PING; OK and the engine's IPv4 address,
      or 0.0.0.0, to MVIP; the verdict to ACON; and ER to anything else. */
  lemma AnswerExactly(sae: AC.Acl, myVIP: IP, buf: Bytes)
    requires |buf| == 64
    ensures Answer(sae, myVIP, buf) ==
            if buf[..4] == [80, 73, 78, 71] then [79, 75]
            else if buf[..4] == [77, 86, 73, 80] then
              [79, 75] + ([2, 0, 0, 0] + (if To4(myVIP) != [] then To4(myVIP) else [0, 0, 0, 0]) + [0, 0, 0, 0, 0, 0, 0, 0])
            else if buf[..4] == [65, 67, 79, 78] && buf[4] == 2 && buf[5] == 0 then
              if sae.Apply(buf[8..12]) then [79, 75] else [78, 79]
            else [69, 82]
  {
    var addr := buf[4..20];
    assert addr[0] == buf[4] && addr[1] == buf[5];
    assert addr[4] == buf[8] && addr[5] == buf[9] && addr[6] == buf[10] && addr[7] == buf[11];
    assert addr[4..8] == buf[8..12];
    MyVipBytes(myVIP);
    VerdictBytes(sae, addr);
    hide MyVip;
    hide AccessVerdict;
    hide AC.Acl.Apply;
  }

  /** The commands of `handleRsocket`, as the source serves them. */
  method Serve(sae: AC.Entries, myVIP: IP, buf: Bytes) returns (resp: Bytes)
    requires sae.Valid() && |buf| == 64
    ensures resp == Answer(sae.Table, myVIP, buf)
  {
    var cmd := buf[..4];
    if cmd == PING {
      return OK;
    } else if cmd == MVIP {
      var sa := FromIPPort(AF_INET, myVIP, Port(0), 0, 0);
      var image := SockaddrToByte(sa.value);
      if image.None? {
        return ER;
      }
      return OK + image.value;
    } else if cmd == ACON {
      var rsa := NewSockaddr(buf[4..20]);
      if rsa.None? {
        return ER;
      }
      var ok := sae.Apply(rsa.value.ip);
      return if ok then OK else NO;
    }
    resp := ER;
  }

  // -------------------------------------------------------------------- verdicts

  /** Allowed means: the message announces an address, and the policy admits it. */
  predicate Admits(sae: AC.Acl, msg: Bytes) {
    Announces(Some(msg)) && sae.Apply(msg[4..8])
  }

  predicate AcceptsOver(t: D.Transport) {
    t.UNIX? || t.IPv4?
  }

  /** The accept procedure of a transport. */
  function AcceptBy(t: D.Transport, a: Option<Arrival>, msg: Option<Bytes>): Option<HostSocket>
    requires AcceptsOver(t)
  {
    if t.UNIX? then Socket.AcceptUNIX(a, msg) else Socket.AcceptIPv4(a, msg)
  }

  /** Goroutine `wi` stands at `pc`. */
  predicate IsAt(s: Sock, wi: nat, pc: Pc) {
    wi < |s.workers| && s.workers[wi].pc == pc
  }

  /** Goroutine `wi` is about to accept over `t`. */
  predicate Accepts(s: Sock, wi: nat, t: D.Transport) {
    IsAt(s, wi, Accepting) && s.workers[wi].listener < |s.hs| && s.hs[s.workers[wi].listener].entry.transport == t
  }

  /** The goroutine takes `n` steps, if it is there. */
  function Steps(s: Sock, sid: nat, wi: nat, o: WorkOracle, sae: AC.Acl, now: nat, k: Kern, n: nat): (Sock, Kern) {
    if n == 0 then (s, k)
    else
      var (s1, k1) := Steps(s, sid, wi, o, sae, now, k, n - 1);
      if wi < |s1.workers| && s1.workers[wi].listener < |s1.hs| then WorkStep(s1, sid, wi, o, sae, now, k1) else (s1, k1)
  }

  lemma AcceptStep(s: Sock, sid: nat, wi: nat, o: WorkOracle, sae: AC.Acl, now: nat, k: Kern, t: D.Transport)
    requires Accepts(s, wi, t) && AcceptsOver(t)
    ensures var (s1, k1) := Steps(s, sid, wi, o, sae, now, k, 1);
            && wi < |s1.workers| && s1.workers[wi].listener < |s1.hs|
            && s1.hs[s1.workers[wi].listener].entry.transport == t
            && if o.arrival.Some? && FromOk(t, o.arrival.value.from)
               then IsAt(s1, wi, Receiving(o.arrival.value)) && k1 == k.Open(o.arrival.value.fd, Work(sid, wi))
               else IsAt(s1, wi, Done) && k1 == if o.arrival.None? then k else k.Open(o.arrival.value.fd, Loose)
  {
    assert Steps(s, sid, wi, o, sae, now, k, 0) == (s, k);
  }

  /** The two steps of a goroutine that accept and receive are its transport's accept
      procedure. */
  lemma AcceptIsTwoSteps(s: Sock, sid: nat, wi: nat, a: Option<Arrival>, msg: Option<Bytes>, sae: AC.Acl, now: nat, k: Kern, t: D.Transport)
    requires Accepts(s, wi, t) && AcceptsOver(t)
    ensures var (s2, k2) := Steps(s, sid, wi, WorkOracle(a, msg), sae, now, k, 2);
            var peer := AcceptBy(t, a, msg);
            && wi < |s2.workers| && s2.workers[wi].listener < |s2.hs|
            && IsAt(s2, wi, if peer.Some? then Checking(peer.value) else Done)
            && k2 == if a.None? then k else k.Open(a.value.fd, if peer.Some? then Work(sid, wi) else Loose)
  {
    hide Received;
    AcceptStep(s, sid, wi, WorkOracle(a, msg), sae, now, k, t);
    if a.Some? {
      GivenAtOnce(k, a.value.fd, Work(sid, wi), Loose);
    }
  }

  /** What becomes of an arrival three steps later, when it has been accepted, received
      and checked: the peer to be stored, if any. */
  function Verdicted(s: Sock, sid: nat, wi: nat, a: Arrival, msg: Bytes, sae: AC.Acl, now: nat, k: Kern): Option<HostSocket> {
    var s3 := Steps(s, sid, wi, WorkOracle(Some(a), Some(msg)), sae, now, k, 3).0;
    if wi < |s3.workers| && s3.workers[wi].pc.Storing? then Some(s3.workers[wi].pc.peer) else None
  }

  lemma CheckStep(s: Sock, sid: nat, wi: nat, o: WorkOracle, sae: AC.Acl, now: nat, k: Kern)
    requires wi < |s.workers| && s.workers[wi].listener < |s.hs|
    ensures var s', pc := WorkStep(s, sid, wi, o, sae, now, k).0, s.workers[wi].pc;
            && (pc.Done? ==> IsAt(s', wi, Done))
            && (pc.Checking? ==>
                  IsAt(s', wi, if sae.Apply(pc.peer.entry.vip) then Storing(pc.peer.(checkedAt := now)) else Poll))
  {
    hide AC.Acl.Apply;
  }

  lemma ByBytes(t: D.Transport, a: Arrival, msg: Bytes)
    requires FromOk(t, a.from)
    ensures AcceptBy(t, Some(a), Some(msg)) == if Announces(Some(msg)) then Some(Named(a, t, msg)) else None
  {
    PeerBytes(a, Some(msg));
  }

  /** The verdict of one goroutine, told by the bytes of the message. */
  lemma VerdictByBytes(s: Sock, sid: nat, wi: nat, a: Arrival, msg: Bytes, sae: AC.Acl, now: nat, k: Kern, t: D.Transport)
    requires Accepts(s, wi, t) && FromOk(t, a.from)
    ensures Verdicted(s, sid, wi, a, msg, sae, now, k) ==
            if Admits(sae, msg) then Some(Named(a, t, msg).(checkedAt := now)) else None
  {
    var o := WorkOracle(Some(a), Some(msg));
    AcceptIsTwoSteps(s, sid, wi, Some(a), Some(msg), sae, now, k, t);
    var (s2, k2) := Steps(s, sid, wi, o, sae, now, k, 2);
    CheckStep(s2, sid, wi, o, sae, now, k2);
    ByBytes(t, a, msg);
    assert Steps(s, sid, wi, o, sae, now, k, 3) == WorkStep(s2, sid, wi, o, sae, now, k2);
    hide AC.Acl.Apply;
    hide AcceptBy;
    hide WorkStep;
    hide Steps;
  }

  /** The transport-independent verdict. Let the same 16 bytes be received by a goroutine
      that accepts over UNIX, by one that accepts over IPv4, and in an ACON command: the
      three verdicts under one policy are one, told by the bytes alone, and both
      goroutines know the peer by the same address and port. */
  lemma VerdictIsTransportIndependent(
    u: Sock, usid: nat, uwi: nat, ua: Arrival, i: Sock, isid: nat, iwi: nat, ia: Arrival,
    msg: Bytes, sae: AC.Acl, now: nat, k: Kern, myVIP: IP, buf: Bytes)
    requires Accepts(u, uwi, D.UNIX) && ua.from.AddrUNIX?
    requires Accepts(i, iwi, D.IPv4) && ia.from.AddrIPv4?
    requires |msg| == 16 && |buf| == 64 && buf[..4] == ACON && buf[4..20] == msg
    ensures var uv, iv := Verdicted(u, usid, uwi, ua, msg, sae, now, k), Verdicted(i, isid, iwi, ia, msg, sae, now, k);
            && (uv.Some? <==> Admits(sae, msg))
            && (iv.Some? <==> Admits(sae, msg))
            && (Answer(sae, myVIP, buf) == OK <==> Admits(sae, msg))
            && (Answer(sae, myVIP, buf) == NO <==> Announces(Some(msg)) && !Admits(sae, msg))
            && (Admits(sae, msg) ==>
                  && uv.value.entry.vip == msg[4..8] == iv.value.entry.vip
                  && uv.value.entry.vport == Port(Be16(msg[2..4])) == iv.value.entry.vport)
  {
    VerdictByBytes(u, usid, uwi, ua, msg, sae, now, k, D.UNIX);
    VerdictByBytes(i, isid, iwi, ia, msg, sae, now, k, D.IPv4);
    AconBytes(sae, msg);
    hide AC.Acl.Apply;
    hide Verdicted;
    hide AccessVerdict;
  }

  lemma AconBytes(sae: AC.Acl, msg: Bytes)
    requires |msg| == 16
    ensures AccessVerdict(sae, msg) == if !Announces(Some(msg)) then None else if sae.Apply(msg[4..8]) then Some(OK) else Some(NO)
  {
    hide AC.Acl.Apply;
  }

  /** An IPv4 engine's MVIP answer carries its own address: fed to a peer's ACON it
      gets exactly that peer's policy for the engine's address. For an address with
      no IPv4 form the answer carries 0.0.0.0 instead. */
  lemma MyVipFeedsAccessControl(myVIP: IP, peer: AC.Acl)
    ensures MyVip(myVIP).Some? && |MyVip(myVIP).value| == 2 + 16 && MyVip(myVIP).value[..2] == OK
    ensures AccessVerdict(peer, MyVip(myVIP).value[2..]) ==
            Some(if peer.Apply(if To4(myVIP) != [] then myVIP else ZERO4) then OK else NO)
  {
    var sa := FromIPPort(AF_INET, myVIP, Port(0), 0, 0).value;
    assert MyVip(myVIP).value[2..] == Print(sa).value;
    if To4(myVIP) != [] {
      ParsePrint(sa);
      AC.ApplyIgnoresSpelling(peer, myVIP);
    } else {
      var zero := Sockaddr(AF_INET, ZERO4, Port(0), 0, 0);
      assert Fit([], 4) == ZERO4;
      assert Print(sa) == Print(zero);
      ParsePrint(zero);
    }
  }
}
