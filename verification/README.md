# Tiaccoon socket virtualisation, modelled and proved in Dafny

Tiaccoon replaces the socket API of containers. A seccomp handler on the host
receives each container's bind, listen, accept, connect, setsockopt, fcntl,
getpeername, getsockname, close and exit, keeps a state machine per process and
descriptor, and carries the container's connections over host sockets of whatever
transport is best, under one access policy.

This project models

- the socket engine (`pkg/tiaccoon/seccomp`): one notification loop, any number of
  accept goroutines, and policy and route updates, as a transition system over every
  interleaving, with a kernel that may refuse any call and return any number;
- the tables it consults (access control, destinations), their address key, the socket
  address codec and the RDMA control commands;
- a network of any number of such engines joined by the connections they make.

Every statement below is proved for all inputs, all runs and all behaviours of the
environment its `requires` clauses admit.

## How it is put together

| file | what it holds |
|---|---|
| `Net`, `Vip`, `Sockaddr` | Go's `net.IP`, the address key, the wire image of socket addresses |
| `AccessControl`, `Destination` | the two tables: as values with their laws, and as the nested maps the program updates in place |
| `Kernel`, `Socket`, `Connect`, `Rsocket`, `Engine` | the engine as values: what each call and each goroutine step does, then the whole handler as `Next`, and runs as `After` |
| `Transports`, `SocketStatus`, `NotifHandler` | the engine in the program's own form: stepwise procedures and the two classes that update their fields, each method proved equal to its specification above |
| `SocketInvariant`, `Invariant` | what every step keeps, and what it never does to a socket |
| `Effects` | what each kind of call leaves alone: options, host sockets, connections, removal, loss |
| `Ledger`, `Losses` | who owns which descriptor |
| `Gating`, `Runs`, `Replies`, `HostSockets`, `Options`, `Lifetimes` | policy, queues and states, answers, host sockets, their options, lifetimes |
| `Dialing`, `Progress` | what connect, bind, a goroutine's turn and accept come to, by the outcomes of the system calls alone |
| `Notifications`, `FirstCalls`, `Closings` | what becomes of one whole notification: on a registered number, on a new one, at close and exit |
| `EndToEnd` | networks of engines, and what the two ends of a connection are told |

Some fields are history only: no program decision reads them. They are the owner tags,
birth counts and the `honest` and `badCloses` marks of the kernel, the connection
(`Link`) and check time of an accepted socket, the verdicts and queue logs of a socket,
and the `log`, `conns`, `lost`, `reused` and `now` of a world.

- `honest`: the kernel has only handed out numbers that were not open.
- `lost`: some accepted descriptor could not be injected into the container.
- `reused`: some descriptor was injected under a number that was still registered.

What the environment does is a parameter: `Try`, `Draw`, `WorkOracle`, `RegOracle` and
`LoopOracle` say which system calls succeed and with which numbers and bytes.

The daemon runs one handler for each seccomp descriptor it is handed, and all share its
descriptor table. In the model of one handler the others are part of the environment:
`EnvOpens`, `EnvCloses` and `EnvSets` are what they open, close and set options on. It is
assumed that they close only descriptors they opened; `Ledger.RemovalIsBadExactly` says
when a handler does not keep to that.

## Results at a glance

- `Losses.LedgerHoldsExactly`: with an honest kernel, the tables hold open, unshared
  descriptors and nothing is closed twice, at every moment, exactly if no accepted
  descriptor failed to be injected.
- `EndToEnd.EndToEndIdentity` and `EndToEnd.TwoEndsAgree`: getpeername at the server
  gives the bytes of getsockname at the client, in a network of any size.
- `Gating.GatedAdmission`: every verdict, admission and connection is what the policy in
  force at its own check says.
- `Rsocket.VerdictIsTransportIndependent`: the accept procedures of UNIX and IPv4 and the
  ACON command give one verdict on the same bytes.
- `Options.OptionReplay`: in every step of every run, each host socket made by bind (with an
  honest kernel) or connect carries the options requested on its virtual socket until then;
  and `Options.BoundStaysUpToDate`: from then on it keeps carrying what is requested
  exactly if every later step keeps pace.
- `Runs.QueueConservation`, `Runs.QueueIsFifo`, `Runs.JointState`,
  `Lifetimes.BypassedUntilEnded`, `Replies.RepliesAgree`: over all runs.
- Transport priority. `Dialing.EarlierTransportsFailed`, and over runs
  `Notifications.ConnectPrefers`: when connect ends through an entry, every entry written for
  the address whose transport comes before it, in the order UNIX, RDMA, IPv6, IPv4, was
  tried and failed. `Dialing.ConnectUsesTheBest`: the best one that can be reached is used.
- `Connect.SelectEstablishes`, `Connect.AllFailedExactly`, `Connect.SelectTransport`: what
  the randomised transport search does, and that it ends.
- `Progress.BindExactly`, `Progress.WorkerDelivers`, `Progress.AcceptDelivers`: the good
  outcomes are reached, and when, told by the system calls' outcomes.
- Whole notifications, with literal answers and states: `Notifications.BindIsHandled`,
  `ListenIsHandled`, `ConnectIsHandled`, `AcceptIsHandled`, `NameIsHandled`,
  `FirstCalls.FirstBind`, `FirstCalls.FirstConnect`, `Closings.CloseIsHandled` and
  `Closings.ExitIsHandled`.
- `Notifications.AcceptFollowsListen`: once a socket that is not bound has been listened on,
  accept on it continues in the kernel at every later moment (until a number is injected
  twice).

## Where the code is not what one would expect

- Key collisions. `IP2Int` files ::1 with 0.0.0.1, and an IPv4 address with 16-byte
  addresses whose bytes 8-9 are not zero (`Vip.KeyCollisions`; exactly which in
  `Vip.KeyKernel`).
- A removed destination stays behind as a key with a nil slice; filling or removing it
  again panics (`Destination.PanicsExactly`; an instance is `Destination.RefillPanics`).
- If an accepted descriptor cannot be injected, it is closed but stays in the table of a
  live listener (`Ledger.LosingBreaksTheLedger`), whose removal closes that number a second
  time (`Ledger.LosingClosesTwice`), unless a goroutine has stored a new peer under it
  before (`Ledger.StoringRestores`). A removal closes wrongly exactly if the table lists
  a number the socket does not hold then (`Ledger.RemovalIsBadExactly`).
- A socket bound to an AF_INET6 address sends no handshake (`EndToEnd.HandshakeExactly`), as
  only 16-byte images are sent.
- An MVIP answer of an engine whose address has no IPv4 form carries 0.0.0.0
  (`Rsocket.MyVipFeedsAccessControl`).
- `Error` is not final: listen turns it into `NotBypassable`, and connect does not look at
  the state. Exactly which calls keep it is `Replies.ErrorIsKeptExactly`.
- On a bound or listening socket setsockopt and F_SETFL are repeated in the host process on
  the container's descriptor number, not on the host sockets. A host socket under another
  number misses them (`Options.LateOptionIsMissed`), and one under the same number gets a
  socket option out of replay order once flags are recorded. `Options.LateOptionExactly`
  gives the exact condition for one call, `Options.BoundStaysUpToDate` and
  `Options.ElsewhereKeepsPace` for runs.
- On such a socket any fcntl but F_SETFL is repeated as command 0 (F_DUPFD), and nobody
  holds the new descriptor (`Options.FcntlExactly`).
- Accepted sockets do not inherit options, as the copy goes into a slice of length 0
  (`Progress.AcceptDelivers`).

## Model

| member | source | states |
|---|---|---|
| Vip.KeyKernel | pkg/tiaccoon/vip/vip.go:5-16 | two addresses have one key if and only if `IP.Equal`, or both in the low 32-bit class with the same last four bytes |
| Vip.KeyIsEqual | pkg/tiaccoon/vip/vip.go:5-16 | on IPv4, IPv4-mapped and upper-nonzero addresses keys coincide with `IP.Equal` |
| Vip.KeyOfSpellings | pkg/tiaccoon/vip/vip.go:5-16 | the 4-byte and the IPv4-mapped spelling of an address share its key |
| Vip.KeyCollisions | pkg/tiaccoon/vip/vip.go:5-16 | two concrete pairs of different addresses with one key |
| AccessControl.ApplyIsLastWriter | pkg/tiaccoon/accesscontrol/entry.go:24-53 | after any history the verdict is that of the last operation on the address's key: its policy if an upsert, the default if a removal or none |
| AccessControl.ApplyIgnoresSpelling | pkg/tiaccoon/accesscontrol/entry.go:43-53 | the verdict does not change when an address is respelled |
| AccessControl.Entries.constructor | pkg/tiaccoon/accesscontrol/entry.go:17-22 | the new nested table stands for the empty history |
| AccessControl.Entries.Upsert | pkg/tiaccoon/accesscontrol/entry.go:24-32 | the nested map update is the keyed update |
| AccessControl.Entries.Remove | pkg/tiaccoon/accesscontrol/entry.go:34-41 | the nested deletion is the keyed deletion |
| AccessControl.Entries.Apply | pkg/tiaccoon/accesscontrol/entry.go:43-53 | the two-level lookup gives the table's verdict |
| Destination.ClientIndex | pkg/tiaccoon/destination/entry.go:39-117 | what a client lookup finds after any history: nothing for a slot never filled or since removed, otherwise four classes, that of each transport with exactly what was upserted, in order |
| Destination.ClassesInOrder | pkg/tiaccoon/destination/entry.go:39-117 | the four classes by number: `GetClient(ip, port)[0]` holds exactly the UNIX entries written, `[1]` the RDMA, `[2]` the IPv6 and `[3]` the IPv4 ones, in order |
| Destination.PanicsExactly | pkg/tiaccoon/destination/entry.go:39-101 | a history panics if and only if it fills or removes a slot that was filled and removed before |
| Destination.RefillPanics | pkg/tiaccoon/destination/entry.go:46-76 | an instance: upserting, removing and upserting one destination panics on the third operation |
| Destination.AlwaysShaped | pkg/tiaccoon/destination/entry.go:39-127 | all entries found carry their class's transport, the queried port and key, and RDMA only with the feature |
| Destination.ClientFindsTheAddress | pkg/tiaccoon/destination/entry.go:103-117 | on canonical addresses a client lookup returns entries of the queried address itself |
| Destination.AgreementStep | pkg/tiaccoon/destination/entry.go:39-101 | one operation keeps the client and server index in agreement if and only if key and equality agree on its address, or it writes nothing |
| Destination.IndexesAgreeThroughout | pkg/tiaccoon/destination/entry.go:39-127 | over a history the server entries of each port, by transport, are the client entries of the engine's own address at every moment if and only if every writing operation is aligned in that sense |
| Destination.CanonicalIsAligned | pkg/tiaccoon/destination/entry.go:64-64 | canonical addresses are always aligned |
| Destination.Entries.constructor | pkg/tiaccoon/destination/entry.go:30-37 | the new nested table stands for the empty table |
| Destination.Entries.Upsert | pkg/tiaccoon/destination/entry.go:39-76 | the in-place update of three nested maps and the server map is the table's upsert |
| Destination.Entries.UpsertClient | pkg/tiaccoon/destination/entry.go:45-61 | creating the missing maps on the way down and appending puts exactly one slot |
| Destination.Entries.Remove | pkg/tiaccoon/destination/entry.go:78-101 | clearing in place is the table's removal, which retires the slot |
| Destination.Entries.GetClient | pkg/tiaccoon/destination/entry.go:103-117 | the three-level lookup reads the table |
| Destination.Entries.GetServer | pkg/tiaccoon/destination/entry.go:119-127 | the lookup by port reads the table |
| Sockaddrs.ParsePrint | pkg/tiaccoon/seccomp/sockaddr.go:23-116 | reading a printed address gives family, address in the family's spelling, port, and for AF_INET6 flow info and scope |
| Sockaddrs.PrintParse | pkg/tiaccoon/seccomp/sockaddr.go:23-116 | which buffers can be read, and that printing gives them back: 28 bytes for AF_INET6, 16 with the last 8 zeroed for AF_INET |
| Sockaddrs.ParseBytes | pkg/tiaccoon/seccomp/sockaddr.go:23-64 | what is read of a buffer byte by byte: family 2 from 16 bytes, family 10 from 28, nothing else |
| Sockaddrs.PrintLength | pkg/tiaccoon/seccomp/sockaddr.go:86-116 | an image is 16 bytes for AF_INET, 28 for AF_INET6, and there is none for any other family |
| Sockaddrs.ReadPort | pkg/tiaccoon/seccomp/sockaddr.go:42-44 | the double byte swap on reading is network byte order |
| Sockaddrs.WritePort | pkg/tiaccoon/seccomp/sockaddr.go:92-95 | the byte swap on writing is network byte order |
| Sockaddrs.NewSockaddr | pkg/tiaccoon/seccomp/sockaddr.go:23-64 | the stepwise reader is the specified parser, errors included |
| Sockaddrs.SockaddrToByte | pkg/tiaccoon/seccomp/sockaddr.go:86-116 | the stepwise writer is the specified printer, errors included |
| Transports.ConfigureSocket | pkg/tiaccoon/seccomp/transport.go:121-141 | the two loops apply the recorded options in order up to the first refusal, and succeed if and only if none is refused |
| Transports.ConnectUNIX | pkg/tiaccoon/seccomp/transport_unix.go:14-42 | a descriptor is connected if and only if socket(2) gave it, all recorded options were accepted, the address is a UNIX one and connect(2) succeeded; kernel effect of each early return, leaked descriptors included |
| Transports.ConnectIPv4 | pkg/tiaccoon/seccomp/transport_ipv4.go:13-60 | likewise with an IPv4 address |
| Transports.Connect | pkg/tiaccoon/seccomp/transport.go:15-30 | likewise by transport; RDMA answers ErrTryRDMA, IPv6 fails |
| Transports.BindUNIX | pkg/tiaccoon/seccomp/transport_unix.go:44-79 | a descriptor is bound if and only if the address is a UNIX one, its stale file could be removed, socket(2) gave the descriptor, all recorded options were accepted and bind(2) succeeded; kernel effect of each early return |
| Transports.BindIPv4 | pkg/tiaccoon/seccomp/transport_ipv4.go:62-91 | likewise with an IPv4 address, without the file |
| Transports.Bind | pkg/tiaccoon/seccomp/transport.go:32-47 | likewise by transport |
| Transports.RecvDstVAddr | pkg/tiaccoon/seccomp/transport.go:143-150 | a name is received if and only if the message is 16 bytes that begin with AF_INET, and is then bytes 4-7 and the big-endian port of bytes 2-3 |
| Transports.ReceiveUNIX | pkg/tiaccoon/seccomp/transport_unix.go:87-110 | a peer is made if and only if the source address casts to UNIX and a name is announced; it is named by the bytes of the message |
| Transports.ReceiveIPv4 | pkg/tiaccoon/seccomp/transport_ipv4.go:98-121 | likewise with a cast to IPv4 |
| Transports.AcceptUNIX | pkg/tiaccoon/seccomp/transport_unix.go:81-111 | the whole accept procedure: its peer or failure, and the accepted descriptor left open and unheld on each early return |
| Transports.AcceptIPv4 | pkg/tiaccoon/seccomp/transport_ipv4.go:92-123 | likewise for IPv4 |
| Connect.SelectEstablishes | pkg/tiaccoon/seccomp/socket.go:521-576 | a finished search tried each entry of each class before the chosen one exactly once, all failed, and the last attempt is the only success |
| Connect.AllFailedExactly | pkg/tiaccoon/seccomp/socket.go:570-576 | "all destinations failed" is reported if and only if every entry of every class was tried and failed |
| Connect.SelectTransport | pkg/tiaccoon/seccomp/socket.go:521-569 | the randomised double loop over a fair source ends, by the lexicographic measure of untried entries and distance to the next untried draw, with the specified result; it fails only if no entry can be reached, and otherwise ends in the first class that has one that can, reached meaning that all system calls for it succeed |
| Dialing.ConnectExactly | pkg/tiaccoon/seccomp/socket.go:461-613 | state, answer and connected descriptor of every connect that is no longer trying, told by the outcomes of its attempts: EACCES and Error unless it was allowed, registered and its last attempt succeeded in all system calls; 1015 over RDMA; continue and NotBypassable if the descriptor could not be injected; the connected descriptor is closed again |
| Dialing.EarlierTransportsFailed | pkg/tiaccoon/seccomp/socket.go:521-576 | after any history of the table: every entry written for the address whose transport is preferred (UNIX before RDMA before IPv6 before IPv4) to that of the entry connect ended through was tried and failed; if connect found nothing, every entry was |
| Dialing.ConnectUsesTheBest | pkg/tiaccoon/seccomp/socket.go:521-576 | if the environment treats an entry alike at every attempt, the entry used is one that can be reached, and no reachable one has a preferred transport; it fails if and only if none can be reached |
| Connect.NoneInClass | pkg/tiaccoon/seccomp/socket.go:526-536 | counting tried entries up to the class's size means every entry was tried (pigeonhole) |
| Connect.NextHit | pkg/tiaccoon/seccomp/socket.go:530-535 | while an entry is untried, some later draw hits one |
| Rsocket.GetSockaddrUnixPath | pkg/tiaccoon/seccomp/rsocket.go:153-175 | the loop returns the bytes before the first NUL of a complete AF_UNIX address, otherwise an error |
| Rsocket.PathExactly | pkg/tiaccoon/seccomp/rsocket.go:153-175 | a buffer names a path if and only if it holds at least 110 bytes beginning 1, 0 and the path from its third byte, with a NUL behind it unless it fills all 108 |
| Rsocket.Serve | pkg/tiaccoon/seccomp/rsocket.go:78-151 | the answer to each control command |
| Rsocket.AnswerExactly | pkg/tiaccoon/seccomp/rsocket.go:78-151 | the answer to each command byte for byte: OK to PING, OK and the 16-byte image of the engine's IPv4 address or 0.0.0.0 to MVIP, OK or NO by the policy on bytes 8-11 to an AF_INET ACON, ER to all else |
| Rsocket.AcceptIsTwoSteps | pkg/tiaccoon/seccomp/transport.go:88-98 | the goroutine's accepting and receiving steps are the accept procedure of its transport, kernel included |
| Rsocket.VerdictByBytes | pkg/tiaccoon/seccomp/transport.go:77-113 | a goroutine over UNIX or IPv4 lets an arrival pass if and only if the policy admits bytes 4-7 of an announcing message, and knows it by those bytes |
| Rsocket.VerdictIsTransportIndependent | pkg/tiaccoon/seccomp/transport.go:77-113 | the same 16 bytes received by a goroutine over UNIX, by one over IPv4 and in an ACON command get one verdict under one policy, and both goroutines know the peer by the same address and port |
| Rsocket.MyVipFeedsAccessControl | pkg/tiaccoon/seccomp/rsocket.go:123-151 | an MVIP answer fed to a peer's ACON gets that peer's policy for the engine's IPv4 address, and for 0.0.0.0 if it has none |
| SocketStatuses.SocketStatus.constructor | pkg/tiaccoon/seccomp/socket.go:134-151 | a new socket |
| SocketStatuses.SocketStatus.Store | pkg/tiaccoon/seccomp/transport.go:115-115 | a host socket is filed under its descriptor, all else unchanged |
| SocketStatuses.SocketStatus.HandleSysBind | pkg/tiaccoon/seccomp/socket.go:199-300 | the bind loop in place is the specified bind: state, names, host sockets, answer and kernel |
| SocketStatuses.SocketStatus.Listen1 | pkg/tiaccoon/seccomp/socket.go:327-347 | one turn of the listen loop, and whether it started a goroutine |
| SocketStatuses.SocketStatus.HandleSysListen | pkg/tiaccoon/seccomp/socket.go:302-363 | the listen loop in place is the specified listen; what it leaves and answers from each of the six states, 98 on Listening with nothing changed |
| SocketStatuses.SocketStatus.SendHandshake | pkg/tiaccoon/seccomp/socket.go:578-590 | something is sent if and only if the socket's own name is AF_INET and the send succeeds; it is then the 16 bytes that read back as that name |
| SocketStatuses.SocketStatus.HandleSysConnect | pkg/tiaccoon/seccomp/socket.go:461-613 | connect in place, with the search loop run to its end, is the specified connect |
| SocketStatuses.SocketStatus.HandleSysSetsockopt | pkg/tiaccoon/seccomp/socket.go:622-661 | recording, and repeating on a bound socket |
| SocketStatuses.SocketStatus.HandleSysFcntl | pkg/tiaccoon/seccomp/socket.go:670-697 | likewise for fcntl, with the zero command |
| SocketStatuses.SocketStatus.RemoveSocket | pkg/tiaccoon/seccomp/socket.go:699-721 | the removal loop cancels and closes every host socket of the table and no other |
| SocketStatuses.SocketStatus.StepAccept | pkg/tiaccoon/seccomp/transport.go:77-119 | each atomic step of the accept goroutine in place |
| SocketStatuses.SocketStatus.FailAccept | pkg/tiaccoon/seccomp/transport.go:99-105 | an error ends the goroutine and cancels its listener |
| NotifHandlers.NotifHandler.constructor | pkg/tiaccoon/seccomp/notif.go:56-71 | a new handler is the empty world |
| NotifHandlers.NotifHandler.GetPidFdInfo | pkg/tiaccoon/seccomp/notif.go:400-460 | cache hit, process, thread, failure |
| NotifHandlers.NotifHandler.OpenMem | pkg/tiaccoon/seccomp/notif.go:513-532 | cache hit, open, failure |
| NotifHandlers.NotifHandler.WriteSockaddrToProcess | pkg/tiaccoon/seccomp/notif.go:470-477 | what is stored in the caller's memory, a prefix of the image if the write is short |
| NotifHandlers.NotifHandler.RegisterSocket | pkg/tiaccoon/seccomp/notif.go:307-368 | registration in place, its early returns, and the inspected descriptor closed again |
| NotifHandlers.NotifHandler.Inspect | pkg/tiaccoon/seccomp/notif.go:334-358 | NotBypassed if and only if getsockopt answered, the domain is 2 or 10, the type is 1 and there is no peer; otherwise NotBypassable |
| NotifHandlers.NotifHandler.RemoveSocket | pkg/tiaccoon/seccomp/notif.go:379-391 | the socket is removed and unregistered, the others are not touched |
| NotifHandlers.NotifHandler.RemoveAll | pkg/tiaccoon/seccomp/notif.go:167-169 | the loop removes all sockets of a process |
| NotifHandlers.NotifHandler.Exit | pkg/tiaccoon/seccomp/notif.go:153-179 | cleanup of a thread or process |
| NotifHandlers.NotifHandler.InitRsocket | pkg/tiaccoon/seccomp/rsocket.go:17-76 | the control channel's takeover of a connect, and its failures |
| NotifHandlers.NotifHandler.HandleSysAccept | pkg/tiaccoon/seccomp/socket.go:375-452 | accept in place across two sockets, waiting on an empty channel with nothing changed, wherever the source does not panic |
| NotifHandlers.NotifHandler.InjectAccepted | pkg/tiaccoon/seccomp/socket.go:422-450 | registering, adopting and releasing an accepted descriptor |
| NotifHandlers.NotifHandler.Dispatch | pkg/tiaccoon/seccomp/notif.go:236-259 | each call goes to its handler, in place; what that comes to for a notification is stated by the `Notifications` rows |
| NotifHandlers.NotifHandler.Gate | pkg/tiaccoon/seccomp/notif.go:208-231 | gating by state, with re-registration on bind and connect |
| NotifHandlers.NotifHandler.Enter | pkg/tiaccoon/seccomp/notif.go:201-231 | the control channel's takeover first, with the feature on |
| NotifHandlers.NotifHandler.Settle | pkg/tiaccoon/seccomp/notif.go:116-231 | the way of a notification to its handler, or to the answer it gets without one |
| NotifHandlers.NotifHandler.HandleReq | pkg/tiaccoon/seccomp/notif.go:116-260 | one notification in place is the specified one, and keeps the invariant |
| SocketInvariant.BindKeeps | pkg/tiaccoon/seccomp/socket.go:199-300 | bind keeps the invariant of a socket |
| SocketInvariant.ListenKeeps | pkg/tiaccoon/seccomp/socket.go:302-363 | listen keeps it |
| SocketInvariant.ConnectKeeps | pkg/tiaccoon/seccomp/socket.go:461-613 | connect keeps it |
| SocketInvariant.WorkKeeps | pkg/tiaccoon/seccomp/transport.go:77-119 | every goroutine step keeps it, whatever the others do |
| SocketInvariant.QueuedAreAccepted | pkg/tiaccoon/seccomp/socket.go:397-402 | everything queued is accepted: the "unexpected status" branch is never taken |
| Invariant.ConnectTells | pkg/tiaccoon/seccomp/socket.go:485-613 | a connect that ends bypassed was allowed by the client policy, and the handshake it sent is its own name |
| Invariant.RegisterSound | pkg/tiaccoon/seccomp/notif.go:307-368 | registering files a live socket under the number and leaves the others alone |
| Invariant.UnregisterSound | pkg/tiaccoon/seccomp/notif.go:379-391 | removal keeps the registry exact in both directions |
| Invariant.HandleExitSound | pkg/tiaccoon/seccomp/notif.go:153-179 | so does exit |
| Invariant.InjectRuns | pkg/tiaccoon/seccomp/socket.go:422-441 | injecting panics if and only if the descriptor cannot be registered or the peer's address not spelled |
| Invariant.InjectFacts | pkg/tiaccoon/seccomp/socket.go:422-450 | the accepted descriptor's socket is bypassed under the listener's name and the peer's announced address, and a fresh one unless its number was still registered |
| Invariant.HandleReqSound | pkg/tiaccoon/seccomp/notif.go:116-260 | every notification keeps the whole invariant, invents no peer, and lets sockets only grow |
| Invariant.NextSound | pkg/tiaccoon/seccomp/notif.go:87-113 | so does every step of any kind |
| Invariant.RunSound | pkg/tiaccoon/seccomp/notif.go:87-113 | between any two moments of any run |
| Ledger.KeptOnce | pkg/tiaccoon/seccomp/socket.go:280-280 | under the ledger all kept descriptors are open and kept in one place, and tables are keyed by their host sockets' own numbers |
| Ledger.LedgerOverRuns | pkg/tiaccoon/seccomp/socket.go:405-443 | over all runs: kept descriptors are open and unshared, and no close was of a number not held |
| Ledger.LosingBreaksTheLedger | pkg/tiaccoon/seccomp/socket.go:405-420 | a failed injection leaves a closed number in a live table |
| Ledger.RemovalIsBadExactly | pkg/tiaccoon/seccomp/socket.go:699-721 | removing a socket closes a number wrongly if and only if its table lists one it does not hold |
| Ledger.LosingClosesTwice | pkg/tiaccoon/seccomp/socket.go:405-420 | after a failed injection, removing the listener closes the lost number, and only that, a second time |
| Ledger.StoringRestores | pkg/tiaccoon/seccomp/transport.go:115-115 | storing a new peer takes its number, and no other, out of those the removal would close wrongly |
| Losses.LedgerHoldsExactly | pkg/tiaccoon/seccomp/socket.go:405-443 | the ledger holds at every moment of a run if and only if no injection failed |
| Gating.GatedAdmission | pkg/tiaccoon/seccomp/transport.go:77-119 | over every interleaving: each verdict, refusing or admitting, is what the server policy says of the announced address at that step; whatever is kept, queued or injected was admitted by the server policy at its own check, whatever is reached was allowed by the client policy in that step, and nothing else is bypassed |
| Runs.QueueConservation | pkg/tiaccoon/seccomp/transport.go:82-117 | dequeued then queued is the enqueue log, no duplicates, at most 65535 waiting, and each goroutine's sends are its admitted connections in order |
| Runs.QueueIsFifo | pkg/tiaccoon/seccomp/socket.go:393-451 | both logs only grow over time |
| Runs.JointState | pkg/tiaccoon/seccomp/socket.go:199-363 | what each state implies about host sockets, queue and goroutines |
| Runs.BypassedIsStable | pkg/tiaccoon/seccomp/notif.go:208-231 | a bypassed socket stays bypassed with its names, and registered until removed |
| Runs.NoRdmaEntries | pkg/tiaccoon/destination/entry.go:42-44 | with the feature off no lookup ever finds an RDMA entry |
| Runs.PoliciesFollow | pkg/tiaccoon/seccomp/notif.go:56-71 | at every moment of every run the server and the client policy are what the run's updates of each, in order, have made of its default |
| Runs.RoutesFollow | pkg/tiaccoon/destination/entry.go:39-101 | likewise the destination table, from the updates that do not panic |
| Replies.RepliesAgree | pkg/tiaccoon/seccomp/notif.go:94-260 | on every path: continue carries error 0 and value 0, an emulated success is true of the socket's state, a name query succeeds only with the whole image of that name stored, and without RDMA bind and connect answer 0 |
| Replies.BindAnswers | pkg/tiaccoon/seccomp/socket.go:199-300 | bind's success leaves the socket bound, or named with no server entry for its port |
| Replies.ConnectAnswers | pkg/tiaccoon/seccomp/socket.go:461-613 | connect's success leaves the socket bypassed |
| Replies.ErrorIsKeptExactly | pkg/tiaccoon/seccomp/socket.go:302-613 | a socket in error stays so under every call but listen, and under connect if and only if the address can be read and is denied or not reached |
| Effects.DispatchEffect | pkg/tiaccoon/seccomp/notif.go:236-259 | by kind of call: only setsockopt and fcntl touch options of descriptors that are there, only bind makes host sockets, only connect makes connections, only accept can lose a descriptor, and none removes a socket |
| HostSockets.BindReplays | pkg/tiaccoon/seccomp/socket.go:239-285 | with an honest kernel bind leaves each host socket with the recorded options and in the table under its own descriptor |
| Options.NextAsks | pkg/tiaccoon/seccomp/socket.go:622-697 | every step records exactly the option its request asks for, on the socket it resolves to, and leaves descriptors not handed out anew with exactly what is repeated on them |
| Options.RecordedAsAsked | pkg/tiaccoon/seccomp/socket.go:622-697 | at every moment of every run the recorded lists are the setsockopt and F_SETFL requests of the run that resolve to the socket, in an ungated state and with readable memory, in order |
| Options.OptionReplay | pkg/tiaccoon/seccomp/transport.go:121-141 | in every notification of every run, each host socket that bind makes (with an honest kernel) and each that connect reaches, on a virtual socket old, new or registered afresh, carries exactly the options requested on it: setsockopt calls first, then F_SETFL, in order |
| Options.LateOptionExactly | pkg/tiaccoon/seccomp/socket.go:647-696 | what one more call on a bound socket does to a descriptor, and that a host socket stays up to date if and only if the call is repeated on that very descriptor, for setsockopt with no flags recorded |
| Options.LateOptionIsMissed | pkg/tiaccoon/seccomp/socket.go:647-653 | an instance: socket 3 bound to host socket 7 misses a later SO_KEEPALIVE |
| Options.FcntlExactly | pkg/tiaccoon/seccomp/socket.go:670-697 | F_SETFL is recorded and repeated; any other command leaves the socket as it is and may leave a descriptor nobody holds |
| Options.BoundStaysUpToDate | pkg/tiaccoon/seccomp/socket.go:647-696 | from the bind that made it, while its number is not handed out anew, a host socket carries what is requested at every later moment if and only if each request on its virtual socket is repeated on it, no option is set on it for anything else, by this handler or another, and socket options come before flags |
| Options.ElsewhereKeepsPace | pkg/tiaccoon/seccomp/socket.go:647-696 | under a number other than the container's that means: no further request on the virtual socket, and no option set on it for anything else |
| HostSockets.ListenStartsGoroutines | pkg/tiaccoon/seccomp/socket.go:326-362 | listen starts one goroutine for each host socket that can listen, and without RDMA succeeds if and only if there is one |
| HostSockets.ListenExactly | pkg/tiaccoon/seccomp/socket.go:302-363 | what listen leaves and answers from each state: from Binded each host socket heard or not by listen(2), Listening and 0 or Error and 13; EADDRINUSE 98 on Listening; NotBypassable and continue otherwise |
| Notifications.CallerIs | pkg/tiaccoon/seccomp/notif.go:400-460 | a task resolves to itself, a thread to its process, whether cached or looked up; nothing else changes |
| Notifications.BindIsHandled | pkg/tiaccoon/seccomp/notif.go:208-238 | a bind notification on a registered number: what `Progress.BindExactly` lists on a NotBypassed socket; continue on a bypassed one; 22 otherwise with the socket unchanged; no other socket is touched |
| Notifications.ListenIsHandled | pkg/tiaccoon/seccomp/notif.go:208-240 | a listen notification: what `HostSockets.ListenExactly` lists for the state, continue on a bypassed socket |
| Notifications.ConnectIsHandled | pkg/tiaccoon/seccomp/notif.go:208-246 | a connect notification: what `Dialing.ConnectExactly` lists, and the connection recorded exactly if a descriptor was connected |
| Notifications.ConnectPrefers | pkg/tiaccoon/seccomp/socket.go:521-576 | at every moment of every run a connect notification prefers transports in that order among the entries that the route updates of the run have written |
| Notifications.AcceptIsHandled | pkg/tiaccoon/seccomp/socket.go:375-452 | an accept or accept4 notification from each state: continue on an unbypassable or bypassed socket, 22 unless listening, waiting on an empty queue, continue and NotBypassable when the descriptor cannot be injected, otherwise the delivery of `Progress.AcceptDelivers` |
| Notifications.NameIsHandled | pkg/tiaccoon/seccomp/socket.go:160-190 | getpeername writes the remote and getsockname the local name, answered with success if and only if all of the image is stored; continue otherwise |
| Notifications.Continues | pkg/tiaccoon/seccomp/notif.go:208-231 | what the gates hold back is continued with only caches changed |
| Notifications.RecordedContinue | pkg/tiaccoon/seccomp/notif.go:247-258 | setsockopt, fcntl and unknown calls always continue |
| Notifications.StrayContinues | pkg/tiaccoon/seccomp/notif.go:122-140 | what cannot be decoded or comes from nowhere continues and changes nothing |
| Notifications.RegistersNew | pkg/tiaccoon/seccomp/notif.go:307-368 | registering a new number of a known process: filed if and only if the descriptor can be fetched, as one new socket whose first state is by domain, type and peer |
| Notifications.AcceptFollowsListen | pkg/tiaccoon/seccomp/socket.go:317-321 | over runs: after listen on a socket neither bound nor listening, every later accept on it, while no number was injected twice, is continued, never EINVAL |
| FirstCalls.FirstBind | pkg/tiaccoon/seccomp/notif.go:191-238 | a bind notification on an unregistered or unbypassable number reaches its handler, on a new socket, if and only if getsockopt answered, the domain is 2 or 10, the type is 1 and there is no peer; otherwise it is continued and the number stands NotBypassable, or unregistered if the descriptor cannot be fetched |
| FirstCalls.FirstConnect | pkg/tiaccoon/seccomp/notif.go:191-246 | likewise connect |
| FirstCalls.FirstListen | pkg/tiaccoon/seccomp/notif.go:191-223 | listen on an unregistered number is continued and leaves it NotBypassable, whatever the descriptor is |
| FirstCalls.ControlIsTaken | pkg/tiaccoon/seccomp/rsocket.go:17-76 | with the feature on, a connect of an AF_UNIX stream socket to the literal control path is answered 0 and the socket bypassed, when a pair is made and injected |
| FirstCalls.RsocketExactly | pkg/tiaccoon/seccomp/rsocket.go:17-76 | the takeover succeeds exactly then |
| Closings.CloseIsHandled | pkg/tiaccoon/seccomp/notif.go:185-189 | close frees the number and nothing else; its socket is cancelled with every host socket of its table, all of which are closed |
| Closings.ExitIsHandled | pkg/tiaccoon/seccomp/notif.go:152-179 | exit of a process cancels and closes all its sockets and no others, and drops its registrations, its pidfd and its memory descriptor; exit of a thread only forgets the thread |
| Lifetimes.RemovedExactlyWhenEnded | pkg/tiaccoon/seccomp/notif.go:152-189 | a bypassed socket is removed in a step if and only if the step closes its number in its process or ends the process |
| Lifetimes.BypassedUntilEnded | pkg/tiaccoon/seccomp/notif.go:116-260 | until then it stays registered, bypassed and named as it was |
| Progress.BindExactly | pkg/tiaccoon/seccomp/socket.go:199-300 | bind ends bound if and only if the address could be read and some entry of its port could be bound, by the outcomes of unlink(2), socket(2), the options and bind(2), or is RDMA with the feature; with exactly those host sockets, each and only those in the table under its descriptor with an honest kernel; every other outcome with its literal answer |
| Progress.BoundHas | pkg/tiaccoon/seccomp/socket.go:245-285 | a host socket is made under fd for entry i if and only if try i gave fd, accepted all recorded options, had bind(2) succeed, and the entry has an address of its own type, unlinked for UNIX |
| Progress.WorkerDelivers | pkg/tiaccoon/seccomp/transport.go:77-119 | in one undisturbed turn a goroutine queues the announced peer if the policy admits it, and otherwise closes it and is back where it was |
| Progress.EndsExactly | pkg/tiaccoon/seccomp/transport.go:77-105 | a step ends a goroutine if and only if its listener is found cancelled, accept(2) or the cast of its address fails, or no name is announced; on an error the listener is left in error and cancelled |
| Progress.AcceptDelivers | pkg/tiaccoon/seccomp/socket.go:393-451 | accept hands out the head of the queue, takes it off the queue and the table, and answers with a new bypassed socket named after it that inherits no options; the host descriptor is closed |
| EndToEnd.HostRunsAlone | pkg/tiaccoon/seccomp/notif.go:73-114 | in a network each handler's history is a run of that handler by itself |
| EndToEnd.HandshakeExactly | pkg/tiaccoon/seccomp/socket.go:578-590 | a handshake is sent if and only if the socket's own name is AF_INET and the send succeeds, and the other end's reader gets that name back |
| EndToEnd.EndToEndIdentity | pkg/tiaccoon/seccomp/socket.go:433-441 | the server's socket names its peer as the client's socket names itself: same image for an AF_INET listener, same address and port for AF_INET6; and the policy was asked about that address |
| EndToEnd.NameAnswers | pkg/tiaccoon/seccomp/socket.go:160-190 | getpeername and getsockname on a bypassed socket write the whole image of the recorded name and answer 0, when memory can be written |
| EndToEnd.TwoEndsAgree | pkg/tiaccoon/seccomp/socket.go:160-190 | getpeername at the server writes the bytes getsockname writes at the client |

## Left out

- Real system calls, seccomp ioctls, parsing of /proc, `nsenter` and memory access: their outcomes are parameters (`Try`, `WorkOracle`, `RegOracle`, `LoopOracle`).
- NotifHandlers.NotifHandler.HandleSysAccept: returns that it is waiting where the source blocks on an empty channel, with nothing changed; it is to be called again. In the transition system a notification whose accept would wait, or whose connect is still searching, changes nothing. A cancelled socket is not accepted on: it is no longer registered.
- SocketStatuses.SocketStatus.StepAccept: one atomic step of the goroutine at a time, not its endless loop; the transition system interleaves these steps with all others. Data races inside a step (a host socket's state, the table maps) are not modelled.
- SocketStatuses.SocketStatus.HandleSysListen: visits host sockets in the order they were made, where `sync.Map` promises no order; RemoveSocket likewise.
- Pointers to hostSocket and socketStatus objects are indices into the list of all that were made, so that aliasing is index equality.
- Invariant.InjectFacts: assumes, as the source does by dereferencing the results, that registering an accepted descriptor succeeds; its address can always be spelled.
- Destination.Entries.Upsert: asks that the slot is not a retired one, and that an RDMA entry carries an RDMA address; the source panics otherwise. Destination.PanicsExactly says when.
- A setsockopt call with an empty value, on which the source panics, is not distinguished.
- Ledger.LedgerOverRuns: says nothing of descriptors that failed transports, fcntl repetition and control channels leave open; the source leaks them.
- EndToEnd.EndToEndIdentity: is about connections whose handshake was sent; without one the first 16 bytes of the application are read in its place.
- The endless read loop of `handleRsocket` (one command is modelled) and the RDMA library in the container, which is not in the repository.
- Liveness of accept and kernel scheduling; of loops only the transport search is shown to end.
- `handle.go` (listener set-up, state parsing), `manage.go` (fixed tables; all histories are covered instead), `pkg/cni`, `pkg/log`, `cmd`, benchmarks and test programs.
