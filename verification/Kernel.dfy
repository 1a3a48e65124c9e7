/** What the engine sees of the kernel of its own process: which descriptor numbers
    are open, and which options were set on them.

    The kernel is an oracle. Whether a call succeeds, and with which number, is a
    parameter of every operation; `honest` records whether the kernel has so far
    kept its one promise, never to hand out a number that is open. */
module Kernel {
  import opened Net

  datatype SockOpt = SockOpt(level: nat, optname: nat, optval: Bytes, optlen: nat)

  datatype FcntlOpt = FcntlOpt(cmd: nat, value: nat)

  datatype HostOpt = Opt(opt: SockOpt) | Fl(fl: FcntlOpt)

  /** History: who holds an open descriptor. `Loose` ones are held by no table. */
  datatype Owner =
    | Env
    | Loose
    | Host(sid: nat)
    | Work(sid: nat, wi: nat)
    | Pid(pid: int)
    | Mem(pid: int)

  /** `births` counts how often each number has been handed out. */
  datatype Kern = Kern(open: map<int, Owner>, opts: map<int, seq<HostOpt>>, births: map<int, nat>, honest: bool, badCloses: nat)
  {
    function Births(fd: int): nat {
      if fd in births then births[fd] else 0
    }

    /** A call that returns a new descriptor. */
    function Open(fd: int, owner: Owner): Kern {
      Kern(open[fd := owner], opts[fd := []], births[fd := Births(fd) + 1], honest && fd !in open, badCloses)
    }

    /** close(2) by a given holder; closing what one does not hold is counted. */
    function Close(fd: int, holder: Owner): Kern {
      Kern(open - {fd}, opts, births, honest, if fd in open && open[fd] == holder then badCloses else badCloses + 1)
    }

    /** Only history changes: a descriptor passes to another holder. */
    function Give(fd: int, to: Owner): Kern {
      if fd in open then this.(open := open[fd := to]) else this
    }

    function OptsOf(fd: int): seq<HostOpt> {
      if fd in opts then opts[fd] else []
    }

    /** Successful setsockopt(2) or fcntl(2) calls on one descriptor, in order. */
    function Set(fd: int, os: seq<HostOpt>): Kern {
      if fd in open then this.(opts := opts[fd := OptsOf(fd) + os]) else this
    }
  }

  /** Every descriptor that was there before still carries the same options. */
  ghost predicate Steady(k: Kern, k': Kern) {
    forall fd ::
      && k.Births(fd) <= k'.Births(fd)
      && (k'.Births(fd) == k.Births(fd) ==> k'.OptsOf(fd) == k.OptsOf(fd))
  }

  predicate Holds(k: Kern, fd: int, owner: Owner) {
    fd in k.open && k.open[fd] == owner
  }

  /** Does this owner stand for a part of virtual socket `sid`, or for none? */
  predicate Concerns(owner: Owner, sid: nat) {
    owner.Loose? || (owner.Host? && owner.sid == sid) || (owner.Work? && owner.sid == sid)
  }

  /** From `k` to `k'` an honest kernel left alone all descriptors but those of `sid`. */
  ghost predicate SparesOthers(k: Kern, k': Kern, sid: nat) {
    k'.honest ==>
      && k.honest
      && k'.badCloses == k.badCloses
      && forall fd :: fd in k.open && !Concerns(k.open[fd], sid) ==> Holds(k', fd, k.open[fd])
  }

  /** From `k` to `k'` an honest kernel left every held descriptor with its holder. */
  ghost predicate SparesAll(k: Kern, k': Kern) {
    k'.honest ==>
      && k.honest
      && k'.badCloses == k.badCloses
      && forall fd :: fd in k.open && !k.open[fd].Loose? ==> Holds(k', fd, k.open[fd])
  }
}
