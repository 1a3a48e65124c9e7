/** When the ownership ledger holds: exactly while no accepted descriptor has failed
    to be injected. */
module Losses {
  import opened Kernel
  import opened Socket
  import opened Engine
  import opened SocketInvariant
  import opened Invariant
  import opened Ledger
  import opened Effects
  import opened Runs

  /** A descriptor lost on the way from `w` to `w'` has broken the ledger. */
  ghost predicate LossShows(w: World, w': World) {
    !w.lost && w'.lost && w'.k.honest && Ledger.Ledger(w) ==> !Ledger.Ledger(w')
  }

  /** A prelude that loses nothing and carries the ledger. */
  lemma AfterPrelude(w: World, w1: World, w': World)
    requires Carries(w, w1) && w1.lost == w.lost && LossShows(w1, w') && (w'.k.honest ==> w1.k.honest)
    ensures LossShows(w, w')
  {
    hide Ledger.Ledger;
  }

  /** Only accept can lose anything, and only when injecting fails. */
  lemma LostOnlyThere(w: World, pid: int, sid: nat, o: LoopOracle)
    requires Inv(w) && sid < |w.socks|
    ensures DoAccept(w, pid, sid, o).w.lost != w.lost ==>
              w.socks[sid].state == Listening && w.socks[sid].queue != [] && o.addfd.None?
  {
    hide Inject;
    var s := w.socks[sid];
    if s.state == Listening && s.queue != [] && o.addfd.Some? && s.queue[0] < |s.hs| {
      var h := s.hs[s.queue[0]];
      var w1 := w.SetSock(sid, Dequeue(s), w.k);
      if !Inject(w1, pid, sid, h, o.addfd.value, o).stuck {
        DequeueSound(w, sid);
        SoundImplies(w, w1);
        InjectFacts(w1, pid, sid, h, o.addfd.value, o);
      }
    }
    hide Inv;
    hide Sound;
    hide PeerOf;
    hide SockOk;
    hide Lose;
    hide PeerAddress;
  }

  lemma DoAcceptShows(w: World, pid: int, sid: nat, o: LoopOracle)
    requires Inv(w) && sid < |w.socks| && !w.socks[sid].cancelled
    ensures LossShows(w, DoAccept(w, pid, sid, o).w)
  {
    hide Inv;
    hide DoAccept;
    hide Ledger.Ledger;
    hide Keeps;
    LostOnlyThere(w, pid, sid, o);
    if Ledger.Ledger(w) && DoAccept(w, pid, sid, o).w.lost && !w.lost {
      LosingBreaksTheLedger(w, pid, sid, o);
    }
  }

  lemma DispatchShows(w: World, pid: int, sid: nat, call: Call, o: LoopOracle)
    requires Inv(w) && sid < |w.socks| && !w.socks[sid].cancelled
    ensures LossShows(w, Dispatch(w, pid, sid, call, o).w)
  {
    hide Inv;
    hide Ledger.Ledger;
    hide Steady;
    if IsAccept(call) {
      DoAcceptShows(w, pid, sid, o);
    } else {
      DispatchEffect(w, pid, sid, call, o);
      hide Dispatch;
    }
  }

  lemma HonestThen(w: World, w': World)
    requires Carries(w, w') && w'.k.honest
    ensures w.k.honest && (w.lost ==> w'.lost)
  {
    hide Ledger.Ledger;
  }

  lemma HandleReqShows(w: World, req: Request, o: LoopOracle)
    requires Inv(w)
    ensures LossShows(w, HandleReq(w, req, o).w)
  {
    hide Inv;
    hide Carries;
    hide Ledger.Ledger;
    hide Settle;
    hide Dispatch;
    hide Steady;
    SettleFacts(w, req, o);
    SettleCarries(w, req, o);
    SettleAside(w, req, o);
    var st := Settle(w, req, o);
    if st.sid.Some? {
      var w' := Dispatch(st.w, st.pid, st.sid.value, req.call, o).w;
      DispatchShows(st.w, st.pid, st.sid.value, req.call, o);
      DispatchCarries(st.w, st.pid, st.sid.value, req.call, o);
      if w'.k.honest {
        HonestThen(st.w, w');
      }
      AfterPrelude(w, st.w, w');
    }
  }

  lemma NextShows(w: World, st: Step)
    requires Inv(w)
    ensures LossShows(w, Next(w, st))
  {
    hide Inv;
    hide HandleReq;
    hide WorkStep;
    match st {
      case Loop(req, o) =>
        HandleReqShows(w, req, o);
        SameLedger(HandleReq(w, req, o).w, Next(w, st));
        hide Ledger.Ledger;
      case _ =>
        hide Ledger.Ledger;
    }
  }

  lemma SameLedger(w: World, w': World)
    requires w' == w.(now := w'.now)
    ensures Ledger.Ledger(w') == Ledger.Ledger(w)
  {
    hide SockLedger;
  }

  ghost predicate Balanced(c: Config, run: seq<Step>, i: nat) {
    i <= |run| && Ledger.Ledger(c.At(run, i))
  }

  /** Over any run of a kernel that hands out only numbers that are not open: the
      ledger holds at every moment up to now exactly if no accepted descriptor has
      failed to be injected. */
  lemma {:induction false} LedgerHoldsExactly(c: Config, run: seq<Step>, n: nat)
    requires n <= |run| && c.At(run, n).k.honest
    ensures !c.At(run, n).lost <==> forall i: nat | i <= n :: Balanced(c, run, i)
  {
    hide Ledger.Ledger;
    hide Inv;
    hide Next;
    hide Evolves;
    var w := c.At(run, n);
    if n == 0 {
      if !w.lost {
        LedgerOverRuns(c.myVIP, c.featureRDMA, c.serverDefault, c.clientDefault, run, 0);
      }
    } else {
      var v := c.At(run, n - 1);
      Reachable(c, run, n - 1, n);
      assert w == Next(v, run[n - 1]);
      NextCarries(v, run[n - 1]);
      HonestThen(v, w);
      LedgerHoldsExactly(c, run, n - 1);
      if !w.lost {
        LedgerOverRuns(c.myVIP, c.featureRDMA, c.serverDefault, c.clientDefault, run, n);
        assert Balanced(c, run, n);
      } else if v.lost {
        assert exists i: nat :: i <= n - 1 && !Balanced(c, run, i);
      } else {
        assert Balanced(c, run, n - 1);
        NextShows(v, run[n - 1]);
        assert !Balanced(c, run, n);
      }
    }
  }
}
