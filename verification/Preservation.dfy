// The invariant over the other operations (exits, signals, output and hangups)
// and what it amounts to for the counters.
module Preservation {
  import opened Lifecycle
  import opened Trim
  import opened Collections
  import opened Supervisor
  import opened History
  import opened Invariants

  // ---------------------------------------------------------- sigchld_received

  lemma {:induction false} ReapKeepsPids(s: Sup, pid: int, rc: int)
    requires s.Sized() && PidsAgree(s) && pid in s.idForPid
    ensures PidsAgree(Reap(s, pid, rc))
  {
    hide Total;
    var id := s.idForPid[pid];
    TotalUpdate(RunningWeight, s.state, id, ExitState(rc));
    assert s.idForPid == (s.idForPid - {pid})[pid := id];
  }

  lemma {:induction false} ReapKeepsFds(s: Sup, pid: int, rc: int)
    requires s.Sized() && PidsAgree(s) && FdsAgree(s) && pid in s.idForPid
    ensures FdsAgree(Reap(s, pid, rc))
  {
    hide Total;
    var r := Reap(s, pid, rc);
    assert Started(s.state[s.idForPid[pid]]);
    assert forall fd, j: nat :: Holds(r, fd, j) == Holds(s, fd, j);
  }

  // An exit event only ever reaches a RUNNING program.
  lemma {:induction false} ExitIsJustified(s: Sup, pid: int, rc: int)
    requires s.Sized() && PidsAgree(s) && LogAgrees(s) && pid in s.idForPid
    ensures s.idForPid[pid] < s.N() && s.state[s.idForPid[pid]] == RUNNING
    ensures Justified(s.plan, s.log, Exited(s.idForPid[pid], pid, rc))
  {
    hide Legal, Holders, LastState, Forks, Exits, Total;
  }

  lemma {:induction false} ReapKeepsLog(s: Sup, pid: int, rc: int)
    requires s.Sized() && PidsAgree(s) && LogAgrees(s) && pid in s.idForPid
    ensures LogAgrees(Reap(s, pid, rc))
  {
    hide Total, Justified;
    ExitIsJustified(s, pid, rc);
    var id := s.idForPid[pid];
    var e := Exited(id, pid, rc);
    Appended(s.log, e);
    TotalUpdate(StartedWeight, s.state, id, ExitState(rc));
    var r := Reap(s, pid, rc);
    assert r.log == s.log + [e];
    forall j: nat | j < s.N()
      ensures LastState(r.log, j) == if Started(r.state[j]) then Some(r.state[j]) else None
    {
      assert LastState(r.log, j) == if j == id then Some(ExitState(rc)) else LastState(s.log, j);
    }
  }

  lemma {:induction false} ReapKeeps(s: Sup, pid: int, rc: int)
    requires Inv(s)
    ensures Inv(Reap(s, pid, rc))
  {
    hide FdsAgree, LogAgrees, LoggersAgree, Total;
    if pid in s.idForPid {
      ReapKeepsPids(s, pid, rc);
      ReapKeepsFds(s, pid, rc);
      ReapKeepsLog(s, pid, rc);
      SameStartedKeepsLoggers(s, Reap(s, pid, rc));
    }
  }

  // ----------------------------------------------------------- signal_received

  lemma {:induction false} KillsKeepHistory(plan: Plan, log: seq<Entry>, pids: seq<int>, signo: Signal)
    requires Legal(plan, log) && forall k | 0 <= k < |pids| :: pids[k] in Holders(log)
    requires signo == SIGTERM || signo == SIGQUIT
    ensures var after := log + Kills(pids, signo);
      && Legal(plan, after) && Holders(after) == Holders(log)
      && Forks(after) == Forks(log) && Exits(after) == Exits(log)
    ensures forall i: nat :: LastState(log + Kills(pids, signo), i) == LastState(log, i)
  {
    if pids == [] {
      assert log + Kills(pids, signo) == log;
    } else {
      var init, last := pids[..|pids| - 1], pids[|pids| - 1];
      KillsKeepHistory(plan, log, init, signo);
      var before := log + Kills(init, signo);
      Appended(before, Killed(last, signo));
      assert log + Kills(pids, signo) == before + [Killed(last, signo)];
      assert last in Holders(log);
    }
  }

  lemma {:induction false} FdsOnly(s: Sup, r: Sup)
    requires s.Sized() && r.Sized() && FdsAgree(s) && r.plan == s.plan && r.state == s.state && r.grant == s.grant
    requires r.idForFd == s.idForFd && r.fdType == s.fdType && r.interest == s.interest
    requires r.numFdForId == s.numFdForId && r.signalFd == s.signalFd
    ensures FdsAgree(r)
  {
    assert forall fd, j: nat :: Holds(r, fd, j) == Holds(s, fd, j);
  }

  lemma {:induction false} LogOnly(s: Sup, r: Sup)
    requires s.Sized() && r.Sized() && LogAgrees(s) && r.plan == s.plan && r.state == s.state
    requires r.log == s.log && r.idForPid == s.idForPid && r.running == s.running
    ensures LogAgrees(r)
  {
  }

  // Only what was logged and the two flags differ.
  lemma {:induction false} BookkeepingUntouched(s: Sup, r: Sup)
    requires Inv(s) && r == s.(log := r.log, shouldQuit := r.shouldQuit, aborted := r.aborted) && LogAgrees(r)
    ensures Inv(r)
  {
    hide LogAgrees, FdsAgree, LoggersAgree, Total;
    FdsOnly(s, r);
    SameStartedKeepsLoggers(s, r);
  }

  lemma {:induction false} ForwardKeepsLog(s: Sup, signo: Signal)
    requires s.Sized() && LogAgrees(s) && signo in SIGNAL_MASK
    ensures LogAgrees(Forward(s, signo))
  {
    hide Legal, Holders, LastState, Forks, Exits, Total, Kills, AscendingNumbers;
    if signo != SIGCHLD {
      var pids := AscendingNumbers(s.idForPid.Keys);
      forall k | 0 <= k < |pids|
        ensures pids[k] in Holders(s.log)
      {
        assert pids[k] in pids;
      }
      KillsKeepHistory(s.plan, s.log, pids, Forwarded(signo));
    }
  }

  lemma {:induction false} ForwardKeeps(s: Sup, signo: Signal)
    requires Inv(s) && signo in SIGNAL_MASK
    ensures Inv(Forward(s, signo))
    ensures Forward(s, signo).aborted == s.aborted
  {
    hide LogAgrees, PidsAgree, FdsAgree, NamesAgree, Kills, AscendingNumbers;
    ForwardKeepsLog(s, signo);
    BookkeepingUntouched(s, Forward(s, signo));
  }

  // A signal goes to every live pid exactly once, in ascending order, and to
  // nobody else; the live pids are those of the RUNNING programs.
  lemma {:induction false} ForwardReachesRunning(s: Sup, signo: Signal) returns (sent: seq<Entry>)
    requires Inv(s) && signo != SIGCHLD
    ensures Forward(s, signo).log == s.log + sent && |sent| == s.running
    ensures forall k | 0 <= k < |sent| ::
      sent[k].Killed? && sent[k].signo == Forwarded(signo) && sent[k].pid in s.idForPid
    ensures forall j, k | 0 <= j < k < |sent| :: sent[j].pid < sent[k].pid
    ensures forall i: nat | i < s.N() && s.state[i] == RUNNING :: Killed(s.grant[i].pid, Forwarded(signo)) in sent
  {
    hide LogAgrees, FdsAgree, NamesAgree, NoBackoff, Total, AscendingNumbers;
    var pids := AscendingNumbers(s.idForPid.Keys);
    sent := Kills(pids, Forwarded(signo));
    forall k | 0 <= k < |sent|
      ensures sent[k].pid in s.idForPid && sent[k].pid == pids[k]
    {
      assert pids[k] in pids;
    }
    forall j, k | 0 <= j < k < |sent|
      ensures sent[j].pid < sent[k].pid
    {
      assert pids[j] < pids[k];
    }
    forall i: nat | i < s.N() && s.state[i] == RUNNING
      ensures Killed(s.grant[i].pid, Forwarded(signo)) in sent
    {
      assert s.grant[i].pid in pids;
      var k :| 0 <= k < |pids| && pids[k] == s.grant[i].pid;
      assert sent[k] == Killed(s.grant[i].pid, Forwarded(signo));
    }
  }

  // Being told to quit is meant for SIGINT, SIGQUIT and SIGTERM; the bit test accepts
  // more.  Of all numbers it does what was meant exactly for those three, for SIGCHLD
  // and for multiples of sixteen; so it does for every signal the mask lets through.
  lemma {:induction false} QuitTestExactly(s: Sup, signo: Signal)
    requires s.Sized() && !s.shouldQuit
    ensures (Forward(s, signo).shouldQuit <==> signo in {SIGINT, SIGQUIT, SIGTERM}) <==>
      (signo in {SIGINT, SIGQUIT, SIGTERM, SIGCHLD} || signo % 16 == 0)
    ensures signo in SIGNAL_MASK ==> (Forward(s, signo).shouldQuit <==> signo in {SIGINT, SIGQUIT, SIGTERM})
  {
    hide AscendingNumbers;
  }

  // -------------------------------------------------------------- event_received

  lemma {:induction false} HangupKeepsFds(s: Sup, fd: int)
    requires s.Sized() && FdsAgree(s) && fd in s.idForFd
    ensures FdsAgree(Hangup(s, fd))
    ensures Hangup(s, fd).aborted == s.aborted
    ensures Hangup(s, fd).numFdForId[s.idForFd[fd]] == s.numFdForId[s.idForFd[fd]] - 1
  {
    var r := Hangup(s, fd);
    var id := s.idForFd[fd];
    var g := s.grant[id];
    assert Started(s.state[id]);
    assert Holds(s, fd, id) == 1;
    assert s.numFdForId[id] == Holds(s, g.out, id) + Holds(s, g.err, id);
    assert Decrement(s.numFdForId[id]) == s.numFdForId[id] - 1;
    assert forall other, j: nat :: Holds(r, other, j) == if other == fd then 0 else Holds(s, other, j);
    assert FdOwners(r);
    forall j: nat | j < r.N() && Started(r.state[j])
      ensures r.grant[j].out != r.grant[j].err && j in r.numFdForId
      ensures r.numFdForId[j] == Holds(r, r.grant[j].out, j) + Holds(r, r.grant[j].err, j)
    {
      assert s.grant[j].out != s.grant[j].err;
      if j != id {
        assert Holds(s, fd, j) == 0;
      }
    }
  }

  lemma {:induction false} PrintKeepsLog(s: Sup, fd: int, text: string)
    requires s.Sized() && FdsAgree(s) && LogAgrees(s) && fd in s.idForFd
    ensures LogAgrees(Print(s, fd, text))
  {
    hide Total;
    var e := Printed(s.idForFd[fd], s.fdType[fd], text);
    Appended(s.log, e);
    var r := Print(s, fd, text);
    assert r.log == s.log + [e];
    assert forall j: nat :: LastState(r.log, j) == LastState(s.log, j);
  }

  // What epoll may report: a watched descriptor, and for the signal descriptor that
  // a signal of the mask can be read.
  predicate WakeOk(s: Sup, w: Wake) {
    && w.fd in s.interest && |w.data| <= BUF_SIZE
    && (w.fd == s.signalFd ==> w.readable && w.signo in SIGNAL_MASK)
  }

  lemma {:induction false} HangupKeeps(s: Sup, fd: int)
    requires Inv(s) && fd in s.interest && fd != s.signalFd
    ensures Inv(Hangup(s, fd))
    ensures Hangup(s, fd).aborted == s.aborted
  {
    hide FdOwners, FdCounts, LoggersAgree, Total, LogAgrees;
    HangupKeepsFds(s, fd);
    SameStartedKeepsLoggers(s, Hangup(s, fd));
    LogOnly(s, Hangup(s, fd));
  }

  lemma {:induction false} PrintKeeps(s: Sup, fd: int, text: string)
    requires Inv(s) && fd in s.interest && fd != s.signalFd
    ensures Inv(Print(s, fd, text))
    ensures Print(s, fd, text).aborted == s.aborted
    ensures fd in s.idForFd && s.idForFd[fd] < s.N() && Started(s.state[s.idForFd[fd]])
    ensures var id := s.idForFd[fd];
      || (fd == s.grant[id].out && Print(s, fd, text).log == s.log + [Printed(id, STDOUT, text)])
      || (fd == s.grant[id].err && Print(s, fd, text).log == s.log + [Printed(id, STDERR, text)])
  {
    hide LogAgrees, PidsAgree, FdCounts, NamesAgree;
    PrintKeepsLog(s, fd, text);
    BookkeepingUntouched(s, Print(s, fd, text));
  }

  // ... and its program has a logger.
  lemma {:induction false} OutputHasLogger(s: Sup, fd: int)
    requires Inv(s) && fd in s.idForFd
    ensures s.idForFd[fd] < s.N() && s.plan.names[s.idForFd[fd]] in s.loggers
  {
    hide PidsAgree, LogAgrees, FdCounts, FdMaps, NoBackoff;
  }

  // No lookup in the descriptor maps fails, no count wraps: event handling throws
  // only on an event that is neither readable nor a hangup.
  lemma {:induction false} DeliverKeeps(s: Sup, w: Wake)
    requires Inv(s) && WakeOk(s, w)
    ensures Inv(Deliver(s, w))
    ensures Deliver(s, w).aborted <==> s.aborted || (!w.readable && !w.hangup)
  {
    hide Inv, Output, Forward, Print, Hangup;
    InvBasics(s);
    if w.readable {
      if w.fd == s.signalFd {
        ForwardKeeps(s, w.signo);
      } else if Output(w.data) != "" {
        PrintKeeps(s, w.fd, Output(w.data));
      }
    } else if w.hangup {
      HangupKeeps(s, w.fd);
    } else {
      AbortKeeps(s);
    }
  }

  lemma {:induction false} AbortKeeps(s: Sup)
    requires Inv(s)
    ensures Inv(s.(aborted := true))
  {
    assert LogAgrees(s.(aborted := true));
    BookkeepingUntouched(s, s.(aborted := true));
  }

  // ------------------------------------------------------------- what it amounts to

  ghost function FdsOf(s: Sup, i: nat): set<int> {
    set fd | fd in s.idForFd && s.idForFd[fd] == i
  }

  ghost function RunningPrograms(s: Sup): set<nat>
    requires s.Sized()
  {
    set i: nat | i < s.N() && s.state[i] == RUNNING
  }

  // The count kept for a started program is the number of descriptors mapped to it.
  lemma {:induction false} CountsAreCardinalities(s: Sup, i: nat)
    requires Inv(s) && i < s.N() && Started(s.state[i])
    ensures i in s.numFdForId && s.numFdForId[i] == |FdsOf(s, i)| <= 2
  {
    hide LogAgrees, PidsAgree, NamesAgree;
    var g := s.grant[i];
    assert s.numFdForId[i] == Holds(s, g.out, i) + Holds(s, g.err, i);
    var out: set<int> := if Holds(s, g.out, i) == 1 then {g.out} else {};
    var err: set<int> := if Holds(s, g.err, i) == 1 then {g.err} else {};
    forall fd
      ensures fd in FdsOf(s, i) <==> fd in out + err
    {
      if fd in FdsOf(s, i) {
        assert fd in s.idForFd && s.idForFd[fd] == i;
        assert fd == g.out || fd == g.err;
      }
    }
    assert FdsOf(s, i) == out + err;
    assert |out + err| == |out| + |err| by {
      assert out !! err;
    }
  }

  // running == |idForPid| == number of RUNNING programs == forks minus exits, and
  // the pid map is a bijection onto the RUNNING programs.
  lemma {:induction false} CountsAgree(s: Sup)
    requires Inv(s)
    ensures s.running == |s.idForPid| == |RunningPrograms(s)| == Forks(s.log) - Exits(s.log)
    ensures s.idForPid.Values == RunningPrograms(s)
    ensures forall p, q | p in s.idForPid && q in s.idForPid && s.idForPid[p] == s.idForPid[q] :: p == q
  {
    hide Legal, LastState, Holders, FdsAgree, NamesAgree, Total;
    var running, values := RunningPrograms(s), s.idForPid.Values;
    forall i: nat | i in running
      ensures i in values
    {
      assert s.grant[i].pid in s.idForPid;
      assert s.idForPid[s.grant[i].pid] == i;
    }
    forall i: nat | i in values
      ensures i in running
    {
      var p := KeyOf(s.idForPid, i);
    }
    assert values == running;
    InjectiveSize(s.idForPid);
  }

  lemma {:induction false} InjectiveSize(m: map<int, nat>)
    requires forall p, q | p in m && q in m && m[p] == m[q] :: p == q
    ensures |m.Values| == |m|
    decreases |m|
  {
    if |m| != 0 {
      var p := Pick(m.Keys);
      var rest := m - {p};
      InjectiveSize(rest);
      assert m == rest[p := m[p]];
      forall v: nat
        ensures v in m.Values <==> v in rest.Values + {m[p]}
      {
        if v in m.Values && v != m[p] {
          var q := KeyOf(m, v);
          assert q in rest && rest[q] == v;
        }
        if v in rest.Values {
          var q := KeyOf(rest, v);
          assert q in m && m[q] == v;
        }
      }
      assert m.Values == rest.Values + {m[p]};
    }
  }
}
