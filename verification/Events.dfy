// What each event does, in plain terms: the whole new state, told from the programs and
// what they hold, with the signals by number and the text by what it is made of.
module Events {
  import opened Lifecycle
  import opened Collections
  import opened Trim
  import opened Supervisor
  import opened Invariants
  import opened Preservation
  import opened Runs
  import opened StartUp

  // -------------------------------------------------------------------- the output

  // What a child prints is logged: one line under the program and the kind of the read
  // end, holding the trimmed text; nothing if nothing is left of it.  Nothing else changes.
  lemma {:induction false} OutputIsLogged(s: Sup, w: Wake, text: string)
    requires Inv(s) && WakeOk(s, w) && w.readable && w.fd != s.signalFd && IsOutput(text, w.data)
    ensures w.fd in s.idForFd && s.idForFd[w.fd] < s.N() && s.Sized() && Started(s.state[s.idForFd[w.fd]])
    ensures var id := s.idForFd[w.fd];
      && (w.fd == s.grant[id].out || w.fd == s.grant[id].err)
      && Deliver(s, w) ==
        if text == "" then s
        else s.(log := s.log + [Printed(id, if w.fd == s.grant[id].out then STDOUT else STDERR, text)])
  {
    OutputExactly(w.data, text);
    hide Output, IsOutput, PidsAgree, LogAgrees, FdCounts, NamesAgree, NoBackoff;
  }

  // There always is such a text, so every read is accounted for.
  lemma EveryReadHasOutput(data: seq<char>)
    ensures exists text :: IsOutput(text, data)
  {
    OutputExactly(data, Output(data));
  }

  // ------------------------------------------------------------------- the signals

  // `r` is `s` after `signo` went once to the pid of every RUNNING program, in ascending
  // order, and to nobody else, and the supervisor was told to quit.
  ghost predicate SentToRunning(s: Sup, r: Sup, signo: nat, pids: seq<int>)
    requires s.Sized()
  {
    && r == s.(log := r.log, shouldQuit := true)
    && |r.log| == |s.log| + |pids| && r.log[..|s.log|] == s.log
    && (forall k | 0 <= k < |pids| :: r.log[|s.log| + k] == Killed(pids[k], signo))
    && (forall j, k | 0 <= j < k < |pids| :: pids[j] < pids[k])
    && (forall i: nat | i < s.N() && s.state[i] == RUNNING :: s.grant[i].pid in pids)
    && (forall pid | pid in pids :: exists i: nat :: i < s.N() && s.state[i] == RUNNING && s.grant[i].pid == pid)
  }

  // SIGINT (2) is passed on as SIGTERM (15) and SIGQUIT (3) as itself; SIGCHLD (17) is
  // left to waitpid, and no other signal can be read.
  lemma {:induction false} SignalIsForwarded(s: Sup, w: Wake) returns (pids: seq<int>)
    requires Inv(s) && WakeOk(s, w) && w.fd == s.signalFd
    ensures s.Sized() && (w.signo == 2 || w.signo == 3 || w.signo == 17)
    ensures w.signo == 2 ==> SentToRunning(s, Deliver(s, w), 15, pids)
    ensures w.signo == 3 ==> SentToRunning(s, Deliver(s, w), 3, pids)
    ensures w.signo == 17 ==> Deliver(s, w) == s
  {
    hide Inv, Kills, SentToRunning, AscendingNumbers;
    InvBasics(s);
    pids := AscendingNumbers(s.idForPid.Keys);
    LivePids(s);
    if w.signo == 2 {
      KillsSend(s, 15);
    } else if w.signo == 3 {
      KillsSend(s, 3);
    }
  }

  // The keys of the pid map are the pids of the RUNNING programs.
  lemma {:induction false} LivePids(s: Sup)
    requires Inv(s) && s.Sized()
    ensures var pids := AscendingNumbers(s.idForPid.Keys);
      && (forall i: nat | i < s.N() && s.state[i] == RUNNING :: s.grant[i].pid in pids)
      && (forall pid | pid in pids :: exists i: nat :: i < s.N() && s.state[i] == RUNNING && s.grant[i].pid == pid)
  {
    hide LogAgrees, FdsAgree, NamesAgree, NoBackoff, Total, AscendingNumbers;
    var pids := AscendingNumbers(s.idForPid.Keys);
    forall pid | pid in pids
      ensures exists i: nat :: i < s.N() && s.state[i] == RUNNING && s.grant[i].pid == pid
    {
      assert pid in s.idForPid;
      assert s.state[s.idForPid[pid]] == RUNNING;
    }
    forall i: nat | i < s.N() && s.state[i] == RUNNING
      ensures s.grant[i].pid in pids
    {
      assert s.grant[i].pid in s.idForPid;
    }
  }

  lemma {:induction false} KillsSend(s: Sup, signo: nat)
    requires Inv(s) && s.Sized()
    ensures var pids := AscendingNumbers(s.idForPid.Keys);
      SentToRunning(s, s.(log := s.log + Kills(pids, signo), shouldQuit := true), signo, pids)
  {
    hide Inv, AscendingNumbers;
    LivePids(s);
  }

  // Each of the three signals may arrive as soon as the event loop has begun.
  lemma {:induction false} SignalsArrive(plan: Plan, fd: int, signo: nat)
    requires plan.WellFormed()
    ensures WakeOk(Initial(plan, fd), Wake(fd, true, false, signo, [])) <==> signo == 2 || signo == 3 || signo == 17
  {
  }

  // ---------------------------------------------------------- hangups, the unknown

  // A hangup takes the descriptor out of everything, and its program's count down by one.
  lemma {:induction false} HangupIsForgotten(s: Sup, w: Wake)
    requires Inv(s) && WakeOk(s, w) && !w.readable && w.hangup
    ensures w.fd in s.idForFd && s.idForFd[w.fd] in s.numFdForId && s.numFdForId[s.idForFd[w.fd]] > 0
    ensures var id := s.idForFd[w.fd];
      Deliver(s, w) == s.(interest := s.interest - {w.fd}, idForFd := s.idForFd - {w.fd}, fdType := s.fdType - {w.fd},
                          numFdForId := s.numFdForId[id := s.numFdForId[id] - 1])
  {
    hide PidsAgree, LogAgrees, NamesAgree, NoBackoff;
    var id := s.idForFd[w.fd];
    assert Holds(s, w.fd, id) == 1;
    assert s.numFdForId[id] == Holds(s, s.grant[id].out, id) + Holds(s, s.grant[id].err, id);
  }

  lemma {:induction false} UnknownIsThrown(s: Sup, w: Wake)
    requires s.Sized() && !w.readable && !w.hangup
    ensures Deliver(s, w) == s.(aborted := true)
  {
    hide Forward, Print, Hangup, Output;
  }

  // Whatever the state: a descriptor that is not watched cannot be taken out, one that is
  // mapped to no program cannot be printed for, and one of no known kind prints nothing.
  lemma {:induction false} LookupsThatFail(s: Sup, fd: int, text: string)
    requires s.Sized()
    ensures fd !in s.interest ==> Hangup(s, fd) == s.(aborted := true)
    ensures fd !in s.idForFd || s.idForFd[fd] >= s.N() ==> Print(s, fd, text) == s.(aborted := true)
    ensures fd in s.idForFd && s.idForFd[fd] < s.N() && fd !in s.fdType ==> Print(s, fd, text) == s
  {
  }

  // Unsigned subtraction wraps below zero and nowhere else.
  lemma DecrementWraps(x: nat)
    requires x < 4294967296
    ensures Decrement(x) == if x == 0 then 4294967295 else x - 1
  {
  }

  // ---------------------------------------------------------------------- the exits

  // The exit of a RUNNING program: it is DONE or CRASHED by its status, no longer
  // counted and no longer found under its pid.
  lemma {:induction false} ExitIsRecorded(s: Sup, i: nat, rc: int)
    requires Inv(s) && s.Sized() && i < s.N() && s.state[i] == RUNNING
    ensures var pid := s.grant[i].pid;
      Reap(s, pid, rc) ==
        s.(state := s.state[i := if rc == 0 then DONE else CRASHED], running := s.running - 1,
           idForPid := s.idForPid - {pid}, log := s.log + [Exited(i, pid, rc)])
  {
    hide LogAgrees, FdsAgree, NamesAgree, NoBackoff, Total;
  }

  // Any other pid is a zombie's.
  lemma {:induction false} ZombieIsIgnored(s: Sup, pid: int, rc: int)
    requires Inv(s) && s.Sized() && forall i: nat | i < s.N() && s.state[i] == RUNNING :: s.grant[i].pid != pid
    ensures Reap(s, pid, rc) == s
  {
    hide LogAgrees, FdsAgree, NamesAgree, NoBackoff, Total;
  }

  // ---------------------------------------------------------------- the main logger

  // A program called like the main logger is never started.
  lemma {:induction false} NeverCalledScinit(plan: Plan, s: Sup, i: nat)
    requires Reachable(plan, s) && i < |plan.names| && plan.names[i] == "scinit"
    ensures s.Sized() && i < s.N() && !Started(s.state[i])
  {
    hide Reachable, PidsAgree, FdsAgree, LogAgrees, NoBackoff;
    ReachableInv(plan, s);
  }

  // ----------------------------------------------------------------- over whole runs

  predicate ReadsOutput(signalFd: int, step: Step) {
    step.WakeStep? && step.wake.readable && step.wake.fd != signalFd
  }

  // The reads of child output, in order.
  function Reads(signalFd: int, steps: seq<Step>): seq<Wake>
    decreases |steps|
  {
    if steps == [] then []
    else (if ReadsOutput(signalFd, steps[0]) then [steps[0].wake] else []) + Reads(signalFd, steps[1..])
  }

  // The lines that were logged, in order.
  function PrintedOnly(log: seq<Entry>): seq<Entry> {
    if log == [] then []
    else PrintedOnly(log[..|log| - 1]) + if log[|log| - 1].Printed? then [log[|log| - 1]] else []
  }

  // One line for each read, in order, but for those of which nothing is left.
  ghost predicate Accounts(wakes: seq<Wake>, printed: seq<Entry>)
    decreases |wakes|
  {
    if wakes == [] then printed == []
    else if IsOutput("", wakes[0].data) then Accounts(wakes[1..], printed)
    else
      && printed != [] && printed[0].Printed? && IsOutput(printed[0].text, wakes[0].data)
      && Accounts(wakes[1..], printed[1..])
  }

  lemma {:induction false} PrintedOnlyAdds(log: seq<Entry>, more: seq<Entry>)
    ensures PrintedOnly(log + more) == PrintedOnly(log) + PrintedOnly(more)
    decreases |more|
  {
    if more == [] {
      assert log + more == log;
    } else {
      var init := more[..|more| - 1];
      assert (log + more)[..|log + more| - 1] == log + init;
      PrintedOnlyAdds(log, init);
    }
  }

  lemma {:induction false} NothingPrinted(log: seq<Entry>)
    requires forall k | 0 <= k < |log| :: !log[k].Printed?
    ensures PrintedOnly(log) == []
  {
    if log != [] {
      NothingPrinted(log[..|log| - 1]);
    }
  }

  // `after` is `before` with no lines added.
  predicate NoLines(before: seq<Entry>, after: seq<Entry>) {
    before <= after && forall k | |before| <= k < |after| :: !after[k].Printed?
  }

  // Steps other than reads log no line.
  lemma {:induction false} OthersPrintNothing(s: Sup, step: Step)
    requires Inv(s) && StepOk(s, step) && !ReadsOutput(s.signalFd, step)
    ensures NoLines(s.log, Next(s, step).log)
  {
    hide Inv, KernelFresh, WakeOk, StartIn, Reap, Deliver, NoLines;
    InvBasics(s);
    match step
    case StartStep(kernel) =>
      KernelSize(s, kernel);
      StartPrintsNothing(s, kernel);
    case ReapStep(pid, rc) => ReapPrintsNothing(s, pid, rc);
    case WakeStep(wake) => WakePrintsNothing(s, wake);
  }

  lemma {:induction false} StartPrintsNothing(s: Sup, kernel: seq<Grant>)
    requires s.Sized() && |kernel| == s.N()
    ensures NoLines(s.log, Start(s, kernel).log)
  {
    hide StartIn;
    StartOnlyForks(s, kernel, ListOrder(s.N()));
  }

  lemma ReapPrintsNothing(s: Sup, pid: int, rc: int)
    requires s.Sized()
    ensures NoLines(s.log, Reap(s, pid, rc).log)
  {
  }

  lemma {:induction false} WakePrintsNothing(s: Sup, w: Wake)
    requires s.Sized() && (!w.readable || w.fd == s.signalFd)
    ensures NoLines(s.log, Deliver(s, w).log)
  {
    hide AscendingNumbers, Print, Output;
  }

  lemma {:induction false} NextPrints(s: Sup, step: Step) returns (printed: seq<Entry>)
    requires Inv(s) && StepOk(s, step)
    ensures PrintedOnly(Next(s, step).log) == PrintedOnly(s.log) + printed
    ensures Accounts(Reads(s.signalFd, [step]), printed)
  {
    hide Inv, Start, Reap, Deliver, KernelFresh, IsOutput, PrintedOnly;
    assert [step][1..] == [];
    if ReadsOutput(s.signalFd, step) {
      EveryReadHasOutput(step.wake.data);
      var text :| IsOutput(text, step.wake.data);
      OutputIsLogged(s, step.wake, text);
      OutputExactly(step.wake.data, text);
      OutputExactly(step.wake.data, "");
      printed := if text == "" then [] else [Next(s, step).log[|s.log|]];
      PrintedOnlyAdds(s.log, printed);
      OneLine(printed);
      assert s.log + [] == s.log;
    } else {
      printed := [];
      OthersPrintNothing(s, step);
      var more := Next(s, step).log[|s.log|..];
      assert Next(s, step).log == s.log + more;
      PrintedOnlyAdds(s.log, more);
      NothingPrinted(more);
    }
  }

  lemma OneLine(printed: seq<Entry>)
    requires printed == [] || (|printed| == 1 && printed[0].Printed?)
    ensures PrintedOnly(printed) == printed
  {
    if printed != [] {
      assert printed[..0] == [];
    }
  }

  lemma {:induction false} AccountsAdds(wakes: seq<Wake>, printed: seq<Entry>, wakes': seq<Wake>, printed': seq<Entry>)
    requires Accounts(wakes, printed) && Accounts(wakes', printed')
    ensures Accounts(wakes + wakes', printed + printed')
    decreases |wakes|
  {
    hide IsOutput;
    if wakes == [] {
      assert wakes + wakes' == wakes' && printed + printed' == printed';
    } else {
      assert (wakes + wakes')[1..] == wakes[1..] + wakes';
      if IsOutput("", wakes[0].data) {
        AccountsAdds(wakes[1..], printed, wakes', printed');
      } else {
        assert (printed + printed')[1..] == printed[1..] + printed';
        AccountsAdds(wakes[1..], printed[1..], wakes', printed');
      }
    }
  }

  // Over a whole run the lines in the log are those of the reads, one to one.
  lemma {:induction false} RunPrints(s: Sup, steps: seq<Step>) returns (printed: seq<Entry>)
    requires Inv(s) && RunOk(s, steps)
    ensures PrintedOnly(Run(s, steps).log) == PrintedOnly(s.log) + printed
    ensures Accounts(Reads(s.signalFd, steps), printed)
    decreases |steps|
  {
    hide Inv, StepOk, Next, PrintedOnly, Accounts;
    if steps == [] {
      printed := [];
      NothingAccounts();
    } else {
      var next := Next(s, steps[0]);
      NextKeeps(s, steps[0]);
      var one := NextPrints(s, steps[0]);
      var rest := RunPrints(next, steps[1..]);
      printed := one + rest;
      assert Reads(s.signalFd, [steps[0]]) + Reads(s.signalFd, steps[1..]) == Reads(s.signalFd, steps) by {
        assert [steps[0]][1..] == [];
      }
      AccountsAdds(Reads(s.signalFd, [steps[0]]), one, Reads(s.signalFd, steps[1..]), rest);
    }
  }

  lemma NothingAccounts()
    ensures Accounts([], [])
  {
  }
}
