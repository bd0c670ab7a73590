// The loop under one particular operating system, which hands out the same pids and
// descriptors every time and lets programs exit as a script says.  It shows that what
// the loop is said to admit does happen.
module Scripts {
  import opened Lifecycle
  import opened Collections
  import opened Supervisor
  import opened Invariants
  import opened Preservation
  import opened Runs
  import opened StartUp
  import opened EventLoop
  import opened EndToEnd

  // The operating system hands out the same pids and descriptors every time.
  ghost predicate Scripted(s: Sup) {
    && Inv(s) && s.plan.DistinctNames() && s.signalFd == 3 && !s.aborted
    && forall i: nat | i < s.N() && Started(s.state[i]) :: s.grant[i] == FirstGrants(s.N())[i]
  }

  lemma {:induction false} ScriptedPid(s: Sup, pid: int)
    requires Scripted(s) && s.Sized() && pid in s.idForPid
    ensures 0 < pid <= s.N() && s.idForPid[pid] == pid - 1 && s.state[pid - 1] == RUNNING
  {
    hide LogAgrees, NamesAgree, NoBackoff, FdsAgree, Total;
  }

  lemma {:induction false} ScriptedRunning(s: Sup, i: nat)
    requires Scripted(s) && s.Sized() && i < s.N() && s.state[i] == RUNNING
    ensures i + 1 in s.idForPid && s.idForPid[i + 1] == i
  {
    hide LogAgrees, NamesAgree, NoBackoff, FdsAgree, Total;
    assert s.grant[i].pid == i + 1;
  }

  lemma {:induction false} ScriptedFd(s: Sup, i: nat, fd: int)
    requires Scripted(s) && s.Sized() && i < s.N() && !Started(s.state[i]) && (fd == 2 * i + 4 || fd == 2 * i + 5)
    ensures fd !in s.interest
  {
    hide LogAgrees, NamesAgree, NoBackoff, PidsAgree, FdCounts;
  }

  lemma {:induction false} ScriptedIsFresh(s: Sup)
    requires Scripted(s)
    ensures s.Sized() && KernelFresh(s, FirstGrants(s.N()))
  {
    hide Inv;
    InvBasics(s);
    var kernel := FirstGrants(s.N());
    forall i: nat | i < s.N() && !Started(s.state[i])
      ensures kernel[i].pid !in s.idForPid && kernel[i].out !in s.interest && kernel[i].err !in s.interest
    {
      if kernel[i].pid in s.idForPid {
        ScriptedPid(s, kernel[i].pid);
        assert false;
      }
      ScriptedFd(s, i, kernel[i].out);
      ScriptedFd(s, i, kernel[i].err);
    }
  }

  lemma {:induction false} ScriptedInitial(plan: Plan)
    requires plan.WellFormed() && plan.DistinctNames()
    ensures Scripted(Initial(plan, 3))
  {
    hide Inv;
    InitialInv(plan, 3);
  }

  // Every program that is due starts at once.
  function Stepped(plan: Plan, state: seq<State>): (r: seq<State>)
    requires |state| == |plan.conditions|
    ensures |r| == |state|
  {
    seq(|state|, i requires 0 <= i < |state| =>
      if state[i] == READY || Released(plan, state, i) then RUNNING else state[i])
  }

  lemma {:induction false} ScriptedStart(s: Sup)
    requires Scripted(s)
    ensures s.Sized()
    ensures var r := Start(s, FirstGrants(s.N()));
      Scripted(r) && r.state == Stepped(s.plan, s.state) && r.shouldQuit == s.shouldQuit
  {
    ScriptedIsFresh(s);
    hide Inv, KernelFresh, StartIn, NameTaken;
    InvBasics(s);
    var kernel := FirstGrants(s.N());
    var r := Start(s, kernel);
    StartKeeps(s, kernel);
    ListOrderCovers(s.N());
    forall i: nat | i < s.N()
      ensures r.state[i] == Stepped(s.plan, s.state)[i]
      ensures Started(r.state[i]) ==> r.grant[i] == kernel[i]
    {
      StartAtOnce(s, kernel, ListOrder(s.N()), i);
      StartExactly(s, kernel, i);
    }
  }

  // The parent of program `i` knows it as pid `i + 1`; other pids are zombies.
  function Reaped(state: seq<State>, pid: int, rc: int): (r: seq<State>)
    ensures |r| == |state|
  {
    if 0 < pid <= |state| && state[pid - 1] == RUNNING then state[pid - 1 := ExitState(rc)] else state
  }

  function ReapedAll(state: seq<State>, reaps: seq<(int, int)>): (r: seq<State>)
    ensures |r| == |state|
    decreases |reaps|
  {
    if reaps == [] then state else ReapedAll(Reaped(state, reaps[0].0, reaps[0].1), reaps[1..])
  }

  lemma ReapedOnce(state: seq<State>, i: nat, rc: int)
    requires i < |state| && state[i] == RUNNING
    ensures ReapedAll(state, [(i + 1, rc)]) == state[i := ExitState(rc)]
  {
    assert [(i + 1, rc)][1..] == [];
  }

  lemma {:induction false} ScriptedReap(s: Sup, pid: int, rc: int)
    requires Scripted(s) && s.Sized()
    ensures var r := Reap(s, pid, rc);
      Scripted(r) && r.state == Reaped(s.state, pid, rc)
  {
    hide Inv;
    ReapKeeps(s, pid, rc);
    if pid in s.idForPid {
      ScriptedPid(s, pid);
    } else if 0 < pid <= s.N() && s.state[pid - 1] == RUNNING {
      ScriptedRunning(s, pid - 1);
      assert false;
    }
  }

  lemma {:induction false} ScriptedReapAll(s: Sup, reaps: seq<(int, int)>)
    requires Scripted(s) && s.Sized()
    ensures Scripted(ReapAll(s, reaps)) && ReapAll(s, reaps).state == ReapedAll(s.state, reaps)
    decreases |reaps|
  {
    hide Scripted, Reap, Reaped;
    if reaps != [] {
      ScriptedReap(s, reaps[0].0, reaps[0].1);
      ScriptedReapAll(Reap(s, reaps[0].0, reaps[0].1), reaps[1..]);
    }
  }

  // One pass with these exits in which, with `quit`, SIGINT is read.
  function Script(n: nat, reaps: seq<(int, int)>, quit: bool): Tick {
    Tick(FirstGrants(n), reaps, if quit then [Wake(3, true, false, SIGINT, [])] else [], FirstGrants(n))
  }

  lemma {:induction false} ScriptedWake(s: Sup, quit: bool)
    requires Scripted(s) && s.Sized()
    ensures var r := DeliverAll(s, if quit then [Wake(3, true, false, SIGINT, [])] else []);
      Scripted(r) && r.state == s.state && r.shouldQuit == (s.shouldQuit || quit)
  {
    hide Inv, AscendingNumbers;
    if quit {
      var wakes := [Wake(3, true, false, SIGINT, [])];
      ForwardKeeps(s, SIGINT);
      assert wakes[1..] == [];
      assert DeliverAll(s, wakes) == Forward(s, SIGINT);
    }
  }

  // The states after such a pass, and the verdict.
  lemma {:induction false} ScriptedPass(s: Sup, reaps: seq<(int, int)>, quit: bool)
    requires Scripted(s) && s.Sized()
    ensures var t := Script(s.N(), reaps, quit);
      && TickOk(s, t)
      && var r := Iterate(s, t);
      && var handled := ReapedAll(Stepped(s.plan, s.state), reaps);
      && Scripted(r.0) && r.0.Sized()
      && r.0.shouldQuit == (s.shouldQuit || quit)
      && r.0.state == (if r.0.shouldQuit then handled else Stepped(s.plan, handled))
      && (r.1 == Looping <==> exists j :: 0 <= j < s.N() && r.0.state[j] == RUNNING)
      && (r.1 == Looping || r.1 == (if r.0.shouldQuit then QuitReturn else IdleReturn))
  {
    hide Scripted, Start, ReapAll, DeliverAll, KernelFresh, Stepped, ReapedAll;
    var t := Script(s.N(), reaps, quit);
    var started := Start(s, t.top);
    ScriptedIsFresh(s);
    ScriptedStart(s);
    ScriptedReapAll(started, reaps);
    var reaped := ReapAll(started, t.reaps);
    ScriptedWake(reaped, quit);
    var handled := Handled(s, t);
    ScriptedIsFresh(handled);
    ScriptedBatch(started, quit);
    ScriptedStart(handled);
    ScriptedFlags(handled);
    ScriptedFlags(Start(handled, t.bottom));
  }

  lemma ScriptedBatch(s: Sup, quit: bool)
    requires Scripted(s)
    ensures BatchOk(s, if quit then [Wake(3, true, false, SIGINT, [])] else [])
  {
    hide LogAgrees, NamesAgree, NoBackoff, PidsAgree, FdOwners, FdCounts;
  }

  lemma {:induction false} ScriptedFlags(s: Sup)
    requires Scripted(s)
    ensures s.Sized() && !s.aborted
    ensures s.running == 0 <==> !exists j :: 0 <= j < s.N() && s.state[j] == RUNNING
  {
    hide Inv;
    InvBasics(s);
    CountsAgree(s);
    if |RunningPrograms(s)| > 0 {
      var j := Pick(RunningPrograms(s));
      assert s.state[j] == RUNNING;
    } else {
      assert forall j: nat | j < s.N() && s.state[j] == RUNNING :: j in RunningPrograms(s);
    }
  }

  // From registration on: the first call, then the passes one by one.
  ghost predicate Follows(plan: Plan, ticks: seq<Tick>, s: Sup, verdict: Verdict) {
    && Serves(plan, 3, FirstGrants(|plan.names|), ticks)
    && Outcome(plan, 3, FirstGrants(|plan.names|), ticks) == (s, verdict)
  }

  lemma {:induction false} FollowsFirst(plan: Plan) returns (s: Sup)
    requires plan.WellFormed() && plan.DistinctNames()
    ensures Follows(plan, [], s, Looping) && Scripted(s) && !s.shouldQuit
    ensures s.Sized() && s.plan == plan && s.state == Stepped(plan, plan.init)
  {
    hide Scripted, Start, KernelFresh, Stepped;
    var initial := Initial(plan, 3);
    ScriptedInitial(plan);
    ScriptedIsFresh(initial);
    ScriptedStart(initial);
    s := Start(initial, FirstGrants(|plan.names|));
  }

  lemma {:induction false} LoopOneMore(s: Sup, ticks: seq<Tick>, t: Tick)
    requires LoopOk(s, ticks) && Loop(s, ticks).1 == Looping && TickOk(Loop(s, ticks).0, t)
    requires Loop(s, ticks).0.Sized() && |t.top| == |t.bottom| == Loop(s, ticks).0.N()
    ensures LoopOk(s, ticks + [t]) && Loop(s, ticks + [t]) == Iterate(Loop(s, ticks).0, t)
    decreases |ticks|
  {
    hide Iterate, TickOk;
    if ticks == [] {
      assert ticks + [t] == [t] && [t][1..] == [];
    } else {
      assert (ticks + [t])[0] == ticks[0] && (ticks + [t])[1..] == ticks[1..] + [t];
      TickSizes(s, ticks[0]);
      LoopOneMore(Iterate(s, ticks[0]).0, ticks[1..], t);
    }
  }

  lemma {:induction false} FollowsNext(plan: Plan, ticks: seq<Tick>, s: Sup, reaps: seq<(int, int)>, quit: bool)
    returns (r: Sup, verdict: Verdict)
    requires Follows(plan, ticks, s, Looping) && Scripted(s) && s.Sized() && s.plan == plan
    ensures Follows(plan, ticks + [Script(s.N(), reaps, quit)], r, verdict)
    ensures Scripted(r) && r.Sized() && r.plan == plan && r.shouldQuit == (s.shouldQuit || quit)
    ensures r.state == var handled := ReapedAll(Stepped(plan, s.state), reaps);
      if r.shouldQuit then handled else Stepped(plan, handled)
    ensures verdict == Looping <==> exists j :: 0 <= j < s.N() && r.state[j] == RUNNING
    ensures verdict == Looping || verdict == (if r.shouldQuit then QuitReturn else IdleReturn)
  {
    hide Scripted, Start, KernelFresh, Stepped, ReapedAll, Iterate, TickOk, LoopOk, Loop, Initial;
    var t := Script(s.N(), reaps, quit);
    ScriptedPass(s, reaps, quit);
    TickSizes(s, t);
    LoopOneMore(Start(Initial(plan, 3), FirstGrants(|plan.names|)), ticks, t);
    r, verdict := Iterate(s, t).0, Iterate(s, t).1;
  }

  lemma FollowsReaches(plan: Plan, ticks: seq<Tick>, s: Sup, verdict: Verdict)
    requires Follows(plan, ticks, s, verdict)
    ensures Reachable(plan, s)
  {
    hide Reachable, KernelFresh, Start, LoopOk, Loop, Initial;
    LoopReaches(plan, 3, FirstGrants(|plan.names|), ticks);
  }
}
