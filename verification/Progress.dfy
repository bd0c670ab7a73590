// How long a run can go on doing something: a measure that every state change and
// every hangup uses up.
module Progress {
  import opened Lifecycle
  import opened Trim
  import opened Supervisor
  import opened History
  import opened Invariants
  import opened Preservation
  import opened Runs

  // States still to pass through, and the two descriptors still to be opened.
  function Work(x: State): int {
    3 - Rank(x) + if Started(x) then 0 else 2
  }

  function RankOf(x: State): int { Rank(x) }

  function Measure(s: Sup): int {
    Total(Work, s.state) + |s.idForFd|
  }

  // A child's own descriptor hanging up.
  predicate IsHangup(s: Sup, step: Step) {
    step.WakeStep? && !step.wake.readable && step.wake.hangup && step.wake.fd in s.idForFd
  }

  function One(holds: bool): int { if holds then 1 else 0 }

  // ------------------------------------------------------------- the weights together

  lemma {:induction false} WorkBalance(state: seq<State>)
    ensures Total(Work, state) == 5 * |state| - Total(RankOf, state) - 2 * Total(StartedWeight, state)
  {
    if state != [] {
      WorkBalance(state[..|state| - 1]);
    }
  }

  lemma {:induction false} TotalBounds(weight: State -> int, state: seq<State>, low: int, high: int)
    requires forall x :: low <= weight(x) <= high
    ensures low * |state| <= Total(weight, state) <= high * |state|
  {
    if state != [] {
      TotalBounds(weight, state[..|state| - 1], low, high);
    }
  }

  // ------------------------------------------------ descriptors are conserved

  lemma {:induction false} StartOneOpensTwo(s: Sup, kernel: seq<Grant>, i: nat)
    requires s.Sized() && KernelFresh(s, kernel) && FdMaps(s) && i < s.N()
    ensures var r := StartOne(s, kernel, i);
      |r.idForFd| - 2 * Total(StartedWeight, r.state) == |s.idForFd| - 2 * Total(StartedWeight, s.state)
  {
    hide Total;
    if s.state[i] == READY && s.plan.names[i] !in s.loggers {
      var g := kernel[i];
      assert g.out !in s.idForFd && g.err !in s.idForFd && g.out != g.err;
      TotalUpdate(StartedWeight, s.state, i, RUNNING);
    }
  }

  lemma {:induction false} StartEachOpensTwo(s: Sup, kernel: seq<Grant>, order: seq<nat>)
    requires Core(s) && LoggersAgree(s) && Primed(s) && KernelFresh(s, kernel) && Positions(order, s.N())
    ensures var r := StartEach(s, kernel, order);
      |r.idForFd| - 2 * Total(StartedWeight, r.state) == |s.idForFd| - 2 * Total(StartedWeight, s.state)
  {
    assert |kernel| == s.N();
    hide Total, LoggersAgree, Primed, KernelFresh, StartOne;
    hide PidsAgree, FdOwners, FdCounts, LogAgrees, NoBackoff, FdMaps;
    if order != [] {
      var init, last := order[..|order| - 1], order[|order| - 1];
      StartEachOpensTwo(s, kernel, init);
      StartEachKeeps(s, kernel, init);
      StartOneOpensTwo(StartEach(s, kernel, init), kernel, last);
    }
  }

  lemma {:induction false} StartOpensTwo(s: Sup, kernel: seq<Grant>)
    requires Inv(s) && KernelFresh(s, kernel)
    ensures var r := Start(s, kernel);
      |r.idForFd| - 2 * Total(StartedWeight, r.state) == |s.idForFd| - 2 * Total(StartedWeight, s.state)
  {
    assert |kernel| == s.N();
    hide NotifyAll, StartEach, Core, LoggersAgree, Primed, KernelFresh, Released, Total;
    CoreBasics(s);
    var order := ListOrder(s.N());
    var mid := s.(state := NotifyAll(s.plan, s.state, order));
    NotifyPrimes(s, order);
    NotifyAllAtOnce(s.plan, s.state, order);
    ReleasedStaysFresh(s, kernel, mid.state);
    TotalSame(StartedWeight, s.state, mid.state);
    StartEachOpensTwo(mid, kernel, order);
  }

  lemma {:induction false} ReapOpensNone(s: Sup, pid: int, rc: int)
    requires s.Sized() && PidsAgree(s)
    ensures var r := Reap(s, pid, rc);
      r.idForFd == s.idForFd && Total(StartedWeight, r.state) == Total(StartedWeight, s.state)
  {
    hide Total;
    if pid in s.idForPid {
      TotalUpdate(StartedWeight, s.state, s.idForPid[pid], ExitState(rc));
    }
  }

  lemma {:induction false} DeliverClosesOne(s: Sup, w: Wake)
    requires Inv(s) && WakeOk(s, w)
    ensures |Deliver(s, w).idForFd| == |s.idForFd| - One(IsHangup(s, WakeStep(w)))
  {
    hide Output, Forward, Print, LogAgrees, PidsAgree, FdOwners, FdCounts, NamesAgree;
    if IsHangup(s, WakeStep(w)) {
      assert s.idForFd == (s.idForFd - {w.fd})[w.fd := s.idForFd[w.fd]];
    }
  }

  // Two descriptors per fork, each open until its own hangup.
  lemma {:induction false} NextConserves(s: Sup, step: Step)
    requires Inv(s) && StepOk(s, step)
    ensures var r := Next(s, step);
      |r.idForFd| + One(IsHangup(s, step)) - 2 * Total(StartedWeight, r.state) ==
        |s.idForFd| - 2 * Total(StartedWeight, s.state)
  {
    hide Start, Reap, Deliver, FdsAgree, LogAgrees, PidsAgree, NamesAgree, WakeOk, KernelFresh, Total;
    match step
    case StartStep(kernel) => StartOpensTwo(s, kernel);
    case ReapStep(pid, rc) => ReapOpensNone(s, pid, rc);
    case WakeStep(wake) => DeliverClosesOne(s, wake);
  }

  // ------------------------------------------------------------------- main results

  lemma {:induction false} RisesAddUp(before: seq<State>, after: seq<State>)
    requires Rises(before, after)
    ensures Total(RankOf, before) <= Total(RankOf, after)
    ensures before != after ==> Total(RankOf, before) < Total(RankOf, after)
  {
    if before != [] {
      var last := |before| - 1;
      RisesAddUp(before[..last], after[..last]);
      assert before[..last] == after[..last] && before[last] == after[last] ==> before == after by {
        assert before == before[..last] + [before[last]];
        assert after == after[..last] + [after[last]];
      }
    }
  }

  // A step that changes a program's state or closes one of its descriptors.
  ghost predicate Busy(s: Sup, step: Step)
    requires StepOk(s, step)
  {
    Next(s, step).state != s.state || IsHangup(s, step)
  }

  // Every busy step uses up some of the measure, and the others none.
  lemma {:induction false} NextMeasure(s: Sup, step: Step)
    requires Inv(s) && StepOk(s, step)
    ensures Measure(Next(s, step)) ==
      Measure(s) - (Total(RankOf, Next(s, step).state) - Total(RankOf, s.state)) - One(IsHangup(s, step))
    ensures if Busy(s, step) then Measure(Next(s, step)) < Measure(s) else Measure(Next(s, step)) == Measure(s)
  {
    hide Inv, Next, StepOk, Total, Rises, IsHangup;
    var r := Next(s, step);
    NextConserves(s, step);
    NextRises(s, step);
    SizedAlike(s, r);
    WorkBalance(s.state);
    WorkBalance(r.state);
    RisesAddUp(s.state, r.state);
  }

  lemma SizedAlike(s: Sup, r: Sup)
    requires Inv(s) && r.Sized() && r.plan == s.plan
    ensures |s.state| == |r.state| == s.N()
  {
  }

  ghost function BusySteps(s: Sup, steps: seq<Step>): nat
    requires RunOk(s, steps)
    decreases |steps|
  {
    if steps == [] then 0
    else (if Busy(s, steps[0]) then 1 else 0) + BusySteps(Next(s, steps[0]), steps[1..])
  }

  lemma {:induction false} RunMeasure(s: Sup, steps: seq<Step>)
    requires Inv(s) && RunOk(s, steps)
    ensures Measure(Run(s, steps)) + BusySteps(s, steps) <= Measure(s)
    decreases |steps|
  {
    hide Inv, Next, StepOk, Busy, Measure;
    if steps != [] {
      NextMeasure(s, steps[0]);
      NextKeeps(s, steps[0]);
      RunMeasure(Next(s, steps[0]), steps[1..]);
    }
  }

  lemma {:induction false} MeasureBounds(s: Sup)
    requires Inv(s)
    ensures 0 <= Measure(s) <= 5 * s.N() + |s.idForFd|
    ensures Forks(s.log) <= s.N()
  {
    hide PidsAgree, FdsAgree, NamesAgree, Legal, Holders, LastState;
    TotalBounds(Work, s.state, 0, 5);
    TotalBounds(StartedWeight, s.state, 0, 1);
  }

  // A run of n programs has at most 5n busy steps and at most n forks, however long
  // it is and whatever the operating system does.
  lemma {:induction false} RunsAreBounded(plan: Plan, signalFd: int, steps: seq<Step>)
    requires plan.WellFormed() && RunOk(Initial(plan, signalFd), steps)
    ensures BusySteps(Initial(plan, signalFd), steps) <= 5 * |plan.names|
    ensures Forks(Run(Initial(plan, signalFd), steps).log) <= |plan.names|
  {
    hide Inv, RunOk, Run, BusySteps, Measure;
    var s := Initial(plan, signalFd);
    InitialInv(plan, signalFd);
    RunKeeps(s, steps);
    RunMeasure(s, steps);
    MeasureBounds(s);
    MeasureBounds(Run(s, steps));
  }
}
