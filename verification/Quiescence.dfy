// When the event loop gives up: nothing is running, nothing can ever start again,
// and every program that never ran is explained by a chain of waits.
module Quiescence {
  import opened Lifecycle
  import opened Collections
  import opened Supervisor
  import opened Invariants
  import opened Preservation
  import opened Runs
  import opened StartUp
  import opened EventLoop

  // `i` waits for `j`, in vain so far.
  ghost predicate WaitsOn(s: Sup, i: nat, j: nat) {
    s.Sized() && i < s.N() && j < s.N() && s.state[i] == BLOCKED &&
    exists c :: c in s.plan.conditions[i] && c.id == j && !Met(s.state, c)
  }

  ghost predicate Waiting(s: Sup, i: nat) {
    exists j: nat :: WaitsOn(s, i, j)
  }

  // `i` does not run; if READY it was turned away, if BLOCKED it waits.
  ghost predicate Quiet(s: Sup, i: nat)
    requires s.Sized() && i < s.N()
  {
    match s.state[i]
    case BLOCKED => Waiting(s, i)
    case READY => TurnedAway(s, i)
    case RUNNING => false
    case DONE => true
    case CRASHED => true
    case BACKOFF => false
  }

  ghost predicate Settled(s: Sup) {
    s.Sized() && forall i: nat | i < s.N() :: Quiet(s, i)
  }

  // ---------------------------------------------------- the loop's exit conditions

  lemma {:induction false} NothingRuns(s: Sup, i: nat)
    requires Inv(s) && s.running == 0 && i < s.N()
    ensures s.state[i] != RUNNING
  {
    hide FdsAgree, LogAgrees, NamesAgree, Total;
    assert s.idForPid == map[];
  }

  lemma {:induction false} NotDueWaits(s: Sup, i: nat)
    requires Inv(s) && i < s.N() && s.state[i] == BLOCKED && !Due(s, i)
    ensures exists c :: c in s.plan.conditions[i] && c.id < s.N() && !Met(s.state, c)
  {
    hide PidsAgree, FdsAgree, LogAgrees, NamesAgree;
    var c :| c in s.plan.conditions[i] && !Met(s.state, c);
    assert c.id < s.N();
  }

  // If a start_programs call leaves nothing running, it found nothing to do.
  lemma {:induction false} IdleStartSettles(s: Sup, kernel: seq<Grant>)
    requires Inv(s) && KernelFresh(s, kernel) && Start(s, kernel).running == 0
    ensures Settled(Start(s, kernel))
  {
    var r := Start(s, kernel);
    assert |kernel| == s.N();
    ListOrderCovers(s.N());
    StartKeeps(s, kernel);
    CoreBasics(s);
    assert NoBackoff(r);
    hide Start, StartIn, Inv, KernelFresh, Released;
    forall i: nat | i < s.N()
      ensures Quiet(r, i)
    {
      NothingRuns(r, i);
      StartMoves(s, kernel, i);
      if r.state[i] == BLOCKED {
        NotDueWaits(s, i);
        var c :| c in s.plan.conditions[i] && c.id < s.N() && !Met(s.state, c);
        NothingRuns(r, c.id);
        StartMoves(s, kernel, c.id);
        AwaitedKind(s.plan, i, c);
        assert !Met(r.state, c);
        assert WaitsOn(r, i, c.id);
      }
      assert Refused(r, i);
    }
  }

  lemma AwaitedKind(plan: Plan, i: nat, c: Condition)
    requires plan.WellFormed() && i < |plan.conditions| && c in plan.conditions[i]
    ensures c.awaited == RUNNING || c.awaited == DONE
  {
  }

  lemma {:induction false} StartMoves(s: Sup, kernel: seq<Grant>, i: nat)
    requires Inv(s) && KernelFresh(s, kernel) && i < s.N()
    ensures var r := Start(s, kernel);
      if Due(s, i) then r.state[i] == RUNNING || r.state[i] == READY else r.state[i] == s.state[i]
  {
    hide StartIn, Due;
    ListOrderCovers(s.N());
    StartMovesDue(s, kernel, ListOrder(s.N()), i);
  }

  // The loop returns without having been told to quit only in a settled state, and
  // having been told to quit only when nothing runs any more.
  lemma {:induction false} ReturnsAreRight(s: Sup, t: Tick)
    requires Inv(s) && TickOk(s, t)
    ensures Iterate(s, t).1 == IdleReturn ==> Settled(Iterate(s, t).0) && !Iterate(s, t).0.shouldQuit
    ensures Iterate(s, t).1 == QuitReturn ==>
      Iterate(s, t).0.shouldQuit && RunningPrograms(Iterate(s, t).0) == {} && Iterate(s, t).0.idForPid == map[]
  {
    hide Inv, KernelFresh, Start, Handled, Settled, BatchOk;
    TickSizes(s, t);
    var steps, n := HandledIsRun(s, t);
    RunKeeps(s, steps);
    var handled := Handled(s, t);
    var r := Iterate(s, t);
    if r.1 == IdleReturn {
      IdleStartSettles(handled, t.bottom);
    } else if r.1 == QuitReturn {
      CountsAgree(handled);
    }
  }

  // The same for the whole loop, whatever number of passes it took.
  lemma {:induction false} LoopReturnsAreRight(s: Sup, ticks: seq<Tick>)
    requires Inv(s) && LoopOk(s, ticks)
    ensures var r := Loop(s, ticks);
      && Inv(r.0)
      && (r.1 == IdleReturn ==> Settled(r.0) && !r.0.shouldQuit)
      && (r.1 == QuitReturn ==> r.0.shouldQuit && RunningPrograms(r.0) == {} && r.0.idForPid == map[])
    decreases |ticks|
  {
    hide Inv, TickOk, Iterate, Settled, Run, RunOk;
    if ticks != [] {
      TickSizes(s, ticks[0]);
      var steps, n, bottom := IterateIsRun(s, ticks[0]);
      RunKeeps(s, steps);
      var next := Iterate(s, ticks[0]);
      ReturnsAreRight(s, ticks[0]);
      if next.1 == Looping {
        LoopReturnsAreRight(next.0, ticks[1..]);
      }
    }
  }

  // With distinct names an idle return leaves every program blocked or terminated.
  lemma {:induction false} SettledStates(s: Sup, i: nat)
    requires Inv(s) && Settled(s) && s.plan.DistinctNames() && i < s.N()
    ensures s.state[i] == BLOCKED || Terminated(s.state[i])
  {
    hide Core, Waiting;
    assert Quiet(s, i);
    if s.state[i] == READY {
      NameIsFree(s, i);
      assert false;
    }
  }

  // ------------------------------------------------------------- a true fixpoint

  lemma {:induction false} WaitingIsNotReleased(s: Sup, i: nat)
    requires s.Sized() && i < s.N() && Waiting(s, i)
    ensures !Released(s.plan, s.state, i)
  {
    var j: nat :| WaitsOn(s, i, j);
  }

  lemma {:induction false} StartEachIdles(s: Sup, kernel: seq<Grant>, order: seq<nat>)
    requires s.Sized() && |kernel| == s.N() && Positions(order, s.N())
    requires forall i: nat | i < s.N() && s.state[i] == READY :: s.plan.names[i] in s.loggers
    ensures StartEach(s, kernel, order) == s
  {
    if order != [] {
      StartEachIdles(s, kernel, order[..|order| - 1]);
    }
  }

  // Another start_programs call changes nothing at all.
  lemma {:induction false} StartIdles(s: Sup, kernel: seq<Grant>)
    requires Inv(s) && Settled(s) && |kernel| == s.N()
    ensures Start(s, kernel) == s
  {
    CoreBasics(s);
    hide Inv, NotifyAll, StartEach, Released;
    var order := ListOrder(s.N());
    NotifyAllAtOnce(s.plan, s.state, order);
    forall i: nat | i < s.N()
      ensures !Released(s.plan, s.state, i)
      ensures s.state[i] == READY ==> s.plan.names[i] in s.loggers
    {
      assert Quiet(s, i);
      if s.state[i] == BLOCKED {
        WaitingIsNotReleased(s, i);
      } else {
        OnlyBlockedReleased(s, i);
      }
    }
    assert NotifyAll(s.plan, s.state, order) == s.state;
    assert s.(state := s.state) == s;
    StartEachIdles(s, kernel, order);
  }

  lemma OnlyBlockedReleased(s: Sup, i: nat)
    requires s.Sized() && i < s.N() && s.state[i] != BLOCKED
    ensures !Released(s.plan, s.state, i)
  {
  }

  // In a settled state the blocked programs are doomed together.
  ghost function BlockedPrograms(s: Sup): set<nat>
    requires s.Sized()
  {
    set i: nat | i < s.N() && s.state[i] == BLOCKED
  }

  lemma {:induction false} SettledIsDoomed(s: Sup)
    requires Inv(s) && Settled(s)
    ensures Doomed(s, BlockedPrograms(s))
  {
    CoreBasics(s);
    hide Inv, TurnedAway;
    var blocked := BlockedPrograms(s);
    forall i | i in blocked
      ensures Hopeless(s, blocked, i)
    {
      assert Quiet(s, i);
      var j: nat :| WaitsOn(s, i, j);
      var c :| c in s.plan.conditions[i] && c.id == j && !Met(s.state, c);
      assert Quiet(s, j);
      assert Beyond(s, blocked, c);
    }
  }

  lemma {:induction false} SettledStays(s: Sup, step: Step)
    requires Inv(s) && Settled(s) && StepOk(s, step)
    ensures Next(s, step).state == s.state
    ensures forall i: nat | i < s.N() && TurnedAway(s, i) :: TurnedAway(Next(s, step), i)
  {
    hide Next, Inv, StepOk, Waiting, TurnedAway, Doomed;
    SettledIsDoomed(s);
    NextKeepsBlocked(s, step, BlockedPrograms(s));
    NextRises(s, step);
    var r := Next(s, step);
    forall i: nat | i < s.N()
      ensures r.state[i] == s.state[i]
      ensures TurnedAway(s, i) ==> TurnedAway(r, i)
    {
      assert Quiet(s, i);
      assert s.state[i] == BLOCKED ==> i in BlockedPrograms(s);
      if TurnedAway(s, i) {
        NextTurnsAway(s, step, i);
        TurnedAwayIsReady(s, i);
        TurnedAwayIsReady(r, i);
      }
    }
  }

  lemma TurnedAwayIsReady(s: Sup, i: nat)
    requires TurnedAway(s, i)
    ensures s.Sized() && i < s.N() && s.state[i] == READY
  {
  }

  // Returning loses nothing: whatever would have happened afterwards, no program
  // would have changed state.
  lemma {:induction false} NothingMoreHappens(s: Sup, steps: seq<Step>)
    requires Inv(s) && Settled(s) && RunOk(s, steps)
    ensures Run(s, steps).state == s.state && Settled(Run(s, steps))
    decreases |steps|
  {
    hide Inv, Next, StepOk, Settled;
    if steps != [] {
      SettledStays(s, steps[0]);
      NextKeeps(s, steps[0]);
      SettledLasts(s, steps[0]);
      NothingMoreHappens(Next(s, steps[0]), steps[1..]);
    }
  }

  lemma {:induction false} SettledLasts(s: Sup, step: Step)
    requires Inv(s) && Settled(s) && StepOk(s, step)
    ensures Settled(Next(s, step))
  {
    hide Next, Inv, StepOk, TurnedAway;
    SettledStays(s, step);
    var r := Next(s, step);
    forall i: nat | i < s.N()
      ensures Quiet(r, i)
    {
      assert Quiet(s, i);
      if Waiting(s, i) {
        var j: nat :| WaitsOn(s, i, j);
        assert WaitsOn(r, i, j);
      }
    }
  }

  // ------------------------------------------------------------ explaining stuckness

  ghost predicate Chain(s: Sup, path: seq<nat>) {
    && (forall k | 0 <= k < |path| :: path[k] < |s.state|)
    && (forall k | 0 <= k < |path| - 1 :: WaitsOn(s, path[k], path[k + 1]))
  }

  // The chain from `i` ends at a program that terminated in another state than the
  // awaited one, at one that was turned away, or by coming back to itself.
  ghost predicate Explains(s: Sup, path: seq<nat>, i: nat) {
    && |path| >= 2 && path[0] == i && Chain(s, path) && s.Sized()
    && var last := path[|path| - 1];
      || Terminated(s.state[last])
      || TurnedAway(s, last)
      || last in path[..|path| - 1]
  }

  // Follow the waits; with finitely many programs the walk ends or repeats.
  lemma {:induction false} FollowWaits(s: Sup, path: seq<nat>, i: nat) returns (whole: seq<nat>)
    requires s.Sized() && Settled(s) && Chain(s, path) && NoRepeats(path)
    requires |path| >= 1 && path[0] == i && s.state[path[|path| - 1]] == BLOCKED
    ensures Explains(s, whole, i)
    decreases s.N() - |path|
  {
    hide TurnedAway;
    var last := path[|path| - 1];
    assert Quiet(s, last);
    var j: nat :| WaitsOn(s, last, j);
    assert Quiet(s, j);
    whole := path + [j];
    assert whole[..|whole| - 1] == path;
    assert Chain(s, whole) by {
      hide WaitsOn, Settled;
      forall k | 0 <= k < |whole| - 1
        ensures WaitsOn(s, whole[k], whole[k + 1])
      {
        assert k < |path| - 1 ==> WaitsOn(s, path[k], path[k + 1]);
      }
    }
    if s.state[j] == BLOCKED && j !in path {
      NoRepeatsBound(whole, s.N());
      whole := FollowWaits(s, whole, i);
    }
  }

  // Every program that is still blocked when the loop gives up is explained.
  lemma {:induction false} StuckIsExplained(s: Sup, i: nat) returns (path: seq<nat>)
    requires Settled(s) && i < s.N() && s.state[i] == BLOCKED
    ensures Explains(s, path, i)
  {
    path := FollowWaits(s, [i], i);
  }

  // Conversely such a chain keeps its programs blocked in every run.
  lemma {:induction false} ExplainedStaysBlocked(s: Sup, path: seq<nat>, i: nat, steps: seq<Step>)
    requires Inv(s) && Explains(s, path, i) && RunOk(s, steps)
    ensures Run(s, steps).state[i] == BLOCKED
  {
    hide Inv, RunOk, Run, TurnedAway;
    var last := |path| - 1;
    var doomed := set k | 0 <= k < last :: path[k];
    forall k | 0 <= k < last
      ensures s.state[path[k]] == BLOCKED && Hopeless(s, doomed, path[k])
    {
      assert WaitsOn(s, path[k], path[k + 1]);
      var c :| c in s.plan.conditions[path[k]] && c.id == path[k + 1] && !Met(s.state, c);
      assert Beyond(s, doomed, c) by {
        if k + 1 < last {
          assert path[k + 1] in doomed;
        } else if path[last] in path[..last] {
          var m :| 0 <= m < last && path[m] == path[last];
          assert path[m] in doomed;
        }
      }
    }
    assert Doomed(s, doomed);
    DoomedForever(s, steps, doomed);
    assert path[0] in doomed;
  }
}
