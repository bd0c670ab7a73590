// Which programs the event loop can leave behind: told from the plan, before it runs.
module Stranding {
  import opened Lifecycle
  import opened Registration
  import opened Supervisor
  import opened Invariants
  import opened Runs
  import opened EventLoop
  import opened Quiescence
  import opened Passes
  import opened EndToEnd
  import opened Scripts

  // Whatever happens, `i` has been forked when the first pass is over.
  ghost predicate AlwaysStarts(plan: Plan, i: nat)
    requires i < |plan.names|
  {
    forall fd: int, first: seq<Grant>, ticks: seq<Tick> | Serves(plan, fd, first, ticks) && ticks != [] ::
      Started(Outcome(plan, fd, first, ticks).0.state[i])
  }

  // Nobody was left BLOCKED without a condition.
  predicate BlockedByConditions(plan: Plan)
    requires plan.WellFormed()
  {
    forall i | 0 <= i < |plan.names| && plan.init[i] == BLOCKED :: exists c :: c in plan.conditions[i]
  }

  // -------------------------------------------------------- everybody crashes at once

  // Every program below `n` from `k` on is reaped with status one.
  function CrashFrom(k: nat, n: nat): seq<(int, int)>
    decreases n - k
  {
    if k >= n then [] else [(k + 1, 1)] + CrashFrom(k + 1, n)
  }

  lemma {:induction false} CrashedFrom(state: seq<State>, k: nat, j: nat)
    requires j < |state|
    ensures ReapedAll(state, CrashFrom(k, |state|))[j] == if k <= j && state[j] == RUNNING then CRASHED else state[j]
    decreases |state| - k
  {
    hide Reaped;
    if k < |state| {
      hide ReapedAll, CrashFrom;
      CrashesFirst(state, k);
      CrashedFrom(Reaped(state, k + 1, 1), k + 1, j);
      CrashedOne(state, k, j);
    }
  }

  lemma CrashesFirst(state: seq<State>, k: nat)
    requires k < |state|
    ensures ReapedAll(state, CrashFrom(k, |state|)) == ReapedAll(Reaped(state, k + 1, 1), CrashFrom(k + 1, |state|))
  {
    hide Reaped;
    assert CrashFrom(k, |state|)[1..] == CrashFrom(k + 1, |state|);
  }

  lemma CrashedOne(state: seq<State>, k: nat, j: nat)
    requires k < |state| && j < |state|
    ensures Reaped(state, k + 1, 1)[j] == if j == k && state[j] == RUNNING then CRASHED else state[j]
  {
  }

  // The first call: the programs that were READY run, the others wait.
  lemma {:induction false} FirstStates(plan: Plan, i: nat)
    requires plan.WellFormed() && BlockedByConditions(plan) && i < |plan.names|
    ensures Stepped(plan, plan.init)[i] == if plan.init[i] == READY then RUNNING else BLOCKED
  {
    if plan.init[i] == BLOCKED {
      var c :| c in plan.conditions[i];
      assert !Met(plan.init, c);
    }
  }

  // The second call: exactly those sure to start run.
  lemma {:induction false} SecondStates(plan: Plan, state: seq<State>, i: nat)
    requires plan.WellFormed() && |state| == |plan.names| && i < |plan.names|
    requires forall j: nat | j < |state| :: state[j] == if plan.init[j] == READY then RUNNING else BLOCKED
    ensures Stepped(plan, state)[i] == if SureToStart(plan, i) then RUNNING else BLOCKED
  {
    if plan.init[i] == BLOCKED {
      forall c | c in plan.conditions[i]
        ensures Met(state, c) <==> c.awaited == RUNNING && plan.init[c.id] == READY
      {
        assert c.id < |state|;
      }
    }
  }

  // With everybody crashed nobody is released.
  lemma {:induction false} NobodyReleased(plan: Plan, state: seq<State>, i: nat)
    requires plan.WellFormed() && BlockedByConditions(plan) && |state| == |plan.names| && i < |plan.names|
    requires forall j: nat | j < |state| :: state[j] == if SureToStart(plan, j) then CRASHED else BLOCKED
    ensures Stepped(plan, state)[i] == state[i]
  {
    hide SureToStart;
    if state[i] == BLOCKED {
      NotSure(plan, i);
      var c :| c in plan.conditions[i];
      assert !Met(state, c);
    }
  }

  lemma NotSure(plan: Plan, i: nat)
    requires plan.WellFormed() && i < |plan.names| && !SureToStart(plan, i)
    ensures plan.init[i] == BLOCKED
  {
  }

  // One pass in which everything that runs crashes: the loop returns, and exactly those
  // not sure to start are left behind.
  lemma {:induction false} OnePassStrands(plan: Plan) returns (s: Sup)
    requires plan.WellFormed() && plan.DistinctNames() && BlockedByConditions(plan)
    ensures var n := |plan.names|;
      Follows(plan, [Script(n, CrashFrom(0, n), false)], s, IdleReturn)
    ensures s.plan == plan && s.Sized()
    ensures forall i: nat | i < |plan.names| :: s.state[i] == if SureToStart(plan, i) then CRASHED else BLOCKED
  {
    hide Scripted, Follows, Stepped, ReapedAll, CrashFrom, SureToStart, BlockedByConditions;
    var n := |plan.names|;
    var first := FollowsFirst(plan);
    var verdict;
    s, verdict := FollowsNext(plan, [], first, CrashFrom(0, n), false);
    assert [] + [Script(n, CrashFrom(0, n), false)] == [Script(n, CrashFrom(0, n), false)];
    var second := Stepped(plan, first.state);
    var third := ReapedAll(second, CrashFrom(0, n));
    forall i: nat | i < n
      ensures first.state[i] == if plan.init[i] == READY then RUNNING else BLOCKED
    {
      FirstStates(plan, i);
    }
    forall i: nat | i < n
      ensures third[i] == if SureToStart(plan, i) then CRASHED else BLOCKED
    {
      SecondStates(plan, first.state, i);
      CrashedFrom(second, 0, i);
    }
    forall i: nat | i < n
      ensures s.state[i] == third[i]
    {
      NobodyReleased(plan, third, i);
    }
  }

  // ------------------------------------------------------------------- main results

  // A program that is not sure to start can be stranded: the loop returns with it
  // BLOCKED, and no run whatever would ever release it.
  lemma {:induction false} CanBeStranded(plan: Plan, i: nat) returns (ticks: seq<Tick>, s: Sup)
    requires plan.WellFormed() && plan.DistinctNames() && BlockedByConditions(plan)
    requires i < |plan.names| && !SureToStart(plan, i)
    ensures ticks != [] && Follows(plan, ticks, s, IdleReturn) && s.Sized() && s.plan == plan && s.state[i] == BLOCKED
    ensures forall steps | RunOk(s, steps) :: Run(s, steps).Sized() && Run(s, steps).state[i] == BLOCKED
  {
    hide SureToStart, BlockedByConditions, RunOk, Run, CrashFrom;
    s := OnePassStrands(plan);
    ticks := [Script(|plan.names|, CrashFrom(0, |plan.names|), false)];
    IdleIsFinal(plan, 3, FirstGrants(|plan.names|), ticks);
  }

  // What an idle return leaves behind is left behind for good.
  lemma {:induction false} IdleIsFinal(plan: Plan, fd: int, first: seq<Grant>, ticks: seq<Tick>)
    requires Serves(plan, fd, first, ticks) && Outcome(plan, fd, first, ticks).1 == IdleReturn
    ensures var s := Outcome(plan, fd, first, ticks).0;
      && Inv(s) && Settled(s)
      && forall steps | RunOk(s, steps) :: Run(s, steps).Sized() && Run(s, steps).state == s.state
  {
    hide Inv, Settled, KernelFresh, Start, LoopOk, Loop, RunOk, Run;
    KernelSize(Initial(plan, fd), first);
    InitialInv(plan, fd);
    StartKeeps(Initial(plan, fd), first);
    LoopReturnsAreRight(Start(Initial(plan, fd), first), ticks);
    var s := Outcome(plan, fd, first, ticks).0;
    forall steps | RunOk(s, steps)
      ensures Run(s, steps).Sized() && Run(s, steps).state == s.state
    {
      NothingMoreHappens(s, steps);
    }
  }

  // A program is started in every run of the loop exactly when it was READY after
  // registration or waits only for RUNNING of programs that were.
  lemma {:induction false} StartsExactly(plan: Plan, i: nat)
    requires plan.WellFormed() && plan.DistinctNames() && BlockedByConditions(plan) && i < |plan.names|
    ensures AlwaysStarts(plan, i) <==> SureToStart(plan, i)
  {
    hide SureToStart, BlockedByConditions, Serves, Outcome;
    if SureToStart(plan, i) {
      forall fd: int, first: seq<Grant>, ticks: seq<Tick> | Serves(plan, fd, first, ticks) && ticks != []
        ensures Started(Outcome(plan, fd, first, ticks).0.state[i])
      {
        DirectDependentsStart(plan, fd, first, ticks, i);
      }
    } else {
      var ticks, s := CanBeStranded(plan, i);
      assert Serves(plan, 3, FirstGrants(|plan.names|), ticks);
    }
  }

  // ---------------------------------------------------------------- by declaration

  // `p` is not gated, or every edge to it awaits RUNNING of a program that is not.
  predicate SureAsDeclared(children: seq<Child>, p: nat)
    requires p < |children|
  {
    !GatedInTime(children, p) ||
    forall q: nat | q < |children| && DeclaredEdge(children, q, p) ::
      DeclaredState(children, q, p) == RUNNING && !GatedInTime(children, q)
  }

  lemma {:induction false} GatedHasEdge(children: seq<Child>, p: nat) returns (q: nat)
    requires p < |children| && GatedInTime(children, p)
    ensures q < |children| && DeclaredEdge(children, q, p)
  {
    if q': nat :| q' < |children| && AfterEdge(children, q', p) {
      q := q';
    } else {
      q :| q <= p && BeforeEdge(children, q, p);
    }
  }

  lemma {:induction false} RegisteredBlockedByConditions(children: seq<Child>)
    requires AllFresh(children) && Registered(children).WellFormed()
    ensures BlockedByConditions(Registered(children))
  {
    hide Register, GatedInTime, DeclaredEdge, DeclaredState;
    forall p: nat | p < |children| && Registered(children).init[p] == BLOCKED
      ensures exists c :: c in Registered(children).conditions[p]
    {
      ReadyAfterRegistration(children, p);
      var q := GatedHasEdge(children, p);
      RegisteredGraph(children, p);
      assert Condition(q, DeclaredState(children, q, p)) in Registered(children).conditions[p];
    }
  }

  lemma {:induction false} SureEitherWay(children: seq<Child>, p: nat)
    requires AllFresh(children) && Registered(children).WellFormed() && p < |children|
    ensures |Registered(children).names| == |children|
    ensures SureToStart(Registered(children), p) <==> SureAsDeclared(children, p)
  {
    hide Register, GatedInTime, DeclaredEdge, DeclaredState;
    var plan := Registered(children);
    RegisteredGraph(children, p);
    ReadyAfterRegistration(children, p);
    forall q: nat | q < |children|
      ensures plan.init[q] == READY <==> !GatedInTime(children, q)
      ensures DeclaredEdge(children, q, p) ==> Condition(q, DeclaredState(children, q, p)) in plan.conditions[p]
    {
      ReadyAfterRegistration(children, q);
    }
    EdgesInRange(children, p);
  }

  lemma EdgesInRange(children: seq<Child>, p: nat)
    requires p < |children|
    ensures forall q: nat | DeclaredEdge(children, q, p) :: q < |children|
  {
  }

  // From the declarations: whether a program is started in every run of the loop.
  lemma {:induction false} StartsAsDeclaredExactly(children: seq<Child>, p: nat)
    requires AllFresh(children) && Registered(children).DistinctNames() && p < |children|
    ensures |Registered(children).names| == |children|
    ensures AlwaysStarts(Registered(children), p) <==> SureAsDeclared(children, p)
  {
    hide Registered, AlwaysStarts, SureAsDeclared, SureToStart, BlockedByConditions;
    RegisteredWellFormed(children);
    RegisteredBlockedByConditions(children);
    SureEitherWay(children, p);
    StartsExactly(Registered(children), p);
  }
}
