// What one call of start_programs amounts to: all at once, whatever the order of
// the list.
module StartUp {
  import opened Lifecycle
  import opened Supervisor
  import opened Invariants
  import opened Runs

  // `i` is about to be forked: READY already, or blocked with every condition met.
  predicate Due(s: Sup, i: nat)
    requires s.Sized() && i < s.N()
  {
    s.state[i] == READY || Released(s.plan, s.state, i)
  }

  lemma {:induction false} StartNext(s: Sup, kernel: seq<Grant>, order: seq<nat>, k: nat)
    requires s.Sized() && |kernel| == s.N() && Positions(order, s.N()) && k < |order|
    ensures StartEach(s, kernel, order[..k + 1]) == StartOne(StartEach(s, kernel, order[..k]), kernel, order[k])
  {
    hide StartOne;
    assert order[..k + 1][..k] == order[..k];
  }

  // Every program keeps its state or, being due, moves up to RUNNING, or is left
  // READY because its logger name is taken.
  lemma {:induction false} StartMovesDue(s: Sup, kernel: seq<Grant>, order: seq<nat>, i: nat)
    requires s.Sized() && s.plan.WellFormed() && |kernel| == s.N() && Covers(order, s.N()) && i < s.N()
    ensures var r := StartIn(s, kernel, order);
      && (!Due(s, i) ==> r.state[i] == s.state[i])
      && (Due(s, i) ==> r.state[i] == RUNNING || (r.state[i] == READY && r.plan.names[i] in r.loggers))
  {
    hide NotifyAll, StartEach, Released;
    var mid := s.(state := NotifyAll(s.plan, s.state, order));
    NotifyAllAtOnce(s.plan, s.state, order);
    StartEachStates(mid, kernel, order);
    AllRefused(mid, kernel, order, i);
  }

  // start_programs with distinct names is one simultaneous step: each due program
  // starts running, judged by the states before the call, and no other moves.
  lemma {:induction false} StartAtOnce(s: Sup, kernel: seq<Grant>, order: seq<nat>, i: nat)
    requires Inv(s) && s.plan.DistinctNames() && KernelFresh(s, kernel) && Covers(order, s.N()) && i < s.N()
    ensures StartIn(s, kernel, order).state[i] == if Due(s, i) then RUNNING else s.state[i]
  {
    StartMovesDue(s, kernel, order, i);
    StartInKeeps(s, kernel, order);
    var r := StartIn(s, kernel, order);
    hide StartIn, KernelFresh, Core, LoggersAgree;
    if Due(s, i) && r.state[i] == READY {
      NameIsFree(r, i);
      assert false;
    }
  }

  // So the states after the call do not depend on the order of the program list.
  lemma {:induction false} OrderIrrelevant(s: Sup, kernel: seq<Grant>, one: seq<nat>, other: seq<nat>)
    requires Inv(s) && s.plan.DistinctNames() && KernelFresh(s, kernel)
    requires Covers(one, s.N()) && Covers(other, s.N())
    ensures StartIn(s, kernel, one).state == StartIn(s, kernel, other).state
  {
    assert s.Sized() && |kernel| == s.N();
    hide Inv, KernelFresh, StartIn, Due;
    forall i: nat | i < s.N()
      ensures StartIn(s, kernel, one).state[i] == StartIn(s, kernel, other).state[i]
    {
      StartAtOnce(s, kernel, one, i);
      StartAtOnce(s, kernel, other, i);
    }
  }

  // A start-up call adds forks to the log and nothing else; in particular it sends
  // no signal, not even one that the running programs have been sent before.
  lemma {:induction false} StartOnlyForks(s: Sup, kernel: seq<Grant>, order: seq<nat>)
    requires s.Sized() && |kernel| == s.N() && Positions(order, s.N())
    ensures var log := StartIn(s, kernel, order).log;
      s.log <= log && forall k | |s.log| <= k < |log| :: log[k].Forked?
  {
    hide NotifyAll, StartEach;
    TurnsOnlyFork(s.(state := NotifyAll(s.plan, s.state, order)), kernel, order);
  }

  lemma {:induction false} TurnsOnlyFork(s: Sup, kernel: seq<Grant>, order: seq<nat>)
    requires s.Sized() && |kernel| == s.N() && Positions(order, s.N())
    ensures var log := StartEach(s, kernel, order).log;
      s.log <= log && forall k | |s.log| <= k < |log| :: log[k].Forked?
  {
    if order != [] {
      TurnsOnlyFork(s, kernel, order[..|order| - 1]);
    }
  }

  // ------------------------------------------------------ names that are taken

  // Among the first `m` programs one that is READY in `s` has this name.
  predicate TakenBefore(s: Sup, m: nat, name: string)
    requires s.Sized()
  {
    exists j: nat :: j < m && j < s.N() && s.state[j] == READY && s.plan.names[j] == name
  }

  lemma {:induction false} TakenBeforeNext(s: Sup, m: nat, name: string)
    requires s.Sized() && m < s.N()
    ensures TakenBefore(s, m + 1, name) <==>
      TakenBefore(s, m, name) || (s.state[m] == READY && s.plan.names[m] == name)
  {
  }

  // The turns up to `m`: who is forked, with which grant, and which names are taken.
  lemma {:induction false} TurnsExactly(s: Sup, kernel: seq<Grant>, m: nat, i: nat, name: string)
    requires s.Sized() && |kernel| == s.N() && m <= s.N() && i < s.N()
    ensures var r := StartEach(s, kernel, ListOrder(s.N())[..m]);
      var name' := s.plan.names[i];
      var forked := i < m && s.state[i] == READY && name' !in s.loggers && !TakenBefore(s, i, name');
      && r.state[i] == (if forked then RUNNING else s.state[i])
      && r.grant[i] == (if forked then kernel[i] else s.grant[i])
      && (name in r.loggers <==> name in s.loggers || TakenBefore(s, m, name))
  {
    hide TakenBefore;
    if m == 0 {
      assert !TakenBefore(s, 0, name) by {
        NoneBefore(s, name);
      }
    } else {
      var order := ListOrder(s.N());
      StartNext(s, kernel, order, m - 1);
      TurnsExactly(s, kernel, m - 1, i, name);
      TurnsExactly(s, kernel, m - 1, m - 1, s.plan.names[m - 1]);
      TakenBeforeNext(s, m - 1, name);
      hide StartEach, StartOne;
      OneTurn(StartEach(s, kernel, order[..m - 1]), kernel, m - 1, i, name);
    }
  }

  lemma {:induction false} OneTurn(s: Sup, kernel: seq<Grant>, j: nat, i: nat, name: string)
    requires s.Sized() && |kernel| == s.N() && i < s.N() && j < s.N()
    ensures var r := StartOne(s, kernel, j);
      var forked := s.state[j] == READY && s.plan.names[j] !in s.loggers;
      && r.state[i] == (if forked && i == j then RUNNING else s.state[i])
      && r.grant[i] == (if forked && i == j then kernel[j] else s.grant[i])
      && (name in r.loggers <==> name in s.loggers || (forked && name == s.plan.names[j]))
  {
  }

  lemma NoneBefore(s: Sup, name: string)
    requires s.Sized()
    ensures !TakenBefore(s, 0, name)
  {
  }

  // The logger name of `i` is registered already, or a due program listed earlier
  // gets it first.
  predicate NameTaken(s: Sup, i: nat)
    requires s.Sized() && i < s.N()
  {
    || s.plan.names[i] in s.loggers
    || exists j: nat :: j < i && Due(s, j) && s.plan.names[j] == s.plan.names[i]
  }

  // All that a call does to one program, told from the state before the call.
  lemma {:induction false} StartExactly(s: Sup, kernel: seq<Grant>, i: nat)
    requires s.Sized() && s.plan.WellFormed() && |kernel| == s.N() && i < s.N()
    ensures var r := Start(s, kernel);
      && r.state[i] == (if !Due(s, i) then s.state[i] else if NameTaken(s, i) then READY else RUNNING)
      && r.grant[i] == (if Due(s, i) && !NameTaken(s, i) then kernel[i] else s.grant[i])
  {
    hide NotifyAll, StartEach, Released;
    var order := ListOrder(s.N());
    var mid := s.(state := NotifyAll(s.plan, s.state, order));
    NotifyAllAtOnce(s.plan, s.state, order);
    ListOrderCovers(s.N());
    OnlyBlockedDue(s);
    assert forall j: nat | j < s.N() :: mid.state[j] == READY <==> Due(s, j);
    assert TakenBefore(mid, i, s.plan.names[i]) <==>
      exists j: nat :: j < i && Due(s, j) && s.plan.names[j] == s.plan.names[i];
    TurnsExactly(mid, kernel, s.N(), i, s.plan.names[i]);
    assert order[..s.N()] == order;
  }

  lemma OnlyBlockedDue(s: Sup)
    requires s.Sized()
    ensures forall j: nat | j < s.N() && Released(s.plan, s.state, j) :: s.state[j] == BLOCKED
  {
  }

  // Which programs are left READY: the due ones whose name is taken.
  lemma {:induction false} LeftReadyExactly(s: Sup, kernel: seq<Grant>, i: nat)
    requires s.Sized() && s.plan.WellFormed() && |kernel| == s.N() && i < s.N()
    ensures Start(s, kernel).state[i] == READY <==>
      Due(s, i) && (s.plan.names[i] in s.loggers ||
        exists j: nat :: j < i && Due(s, j) && s.plan.names[j] == s.plan.names[i])
  {
    hide Start, Due;
    StartExactly(s, kernel, i);
    ReadyIsDue(s, i);
  }

  lemma ReadyIsDue(s: Sup, i: nat)
    requires s.Sized() && i < s.N()
    ensures s.state[i] == READY ==> Due(s, i)
  {
  }

  // Being left READY is being turned away, which no later step undoes.
  lemma {:induction false} LeftReadyForever(s: Sup, kernel: seq<Grant>, i: nat, steps: seq<Step>)
    requires Inv(s) && KernelFresh(s, kernel) && |kernel| == s.N() && i < s.N() && Due(s, i) && NameTaken(s, i)
    requires RunOk(Start(s, kernel), steps)
    ensures Run(Start(s, kernel), steps).Sized() && Run(Start(s, kernel), steps).state[i] == READY
  {
    hide Start, Due, NameTaken, Inv, KernelFresh, RunOk, Run;
    InvBasics(s);
    StartExactly(s, kernel, i);
    StartKeeps(s, kernel);
    LeftReadyTurnedAway(s, kernel, i);
    TurnedAwayForever(Start(s, kernel), steps, i);
  }

  lemma {:induction false} LeftReadyTurnedAway(s: Sup, kernel: seq<Grant>, i: nat)
    requires s.Sized() && s.plan.WellFormed() && |kernel| == s.N() && i < s.N()
    requires Due(s, i) && Start(s, kernel).state[i] == READY
    ensures TurnedAway(Start(s, kernel), i)
  {
    hide StartIn, Due;
    ListOrderCovers(s.N());
    StartMovesDue(s, kernel, ListOrder(s.N()), i);
  }
}
