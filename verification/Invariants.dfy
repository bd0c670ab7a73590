// What holds in every reachable state: all the redundant bookkeeping agrees, and
// the log is in order.  One lemma per operation and per part of the invariant.
module Invariants {
  import opened Lifecycle
  import opened Supervisor
  import opened History

  // -------------------------------------------------------------------- counting

  // The sum of a weight over all programs.
  function Total(weight: State -> int, state: seq<State>): int {
    if state == [] then 0
    else Total(weight, state[..|state| - 1]) + weight(state[|state| - 1])
  }

  lemma {:induction false} TotalUpdate(weight: State -> int, state: seq<State>, i: nat, x: State)
    requires i < |state|
    ensures Total(weight, state[i := x]) == Total(weight, state) - weight(state[i]) + weight(x)
  {
    var last := |state| - 1;
    if i < last {
      TotalUpdate(weight, state[..last], i, x);
      assert state[i := x][..last] == state[..last][i := x];
    } else {
      assert state[i := x][..last] == state[..last];
    }
  }

  function RunningWeight(x: State): int { if x == RUNNING then 1 else 0 }

  function StartedWeight(x: State): int { if Started(x) then 1 else 0 }

  // ------------------------------------------------------------------- invariant

  predicate NoBackoff(s: Sup)
    requires s.Sized()
  {
    forall i: nat | i < s.N() :: s.state[i] != BACKOFF && (s.state[i] == BLOCKED ==> s.plan.init[i] == BLOCKED)
  }

  // The running count, the pid map and the RUNNING states agree; each running
  // program is reachable under the pid its fork returned, and under no other.
  predicate PidsAgree(s: Sup)
    requires s.Sized()
  {
    && s.running == |s.idForPid|
    && s.running == Total(RunningWeight, s.state)
    && (forall i: nat | i < s.N() && s.state[i] == RUNNING ::
         s.grant[i].pid in s.idForPid && s.idForPid[s.grant[i].pid] == i)
    && (forall pid | pid in s.idForPid ::
         && s.idForPid[pid] < s.N()
         && s.state[s.idForPid[pid]] == RUNNING
         && s.grant[s.idForPid[pid]].pid == pid)
  }

  function Holds(s: Sup, fd: int, i: nat): nat {
    if fd in s.idForFd && s.idForFd[fd] == i then 1 else 0
  }

  // The descriptor maps and the epoll interest set agree.
  predicate FdMaps(s: Sup) {
    && s.fdType.Keys == s.idForFd.Keys
    && s.signalFd !in s.idForFd
    && s.interest == s.idForFd.Keys + {s.signalFd}
  }

  // Every open descriptor is a read end of the started program it is mapped to, and
  // of the kind that end has.
  predicate FdOwners(s: Sup)
    requires s.Sized()
  {
    forall fd | fd in s.idForFd ::
      var id := s.idForFd[fd];
      && id < s.N() && Started(s.state[id])
      && (fd == s.grant[id].out || fd == s.grant[id].err)
      && (fd in s.fdType ==> s.fdType[fd] == if fd == s.grant[id].out then STDOUT else STDERR)
  }

  // The count of a started program is the number of its two read ends still open.
  predicate FdCounts(s: Sup)
    requires s.Sized()
  {
    forall i: nat | i < s.N() && Started(s.state[i]) ::
      && s.grant[i].out != s.grant[i].err
      && i in s.numFdForId
      && s.numFdForId[i] == Holds(s, s.grant[i].out, i) + Holds(s, s.grant[i].err, i)
  }

  predicate FdsAgree(s: Sup)
    requires s.Sized()
  {
    FdMaps(s) && FdOwners(s) && FdCounts(s)
  }

  // A gated program that was released but not forked has been refused for its name.
  predicate NamesAgree(s: Sup)
    requires s.Sized()
  {
    && (forall i: nat | i < s.N() && s.state[i] == READY && Gated(s.plan, i) :: s.plan.names[i] in s.loggers)
    && LoggersAgree(s)
  }

  // The loggers are the main one and one for each started program.
  predicate LoggersAgree(s: Sup)
    requires s.Sized()
  {
    && MAIN_LOGGER in s.loggers
    && (forall i: nat | i < s.N() && Started(s.state[i]) ::
         s.plan.names[i] in s.loggers && s.plan.names[i] != MAIN_LOGGER)
    && (forall i: nat, j: nat | i < s.N() && j < s.N() && i != j && Started(s.state[i]) && Started(s.state[j]) ::
         s.plan.names[i] != s.plan.names[j])
    && (forall name | name in s.loggers && name != MAIN_LOGGER :: StartedUnder(s, name))
  }

  predicate StartedUnder(s: Sup, name: string)
    requires s.Sized()
  {
    exists i: nat :: i < s.N() && Started(s.state[i]) && s.plan.names[i] == name
  }

  ghost predicate LogAgrees(s: Sup)
    requires s.Sized()
  {
    && Legal(s.plan, s.log)
    && Holders(s.log) == s.idForPid
    && (forall i: nat | i < s.N() :: LastState(s.log, i) == if Started(s.state[i]) then Some(s.state[i]) else None)
    && Forks(s.log) == Total(StartedWeight, s.state)
    && Forks(s.log) - Exits(s.log) == s.running
  }

  ghost predicate Core(s: Sup) {
    && s.Sized() && s.plan.WellFormed()
    && NoBackoff(s) && PidsAgree(s) && FdsAgree(s) && LogAgrees(s)
  }

  ghost predicate Inv(s: Sup) {
    Core(s) && NamesAgree(s)
  }

  lemma {:induction false} TotalZero(weight: State -> int, state: seq<State>)
    requires forall i | 0 <= i < |state| :: weight(state[i]) == 0
    ensures Total(weight, state) == 0
  {
    if state != [] {
      TotalZero(weight, state[..|state| - 1]);
    }
  }

  lemma {:induction false} InitialInv(plan: Plan, signalFd: int)
    requires plan.WellFormed()
    ensures Inv(Initial(plan, signalFd))
  {
    TotalZero(RunningWeight, plan.init);
    TotalZero(StartedWeight, plan.init);
  }

  // --------------------------------------------------------------- start_programs

  predicate Apart(g: Grant, h: Grant) {
    && g.pid != h.pid
    && g.out != h.out && g.out != h.err && g.err != h.out && g.err != h.err
  }

  // What fork() and pipe() return in the parent is not in use, and not handed out twice.
  predicate KernelFresh(s: Sup, kernel: seq<Grant>) {
    && s.Sized() && |kernel| == s.N()
    && (forall i: nat | i < s.N() && !Started(s.state[i]) ::
         && kernel[i].pid > 0 && kernel[i].out >= 0 && kernel[i].err >= 0
         && kernel[i].pid !in s.idForPid && kernel[i].out != kernel[i].err
         && kernel[i].out !in s.interest && kernel[i].err !in s.interest)
    && (forall i: nat, j: nat | i < s.N() && j < s.N() && i != j && !Started(s.state[i]) && !Started(s.state[j]) ::
         Apart(kernel[i], kernel[j]))
  }

  // Between the two loops: whoever is about to be forked after having been gated
  // has all its conditions met.
  predicate Primed(s: Sup)
    requires s.Sized()
  {
    forall i: nat | i < s.N() && s.state[i] == READY && Gated(s.plan, i) && s.plan.names[i] !in s.loggers ::
      forall c | c in s.plan.conditions[i] :: Met(s.state, c)
  }

  // The states differ only in programs that became READY.
  predicate OnlyReleases(before: seq<State>, after: seq<State>) {
    && |after| == |before|
    && forall i: nat | i < |before| :: after[i] == before[i] || (before[i] == BLOCKED && after[i] == READY)
  }

  lemma {:induction false} TotalSame(weight: State -> int, before: seq<State>, after: seq<State>)
    requires |after| == |before| && forall i | 0 <= i < |before| :: weight(after[i]) == weight(before[i])
    ensures Total(weight, after) == Total(weight, before)
  {
    if before != [] {
      TotalSame(weight, before[..|before| - 1], after[..|before| - 1]);
    }
  }

  lemma {:induction false} ReleasesKeepLog(s: Sup, after: seq<State>)
    requires s.Sized() && LogAgrees(s) && OnlyReleases(s.state, after)
    ensures LogAgrees(s.(state := after))
  {
    hide Legal, Holders, LastState, Forks, Exits, Total;
    TotalSame(StartedWeight, s.state, after);
  }

  lemma {:induction false} ReleasesKeepFds(s: Sup, after: seq<State>)
    requires s.Sized() && FdsAgree(s) && OnlyReleases(s.state, after)
    ensures FdsAgree(s.(state := after))
  {
    var r := s.(state := after);
    assert forall fd, j: nat :: Holds(r, fd, j) == Holds(s, fd, j);
  }

  lemma {:induction false} ReleasesKeepCore(s: Sup, after: seq<State>)
    requires Core(s) && OnlyReleases(s.state, after)
    ensures Core(s.(state := after))
  {
    hide LogAgrees, Total, FdMaps;
    TotalSame(RunningWeight, s.state, after);
    ReleasesKeepLog(s, after);
    ReleasesKeepFds(s, after);
  }

  lemma {:induction false} MetUnaffected(plan: Plan, before: seq<State>, after: seq<State>, i: nat)
    requires plan.WellFormed() && OnlyReleases(before, after) && i < |before| == |plan.conditions|
    ensures forall c | c in plan.conditions[i] :: Met(after, c) <==> Met(before, c)
  {
  }

  // The in-place loop releases exactly the programs whose conditions held before it
  // began: what earlier turns changed is never awaited.
  lemma {:induction false} NotifyAllAtOnce(plan: Plan, state: seq<State>, order: seq<nat>)
    requires plan.WellFormed() && |state| == |plan.conditions| && Positions(order, |state|)
    ensures OnlyReleases(state, NotifyAll(plan, state, order))
    ensures forall i: nat | i < |state| ::
      NotifyAll(plan, state, order)[i] == if i in order && Released(plan, state, i) then READY else state[i]
  {
    if order != [] {
      var init, last := order[..|order| - 1], order[|order| - 1];
      assert order == init + [last];
      NotifyAllAtOnce(plan, state, init);
      MetUnaffected(plan, state, NotifyAll(plan, state, init), last);
    }
  }

  lemma {:induction false} ReleasesKeepLoggers(s: Sup, after: seq<State>)
    requires s.Sized() && LoggersAgree(s) && OnlyReleases(s.state, after)
    ensures LoggersAgree(s.(state := after))
  {
    SameStartedKeepsLoggers(s, s.(state := after));
  }

  lemma {:induction false} SameStartedKeepsLoggers(s: Sup, r: Sup)
    requires s.Sized() && r.Sized() && LoggersAgree(s) && r.plan == s.plan && r.loggers == s.loggers
    requires forall i: nat | i < s.N() :: Started(r.state[i]) == Started(s.state[i])
    ensures LoggersAgree(r)
  {
    forall name | name in r.loggers && name != MAIN_LOGGER
      ensures StartedUnder(r, name)
    {
      assert StartedUnder(s, name);
      var j: nat :| j < s.N() && Started(s.state[j]) && s.plan.names[j] == name;
      assert Started(r.state[j]);
    }
  }

  // With distinct names every unstarted program can still get its logger.
  lemma {:induction false} NameIsFree(s: Sup, i: nat)
    requires s.Sized() && LoggersAgree(s) && s.plan.DistinctNames()
    requires i < s.N() && !Started(s.state[i])
    ensures s.plan.names[i] !in s.loggers
  {
    assert s.plan.names[i] != MAIN_LOGGER;
  }

  lemma {:induction false} NotifyPrimes(s: Sup, order: seq<nat>)
    requires Inv(s) && Positions(order, s.N())
    ensures Core(s.(state := NotifyAll(s.plan, s.state, order)))
    ensures LoggersAgree(s.(state := NotifyAll(s.plan, s.state, order)))
    ensures Primed(s.(state := NotifyAll(s.plan, s.state, order)))
  {
    hide Core, NotifyAll;
    assert Core(s);
    assert s.Sized() && s.plan.WellFormed() by {
      CoreBasics(s);
    }
    var after := NotifyAll(s.plan, s.state, order);
    NotifyAllAtOnce(s.plan, s.state, order);
    ReleasesKeepCore(s, after);
    ReleasesKeepLoggers(s, after);
    hide LoggersAgree;
    forall i: nat | i < s.N() && after[i] == READY && Gated(s.plan, i) && s.plan.names[i] !in s.loggers
      ensures forall c | c in s.plan.conditions[i] :: Met(after, c)
    {
      MetUnaffected(s.plan, s.state, after, i);
    }
  }

  lemma CoreBasics(s: Sup)
    requires Core(s)
    ensures s.Sized() && s.plan.WellFormed()
  {
  }

  lemma InvBasics(s: Sup)
    requires Inv(s)
    ensures s.Sized() && s.plan.WellFormed()
  {
  }

  lemma KernelSize(s: Sup, kernel: seq<Grant>)
    requires KernelFresh(s, kernel)
    ensures s.Sized() && |kernel| == s.N()
  {
  }

  // The second loop, one program that does get forked.
  predicate Forkable(s: Sup, kernel: seq<Grant>, i: nat)
    requires s.Sized()
  {
    && KernelFresh(s, kernel) && i < s.N()
    && s.state[i] == READY && s.plan.names[i] !in s.loggers
  }

  lemma {:induction false} ForkKeepsPids(s: Sup, kernel: seq<Grant>, i: nat)
    requires s.Sized() && Forkable(s, kernel, i) && PidsAgree(s)
    ensures PidsAgree(StartOne(s, kernel, i))
  {
    hide Total;
    TotalUpdate(RunningWeight, s.state, i, RUNNING);
  }

  lemma {:induction false} ForkKeepsFdMaps(s: Sup, kernel: seq<Grant>, i: nat)
    requires s.Sized() && Forkable(s, kernel, i) && FdMaps(s)
    ensures FdMaps(StartOne(s, kernel, i))
  {
    var g := kernel[i];
    assert g.out !in s.interest && g.err !in s.interest;
  }

  lemma {:induction false} ForkKeepsFdOwners(s: Sup, kernel: seq<Grant>, i: nat)
    requires s.Sized() && Forkable(s, kernel, i) && FdOwners(s)
    ensures FdOwners(StartOne(s, kernel, i))
  {
    var r := StartOne(s, kernel, i);
    forall fd | fd in r.idForFd
      ensures var id := r.idForFd[fd];
        id < r.N() && Started(r.state[id]) && (fd == r.grant[id].out || fd == r.grant[id].err)
    {
      assert fd == kernel[i].out || fd == kernel[i].err || (fd in s.idForFd && r.idForFd[fd] == s.idForFd[fd]);
    }
  }

  lemma {:induction false} ForkKeepsFdCounts(s: Sup, kernel: seq<Grant>, i: nat)
    requires s.Sized() && Forkable(s, kernel, i) && FdMaps(s) && FdCounts(s)
    ensures FdCounts(StartOne(s, kernel, i))
  {
    var r := StartOne(s, kernel, i);
    var g := kernel[i];
    assert g.out != g.err && g.out !in s.interest && g.err !in s.interest;
    assert g.out !in s.idForFd && g.err !in s.idForFd;
    forall j: nat | j < r.N() && Started(r.state[j])
      ensures r.grant[j].out != r.grant[j].err && j in r.numFdForId
      ensures r.numFdForId[j] == Holds(r, r.grant[j].out, j) + Holds(r, r.grant[j].err, j)
    {
      if j != i {
        assert Started(s.state[j]) && r.grant[j] == s.grant[j];
        HoldsUnaffected(s, r, g, i, r.grant[j].out, j);
        HoldsUnaffected(s, r, g, i, r.grant[j].err, j);
      }
    }
  }

  lemma {:induction false} HoldsUnaffected(s: Sup, r: Sup, g: Grant, i: nat, fd: int, j: nat)
    requires r.idForFd == s.idForFd[g.out := i][g.err := i] && i != j
    requires g.out !in s.idForFd && g.err !in s.idForFd
    ensures Holds(r, fd, j) == Holds(s, fd, j)
  {
  }

  lemma {:induction false} ForkKeepsFds(s: Sup, kernel: seq<Grant>, i: nat)
    requires s.Sized() && Forkable(s, kernel, i) && FdsAgree(s)
    ensures FdsAgree(StartOne(s, kernel, i))
  {
    hide Forkable, FdMaps, FdOwners, FdCounts, StartOne;
    ForkKeepsFdMaps(s, kernel, i);
    ForkKeepsFdOwners(s, kernel, i);
    ForkKeepsFdCounts(s, kernel, i);
  }

  // The new entry is in order: the program was not forked before, its pid is free,
  // and its conditions show in the log.
  lemma {:induction false} ForkIsJustified(s: Sup, i: nat, pid: int)
    requires s.Sized() && s.plan.WellFormed() && LogAgrees(s)
    requires i < s.N() && s.state[i] == READY && pid !in s.idForPid
    requires Gated(s.plan, i) ==> forall c | c in s.plan.conditions[i] :: Met(s.state, c)
    ensures Justified(s.plan, s.log, Forked(i, pid))
  {
    hide Legal, Holders, LastState, Forks, Exits, Total;
  }

  lemma {:induction false} ForkKeepsLog(s: Sup, kernel: seq<Grant>, i: nat)
    requires s.Sized() && s.plan.WellFormed() && LogAgrees(s)
    requires Forkable(s, kernel, i) && Primed(s)
    ensures LogAgrees(StartOne(s, kernel, i))
  {
    hide Total, Justified;
    var e := Forked(i, kernel[i].pid);
    Appended(s.log, e);
    ForkIsJustified(s, i, kernel[i].pid);
    TotalUpdate(StartedWeight, s.state, i, RUNNING);
    var r := StartOne(s, kernel, i);
    assert r.log == s.log + [e];
    forall j: nat | j < s.N()
      ensures LastState(r.log, j) == if Started(r.state[j]) then Some(r.state[j]) else None
    {
      assert LastState(r.log, j) == if j == i then Some(RUNNING) else LastState(s.log, j);
    }
  }

  lemma {:induction false} ForkKeepsLoggers(s: Sup, kernel: seq<Grant>, i: nat)
    requires s.Sized() && Forkable(s, kernel, i) && LoggersAgree(s)
    ensures LoggersAgree(StartOne(s, kernel, i))
  {
    var r := StartOne(s, kernel, i);
    forall name | name in r.loggers && name != MAIN_LOGGER
      ensures StartedUnder(r, name)
    {
      if name == s.plan.names[i] {
        assert Started(r.state[i]);
      } else {
        assert StartedUnder(s, name);
        var j: nat :| j < s.N() && Started(s.state[j]) && s.plan.names[j] == name;
        assert Started(r.state[j]);
      }
    }
  }

  lemma {:induction false} ForkKeepsRest(s: Sup, kernel: seq<Grant>, i: nat)
    requires s.Sized() && Forkable(s, kernel, i) && NoBackoff(s)
    ensures NoBackoff(StartOne(s, kernel, i))
    ensures KernelFresh(StartOne(s, kernel, i), kernel)
  {
  }

  lemma {:induction false} ForkKeepsPrimed(s: Sup, kernel: seq<Grant>, i: nat)
    requires s.Sized() && s.plan.WellFormed() && Forkable(s, kernel, i) && Primed(s)
    ensures Primed(StartOne(s, kernel, i))
  {
    var r := StartOne(s, kernel, i);
    forall j: nat | j < r.N() && r.state[j] == READY && Gated(r.plan, j) && r.plan.names[j] !in r.loggers
      ensures forall c | c in r.plan.conditions[j] :: Met(r.state, c)
    {
      forall c | c in r.plan.conditions[j]
        ensures Met(r.state, c)
      {
        assert Met(s.state, c);
      }
    }
  }

  lemma {:induction false} StartOneKeeps(s: Sup, kernel: seq<Grant>, i: nat)
    requires Core(s) && LoggersAgree(s) && Primed(s) && KernelFresh(s, kernel) && i < s.N()
    ensures var r := StartOne(s, kernel, i);
      Core(r) && LoggersAgree(r) && Primed(r) && KernelFresh(r, kernel)
  {
    hide PidsAgree, FdsAgree, LogAgrees, NoBackoff, LoggersAgree, Primed, KernelFresh;
    if s.state[i] == READY && s.plan.names[i] !in s.loggers {
      assert Forkable(s, kernel, i);
      ForkKeepsPids(s, kernel, i);
      ForkKeepsFds(s, kernel, i);
      ForkKeepsLog(s, kernel, i);
      ForkKeepsRest(s, kernel, i);
      ForkKeepsLoggers(s, kernel, i);
      ForkKeepsPrimed(s, kernel, i);
    }
  }

  // A program that the second loop leaves READY was refused for its name.
  predicate Refused(s: Sup, i: nat)
    requires s.Sized() && i < s.N()
  {
    s.state[i] == READY ==> s.plan.names[i] in s.loggers
  }

  lemma {:induction false} StartOneRefuses(s: Sup, kernel: seq<Grant>, i: nat, j: nat)
    requires s.Sized() && |kernel| == s.N() && i < s.N() && j < s.N()
    requires j == i || Refused(s, j)
    ensures Refused(StartOne(s, kernel, i), j)
  {
  }

  lemma {:induction false} StartEachRefuses(s: Sup, kernel: seq<Grant>, order: seq<nat>, k: nat)
    requires s.Sized() && |kernel| == s.N() && Positions(order, s.N()) && k < |order|
    ensures Refused(StartEach(s, kernel, order), order[k])
  {
    hide StartOne, Refused;
    var init, last := order[..|order| - 1], order[|order| - 1];
    if k < |order| - 1 {
      StartEachRefuses(s, kernel, init, k);
    }
    StartOneRefuses(StartEach(s, kernel, init), kernel, last, order[k]);
  }

  lemma {:induction false} StartEachKeeps(s: Sup, kernel: seq<Grant>, order: seq<nat>)
    requires Core(s) && LoggersAgree(s) && Primed(s) && KernelFresh(s, kernel) && Positions(order, s.N())
    ensures var r := StartEach(s, kernel, order);
      Core(r) && LoggersAgree(r) && Primed(r) && KernelFresh(r, kernel)
  {
    assert |kernel| == s.N();
    hide Core, LoggersAgree, Primed, KernelFresh, StartOne;
    CoreBasics(s);
    if order != [] {
      var init, last := order[..|order| - 1], order[|order| - 1];
      StartEachKeeps(s, kernel, init);
      StartOneKeeps(StartEach(s, kernel, init), kernel, last);
    }
  }

  lemma {:induction false} StartEachStates(s: Sup, kernel: seq<Grant>, order: seq<nat>)
    requires s.Sized() && |kernel| == s.N() && Positions(order, s.N())
    ensures var r := StartEach(s, kernel, order);
      forall i | 0 <= i < s.N() :: r.state[i] == s.state[i] || (s.state[i] == READY && r.state[i] == RUNNING)
  {
    if order != [] {
      StartEachStates(s, kernel, order[..|order| - 1]);
    }
  }

  predicate Covers(order: seq<nat>, n: nat) {
    Positions(order, n) && forall i: nat | i < n :: i in order
  }

  lemma {:induction false} ListOrderCovers(n: nat)
    ensures Covers(ListOrder(n), n)
  {
    forall i: nat | i < n
      ensures i in ListOrder(n)
    {
      assert ListOrder(n)[i] == i;
    }
  }

  // Nobody is left READY except those whose logger name was taken.
  lemma {:induction false} AllRefused(s: Sup, kernel: seq<Grant>, order: seq<nat>, i: nat)
    requires s.Sized() && |kernel| == s.N() && Covers(order, s.N()) && i < s.N()
    ensures Refused(StartEach(s, kernel, order), i)
  {
    hide StartEach, Refused;
    assert i in order;
    var k :| 0 <= k < |order| && order[k] == i;
    StartEachRefuses(s, kernel, order, k);
  }

  // start_programs keeps every agreement.
  lemma {:induction false} StartInKeeps(s: Sup, kernel: seq<Grant>, order: seq<nat>)
    requires Inv(s) && KernelFresh(s, kernel) && Covers(order, s.N())
    ensures Inv(StartIn(s, kernel, order))
    ensures forall i: nat | i < s.N() :: Refused(StartIn(s, kernel, order), i)
  {
    assert |kernel| == s.N();
    hide NotifyAll, StartEach, Core, LoggersAgree, Primed, KernelFresh, Released;
    CoreBasics(s);
    NotifyPrimes(s, order);
    var released := s.(state := NotifyAll(s.plan, s.state, order));
    NotifyAllAtOnce(s.plan, s.state, order);
    ReleasedStaysFresh(s, kernel, released.state);
    StartEachKeeps(released, kernel, order);
    var r := StartIn(s, kernel, order);
    forall i: nat | i < s.N()
      ensures Refused(r, i)
      ensures r.state[i] == READY ==> r.plan.names[i] in r.loggers
    {
      AllRefused(released, kernel, order, i);
    }
  }

  lemma {:induction false} StartKeeps(s: Sup, kernel: seq<Grant>)
    requires Inv(s) && KernelFresh(s, kernel)
    ensures Inv(Start(s, kernel))
    ensures forall i: nat | i < s.N() :: Refused(Start(s, kernel), i)
  {
    hide StartIn, Inv, KernelFresh;
    ListOrderCovers(s.N());
    StartInKeeps(s, kernel, ListOrder(s.N()));
  }

  lemma ReleasedStaysFresh(s: Sup, kernel: seq<Grant>, after: seq<State>)
    requires KernelFresh(s, kernel) && OnlyReleases(s.state, after)
    ensures KernelFresh(s.(state := after), kernel)
  {
  }
}
