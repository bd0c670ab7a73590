// Start-up gets everywhere it can: if no program waits for itself through others
// and started programs reach what is awaited of them in time, all get forked.
module Liveness {
  import opened Lifecycle
  import opened Collections
  import opened Supervisor
  import opened History
  import opened Invariants
  import opened Runs
  import opened StartUp
  import opened EventLoop
  import opened Quiescence

  // `i` was gated and has a condition on `j`.
  ghost predicate Needs(plan: Plan, i: nat, j: nat) {
    Gated(plan, i) && i < |plan.conditions| && exists c :: c in plan.conditions[i] && c.id == j
  }

  // Every started program that somebody waits for is in the awaited state.  With two
  // different awaited states for one program this could never be.
  ghost predicate Cooperative(s: Sup) {
    s.Sized() && forall i: nat, c: Condition |
      i < s.N() && Gated(s.plan, i) && c in s.plan.conditions[i] && c.id < s.N() && Started(s.state[c.id]) ::
      s.state[c.id] == c.awaited
  }

  // A start_programs call and whatever happens, further such calls included, until the
  // started programs have reached their awaited states.  The event loop makes two calls
  // without looking at the children in between, so one turn of it need not be a round.
  ghost predicate RoundOk(s: Sup, round: seq<Step>) {
    round != [] && round[0].StartStep? && RunOk(s, round) && Cooperative(Run(s, round))
  }

  ghost predicate RoundsOk(s: Sup, rounds: seq<seq<Step>>)
    decreases |rounds|
  {
    rounds == [] || (RoundOk(s, rounds[0]) && RoundsOk(Run(s, rounds[0]), rounds[1..]))
  }

  ghost function RunRounds(s: Sup, rounds: seq<seq<Step>>): (r: Sup)
    requires RoundsOk(s, rounds)
    ensures r.plan == s.plan && (s.Sized() ==> r.Sized())
    decreases |rounds|
  {
    if rounds == [] then s else RunRounds(Run(s, rounds[0]), rounds[1..])
  }

  // ------------------------------------------------------------------- one round

  lemma {:induction false} AfterRound(s: Sup, round: seq<Step>)
    requires Inv(s) && RoundOk(s, round)
    ensures Inv(Run(s, round)) && Rises(s.state, Run(s, round).state)
    ensures KernelFresh(s, round[0].kernel) && |round[0].kernel| == s.N()
    ensures Rises(Start(s, round[0].kernel).state, Run(s, round).state)
  {
    hide Inv, Start, KernelFresh, Rises, Cooperative;
    RunKeeps(s, round);
    RunRises(s, round);
    var started := Next(s, round[0]);
    NextKeeps(s, round[0]);
    RunRises(started, round[1..]);
    KernelSize(s, round[0].kernel);
  }

  lemma RoundEndsCooperative(s: Sup, round: seq<Step>)
    requires RoundOk(s, round)
    ensures round != [] && round[0].StartStep? && RunOk(s, round) && Cooperative(Run(s, round))
  {
  }

  lemma {:induction false} DueGetsStarted(s: Sup, round: seq<Step>, i: nat)
    requires Inv(s) && s.plan.DistinctNames() && RoundOk(s, round) && i < s.N()
    requires Started(s.state[i]) || Due(s, i)
    ensures Run(s, round).Sized() && Started(Run(s, round).state[i])
  {
    hide Inv, RoundOk, KernelFresh, Due, Run;
    RoundEndsCooperative(s, round);
    AfterRound(s, round);
    InvBasics(s);
    var kernel := round[0].kernel;
    if Due(s, i) {
      hide StartIn;
      ListOrderCovers(s.N());
      StartAtOnce(s, kernel, ListOrder(s.N()), i);
      assert Start(s, kernel).state[i] == RUNNING;
    }
  }

  // Once everything a program waits for has started, it is due.
  lemma {:induction false} DepsStartedMeansDue(s: Sup, i: nat)
    requires Inv(s) && Cooperative(s) && i < s.N() && !Started(s.state[i])
    requires forall j: nat | Needs(s.plan, i, j) && j < s.N() :: Started(s.state[j])
    ensures Due(s, i)
  {
    hide PidsAgree, FdsAgree, LogAgrees, NamesAgree, Needs;
    if s.state[i] == BLOCKED {
      assert Gated(s.plan, i);
      forall c | c in s.plan.conditions[i]
        ensures Met(s.state, c)
      {
        NeedsFrom(s.plan, i, c);
      }
    }
  }

  lemma NeedsFrom(plan: Plan, i: nat, c: Condition)
    requires plan.WellFormed() && Gated(plan, i) && c in plan.conditions[i]
    ensures Needs(plan, i, c.id) && c.id < |plan.names|
  {
  }

  // --------------------------------------------------------------- depth by depth

  // Every wait leads to a lower level.
  ghost predicate Levelled(plan: Plan, level: seq<nat>) {
    |level| == |plan.names| &&
    forall i: nat, j: nat | i < |level| && j < |level| && Needs(plan, i, j) :: level[j] < level[i]
  }

  ghost predicate StartedBelow(s: Sup, level: seq<nat>, k: nat) {
    s.Sized() && |level| == s.N() &&
    forall i: nat | i < s.N() && level[i] < k :: Started(s.state[i])
  }

  lemma {:induction false} RoundRaisesLevel(s: Sup, level: seq<nat>, k: nat, round: seq<Step>)
    requires Inv(s) && s.plan.DistinctNames() && Cooperative(s) && RoundOk(s, round)
    requires Levelled(s.plan, level) && StartedBelow(s, level, k)
    ensures StartedBelow(Run(s, round), level, k + 1)
  {
    hide Inv, RoundOk, Run, Cooperative, Needs;
    RoundEndsCooperative(s, round);
    InvBasics(s);
    forall i: nat | i < s.N() && level[i] < k + 1
      ensures Run(s, round).Sized() && Started(Run(s, round).state[i])
    {
      if !Started(s.state[i]) {
        DepsStartedMeansDue(s, i);
      }
      DueGetsStarted(s, round, i);
    }
    AfterRound(s, round);
    InvBasics(Run(s, round));
  }

  // After k rounds every program of level below k has been forked: a program of
  // dependency depth k within k + 1 rounds.
  lemma {:induction false} StartedByDepth(s: Sup, level: seq<nat>, k: nat, rounds: seq<seq<Step>>)
    requires Inv(s) && s.plan.DistinctNames() && Cooperative(s) && RoundsOk(s, rounds)
    requires Levelled(s.plan, level) && StartedBelow(s, level, k)
    ensures StartedBelow(RunRounds(s, rounds), level, k + |rounds|)
    decreases |rounds|
  {
    hide Inv, Run, Levelled, StartedBelow, Cooperative;
    if rounds != [] {
      RoundRaisesLevel(s, level, k, rounds[0]);
      hide RoundOk;
      AfterRound(s, rounds[0]);
      RoundEndsCooperative(s, rounds[0]);
      StartedByDepth(Run(s, rounds[0]), level, k + 1, rounds[1..]);
    }
  }

  lemma InitiallyCooperative(plan: Plan, signalFd: int)
    requires plan.WellFormed()
    ensures Cooperative(Initial(plan, signalFd))
  {
  }

  // From the start: a program of dependency depth k is forked within k + 1 rounds.
  lemma {:induction false} StartedWithinDepth(plan: Plan, signalFd: int, level: seq<nat>,
                                              rounds: seq<seq<Step>>, i: nat)
    requires plan.WellFormed() && plan.DistinctNames() && Levelled(plan, level)
    requires RoundsOk(Initial(plan, signalFd), rounds)
    requires i < |level| && level[i] < |rounds|
    ensures i < |plan.names| && Started(RunRounds(Initial(plan, signalFd), rounds).state[i])
  {
    hide Inv, RoundsOk, RunRounds, Needs;
    InitialInv(plan, signalFd);
    InitiallyCooperative(plan, signalFd);
    StartedByDepth(Initial(plan, signalFd), level, 0, rounds);
  }

  // ------------------------------------------------------------ everything, in time

  // A walk along the waits that ends where it began.
  ghost predicate Walk(plan: Plan, path: seq<nat>) {
    forall k | 0 <= k < |path| - 1 :: Needs(plan, path[k], path[k + 1])
  }

  ghost predicate Acyclic(plan: Plan) {
    forall path: seq<nat> | Walk(plan, path) && |path| >= 2 :: path[0] != path[|path| - 1]
  }

  // Nobody unstarted is due: then each waits for another unstarted one.
  ghost predicate Starved(s: Sup) {
    s.Sized() && forall i: nat | i < s.N() && !Started(s.state[i]) :: NeedsUnstarted(s, i)
  }

  ghost predicate NeedsUnstarted(s: Sup, i: nat) {
    s.Sized() && exists j: nat :: j < s.N() && Needs(s.plan, i, j) && !Started(s.state[j])
  }

  lemma {:induction false} WalkOn(plan: Plan, path: seq<nat>, k: nat, j: nat)
    requires k < |path| && Walk(plan, path) && Needs(plan, path[|path| - 1], j)
    ensures Walk(plan, path[k..] + [j])
  {
    hide Needs;
    var longer := path[k..] + [j];
    forall m | 0 <= m < |longer| - 1
      ensures Needs(plan, longer[m], longer[m + 1])
    {
      if m < |longer| - 2 {
        assert longer[m] == path[k + m] && longer[m + 1] == path[k + m + 1];
      } else {
        assert longer[m] == path[|path| - 1] && longer[m + 1] == j;
      }
    }
  }

  lemma {:induction false} StarvedMeansCycle(s: Sup, path: seq<nat>)
    requires Starved(s) && Acyclic(s.plan) && Walk(s.plan, path) && NoRepeats(path) && path != []
    requires forall k | 0 <= k < |path| :: path[k] < s.N()
    requires !Started(s.state[path[|path| - 1]])
    ensures false
    decreases s.N() - |path|
  {
    hide Needs, Acyclic, Walk, Starved, Started, NoRepeats;
    var last := path[|path| - 1];
    var j := NextStarved(s, last);
    if j in path {
      var k :| 0 <= k < |path| && path[k] == j;
      WalkOn(s.plan, path, k, j);
      NoCycle(s.plan, path[k..] + [j]);
    } else {
      WalkOn(s.plan, path, 0, j);
      assert path[0..] == path;
      LongerNoRepeats(path, j);
      NoRepeatsBound(path + [j], s.N());
      StarvedMeansCycle(s, path + [j]);
    }
  }

  lemma {:induction false} NextStarved(s: Sup, i: nat) returns (j: nat)
    requires Starved(s) && i < s.N() && !Started(s.state[i])
    ensures j < s.N() && Needs(s.plan, i, j) && !Started(s.state[j])
  {
    hide Needs, Started;
    assert NeedsUnstarted(s, i);
    j :| j < s.N() && Needs(s.plan, i, j) && !Started(s.state[j]);
  }

  lemma NoCycle(plan: Plan, cycle: seq<nat>)
    requires Acyclic(plan) && Walk(plan, cycle) && |cycle| >= 2
    ensures cycle[0] != cycle[|cycle| - 1]
  {
  }

  // Without cycles somebody is always due until all have started.
  lemma {:induction false} SomebodyIsDue(s: Sup, i: nat) returns (d: nat)
    requires Inv(s) && Cooperative(s) && Acyclic(s.plan) && i < s.N() && !Started(s.state[i])
    ensures s.Sized() && d < s.N() && !Started(s.state[d]) && Due(s, d)
  {
    hide Inv, Cooperative, Acyclic, Due, Needs;
    InvBasics(s);
    if d': nat :| d' < s.N() && !Started(s.state[d']) && Due(s, d') {
      d := d';
    } else {
      d := i;
      forall k: nat | k < s.N() && !Started(s.state[k])
        ensures NeedsUnstarted(s, k)
      {
        if !NeedsUnstarted(s, k) {
          DepsStartedMeansDue(s, k);
          assert false;
        }
      }
      StarvedMeansCycle(s, [i]);
    }
  }

  lemma {:induction false} StartedGrows(before: seq<State>, after: seq<State>)
    requires Rises(before, after)
    ensures Total(StartedWeight, before) <= Total(StartedWeight, after)
    ensures (exists d :: 0 <= d < |before| && !Started(before[d]) && Started(after[d])) ==>
      Total(StartedWeight, before) < Total(StartedWeight, after)
  {
    if before != [] {
      var last := |before| - 1;
      StartedGrows(before[..last], after[..last]);
      if d :| 0 <= d < last && !Started(before[d]) && Started(after[d]) {
        assert !Started(before[..last][d]) && Started(after[..last][d]);
      }
    }
  }

  lemma {:induction false} AllStarted(state: seq<State>)
    requires Total(StartedWeight, state) >= |state|
    ensures forall i | 0 <= i < |state| :: Started(state[i])
    ensures Total(StartedWeight, state) == |state|
  {
    if state != [] {
      StartedAtMost(state[..|state| - 1]);
      AllStarted(state[..|state| - 1]);
      assert state == state[..|state| - 1] + [state[|state| - 1]];
    }
  }

  lemma {:induction false} StartedAtMost(state: seq<State>)
    ensures 0 <= Total(StartedWeight, state) <= |state|
    ensures (forall i | 0 <= i < |state| :: Started(state[i])) ==> Total(StartedWeight, state) == |state|
  {
    if state != [] {
      StartedAtMost(state[..|state| - 1]);
    }
  }

  // One round forks at least one more program, or all have been forked.
  lemma {:induction false} RoundStartsOne(s: Sup, round: seq<Step>)
    requires Inv(s) && s.plan.DistinctNames() && Cooperative(s) && Acyclic(s.plan) && RoundOk(s, round)
    ensures var before, after := Total(StartedWeight, s.state), Total(StartedWeight, Run(s, round).state);
      before < after || before == after == s.N()
  {
    hide Inv, Cooperative, Acyclic, RoundOk, Run, Total, Due;
    RoundEndsCooperative(s, round);
    InvBasics(s);
    AfterRound(s, round);
    InvBasics(Run(s, round));
    StartedGrows(s.state, Run(s, round).state);
    if i: nat :| i < s.N() && !Started(s.state[i]) {
      var d := SomebodyIsDue(s, i);
      DueGetsStarted(s, round, d);
    } else {
      StartedAtMost(s.state);
      StartedAtMost(Run(s, round).state);
    }
  }

  lemma {:induction false} RoundsStartMany(s: Sup, rounds: seq<seq<Step>>)
    requires Inv(s) && s.plan.DistinctNames() && Cooperative(s) && Acyclic(s.plan) && RoundsOk(s, rounds)
    ensures var after := Total(StartedWeight, RunRounds(s, rounds).state);
      after == s.N() || after >= Total(StartedWeight, s.state) + |rounds|
    ensures Inv(RunRounds(s, rounds))
    decreases |rounds|
  {
    hide Inv, Cooperative, Acyclic, RoundOk, Run, Total;
    if rounds != [] {
      RoundStartsOne(s, rounds[0]);
      RoundEndsCooperative(s, rounds[0]);
      AfterRound(s, rounds[0]);
      RoundsStartMany(Run(s, rounds[0]), rounds[1..]);
      if Total(StartedWeight, s.state) == s.N() {
        FullStays(s, rounds);
      }
    }
  }

  lemma {:induction false} FullStays(s: Sup, rounds: seq<seq<Step>>)
    requires Inv(s) && RoundsOk(s, rounds) && Total(StartedWeight, s.state) == s.N()
    ensures Total(StartedWeight, RunRounds(s, rounds).state) == s.N()
    decreases |rounds|
  {
    hide Inv, RoundOk, Run, Total;
    if rounds != [] {
      RoundEndsCooperative(s, rounds[0]);
      var r := Run(s, rounds[0]);
      AfterRound(s, rounds[0]);
      InvBasics(s);
      StartedGrows(s.state, r.state);
      InvBasics(r);
      StartedAtMost(r.state);
      FullStays(r, rounds[1..]);
    }
  }

  // n programs without a cycle of waits: n rounds fork them all.
  lemma {:induction false} AllGetStarted(plan: Plan, signalFd: int, rounds: seq<seq<Step>>)
    requires plan.WellFormed() && plan.DistinctNames() && Acyclic(plan)
    requires RoundsOk(Initial(plan, signalFd), rounds) && |rounds| >= |plan.names|
    ensures forall i: nat | i < |plan.names| :: Started(RunRounds(Initial(plan, signalFd), rounds).state[i])
  {
    hide Inv, Acyclic, RoundsOk, RunRounds, Total;
    var s := Initial(plan, signalFd);
    InitialInv(plan, signalFd);
    InitiallyCooperative(plan, signalFd);
    StartedAtMost(s.state);
    RoundsStartMany(s, rounds);
    InvBasics(RunRounds(s, rounds));
    StartedAtMost(RunRounds(s, rounds).state);
    AllStarted(RunRounds(s, rounds).state);
  }

  // ------------------------------------------------- idle returns, however timed

  // `i` waits for a program that has ended in another state than the awaited one.
  ghost predicate Missed(s: Sup, i: nat) {
    s.Sized() && i < s.N() && s.state[i] == BLOCKED && exists c ::
      c in s.plan.conditions[i] && c.id < s.N() && Terminated(s.state[c.id]) && s.state[c.id] != c.awaited
  }

  lemma {:induction false} ChainIsWalk(s: Sup, path: seq<nat>)
    requires Inv(s) && Chain(s, path)
    ensures Walk(s.plan, path)
  {
    hide PidsAgree, FdsAgree, LogAgrees, NamesAgree, Needs, WaitsOn;
    forall k | 0 <= k < |path| - 1
      ensures Needs(s.plan, path[k], path[k + 1])
    {
      WaitsAreNeeds(s, path[k], path[k + 1]);
    }
  }

  lemma {:induction false} WaitsAreNeeds(s: Sup, i: nat, j: nat)
    requires Inv(s) && WaitsOn(s, i, j)
    ensures Needs(s.plan, i, j)
  {
    hide PidsAgree, FdsAgree, LogAgrees, NamesAgree;
  }

  // What the end of an explaining chain comes to when names are distinct and waits
  // do not go in circles.
  lemma {:induction false} ExplanationEndsMissed(s: Sup, path: seq<nat>, i: nat)
    requires Inv(s) && Settled(s) && s.plan.DistinctNames() && Acyclic(s.plan) && Explains(s, path, i)
    ensures Missed(s, path[|path| - 2])
  {
    hide Inv, Settled, Acyclic, WaitsOn, TurnedAway, Walk, Needs;
    var last := |path| - 1;
    ChainIsWalk(s, path);
    if m :| 0 <= m < last && path[m] == path[last] {
      CutWalk(s.plan, path, m);
      NoCycle(s.plan, path[m..]);
    } else {
      SettledStates(s, path[last]);
      TurnedAwayReady(s, path[last]);
      assert WaitsOn(s, path[last - 1], path[last]);
      UnmetIsMissed(s, path[last - 1], path[last]);
    }
  }

  lemma {:induction false} CutWalk(plan: Plan, path: seq<nat>, m: nat)
    requires Walk(plan, path) && m < |path|
    ensures Walk(plan, path[m..])
  {
    hide Needs;
    forall k | 0 <= k < |path[m..]| - 1
      ensures Needs(plan, path[m..][k], path[m..][k + 1])
    {
      assert Needs(plan, path[m + k], path[m + k + 1]);
    }
  }

  lemma TurnedAwayReady(s: Sup, i: nat)
    requires s.Sized() && i < s.N()
    ensures TurnedAway(s, i) ==> s.state[i] == READY
  {
  }

  lemma UnmetIsMissed(s: Sup, i: nat, j: nat)
    requires WaitsOn(s, i, j) && Terminated(s.state[j])
    ensures Missed(s, i)
  {
  }

  // A settled supervisor without cycles of waits has seen every program through to
  // its end exactly when no program missed what it waited for.
  lemma {:induction false} SettledCompletes(s: Sup)
    requires Inv(s) && Settled(s) && s.plan.DistinctNames() && Acyclic(s.plan) && s.Sized()
    ensures (forall i: nat | i < s.N() :: Terminated(s.state[i])) <==> (forall i: nat | i < s.N() :: !Missed(s, i))
  {
    hide Inv, Settled, Acyclic;
    if (forall i: nat | i < s.N() :: !Missed(s, i)) {
      hide Missed;
      forall i: nat | i < s.N()
        ensures Terminated(s.state[i])
      {
        SettledStates(s, i);
        if s.state[i] == BLOCKED {
          var path := StuckIsExplained(s, i);
          ExplanationEndsMissed(s, path, i);
          PathInRange(s, path, i);
          assert false;
        }
      }
    }
  }

  lemma PathInRange(s: Sup, path: seq<nat>, i: nat)
    requires Explains(s, path, i)
    ensures |path| >= 2 && s.Sized() && path[|path| - 2] < s.N()
  {
  }

  // So it is for the event loop, whatever the order and timing of events.
  lemma {:induction false} LoopCompletes(plan: Plan, fd: int, first: seq<Grant>, ticks: seq<Tick>)
    requires plan.WellFormed() && plan.DistinctNames() && Acyclic(plan)
    requires KernelFresh(Initial(plan, fd), first) && LoopOk(Start(Initial(plan, fd), first), ticks)
    requires Loop(Start(Initial(plan, fd), first), ticks).1 == IdleReturn
    ensures var s := Loop(Start(Initial(plan, fd), first), ticks).0;
      && s.Sized()
      && ((forall i: nat | i < s.N() :: Terminated(s.state[i])) <==> (forall i: nat | i < s.N() :: !Missed(s, i)))
  {
    hide Inv, Settled, Acyclic, Start, LoopOk, Loop, KernelFresh, Missed;
    InitialInv(plan, fd);
    KernelSize(Initial(plan, fd), first);
    StartKeeps(Initial(plan, fd), first);
    LoopReturnsAreRight(Start(Initial(plan, fd), first), ticks);
    var s := Loop(Start(Initial(plan, fd), first), ticks).0;
    InvBasics(s);
    SettledCompletes(s);
  }
}
