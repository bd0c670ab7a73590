// When waits are for DONE only, what becomes of every program does not depend on the
// order and timing of events: the plan and the exit statuses decide it.
module Confluence {
  import opened Lifecycle
  import opened Collections
  import opened Supervisor
  import opened History
  import opened Invariants
  import opened EventLoop
  import opened Quiescence
  import opened Liveness
  import opened Stranding

  // Each program that exited did so with its status in `rc`.
  predicate ExitsAs(log: seq<Entry>, rc: seq<int>) {
    forall k | 0 <= k < |log| && log[k].Exited? && log[k].id < |rc| :: log[k].rc == rc[log[k].id]
  }

  // Gated programs wait for DONE and for nothing else.
  ghost predicate AwaitsDoneOnly(plan: Plan) {
    forall i: nat, c: Condition | i < |plan.conditions| && Gated(plan, i) && c in plan.conditions[i] ::
      c.awaited == DONE
  }

  lemma LogStates(s: Sup, i: nat)
    requires Inv(s) && s.Sized() && i < s.N()
    ensures Legal(s.plan, s.log) && s.plan.WellFormed()
    ensures LastState(s.log, i) == if Started(s.state[i]) then Some(s.state[i]) else None
  {
  }

  lemma {:induction false} TerminatedAs(s: Sup, rc: seq<int>, i: nat)
    requires Inv(s) && s.Sized() && i < s.N() == |rc| && ExitsAs(s.log, rc) && Terminated(s.state[i])
    ensures s.state[i] == ExitState(rc[i])
  {
    hide Inv, LastState;
    LogStates(s, i);
    var k := StateHasEntry(s.log, i);
    assert ExitAt(s.log, k, i);
  }

  lemma {:induction false} NobodyCrashed(s: Sup)
    requires Inv(s) && s.Sized() && forall i: nat | i < s.N() :: s.state[i] != CRASHED
    ensures ExitsAs(s.log, seq(s.N(), _ => 0))
  {
    hide Inv, LastState, Legal;
    forall k | 0 <= k < |s.log| && s.log[k].Exited? && s.log[k].id < s.N()
      ensures s.log[k].rc == 0
    {
      var i := s.log[k].id;
      LogStates(s, i);
      ExitShows(s.log, k, i);
      StateLasts(s.plan, s.log, k + 1, i);
    }
  }

  lemma ExitShows(log: seq<Entry>, k: nat, i: nat)
    requires ExitAt(log, k, i)
    ensures LastState(log[..k + 1], i) == Some(ExitState(log[k].rc))
  {
    assert log[..k + 1][k] == log[k];
  }

  // What a started program waited for is DONE, and stays so.
  lemma {:induction false} DependencyDone(s: Sup, i: nat, c: Condition)
    requires Inv(s) && s.Sized() && i < s.N() && Started(s.state[i])
    requires Gated(s.plan, i) && c in s.plan.conditions[i] && c.awaited == DONE
    ensures c.id < s.N() && s.state[c.id] == DONE
  {
    hide Inv, LastState, Legal, Gated;
    LogStates(s, i);
    LogStates(s, c.id);
    var k := StateHasEntry(s.log, i);
    if ExitAt(s.log, k, i) {
      ExitAfterFork(s.plan, s.log, i, k);
      k :| ForkAt(s.log, k, i);
    }
    ForkOrder(s.plan, s.log, i, k, c);
    StateLasts(s.plan, s.log, k, c.id);
  }

  // `i` ended in `s` and is still BLOCKED in `t`.
  predicate Differs(s: Sup, t: Sup, i: nat) {
    s.Sized() && t.Sized() && i < s.N() && i < t.N() && Terminated(s.state[i]) && t.state[i] == BLOCKED
  }

  // Two settled states of one plan with the same exit statuses.
  ghost predicate Comparable(s: Sup, t: Sup, rc: seq<int>) {
    && Inv(s) && Settled(s) && Inv(t) && Settled(t) && s.plan == t.plan && s.Sized() && t.Sized()
    && s.plan.DistinctNames() && AwaitsDoneOnly(s.plan)
    && |rc| == s.N() && ExitsAs(s.log, rc) && ExitsAs(t.log, rc)
  }

  // If a program differs, so does one it waits for.
  lemma {:induction false} DifferenceMovesOn(s: Sup, t: Sup, rc: seq<int>, i: nat) returns (j: nat)
    requires Comparable(s, t, rc) && Differs(s, t, i)
    ensures Differs(s, t, j) && Needs(s.plan, i, j)
  {
    hide Inv, ExitsAs, Waiting;
    assert Quiet(t, i);
    var c;
    j, c := UnmetWait(t, i);
    DependencyDone(s, i, c);
    SettledStates(t, j);
    if Terminated(t.state[j]) {
      TerminatedAs(s, rc, j);
      TerminatedAs(t, rc, j);
      assert false;
    }
  }

  lemma {:induction false} UnmetWait(t: Sup, i: nat) returns (j: nat, c: Condition)
    requires Inv(t) && t.Sized() && i < t.N() && t.state[i] == BLOCKED && Waiting(t, i)
    ensures j < t.N() && c in t.plan.conditions[i] && c.id == j && t.state[j] != c.awaited
    ensures Gated(t.plan, i) && Needs(t.plan, i, j)
  {
    hide PidsAgree, FdsAgree, LogAgrees, NamesAgree;
    j :| WaitsOn(t, i, j);
    c :| c in t.plan.conditions[i] && c.id == j && !Met(t.state, c);
  }

  lemma {:induction false} DifferenceMeansCycle(s: Sup, t: Sup, rc: seq<int>, path: seq<nat>)
    requires Comparable(s, t, rc) && Acyclic(s.plan) && Walk(s.plan, path) && NoRepeats(path) && path != []
    requires forall k | 0 <= k < |path| :: path[k] < s.N()
    requires Differs(s, t, path[|path| - 1])
    ensures false
    decreases s.N() - |path|
  {
    hide Needs, Acyclic, Walk, Comparable, Differs, NoRepeats;
    var j := DifferenceMovesOn(s, t, rc, path[|path| - 1]);
    DiffersInRange(s, t, j);
    if j in path {
      var k :| 0 <= k < |path| && path[k] == j;
      WalkOn(s.plan, path, k, j);
      NoCycle(s.plan, path[k..] + [j]);
    } else {
      WalkOn(s.plan, path, 0, j);
      assert path[0..] == path;
      LongerNoRepeats(path, j);
      NoRepeatsBound(path + [j], s.N());
      DifferenceMeansCycle(s, t, rc, path + [j]);
    }
  }

  lemma DiffersInRange(s: Sup, t: Sup, i: nat)
    requires Differs(s, t, i)
    ensures i < s.N()
  {
  }

  // Settled states of one acyclic plan agree when the exit statuses do.
  lemma {:induction false} SettledAgree(s: Sup, t: Sup, rc: seq<int>)
    requires Comparable(s, t, rc) && Acyclic(s.plan)
    ensures s.state == t.state
  {
    hide Inv, Settled, Acyclic, ExitsAs, AwaitsDoneOnly, Walk;
    forall i: nat | i < s.N()
      ensures s.state[i] == t.state[i]
    {
      SettledStates(s, i);
      SettledStates(t, i);
      if Terminated(s.state[i]) && Terminated(t.state[i]) {
        TerminatedAs(s, rc, i);
        TerminatedAs(t, rc, i);
      }
      WalkOfOne(s.plan, i);
      if Differs(s, t, i) {
        DifferenceMeansCycle(s, t, rc, [i]);
      } else if Differs(t, s, i) {
        DifferenceMeansCycle(t, s, rc, [i]);
      }
    }
  }

  lemma WalkOfOne(plan: Plan, i: nat)
    ensures Walk(plan, [i])
  {
  }

  // Two loops over one plan that both return idle leave every program in the same
  // state, whatever pids and descriptors they were given and whenever anything happened.
  lemma {:induction false} LoopsAgree(plan: Plan, rc: seq<int>, fd: int, first: seq<Grant>, ticks: seq<Tick>,
                                      fd': int, first': seq<Grant>, ticks': seq<Tick>)
    requires Serves(plan, fd, first, ticks) && Outcome(plan, fd, first, ticks).1 == IdleReturn
    requires Serves(plan, fd', first', ticks') && Outcome(plan, fd', first', ticks').1 == IdleReturn
    requires plan.DistinctNames() && Acyclic(plan) && AwaitsDoneOnly(plan) && |rc| == |plan.names|
    requires ExitsAs(Outcome(plan, fd, first, ticks).0.log, rc) && ExitsAs(Outcome(plan, fd', first', ticks').0.log, rc)
    ensures Outcome(plan, fd, first, ticks).0.state == Outcome(plan, fd', first', ticks').0.state
  {
    hide Inv, Settled, Acyclic, ExitsAs, AwaitsDoneOnly, Serves, Outcome;
    IdleIsFinal(plan, fd, first, ticks);
    IdleIsFinal(plan, fd', first', ticks');
    SettledAgree(Outcome(plan, fd, first, ticks).0, Outcome(plan, fd', first', ticks').0, rc);
  }
}
