// Consequences of the loop's own timing: which start-up calls come back to back, and
// which of them looks at the quit request.
module Passes {
  import opened Lifecycle
  import opened Supervisor
  import opened Invariants
  import opened Preservation
  import opened Runs
  import opened StartUp
  import opened EventLoop

  lemma {:induction false} LoopRises(s: Sup, ticks: seq<Tick>)
    requires Inv(s) && LoopOk(s, ticks)
    ensures Rises(s.state, Loop(s, ticks).0.state) && Inv(Loop(s, ticks).0)
  {
    hide Inv, LoopOk, Loop, Rises, Run, RunOk;
    var steps := LoopIsRun(s, ticks);
    RunKeeps(s, steps);
    RunRises(s, steps);
  }

  lemma {:induction false} PassStartsAtTop(s: Sup, t: Tick, i: nat)
    requires Inv(s) && TickOk(s, t) && s.Sized() && |t.top| == s.N() && i < s.N() && Started(Start(s, t.top).state[i])
    ensures Started(Iterate(s, t).0.state[i])
  {
    hide Inv, KernelFresh, Start, ReapAll, DeliverAll, BatchOk;
    TickSizes(s, t);
    StartKeeps(s, t.top);
    ReapAllStartsNone(Start(s, t.top), t.reaps, i);
    var handled := Handled(s, t);
    var steps, n := HandledIsRun(s, t);
    RunKeeps(s, steps);
    InvBasics(handled);
    StartRises(handled, t.bottom);
  }

  // `i` is forked by the first start-up call, or by the second: nothing is reaped in
  // between, so a wait for RUNNING on programs that were READY then cannot be missed.
  predicate SureToStart(plan: Plan, i: nat)
    requires plan.WellFormed() && i < |plan.names|
  {
    plan.init[i] == READY || forall c | c in plan.conditions[i] :: c.awaited == RUNNING && plan.init[c.id] == READY
  }

  lemma {:induction false} DirectDependentsStart(plan: Plan, fd: int, first: seq<Grant>, ticks: seq<Tick>, i: nat)
    requires Serves(plan, fd, first, ticks) && plan.DistinctNames() && ticks != []
    requires i < |plan.names| && SureToStart(plan, i)
    ensures Started(Outcome(plan, fd, first, ticks).0.state[i])
  {
    hide Inv, Start, LoopOk, Loop, KernelFresh, TickOk, Iterate, Rises;
    var s := Initial(plan, fd);
    InitialInv(plan, fd);
    KernelSize(s, first);
    StartKeeps(s, first);
    var started := Start(s, first);
    DirectlyDue(plan, fd, first, i);
    LoopFirst(started, ticks);
    var t := ticks[0];
    TickSizes(started, t);
    TopIsFresh(started, t);
    StartReaches(started, t.top, i);
    PassStartsAtTop(started, t, i);
    IterateKeeps(started, t);
    var next := Iterate(started, t);
    if next.1 == Looping {
      LoopRises(next.0, ticks[1..]);
      InvBasics(Loop(next.0, ticks[1..]).0);
      StartedRises(next.0.state, Loop(next.0, ticks[1..]).0.state, i);
    }
    InvBasics(next.0);
  }

  lemma {:induction false} DirectlyDue(plan: Plan, fd: int, first: seq<Grant>, i: nat)
    requires plan.WellFormed() && plan.DistinctNames() && KernelFresh(Initial(plan, fd), first) && i < |plan.names|
    requires SureToStart(plan, i)
    ensures var r := Start(Initial(plan, fd), first);
      |first| == |plan.names| && r.N() == |plan.names| && (Started(r.state[i]) || Due(r, i))
  {
    hide Inv, KernelFresh, StartIn;
    var s := Initial(plan, fd);
    InitialInv(plan, fd);
    KernelSize(s, first);
    ListOrderCovers(s.N());
    StartAtOnce(s, first, ListOrder(s.N()), i);
    if plan.init[i] == BLOCKED {
      forall c | c in plan.conditions[i]
        ensures Met(Start(s, first).state, c)
      {
        StartAtOnce(s, first, ListOrder(s.N()), c.id);
      }
    }
  }

  lemma LoopFirst(s: Sup, ticks: seq<Tick>)
    requires LoopOk(s, ticks) && ticks != []
    ensures TickOk(s, ticks[0]) && s.Sized() && |ticks[0].top| == |ticks[0].bottom| == s.N()
    ensures var next := Iterate(s, ticks[0]);
      if next.1 == Looping then LoopOk(next.0, ticks[1..]) && Loop(s, ticks) == Loop(next.0, ticks[1..])
      else Loop(s, ticks) == next
  {
    hide Iterate, BatchOk;
  }

  lemma TopIsFresh(s: Sup, t: Tick)
    requires TickOk(s, t)
    ensures KernelFresh(s, t.top)
  {
  }

  lemma {:induction false} StartReaches(s: Sup, kernel: seq<Grant>, i: nat)
    requires Inv(s) && s.plan.DistinctNames() && KernelFresh(s, kernel) && s.Sized() && |kernel| == s.N() && i < s.N()
    requires Started(s.state[i]) || Due(s, i)
    ensures Started(Start(s, kernel).state[i])
  {
    hide Inv, KernelFresh, StartIn, Due;
    ListOrderCovers(s.N());
    StartAtOnce(s, kernel, ListOrder(s.N()), i);
  }

  lemma {:induction false} IterateKeeps(s: Sup, t: Tick)
    requires Inv(s) && TickOk(s, t)
    ensures s.Sized() && |t.top| == |t.bottom| == s.N() && Inv(Iterate(s, t).0)
  {
    hide Inv, TickOk, Iterate;
    TickSizes(s, t);
    var steps, n, bottom := IterateIsRun(s, t);
    RunKeeps(s, steps);
  }

  lemma StartedRises(before: seq<State>, after: seq<State>, i: nat)
    requires Rises(before, after) && i < |before| && Started(before[i])
    ensures i < |after| && Started(after[i])
  {
  }

  // ------------------------------------------------------- starting while quitting

  lemma {:induction false} ReapAllStartsNone(s: Sup, reaps: seq<(int, int)>, i: nat)
    requires Inv(s) && s.Sized() && i < s.N()
    ensures Started(ReapAll(s, reaps).state[i]) <==> Started(s.state[i])
    decreases |reaps|
  {
    hide Reap, Inv;
    if reaps != [] {
      ReapKeeps(s, reaps[0].0, reaps[0].1);
      ReapStartsNone(s, reaps[0].0, reaps[0].1, i);
      ReapAllStartsNone(Reap(s, reaps[0].0, reaps[0].1), reaps[1..], i);
    }
  }

  lemma {:induction false} ReapStartsNone(s: Sup, pid: int, rc: int, i: nat)
    requires Inv(s) && s.Sized() && i < s.N()
    ensures Started(Reap(s, pid, rc).state[i]) <==> Started(s.state[i])
  {
    hide Reap;
    ReapStates(s, pid, rc);
  }

  // The start-up call at the top of a pass does not look at `should_quit`: told to
  // quit, the supervisor still forks every due program whose name is free.
  lemma {:induction false} QuittingForksExactly(s: Sup, t: Tick, i: nat)
    requires Inv(s) && TickOk(s, t) && s.shouldQuit && i < s.N() && s.Sized() && !Started(s.state[i])
    ensures Started(Iterate(s, t).0.state[i]) <==> Due(s, i) && !NameTaken(s, i)
    ensures Iterate(s, t).1 != IdleReturn
  {
    hide Inv, KernelFresh, Start, ReapAll, DeliverAll, BatchOk, Due, NameTaken;
    TickSizes(s, t);
    InvBasics(s);
    var started := Start(s, t.top);
    StartKeeps(s, t.top);
    StartExactly(s, t.top, i);
    var reaped := ReapAll(started, t.reaps);
    ReapAllStartsNone(started, t.reaps, i);
    DeliverAllKeepsQuit(reaped, t.wakes);
  }

  lemma {:induction false} DeliverAllKeepsQuit(s: Sup, wakes: seq<Wake>)
    requires s.Sized() && s.shouldQuit
    ensures DeliverAll(s, wakes).shouldQuit
    decreases |wakes|
  {
    hide Deliver;
    if wakes != [] && !s.aborted {
      DeliverAllKeepsQuit(Deliver(s, wakes[0]), wakes[1..]);
    }
  }
}
