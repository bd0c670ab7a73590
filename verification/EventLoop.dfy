// The event loop: one pass starts programs, takes a batch of descriptor events,
// reaps children, handles the batch and decides whether to return.
module EventLoop {
  import opened Trim
  import opened Supervisor
  import opened Invariants
  import opened Preservation
  import opened Runs

  // What the operating system contributes to one pass.
  datatype Tick = Tick(top: seq<Grant>, reaps: seq<(int, int)>, wakes: seq<Wake>, bottom: seq<Grant>)

  datatype Verdict = Looping | QuitReturn | IdleReturn | Threw

  // The waitpid loop.
  function ReapAll(s: Sup, reaps: seq<(int, int)>): (r: Sup)
    requires s.Sized()
    ensures r.Sized() && r.plan == s.plan && r.interest == s.interest && r.signalFd == s.signalFd
    ensures r.shouldQuit == s.shouldQuit && r.aborted == s.aborted
    decreases |reaps|
  {
    if reaps == [] then s else ReapAll(Reap(s, reaps[0].0, reaps[0].1), reaps[1..])
  }

  // The batch, given up at the first event that throws.
  ghost function DeliverAll(s: Sup, wakes: seq<Wake>): (r: Sup)
    requires s.Sized()
    ensures r.Sized() && r.plan == s.plan && r.state == s.state
    decreases |wakes|
  {
    if wakes == [] || s.aborted then s else DeliverAll(Deliver(s, wakes[0]), wakes[1..])
  }

  ghost function Decide(s: Sup, kernel: seq<Grant>): (r: (Sup, Verdict))
    requires s.Sized() && s.N() == |kernel|
    ensures r.0.Sized() && r.0.plan == s.plan
  {
    if s.aborted then (s, Threw)
    else if s.running == 0 && s.shouldQuit then (s, QuitReturn)
    else if s.shouldQuit then (s, Looping)
    else
      var r := Start(s, kernel);
      if r.running == 0 then (r, IdleReturn) else (r, Looping)
  }

  // State when the batch has been handled.
  ghost function Handled(s: Sup, t: Tick): (r: Sup)
    requires s.Sized() && s.N() == |t.top|
    ensures r.Sized() && r.plan == s.plan
  {
    DeliverAll(ReapAll(Start(s, t.top), t.reaps), t.wakes)
  }

  ghost function Iterate(s: Sup, t: Tick): (r: (Sup, Verdict))
    requires s.Sized() && s.N() == |t.top| == |t.bottom|
    ensures r.0.Sized() && r.0.plan == s.plan
  {
    Decide(Handled(s, t), t.bottom)
  }

  // One epoll_wait batch: distinct watched descriptors, and the signal descriptor
  // only ever becomes readable.
  predicate BatchOk(s: Sup, wakes: seq<Wake>) {
    && (forall k | 0 <= k < |wakes| :: WakeOk(s, wakes[k]))
    && (forall j, k | 0 <= j < k < |wakes| :: wakes[j].fd != wakes[k].fd)
  }

  ghost predicate TickOk(s: Sup, t: Tick) {
    && s.Sized() && |t.bottom| == s.N()
    && KernelFresh(s, t.top)
    && BatchOk(Start(s, t.top), t.wakes)
    && KernelFresh(Handled(s, t), t.bottom)
  }

  ghost predicate LoopOk(s: Sup, ticks: seq<Tick>)
    decreases |ticks|
  {
    ticks == [] ||
    (TickOk(s, ticks[0]) &&
      (Iterate(s, ticks[0]).1 == Looping ==> LoopOk(Iterate(s, ticks[0]).0, ticks[1..])))
  }

  // The passes until one returns, throws, or the given ticks are used up.
  ghost function Loop(s: Sup, ticks: seq<Tick>): (r: (Sup, Verdict))
    requires LoopOk(s, ticks)
    ensures r.0.plan == s.plan && (s.Sized() ==> r.0.Sized())
    decreases |ticks|
  {
    if ticks == [] then (s, Looping)
    else
      var next := Iterate(s, ticks[0]);
      if next.1 == Looping then Loop(next.0, ticks[1..]) else next
  }

  // ----------------------------------------------------------------- the loop is a run

  function ReapSteps(reaps: seq<(int, int)>): (r: seq<Step>)
    ensures |r| == |reaps| && forall k | 0 <= k < |r| :: r[k] == ReapStep(reaps[k].0, reaps[k].1)
  {
    seq(|reaps|, k requires 0 <= k < |reaps| => ReapStep(reaps[k].0, reaps[k].1))
  }

  lemma {:induction false} ReapAllIsRun(s: Sup, reaps: seq<(int, int)>)
    requires s.Sized()
    ensures RunOk(s, ReapSteps(reaps)) && Run(s, ReapSteps(reaps)) == ReapAll(s, reaps)
    decreases |reaps|
  {
    hide Reap;
    if reaps != [] {
      var steps := ReapSteps(reaps);
      assert steps[1..] == ReapSteps(reaps[1..]);
      assert StepOk(s, steps[0]);
      ReapAllIsRun(Reap(s, reaps[0].0, reaps[0].1), reaps[1..]);
    }
  }

  // An event takes at most its own descriptor out of the interest set.
  lemma {:induction false} DeliverInterest(s: Sup, w: Wake)
    requires s.Sized()
    ensures s.interest - {w.fd} <= Deliver(s, w).interest
  {
    hide Output, Forward, Print;
  }

  function WakeSteps(wakes: seq<Wake>): (r: seq<Step>)
    ensures |r| == |wakes| && forall k | 0 <= k < |r| :: r[k] == WakeStep(wakes[k])
  {
    seq(|wakes|, k requires 0 <= k < |wakes| => WakeStep(wakes[k]))
  }

  // An event that is neither readable nor a hangup throws.
  predicate Throws(w: Wake) {
    !w.readable && !w.hangup
  }

  // The first `n` events of the batch are handled: all of them, unless the last of the
  // `n` throws.
  predicate HandlesUpTo(wakes: seq<Wake>, n: nat) {
    && n <= |wakes|
    && (forall k | 0 <= k < n - 1 :: !Throws(wakes[k]))
    && (n < |wakes| ==> n > 0 && Throws(wakes[n - 1]))
  }

  // So the rest of the batch is still watched when its turn comes, and so it is
  // after any number of reaps.
  lemma {:induction false} DeliverAllIsRun(s: Sup, wakes: seq<Wake>) returns (steps: seq<Step>, n: nat)
    requires Inv(s) && BatchOk(s, wakes)
    ensures RunOk(s, steps) && Run(s, steps) == DeliverAll(s, wakes)
    ensures n <= |wakes| && steps == WakeSteps(wakes[..n])
    ensures if s.aborted then n == 0 else HandlesUpTo(wakes, n)
    ensures DeliverAll(s, wakes).aborted <==> s.aborted || exists k :: 0 <= k < n && Throws(wakes[k])
    decreases |wakes|
  {
    hide Deliver, Inv;
    InvBasics(s);
    steps, n := [], 0;
    if wakes != [] && !s.aborted {
      var w, rest := wakes[0], wakes[1..];
      var next := Deliver(s, w);
      DeliverKeeps(s, w);
      RestOfBatch(s, wakes);
      hide BatchOk, WakeOk, HandlesUpTo;
      var tail, m := DeliverAllIsRun(next, rest);
      steps, n := [WakeStep(w)] + tail, m + 1;
      OneMoreHandled(wakes, m, next.aborted);
      assert steps[1..] == tail;
      assert steps == WakeSteps(wakes[..n]);
    }
  }

  lemma {:induction false} RestOfBatch(s: Sup, wakes: seq<Wake>)
    requires s.Sized() && BatchOk(s, wakes) && wakes != []
    ensures WakeOk(s, wakes[0]) && BatchOk(Deliver(s, wakes[0]), wakes[1..])
  {
    hide Deliver;
    var next, rest := Deliver(s, wakes[0]), wakes[1..];
    DeliverInterest(s, wakes[0]);
    forall k | 0 <= k < |rest|
      ensures WakeOk(next, rest[k])
    {
      assert WakeOk(s, wakes[k + 1]);
      assert wakes[0].fd != wakes[k + 1].fd;
    }
  }

  lemma {:induction false} OneMoreHandled(wakes: seq<Wake>, m: nat, thrown: bool)
    requires wakes != [] && m <= |wakes| - 1 && (thrown <==> Throws(wakes[0]))
    requires if thrown then m == 0 else HandlesUpTo(wakes[1..], m)
    ensures HandlesUpTo(wakes, m + 1) && wakes[..m + 1] == [wakes[0]] + wakes[1..][..m]
    ensures (exists k :: 0 <= k < m + 1 && Throws(wakes[k])) <==>
      thrown || exists k :: 0 <= k < m && Throws(wakes[1..][k])
  {
    hide Throws;
    var rest := wakes[1..];
    assert forall k | 0 < k < |wakes| :: wakes[k] == rest[k - 1];
    assert forall k | 0 <= k < |rest| :: rest[k] == wakes[k + 1];
  }

  lemma TickSizes(s: Sup, t: Tick)
    requires TickOk(s, t)
    ensures s.Sized() && |t.top| == |t.bottom| == s.N() && StepOk(s, StartStep(t.top))
  {
  }

  lemma {:induction false} OneStep(s: Sup, step: Step)
    requires StepOk(s, step)
    ensures RunOk(s, [step]) && Run(s, [step]) == Next(s, step)
  {
    hide StepOk, Next;
    assert [step][1..] == [];
  }

  // Up to the verdict a pass is: the top start-up call, the exits in order, and then the
  // events in order, all of them or up to the one that throws.
  lemma {:induction false} HandledIsRun(s: Sup, t: Tick) returns (steps: seq<Step>, n: nat)
    requires Inv(s) && TickOk(s, t)
    ensures RunOk(s, steps) && Run(s, steps) == Handled(s, t)
    ensures n <= |t.wakes| && steps == [StartStep(t.top)] + ReapSteps(t.reaps) + WakeSteps(t.wakes[..n])
    ensures if s.aborted then n == 0 else HandlesUpTo(t.wakes, n)
    ensures Handled(s, t).aborted <==> s.aborted || exists k :: 0 <= k < n && Throws(t.wakes[k])
  {
    hide Inv, KernelFresh, Start, ReapAll, DeliverAll, Run, RunOk, HandlesUpTo;
    TickSizes(s, t);
    var start := [StartStep(t.top)];
    OneStep(s, StartStep(t.top));
    var started := Start(s, t.top);
    StartKeeps(s, t.top);
    InvBasics(started);
    ReapAllIsRun(started, t.reaps);
    var reaped := ReapAll(started, t.reaps);
    RunKeeps(started, ReapSteps(t.reaps));
    var wakes;
    wakes, n := DeliverAllIsRun(reaped, t.wakes);
    RunAppend(s, start, ReapSteps(t.reaps));
    RunAppend(s, start + ReapSteps(t.reaps), wakes);
    steps := start + ReapSteps(t.reaps) + wakes;
  }

  // A whole pass ends with a second start-up call unless something threw or the
  // supervisor was told to quit.
  lemma {:induction false} IterateIsRun(s: Sup, t: Tick) returns (steps: seq<Step>, n: nat, bottom: bool)
    requires Inv(s) && TickOk(s, t)
    ensures RunOk(s, steps) && Run(s, steps) == Iterate(s, t).0
    ensures n <= |t.wakes| && steps == [StartStep(t.top)] + ReapSteps(t.reaps) + WakeSteps(t.wakes[..n]) +
      if bottom then [StartStep(t.bottom)] else []
    ensures if s.aborted then n == 0 else HandlesUpTo(t.wakes, n)
    ensures Iterate(s, t).0.aborted <==> s.aborted || exists k :: 0 <= k < n && Throws(t.wakes[k])
    ensures bottom <==> !Iterate(s, t).0.aborted && !Iterate(s, t).0.shouldQuit
  {
    hide Inv, KernelFresh, Start, Handled, Run, RunOk, BatchOk, HandlesUpTo;
    TickSizes(s, t);
    steps, n := HandledIsRun(s, t);
    var handled := Handled(s, t);
    bottom := !handled.aborted && !handled.shouldQuit;
    if bottom {
      OneStep(handled, StartStep(t.bottom));
      RunAppend(s, steps, [StartStep(t.bottom)]);
      steps := steps + [StartStep(t.bottom)];
    }
  }

  // What a pass comes to: it throws when an event does; otherwise the loop goes on while
  // any program runs, and returns when none does, for the quit request or for lack of
  // anything to do.
  lemma {:induction false} VerdictExactly(s: Sup, t: Tick)
    requires Inv(s) && TickOk(s, t) && !s.aborted && s.Sized()
    ensures Iterate(s, t).1 ==
      if exists k :: 0 <= k < |t.wakes| && Throws(t.wakes[k]) then Threw
      else if RunningPrograms(Iterate(s, t).0) != {} then Looping
      else if Iterate(s, t).0.shouldQuit then QuitReturn
      else IdleReturn
  {
    hide Inv, KernelFresh, Start, BatchOk;
    TickSizes(s, t);
    var steps, n := HandledIsRun(s, t);
    RunKeeps(s, steps);
    var handled := Handled(s, t);
    assert handled.aborted <==> exists k :: 0 <= k < |t.wakes| && Throws(t.wakes[k]);
    CountsAgree(handled);
    if !handled.aborted && !handled.shouldQuit {
      StartKeeps(handled, t.bottom);
      CountsAgree(Start(handled, t.bottom));
    }
  }

  // However long the event loop runs, what it does is a run; so everything shown of
  // runs holds of the loop.
  lemma {:induction false} LoopIsRun(s: Sup, ticks: seq<Tick>) returns (steps: seq<Step>)
    requires Inv(s) && LoopOk(s, ticks)
    ensures RunOk(s, steps) && Run(s, steps) == Loop(s, ticks).0
    decreases |ticks|
  {
    hide Inv, TickOk, Iterate, Run, RunOk;
    if ticks == [] {
      steps := [];
      assert RunOk(s, steps) && Run(s, steps) == s by {
        EmptyRun(s);
      }
    } else {
      TickSizes(s, ticks[0]);
      var n, bottom;
      steps, n, bottom := IterateIsRun(s, ticks[0]);
      RunKeeps(s, steps);
      var next := Iterate(s, ticks[0]);
      if next.1 == Looping {
        var rest := LoopIsRun(next.0, ticks[1..]);
        RunAppend(s, steps, rest);
        steps := steps + rest;
      }
    }
  }

  // The call before the loop and the loop together: a run of the registered plan.
  lemma {:induction false} LoopReaches(plan: Plan, fd: int, first: seq<Grant>, ticks: seq<Tick>)
    requires plan.WellFormed() && KernelFresh(Initial(plan, fd), first)
    requires LoopOk(Start(Initial(plan, fd), first), ticks)
    ensures Reachable(plan, Loop(Start(Initial(plan, fd), first), ticks).0)
  {
    hide Inv, LoopOk, Loop, Start, Initial, Run, RunOk;
    var s := Initial(plan, fd);
    InitialInv(plan, fd);
    StartKeeps(s, first);
    OneStep(s, StartStep(first));
    var steps := LoopIsRun(Start(s, first), ticks);
    RunAppend(s, [StartStep(first)], steps);
  }

  // From registration on: what the operating system does, and where it leads.
  ghost predicate Serves(plan: Plan, fd: int, first: seq<Grant>, ticks: seq<Tick>) {
    && plan.WellFormed() && KernelFresh(Initial(plan, fd), first)
    && LoopOk(Start(Initial(plan, fd), first), ticks)
  }

  ghost function Outcome(plan: Plan, fd: int, first: seq<Grant>, ticks: seq<Tick>): (r: (Sup, Verdict))
    requires Serves(plan, fd, first, ticks)
    ensures r.0.plan == plan && r.0.Sized()
  {
    Loop(Start(Initial(plan, fd), first), ticks)
  }

  lemma EmptyRun(s: Sup)
    ensures RunOk(s, []) && Run(s, []) == s
  {
  }
}
