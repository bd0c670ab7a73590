// Runs: any interleaving of start_programs calls, exits and descriptor events that
// the operating system may produce.  The event loop is one way to interleave them.
module Runs {
  import opened Lifecycle
  import opened Collections
  import opened Supervisor
  import opened Invariants
  import opened Preservation

  datatype Step =
    | StartStep(kernel: seq<Grant>)
    | ReapStep(pid: int, rc: int)
    | WakeStep(wake: Wake)

  // What the operating system may do next.
  predicate StepOk(s: Sup, step: Step) {
    && s.Sized()
    && match step
       case StartStep(kernel) => KernelFresh(s, kernel)
       case ReapStep(_, _) => true
       case WakeStep(wake) => WakeOk(s, wake)
  }

  ghost function Next(s: Sup, step: Step): (r: Sup)
    requires StepOk(s, step)
    ensures r.Sized() && r.plan == s.plan && r.signalFd == s.signalFd
    ensures s.shouldQuit ==> r.shouldQuit
  {
    match step
    case StartStep(kernel) => Start(s, kernel)
    case ReapStep(pid, rc) => Reap(s, pid, rc)
    case WakeStep(wake) => Deliver(s, wake)
  }

  ghost predicate RunOk(s: Sup, steps: seq<Step>)
    decreases |steps|
  {
    steps == [] || (StepOk(s, steps[0]) && RunOk(Next(s, steps[0]), steps[1..]))
  }

  ghost function Run(s: Sup, steps: seq<Step>): (r: Sup)
    requires RunOk(s, steps)
    ensures r.plan == s.plan && (s.Sized() ==> r.Sized())
    decreases |steps|
  {
    if steps == [] then s else Run(Next(s, steps[0]), steps[1..])
  }

  lemma {:induction false} RunAppend(s: Sup, a: seq<Step>, b: seq<Step>)
    requires RunOk(s, a) && RunOk(Run(s, a), b)
    ensures RunOk(s, a + b) && Run(s, a + b) == Run(Run(s, a), b)
    decreases |a|
  {
    if a == [] {
      assert a + b == b;
    } else {
      assert (a + b)[0] == a[0] && (a + b)[1..] == a[1..] + b;
      RunAppend(Next(s, a[0]), a[1..], b);
    }
  }

  // ------------------------------------------------------------------- invariants

  lemma {:induction false} NextKeeps(s: Sup, step: Step)
    requires Inv(s) && StepOk(s, step)
    ensures Inv(Next(s, step))
  {
    hide Start, Reap, Deliver, Inv, KernelFresh, WakeOk;
    match step
    case StartStep(kernel) => StartKeeps(s, kernel);
    case ReapStep(pid, rc) => ReapKeeps(s, pid, rc);
    case WakeStep(wake) => DeliverKeeps(s, wake);
  }

  // Every agreement holds after every run.
  lemma {:induction false} RunKeeps(s: Sup, steps: seq<Step>)
    requires Inv(s) && RunOk(s, steps)
    ensures Inv(Run(s, steps))
    decreases |steps|
  {
    hide Inv, StepOk, Next;
    if steps != [] {
      NextKeeps(s, steps[0]);
      RunKeeps(Next(s, steps[0]), steps[1..]);
    }
  }

  // `s` is what the supervisor of `plan` can be in.
  ghost predicate Reachable(plan: Plan, s: Sup) {
    plan.WellFormed() &&
    exists signalFd: int, steps: seq<Step> ::
      RunOk(Initial(plan, signalFd), steps) && s == Run(Initial(plan, signalFd), steps)
  }

  lemma {:induction false} ReachableInv(plan: Plan, s: Sup)
    requires Reachable(plan, s)
    ensures Inv(s) && s.plan == plan
  {
    hide Inv, RunOk, Run;
    var signalFd: int, steps: seq<Step> :|
      RunOk(Initial(plan, signalFd), steps) && s == Run(Initial(plan, signalFd), steps);
    InitialInv(plan, signalFd);
    RunKeeps(Initial(plan, signalFd), steps);
  }

  // --------------------------------------------------------------- states only rise

  // No program's state goes down, and a terminated program keeps its state.
  predicate Rises(before: seq<State>, after: seq<State>) {
    && |after| == |before|
    && forall i | 0 <= i < |before| ::
         after[i] == before[i] || Rank(before[i]) < Rank(after[i])
  }

  lemma {:induction false} StartRises(s: Sup, kernel: seq<Grant>)
    requires s.Sized() && s.plan.WellFormed() && |kernel| == s.N()
    ensures Rises(s.state, Start(s, kernel).state)
  {
    hide NotifyAll, StartEach, Released;
    var order := ListOrder(s.N());
    NotifyAllAtOnce(s.plan, s.state, order);
    StartEachStates(s.(state := NotifyAll(s.plan, s.state, order)), kernel, order);
  }

  lemma {:induction false} ReapStates(s: Sup, pid: int, rc: int)
    requires s.Sized() && PidsAgree(s)
    ensures var r := Reap(s, pid, rc);
      && |r.state| == |s.state|
      && forall i | 0 <= i < s.N() :: r.state[i] == s.state[i] || (s.state[i] == RUNNING && r.state[i] == ExitState(rc))
  {
    hide Total;
  }

  lemma {:induction false} NextRises(s: Sup, step: Step)
    requires Inv(s) && StepOk(s, step)
    ensures Rises(s.state, Next(s, step).state)
  {
    hide Start, Reap, Deliver, LogAgrees, FdsAgree, PidsAgree, NamesAgree, NoBackoff, WakeOk;
    match step
    case StartStep(kernel) => StartRises(s, kernel);
    case ReapStep(pid, rc) => ReapStates(s, pid, rc);
    case WakeStep(wake) =>
  }

  lemma {:induction false} RunRises(s: Sup, steps: seq<Step>)
    requires Inv(s) && RunOk(s, steps)
    ensures Rises(s.state, Run(s, steps).state)
    decreases |steps|
  {
    hide Inv, StepOk, Next;
    if steps != [] {
      NextKeeps(s, steps[0]);
      NextRises(s, steps[0]);
      RunRises(Next(s, steps[0]), steps[1..]);
    }
  }

  // Once the supervisor has been told to quit it stays that way.
  lemma {:induction false} QuitIsFinal(s: Sup, steps: seq<Step>)
    requires RunOk(s, steps) && s.shouldQuit
    ensures Run(s, steps).shouldQuit
    decreases |steps|
  {
    if steps != [] {
      QuitIsFinal(Next(s, steps[0]), steps[1..]);
    }
  }

  // What it takes: a SIGINT or SIGQUIT read from the signal descriptor.
  predicate ReadsQuit(s: Sup, step: Step) {
    step.WakeStep? && step.wake.fd == s.signalFd && (step.wake.signo == SIGINT || step.wake.signo == SIGQUIT)
  }

  lemma {:induction false} NextQuits(s: Sup, step: Step)
    requires StepOk(s, step)
    ensures Next(s, step).shouldQuit <==> s.shouldQuit || ReadsQuit(s, step)
  {
    hide Start, Reap, AscendingNumbers, KernelFresh;
  }

  // A run asks the supervisor to quit exactly when it reads one of these two; SIGTERM
  // is not among the signals it can read.
  lemma {:induction false} QuitExactly(s: Sup, steps: seq<Step>)
    requires RunOk(s, steps)
    ensures Run(s, steps).shouldQuit <==> s.shouldQuit || exists k :: 0 <= k < |steps| && ReadsQuit(s, steps[k])
    ensures forall k | 0 <= k < |steps| && steps[k].WakeStep? && steps[k].wake.fd == s.signalFd ::
      steps[k].wake.signo != SIGTERM
    decreases |steps|
  {
    hide Next, KernelFresh;
    if steps != [] {
      var next, rest := Next(s, steps[0]), steps[1..];
      NextQuits(s, steps[0]);
      QuitExactly(next, rest);
      assert forall k | 0 < k < |steps| :: steps[k] == rest[k - 1];
      assert forall k | 0 <= k < |rest| ::
        rest[k] == steps[k + 1] && ReadsQuit(next, rest[k]) == ReadsQuit(s, steps[k + 1]);
    }
  }

  // ------------------------------------------------------------------ doomed sets

  // A READY program whose logger name is taken can never be forked.
  predicate TurnedAway(s: Sup, i: nat) {
    s.Sized() && i < s.N() && s.state[i] == READY && s.plan.names[i] in s.loggers
  }

  // `i` waits for something that can no longer come: another member of the set, a
  // program that terminated in a different state, or one that was turned away.
  ghost predicate Hopeless(s: Sup, doomed: set<nat>, i: nat) {
    s.Sized() && i < s.N() &&
    exists c :: c in s.plan.conditions[i] && Beyond(s, doomed, c)
  }

  ghost predicate Beyond(s: Sup, doomed: set<nat>, c: Condition)
    requires s.Sized()
  {
    c.id < s.N() &&
    (c.id in doomed || (Terminated(s.state[c.id]) && s.state[c.id] != c.awaited) || TurnedAway(s, c.id))
  }

  ghost predicate Doomed(s: Sup, doomed: set<nat>) {
    && s.Sized()
    && forall i | i in doomed :: i < s.N() && s.state[i] == BLOCKED && Hopeless(s, doomed, i)
  }

  lemma {:induction false} StartEachTurnsAway(s: Sup, kernel: seq<Grant>, order: seq<nat>, i: nat)
    requires TurnedAway(s, i) && |kernel| == s.N() && Positions(order, s.N())
    ensures TurnedAway(StartEach(s, kernel, order), i)
  {
    if order != [] {
      StartEachTurnsAway(s, kernel, order[..|order| - 1], i);
    }
  }

  lemma {:induction false} NextTurnsAway(s: Sup, step: Step, i: nat)
    requires Inv(s) && StepOk(s, step) && TurnedAway(s, i)
    ensures TurnedAway(Next(s, step), i)
  {
    CoreBasics(s);
    match step
    case StartStep(kernel) =>
      hide NotifyAll, StartEach, Released, Inv;
      var order := ListOrder(s.N());
      NotifyAllAtOnce(s.plan, s.state, order);
      StartEachTurnsAway(s.(state := NotifyAll(s.plan, s.state, order)), kernel, order, i);
    case ReapStep(pid, rc) =>
      ReapStates(s, pid, rc);
    case WakeStep(wake) =>
      hide Deliver, Inv;
  }

  // It stays so in whatever run follows.
  lemma {:induction false} TurnedAwayForever(s: Sup, steps: seq<Step>, i: nat)
    requires Inv(s) && RunOk(s, steps) && TurnedAway(s, i)
    ensures TurnedAway(Run(s, steps), i)
    decreases |steps|
  {
    hide Inv, StepOk, Next, TurnedAway;
    if steps != [] {
      NextKeeps(s, steps[0]);
      NextTurnsAway(s, steps[0], i);
      TurnedAwayForever(Next(s, steps[0]), steps[1..], i);
    }
  }

  lemma {:induction false} BeyondIsUnmet(s: Sup, doomed: set<nat>, c: Condition)
    requires s.Sized() && Beyond(s, doomed, c) && Doomed(s, doomed)
    requires c.awaited == RUNNING || c.awaited == DONE
    ensures !Met(s.state, c)
  {
  }

  lemma {:induction false} StartKeepsDoomed(s: Sup, kernel: seq<Grant>, doomed: set<nat>)
    requires s.Sized() && s.plan.WellFormed() && |kernel| == s.N() && Doomed(s, doomed)
    ensures forall i | i in doomed :: Start(s, kernel).state[i] == BLOCKED
  {
    hide NotifyAll, StartEach, Beyond;
    var order := ListOrder(s.N());
    NotifyAllAtOnce(s.plan, s.state, order);
    StartEachStates(s.(state := NotifyAll(s.plan, s.state, order)), kernel, order);
    forall i | i in doomed
      ensures !Released(s.plan, s.state, i)
    {
      var c :| c in s.plan.conditions[i] && Beyond(s, doomed, c);
      BeyondIsUnmet(s, doomed, c);
    }
  }

  lemma {:induction false} NextKeepsBlocked(s: Sup, step: Step, doomed: set<nat>)
    requires Inv(s) && StepOk(s, step) && Doomed(s, doomed)
    ensures forall i | i in doomed :: Next(s, step).state[i] == BLOCKED
  {
    hide Start, Reap, Deliver, LogAgrees, FdsAgree, PidsAgree, NamesAgree, NoBackoff, WakeOk, Hopeless;
    match step
    case StartStep(kernel) => StartKeepsDoomed(s, kernel, doomed);
    case ReapStep(pid, rc) => ReapStates(s, pid, rc);
    case WakeStep(wake) =>
  }

  lemma {:induction false} HopelessLasts(s: Sup, step: Step, doomed: set<nat>, i: nat)
    requires Inv(s) && StepOk(s, step) && Hopeless(s, doomed, i)
    ensures Hopeless(Next(s, step), doomed, i)
  {
    hide Next, Inv, StepOk, TurnedAway;
    NextRises(s, step);
    var c :| c in s.plan.conditions[i] && Beyond(s, doomed, c);
    if TurnedAway(s, c.id) {
      NextTurnsAway(s, step, c.id);
    }
    assert Beyond(Next(s, step), doomed, c);
  }

  lemma {:induction false} NextKeepsDoomed(s: Sup, step: Step, doomed: set<nat>)
    requires Inv(s) && StepOk(s, step) && Doomed(s, doomed)
    ensures Doomed(Next(s, step), doomed)
  {
    NextKeepsBlocked(s, step, doomed);
    hide Next, Inv, StepOk, Hopeless;
    forall i | i in doomed
      ensures Hopeless(Next(s, step), doomed, i)
    {
      HopelessLasts(s, step, doomed, i);
    }
  }

  // A set of blocked programs each waiting on another member, on a program that
  // ended in the wrong state or on one that was turned away is never released,
  // whatever happens: a cycle, or what hangs on a oneshot that crashed.
  lemma {:induction false} DoomedForever(s: Sup, steps: seq<Step>, doomed: set<nat>)
    requires Inv(s) && RunOk(s, steps) && Doomed(s, doomed)
    ensures Doomed(Run(s, steps), doomed)
    decreases |steps|
  {
    hide Inv, StepOk, Next, Doomed;
    if steps != [] {
      NextKeeps(s, steps[0]);
      NextKeepsDoomed(s, steps[0], doomed);
      DoomedForever(Next(s, steps[0]), steps[1..], doomed);
    }
  }
}
