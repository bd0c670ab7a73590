// From the declared configuration to every run: registration feeds the supervisor,
// and what the log shows is what was declared.
module EndToEnd {
  import opened Lifecycle
  import opened Registration
  import opened Supervisor
  import opened History
  import opened Invariants
  import opened Runs
  import opened StartUp
  import opened EventLoop

  // The plan the supervisor works from.
  function Registered(children: seq<Child>): Plan {
    PlanOf(Register(children, |children|))
  }

  lemma {:induction false} RegisteredWellFormed(children: seq<Child>)
    requires AllFresh(children)
    ensures Registered(children).WellFormed()
    ensures |Registered(children).names| == |children|
  {
    hide Register;
    var after := Register(children, |children|);
    forall p: nat | p < |children|
      ensures after[p].state == BLOCKED || after[p].state == READY
      ensures forall c | c in after[p].conditions :: c.id < |children| && (c.awaited == RUNNING || c.awaited == DONE)
    {
      RegisteredGraph(children, p);
      ReadyAfterRegistration(children, p);
    }
  }

  // The supervisor after registration and with epoll set up.
  ghost function Begin(children: seq<Child>, fd: int): (s: Sup)
    requires AllFresh(children)
    ensures Registered(children).WellFormed() && s == Initial(Registered(children), fd)
    ensures s.Sized() && s.plan == Registered(children)
  {
    RegisteredWellFormed(children);
    Initial(Registered(children), fd)
  }

  // In every run, a gated program is forked only while each program it was declared
  // to wait for is in its declared state, hence after that program's own fork and,
  // for an awaited DONE, after its successful exit.
  lemma {:induction false} ForksFollowDeclarations(children: seq<Child>, s: Sup, k: nat, p: nat, q: nat)
    requires AllFresh(children) && Reachable(Registered(children), s)
    requires p < |children| && DeclaredEdge(children, q, p) && GatedInTime(children, p)
    requires ForkAt(s.log, k, p)
    ensures LastState(s.log[..k], q) == Some(DeclaredState(children, q, p))
    ensures ForkedBefore(s.log, k, q)
    ensures DeclaredState(children, q, p) == DONE ==> SucceededBefore(s.log, k, q)
  {
    hide Register, GatedInTime, DeclaredState, Reachable, LastState;
    RegisteredWellFormed(children);
    ReachableInv(Registered(children), s);
    RegisteredGraph(children, p);
    ReadyAfterRegistration(children, p);
    InvIsLegal(s);
    ForkOrder(s.plan, s.log, p, k, Condition(q, DeclaredState(children, q, p)));
  }

  lemma InvIsLegal(s: Sup)
    requires Inv(s)
    ensures Legal(s.plan, s.log)
  {
  }

  // The documented notion of started, at the moment of release: when a gated program
  // is forked, a program it was declared to follow is DONE if oneshot and RUNNING if
  // simple, exactly when a deciding `after` edge between them joins equal kinds.
  lemma {:induction false} StartedAsDocumented(children: seq<Child>, s: Sup, k: nat, p: nat, q: nat)
    requires AllFresh(children) && Reachable(Registered(children), s)
    requires p < |children| && q < |children| && DeclaredEdge(children, q, p) && GatedInTime(children, p)
    requires ForkAt(s.log, k, p)
    ensures LastState(s.log[..k], q) == Some(StartedState(children[q].kind)) <==>
      (DecidingAfter(children, q, p) ==> children[q].kind == children[p].kind)
  {
    hide GatedInTime, Reachable, LastState, Registered;
    ForksFollowDeclarations(children, s, k, p, q);
  }

  // Only SIGTERM and SIGQUIT are ever sent, and only to pids whose program was forked
  // and has not been reaped.
  lemma {:induction false} SignalsReachOnlyTheLiving(plan: Plan, s: Sup, k: nat)
    requires Reachable(plan, s) && k < |s.log| && s.log[k].Killed?
    ensures s.log[k].pid in Holders(s.log[..k]) && (s.log[k].signo == SIGTERM || s.log[k].signo == SIGQUIT)
  {
    ReachableInv(plan, s);
    InvIsLegal(s);
    hide Reachable, Inv, Legal;
    LegalAt(plan, s.log, k);
  }

  // Every program is forked at most once and exits at most once in any run.
  lemma {:induction false} OncePerProgram(plan: Plan, s: Sup, i: nat, j: nat, k: nat)
    requires Reachable(plan, s) && j < k
    ensures !(ForkAt(s.log, j, i) && ForkAt(s.log, k, i))
    ensures !(ExitAt(s.log, j, i) && ExitAt(s.log, k, i))
  {
    ReachableInv(plan, s);
    InvIsLegal(s);
    AtMostOnce(plan, s.log, i, j, k);
  }

  // ------------------------------------------------ edges that come too late

  // One way the operating system may answer the first start_programs call.
  function FirstGrants(n: nat): seq<Grant> {
    seq(n, i => Grant(i + 1, 2 * i + 4, 2 * i + 5))
  }

  lemma FirstGrantsFresh(plan: Plan)
    requires plan.WellFormed()
    ensures KernelFresh(Initial(plan, 3), FirstGrants(|plan.names|))
  {
  }

  // The first `m` turns of the second loop fork programs below `m` only.
  lemma {:induction false} EarlyTurns(s: Sup, kernel: seq<Grant>, m: nat)
    requires s.Sized() && |kernel| == s.N() && m <= s.N() && s.log == [] && s.loggers == {MAIN_LOGGER}
    ensures var r := StartEach(s, kernel, ListOrder(s.N())[..m]);
      && (forall k | 0 <= k < |r.log| :: r.log[k].Forked? && r.log[k].id < m)
      && (forall i | m <= i < s.N() :: r.state[i] == s.state[i])
      && (forall name | name in r.loggers :: name == MAIN_LOGGER || name in s.plan.names[..m])
  {
    if m != 0 {
      assert ListOrder(s.N())[..m][..m - 1] == ListOrder(s.N())[..m - 1];
      EarlyTurns(s, kernel, m - 1);
      assert s.plan.names[..m] == s.plan.names[..m - 1] + [s.plan.names[m - 1]];
    }
  }

  lemma {:induction false} TurnsExtendLog(s: Sup, kernel: seq<Grant>, order: seq<nat>, m: nat)
    requires s.Sized() && |kernel| == s.N() && Positions(order, s.N()) && m <= |order|
    ensures StartEach(s, kernel, order[..m]).log <= StartEach(s, kernel, order).log
    decreases |order|
  {
    if m == |order| {
      assert order[..m] == order;
    } else {
      var init := order[..|order| - 1];
      assert init[..m] == order[..m];
      TurnsExtendLog(s, kernel, init, m);
    }
  }

  lemma {:induction false} NotYetInLog(log: seq<Entry>, q: nat)
    requires forall k | 0 <= k < |log| :: log[k].Forked? && log[k].id != q
    ensures LastState(log, q) == None
  {
    if log != [] {
      NotYetInLog(log[..|log| - 1], q);
    }
  }

  // A program that registration left READY is forked by the first call, before
  // anything happened to the programs listed after it.
  lemma {:induction false} ReadyForkedFirst(s: Sup, kernel: seq<Grant>, p: nat, q: nat) returns (k: nat)
    requires s.Sized() && s.plan.WellFormed() && s.plan.DistinctNames() && |kernel| == s.N()
    requires s.log == [] && s.loggers == {MAIN_LOGGER}
    requires p < q < s.N() && s.state[p] == READY
    ensures ForkAt(Start(s, kernel).log, k, p)
    ensures LastState(Start(s, kernel).log[..k], q) == None
  {
    hide NotifyAll, StartEach, Released, LastState;
    var order := ListOrder(s.N());
    var mid := s.(state := NotifyAll(s.plan, s.state, order));
    NotifyAllAtOnce(s.plan, s.state, order);
    OnlyWaitingReleased(s, p);
    assert mid.state[p] == READY;
    EarlyTurns(mid, kernel, p);
    var early := StartEach(mid, kernel, order[..p]);
    assert s.plan.names[p] !in early.loggers;
    var turn := StartEach(mid, kernel, order[..p + 1]);
    assert turn == StartOne(early, kernel, p) by {
      StartNext(mid, kernel, order, p);
    }
    TurnsExtendLog(mid, kernel, order, p + 1);
    k := |early.log|;
    assert turn.log[k] == Forked(p, kernel[p].pid);
    assert Start(s, kernel).log[..k] == early.log;
    NotYetInLog(early.log, q);
  }

  lemma OnlyWaitingReleased(s: Sup, p: nat)
    requires s.Sized() && p < s.N() && s.state[p] == READY
    ensures !Released(s.plan, s.state, p)
  {
  }

  // In every run, `p` is forked only while `q` is in its declared state.
  ghost predicate AlwaysHonoured(children: seq<Child>, q: nat, p: nat)
    requires q < |children| && p < |children|
  {
    forall s: Sup, k: nat | Reachable(Registered(children), s) && ForkAt(s.log, k, p) ::
      LastState(s.log[..k], q) == Some(DeclaredState(children, q, p))
  }

  // A declared edge is honoured in every run exactly when its target was gated in
  // time: a `before` from a program listed later is declared in vain.
  lemma {:induction false} HonouredExactly(children: seq<Child>, q: nat, p: nat)
    requires AllFresh(children) && Registered(children).DistinctNames()
    requires p < |children| && DeclaredEdge(children, q, p)
    ensures AlwaysHonoured(children, q, p) <==> GatedInTime(children, p)
  {
    hide Register, DeclaredState, Reachable, LastState, Start, KernelFresh, Run, RunOk;
    if GatedInTime(children, p) {
      forall s: Sup, k: nat | Reachable(Registered(children), s) && ForkAt(s.log, k, p)
        ensures LastState(s.log[..k], q) == Some(DeclaredState(children, q, p))
      {
        ForksFollowDeclarations(children, s, k, p, q);
      }
    } else {
      LateEdge(children, q, p);
      var plan := Registered(children);
      RegisteredWellFormed(children);
      ReadyAfterRegistration(children, p);
      var kernel := FirstGrants(|plan.names|);
      var k := ReadyForkedFirst(Initial(plan, 3), kernel, p, q);
      FirstGrantsFresh(plan);
      FirstCallReachable(plan, kernel);
      assert ForkAt(Start(Initial(plan, 3), kernel).log, k, p);
    }
  }

  lemma LateEdge(children: seq<Child>, q: nat, p: nat)
    requires p < |children| && DeclaredEdge(children, q, p) && !GatedInTime(children, p)
    ensures p < q < |children|
  {
  }

  lemma {:induction false} FirstCallReachable(plan: Plan, kernel: seq<Grant>)
    requires plan.WellFormed() && KernelFresh(Initial(plan, 3), kernel)
    ensures |kernel| == |plan.names| && Reachable(plan, Start(Initial(plan, 3), kernel))
  {
    hide Start, Run, RunOk;
    OneStep(Initial(plan, 3), StartStep(kernel));
  }

  // A wait that was missed stays missed: once the awaited program has terminated in
  // another state (the oneshot that crashed, the simple program that exited first) the
  // waiting program is blocked in whatever run follows.
  lemma {:induction false} MissedForever(children: seq<Child>, s: Sup, p: nat, q: nat, steps: seq<Step>)
    requires AllFresh(children) && Reachable(Registered(children), s) && RunOk(s, steps)
    requires p < |children| == s.N() && DeclaredEdge(children, q, p) && s.Sized() && s.state[p] == BLOCKED
    requires Terminated(s.state[q]) && s.state[q] != DeclaredState(children, q, p)
    ensures Run(s, steps).Sized() && Run(s, steps).state[p] == BLOCKED
  {
    hide Register, DeclaredState, Reachable, RunOk, Run, Inv;
    ReachableInv(Registered(children), s);
    RegisteredGraph(children, p);
    var c := Condition(q, DeclaredState(children, q, p));
    assert c in s.plan.conditions[p];
    assert Beyond(s, {p}, c);
    DoomedForever(s, steps, {p});
    assert p in {p};
  }
}
