// Small configurations in which the code does what its documentation does not say,
// each followed through the event loop as far as that takes.
module Instances {
  import opened Lifecycle
  import opened Registration
  import opened Supervisor
  import opened Invariants
  import opened Runs
  import opened StartUp
  import opened EventLoop
  import opened EndToEnd
  import opened Scripts
  import opened Confluence

  // ------------------------------------------------------------------ registration

  // A oneshot listed after the program it wants to precede.
  function SetupListedLast(): seq<Child> {
    [Child("server", SIMPLE, [], [], [], BLOCKED), Child("setup", ONESHOT, ["server"], [], [], BLOCKED)]
  }

  // The server has its condition and yet does not wait for it.
  lemma {:induction false} SetupListedLastIsIgnored()
    ensures var children := SetupListedLast();
      && AllFresh(children) && DeclaredEdge(children, 1, 0)
      && Condition(1, DONE) in Register(children, 2)[0].conditions
      && Register(children, 2)[0].state == READY
  {
    hide Register;
    var children := SetupListedLast();
    assert children[1].before == ["server"] && "server" in children[1].before;
    assert BeforeEdge(children, 1, 0);
    RegisteredGraph(children, 0);
    ReadyAfterRegistration(children, 0);
    assert children[0].before == [] && children[0].after == [];
  }

  // A simple program listed after a oneshot: the oneshot's `after` edge decides.
  function SimpleAfterOneshot(): seq<Child> {
    [Child("setup", ONESHOT, [], [], [], BLOCKED), Child("server", SIMPLE, [], ["setup"], [], BLOCKED)]
  }

  // Its condition disagrees with the documentation: the server waits for setup to be
  // running, not for it to have finished.
  lemma {:induction false} SimpleAfterOneshotDisagrees()
    ensures var children := SimpleAfterOneshot();
      && AllFresh(children) && DecidingAfter(children, 0, 1)
      && DeclaredState(children, 0, 1) == RUNNING && StartedState(children[0].kind) == DONE
  {
    var children := SimpleAfterOneshot();
    assert children[1].after == ["setup"] && "setup" in children[1].after;
    assert children[0].before == [] && !BeforeEdge(children, 0, 1);
  }

  // The only condition of a program with one declared edge.
  lemma {:induction false} OneCondition(children: seq<Child>, p: nat, q: nat)
    requires AllFresh(children) && p < |children| && q < |children| && DeclaredEdge(children, q, p)
    requires forall r: nat | r != q :: !DeclaredEdge(children, r, p)
    ensures Register(children, |children|)[p].conditions == [Condition(q, DeclaredState(children, q, p))]
  {
    hide Register, DeclaredEdge, DeclaredState;
    RegisteredGraph(children, p);
    var conditions := Register(children, |children|)[p].conditions;
    assert Condition(q, DeclaredState(children, q, p)) in conditions;
    assert forall k | 0 <= k < |conditions| :: conditions[k] in conditions && conditions[k].id == q;
    if |conditions| > 1 {
      TwoDiffer(conditions, q);
      assert false;
    }
  }

  lemma TwoDiffer(conditions: seq<Condition>, q: nat)
    requires NoDuplicates(conditions) && |conditions| > 1
    ensures exists k :: 0 <= k < |conditions| && conditions[k].id != q
  {
    assert conditions[0].id != conditions[1].id;
  }

  lemma SomethingListed(conditions: seq<Condition>)
    requires conditions != []
    ensures exists c :: c in conditions
  {
    assert conditions[0] in conditions;
  }

  lemma {:induction false} NoCondition(children: seq<Child>, p: nat)
    requires AllFresh(children) && p < |children| && forall r: nat :: !DeclaredEdge(children, r, p)
    ensures Register(children, |children|)[p].conditions == [] && Register(children, |children|)[p].state == READY
  {
    hide Register;
    ReadyAfterRegistration(children, p);
    forall r: nat | r < |children|
      ensures !BeforeEdge(children, r, p) && !AfterEdge(children, r, p)
    {
      assert !DeclaredEdge(children, r, p);
    }
    RegisteredGraph(children, p);
    var conditions := Register(children, |children|)[p].conditions;
    if conditions != [] {
      SomethingListed(conditions);
      assert false;
    }
  }

  // ------------------------------------------------------ a oneshot that crashes

  // The oneshot of issue 9 and the program behind it.
  function CrashingSetup(): seq<Child> {
    [Child("setup", ONESHOT, ["server"], [], [], BLOCKED), Child("server", SIMPLE, [], [], [], BLOCKED)]
  }

  lemma {:induction false} CrashingSetupPlan()
    ensures AllFresh(CrashingSetup()) && DeclaredEdge(CrashingSetup(), 0, 1)
    ensures DeclaredState(CrashingSetup(), 0, 1) == DONE
    ensures Registered(CrashingSetup()) == Plan(["setup", "server"], [[], [Condition(0, DONE)]], [READY, BLOCKED])
  {
    hide Register;
    var children := CrashingSetup();
    assert children[0].before == ["server"] && "server" in children[0].before;
    assert children[0].after == [] && children[1].after == [] && children[1].before == [];
    assert BeforeEdge(children, 0, 1) && !BeforeEdge(children, 0, 0);
    NoCondition(children, 0);
    OneCondition(children, 1, 0);
    ReadyAfterRegistration(children, 1);
    RegisterKeeps(children, 2, 0);
    RegisterKeeps(children, 2, 1);
    var plan := Registered(children);
    assert plan.names == ["setup", "server"];
    assert plan.conditions == [[], [Condition(0, DONE)]];
    assert plan.init == [READY, BLOCKED];
  }

  lemma {:induction false} CrashingSetupSteps()
    ensures var plan := Plan(["setup", "server"], [[], [Condition(0, DONE)]], [READY, BLOCKED]);
      && Stepped(plan, plan.init) == [RUNNING, BLOCKED]
      && Stepped(plan, [RUNNING, BLOCKED]) == [RUNNING, BLOCKED]
      && Stepped(plan, [CRASHED, BLOCKED]) == [CRASHED, BLOCKED]
  {
    var plan := Plan(["setup", "server"], [[], [Condition(0, DONE)]], [READY, BLOCKED]);
    assert Condition(0, DONE) in plan.conditions[1];
  }

  // The loop comes to the point: it returns with the server waiting, and whatever
  // would follow the server stays blocked.
  lemma {:induction false} CrashingSetupStrands() returns (s: Sup)
    ensures Follows(Registered(CrashingSetup()), [Script(2, [(1, 1)], false)], s, IdleReturn)
    ensures s.state == [CRASHED, BLOCKED]
    ensures forall steps | RunOk(s, steps) :: Run(s, steps).Sized() && Run(s, steps).state[1] == BLOCKED
  {
    var children := CrashingSetup();
    CrashingSetupPlan();
    var plan := Registered(children);
    hide Scripted, Follows, Registered;
    CrashingSetupSteps();
    hide Stepped;
    var first := FollowsFirst(plan);
    var verdict;
    s, verdict := FollowsNext(plan, [], first, [(1, 1)], false);
    ReapedOnce([RUNNING, BLOCKED], 0, 1);
    assert [RUNNING, BLOCKED][0 := CRASHED] == [CRASHED, BLOCKED];
    assert s.state == [CRASHED, BLOCKED];
    assert [] + [Script(2, [(1, 1)], false)] == [Script(2, [(1, 1)], false)];
    FollowsReaches(plan, [Script(2, [(1, 1)], false)], s, verdict);
    forall steps | RunOk(s, steps)
      ensures Run(s, steps).Sized() && Run(s, steps).state[1] == BLOCKED
    {
      MissedForever(children, s, 1, 0, steps);
    }
  }

  // ------------------------------------- a simple program that exits too soon

  // Three simple programs, each after the one before it.
  function ChainOfThree(): seq<Child> {
    [Child("db", SIMPLE, [], [], [], BLOCKED), Child("web", SIMPLE, [], ["db"], [], BLOCKED),
     Child("proxy", SIMPLE, [], ["web"], [], BLOCKED)]
  }

  function ChainPlan(): Plan {
    Plan(["db", "web", "proxy"], [[], [Condition(0, RUNNING)], [Condition(1, RUNNING)]], [READY, BLOCKED, BLOCKED])
  }

  lemma {:induction false} ChainOfThreePlan()
    ensures AllFresh(ChainOfThree()) && DeclaredEdge(ChainOfThree(), 1, 2)
    ensures DeclaredState(ChainOfThree(), 1, 2) == RUNNING
    ensures Registered(ChainOfThree()) == ChainPlan()
  {
    hide Register;
    var children := ChainOfThree();
    assert children[1].after == ["db"] && "db" in children[1].after;
    assert children[2].after == ["web"] && "web" in children[2].after;
    assert children[0].after == [] && forall i | 0 <= i < 3 :: children[i].before == [];
    assert AfterEdge(children, 0, 1) && AfterEdge(children, 1, 2);
    NoCondition(children, 0);
    OneCondition(children, 1, 0);
    OneCondition(children, 2, 1);
    ReadyAfterRegistration(children, 1);
    ReadyAfterRegistration(children, 2);
    RegisterKeeps(children, 3, 0);
    RegisterKeeps(children, 3, 1);
    RegisterKeeps(children, 3, 2);
    var plan := Registered(children);
    assert plan.names == ChainPlan().names;
    assert plan.conditions == ChainPlan().conditions;
    assert plan.init == ChainPlan().init;
  }

  lemma {:induction false} ChainSteps()
    ensures var plan := ChainPlan();
      && Stepped(plan, plan.init) == [RUNNING, BLOCKED, BLOCKED]
      && Stepped(plan, [RUNNING, BLOCKED, BLOCKED]) == [RUNNING, RUNNING, BLOCKED]
      && Stepped(plan, [RUNNING, DONE, BLOCKED]) == [RUNNING, DONE, BLOCKED]
  {
    var plan := ChainPlan();
    assert Condition(0, RUNNING) in plan.conditions[1] && Condition(1, RUNNING) in plan.conditions[2];
  }

  // The second program is forked by the call at the top of a pass and reaped in the
  // same pass: the third is not looked at in between, and is blocked for good.
  lemma {:induction false} ThirdInLineMissed() returns (s: Sup)
    ensures Follows(Registered(ChainOfThree()), [Script(3, [(2, 0)], false)], s, Looping)
    ensures s.state == [RUNNING, DONE, BLOCKED]
    ensures forall steps | RunOk(s, steps) :: Run(s, steps).Sized() && Run(s, steps).state[2] == BLOCKED
  {
    var children := ChainOfThree();
    ChainOfThreePlan();
    var plan := Registered(children);
    ChainSteps();
    hide Scripted, Follows, Registered, Stepped;
    var first := FollowsFirst(plan);
    var verdict;
    s, verdict := FollowsNext(plan, [], first, [(2, 0)], false);
    ReapedOnce([RUNNING, RUNNING, BLOCKED], 1, 0);
    assert [RUNNING, RUNNING, BLOCKED][1 := DONE] == [RUNNING, DONE, BLOCKED];
    assert s.state == [RUNNING, DONE, BLOCKED] && s.state[0] == RUNNING;
    assert [] + [Script(3, [(2, 0)], false)] == [Script(3, [(2, 0)], false)];
    FollowsReaches(plan, [Script(3, [(2, 0)], false)], s, verdict);
    forall steps | RunOk(s, steps)
      ensures Run(s, steps).Sized() && Run(s, steps).state[2] == BLOCKED
    {
      MissedForever(children, s, 2, 1, steps);
    }
  }

  lemma {:induction false} ChainStepsOn()
    ensures var plan := ChainPlan();
      && Stepped(plan, [RUNNING, RUNNING, BLOCKED]) == [RUNNING, RUNNING, RUNNING]
      && Stepped(plan, [RUNNING, RUNNING, RUNNING]) == [RUNNING, RUNNING, RUNNING]
      && Stepped(plan, [DONE, DONE, DONE]) == [DONE, DONE, DONE]
      && Stepped(plan, [DONE, DONE, BLOCKED]) == [DONE, DONE, BLOCKED]
  {
    var plan := ChainPlan();
    assert Condition(1, RUNNING) in plan.conditions[2];
  }

  lemma {:induction false} ChainReaps()
    ensures ReapedAll([RUNNING, RUNNING, BLOCKED], []) == [RUNNING, RUNNING, BLOCKED]
    ensures ReapedAll([RUNNING, RUNNING, RUNNING], [(1, 0), (2, 0), (3, 0)]) == [DONE, DONE, DONE]
    ensures ReapedAll([RUNNING, RUNNING, BLOCKED], [(2, 0)]) == [RUNNING, DONE, BLOCKED]
    ensures ReapedAll([RUNNING, DONE, BLOCKED], [(1, 0)]) == [DONE, DONE, BLOCKED]
  {
    assert [(1, 0), (2, 0), (3, 0)][1..] == [(2, 0), (3, 0)] && [(2, 0), (3, 0)][1..] == [(3, 0)];
    assert [RUNNING, RUNNING, RUNNING][0 := DONE] == [DONE, RUNNING, RUNNING];
    assert [DONE, RUNNING, RUNNING][1 := DONE] == [DONE, DONE, RUNNING];
    ReapedOnce([DONE, DONE, RUNNING], 2, 0);
    assert [DONE, DONE, RUNNING][2 := DONE] == [DONE, DONE, DONE];
    ReapedOnce([RUNNING, RUNNING, BLOCKED], 1, 0);
    assert [RUNNING, RUNNING, BLOCKED][1 := DONE] == [RUNNING, DONE, BLOCKED];
    ReapedOnce([RUNNING, DONE, BLOCKED], 0, 0);
    assert [RUNNING, DONE, BLOCKED][0 := DONE] == [DONE, DONE, BLOCKED];
  }

  // Everybody is started before anybody exits.
  lemma {:induction false} ChainSeenThrough() returns (s: Sup)
    ensures Follows(Registered(ChainOfThree()), [Script(3, [], false), Script(3, [(1, 0), (2, 0), (3, 0)], false)],
                    s, IdleReturn)
    ensures ExitsAs(s.log, [0, 0, 0]) && s.state == [DONE, DONE, DONE]
  {
    ChainOfThreePlan();
    var plan := Registered(ChainOfThree());
    ChainSteps();
    ChainStepsOn();
    ChainReaps();
    hide Scripted, Follows, Registered, Stepped, ReapedAll;
    var verdict;
    s := FollowsFirst(plan);
    s, verdict := FollowsNext(plan, [], s, [], false);
    assert s.state[0] == RUNNING && [] + [Script(3, [], false)] == [Script(3, [], false)];
    s, verdict := FollowsNext(plan, [Script(3, [], false)], s, [(1, 0), (2, 0), (3, 0)], false);
    assert [Script(3, [], false)] + [Script(3, [(1, 0), (2, 0), (3, 0)], false)] ==
      [Script(3, [], false), Script(3, [(1, 0), (2, 0), (3, 0)], false)];
    AllZero(s);
  }

  // The second exits before the third is looked at.
  lemma {:induction false} ChainLeftBehind() returns (s: Sup)
    ensures Follows(Registered(ChainOfThree()), [Script(3, [(2, 0)], false), Script(3, [(1, 0)], false)], s, IdleReturn)
    ensures ExitsAs(s.log, [0, 0, 0]) && s.state == [DONE, DONE, BLOCKED]
  {
    ChainOfThreePlan();
    var plan := Registered(ChainOfThree());
    ChainSteps();
    ChainStepsOn();
    ChainReaps();
    hide Scripted, Follows, Registered, Stepped, ReapedAll;
    var verdict;
    s := FollowsFirst(plan);
    s, verdict := FollowsNext(plan, [], s, [(2, 0)], false);
    assert s.state[0] == RUNNING && [] + [Script(3, [(2, 0)], false)] == [Script(3, [(2, 0)], false)];
    s, verdict := FollowsNext(plan, [Script(3, [(2, 0)], false)], s, [(1, 0)], false);
    assert [Script(3, [(2, 0)], false)] + [Script(3, [(1, 0)], false)] ==
      [Script(3, [(2, 0)], false), Script(3, [(1, 0)], false)];
    AllZero(s);
  }

  // With waits for RUNNING the timing does decide: the same three programs, all of them
  // to exit with status zero, are seen through or not.
  lemma {:induction false} TimingDecides() returns (ticks: seq<Tick>, s: Sup, ticks': seq<Tick>, s': Sup)
    ensures Follows(Registered(ChainOfThree()), ticks, s, IdleReturn) && ExitsAs(s.log, [0, 0, 0])
    ensures Follows(Registered(ChainOfThree()), ticks', s', IdleReturn) && ExitsAs(s'.log, [0, 0, 0])
    ensures s.state == [DONE, DONE, DONE] && s'.state == [DONE, DONE, BLOCKED]
  {
    hide Follows, ExitsAs, Registered;
    s := ChainSeenThrough();
    ticks := [Script(3, [], false), Script(3, [(1, 0), (2, 0), (3, 0)], false)];
    s' := ChainLeftBehind();
    ticks' := [Script(3, [(2, 0)], false), Script(3, [(1, 0)], false)];
  }

  lemma AllZero(s: Sup)
    requires Scripted(s) && s.Sized() && s.N() == 3 && forall i: nat | i < 3 :: s.state[i] != CRASHED
    ensures ExitsAs(s.log, [0, 0, 0])
  {
    hide Inv, ExitsAs;
    NobodyCrashed(s);
    assert seq(3, _ => 0) == [0, 0, 0];
  }

  // --------------------------------------------------- two programs of one name

  function Namesakes(): seq<Child> {
    [Child("web", SIMPLE, [], [], [], BLOCKED), Child("web", SIMPLE, [], [], [], BLOCKED)]
  }

  lemma {:induction false} NamesakesPlan()
    ensures AllFresh(Namesakes())
    ensures Registered(Namesakes()) == Plan(["web", "web"], [[], []], [READY, READY])
  {
    hide Register;
    var children := Namesakes();
    assert forall i | 0 <= i < 2 :: children[i].before == [] && children[i].after == [];
    NoCondition(children, 0);
    NoCondition(children, 1);
    RegisterKeeps(children, 2, 0);
    RegisterKeeps(children, 2, 1);
    var plan := Registered(children);
    assert plan.names == ["web", "web"];
    assert plan.conditions == [[], []];
    assert plan.init == [READY, READY];
  }

  // The first gets the logger and is forked; the second is READY for ever.
  lemma {:induction false} SecondNamesakeNeverStarts(fd: int, first: seq<Grant>, steps: seq<Step>)
    requires AllFresh(Namesakes()) && KernelFresh(Begin(Namesakes(), fd), first)
    requires RunOk(Start(Begin(Namesakes(), fd), first), steps)
    ensures var s := Start(Begin(Namesakes(), fd), first);
      s.state == [RUNNING, READY] && Run(s, steps).Sized() && Run(s, steps).state[1] == READY
  {
    NamesakesPlan();
    hide Registered, Start, KernelFresh, Run, RunOk, Inv;
    var s := Begin(Namesakes(), fd);
    InitialInv(s.plan, fd);
    KernelSize(s, first);
    StartExactly(s, first, 0);
    StartExactly(s, first, 1);
    assert s.plan.names[0] == s.plan.names[1] && Due(s, 0) && Due(s, 1);
    assert s.plan.names[0] == "web";
    LeftReadyForever(s, first, 1, steps);
  }

  // --------------------------------------------------- a start while quitting

  // A worker, a oneshot, and a program the oneshot is to precede.
  function LateStarter(): seq<Child> {
    [Child("job", SIMPLE, [], [], [], BLOCKED), Child("setup", ONESHOT, ["server"], [], [], BLOCKED),
     Child("server", SIMPLE, [], [], [], BLOCKED)]
  }

  function LatePlan(): Plan {
    Plan(["job", "setup", "server"], [[], [], [Condition(1, DONE)]], [READY, READY, BLOCKED])
  }

  lemma {:induction false} LateStarterPlan()
    ensures AllFresh(LateStarter()) && Registered(LateStarter()) == LatePlan()
  {
    hide Register;
    var children := LateStarter();
    assert children[1].before == ["server"] && "server" in children[1].before;
    assert children[0].before == [] && children[2].before == [] && forall i | 0 <= i < 3 :: children[i].after == [];
    assert BeforeEdge(children, 1, 2) && !BeforeEdge(children, 1, 0) && !BeforeEdge(children, 1, 1);
    NoCondition(children, 0);
    NoCondition(children, 1);
    OneCondition(children, 2, 1);
    ReadyAfterRegistration(children, 2);
    RegisterKeeps(children, 3, 0);
    RegisterKeeps(children, 3, 1);
    RegisterKeeps(children, 3, 2);
    var plan := Registered(children);
    assert plan.names == LatePlan().names;
    assert plan.conditions == LatePlan().conditions;
    assert plan.init == LatePlan().init;
  }

  lemma {:induction false} LateSteps()
    ensures var plan := LatePlan();
      && Stepped(plan, plan.init) == [RUNNING, RUNNING, BLOCKED]
      && Stepped(plan, [RUNNING, RUNNING, BLOCKED]) == [RUNNING, RUNNING, BLOCKED]
      && Stepped(plan, [RUNNING, DONE, BLOCKED]) == [RUNNING, DONE, RUNNING]
  {
    var plan := LatePlan();
    assert Condition(1, DONE) in plan.conditions[2];
  }

  // The oneshot finishes and SIGINT is read in one pass; the next pass starts the
  // server all the same, and the loop goes on for its sake when the worker is gone.
  lemma {:induction false} StartedWhileQuitting() returns (told: Sup, s: Sup)
    ensures Follows(Registered(LateStarter()), [Script(3, [(2, 0)], true)], told, Looping)
    ensures told.shouldQuit && told.state == [RUNNING, DONE, BLOCKED]
    ensures Follows(Registered(LateStarter()), [Script(3, [(2, 0)], true), Script(3, [(1, 0)], false)], s, Looping)
    ensures s.shouldQuit && s.state == [DONE, DONE, RUNNING]
  {
    LateStarterPlan();
    var plan := Registered(LateStarter());
    LateSteps();
    hide Scripted, Follows, Registered, Stepped;
    var first := FollowsFirst(plan);
    var verdict;
    told, verdict := FollowsNext(plan, [], first, [(2, 0)], true);
    ReapedOnce([RUNNING, RUNNING, BLOCKED], 1, 0);
    assert [RUNNING, RUNNING, BLOCKED][1 := DONE] == [RUNNING, DONE, BLOCKED];
    assert told.state[0] == RUNNING;
    assert [] + [Script(3, [(2, 0)], true)] == [Script(3, [(2, 0)], true)];
    s, verdict := FollowsNext(plan, [Script(3, [(2, 0)], true)], told, [(1, 0)], false);
    ReapedOnce([RUNNING, DONE, RUNNING], 0, 0);
    assert [RUNNING, DONE, RUNNING][0 := DONE] == [DONE, DONE, RUNNING];
    assert s.state[2] == RUNNING;
    assert [Script(3, [(2, 0)], true)] + [Script(3, [(1, 0)], false)] ==
      [Script(3, [(2, 0)], true), Script(3, [(1, 0)], false)];
  }
}
