// The supervisor as a value: its bookkeeping maps, the state of every program and
// the log of what it did, with one function per operation.  Each function follows
// its operation branch by branch; the classes are proved to compute them.
module Supervisor {
  import opened Lifecycle
  import opened Collections
  import opened Trim
  import Registration

  // ---------------------------------------------------------------------- data

  // What registration fixed once and for all.  Ids are list positions.
  datatype Plan = Plan(names: seq<string>, conditions: seq<seq<Condition>>, init: seq<State>) {
    predicate WellFormed() {
      && |conditions| == |names| && |init| == |names|
      && (forall i | 0 <= i < |init| :: init[i] == BLOCKED || init[i] == READY)
      && (forall i | 0 <= i < |conditions| :: forall c | c in conditions[i] ::
           c.id < |names| && (c.awaited == RUNNING || c.awaited == DONE))
    }

    // No two programs share a name, and none is called like the main logger.
    predicate DistinctNames() {
      forall i | 0 <= i < |names| :: names[i] != MAIN_LOGGER && forall j | 0 <= j < i :: names[j] != names[i]
    }
  }

  function PlanOf(children: seq<Registration.Child>): Plan {
    Plan(seq(|children|, i requires 0 <= i < |children| => children[i].name),
         seq(|children|, i requires 0 <= i < |children| => children[i].conditions),
         seq(|children|, i requires 0 <= i < |children| => children[i].state))
  }

  const MAIN_LOGGER := "scinit"

  // What fork() and pipe() hand out for one program: pid and the two read ends.
  datatype Grant = Grant(pid: int, out: int, err: int)

  const NO_GRANT := Grant(-1, -1, -1)

  type Signal = nat

  const SIGINT: Signal := 2
  const SIGQUIT: Signal := 3
  const SIGTERM: Signal := 15
  const SIGCHLD: Signal := 17

  // What setup_signal_handlers has the signal descriptor deliver.
  const SIGNAL_MASK: set<Signal> := {SIGCHLD, SIGINT, SIGQUIT}

  // One event of an epoll_wait batch.  `signo` is what the signal descriptor would
  // deliver, `data` what read() would put into the buffer.
  datatype Wake = Wake(fd: int, readable: bool, hangup: bool, signo: Signal, data: seq<char>)

  // What the supervisor did to the outside world, in order.
  datatype Entry =
    | Forked(id: nat, pid: int)
    | Exited(id: nat, pid: int, rc: int)
    | Killed(pid: int, signo: Signal)
    | Printed(id: nat, fdType: FdType, text: string)

  datatype Sup = Sup(
    plan: Plan,
    state: seq<State>,
    grant: seq<Grant>,
    idForPid: map<int, nat>,
    idForFd: map<int, nat>,
    fdType: map<int, FdType>,
    numFdForId: map<nat, nat>,
    interest: set<int>,       // what epoll watches
    signalFd: int,
    running: int,
    shouldQuit: bool,
    aborted: bool,            // an exception has left the event loop
    loggers: set<string>,     // names registered with the logging library
    log: seq<Entry>)
  {
    function N(): nat { |plan.names| }

    predicate Sized() {
      |state| == N() && |grant| == N() && |plan.conditions| == N() && |plan.init| == N()
    }
  }

  function Initial(plan: Plan, signalFd: int): (s: Sup)
    requires plan.WellFormed()
    ensures s.Sized()
  {
    Sup(plan, plan.init, seq(|plan.names|, _ => NO_GRANT), map[], map[], map[], map[],
        {signalFd}, signalFd, 0, false, false, {MAIN_LOGGER}, [])
  }

  // Positions 0, 1, ..., n - 1: the order of the program list.
  function ListOrder(n: nat): (r: seq<nat>)
    ensures |r| == n && forall k | 0 <= k < n :: r[k] == k
  {
    seq(n, k => k)
  }

  predicate Positions(order: seq<nat>, n: nat) {
    forall k | 0 <= k < |order| :: order[k] < n
  }

  // ------------------------------------------------------------ start_programs

  predicate Met(state: seq<State>, c: Condition) {
    c.id < |state| && state[c.id] == c.awaited
  }

  // A blocked program all of whose conditions hold right now.
  predicate Released(plan: Plan, state: seq<State>, i: nat)
    requires i < |state| == |plan.conditions|
  {
    state[i] == BLOCKED && forall c | c in plan.conditions[i] :: Met(state, c)
  }

  function Notify(plan: Plan, state: seq<State>, i: nat): (r: seq<State>)
    requires i < |state| == |plan.conditions|
    ensures |r| == |state|
  {
    if Released(plan, state, i) then state[i := READY] else state
  }

  // The first loop, in place: later programs see what earlier ones became.
  function NotifyAll(plan: Plan, state: seq<State>, order: seq<nat>): (r: seq<State>)
    requires |state| == |plan.conditions| && Positions(order, |state|)
    ensures |r| == |state|
  {
    if order == [] then state
    else Notify(plan, NotifyAll(plan, state, order[..|order| - 1]), order[|order| - 1])
  }

  // One turn of the second loop.  Registering a logger under a taken name throws,
  // and then the program is passed over.
  function StartOne(s: Sup, kernel: seq<Grant>, i: nat): (r: Sup)
    requires s.Sized() && i < s.N() == |kernel|
    ensures r.Sized() && r.plan == s.plan && r.signalFd == s.signalFd
    ensures r.shouldQuit == s.shouldQuit && r.aborted == s.aborted && s.loggers <= r.loggers
  {
    var g := kernel[i];
    if s.state[i] != READY || s.plan.names[i] in s.loggers then s
    else s.(
      loggers := s.loggers + {s.plan.names[i]},
      state := s.state[i := RUNNING],
      grant := s.grant[i := g],
      idForPid := s.idForPid[g.pid := i],
      interest := s.interest + {g.out, g.err},
      idForFd := s.idForFd[g.out := i][g.err := i],
      fdType := s.fdType[g.out := STDOUT][g.err := STDERR],
      numFdForId := s.numFdForId[i := 2],
      running := s.running + 1,
      log := s.log + [Forked(i, g.pid)])
  }

  function StartEach(s: Sup, kernel: seq<Grant>, order: seq<nat>): (r: Sup)
    requires s.Sized() && s.N() == |kernel| && Positions(order, s.N())
    ensures r.Sized() && r.plan == s.plan && r.signalFd == s.signalFd
    ensures r.shouldQuit == s.shouldQuit && r.aborted == s.aborted && s.loggers <= r.loggers
  {
    if order == [] then s
    else StartOne(StartEach(s, kernel, order[..|order| - 1]), kernel, order[|order| - 1])
  }

  function StartIn(s: Sup, kernel: seq<Grant>, order: seq<nat>): (r: Sup)
    requires s.Sized() && s.N() == |kernel| && Positions(order, s.N())
    ensures r.Sized() && r.plan == s.plan && r.signalFd == s.signalFd
    ensures r.shouldQuit == s.shouldQuit && r.aborted == s.aborted && s.loggers <= r.loggers
  {
    StartEach(s.(state := NotifyAll(s.plan, s.state, order)), kernel, order)
  }

  function Start(s: Sup, kernel: seq<Grant>): (r: Sup)
    requires s.Sized() && s.N() == |kernel|
    ensures r.Sized() && r.plan == s.plan && r.signalFd == s.signalFd
    ensures r.shouldQuit == s.shouldQuit && r.aborted == s.aborted && s.loggers <= r.loggers
  {
    StartIn(s, kernel, ListOrder(s.N()))
  }

  // ---------------------------------------------------------- sigchld_received

  // A pid that is not one of ours is a zombie and changes nothing.
  function Reap(s: Sup, pid: int, rc: int): (r: Sup)
    requires s.Sized()
    ensures r.Sized() && r.plan == s.plan && r.signalFd == s.signalFd
    ensures r.shouldQuit == s.shouldQuit && r.aborted == s.aborted && s.loggers <= r.loggers
  {
    if pid !in s.idForPid then s
    else
      var id := s.idForPid[pid];
      s.(running := s.running - 1,
         state := if id < |s.state| then s.state[id := ExitState(rc)] else s.state,
         idForPid := s.idForPid - {pid},
         log := s.log + [Exited(id, pid, rc)])
  }

  // ----------------------------------------------------------- signal_received

  // SIGINT is turned into SIGTERM before it is passed on.
  function Forwarded(signo: Signal): Signal {
    if signo == SIGINT then SIGTERM else signo
  }

  function Kills(pids: seq<int>, signo: Signal): (r: seq<Entry>)
    ensures |r| == |pids| && forall k | 0 <= k < |r| :: r[k] == Killed(pids[k], signo)
  {
    seq(|pids|, k requires 0 <= k < |pids| => Killed(pids[k], signo))
  }

  // `signo & SIGTERM` and `signo & SIGQUIT`: SIGTERM has the four lowest bits set,
  // SIGQUIT the two lowest.
  predicate AsksToQuit(signo: Signal) {
    signo % 16 != 0 || signo % 4 != 0
  }

  ghost function Forward(s: Sup, signo: Signal): (r: Sup)
    requires s.Sized()
    ensures r.Sized() && r.plan == s.plan && r.state == s.state && r.grant == s.grant && r.signalFd == s.signalFd
    ensures s.shouldQuit ==> r.shouldQuit
    ensures s.loggers <= r.loggers && r.idForFd == s.idForFd && r.interest == s.interest
  {
    if signo == SIGCHLD then s
    else
      var sig := Forwarded(signo);
      s.(log := s.log + Kills(AscendingNumbers(s.idForPid.Keys), sig),
         shouldQuit := s.shouldQuit || AsksToQuit(sig))
  }

  // ------------------------------------------------------------ event_received

  const UINT := 0x1_0000_0000

  // operator[] of a map whose default value is zero.
  function GetOr0<K>(m: map<K, nat>, k: K): nat {
    if k in m then m[k] else 0
  }

  // Unsigned subtraction: below zero it wraps around.
  function Decrement(x: nat): nat {
    (x - 1) % UINT
  }

  function Hangup(s: Sup, fd: int): (r: Sup)
    requires s.Sized()
    ensures r.Sized() && r.plan == s.plan && r.state == s.state && r.grant == s.grant && r.signalFd == s.signalFd
    ensures s.shouldQuit ==> r.shouldQuit
    ensures s.loggers <= r.loggers
  {
    if fd !in s.interest then s.(aborted := true)
    else
      var id := GetOr0(s.idForFd, fd);
      var left := Decrement(GetOr0(s.numFdForId, id));
      s.(interest := s.interest - {fd},
         idForFd := s.idForFd - {fd},
         fdType := s.fdType - {fd},
         numFdForId := s.numFdForId[id := left],
         aborted := s.aborted || (left == 0 && id >= s.N()))
  }

  // handle_child_output: an unknown descriptor throws, one without a type is only
  // reported.
  function Print(s: Sup, fd: int, text: string): (r: Sup)
    requires s.Sized()
    ensures r.Sized() && r.plan == s.plan && r.state == s.state && r.grant == s.grant && r.signalFd == s.signalFd
    ensures s.shouldQuit ==> r.shouldQuit
    ensures s.loggers <= r.loggers && r.idForFd == s.idForFd && r.interest == s.interest
  {
    if fd !in s.idForFd || s.idForFd[fd] >= s.N() then s.(aborted := true)
    else if fd !in s.fdType then s
    else s.(log := s.log + [Printed(s.idForFd[fd], s.fdType[fd], text)])
  }

  ghost function Deliver(s: Sup, w: Wake): (r: Sup)
    requires s.Sized()
    ensures r.Sized() && r.plan == s.plan && r.state == s.state && r.grant == s.grant && r.signalFd == s.signalFd
    ensures s.shouldQuit ==> r.shouldQuit
    ensures s.loggers <= r.loggers
  {
    if w.readable then
      if w.fd == s.signalFd then Forward(s, w.signo)
      else if Output(w.data) == "" then s
      else Print(s, w.fd, Output(w.data))
    else if w.hangup then Hangup(s, w.fd)
    else s.(aborted := true)
  }
}
