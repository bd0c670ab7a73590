// Reading the log: what the entries so far say about programs and pids, and what
// it takes for one more entry to be in order.
module History {
  import opened Lifecycle
  import opened Supervisor

  // The state program `i` is in after `log`; None before it is forked.
  function LastState(log: seq<Entry>, i: nat): Option<State> {
    if log == [] then None
    else
      var last := |log| - 1;
      match log[last]
      case Forked(id, _) => if id == i then Some(RUNNING) else LastState(log[..last], i)
      case Exited(id, _, rc) => if id == i then Some(ExitState(rc)) else LastState(log[..last], i)
      case Killed(_, _) => LastState(log[..last], i)
      case Printed(_, _, _) => LastState(log[..last], i)
  }

  // The pids alive after `log`, each with the program it belongs to.
  function Holders(log: seq<Entry>): map<int, nat> {
    if log == [] then map[]
    else
      var last := |log| - 1;
      match log[last]
      case Forked(id, pid) => Holders(log[..last])[pid := id]
      case Exited(_, pid, _) => Holders(log[..last]) - {pid}
      case Killed(_, _) => Holders(log[..last])
      case Printed(_, _, _) => Holders(log[..last])
  }

  function Forks(log: seq<Entry>): nat {
    if log == [] then 0 else Forks(log[..|log| - 1]) + if log[|log| - 1].Forked? then 1 else 0
  }

  function Exits(log: seq<Entry>): nat {
    if log == [] then 0 else Exits(log[..|log| - 1]) + if log[|log| - 1].Exited? then 1 else 0
  }

  // Program `i` had to wait after registration.
  predicate Gated(plan: Plan, i: nat) {
    i < |plan.init| && plan.init[i] == BLOCKED
  }

  // `e` may follow `past`: a program is forked once, under a pid nobody holds, and
  // when it was gated only with every program it waits for in the awaited state; it
  // exits once, from RUNNING, under its own pid; SIGTERM and SIGQUIT are sent, and to
  // live pids only.
  ghost predicate Justified(plan: Plan, past: seq<Entry>, e: Entry) {
    match e
    case Forked(id, pid) =>
      && id < |plan.names| && id < |plan.conditions|
      && LastState(past, id) == None && pid !in Holders(past)
      && (Gated(plan, id) ==> forall c | c in plan.conditions[id] :: LastState(past, c.id) == Some(c.awaited))
    case Exited(id, pid, _) =>
      LastState(past, id) == Some(RUNNING) && pid in Holders(past) && Holders(past)[pid] == id
    case Killed(pid, signo) => pid in Holders(past) && (signo == SIGTERM || signo == SIGQUIT)
    case Printed(id, _, _) => LastState(past, id).Some?
  }

  ghost predicate Legal(plan: Plan, log: seq<Entry>) {
    log != [] ==> Legal(plan, log[..|log| - 1]) && Justified(plan, log[..|log| - 1], log[|log| - 1])
  }

  // ---------------------------------------------------------- consequences of Legal

  lemma {:induction false} LegalAt(plan: Plan, log: seq<Entry>, k: nat)
    requires Legal(plan, log) && k < |log|
    ensures Justified(plan, log[..k], log[k])
    ensures Legal(plan, log[..k])
  {
    hide Justified;
    var init := log[..|log| - 1];
    if k < |log| - 1 {
      LegalAt(plan, init, k);
      assert init[..k] == log[..k];
    }
  }

  predicate ForkAt(log: seq<Entry>, k: nat, i: nat) {
    k < |log| && log[k].Forked? && log[k].id == i
  }

  predicate ExitAt(log: seq<Entry>, k: nat, i: nat) {
    k < |log| && log[k].Exited? && log[k].id == i
  }

  // Entry `k` put program `i` into `state`.
  predicate Enters(log: seq<Entry>, k: nat, i: nat, state: State) {
    || (ForkAt(log, k, i) && state == RUNNING)
    || (ExitAt(log, k, i) && state == ExitState(log[k].rc))
  }

  // A state that shows in the log was put there by an entry.
  lemma {:induction false} StateHasEntry(log: seq<Entry>, i: nat) returns (k: nat)
    requires LastState(log, i).Some?
    ensures Enters(log, k, i, LastState(log, i).value)
  {
    k := |log| - 1;
    if !((log[k].Forked? || log[k].Exited?) && log[k].id == i) {
      k := StateHasEntry(log[..k], i);
    }
  }

  // Once a program shows in the log it keeps showing, and an exit is final.
  lemma {:induction false} StateLasts(plan: Plan, log: seq<Entry>, k: nat, i: nat)
    requires Legal(plan, log) && k <= |log| && LastState(log[..k], i).Some?
    ensures LastState(log, i).Some?
    ensures LastState(log[..k], i) != Some(RUNNING) ==> LastState(log, i) == LastState(log[..k], i)
  {
    if k == |log| {
      assert log[..k] == log;
    } else {
      var init := log[..|log| - 1];
      assert init[..k] == log[..k];
      StateLasts(plan, init, k, i);
    }
  }

  // Every program is forked at most once and exits at most once.
  lemma {:induction false} AtMostOnce(plan: Plan, log: seq<Entry>, i: nat, j: nat, k: nat)
    requires Legal(plan, log) && j < k
    ensures !(ForkAt(log, j, i) && ForkAt(log, k, i))
    ensures !(ExitAt(log, j, i) && ExitAt(log, k, i))
  {
    hide Legal;
    if (ForkAt(log, j, i) && ForkAt(log, k, i)) || (ExitAt(log, j, i) && ExitAt(log, k, i)) {
      LegalAt(plan, log, k);
      var past := log[..k];
      assert past[..j + 1][..j] == past[..j];
      StateLasts(plan, past, j + 1, i);
      assert false;
    }
  }

  predicate ForkedBefore(log: seq<Entry>, k: nat, i: nat) {
    exists j: nat :: j < k && ForkAt(log, j, i)
  }

  predicate SucceededBefore(log: seq<Entry>, k: nat, i: nat) {
    exists j: nat :: j < k && ExitAt(log, j, i) && log[j].rc == 0
  }

  // An exit is preceded by the program's fork.
  lemma {:induction false} ExitAfterFork(plan: Plan, log: seq<Entry>, i: nat, k: nat)
    requires Legal(plan, log) && ExitAt(log, k, i)
    ensures ForkedBefore(log, k, i)
  {
    hide Legal;
    LegalAt(plan, log, k);
    var j := StateHasEntry(log[..k], i);
    assert ForkAt(log, j, i);
  }

  // The log is a topological execution of the wait graph: a gated program is forked
  // only while everything it waits for is in the awaited state, so after the fork of
  // each of them, and for an awaited DONE also after its exit with status zero.
  lemma {:induction false} ForkOrder(plan: Plan, log: seq<Entry>, i: nat, k: nat, c: Condition)
    requires Legal(plan, log) && plan.WellFormed()
    requires ForkAt(log, k, i) && Gated(plan, i) && c in plan.conditions[i]
    ensures LastState(log[..k], c.id) == Some(c.awaited)
    ensures ForkedBefore(log, k, c.id)
    ensures c.awaited == DONE ==> SucceededBefore(log, k, c.id)
  {
    hide Legal;
    LegalAt(plan, log, k);
    var j := StateHasEntry(log[..k], c.id);
    if ForkAt(log, j, c.id) {
      assert j < k;
    } else {
      assert ExitAt(log, j, c.id);
      ExitAfterFork(plan, log, c.id, j);
    }
  }

  // ------------------------------------------------------------- one entry more

  lemma {:induction false} Appended(log: seq<Entry>, e: Entry)
    ensures (log + [e])[..|log + [e]| - 1] == log
    ensures (log + [e])[|log + [e]| - 1] == e
  {
  }
}
