// The program object: its lifecycle state and its list of wait conditions, updated
// in place by the handler and by the other programs.
module Processes {
  import opened Lifecycle
  import opened Registration
  import opened Supervisor

  datatype ProcessEvent = HangupEvent | ExitEvent

  function Lower(text: string): string {
    seq(|text|, k requires 0 <= k < |text| =>
      if 'A' <= text[k] <= 'Z' then text[k] - 'A' + 'a' else text[k])
  }

  // Anything but "simple", in any case, is a oneshot.
  function KindOf(typeName: string): Kind {
    if Lower(typeName) == "simple" then SIMPLE else ONESHOT
  }

  class ChildProcess {
    const name: string
    const kind: Kind
    const graphId: nat
    var before: seq<string>
    var after: seq<string>
    var conditions: seq<Condition>
    var state: State
    var primaryPid: int
    var stdoutFd: int
    var stderrFd: int

    constructor (name: string, typeName: string, graphId: nat, before: seq<string>, after: seq<string>)
      ensures this.graphId == graphId
      ensures AsChild() == Child(name, KindOf(typeName), before, after, [], BLOCKED)
      ensures AsGrant() == NO_GRANT
    {
      this.name := name;
      this.kind := KindOf(typeName);
      this.graphId := graphId;
      this.before := before;
      this.after := after;
      this.conditions := [];
      this.state := BLOCKED;
      this.primaryPid := -1;
      this.stdoutFd := -1;
      this.stderrFd := -1;
    }

    ghost function AsChild(): Child
      reads this
    {
      Child(name, kind, before, after, conditions, state)
    }

    ghost function AsGrant(): Grant
      reads this`primaryPid, this`stdoutFd, this`stderrFd
    {
      Grant(primaryPid, stdoutFd, stderrFd)
    }

    predicate CanStartNow()
      reads this
    {
      state == READY
    }

    method ShouldWaitFor(other: nat, awaited: State)
      modifies this`conditions
      ensures conditions == AddCondition(old(conditions), other, awaited)
    {
      var contains := false;
      for k := 0 to |conditions|
        invariant conditions == old(conditions)
        invariant contains <==> exists m :: 0 <= m < k && conditions[m].id == other
      {
        contains := contains || conditions[k].id == other;
      }
      LookupFinds(conditions, other);
      if !contains {
        conditions := conditions + [Condition(other, awaited)];
      }
    }

    // `others[k]` is told to wait for program `source`, for the sake of this one.
    method Tell(others: seq<ChildProcess>, k: nat, source: nat)
      requires Listed(others) && graphId < |others| && others[graphId] == this && k < |others|
      modifies others`conditions
      ensures Children(others) == Wait(old(Children(others)), graphId, k, source)
    {
      hide AddCondition;
      ghost var children := Children(others);
      others[k].ShouldWaitFor(source, StartedState(kind));
      forall j | 0 <= j < |others|
        ensures Children(others)[j] == Wait(children, graphId, k, source)[j]
      {
        assert j != k ==> others[j].graphId != others[k].graphId;
      }
    }

    // One listed name against all programs.
    method ScanOthers(others: seq<ChildProcess>, name: string, otherOrThis: bool)
      requires Listed(others) && graphId < |others| && others[graphId] == this
      modifies others`conditions
      ensures Children(others) == Scan(old(Children(others)), graphId, name, otherOrThis, |others|)
    {
      hide Scan, Wait, OnlyConditions;
      ghost var children := Children(others);
      ScanNone(children, graphId, name, otherOrThis);
      for k := 0 to |others|
        invariant Children(others) == Scan(children, graphId, name, otherOrThis, k)
      {
        ScanNext(children, graphId, name, otherOrThis, k);
        if others[k].name == name {
          if otherOrThis {
            Tell(others, k, graphId);
          } else {
            Tell(others, graphId, others[k].graphId);
          }
        }
      }
    }

    method ScanList(others: seq<ChildProcess>, names: seq<string>, otherOrThis: bool)
      requires Listed(others) && graphId < |others| && others[graphId] == this
      modifies others`conditions
      ensures Children(others) == ScanNames(old(Children(others)), graphId, names, otherOrThis)
    {
      hide Scan, OnlyConditions;
      ghost var children := Children(others);
      for m := 0 to |names|
        invariant Children(others) == ScanNames(children, graphId, names[..m], otherOrThis)
      {
        assert names[..m + 1][..m] == names[..m];
        ScanOthers(others, names[m], otherOrThis);
      }
      assert names[..|names|] == names;
    }

    method PropagateDependencies(others: seq<ChildProcess>)
      requires Listed(others) && graphId < |others| && others[graphId] == this
      modifies this`before, this`after, this`state, others`conditions
      ensures Children(others) == Propagate(old(Children(others)), graphId)
    {
      hide ScanNames, OnlyConditions, Children, Settle;
      ScanList(others, before, true);
      ScanList(others, after, false);
      Done(others);
    }

    // Both lists have been read; without a condition there is nothing to wait for.
    method Done(others: seq<ChildProcess>)
      requires Listed(others) && graphId < |others| && others[graphId] == this
      modifies this`before, this`after, this`state
      ensures Children(others) == old(Children(others))[graphId := Settle(old(Children(others))[graphId])]
    {
      ghost var asked := Children(others);
      before := [];
      after := [];
      if |conditions| == 0 {
        state := READY;
      }
      forall j | 0 <= j < |others|
        ensures Children(others)[j] == asked[graphId := Settle(asked[graphId])][j]
      {
        assert j != graphId ==> others[j].graphId != others[graphId].graphId;
      }
    }

    // Advance from BLOCKED to READY once every condition holds.
    method NotifyOfState(procs: map<nat, ChildProcess>)
      modifies this`state
      ensures state ==
        if old(state) == BLOCKED && forall c | c in conditions :: c.id in procs && old(procs[c.id].state) == c.awaited
        then READY else old(state)
    {
      if state == BLOCKED {
        var stillBlocked := false;
        for k := 0 to |conditions|
          invariant state == old(state)
          invariant !stillBlocked <==> forall m | 0 <= m < k ::
            conditions[m].id in procs && procs[conditions[m].id].state == conditions[m].awaited
        {
          if !stillBlocked {
            if conditions[k].id !in procs {
              stillBlocked := true;
            } else {
              stillBlocked := procs[conditions[k].id].state != conditions[k].awaited;
            }
          }
        }
        assert forall c :: c in conditions <==> exists m :: 0 <= m < |conditions| && conditions[m] == c;
        if !stillBlocked {
          state := READY;
        }
      }
    }

    // `kernel` is what pipe() and fork() return in the parent.  None stands for the
    // exception thrown unless the program is READY.
    method DoFork(kernel: Grant, reg: map<int, nat>) returns (r: Option<map<int, nat>>)
      modifies this
      ensures AsChild() == old(AsChild()).(state := if old(state) == READY then RUNNING else old(state))
      ensures AsGrant() == if old(state) == READY then kernel else old(AsGrant())
      ensures r == if old(state) == READY then Some(reg[kernel.pid := graphId]) else None
    {
      if state != READY {
        return None;
      }
      stdoutFd := kernel.out;
      stderrFd := kernel.err;
      primaryPid := kernel.pid;
      state := RUNNING;
      r := Some(reg[primaryPid := graphId]);
    }

    method RegisterWithEpoll(interest: set<int>, idForFd: map<int, nat>, fdType: map<int, FdType>)
      returns (interest': set<int>, idForFd': map<int, nat>, fdType': map<int, FdType>)
      ensures interest' == interest + {stdoutFd, stderrFd}
      ensures idForFd' == idForFd[stdoutFd := graphId][stderrFd := graphId]
      ensures fdType' == fdType[stdoutFd := STDOUT][stderrFd := STDERR]
    {
      interest' := interest + {stdoutFd};
      interest' := interest' + {stderrFd};
      idForFd' := idForFd[stdoutFd := graphId];
      idForFd' := idForFd'[stderrFd := graphId];
      fdType' := fdType[stdoutFd := STDOUT];
      fdType' := fdType'[stderrFd := STDERR];
    }

    method HandleProcessEvent(event: ProcessEvent, data: int)
      modifies this`state
      ensures state == if event.ExitEvent? then ExitState(data) else old(state)
    {
      match event
      case HangupEvent =>
      case ExitEvent =>
        if data == 0 {
          state := DONE;
        } else {
          state := CRASHED;
        }
    }
  }

  // The list of programs: each one's id is its position, so no two are the same object.
  ghost predicate Listed(others: seq<ChildProcess>) {
    forall k | 0 <= k < |others| :: others[k].graphId == k
  }

  ghost function Children(others: seq<ChildProcess>): (r: seq<Child>)
    reads others
    ensures |r| == |others|
    ensures forall k | 0 <= k < |others| :: r[k] == others[k].AsChild()
  {
    if others == [] then []
    else Children(others[..|others| - 1]) + [others[|others| - 1].AsChild()]
  }

  lemma {:induction false} ScanNone(children: seq<Child>, i: nat, name: string, toOther: bool)
    requires i < |children|
    ensures Scan(children, i, name, toOther, 0) == children
  {
  }

  lemma {:induction false} ScanNext(children: seq<Child>, i: nat, name: string, toOther: bool, k: nat)
    requires i < |children| && k < |children|
    ensures var done := Scan(children, i, name, toOther, k);
      && done[i].kind == children[i].kind
      && Scan(children, i, name, toOther, k + 1) ==
        if done[k].name != name then done
        else if toOther then Wait(done, i, k, i)
        else Wait(done, i, i, k)
  {
    hide Wait;
  }
}
