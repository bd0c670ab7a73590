// The supervisor object: the maps, counters and program list that the event loop
// updates in place.  The ghost field `view` is its abstract state; Valid() ties the
// real fields to it, and every method takes it where its function in module
// Supervisor or EventLoop says.
module Handler {
  import opened Lifecycle
  import opened Collections
  import opened Trim
  import opened Registration
  import opened Supervisor
  import opened Processes
  import opened Invariants
  import opened Runs
  import opened StartUp
  import opened EventLoop
  import opened Quiescence
  import opened EndToEnd
  import opened Preservation

  class ProcessHandler {
    var sigForId: map<nat, seq<ChildProcess>>  // whom an event for this id is delivered to
    var objForId: map<nat, ChildProcess>
    var idForPid: map<int, nat>
    var idForFd: map<int, nat>
    var numFdForId: map<nat, nat>
    var fdType: map<int, FdType>
    var allObjs: seq<ChildProcess>
    var signalFd: int
    var numberOfRunningProcs: int
    var shouldQuit: bool

    var interest: set<int>                     // what epoll_fd watches
    var signalMask: set<Signal>                // what signal_fd delivers
    var loggers: set<string>                   // names known to the logging library
    var aborted: bool                          // an exception is on its way to main()
    ghost var view: Sup

    constructor ()
      ensures allObjs == [] && objForId == map[] && sigForId == map[]
      ensures Pristine()
    {
      sigForId, objForId, allObjs := map[], map[], [];
      idForPid, idForFd, numFdForId, fdType := map[], map[], map[], map[];
      signalFd, numberOfRunningProcs, shouldQuit := -1, 0, false;
      interest, signalMask, loggers, aborted := {}, {}, {MAIN_LOGGER}, false;
    }

    // Nothing has been started yet and epoll is not set up.
    ghost predicate Pristine()
      reads this
    {
      && idForPid == map[] && idForFd == map[] && numFdForId == map[] && fdType == map[]
      && interest == {} && signalFd == -1
      && numberOfRunningProcs == 0 && !shouldQuit && !aborted && loggers == {MAIN_LOGGER}
    }

    // The list and the two id maps name the same programs, ids being positions.
    ghost predicate Wired()
      reads this`allObjs, this`objForId, this`sigForId
    {
      Listed(allObjs) && Names(objForId, allObjs) && Handles(sigForId, allObjs)
    }

    ghost predicate FieldsMatch()
      reads this
    {
      view == Sup(view.plan, view.state, view.grant, idForPid, idForFd, fdType, numFdForId, interest, signalFd,
                  numberOfRunningProcs, shouldQuit, aborted, loggers, view.log)
    }

    ghost predicate Valid()
      reads this, allObjs
    {
      Wired() && FieldsMatch() && Matches(allObjs, view)
    }

    method RegisterForProcessState(id: nat, handler: ChildProcess)
      modifies this`sigForId
      ensures sigForId == old(sigForId)[id := (if id in old(sigForId) then old(sigForId)[id] else []) + [handler]]
    {
      if id !in sigForId {
        sigForId := sigForId[id := []];
      }
      sigForId := sigForId[id := sigForId[id] + [handler]];
    }

    method RegisterObjId(id: nat, obj: ChildProcess)
      modifies this`objForId
      ensures objForId == old(objForId)[id := obj]
    {
      objForId := objForId[id := obj];
    }

    // The list is fixed, and the programs' dependencies are registered in list order.
    method RegisterProcesses(refs: seq<ChildProcess>)
      requires Pristine() && Listed(refs) && Names(objForId, refs) && Handles(sigForId, refs)
      requires AllFresh(Children(refs)) && Unforked(refs)
      modifies this`allObjs, this`view, refs`before, refs`after, refs`state, refs`conditions
      ensures allObjs == refs && Children(refs) == Register(old(Children(refs)), |refs|)
      ensures Registered(old(Children(refs))).WellFormed()
      ensures Valid() && view == Unarmed(Registered(old(Children(refs))))
    {
      ghost var children := Children(refs);
      hide Register, Names, Handles, AllFresh, Registered, Children;
      allObjs := refs;
      PropagateAll();
      Begin(children);
    }

    // From here on the fields have an abstract state to follow.
    ghost method Begin(children: seq<Child>)
      requires Pristine() && Listed(allObjs) && Names(objForId, allObjs) && Handles(sigForId, allObjs)
      requires |children| == |allObjs| && AllFresh(children) && Children(allObjs) == Register(children, |children|)
      requires Unforked(allObjs)
      modifies this`view
      ensures Registered(children).WellFormed()
      ensures Valid() && view == Unarmed(Registered(children))
    {
      hide Register, Registered, Names, Handles, Matches, AllFresh, Unforked, Listed, Children;
      RegisteredWellFormed(children);
      AsRegistered(children);
      view := Unarmed(Registered(children));
    }

    lemma AsRegistered(children: seq<Child>)
      requires |children| == |allObjs| && Children(allObjs) == Register(children, |children|)
      requires Registered(children).WellFormed() && Unforked(allObjs)
      ensures Matches(allObjs, Unarmed(Registered(children)))
    {
      hide Register, Children;
      ghost var view := Unarmed(Registered(children));
      forall k | 0 <= k < |allObjs|
        ensures allObjs[k].name == view.plan.names[k] && allObjs[k].conditions == view.plan.conditions[k]
        ensures allObjs[k].state == view.state[k] && allObjs[k].AsGrant() == view.grant[k]
      {
        assert Children(allObjs)[k] == allObjs[k].AsChild();
      }
    }

    method PropagateAll()
      requires Listed(allObjs)
      modifies allObjs`before, allObjs`after, allObjs`state, allObjs`conditions
      ensures Children(allObjs) == Register(old(Children(allObjs)), |allObjs|)
    {
      hide Register, Propagate, Children;
      ghost var children := Children(allObjs);
      RegisterNone(children);
      for k := 0 to |allObjs|
        invariant Children(allObjs) == Register(children, k)
      {
        RegisterNext(children, k);
        assert allObjs[k].graphId == k;
        allObjs[k].PropagateDependencies(allObjs);
      }
    }

    // Three signals are taken from a descriptor, which is the first that a new epoll
    // instance watches.
    method SetupSignalHandlers(fd: int)
      requires Valid() && view.plan.WellFormed() && view == Unarmed(view.plan)
      modifies this`signalFd, this`signalMask, this`interest, this`view
      ensures Valid() && view == Initial(old(view).plan, fd) && signalMask == SIGNAL_MASK
    {
      var mask: set<Signal> := {};
      mask := mask + {SIGCHLD};
      mask := mask + {SIGINT};
      mask := mask + {SIGQUIT};
      ghost var next := Initial(view.plan, fd);
      MatchesSame(allObjs, view, next);
      hide Wired, Matches;
      signalFd, signalMask := fd, mask;
      interest := {fd};
      view := next;
    }

    // ------------------------------------------------------------------ start_programs

    // One turn of the first loop.
    method NotifyProgram(k: nat)
      requires Valid() && k < |allObjs|
      modifies this`view, {allObjs[k]}`state
      ensures Valid()
      ensures view == old(view).(state := Notify(view.plan, old(view).state, k))
    {
      OthersApart(allObjs, k);
      ghost var before := view.state;
      ghost var next := view.(state := Notify(view.plan, before, k));
      forall c | c in view.plan.conditions[k]
        ensures (c.id in objForId && objForId[c.id].state == c.awaited) <==> Met(before, c)
      {
        assert c.id in objForId ==> objForId[c.id] == allObjs[c.id];
      }
      assert allObjs[k].state == before[k] && allObjs[k].conditions == view.plan.conditions[k];
      hide Wired, FieldsMatch, Met;
      allObjs[k].NotifyOfState(objForId);
      assert Matches(allObjs, next);
      hide Matches;
      FollowState(next);
    }

    // The first loop: everybody is told the current states.
    method NotifyPrograms()
      requires Valid()
      modifies this`view, allObjs`state
      ensures Valid()
      ensures view == old(view).(state := NotifyAll(view.plan, old(view).state, ListOrder(view.N())))
    {
      hide NotifyAll, Notify;
      ghost var before := view;
      ghost var order := ListOrder(view.N());
      NotifyNone(before.plan, before.state);
      assert order[..0] == [];
      for k := 0 to |allObjs|
        invariant Valid()
        invariant view == before.(state := NotifyAll(before.plan, before.state, order[..k]))
      {
        NotifyNext(before.plan, before.state, order, k);
        NotifyProgram(k);
      }
      assert order[..|allObjs|] == order;
    }

    // One turn of the second loop.
    method StartProgram(kernel: seq<Grant>, k: nat)
      requires Valid() && k < |allObjs| == |kernel|
      modifies this`idForPid, this`interest, this`idForFd, this`fdType, this`numFdForId
      modifies this`numberOfRunningProcs, this`loggers, this`view, {allObjs[k]}
      ensures Valid()
      ensures view == StartOne(old(view), kernel, k)
    {
      KnownProgram(k);
      StartOneParts(view, kernel, k);
      hide Valid, StartOne;
      var program := allObjs[k];
      if !program.CanStartNow() {
        return;
      }
      if program.name in loggers {
        return;  // registering the logger throws; the program is passed over
      }
      ForkChild(k, kernel[k]);
      WatchChild(k);
      RecordStart(k);
    }

    lemma KnownProgram(k: nat)
      requires Valid() && k < |allObjs|
      ensures view.Sized() && view.N() == |allObjs|
      ensures allObjs[k].state == view.state[k] && allObjs[k].name == view.plan.names[k] && loggers == view.loggers
    {
    }

    method ForkChild(k: nat, kernel: Grant)
      requires Valid() && view.Sized() && k < view.N() == |allObjs| && allObjs[k].state == READY
      modifies this`idForPid, this`view, {allObjs[k]}
      ensures Valid()
      ensures view == StartForked(old(view), kernel, k)
    {
      OthersApart(allObjs, k);
      assert allObjs[k].graphId == k;
      hide Wired, FieldsMatch;
      ghost var next := StartForked(view, kernel, k);
      KnownPids();
      var registered := allObjs[k].DoFork(kernel, idForPid);
      assert Matches(allObjs, next);
      hide Matches;
      StorePids(registered.value, next);
    }

    lemma KnownPids()
      requires Valid()
      ensures idForPid == view.idForPid
    {
    }

    // The pid map, once the program object has changed.
    method StorePids(pids: map<int, nat>, ghost next: Sup)
      requires Wired() && FieldsMatch() && Matches(allObjs, next)
      requires next == view.(state := next.state, grant := next.grant, idForPid := pids)
      modifies this`idForPid, this`view
      ensures Valid() && view == next
    {
      hide Wired, Matches;
      idForPid := pids;
      view := next;
    }

    method WatchChild(k: nat)
      requires Valid() && view.Sized() && k < view.N() == |allObjs|
      modifies this`interest, this`idForFd, this`fdType, this`view
      ensures Valid()
      ensures view == StartWatched(old(view), k)
    {
      assert allObjs[k].graphId == k && allObjs[k].AsGrant() == view.grant[k];
      hide Wired, Matches, Valid;
      KnownFds();
      var watched, owners, types := allObjs[k].RegisterWithEpoll(interest, idForFd, fdType);
      StoreFds(watched, owners, types);
    }

    lemma KnownFds()
      requires Valid()
      ensures interest == view.interest && idForFd == view.idForFd && fdType == view.fdType
    {
    }

    // The three structures that speak about descriptors.
    method StoreFds(watched: set<int>, owners: map<int, nat>, types: map<int, FdType>)
      requires Valid()
      modifies this`interest, this`idForFd, this`fdType, this`view
      ensures Valid()
      ensures view == old(view).(interest := watched, idForFd := owners, fdType := types)
    {
      ghost var next := view.(interest := watched, idForFd := owners, fdType := types);
      MatchesSame(allObjs, view, next);
      hide Wired, Matches;
      interest, idForFd, fdType := watched, owners, types;
      view := next;
    }

    method RecordStart(k: nat)
      requires Valid() && view.Sized() && k < view.N() == |allObjs|
      modifies this`numFdForId, this`numberOfRunningProcs, this`loggers, this`view
      ensures Valid()
      ensures view == StartRecorded(old(view), k)
    {
      assert allObjs[k].graphId == k && allObjs[k].name == view.plan.names[k];
      hide Wired, Matches, Valid;
      KnownCounts();
      StoreCounts(numFdForId[allObjs[k].graphId := 2], numberOfRunningProcs + 1, loggers + {allObjs[k].name},
                  view.log + [Forked(k, view.grant[k].pid)]);
    }

    lemma KnownCounts()
      requires Valid()
      ensures numFdForId == view.numFdForId && numberOfRunningProcs == view.running && loggers == view.loggers
    {
    }

    // The counters and the logger registry.
    method StoreCounts(counts: map<nat, nat>, running: int, names: set<string>, ghost log: seq<Entry>)
      requires Valid()
      modifies this`numFdForId, this`numberOfRunningProcs, this`loggers, this`view
      ensures Valid()
      ensures view == old(view).(numFdForId := counts, running := running, loggers := names, log := log)
    {
      ghost var next := view.(numFdForId := counts, running := running, loggers := names, log := log);
      MatchesSame(allObjs, view, next);
      hide Wired, Matches;
      numFdForId, numberOfRunningProcs, loggers := counts, running, names;
      view := next;
    }

    method StartPrograms(kernel: seq<Grant>)
      requires Valid() && |kernel| == |allObjs|
      modifies this, allObjs
      ensures Valid() && allObjs == old(allObjs) && signalMask == old(signalMask)
      ensures view == Start(old(view), kernel)
    {
      hide Valid, StartEach, StartOne, NotifyAll;
      KnownFlags();
      KnownSized();
      NotifyPrograms();
      ghost var mid := view;
      ghost var order := ListOrder(view.N());
      StartNone(mid, kernel);
      assert order[..0] == [];
      for k := 0 to |allObjs|
        invariant Valid() && allObjs == old(allObjs) && signalMask == old(signalMask)
        invariant view == StartEach(mid, kernel, order[..k])
      {
        StartNext(mid, kernel, order, k);
        StartProgram(kernel, k);
      }
      assert order[..|allObjs|] == order;
    }

    // -------------------------------------------------------------- sigchld_received

    method SigchldReceived(pid: int, rc: int)
      requires Valid() && (pid in idForPid ==> idForPid[pid] < |allObjs|)
      modifies this`numberOfRunningProcs, this`idForPid, this`view, allObjs`state
      ensures Valid()
      ensures view == Reap(old(view), pid, rc)
    {
      hide Valid;
      KnownPids();
      if pid in idForPid {
        var id := idForPid[pid];
        KnownProgram(id);
        CountDown();
        NotifyExit(id, rc);
        ErasePid(pid, id, rc);
      }
    }

    method CountDown()
      requires Valid()
      modifies this`numberOfRunningProcs, this`view
      ensures Valid() && view == old(view).(running := old(view).running - 1)
    {
      ghost var next := view.(running := view.running - 1);
      MatchesSame(allObjs, view, next);
      hide Wired, Matches;
      numberOfRunningProcs := numberOfRunningProcs - 1;
      view := next;
    }

    method ErasePid(pid: int, ghost id: nat, ghost rc: int)
      requires Valid()
      modifies this`idForPid, this`view
      ensures Valid()
      ensures view == old(view).(idForPid := old(view).idForPid - {pid}, log := old(view).log + [Exited(id, pid, rc)])
    {
      ghost var next := view.(idForPid := view.idForPid - {pid}, log := view.log + [Exited(id, pid, rc)]);
      MatchesSame(allObjs, view, next);
      hide Wired, Matches;
      idForPid := idForPid - {pid};
      view := next;
    }

    // The exit event goes to every handler registered for the id: to the program.
    method NotifyExit(id: nat, rc: int)
      requires Valid() && id < |allObjs|
      modifies this`view, {allObjs[id]}`state
      ensures Valid()
      ensures view == old(view).(state := old(view).state[id := ExitState(rc)])
    {
      OthersApart(allObjs, id);
      var handlers := sigForId[id];
      assert handlers == [allObjs[id]];
      hide Wired, FieldsMatch;
      ghost var next := view.(state := view.state[id := ExitState(rc)]);
      RaiseExit(handlers, rc);
      assert handlers[0].state == ExitState(rc);
      assert Matches(allObjs, next);
      hide Matches;
      FollowState(next);
    }

    // The states, once a program object has changed.
    ghost method FollowState(next: Sup)
      requires Wired() && FieldsMatch() && Matches(allObjs, next) && next == view.(state := next.state)
      modifies this`view
      ensures Valid() && view == next
    {
      hide Wired, Matches;
      view := next;
    }

    method RaiseExit(handlers: seq<ChildProcess>, rc: int)
      modifies handlers`state
      ensures forall h | 0 <= h < |handlers| :: handlers[h].state == ExitState(rc)
    {
      for h := 0 to |handlers|
        invariant forall g | 0 <= g < h :: handlers[g].state == ExitState(rc)
      {
        handlers[h].HandleProcessEvent(ExitEvent, rc);
      }
    }

    // -------------------------------------------------------------- signal_received

    method SignalReceived(signo: Signal)
      requires Valid() && signo in signalMask
      modifies this`shouldQuit, this`view
      ensures Valid()
      ensures view == Forward(old(view), signo)
    {
      hide AscendingNumbers, Kills;
      if signo == SIGCHLD {
        return;
      }
      var signal := if signo == SIGINT then SIGTERM else signo;
      var sent := KillAll(signal);
      if signal % 16 != 0 || signal % 4 != 0 {
        shouldQuit := true;
      }
      view := view.(log := view.log + sent, shouldQuit := shouldQuit);
    }

    // kill() for every key of the pid map, which is walked in ascending order.
    method KillAll(signal: Signal) returns (sent: seq<Entry>)
      ensures sent == Kills(AscendingNumbers(idForPid.Keys), signal)
    {
      hide AscendingNumbers, Kills, ToCome;
      ghost var all := AscendingNumbers(idForPid.Keys);
      var rest := idForPid.Keys;
      assert all[0..] == all && all[..0] == [];
      assert ToCome(rest, all, 0) by {
        AllToCome(rest, all);
      }
      sent := Kills([], signal);
      while |rest| > 0
        invariant |rest| + |sent| == |all|
        invariant ToCome(rest, all, |sent|)
        invariant sent == Kills(all[..|sent|], signal)
        decreases |rest|
      {
        LeastAmong(rest, all, |sent|);
        var pid :| pid in rest && forall p | p in rest :: pid <= p;
        KillsNext(all, |sent|, signal);
        sent := sent + [Killed(pid, signal)];
        rest := rest - {pid};
      }
      assert all[..|sent|] == all;
    }

    // --------------------------------------------------------------- event_received

    method HandleChildOutput(fd: int, text: string)
      requires Valid()
      modifies this`aborted, this`view
      ensures Valid()
      ensures view == Print(old(view), fd, text)
    {
      var found, printed := LogOutput(fd, text);
      KnownIds();
      KnownFds();
      if !found {
        aborted := true;
      }
      view := view.(log := view.log + printed, aborted := aborted);
    }

    // What reaches the loggers.  An unknown descriptor or id is not found, which
    // throws; a descriptor of no known kind is only reported.
    method LogOutput(fd: int, text: string) returns (found: bool, printed: seq<Entry>)
      ensures found == (fd in idForFd && idForFd[fd] in objForId)
      ensures printed == if found && fd in fdType then [Printed(idForFd[fd], fdType[fd], text)] else []
    {
      if fd !in idForFd {
        return false, [];
      }
      var id := idForFd[fd];
      if id !in objForId {
        return false, [];
      }
      if fd !in fdType {
        return true, [];
      }
      match fdType[fd]
      case STDOUT => return true, [Printed(id, STDOUT, text)];
      case STDERR => return true, [Printed(id, STDERR, text)];
    }

    method HangupReceived(fd: int)
      requires Valid()
      modifies this`interest, this`idForFd, this`fdType, this`numFdForId, this`aborted, this`view
      ensures Valid()
      ensures view == Hangup(old(view), fd)
    {
      hide Valid;
      KnownFds();
      KnownSized();
      if fd !in interest {
        Abort();
      } else {
        ghost var before := view;
        var id := ForgetFd(fd);
        DropCount(id);
        assert view == Hangup(before, fd);
      }
    }

    method ForgetFd(fd: int) returns (id: nat)
      requires Valid()
      modifies this`interest, this`idForFd, this`fdType, this`view
      ensures Valid() && id == GetOr0(old(view).idForFd, fd)
      ensures view == old(view).(
        interest := old(view).interest - {fd}, idForFd := old(view).idForFd - {fd}, fdType := old(view).fdType - {fd})
    {
      hide Wired, Matches, Valid;
      KnownFds();
      id := if fd in idForFd then idForFd[fd] else 0;
      StoreFds(interest - {fd}, idForFd - {fd}, fdType - {fd});
    }

    method DropCount(id: nat)
      requires Valid()
      modifies this`numFdForId, this`aborted, this`view
      ensures Valid()
      ensures var left := Decrement(GetOr0(old(view).numFdForId, id));
        view == old(view).(
          numFdForId := old(view).numFdForId[id := left],
          aborted := old(view).aborted || (left == 0 && id >= old(view).N()))
    {
      hide Valid, Decrement;
      KnownIds();
      KnownCounts();
      StoreFdCounts(numFdForId[id := Decrement(if id in numFdForId then numFdForId[id] else 0)]);
      KnownCounts();
      if numFdForId[id] == 0 && id !in objForId {
        Abort();
      }
    }

    method StoreFdCounts(counts: map<nat, nat>)
      requires Valid()
      modifies this`numFdForId, this`view
      ensures Valid() && view == old(view).(numFdForId := counts)
    {
      ghost var next := view.(numFdForId := counts);
      MatchesSame(allObjs, view, next);
      hide Wired, Matches;
      numFdForId := counts;
      view := next;
    }

    // An exception is thrown.
    method Abort()
      requires Valid()
      modifies this`aborted, this`view
      ensures Valid() && view == old(view).(aborted := true)
    {
      ghost var next := view.(aborted := true);
      MatchesSame(allObjs, view, next);
      hide Wired, Matches;
      aborted := true;
      view := next;
    }

    lemma KnownIds()
      requires Valid()
      ensures view.Sized() && forall id: nat :: id in objForId <==> id < view.N()
    {
    }

    method EventReceived(w: Wake)
      requires Valid() && |w.data| <= BUF_SIZE
      requires w.readable && w.fd == signalFd ==> w.signo in signalMask
      modifies this`interest, this`idForFd, this`fdType, this`numFdForId, this`shouldQuit, this`aborted, this`view
      ensures Valid()
      ensures view == Deliver(old(view), w)
    {
      hide Forward, Print, Hangup, Output;
      if w.readable {
        if w.fd == signalFd {
          SignalReceived(w.signo);
        } else {
          var str := ReadOutput(w.data);
          if str != "" {
            HandleChildOutput(w.fd, str);
          }
        }
      } else if w.hangup {
        HangupReceived(w.fd);
      } else {
        Abort();
      }
    }

    // -------------------------------------------------------------- enter_eventloop

    // The waitpid loop.
    method ReapChildren(reaps: seq<(int, int)>)
      requires Valid() && Inv(view)
      modifies this`numberOfRunningProcs, this`idForPid, this`view, allObjs`state
      ensures Valid() && Inv(view)
      ensures view == ReapAll(old(view), reaps)
    {
      hide Valid, Inv, Reap;
      ghost var start := view;
      InvBasics(start);
      for k := 0 to |reaps|
        invariant Valid() && Inv(view) && view.Sized()
        invariant ReapAll(view, reaps[k..]) == ReapAll(start, reaps)
      {
        KnownPid(reaps[k].0);
        ReapKeeps(view, reaps[k].0, reaps[k].1);
        SigchldReceived(reaps[k].0, reaps[k].1);
        assert reaps[k..][1..] == reaps[k + 1..];
      }
    }

    lemma KnownPid(pid: int)
      requires Valid() && Inv(view)
      ensures pid in idForPid ==> idForPid[pid] < |allObjs|
    {
    }

    // The batch.
    method DeliverEvents(wakes: seq<Wake>)
      requires Valid() && view.Sized() && !aborted
      requires forall k | 0 <= k < |wakes| ::
        |wakes[k].data| <= BUF_SIZE && (wakes[k].fd == signalFd ==> wakes[k].signo in signalMask)
      modifies this`interest, this`idForFd, this`fdType, this`numFdForId, this`shouldQuit, this`aborted, this`view
      ensures Valid()
      ensures view == DeliverAll(old(view), wakes)
    {
      hide Valid, Deliver;
      ghost var start := view;
      KnownFlags();
      var k := 0;
      while k < |wakes| && !aborted
        invariant k <= |wakes| && Valid() && view.Sized() && aborted == view.aborted
        invariant DeliverAll(view, wakes[k..]) == DeliverAll(start, wakes)
      {
        EventReceived(wakes[k]);
        KnownFlags();
        assert wakes[k..][1..] == wakes[k + 1..];
        k := k + 1;
      }
    }

    lemma KnownSized()
      requires Valid()
      ensures view.Sized() && |allObjs| == view.N()
    {
    }

    lemma KnownFlags()
      requires Valid()
      ensures aborted == view.aborted && shouldQuit == view.shouldQuit && numberOfRunningProcs == view.running
      ensures |allObjs| == view.N() && signalFd == view.signalFd
    {
    }

    // One turn of the loop.  `t` is what the operating system contributes to it.
    method Pass(t: Tick) returns (verdict: Verdict)
      requires Valid() && !aborted && Inv(view) && TickOk(view, t) && signalMask == SIGNAL_MASK
      modifies this, allObjs
      ensures Valid() && allObjs == old(allObjs) && signalMask == old(signalMask)
      ensures (view, verdict) == Iterate(old(view), t)
    {
      hide Valid, Inv, Start, TickOk, ReapAll, DeliverAll;
      ghost var start := view;
      KnownFlags();
      TickSizes(start, t);
      TickData(start, t);
      StartKeeps(start, t.top);
      StartPrograms(t.top);
      ReapChildren(t.reaps);
      KnownFlags();
      DeliverEvents(t.wakes);
      KnownFlags();
      if aborted {
        return Threw;
      }
      if numberOfRunningProcs == 0 && shouldQuit {
        return QuitReturn;
      }
      if !shouldQuit {
        StartPrograms(t.bottom);
        KnownFlags();
        if numberOfRunningProcs == 0 {
          return IdleReturn;
        }
      }
      return Looping;
    }

    // The whole call: it is followed until it returns, throws, or what is given of
    // the operating system's doings is used up.
    method EnterEventLoop(fd: int, first: seq<Grant>, ticks: seq<Tick>) returns (verdict: Verdict)
      requires Valid() && view.plan.WellFormed() && view == Unarmed(view.plan)
      requires KernelFresh(Initial(view.plan, fd), first)
      requires LoopOk(Start(Initial(view.plan, fd), first), ticks)
      modifies this, allObjs
      ensures Valid() && allObjs == old(allObjs)
      ensures (view, verdict) == Loop(Start(Initial(old(view).plan, fd), first), ticks)
      ensures Reachable(old(view).plan, view)
      ensures verdict == IdleReturn ==> Settled(view) && !shouldQuit
      ensures verdict == QuitReturn ==> shouldQuit && idForPid == map[]
      ensures verdict == IdleReturn || verdict == QuitReturn ==>
        forall child | child in allObjs :: child.state != RUNNING
    {
      hide Valid, Inv, KernelFresh, Start, LoopOk, Settled, TickOk, Iterate, Loop, Reachable;
      ghost var initial := Initial(view.plan, fd);
      InitialInv(view.plan, fd);
      KernelSize(initial, first);
      StartKeeps(initial, first);
      ghost var start := Start(initial, first);
      LoopReaches(view.plan, fd, first, ticks);
      LoopReturnsAreRight(start, ticks);
      SetupSignalHandlers(fd);
      KnownFlags();
      StartPrograms(first);
      KnownFlags();
      var k := 0;
      verdict := Looping;
      while k < |ticks| && verdict == Looping
        invariant k <= |ticks| && Valid() && allObjs == old(allObjs) && signalMask == SIGNAL_MASK && Inv(view)
        invariant verdict == Looping ==>
          !aborted && LoopOk(view, ticks[k..]) && Loop(view, ticks[k..]) == Loop(start, ticks)
        invariant verdict != Looping ==> (view, verdict) == Loop(start, ticks)
      {
        ghost var before := view;
        KnownFlags();
        LoopUnfolds(before, ticks, k);
        verdict := Pass(ticks[k]);
        KnownFlags();
        k := k + 1;
      }
      if verdict == Looping {
        assert ticks[k..] == [];
        LoopEnds(view);
      }
      KnownFlags();
      NobodyRuns(verdict);
    }

    lemma NobodyRuns(verdict: Verdict)
      requires Valid() && Inv(view)
      requires verdict == IdleReturn ==> Settled(view)
      requires verdict == QuitReturn ==> RunningPrograms(view) == {} && view.idForPid == map[]
      ensures verdict == QuitReturn ==> idForPid == map[]
      ensures verdict == IdleReturn || verdict == QuitReturn ==>
        forall child | child in allObjs :: child.state != RUNNING
    {
      hide Inv;
      hide Waiting, TurnedAway;
      forall child | child in allObjs && (verdict == IdleReturn || verdict == QuitReturn)
        ensures child.state != RUNNING
      {
        var k: nat :| k < |allObjs| && allObjs[k] == child;
        if verdict == IdleReturn {
          assert Quiet(view, k);
        } else {
          assert k !in RunningPrograms(view);
        }
      }
    }
  }

  lemma {:induction false} LoopUnfolds(s: Sup, ticks: seq<Tick>, k: nat)
    requires Inv(s) && k < |ticks| && LoopOk(s, ticks[k..]) && !s.aborted
    ensures TickOk(s, ticks[k]) && |ticks[k].top| == |ticks[k].bottom| == s.N() && s.Sized()
    ensures var next := Iterate(s, ticks[k]);
      && Inv(next.0)
      && (if next.1 == Looping
          then !next.0.aborted && LoopOk(next.0, ticks[k + 1..]) && Loop(s, ticks[k..]) == Loop(next.0, ticks[k + 1..])
          else Loop(s, ticks[k..]) == next)
  {
    hide Inv, TickOk, Handled, Start, KernelFresh;
    assert ticks[k..][0] == ticks[k] && ticks[k..][1..] == ticks[k + 1..];
    TickSizes(s, ticks[k]);
    var steps, n, bottom := IterateIsRun(s, ticks[k]);
    RunKeeps(s, steps);
  }

  lemma LoopEnds(s: Sup)
    ensures LoopOk(s, []) && Loop(s, []) == (s, Looping)
  {
  }

  lemma TickData(s: Sup, t: Tick)
    requires TickOk(s, t)
    ensures KernelFresh(s, t.top)
    ensures forall k | 0 <= k < |t.wakes| ::
      |t.wakes[k].data| <= BUF_SIZE && (t.wakes[k].fd == s.signalFd ==> t.wakes[k].signo in SIGNAL_MASK)
  {
  }

  // `byId` leads from each position to the program there.
  ghost predicate Names(byId: map<nat, ChildProcess>, objs: seq<ChildProcess>) {
    && (forall id: nat :: id in byId <==> id < |objs|)
    && (forall k: nat | k < |objs| :: byId[k] == objs[k])
  }

  // The handlers of each position are the program there and no other.
  ghost predicate Handles(handlers: map<nat, seq<ChildProcess>>, objs: seq<ChildProcess>) {
    && (forall id: nat :: id in handlers <==> id < |objs|)
    && (forall k: nat | k < |objs| :: handlers[k] == [objs[k]])
  }

  // What registration leaves behind: epoll is not set up yet.
  ghost function Unarmed(plan: Plan): (s: Sup)
    requires plan.WellFormed()
    ensures s.Sized() && s.plan == plan
  {
    Initial(plan, -1).(interest := {})
  }

  ghost predicate Unforked(objs: seq<ChildProcess>)
    reads objs`primaryPid, objs`stdoutFd, objs`stderrFd
  {
    forall k | 0 <= k < |objs| :: objs[k].AsGrant() == NO_GRANT
  }

  lemma RegisterNone(children: seq<Child>)
    ensures Register(children, 0) == children
  {
  }

  lemma {:induction false} RegisterNext(children: seq<Child>, k: nat)
    requires k < |children|
    ensures Register(children, k + 1) == Propagate(Register(children, k), k)
  {
    hide Propagate;
  }

  // read() fills the front of a zeroed buffer.
  method ReadOutput(data: seq<char>) returns (str: string)
    requires |data| <= 4096
    ensures str == Output(data)
  {
    hide Output;
    var buf := new char[BUF_SIZE + 1](k => if 0 <= k < |data| then data[k] else '\0');
    assert buf[..|data|] == data;
    str := TrimOutput(buf, |data|);
  }

  // The objects are in the states, and hold the descriptors, that the view says.
  ghost predicate Matches(objs: seq<ChildProcess>, view: Sup)
    reads objs
  {
    && view.Sized() && view.N() == |objs|
    && forall k | 0 <= k < |objs| ::
      && objs[k].name == view.plan.names[k] && objs[k].conditions == view.plan.conditions[k]
      && objs[k].state == view.state[k] && objs[k].AsGrant() == view.grant[k]
  }

  lemma {:induction false} MatchesSame(objs: seq<ChildProcess>, v: Sup, w: Sup)
    requires Matches(objs, v) && w.Sized() && w.plan == v.plan && w.state == v.state && w.grant == v.grant
    ensures Matches(objs, w)
  {
  }

  lemma {:induction false} OthersApart(objs: seq<ChildProcess>, k: nat)
    requires Listed(objs) && k < |objs|
    ensures forall j | 0 <= j < |objs| && j != k :: objs[j] != objs[k]
  {
    forall j | 0 <= j < |objs| && j != k
      ensures objs[j] != objs[k]
    {
      assert objs[j].graphId == j && objs[k].graphId == k;
    }
  }

  // A turn of the second loop is do_fork, register_with_epoll and the bookkeeping.
  lemma StartOneParts(s: Sup, kernel: seq<Grant>, k: nat)
    requires s.Sized() && k < s.N() == |kernel|
    ensures s.state[k] != READY || s.plan.names[k] in s.loggers ==> StartOne(s, kernel, k) == s
    ensures s.state[k] == READY && s.plan.names[k] !in s.loggers ==>
      StartOne(s, kernel, k) == StartRecorded(StartWatched(StartForked(s, kernel[k], k), k), k)
  {
  }

  function StartForked(s: Sup, g: Grant, k: nat): (r: Sup)
    requires s.Sized() && k < s.N()
    ensures r.Sized() && r.N() == s.N() && r.grant[k] == g
  {
    s.(state := s.state[k := RUNNING], grant := s.grant[k := g], idForPid := s.idForPid[g.pid := k])
  }

  function StartWatched(s: Sup, k: nat): (r: Sup)
    requires s.Sized() && k < s.N()
    ensures r.Sized() && r.N() == s.N() && r.grant[k] == s.grant[k]
  {
    var g := s.grant[k];
    s.(interest := s.interest + {g.out, g.err},
       idForFd := s.idForFd[g.out := k][g.err := k],
       fdType := s.fdType[g.out := STDOUT][g.err := STDERR])
  }

  function StartRecorded(s: Sup, k: nat): (r: Sup)
    requires s.Sized() && k < s.N()
    ensures r.Sized()
  {
    s.(numFdForId := s.numFdForId[k := 2], running := s.running + 1,
       loggers := s.loggers + {s.plan.names[k]}, log := s.log + [Forked(k, s.grant[k].pid)])
  }

  lemma NotifyNone(plan: Plan, state: seq<State>)
    requires |state| == |plan.conditions|
    ensures NotifyAll(plan, state, []) == state
  {
  }

  lemma {:induction false} NotifyNext(plan: Plan, state: seq<State>, order: seq<nat>, k: nat)
    requires |state| == |plan.conditions| && Positions(order, |state|) && k < |order|
    ensures NotifyAll(plan, state, order[..k + 1]) == Notify(plan, NotifyAll(plan, state, order[..k]), order[k])
  {
    hide Notify;
    assert order[..k + 1][..k] == order[..k];
  }

  lemma StartNone(s: Sup, kernel: seq<Grant>)
    requires s.Sized() && |kernel| == s.N()
    ensures StartEach(s, kernel, []) == s
  {
  }

  ghost predicate ToCome(rest: set<int>, all: seq<int>, k: nat) {
    k <= |all| && forall p :: p in rest <==> p in all[k..]
  }

  lemma AllToCome(rest: set<int>, all: seq<int>)
    requires forall p :: p in rest <==> p in all
    ensures ToCome(rest, all, 0)
  {
    assert all[0..] == all;
  }

  // In an ascending list the next entry is the least of those to come.
  lemma {:induction false} LeastAmong(rest: set<int>, all: seq<int>, k: nat)
    requires k < |all| && ToCome(rest, all, k)
    requires forall a, b | 0 <= a < b < |all| :: all[a] < all[b]
    ensures all[k] in rest && forall p | p in rest :: all[k] <= p
    ensures ToCome(rest - {all[k]}, all, k + 1)
  {
    assert all[k] == all[k..][0];
    assert all[k..] == [all[k]] + all[k + 1..];
    forall p | p in rest
      ensures all[k] <= p
    {
      assert p in all[k..];
      var m :| 0 <= m < |all[k..]| && all[k..][m] == p;
      assert all[k + m] == p;
    }
  }

  lemma {:induction false} KillsNext(all: seq<int>, k: nat, signal: Signal)
    requires k < |all|
    ensures Kills(all[..k + 1], signal) == Kills(all[..k], signal) + [Killed(all[k], signal)]
  {
  }
}
