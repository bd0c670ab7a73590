// Configuration: the entries of the files become program objects, numbered in the
// order of reading and made known to the handler under that number.
module ConfigFile {
  import opened Lifecycle
  import opened Registration
  import opened Supervisor
  import opened Invariants
  import opened Runs
  import opened EventLoop
  import opened Quiescence
  import opened EndToEnd
  import opened Processes
  import opened Handler

  // One entry of a `programs` list, as far as registration depends on it.
  datatype Node = Node(
    name: Option<string>,
    path: Option<string>,
    typeName: Option<string>,
    before: seq<string>,
    after: seq<string>)

  // A file is its `programs` list, None if it has none.
  type File = Option<seq<Node>>

  predicate Usable(node: Node) {
    node.name.Some? && node.path.Some?
  }

  function TypeOf(node: Node): string {
    if node.typeName.Some? then node.typeName.value else "simple"
  }

  function ChildOf(node: Node): Child
    requires Usable(node)
  {
    Child(node.name.value, KindOf(TypeOf(node)), node.before, node.after, [], BLOCKED)
  }

  // Entries without a name or a path are skipped.
  function Parse(nodes: seq<Node>): (r: seq<Child>)
    ensures AllFresh(r)
  {
    if nodes == [] then []
    else
      var last := nodes[|nodes| - 1];
      Parse(nodes[..|nodes| - 1]) + if Usable(last) then [ChildOf(last)] else []
  }

  // The files in order; one without a `programs` list ends the reading.
  function Declared(files: seq<File>): (r: seq<Child>)
    ensures AllFresh(r)
  {
    if files == [] then []
    else
      var last := files[|files| - 1];
      Declared(files[..|files| - 1]) +
      if Loads(files) then Parse(last.value) else []
  }

  predicate Loads(files: seq<File>) {
    forall k | 0 <= k < |files| :: files[k].Some?
  }

  class Config {
    const handler: ProcessHandler
    var processes: seq<ChildProcess>
    var childCounter: nat

    constructor (handler: ProcessHandler)
      requires handler.objForId == map[] && handler.sigForId == map[]
      ensures this.handler == handler && Valid() && Children(processes) == []
    {
      this.handler := handler;
      processes := [];
      childCounter := 0;
    }

    // Ids are list positions, and the handler knows every program by its id.
    ghost predicate Valid()
      reads this, handler`objForId, handler`sigForId, processes`primaryPid, processes`stdoutFd, processes`stderrFd
    {
      && childCounter == |processes| && Listed(processes) && Unforked(processes)
      && Names(handler.objForId, processes) && Handles(handler.sigForId, processes)
    }

    method AddProgram(node: Node)
      requires Valid() && Usable(node)
      modifies this`processes, this`childCounter, handler`objForId, handler`sigForId
      ensures Valid() && Children(processes) == old(Children(processes)) + [ChildOf(node)]
      ensures exists p :: fresh(p) && processes == old(processes) + [p]
    {
      hide Names, Handles, Listed, Unforked, Children, KindOf, TypeOf;
      ghost var earlier := processes;
      NoHandlerYet(handler.sigForId, processes);
      var process := NewProgram(node);
      Grows(earlier, process, handler.objForId, old(handler.sigForId));
      childCounter := childCounter + 1;
      processes := processes + [process];
      handler.RegisterObjId(process.graphId, process);
    }

    // A program object has itself told of its exits.
    method NewProgram(node: Node) returns (process: ChildProcess)
      requires Usable(node) && childCounter !in handler.sigForId
      modifies handler`sigForId
      ensures fresh(process) && process.graphId == childCounter
      ensures process.AsChild() == ChildOf(node) && process.AsGrant() == NO_GRANT
      ensures handler.sigForId == old(handler.sigForId)[childCounter := [process]]
    {
      hide KindOf, TypeOf;
      process := new ChildProcess(node.name.value, TypeOf(node), childCounter, node.before, node.after);
      handler.RegisterForProcessState(childCounter, process);
      assert [] + [process] == [process];
    }

    method ParseFile(nodes: seq<Node>)
      requires Valid()
      modifies this`processes, this`childCounter, handler`objForId, handler`sigForId
      ensures Valid() && Children(processes) == old(Children(processes)) + Parse(nodes)
      ensures forall p | p in processes :: p in old(processes) || fresh(p)
    {
      hide Valid, Children, Parse;
      ParseNone();
      for k := 0 to |nodes|
        invariant Valid() && Children(processes) == old(Children(processes)) + Parse(nodes[..k])
        invariant forall p | p in processes :: p in old(processes) || fresh(p)
      {
        ParseNext(nodes, k);
        if nodes[k].name.None? {
          continue;
        }
        if nodes[k].path.None? {
          continue;
        }
        AddProgram(nodes[k]);
      }
      assert nodes[..|nodes|] == nodes;
    }

    // False stands for the exception thrown at a file without a `programs` list.
    method LoadFiles(files: seq<File>) returns (ok: bool)
      requires Valid() && processes == []
      modifies this`processes, this`childCounter, handler`objForId, handler`sigForId
      ensures ok == Loads(files)
      ensures Valid() && Children(processes) == Declared(files)
      ensures forall p | p in processes :: fresh(p)
    {
      hide Children, Parse, Declared;
      DeclaredNone();
      for k := 0 to |files|
        invariant Valid() && Loads(files[..k]) && Children(processes) == Declared(files[..k])
        invariant forall p | p in processes :: fresh(p)
      {
        DeclaredNext(files, k);
        if files[k].None? {
          return false;
        }
        ParseFile(files[k].value);
      }
      assert files[..|files|] == files;
      return true;
    }

    function GetProcesses(): seq<ChildProcess>
      reads this
    {
      processes
    }
  }

  lemma ParseNone()
    ensures Parse([]) == []
  {
  }

  lemma {:induction false} ParseNext(nodes: seq<Node>, k: nat)
    requires k < |nodes|
    ensures Parse(nodes[..k + 1]) == Parse(nodes[..k]) + if Usable(nodes[k]) then [ChildOf(nodes[k])] else []
  {
    assert nodes[..k + 1][..k] == nodes[..k];
  }

  lemma DeclaredNone()
    ensures Declared([]) == []
  {
  }

  // Nothing is read from the first file without a `programs` list onwards.
  lemma {:induction false} DeclaredNext(files: seq<File>, k: nat)
    requires k < |files| && Loads(files[..k])
    ensures files[k].Some? ==>
      Loads(files[..k + 1]) && Declared(files[..k + 1]) == Declared(files[..k]) + Parse(files[k].value)
    ensures files[k].None? ==> !Loads(files) && Declared(files) == Declared(files[..k])
  {
    hide Parse;
    assert files[..k + 1][..k] == files[..k];
    if files[k].Some? {
      assert forall j | 0 <= j < k :: files[..k][j] == files[j];
    } else {
      DeclaredStops(files, k);
    }
  }

  lemma {:induction false} DeclaredStops(files: seq<File>, k: nat)
    requires k < |files| && files[k].None?
    ensures !Loads(files) && Declared(files) == Declared(files[..k])
  {
    hide Parse;
    var last := |files| - 1;
    if k < last {
      DeclaredStops(files[..last], k);
      assert files[..last][..k] == files[..k];
    }
  }

  // One more program at the end, under the next id.
  lemma {:induction false} Grows(objs: seq<ChildProcess>, p: ChildProcess,
                                 byId: map<nat, ChildProcess>, handlers: map<nat, seq<ChildProcess>>)
    requires Listed(objs) && Unforked(objs) && Names(byId, objs) && Handles(handlers, objs)
    requires p.graphId == |objs| && p.AsGrant() == NO_GRANT
    ensures Listed(objs + [p]) && Unforked(objs + [p]) && Names(byId[|objs| := p], objs + [p])
    ensures Handles(handlers[|objs| := [p]], objs + [p])
    ensures Children(objs + [p]) == Children(objs) + [p.AsChild()]
  {
    hide Names, Handles, Unforked, Children;
    NamesGrow(objs, p, byId);
    HandlesGrow(objs, p, handlers);
    UnforkedGrows(objs, p);
    ChildrenGrow(objs, p);
  }

  lemma NamesGrow(objs: seq<ChildProcess>, p: ChildProcess, byId: map<nat, ChildProcess>)
    requires Names(byId, objs)
    ensures Names(byId[|objs| := p], objs + [p])
  {
  }

  lemma NoHandlerYet(handlers: map<nat, seq<ChildProcess>>, objs: seq<ChildProcess>)
    requires Handles(handlers, objs)
    ensures |objs| !in handlers
  {
  }

  lemma HandlesGrow(objs: seq<ChildProcess>, p: ChildProcess, handlers: map<nat, seq<ChildProcess>>)
    requires Handles(handlers, objs)
    ensures Handles(handlers[|objs| := [p]], objs + [p])
  {
  }

  lemma UnforkedGrows(objs: seq<ChildProcess>, p: ChildProcess)
    requires Unforked(objs) && p.AsGrant() == NO_GRANT
    ensures Unforked(objs + [p])
  {
  }

  lemma {:induction false} ChildrenGrow(objs: seq<ChildProcess>, p: ChildProcess)
    ensures Children(objs + [p]) == Children(objs) + [p.AsChild()]
  {
    assert (objs + [p])[..|objs|] == objs;
  }

  // ------------------------------------------------------------ what was read

  // "simple", each letter small or capital.
  predicate SpellsSimple(text: string) {
    |text| == 6 && forall k | 0 <= k < 6 :: text[k] == "simple"[k] || text[k] == "SIMPLE"[k]
  }

  lemma {:induction false} KindIsSpelled(typeName: string)
    ensures KindOf(typeName) == SIMPLE <==> SpellsSimple(typeName)
  {
    var lower := Lower(typeName);
    assert forall k | 0 <= k < |typeName| :: |typeName| == 6 ==>
      (lower[k] == "simple"[k] <==> typeName[k] == "simple"[k] || typeName[k] == "SIMPLE"[k]);
  }

  // `child` holds what the entry says.
  predicate ReadFrom(child: Child, node: Node) {
    && node.name.Some? && node.path.Some?
    && child.name == node.name.value && child.before == node.before && child.after == node.after
    && child.conditions == [] && child.state == BLOCKED
    && (child.kind == SIMPLE <==> (node.typeName.None? || SpellsSimple(node.typeName.value)))
  }

  lemma {:induction false} EntryIsRead(node: Node)
    requires node.name.Some? && node.path.Some?
    ensures ReadFrom(ChildOf(node), node)
  {
    hide KindOf, SpellsSimple;
    KindIsSpelled(if node.typeName.Some? then node.typeName.value else "simple");
    SimpleIsSimple();
  }

  lemma SimpleIsSimple()
    ensures SpellsSimple("simple")
  {
  }

  // The programs read from a list are, in order, exactly its entries that have a name
  // and a path; `at[k]` is the entry of program `k`.
  lemma {:induction false} EntriesBecomePrograms(nodes: seq<Node>) returns (at: seq<nat>)
    ensures |at| == |Parse(nodes)|
    ensures forall k | 0 <= k < |at| :: at[k] < |nodes| && ReadFrom(Parse(nodes)[k], nodes[at[k]])
    ensures forall j, k | 0 <= j < k < |at| :: at[j] < at[k]
    ensures forall e: nat | e < |nodes| && nodes[e].name.Some? && nodes[e].path.Some? :: e in at
  {
    hide ReadFrom, ChildOf, Parse;
    at := [];
    if nodes == [] {
      ParseNone();
    } else {
      var last := |nodes| - 1;
      var init := nodes[..last];
      var before := EntriesBecomePrograms(init);
      ParseNext(nodes, last);
      assert nodes[..last + 1] == nodes;
      var more := if Usable(nodes[last]) then [last] else [];
      if Usable(nodes[last]) {
        EntryIsRead(nodes[last]);
      }
      at := before + more;
      forall k | 0 <= k < |before|
        ensures before[k] < last && ReadFrom(Parse(nodes)[k], nodes[before[k]])
      {
        assert init[before[k]] == nodes[before[k]];
        assert Parse(nodes)[k] == Parse(init)[k];
      }
      forall e: nat | e < |nodes| && nodes[e].name.Some? && nodes[e].path.Some?
        ensures e in at
      {
        if e < last {
          assert init[e] == nodes[e];
          assert e in before;
        } else {
          assert e in more;
        }
      }
    }
  }

  // By file, and within a file by entry.
  predicate Ascends(at: seq<(nat, nat)>) {
    forall j, k | 0 <= j < k < |at| :: at[j].0 < at[k].0 || (at[j].0 == at[k].0 && at[j].1 < at[k].1)
  }

  // An entry with a name and a path, before any file without a `programs` list.
  predicate Wanted(files: seq<File>, f: nat, e: nat) {
    && f < |files| && (forall g | 0 <= g <= f :: files[g].Some?)
    && e < |files[f].value| && files[f].value[e].name.Some? && files[f].value[e].path.Some?
  }

  // Such an entry and a program belong together.
  predicate ReadAt(files: seq<File>, place: (nat, nat), child: Child) {
    Wanted(files, place.0, place.1) && ReadFrom(child, files[place.0].value[place.1])
  }

  // Over any files: the programs are, in order, exactly the entries with a name and a
  // path of the files before the first one without a `programs` list.
  lemma {:induction false} FilesBecomePrograms(files: seq<File>) returns (at: seq<(nat, nat)>)
    ensures |at| == |Declared(files)|
    ensures forall k | 0 <= k < |at| :: ReadAt(files, at[k], Declared(files)[k])
    ensures Ascends(at)
    ensures forall f: nat, e: nat | Wanted(files, f, e) :: (f, e) in at
  {
    hide ReadAt, Ascends, Wanted, Parse;
    at := [];
    if files == [] {
      NoFiles();
    } else {
      var last := |files| - 1;
      var before := FilesBecomePrograms(files[..last]);
      forall k | 0 <= k < |before|
        ensures ReadAt(files, before[k], Declared(files[..last])[k]) && before[k].0 < last
      {
        ReadAtStays(files, last, before[k], Declared(files[..last])[k]);
      }
      at := before;
      if Loads(files) {
        var inLast := EntriesBecomePrograms(files[last].value);
        at := before + Places(last, inLast);
        forall k | 0 <= k < |inLast|
          ensures ReadAt(files, (last, inLast[k]), Parse(files[last].value)[k])
        {
          ReadAtLast(files, last, inLast[k], Parse(files[last].value)[k]);
        }
        StillAscends(before, last, inLast);
      }
      forall f: nat, e: nat | Wanted(files, f, e)
        ensures (f, e) in at
      {
        WantedWhere(files, last, f, e);
        if f < last {
          assert (f, e) in before;
        } else {
          AllLoad(files, f, e);
          var inLast := at[|before|..];
          assert at == before + inLast;
          assert (f, e) in inLast;
        }
      }
    }
  }

  function Places(f: nat, entries: seq<nat>): (r: seq<(nat, nat)>)
    ensures |r| == |entries| && forall k | 0 <= k < |r| :: r[k] == (f, entries[k])
    ensures forall e | e in entries :: (f, e) in r
  {
    var r := seq(|entries|, k requires 0 <= k < |entries| => (f, entries[k]));
    assert forall k | 0 <= k < |entries| :: r[k] == (f, entries[k]);
    r
  }

  lemma NoFiles()
    ensures Ascends([]) && forall f: nat, e: nat :: !Wanted([], f, e)
  {
  }

  lemma ReadAtStays(files: seq<File>, last: nat, place: (nat, nat), child: Child)
    requires last < |files| && ReadAt(files[..last], place, child)
    ensures ReadAt(files, place, child) && place.0 < last
  {
    hide ReadFrom;
    assert forall g | 0 <= g < last :: files[..last][g] == files[g];
  }

  lemma ReadAtLast(files: seq<File>, last: nat, e: nat, child: Child)
    requires last < |files| && Loads(files) && e < |files[last].value|
    requires ReadFrom(child, files[last].value[e])
    ensures ReadAt(files, (last, e), child)
  {
  }

  lemma StillAscends(before: seq<(nat, nat)>, last: nat, inLast: seq<nat>)
    requires Ascends(before) && forall k | 0 <= k < |before| :: before[k].0 < last
    requires forall j, k | 0 <= j < k < |inLast| :: inLast[j] < inLast[k]
    ensures Ascends(before + Places(last, inLast))
  {
  }

  lemma WantedWhere(files: seq<File>, last: nat, f: nat, e: nat)
    requires last == |files| - 1 && Wanted(files, f, e)
    ensures f <= last && (f < last ==> Wanted(files[..last], f, e))
  {
    assert forall g | 0 <= g < last :: files[..last][g] == files[g];
  }

  lemma AllLoad(files: seq<File>, f: nat, e: nat)
    requires Wanted(files, f, e) && f == |files| - 1
    ensures Loads(files) && e < |files[f].value|
    ensures files[f].value[e].name.Some? && files[f].value[e].path.Some?
  {
  }

  // The edges of the registered graph are those the entries declare.
  lemma {:induction false} EdgesAreRead(files: seq<File>, at: seq<(nat, nat)>, q: nat, p: nat)
    requires |at| == |Declared(files)| && q < |at| && p < |at|
    requires ReadAt(files, at[q], Declared(files)[q]) && ReadAt(files, at[p], Declared(files)[p])
    ensures at[q].0 < |files| && files[at[q].0].Some? && at[q].1 < |files[at[q].0].value|
    ensures at[p].0 < |files| && files[at[p].0].Some? && at[p].1 < |files[at[p].0].value|
    ensures var nq, np := files[at[q].0].value[at[q].1], files[at[p].0].value[at[p].1];
      && nq.name.Some? && np.name.Some?
      && (BeforeEdge(Declared(files), q, p) <==> np.name.value in nq.before)
      && (AfterEdge(Declared(files), q, p) <==> nq.name.value in np.after)
  {
    hide Declared;
  }

  // register_processes, then the event loop.
  method Launch(handler: ProcessHandler, programs: seq<ChildProcess>, fd: int, first: seq<Grant>, ticks: seq<Tick>)
    returns (verdict: Verdict)
    requires handler.Pristine() && Listed(programs) && Unforked(programs)
    requires Names(handler.objForId, programs) && Handles(handler.sigForId, programs)
    requires AllFresh(Children(programs))
    requires KernelFresh(Begin(Children(programs), fd), first)
    requires LoopOk(Start(Begin(Children(programs), fd), first), ticks)
    modifies handler, programs
    ensures handler.Valid()
    ensures (handler.view, verdict) == Loop(Start(Begin(old(Children(programs)), fd), first), ticks)
    ensures Reachable(Registered(old(Children(programs))), handler.view)
    ensures verdict == IdleReturn ==> Settled(handler.view)
  {
    hide Names, Handles, Listed, Unforked, Children, Start, Unarmed, Loop, LoopOk, KernelFresh, Settled, Reachable;
    hide Registered, Register;
    handler.RegisterProcesses(programs);
    verdict := handler.EnterEventLoop(fd, first, ticks);
  }

  // What main() does with the files it was given.
  method Supervise(files: seq<File>, fd: int, first: seq<Grant>, ticks: seq<Tick>)
    returns (handler: ProcessHandler, verdict: Option<Verdict>)
    requires Loads(files) ==>
      && KernelFresh(Begin(Declared(files), fd), first)
      && LoopOk(Start(Begin(Declared(files), fd), first), ticks)
    ensures verdict.Some? <==> Loads(files)
    ensures verdict.Some? ==>
      && handler.Valid()
      && (handler.view, verdict.value) == Loop(Start(Begin(Declared(files), fd), first), ticks)
      && Reachable(Registered(Declared(files)), handler.view)
      && (verdict == Some(IdleReturn) ==> Settled(handler.view))
  {
    hide Names, Handles, Listed, Unforked, Children, Start, Unarmed, Loop, LoopOk, KernelFresh, Settled, Reachable;
    hide Declared, Registered, Register;
    handler := new ProcessHandler();
    var config := new Config(handler);
    var loaded := config.LoadFiles(files);
    if !loaded {
      return handler, None;
    }
    var programs := config.GetProcesses();
    assert forall p | p in programs :: fresh(p);
    assert forall k | 0 <= k < |programs| :: programs[k] in programs;
    var v := Launch(handler, programs, fd, first, ticks);
    return handler, Some(v);
  }
}
