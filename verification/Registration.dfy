// Dependency registration: names listed under `before` and `after` become wait
// conditions.  The functions follow the three nested loops over programs, names
// and programs, updating the list of programs one condition at a time; the lemmas
// say what the loops compute, as a graph over the declared names.
module Registration {
  import opened Lifecycle

  // A program as the registration sees it.  Its id is its position in the list.
  datatype Child = Child(
    name: string,
    kind: Kind,
    before: seq<string>,
    after: seq<string>,
    conditions: seq<Condition>,
    state: State)

  // ---------------------------------------------------------------- operations

  // The state awaited from program `q`, if any: the first entry for it counts.
  function Lookup(conditions: seq<Condition>, q: nat): Option<State> {
    if conditions == [] then None
    else
      var last := |conditions| - 1;
      var earlier := Lookup(conditions[..last], q);
      if earlier.Some? then earlier
      else if conditions[last].id == q then Some(conditions[last].awaited)
      else None
  }

  // Append a condition unless one on the same program is already there.
  function AddCondition(conditions: seq<Condition>, other: nat, awaited: State): seq<Condition> {
    if Lookup(conditions, other).Some? then conditions else conditions + [Condition(other, awaited)]
  }

  // Program `target` is told to wait for program `source`; the awaited state
  // follows the kind of program `i`, the one whose lists are being propagated.
  function Wait(children: seq<Child>, i: nat, target: nat, source: nat): seq<Child>
    requires i < |children| && target < |children|
  {
    children[target := children[target].(
      conditions := AddCondition(children[target].conditions, source, StartedState(children[i].kind)))]
  }

  // `r` is `children` with conditions possibly added and nothing else changed.
  ghost predicate OnlyConditions(children: seq<Child>, r: seq<Child>) {
    && |r| == |children|
    && forall p | 0 <= p < |children| :: r[p] == children[p].(conditions := r[p].conditions)
  }

  // One name of program `i` against the first `k` programs.  With `toOther` the
  // matching program waits for `i`, otherwise `i` waits for it.
  function Scan(children: seq<Child>, i: nat, name: string, toOther: bool, k: nat): (r: seq<Child>)
    requires i < |children| && k <= |children|
    ensures OnlyConditions(children, r)
  {
    if k == 0 then children
    else
      var done := Scan(children, i, name, toOther, k - 1);
      if done[k - 1].name != name then done
      else if toOther then Wait(done, i, k - 1, i)
      else Wait(done, i, i, k - 1)
  }

  // All of `names`, in order.
  function ScanNames(children: seq<Child>, i: nat, names: seq<string>, toOther: bool): (r: seq<Child>)
    requires i < |children|
    ensures OnlyConditions(children, r)
  {
    if names == [] then children
    else
      var done := ScanNames(children, i, names[..|names| - 1], toOther);
      Scan(done, i, names[|names| - 1], toOther, |children|)
  }

  // Clear both lists; a program that has no condition by now becomes READY.
  function Settle(child: Child): Child {
    child.(before := [], after := [],
           state := if child.conditions == [] then READY else child.state)
  }

  // One call of propagate_dependencies on program `i`.
  function Propagate(children: seq<Child>, i: nat): (r: seq<Child>)
    requires i < |children|
    ensures |r| == |children|
  {
    var told := ScanNames(children, i, children[i].before, true);
    var asked := ScanNames(told, i, children[i].after, false);
    asked[i := Settle(asked[i])]
  }

  // The first `k` programs in list order.
  function Register(children: seq<Child>, k: nat): (r: seq<Child>)
    requires k <= |children|
    ensures |r| == |children|
  {
    if k == 0 then children else Propagate(Register(children, k - 1), k - 1)
  }

  // --------------------------------------------------------- the declared graph

  // `q` lists `p` under `before`.
  predicate BeforeEdge(children: seq<Child>, q: nat, p: nat)
    requires q < |children| && p < |children|
  {
    children[p].name in children[q].before
  }

  // `p` lists `q` under `after`.
  predicate AfterEdge(children: seq<Child>, q: nat, p: nat)
    requires q < |children| && p < |children|
  {
    children[q].name in children[p].after
  }

  // Of two declarations of one edge, the one belonging to the program listed
  // first decides the awaited state, and it does so by that program's own kind.
  function DeclaredState(children: seq<Child>, q: nat, p: nat): State
    requires q < |children| && p < |children|
  {
    if BeforeEdge(children, q, p) && (q <= p || !AfterEdge(children, q, p))
    then StartedState(children[q].kind)
    else StartedState(children[p].kind)
  }

  predicate DeclaredEdge(children: seq<Child>, q: nat, p: nat)
    requires p < |children|
  {
    q < |children| && (BeforeEdge(children, q, p) || AfterEdge(children, q, p))
  }

  // A freshly constructed program: blocked, with no condition.
  predicate Fresh(child: Child) {
    child.state == BLOCKED && child.conditions == []
  }

  predicate AllFresh(children: seq<Child>) {
    forall p | 0 <= p < |children| :: Fresh(children[p])
  }

  // ------------------------------------------------------ conditions as a table

  predicate NoDuplicates(conditions: seq<Condition>) {
    forall j, k | 0 <= j < k < |conditions| :: conditions[j].id != conditions[k].id
  }

  // ------------------------------------------------------- condition lists

  lemma {:induction false} LookupMeansListed(conditions: seq<Condition>, q: nat, s: State)
    requires NoDuplicates(conditions)
    ensures Condition(q, s) in conditions <==> Lookup(conditions, q) == Some(s)
  {
    if conditions != [] {
      var last := |conditions| - 1;
      LookupMeansListed(conditions[..last], q, s);
      LookupFinds(conditions[..last], q);
      assert conditions == conditions[..last] + [conditions[last]];
    }
  }

  lemma {:induction false} LookupFinds(conditions: seq<Condition>, q: nat)
    ensures Lookup(conditions, q).Some? <==> exists k :: 0 <= k < |conditions| && conditions[k].id == q
  {
    if conditions != [] {
      LookupFinds(conditions[..|conditions| - 1], q);
    }
  }

  // `first` if it says something, otherwise `second`.
  function OrElse(first: Option<State>, second: Option<State>): Option<State> {
    if first.Some? then first else second
  }

  lemma AddConditionLookup(conditions: seq<Condition>, other: nat, awaited: State, q: nat)
    ensures Lookup(AddCondition(conditions, other, awaited), q) ==
      OrElse(Lookup(conditions, q), if q == other then Some(awaited) else None)
  {
  }

  lemma {:induction false} AddConditionDistinct(conditions: seq<Condition>, other: nat, awaited: State)
    requires NoDuplicates(conditions)
    ensures NoDuplicates(AddCondition(conditions, other, awaited))
  {
    LookupFinds(conditions, other);
  }

  // ------------------------------------------------------- what the loops compute

  // Matching `names` of `i` against the first `k` programs makes `p` wait for `q`.
  predicate Adds(children: seq<Child>, i: nat, names: seq<string>, toOther: bool, k: nat, p: nat, q: nat)
    requires i < |children| && k <= |children| && p < |children|
  {
    q < |children| &&
    if toOther then q == i && p < k && children[p].name in names
    else p == i && q < k && children[q].name in names
  }

  function Added(children: seq<Child>, i: nat, holds: bool): Option<State>
    requires i < |children|
  {
    if holds then Some(StartedState(children[i].kind)) else None
  }

  lemma {:induction false} ScanComputes(children: seq<Child>, i: nat, name: string, toOther: bool, k: nat,
                                        p: nat, q: nat)
    requires i < |children| && k <= |children| && p < |children|
    ensures Lookup(Scan(children, i, name, toOther, k)[p].conditions, q) ==
      OrElse(Lookup(children[p].conditions, q), Added(children, i, Adds(children, i, [name], toOther, k, p, q)))
    ensures NoDuplicates(children[p].conditions) ==> NoDuplicates(Scan(children, i, name, toOther, k)[p].conditions)
  {
    hide Lookup, AddCondition, NoDuplicates;
    if k != 0 {
      ScanComputes(children, i, name, toOther, k - 1, p, q);
      var done := Scan(children, i, name, toOther, k - 1);
      if done[k - 1].name == name && p == if toOther then k - 1 else i {
        var source := if toOther then i else k - 1;
        AddConditionLookup(done[p].conditions, source, StartedState(children[i].kind), q);
        if NoDuplicates(done[p].conditions) {
          AddConditionDistinct(done[p].conditions, source, StartedState(children[i].kind));
        }
      }
    }
  }

  lemma {:induction false} ScanNamesComputes(children: seq<Child>, i: nat, names: seq<string>, toOther: bool,
                                             p: nat, q: nat)
    requires i < |children| && p < |children|
    ensures Lookup(ScanNames(children, i, names, toOther)[p].conditions, q) ==
      OrElse(Lookup(children[p].conditions, q), Added(children, i, Adds(children, i, names, toOther, |children|, p, q)))
    ensures NoDuplicates(children[p].conditions) ==> NoDuplicates(ScanNames(children, i, names, toOther)[p].conditions)
  {
    if names != [] {
      var init, last := names[..|names| - 1], names[|names| - 1];
      assert names == init + [last];
      ScanNamesComputes(children, i, init, toOther, p, q);
      ScanComputes(ScanNames(children, i, init, toOther), i, last, toOther, |children|, p, q);
    }
  }

  // The lists of `i` make `p` wait for `q`.
  predicate Layer(children: seq<Child>, i: nat, p: nat, q: nat)
    requires i < |children| && p < |children|
  {
    q < |children| && ((q == i && BeforeEdge(children, i, p)) || (p == i && AfterEdge(children, q, i)))
  }

  // One program's propagation adds exactly its own layer, existing waits winning.
  lemma {:induction false} PropagateComputes(children: seq<Child>, i: nat, p: nat, q: nat)
    requires i < |children| && p < |children|
    ensures Lookup(Propagate(children, i)[p].conditions, q) ==
      OrElse(Lookup(children[p].conditions, q), Added(children, i, Layer(children, i, p, q)))
    ensures NoDuplicates(children[p].conditions) ==> NoDuplicates(Propagate(children, i)[p].conditions)
  {
    var told := ScanNames(children, i, children[i].before, true);
    ScanNamesComputes(children, i, children[i].before, true, p, q);
    ScanNamesComputes(told, i, children[i].after, false, p, q);
  }

  // After the first `k` programs have propagated, `p` waits for `q`.
  predicate Waits(children: seq<Child>, k: nat, p: nat, q: nat)
    requires k <= |children| && p < |children|
  {
    q < |children| && ((q < k && BeforeEdge(children, q, p)) || (p < k && AfterEdge(children, q, p)))
  }

  // ... and the program of the two that was listed first said in which state.
  function WaitsFor(children: seq<Child>, k: nat, p: nat, q: nat): Option<State>
    requires k <= |children| && p < |children|
  {
    if !Waits(children, k, p, q) then None
    else if q < k && BeforeEdge(children, q, p) && (q <= p || !(p < k && AfterEdge(children, q, p)))
    then Some(StartedState(children[q].kind))
    else Some(StartedState(children[p].kind))
  }

  // Names, kinds and the lists still to be read are as declared.
  lemma {:induction false} RegisterKeeps(children: seq<Child>, k: nat, p: nat)
    requires k <= |children| && p < |children|
    ensures var after := Register(children, k)[p];
      && after.name == children[p].name && after.kind == children[p].kind
      && (if p < k then after.before == [] && after.after == []
          else after == children[p].(conditions := after.conditions))
  {
    hide ScanNames;
    if k != 0 {
      RegisterKeeps(children, k - 1, p);
    }
  }

  lemma {:induction false} RegisterComputes(children: seq<Child>, k: nat, p: nat, q: nat)
    requires k <= |children| && p < |children| && AllFresh(children)
    ensures Lookup(Register(children, k)[p].conditions, q) == WaitsFor(children, k, p, q)
    ensures NoDuplicates(Register(children, k)[p].conditions)
  {
    hide Propagate;
    if k == 0 {
      assert Fresh(children[p]);
    } else {
      RegisterComputes(children, k - 1, p, q);
      var done := Register(children, k - 1);
      PropagateComputes(done, k - 1, p, q);
      RegisterKeeps(children, k - 1, p);
      RegisterKeeps(children, k - 1, k - 1);
      if q < |children| {
        RegisterKeeps(children, k - 1, q);
      }
    }
  }

  // A program is settled by its own propagation and not looked at again.
  lemma {:induction false} RegisterSettles(children: seq<Child>, k: nat, p: nat)
    requires p < k <= |children| && AllFresh(children)
    ensures Register(children, k)[p].state ==
      if Register(children, p + 1)[p].conditions == [] then READY else BLOCKED
  {
    hide ScanNames;
    if k == p + 1 {
      RegisterKeeps(children, p, p);
      assert Fresh(children[p]);
    } else {
      RegisterSettles(children, k - 1, p);
    }
  }

  // -------------------------------------------------------------- main results

  // Registration computes exactly the declared graph: every declared wait once,
  // nothing else, each with its declared state, and the lists are used up.
  lemma {:induction false} RegisteredGraph(children: seq<Child>, p: nat)
    requires AllFresh(children) && p < |children|
    ensures var after := Register(children, |children|)[p];
      && NoDuplicates(after.conditions)
      && (forall c: Condition :: c in after.conditions <==>
           DeclaredEdge(children, c.id, p) && c.awaited == DeclaredState(children, c.id, p))
      && after.before == [] && after.after == []
      && after.name == children[p].name && after.kind == children[p].kind
  {
    hide Register;
    RegisterKeeps(children, |children|, p);
    RegisterComputes(children, |children|, p, 0);
    var conditions := Register(children, |children|)[p].conditions;
    forall c: Condition
      ensures c in conditions <==> DeclaredEdge(children, c.id, p) && c.awaited == DeclaredState(children, c.id, p)
    {
      RegisterComputes(children, |children|, p, c.id);
      LookupMeansListed(conditions, c.id, c.awaited);
    }
  }

  // A declared wait of `p` was registered before `p` itself was settled.
  predicate GatedInTime(children: seq<Child>, p: nat)
    requires p < |children|
  {
    || (exists q: nat :: q < |children| && AfterEdge(children, q, p))
    || (exists q: nat :: q <= p && BeforeEdge(children, q, p))
  }

  // A program is left READY exactly when none of its `after` names matches and
  // nobody listed up to and including itself names it under `before`.
  lemma {:induction false} ReadyAfterRegistration(children: seq<Child>, p: nat)
    requires AllFresh(children) && p < |children|
    ensures Register(children, |children|)[p].state == if GatedInTime(children, p) then BLOCKED else READY
  {
    hide Register;
    RegisterSettles(children, |children|, p);
    var conditions := Register(children, p + 1)[p].conditions;
    if conditions != [] {
      var q := conditions[0].id;
      LookupFinds(conditions, q);
      RegisterComputes(children, p + 1, p, q);
    } else {
      forall q: nat | q < |children|
        ensures !AfterEdge(children, q, p)
        ensures q <= p ==> !BeforeEdge(children, q, p)
      {
        RegisterComputes(children, p + 1, p, q);
        assert !Waits(children, p + 1, p, q);
      }
    }
  }

  // Every declared edge holds its target back exactly when each program with
  // edges has an `after` match or a `before` edge from a program not listed later.
  lemma {:induction false} AllEdgesHonoured(children: seq<Child>)
    requires AllFresh(children)
    ensures (forall q: nat, p: nat | p < |children| && DeclaredEdge(children, q, p) ::
              Register(children, |children|)[p].state == BLOCKED)
      <==> (forall q: nat, p: nat | p < |children| && DeclaredEdge(children, q, p) :: GatedInTime(children, p))
  {
    forall p: nat | p < |children|
      ensures Register(children, |children|)[p].state == BLOCKED <==> GatedInTime(children, p)
    {
      ReadyAfterRegistration(children, p);
    }
  }

  // An `after` name that no `before` list of an earlier program pre-empted.
  predicate DecidingAfter(children: seq<Child>, q: nat, p: nat)
    requires q < |children| && p < |children|
  {
    AfterEdge(children, q, p) && !(BeforeEdge(children, q, p) && q < p)
  }

  // The condition of `p` on `q`, if there is one, awaits what the documentation
  // calls started for `q`'s own kind.
  predicate AwaitsOwnKind(children: seq<Child>, q: nat, p: nat)
    requires q < |children| && p < |children|
  {
    forall c | c in Register(children, |children|)[p].conditions && c.id == q ::
      c.awaited == StartedState(children[q].kind)
  }

  // The documentation counts a program as started by that program's own kind.  A
  // condition agrees with it unless a deciding `after` edge joins two kinds.
  lemma {:induction false} AwaitsOwnStartedState(children: seq<Child>, q: nat, p: nat)
    requires AllFresh(children) && q < |children| && p < |children|
    ensures AwaitsOwnKind(children, q, p) <==>
      (DecidingAfter(children, q, p) ==> children[q].kind == children[p].kind)
  {
    hide Register;
    RegisteredGraph(children, p);
    var after := Register(children, |children|)[p];
    assert Condition(q, DeclaredState(children, q, p)) in after.conditions <==> DeclaredEdge(children, q, p);
  }

  // Over a whole configuration: every condition agrees with the documentation
  // exactly when every deciding `after` edge joins two programs of one kind.
  lemma {:induction false} AllAwaitOwnStartedState(children: seq<Child>)
    requires AllFresh(children)
    ensures (forall q: nat, p: nat | q < |children| && p < |children| :: AwaitsOwnKind(children, q, p))
      <==> (forall q: nat, p: nat | q < |children| && p < |children| && DecidingAfter(children, q, p) ::
              children[q].kind == children[p].kind)
  {
    hide AwaitsOwnKind;
    forall q: nat, p: nat | q < |children| && p < |children|
      ensures AwaitsOwnKind(children, q, p) <==>
        (DecidingAfter(children, q, p) ==> children[q].kind == children[p].kind)
    {
      AwaitsOwnStartedState(children, q, p);
    }
  }
}
