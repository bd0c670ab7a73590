// The environment a child is started with: layers of variables, each overriding
// the ones before it, printed one per line and split into lines again.
module Environment {
  import opened Lifecycle
  import opened Collections

  type Vars = map<string, string>

  // Where `c` first occurs, None when it does not.
  function Find(text: string, c: char): (r: Option<nat>)
    ensures r.Some? ==> r.value < |text| && text[r.value] == c && c !in text[..r.value]
    ensures r.None? ==> c !in text
  {
    if text == [] then None
    else if text[0] == c then Some(0)
    else
      var rest := Find(text[1..], c);
      if rest.None? then None
      else
        assert text[..rest.value + 1] == [text[0]] + text[1..][..rest.value];
        Some(rest.value + 1)
  }

  // What substr(0, pos) makes of an entry: without an equals sign, all of it.
  function KeyPart(entry: string): string {
    match Find(entry, '=')
    case Some(pos) => entry[..pos]
    case None => entry
  }

  // What substr(pos + 1) makes of it: npos + 1 is zero, so again all of it.
  function ValuePart(entry: string): string {
    match Find(entry, '=')
    case Some(pos) => entry[pos + 1..]
    case None => entry
  }

  // An entry that begins with an equals sign has no name and makes the call throw.
  predicate Nameless(entry: string) {
    entry != [] && entry[0] == '='
  }

  // What a program asks for.
  datatype Wish = Wish(
    allowed: set<string>,
    username: string,
    wantDefault: bool,
    extra: seq<(string, string)>)

  // Template rendering is a total function of the template and the variables so far.
  type Render = (string, Vars) -> string

  // ---------------------------------------------------------------- the layers

  function Inherit(environ: seq<string>, allowed: set<string>): Vars {
    if environ == [] then map[]
    else
      var last := |environ| - 1;
      var before := Inherit(environ[..last], allowed);
      var key := KeyPart(environ[last]);
      if key in allowed then before[key := ValuePart(environ[last])] else before
  }

  function Defaults(username: string): Vars {
    map["LANG" := "C", "LANGUAGE" := "en", "LOGNAME" := username,
        "PATH" := "/usr/local/bin:/usr/bin:/bin", "SHELL" := "/bin/bash",
        "TERM" := "screen", "HOME" := "/app", "PWD" := "/app"]
  }

  // Everything below the extra variables.
  function Base(environ: seq<string>, wish: Wish): Vars {
    Inherit(environ, wish.allowed)["USER" := wish.username]
    + if wish.wantDefault then Defaults(wish.username) else map[]
  }

  function Extend(vars: Vars, extra: seq<(string, string)>, render: Render): Vars {
    if extra == [] then vars
    else
      var last := |extra| - 1;
      var before := Extend(vars, extra[..last], render);
      before[extra[last].0 := render(extra[last].1, before)]
  }

  function Variables(environ: seq<string>, wish: Wish, render: Render): Vars {
    Extend(Base(environ, wish), wish.extra, render)
  }

  // ------------------------------------------------------- printing and splitting

  function Line(key: string, value: string): string {
    key + "=" + value
  }

  function PrintVars(vars: Vars, order: seq<string>): string
    requires forall k | 0 <= k < |order| :: order[k] in vars
  {
    if order == [] then ""
    else
      var last := |order| - 1;
      PrintVars(vars, order[..last]) + Line(order[last], vars[order[last]]) + "\n"
  }

  // The getline loop: what follows the last newline counts unless it is empty.
  function SplitLines(text: string): seq<string>
    decreases |text|
  {
    if text == "" then []
    else
      match Find(text, '\n')
      case None => [text]
      case Some(pos) => [text[..pos]] + SplitLines(text[pos + 1..])
  }

  function Lines(vars: Vars, order: seq<string>): (r: seq<string>)
    requires forall k | 0 <= k < |order| :: order[k] in vars
    ensures |r| == |order| && forall k | 0 <= k < |order| :: r[k] == order[k] + "=" + vars[order[k]]
  {
    seq(|order|, k requires 0 <= k < |order| => Line(order[k], vars[order[k]]))
  }

  // Byte-wise order of names, as the JSON object keeps them.
  predicate NameLeq(a: string, b: string) {
    a == [] || (b != [] && (a[0] < b[0] || (a[0] == b[0] && NameLeq(a[1..], b[1..]))))
  }

  ghost function KeyOrder(vars: Vars): (r: seq<string>)
    ensures |r| == |vars| && forall k :: k in r <==> k in vars
  {
    Ascending(NameLeq, vars.Keys)
  }

  // What the child gets, or None when building it throws.
  ghost function Environ(environ: seq<string>, wish: Wish, render: Render): Option<seq<string>> {
    if exists k :: 0 <= k < |environ| && Nameless(environ[k]) then None
    else
      var vars := Variables(environ, wish, render);
      Some(SplitLines(PrintVars(vars, KeyOrder(vars))))
  }

  lemma {:induction false} NameLeqTotal(a: string, b: string)
    ensures NameLeq(a, b) || NameLeq(b, a)
  {
    if a != [] && b != [] && a[0] == b[0] {
      NameLeqTotal(a[1..], b[1..]);
    }
  }

  lemma {:induction false} NameLeqAntisymmetric(a: string, b: string)
    requires NameLeq(a, b) && NameLeq(b, a)
    ensures a == b
  {
    if a != [] {
      NameLeqAntisymmetric(a[1..], b[1..]);
      assert a == [a[0]] + a[1..] && b == [b[0]] + b[1..];
    }
  }

  lemma {:induction false} NameLeqTransitive(a: string, b: string, c: string)
    requires NameLeq(a, b) && NameLeq(b, c)
    ensures NameLeq(a, c)
  {
    if a != [] && a[0] == b[0] == c[0] {
      NameLeqTransitive(a[1..], b[1..], c[1..]);
    }
  }

  lemma {:induction false} NamesAreOrdered()
    ensures TotalOrder(NameLeq)
  {
    forall a, b
      ensures NameLeq(a, b) || NameLeq(b, a)
      ensures NameLeq(a, b) && NameLeq(b, a) ==> a == b
    {
      NameLeqTotal(a, b);
      if NameLeq(a, b) && NameLeq(b, a) {
        NameLeqAntisymmetric(a, b);
      }
    }
    forall a, b, c | NameLeq(a, b) && NameLeq(b, c)
      ensures NameLeq(a, c)
    {
      NameLeqTransitive(a, b, c);
    }
  }

  // ---------------------------------------------------------------- the operation

  lemma {:induction false} PrintNext(vars: Vars, done: seq<string>, key: string)
    requires key in vars && forall k | 0 <= k < |done| :: done[k] in vars
    ensures (forall k | 0 <= k < |done + [key]| :: (done + [key])[k] in vars)
    ensures PrintVars(vars, done + [key]) == PrintVars(vars, done) + Line(key, vars[key]) + "\n"
  {
    assert (done + [key])[..|done|] == done;
  }

  lemma {:induction false} WalkNext(done: seq<string>, rest: set<string>, key: string, all: seq<string>)
    requires TotalOrder(NameLeq) && IsLeast(NameLeq, key, rest) && done + Ascending(NameLeq, rest) == all
    ensures done + [key] + Ascending(NameLeq, rest - {key}) == all
  {
    hide NameLeq, TotalOrder, Ascending, IsLeast;
    AscendingStep(NameLeq, rest, key);
    assert done + [key] + Ascending(NameLeq, rest - {key}) == done + ([key] + Ascending(NameLeq, rest - {key}));
  }

  // The walk has visited `done` and printed `text`; `rest` is still to come.
  ghost predicate Rendering(vars: Vars, done: seq<string>, rest: set<string>, text: string) {
    && rest <= vars.Keys && done + Ascending(NameLeq, rest) == KeyOrder(vars)
    && (forall k | 0 <= k < |done| :: done[k] in vars)
    && text == PrintVars(vars, done)
  }

  lemma {:induction false} RenderingNext(vars: Vars, done: seq<string>, rest: set<string>, text: string, key: string)
    requires Rendering(vars, done, rest, text) && IsLeast(NameLeq, key, rest)
    ensures key in vars
    ensures Rendering(vars, done + [key], rest - {key}, text + Line(key, vars[key]) + "\n")
  {
    hide NameLeq, TotalOrder, Ascending, Line, PrintVars, KeyOrder;
    NamesAreOrdered();
    WalkNext(done, rest, key, KeyOrder(vars));
    PrintNext(vars, done, key);
  }

  lemma {:induction false} RenderingEnds(vars: Vars, done: seq<string>, text: string)
    requires Rendering(vars, done, {}, text)
    ensures text == PrintVars(vars, KeyOrder(vars))
  {
    hide NameLeq, KeyOrder, PrintVars;
    assert Ascending(NameLeq, {}) == [];
    assert done == KeyOrder(vars);
  }

  // Where the walk over an ordered map goes next.
  method FirstName(names: set<string>) returns (key: string)
    requires |names| > 0
    ensures key in names && IsLeast(NameLeq, key, names)
  {
    hide NameLeq, TotalOrder;
    NamesAreOrdered();
    LeastExists(NameLeq, names);
    key :| key in names && forall k | k in names :: NameLeq(key, k);
  }

  // The template engine visits the variables in the order of their names.
  method RenderLines(vars: Vars) returns (text: string)
    ensures text == PrintVars(vars, KeyOrder(vars))
  {
    hide NameLeq, Rendering, Line, PrintVars, KeyOrder, IsLeast;
    text := "";
    var rest := vars.Keys;
    ghost var done: seq<string> := [];
    NothingPrinted(vars);
    while |rest| > 0
      invariant Rendering(vars, done, rest, text)
      decreases |rest|
    {
      var key := FirstName(rest);
      RenderingNext(vars, done, rest, text, key);
      text := text + Line(key, vars[key]) + "\n";
      rest := rest - {key};
      done := done + [key];
    }
    assert rest == {};
    RenderingEnds(vars, done, text);
  }

  lemma NothingPrinted(vars: Vars)
    ensures Rendering(vars, [], vars.Keys, "")
  {
    hide NameLeq, Ascending;
    assert [] + Ascending(NameLeq, vars.Keys) == KeyOrder(vars);
  }

  method GetLines(text: string) returns (lines: seq<string>)
    ensures lines == SplitLines(text)
  {
    hide SplitLines, Find;
    lines := [];
    var rest := text;
    NothingToSplit();
    while rest != ""
      invariant lines + SplitLines(rest) == SplitLines(text)
      decreases |rest|
    {
      SplitByFind(rest);
      var pos := Find(rest, '\n');
      if pos.None? {
        lines := lines + [rest];
        rest := "";
      } else {
        lines := lines + [rest[..pos.value]];
        rest := rest[pos.value + 1..];
      }
    }
  }

  lemma {:induction false} SplitByFind(text: string)
    requires text != ""
    ensures match Find(text, '\n')
      case None => SplitLines(text) == [text]
      case Some(pos) => SplitLines(text) == [text[..pos]] + SplitLines(text[pos + 1..])
  {
    hide Find;
  }

  lemma NothingToSplit()
    ensures SplitLines("") == []
  {
  }

  // One more entry, as the loop handles it.
  lemma {:induction false} InheritNext(environ: seq<string>, allowed: set<string>, i: nat)
    requires i < |environ|
    ensures Inherit(environ[..i + 1], allowed) ==
      var before := Inherit(environ[..i], allowed);
      if KeyPart(environ[i]) in allowed then before[KeyPart(environ[i]) := ValuePart(environ[i])] else before
  {
    hide KeyPart, ValuePart;
    assert environ[..i + 1][..i] == environ[..i];
  }

  lemma {:induction false} ExtendNext(vars: Vars, extra: seq<(string, string)>, render: Render, i: nat)
    requires i < |extra|
    ensures Extend(vars, extra[..i + 1], render) ==
      var before := Extend(vars, extra[..i], render);
      before[extra[i].0 := render(extra[i].1, before)]
  {
    assert extra[..i + 1][..i] == extra[..i];
  }

  lemma {:induction false} NamelessFind(entry: string)
    ensures Nameless(entry) <==> Find(entry, '=') == Some(0)
  {
  }

  method HandleEnv(environ: seq<string>, wish: Wish, render: Render) returns (r: Option<seq<string>>)
    ensures r == Environ(environ, wish, render)
  {
    hide Find, Nameless, Inherit, Extend, PrintVars, SplitLines;
    var vars: Vars := map[];
    assert Inherit(environ[..0], wish.allowed) == map[] by {
      NothingInherited(wish.allowed);
    }
    for i := 0 to |environ|
      invariant vars == Inherit(environ[..i], wish.allowed)
      invariant forall k | 0 <= k < i :: !Nameless(environ[k])
    {
      InheritNext(environ, wish.allowed, i);
      NamelessFind(environ[i]);
      var pos := Find(environ[i], '=');
      if pos == Some(0) {
        return None;
      }
      var key := if pos.Some? then environ[i][..pos.value] else environ[i];
      if key in wish.allowed {
        var val := if pos.Some? then environ[i][pos.value + 1..] else environ[i];
        vars := vars[key := val];
      }
    }
    assert environ[..|environ|] == environ;
    vars := vars["USER" := wish.username];
    if wish.wantDefault {
      vars := AddDefaults(vars, wish.username);
    }
    assert vars == Base(environ, wish);
    assert Extend(Base(environ, wish), wish.extra[..0], render) == vars by {
      NothingExtended(vars, render);
    }
    for i := 0 to |wish.extra|
      invariant vars == Extend(Base(environ, wish), wish.extra[..i], render)
    {
      ExtendNext(Base(environ, wish), wish.extra, render, i);
      var val := render(wish.extra[i].1, vars);
      vars := vars[wish.extra[i].0 := val];
    }
    assert wish.extra[..|wish.extra|] == wish.extra;
    var text := RenderLines(vars);
    var lines := GetLines(text);
    r := Some(lines);
  }

  lemma NothingInherited(allowed: set<string>)
    ensures Inherit([], allowed) == map[]
  {
  }

  lemma NothingExtended(vars: Vars, render: Render)
    ensures Extend(vars, [], render) == vars
  {
  }

  // The default variables, one assignment after the other.
  method AddDefaults(inherited: Vars, username: string) returns (vars: Vars)
    ensures vars == inherited + Defaults(username)
  {
    vars := inherited["LANG" := "C"];
    vars := vars["LANGUAGE" := "en"];
    vars := vars["LOGNAME" := username];
    vars := vars["PATH" := "/usr/local/bin:/usr/bin:/bin"];
    vars := vars["SHELL" := "/bin/bash"];
    vars := vars["TERM" := "screen"];
    vars := vars["HOME" := "/app"];
    vars := vars["PWD" := "/app"];
  }

  // -------------------------------------------------------------------- layering

  // Entry `k` is the last one that sets `key`.
  predicate LastSets(environ: seq<string>, allowed: set<string>, key: string, k: nat) {
    && key in allowed && k < |environ| && KeyPart(environ[k]) == key
    && forall m | k < m < |environ| :: KeyPart(environ[m]) != key
  }

  lemma {:induction false} InheritNames(environ: seq<string>, allowed: set<string>, key: string)
    ensures key in Inherit(environ, allowed) <==>
      key in allowed && exists k :: 0 <= k < |environ| && KeyPart(environ[k]) == key
  {
    hide KeyPart, ValuePart;
    if environ != [] {
      InheritNames(environ[..|environ| - 1], allowed, key);
    }
  }

  lemma {:induction false} InheritValue(environ: seq<string>, allowed: set<string>, key: string, k: nat)
    requires LastSets(environ, allowed, key, k)
    ensures key in Inherit(environ, allowed) && Inherit(environ, allowed)[key] == ValuePart(environ[k])
  {
    hide KeyPart, ValuePart;
    var last := |environ| - 1;
    if k < last {
      var init := environ[..last];
      assert LastSets(init, allowed, key, k);
      InheritValue(init, allowed, key, k);
    }
  }

  predicate LastExtra(extra: seq<(string, string)>, key: string, j: nat) {
    j < |extra| && extra[j].0 == key && forall m | j < m < |extra| :: extra[m].0 != key
  }

  predicate IsExtra(extra: seq<(string, string)>, key: string) {
    exists j :: 0 <= j < |extra| && extra[j].0 == key
  }

  lemma {:induction false} ExtendNames(vars: Vars, extra: seq<(string, string)>, render: Render, key: string)
    ensures key in Extend(vars, extra, render) <==> key in vars || IsExtra(extra, key)
    ensures !IsExtra(extra, key) && key in vars ==> Extend(vars, extra, render)[key] == vars[key]
  {
    if extra != [] {
      var last := |extra| - 1;
      var init := extra[..last];
      ExtendNames(vars, init, render, key);
      assert extra == init + [extra[last]];
      assert IsExtra(extra, key) <==> IsExtra(init, key) || extra[last].0 == key by {
        if IsExtra(init, key) {
          var j :| 0 <= j < |init| && init[j].0 == key;
          assert extra[j].0 == key;
        }
      }
    }
  }

  lemma {:induction false} ExtendValue(vars: Vars, extra: seq<(string, string)>, render: Render, key: string, j: nat)
    requires LastExtra(extra, key, j)
    ensures key in Extend(vars, extra, render)
    ensures Extend(vars, extra, render)[key] == render(extra[j].1, Extend(vars, extra[..j], render))
  {
    var last := |extra| - 1;
    if j < last {
      var init := extra[..last];
      assert LastExtra(init, key, j);
      ExtendValue(vars, init, render, key, j);
      assert init[..j] == extra[..j];
    }
  }

  // The names in the final environment: what was inherited and allowed, USER, the
  // defaults if wanted, and the extra variables.
  lemma {:induction false} VariableNames(environ: seq<string>, wish: Wish, render: Render, key: string)
    ensures key in Variables(environ, wish, render) <==>
      || (key in wish.allowed && exists k :: 0 <= k < |environ| && KeyPart(environ[k]) == key)
      || key == "USER"
      || (wish.wantDefault && key in {"LANG", "LANGUAGE", "LOGNAME", "PATH", "SHELL", "TERM", "HOME", "PWD"})
      || IsExtra(wish.extra, key)
  {
    hide KeyPart;
    ExtendNames(Base(environ, wish), wish.extra, render, key);
    InheritNames(environ, wish.allowed, key);
    assert Defaults(wish.username).Keys == {"LANG", "LANGUAGE", "LOGNAME", "PATH", "SHELL", "TERM", "HOME", "PWD"};
  }

  // Each value comes from the last layer that sets it, and an extra template sees
  // exactly the layers and the extras before it.
  lemma {:induction false} VariableValues(environ: seq<string>, wish: Wish, render: Render, key: string)
    requires key in Variables(environ, wish, render)
    ensures var value := Variables(environ, wish, render)[key];
      if IsExtra(wish.extra, key) then
        forall j: nat | LastExtra(wish.extra, key, j) ::
          value == render(wish.extra[j].1, Extend(Base(environ, wish), wish.extra[..j], render))
      else if wish.wantDefault && key in Defaults(wish.username) then value == Defaults(wish.username)[key]
      else if key == "USER" then value == wish.username
      else forall k: nat | LastSets(environ, wish.allowed, key, k) :: value == ValuePart(environ[k])
  {
    hide KeyPart, ValuePart, Defaults;
    ExtendNames(Base(environ, wish), wish.extra, render, key);
    forall j: nat | LastExtra(wish.extra, key, j)
      ensures Variables(environ, wish, render)[key] ==
        render(wish.extra[j].1, Extend(Base(environ, wish), wish.extra[..j], render))
    {
      ExtendValue(Base(environ, wish), wish.extra, render, key, j);
    }
    forall k: nat | LastSets(environ, wish.allowed, key, k)
      ensures key in Inherit(environ, wish.allowed) && Inherit(environ, wish.allowed)[key] == ValuePart(environ[k])
    {
      InheritValue(environ, wish.allowed, key, k);
    }
    NoDefaultUser(wish.username);
  }

  lemma NoDefaultUser(username: string)
    ensures "USER" !in Defaults(username)
  {
  }

  // The value of a default variable, whatever was inherited, unless an extra sets it.
  lemma {:induction false} DefaultValues(environ: seq<string>, wish: Wish, render: Render, key: string)
    requires forall j | 0 <= j < |wish.extra| :: wish.extra[j].0 != key
    requires wish.wantDefault && key in {"LANG", "LANGUAGE", "LOGNAME", "PATH", "SHELL", "TERM", "HOME", "PWD"}
    ensures key in Variables(environ, wish, render)
    ensures var value := Variables(environ, wish, render)[key];
      && (key == "LANG" ==> value == "C")
      && (key == "LANGUAGE" ==> value == "en")
      && (key == "LOGNAME" ==> value == wish.username)
      && (key == "PATH" ==> value == "/usr/local/bin:/usr/bin:/bin")
      && (key == "SHELL" ==> value == "/bin/bash")
      && (key == "TERM" ==> value == "screen")
      && (key == "HOME" ==> value == "/app")
      && (key == "PWD" ==> value == "/app")
  {
    hide Inherit, Extend;
    ExtendNames(Base(environ, wish), wish.extra, render, key);
  }

  // USER is the user the program runs as, defaults or not, unless an extra sets it.
  lemma {:induction false} UserValue(environ: seq<string>, wish: Wish, render: Render)
    requires forall j | 0 <= j < |wish.extra| :: wish.extra[j].0 != "USER"
    ensures "USER" in Variables(environ, wish, render)
    ensures Variables(environ, wish, render)["USER"] == wish.username
  {
    hide Inherit, Extend, Defaults;
    ExtendNames(Base(environ, wish), wish.extra, render, "USER");
    NoDefaultUser(wish.username);
  }

  // An inherited entry is split at its first equals sign; without one it is name and
  // value at once.
  lemma {:induction false} EntrySplits(entry: string)
    ensures if '=' in entry then entry == KeyPart(entry) + "=" + ValuePart(entry) && '=' !in KeyPart(entry)
            else KeyPart(entry) == entry && ValuePart(entry) == entry
  {
    hide Find;
    var pos := Find(entry, '=');
    if pos.Some? {
      assert entry[pos.value] == '=';
    }
  }

  // Building the environment throws exactly for an entry that begins with an equals sign.
  lemma {:induction false} ThrowsExactly(environ: seq<string>, wish: Wish, render: Render)
    ensures Environ(environ, wish, render) == None <==>
      exists k :: 0 <= k < |environ| && environ[k] != "" && environ[k][0] == '='
  {
    assert forall k | 0 <= k < |environ| :: Nameless(environ[k]) <==> environ[k] != "" && environ[k][0] == '=';
  }

  // ---------------------------------------------------------- the order of names

  // `a` is a proper beginning of `b`, or has the smaller byte where they first differ.
  ghost predicate ComesFirst(a: string, b: string) {
    exists m: nat :: m <= |a| && m <= |b| && FirstDifference(a, b, m)
  }

  predicate FirstDifference(a: string, b: string, m: nat)
    requires m <= |a| && m <= |b|
  {
    a[..m] == b[..m] && m < |b| && (m < |a| ==> a[m] < b[m])
  }

  lemma {:induction false} NameLeqMeans(a: string, b: string)
    requires NameLeq(a, b) && a != b
    ensures ComesFirst(a, b)
    decreases |a|
  {
    if a == [] {
      assert FirstDifference(a, b, 0);
    } else if a[0] < b[0] {
      assert FirstDifference(a, b, 0);
    } else {
      assert a == [a[0]] + a[1..] && b == [b[0]] + b[1..];
      NameLeqMeans(a[1..], b[1..]);
      var m: nat :| m <= |a[1..]| && m <= |b[1..]| && FirstDifference(a[1..], b[1..], m);
      assert a[..m + 1] == [a[0]] + a[1..][..m] && b[..m + 1] == [b[0]] + b[1..][..m];
      assert FirstDifference(a, b, m + 1);
    }
  }

  // The variables come out byte by byte in ascending order of their names.
  lemma {:induction false} NamesAscend(vars: Vars, j: nat, k: nat)
    requires j < k < |KeyOrder(vars)|
    ensures ComesFirst(KeyOrder(vars)[j], KeyOrder(vars)[k])
  {
    hide NameLeq, KeyOrder, ComesFirst;
    KeyOrderLists(vars);
    NameLeqMeans(KeyOrder(vars)[j], KeyOrder(vars)[k]);
  }

  // ------------------------------------------------------------------ round trips

  function Newlines(text: string): nat {
    if text == "" then 0 else (if text[0] == '\n' then 1 else 0) + Newlines(text[1..])
  }

  lemma {:induction false} NewlinesAdd(a: string, b: string)
    ensures Newlines(a + b) == Newlines(a) + Newlines(b)
  {
    if a == "" {
      assert a + b == b;
    } else {
      assert (a + b)[1..] == a[1..] + b;
      NewlinesAdd(a[1..], b);
    }
  }

  lemma {:induction false} NoNewlines(text: string)
    ensures Newlines(text) == 0 <==> '\n' !in text
  {
    if text != "" {
      NoNewlines(text[1..]);
    }
  }

  // A text that ends with a newline splits into as many lines as it has newlines.
  lemma {:induction false} LineCount(text: string)
    requires text == "" || text[|text| - 1] == '\n'
    ensures |SplitLines(text)| == Newlines(text)
    decreases |text|
  {
    hide SplitLines, Find;
    if text == "" {
      NothingToSplit();
    } else {
      var pos := FirstNewline(text);
      SplitFirst(text, pos);
      NewlinesAround(text, pos);
      LineCount(text[pos + 1..]);
    }
  }

  lemma {:induction false} NewlinesAround(text: string, pos: nat)
    requires pos < |text| && text[pos] == '\n' && '\n' !in text[..pos]
    ensures Newlines(text) == 1 + Newlines(text[pos + 1..])
  {
    var head, rest := text[..pos], text[pos + 1..];
    assert text == head + ("\n" + rest);
    NewlinesAdd(head, "\n" + rest);
    assert ("\n" + rest)[1..] == rest;
    NoNewlines(head);
  }

  // Every line with a newline after it.
  function Joined(lines: seq<string>): string {
    if lines == [] then "" else lines[0] + "\n" + Joined(lines[1..])
  }

  // `text`, with a newline at the end if something is missing one.
  function Ended(text: string): string {
    if text == "" || text[|text| - 1] == '\n' then text else text + "\n"
  }

  lemma {:induction false} SplitJoined(lines: seq<string>)
    requires forall k | 0 <= k < |lines| :: '\n' !in lines[k]
    ensures SplitLines(Joined(lines)) == lines
  {
    hide SplitLines;
    if lines == [] {
      NothingToSplit();
    } else {
      var whole := Joined(lines);
      var n := |lines[0]|;
      assert whole[..n] == lines[0] && whole[n] == '\n' && whole[n + 1..] == Joined(lines[1..]);
      SplitFirst(whole, n);
      SplitJoined(lines[1..]);
    }
  }

  lemma {:induction false} SplitsInto(text: string)
    ensures forall k | 0 <= k < |SplitLines(text)| :: '\n' !in SplitLines(text)[k]
    ensures Joined(SplitLines(text)) == Ended(text)
    decreases |text|
  {
    hide SplitLines, Find, Joined;
    if text == "" {
      NothingToSplit();
      JoinedUnfolds([]);
    } else {
      SplitByFind(text);
      var pos := Find(text, '\n');
      JoinedUnfolds(SplitLines(text));
      if pos.Some? {
        var rest := text[pos.value + 1..];
        SplitsInto(rest);
        assert text == text[..pos.value] + "\n" + rest;
        assert SplitLines(text)[1..] == SplitLines(rest);
      } else {
        JoinedUnfolds([]);
        assert [text][1..] == [];
        assert text[|text| - 1] in text;
      }
    }
  }

  lemma JoinedUnfolds(lines: seq<string>)
    ensures Joined(lines) == if lines == [] then "" else lines[0] + "\n" + Joined(lines[1..])
  {
  }

  // The lines of a text are the newline-free strings that give it back when joined.
  lemma {:induction false} SplitExactly(text: string, lines: seq<string>)
    ensures lines == SplitLines(text) <==>
      (forall k | 0 <= k < |lines| :: '\n' !in lines[k]) && Joined(lines) == Ended(text)
  {
    hide SplitLines, Joined;
    SplitsInto(text);
    if (forall k | 0 <= k < |lines| :: '\n' !in lines[k]) && Joined(lines) == Ended(text) {
      SplitJoined(lines);
      SplitJoined(SplitLines(text));
    }
  }

  // Adding one clean line at the end adds it to the split.
  lemma {:induction false} SplitAppend(text: string, line: string)
    requires text == "" || text[|text| - 1] == '\n'
    requires '\n' !in line
    ensures SplitLines(text + line + "\n") == SplitLines(text) + [line]
    decreases |text|
  {
    hide SplitLines, Find;
    var whole := text + line + "\n";
    if text == "" {
      assert whole[..|line|] == line && whole[|line| + 1..] == "";
      SplitFirst(whole, |line|);
      NothingToSplit();
    } else {
      var pos := FirstNewline(text);
      var rest := text[pos + 1..];
      SplitFirst(text, pos);
      assert whole[..pos] == text[..pos] && whole[pos + 1..] == rest + line + "\n";
      SplitFirst(whole, pos);
      SplitAppend(rest, line);
    }
  }

  lemma {:induction false} FirstNewline(text: string) returns (pos: nat)
    requires text != "" && text[|text| - 1] == '\n'
    ensures pos < |text| && text[pos] == '\n' && '\n' !in text[..pos]
  {
    hide Find;
    pos := Find(text, '\n').value;
  }

  lemma {:induction false} SplitFirst(text: string, pos: nat)
    requires pos < |text| && text[pos] == '\n' && '\n' !in text[..pos]
    ensures SplitLines(text) == [text[..pos]] + SplitLines(text[pos + 1..])
  {
    hide Find;
    FindAt(text, '\n', pos);
  }

  lemma {:induction false} FirstIsUnique(text: string, c: char, p: nat, q: nat)
    requires p < |text| && text[p] == c && c !in text[..p]
    requires q < |text| && text[q] == c && c !in text[..q]
    ensures p == q
  {
    assert forall k | 0 <= k < p :: text[..p][k] == text[k];
    assert forall k | 0 <= k < q :: text[..q][k] == text[k];
  }

  lemma {:induction false} FindAt(text: string, c: char, pos: nat)
    requires pos < |text| && text[pos] == c && c !in text[..pos]
    ensures Find(text, c) == Some(pos)
  {
    hide Find;
    var found := Find(text, c);
    assert text[pos] in text;
    assert found.Some?;
    FirstIsUnique(text, c, pos, found.value);
  }

  predicate OneLineEach(vars: Vars, order: seq<string>)
    requires forall k | 0 <= k < |order| :: order[k] in vars
  {
    forall k | 0 <= k < |order| :: '\n' !in order[k] && '\n' !in vars[order[k]]
  }

  lemma {:induction false} PrintEnds(vars: Vars, order: seq<string>)
    requires forall k | 0 <= k < |order| :: order[k] in vars
    ensures var text := PrintVars(vars, order); text == "" || text[|text| - 1] == '\n'
  {
  }

  lemma {:induction false} PrintNewlines(vars: Vars, order: seq<string>)
    requires forall k | 0 <= k < |order| :: order[k] in vars
    ensures Newlines(PrintVars(vars, order)) >= |order|
    ensures !OneLineEach(vars, order) ==> Newlines(PrintVars(vars, order)) > |order|
  {
    hide Newlines, Line;
    if order != [] {
      var last := |order| - 1;
      var key := order[last];
      var before := PrintVars(vars, order[..last]);
      PrintNewlines(vars, order[..last]);
      NewlinesAdd(before, Line(key, vars[key]));
      NewlinesAdd(before + Line(key, vars[key]), "\n");
      OneNewline();
      NewlinesOfLine(key, vars[key]);
      NoNewlines(key);
      NoNewlines(vars[key]);
      assert order == order[..last] + [key];
    }
  }

  lemma OneNewline()
    ensures Newlines("\n") == 1
  {
    assert "\n"[1..] == "";
  }

  lemma {:induction false} NewlinesOfLine(key: string, value: string)
    ensures Newlines(Line(key, value)) == Newlines(key) + Newlines(value)
  {
    NewlinesAdd(key + "=", value);
    NewlinesAdd(key, "=");
    assert "="[1..] == "";
  }

  lemma {:induction false} CleanLinesSplit(vars: Vars, order: seq<string>)
    requires forall k | 0 <= k < |order| :: order[k] in vars
    requires OneLineEach(vars, order)
    ensures SplitLines(PrintVars(vars, order)) == Lines(vars, order)
  {
    hide SplitLines;
    if order == [] {
      NothingToSplit();
    } else {
      var last := |order| - 1;
      var line := Line(order[last], vars[order[last]]);
      CleanLinesSplit(vars, order[..last]);
      PrintEnds(vars, order[..last]);
      OneLine(order[last], vars[order[last]]);
      hide Line;
      SplitAppend(PrintVars(vars, order[..last]), line);
      assert Lines(vars, order) == Lines(vars, order[..last]) + [line];
    }
  }

  lemma {:induction false} OneLine(key: string, value: string)
    requires '\n' !in key && '\n' !in value
    ensures '\n' !in Line(key, value)
  {
  }

  // Printing and splitting gives exactly one string per variable, in order, exactly
  // when no name and no value contains a newline.
  lemma {:induction false} SplitsBackExactly(vars: Vars, order: seq<string>)
    requires forall k | 0 <= k < |order| :: order[k] in vars
    ensures SplitLines(PrintVars(vars, order)) == Lines(vars, order) <==> OneLineEach(vars, order)
  {
    hide OneLineEach, PrintVars, SplitLines;
    if OneLineEach(vars, order) {
      CleanLinesSplit(vars, order);
    } else {
      PrintNewlines(vars, order);
      PrintEnds(vars, order);
      LineCount(PrintVars(vars, order));
    }
  }

  lemma {:induction false} LineParts(key: string, value: string)
    ensures '=' !in key ==> KeyPart(Line(key, value)) == key && ValuePart(Line(key, value)) == value
    ensures '=' in key ==> KeyPart(Line(key, value)) != key
  {
    var line := Line(key, value);
    if '=' !in key {
      assert line[..|key|] == key;
      FindAt(line, '=', |key|);
      assert line[|key| + 1..] == value;
    } else {
      hide Find;
      assert line[|key|] == '=';
      var pos := Find(line, '=');
      assert pos.Some?;
      assert '=' !in line[..pos.value];
    }
  }

  predicate ListsOnce(vars: Vars, order: seq<string>) {
    && (forall k | 0 <= k < |order| :: order[k] in vars)
    && (forall key | key in vars :: key in order)
    && (forall j, k | 0 <= j < k < |order| :: order[j] != order[k])
  }

  // Reading the printed variables back, under the same names, recovers them exactly
  // when no name contains an equals sign.
  lemma {:induction false} ReadsBackExactly(vars: Vars, order: seq<string>)
    requires ListsOnce(vars, order) && OneLineEach(vars, order)
    ensures Inherit(SplitLines(PrintVars(vars, order)), vars.Keys) == vars <==>
      (forall key | key in vars :: '=' !in key)
  {
    hide PrintVars, SplitLines, KeyPart, ValuePart, Line, Inherit;
    CleanLinesSplit(vars, order);
    var lines := Lines(vars, order);
    if key :| key in vars && '=' in key {
      LinesMissKey(vars, order, key);
      InheritNames(lines, vars.Keys, key);
    } else {
      forall key
        ensures key in Inherit(lines, vars.Keys) <==> key in vars
        ensures key in vars ==> Inherit(lines, vars.Keys)[key] == vars[key]
      {
        InheritNames(lines, vars.Keys, key);
        if key in vars {
          var k :| 0 <= k < |order| && order[k] == key;
          LineOfKey(vars, order, k);
          InheritValue(lines, vars.Keys, key, k);
        }
      }
    }
  }

  lemma {:induction false} LinesMissKey(vars: Vars, order: seq<string>, key: string)
    requires ListsOnce(vars, order) && '=' in key
    ensures forall k | 0 <= k < |order| :: KeyPart(Lines(vars, order)[k]) != key
  {
    hide KeyPart, ValuePart, Line;
    forall k | 0 <= k < |order|
      ensures KeyPart(Lines(vars, order)[k]) != key
    {
      KeyPartHasNone(Lines(vars, order)[k]);
    }
  }

  lemma {:induction false} KeyPartHasNone(line: string)
    ensures '=' !in KeyPart(line)
  {
    hide Find;
  }

  lemma {:induction false} LineOfKey(vars: Vars, order: seq<string>, k: nat)
    requires ListsOnce(vars, order) && k < |order| && forall key | key in vars :: '=' !in key
    ensures LastSets(Lines(vars, order), vars.Keys, order[k], k)
    ensures ValuePart(Lines(vars, order)[k]) == vars[order[k]]
  {
    hide KeyPart, ValuePart, Line;
    var lines := Lines(vars, order);
    forall m | 0 <= m < |order|
      ensures KeyPart(lines[m]) == order[m] && ValuePart(lines[m]) == vars[order[m]]
    {
      LineParts(order[m], vars[order[m]]);
    }
  }

  // The names come out in ascending order, each once.
  lemma {:induction false} KeyOrderLists(vars: Vars)
    ensures ListsOnce(vars, KeyOrder(vars)) && Ordered(NameLeq, KeyOrder(vars))
  {
    hide NameLeq, Ascending, TotalOrder;
    NamesAreOrdered();
    AscendingIsOrdered(NameLeq, vars.Keys);
    var order := KeyOrder(vars);
    forall k | 0 <= k < |order|
      ensures order[k] in vars
    {
      assert order[k] in order;
    }
  }

  // What the child is given, when nothing contains a newline: one `name=value` string
  // per variable, in ascending order of the names.
  lemma {:induction false} EnvironIsLines(environ: seq<string>, wish: Wish, render: Render)
    requires forall k | 0 <= k < |environ| :: !Nameless(environ[k])
    ensures var vars := Variables(environ, wish, render);
      && ListsOnce(vars, KeyOrder(vars))
      && (OneLineEach(vars, KeyOrder(vars)) <==> Environ(environ, wish, render) == Some(Lines(vars, KeyOrder(vars))))
  {
    hide Variables, PrintVars, SplitLines, OneLineEach, Lines;
    var vars := Variables(environ, wish, render);
    KeyOrderLists(vars);
    SplitsBackExactly(vars, KeyOrder(vars));
  }
}
