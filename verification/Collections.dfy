// Helpers on sets and maps, and walking the keys of an ordered map.
module Collections {

  ghost function Pick<T>(s: set<T>): (x: T)
    requires |s| > 0
    ensures x in s
  {
    var x :| x in s;
    x
  }

  lemma KeyOf<K, V>(m: map<K, V>, v: V) returns (k: K)
    requires v in m.Values
    ensures k in m && m[k] == v
  {
    k :| k in m && m[k] == v;
  }

  // ------------------------------------------------------------ ordered traversal

  ghost predicate TotalOrder<K(!new)>(leq: (K, K) -> bool) {
    && (forall a, b :: leq(a, b) || leq(b, a))
    && (forall a, b :: leq(a, b) && leq(b, a) ==> a == b)
    && (forall a, b, c :: leq(a, b) && leq(b, c) ==> leq(a, c))
  }

  ghost predicate IsLeast<K>(leq: (K, K) -> bool, least: K, keys: set<K>) {
    least in keys && forall k | k in keys :: leq(least, k)
  }

  lemma {:induction false} LeastExists<K(!new)>(leq: (K, K) -> bool, keys: set<K>)
    requires TotalOrder(leq) && |keys| > 0
    ensures exists least :: IsLeast(leq, least, keys)
    decreases |keys|
  {
    var any := Pick(keys);
    assert leq(any, any);
    if |keys - {any}| == 0 {
      assert keys == {any};
      assert IsLeast(leq, any, keys);
    } else {
      LeastExists(leq, keys - {any});
      var least :| IsLeast(leq, least, keys - {any});
      assert forall k | k in keys :: k == any || k in keys - {any};
      assert IsLeast(leq, if leq(any, least) then any else least, keys);
    }
  }

  ghost function Least<K(!new)>(leq: (K, K) -> bool, keys: set<K>): (least: K)
    requires |keys| > 0
    ensures least in keys
    ensures TotalOrder(leq) ==> IsLeast(leq, least, keys)
  {
    if TotalOrder(leq) then
      LeastExists(leq, keys);
      var least :| IsLeast(leq, least, keys);
      least
    else Pick(keys)
  }

  predicate Ordered<K(==)>(leq: (K, K) -> bool, s: seq<K>) {
    forall a, b | 0 <= a < b < |s| :: leq(s[a], s[b]) && s[a] != s[b]
  }

  // A std::map is walked in ascending order of its keys.
  ghost function Ascending<K(!new)>(leq: (K, K) -> bool, keys: set<K>): (r: seq<K>)
    ensures |r| == |keys|
    ensures forall k :: k in r <==> k in keys
    decreases |keys|
  {
    if |keys| == 0 then []
    else
      var least := Least(leq, keys);
      [least] + Ascending(leq, keys - {least})
  }

  lemma {:induction false} AscendingIsOrdered<K(!new)>(leq: (K, K) -> bool, keys: set<K>)
    requires TotalOrder(leq)
    ensures Ordered(leq, Ascending(leq, keys))
    decreases |keys|
  {
    hide Ordered, TotalOrder;
    if |keys| == 0 {
      EmptyOrdered(leq);
    } else {
      var least := Least(leq, keys);
      AscendingIsOrdered(leq, keys - {least});
      LeastFirst(leq, least, Ascending(leq, keys - {least}));
    }
  }

  lemma EmptyOrdered<K(!new)>(leq: (K, K) -> bool)
    ensures Ordered(leq, [])
  {
  }

  lemma {:induction false} LeastFirst<K(!new)>(leq: (K, K) -> bool, least: K, rest: seq<K>)
    requires Ordered(leq, rest) && forall k | k in rest :: leq(least, k) && least != k
    ensures Ordered(leq, [least] + rest)
  {
    assert forall b | 0 <= b < |rest| :: rest[b] in rest;
  }

  // The walk goes from the least key to the rest.
  lemma {:induction false} AscendingStep<K(!new)>(leq: (K, K) -> bool, keys: set<K>, key: K)
    requires TotalOrder(leq) && IsLeast(leq, key, keys)
    ensures Ascending(leq, keys) == [key] + Ascending(leq, keys - {key})
  {
    var least := Least(leq, keys);
    assert leq(least, key) && leq(key, least);
  }

  predicate NumLeq(a: int, b: int) { a <= b }

  ghost function AscendingNumbers(keys: set<int>): (r: seq<int>)
    ensures |r| == |keys|
    ensures forall k :: k in r <==> k in keys
    ensures forall a, b | 0 <= a < b < |r| :: r[a] < r[b]
  {
    AscendingIsOrdered(NumLeq, keys);
    Ascending(NumLeq, keys)
  }

  // ---------------------------------------------------------------- pigeonhole

  predicate NoRepeats(path: seq<nat>) {
    forall j, k | 0 <= j < k < |path| :: path[j] != path[k]
  }

  lemma LongerNoRepeats(path: seq<nat>, x: nat)
    requires NoRepeats(path) && x !in path
    ensures NoRepeats(path + [x])
  {
  }

  ghost function Below(n: nat): (r: set<nat>)
    ensures |r| == n && forall x: nat :: x in r <==> x < n
  {
    if n == 0 then {} else Below(n - 1) + {n - 1}
  }

  ghost function Members(path: seq<nat>): (r: set<nat>)
    ensures forall x: nat :: x in r <==> x in path
  {
    set x | x in path
  }

  lemma {:induction false} MembersSize(path: seq<nat>)
    requires NoRepeats(path)
    ensures |Members(path)| == |path|
  {
    if path != [] {
      var init, last := path[..|path| - 1], path[|path| - 1];
      assert path == init + [last];
      MembersSize(init);
      assert Members(path) == Members(init) + {last};
    }
  }

  lemma {:induction false} SubsetSize<T>(a: set<T>, b: set<T>)
    requires a <= b
    ensures |a| <= |b|
  {
    assert b == a + (b - a);
  }

  // Distinct numbers below `n` are at most `n` many.
  lemma {:induction false} NoRepeatsBound(path: seq<nat>, n: nat)
    requires NoRepeats(path) && forall k | 0 <= k < |path| :: path[k] < n
    ensures |path| <= n
  {
    MembersSize(path);
    SubsetSize(Members(path), Below(n));
  }
}
