/** Small generic helpers shared by every part of the model. */
module Basics {

  /** An instant, in some fixed unit. */
  type Time = int

  datatype Option<+T> = None | Some(value: T)
  {
    function GetOr(default: T): T {
      if Some? then value else default
    }

    function OrElse(other: Option<T>): Option<T> {
      if Some? then this else other
    }
  }

  /** `m.get(k)`: the binding as an option. */
  function Get<K, V>(m: map<K, V>, k: K): Option<V> {
    if k in m then Some(m[k]) else None
  }

  /** `m.get(k, [])` for a dictionary of lists. */
  function GetList<K, V>(m: map<K, seq<V>>, k: K): seq<V> {
    if k in m then m[k] else []
  }

  /** `m.get(k, 0)` for a dictionary of counters. */
  function GetCount<K>(m: map<K, nat>, k: K): nat {
    if k in m then m[k] else 0
  }

  /** The elements of a list, as a set. */
  function Elements<T>(s: seq<T>): set<T> {
    set x | x in s
  }

  /** No value occurs twice. */
  ghost predicate Distinct<T>(s: seq<T>) {
    forall i, j :: 0 <= i < j < |s| ==> s[i] != s[j]
  }

  lemma Pick<T>(s: set<T>) returns (x: T)
    requires s != {}
    ensures x in s
  {
    x :| x in s;
  }

  lemma SameMap<K, V>(m: map<K, V>, m': map<K, V>)
    requires m.Keys == m'.Keys
    requires forall k | k in m :: m[k] == m'[k]
    ensures m == m'
  {
  }

  /** A list of distinct values is as long as the set of its elements. */
  lemma {:induction false} DistinctSize<T>(s: seq<T>)
    requires Distinct(s)
    ensures |Elements(s)| == |s|
  {
    if s != [] {
      var front, last := s[..|s| - 1], s[|s| - 1];
      DistinctSize(front);
      assert s == front + [last];
      assert Elements(s) == Elements(front) + {last};
    }
  }

  /** No value occurs twice exactly when none has more than one place in the bag. */
  lemma {:induction false} DistinctMultiset<T>(s: seq<T>)
    ensures Distinct(s) <==> forall x :: multiset(s)[x] <= 1
  {
    if s != [] {
      var front, last := s[..|s| - 1], s[|s| - 1];
      DistinctMultiset(front);
      assert s == front + [last];
      assert multiset(s) == multiset(front) + multiset{last};
      forall x ensures multiset(s)[x] == multiset(front)[x] + (if x == last then 1 else 0) {}
      if last in front {
        var k :| 0 <= k < |front| && front[k] == last;
        assert s[k] == s[|s| - 1] && multiset(s)[last] == multiset(front)[last] + 1;
      } else {
        assert multiset(front)[last] == 0;
      }
    }
  }
}
