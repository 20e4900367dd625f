/** De-duplication of device lists: "groups first, then direct", each id once, at its first place. */
module Targeting {
  import opened Basics

  /** The list without later repeats. */
  function FirstOccurrences<T(==, !new)>(s: seq<T>): (r: seq<T>)
    ensures forall x :: x in r <==> x in s
    ensures Distinct(r)
  {
    if s == [] then []
    else
      var front, last := s[..|s| - 1], s[|s| - 1];
      assert s == front + [last];
      var r := FirstOccurrences(front);
      if last in r then r else r + [last]
  }

  /** One more element. */
  lemma FirstOccurrencesStep<T(!new)>(s: seq<T>, x: T)
    ensures FirstOccurrences(s + [x])
         == if x in s then FirstOccurrences(s) else FirstOccurrences(s) + [x]
  {
    assert (s + [x])[..|s|] == s;
  }

  function Concat<T>(lists: seq<seq<T>>): seq<T> {
    if lists == [] then [] else Concat(lists[..|lists| - 1]) + lists[|lists| - 1]
  }

  lemma ConcatStep<T>(lists: seq<seq<T>>, x: seq<T>)
    ensures Concat(lists + [x]) == Concat(lists) + x
  {
    assert (lists + [x])[..|lists|] == lists;
  }

  function Filter<T(!new)>(p: T -> bool, s: seq<T>): (r: seq<T>)
    ensures forall x :: x in r <==> x in s && p(x)
    ensures r == [] <==> forall x :: x in s ==> !p(x)
  {
    if s == [] then []
    else
      var front, last := s[..|s| - 1], s[|s| - 1];
      assert s == front + [last];
      Filter(p, front) + if p(last) then [last] else []
  }

  lemma FilterStep<T(!new)>(p: T -> bool, s: seq<T>, x: T)
    ensures Filter(p, s + [x]) == Filter(p, s) + if p(x) then [x] else []
  {
    assert (s + [x])[..|s|] == s;
  }

  lemma {:induction false} FilterDistinct<T(!new)>(p: T -> bool, s: seq<T>)
    requires Distinct(s)
    ensures Distinct(Filter(p, s))
  {
    if s != [] {
      FilterDistinct(p, s[..|s| - 1]);
    }
  }

  lemma FilterIn<T(!new)>(p: T -> bool, s: seq<T>, x: T)
    requires p(x)
    ensures Filter(p, s + [x]) == Filter(p, s) + [x]
  {
    FilterStep(p, s, x);
  }

  lemma FilterOut<T(!new)>(p: T -> bool, s: seq<T>, x: T)
    requires !p(x)
    ensures Filter(p, s + [x]) == Filter(p, s)
  {
    FilterStep(p, s, x);
    assert Filter(p, s) + [] == Filter(p, s);
  }

  lemma FilterFirst<T(!new)>(p: T -> bool, s: seq<T>, front: seq<T>, x: T)
    requires s == front + [x]
    requires Filter(p, FirstOccurrences(front)) == FirstOccurrences(Filter(p, front))
    ensures Filter(p, FirstOccurrences(s)) == FirstOccurrences(Filter(p, s))
  {
    FirstOccurrencesStep(front, x);
    if p(x) {
      FilterIn(p, front, x);
      FilterIn(p, FirstOccurrences(front), x);
      FirstOccurrencesStep(Filter(p, front), x);
    } else {
      FilterOut(p, front, x);
      FilterOut(p, FirstOccurrences(front), x);
    }
  }

  /** Dropping later repeats commutes with filtering. */
  lemma {:induction false} FirstOccurrencesFilter<T(!new)>(p: T -> bool, s: seq<T>)
    ensures Filter(p, FirstOccurrences(s)) == FirstOccurrences(Filter(p, s))
  {
    if |s| > 0 {
      var n := |s| - 1;
      assert s == s[..n] + [s[n]];
      FirstOccurrencesFilter(p, s[..n]);
      FilterFirst(p, s, s[..n], s[n]);
    }
  }
}
