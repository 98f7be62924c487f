/** Filters and sums over sequences, and what a permutation leaves unchanged. */
module Sequences {
  function Filter<T>(s: seq<T>, q: T -> bool): seq<T> {
    if s == [] then [] else Filter(s[..|s| - 1], q) + if q(s[|s| - 1]) then [s[|s| - 1]] else []
  }

  function Sum<T>(s: seq<T>, f: T -> int): int {
    if s == [] then 0 else Sum(s[..|s| - 1], f) + f(s[|s| - 1])
  }

  lemma {:induction false} FilterOneMore<T>(s: seq<T>, x: T, q: T -> bool)
    ensures Filter(s + [x], q) == Filter(s, q) + if q(x) then [x] else []
  {
    assert (s + [x])[..|s|] == s;
  }

  lemma {:induction false} SumOneMore<T>(s: seq<T>, x: T, f: T -> int)
    ensures Sum(s + [x], f) == Sum(s, f) + f(x)
  {
    assert (s + [x])[..|s|] == s;
  }

  lemma {:induction false} FilterMembers<T>(s: seq<T>, q: T -> bool, x: T)
    ensures x in Filter(s, q) <==> x in s && q(x)
  {
    if s != [] {
      var n := |s| - 1;
      assert s == s[..n] + [s[n]];
      FilterMembers(s[..n], q, x);
    }
  }

  lemma {:induction false} SumOfConcat<T>(a: seq<T>, b: seq<T>, f: T -> int)
    ensures Sum(a + b, f) == Sum(a, f) + Sum(b, f)
  {
    if b == [] {
      assert a + b == a;
    } else {
      var n := |b| - 1;
      assert (a + b)[..|a + b| - 1] == a + b[..n];
      SumOfConcat(a, b[..n], f);
    }
  }

  lemma {:induction false} SumAgrees<T>(s: seq<T>, f: T -> int, g: T -> int)
    requires forall x :: x in s ==> f(x) == g(x)
    ensures Sum(s, f) == Sum(s, g)
  {
    if s != [] { SumAgrees(s[..|s| - 1], f, g); }
  }

  predicate Distinct<T(==)>(s: seq<T>) { forall i, j :: 0 <= i < j < |s| ==> s[i] != s[j] }

  /** Raising a function at one of distinct points raises the sum by as much. */
  lemma {:induction false} SumRaised<T>(s: seq<T>, f: T -> int, g: T -> int, x: T, q: int)
    requires Distinct(s) && x in s && forall y :: y in s ==> g(y) == f(y) + if y == x then q else 0
    ensures Sum(s, g) == Sum(s, f) + q
  {
    var n := |s| - 1;
    var front := s[..n];
    assert s == front + [s[n]];
    if s[n] == x { SumAgrees(front, f, g); } else { SumRaised(front, f, g, x, q); }
  }

  /** Dropping the element at j. */
  function Without<T>(s: seq<T>, j: nat): seq<T>
    requires j < |s|
  {
    s[..j] + s[j + 1..]
  }

  /** Permutations stay permutations when an equal element is dropped from each. */
  lemma {:induction false} DropMatching<T>(a: seq<T>, b: seq<T>) returns (j: nat)
    requires multiset(a) == multiset(b) && a != []
    ensures j < |b| && b[j] == a[|a| - 1] && multiset(a[..|a| - 1]) == multiset(Without(b, j))
  {
    var n := |a| - 1;
    var x := a[n];
    assert x in multiset(b);
    j :| 0 <= j < |b| && b[j] == x;
    assert a == a[..n] + [x];
    assert b == b[..j] + [x] + b[j + 1..];
    assert multiset(a) == multiset(a[..n]) + multiset{x};
    assert multiset(b) == multiset(Without(b, j)) + multiset{x};
    assert multiset(a[..n]) == multiset(a) - multiset{x};
    assert multiset(Without(b, j)) == multiset(b) - multiset{x};
  }

  lemma {:induction false} SumWithMiddle<T>(a: seq<T>, x: T, c: seq<T>, f: T -> int)
    ensures Sum(a + [x] + c, f) == Sum(a + c, f) + f(x)
  {
    if c == [] {
      assert a + [x] + c == a + [x] && a + c == a;
      assert (a + [x])[..|a|] == a;
    } else {
      var n := |c| - 1;
      SumWithMiddle(a, x, c[..n], f);
      assert (a + [x] + c)[..|a| + 1 + n] == a + [x] + c[..n];
      assert (a + c)[..|a| + n] == a + c[..n];
    }
  }

  lemma {:induction false} SumWithout<T>(s: seq<T>, j: nat, f: T -> int)
    requires j < |s|
    ensures Sum(s, f) == Sum(Without(s, j), f) + f(s[j])
  {
    SumWithMiddle(s[..j], s[j], s[j + 1..], f);
    assert s == s[..j] + [s[j]] + s[j + 1..];
  }

  lemma {:induction false} SumIsOrderFree<T>(a: seq<T>, b: seq<T>, f: T -> int)
    requires multiset(a) == multiset(b)
    ensures Sum(a, f) == Sum(b, f)
  {
    if a == [] {
      assert |multiset(b)| == 0;
    } else {
      var j := DropMatching(a, b);
      SumWithout(b, j, f);
      SumIsOrderFree(a[..|a| - 1], Without(b, j), f);
    }
  }

  /** A filter keeps every copy of what passes the test and none of what fails it. */
  lemma {:induction false} FilterCounts<T>(s: seq<T>, q: T -> bool, x: T)
    ensures multiset(Filter(s, q))[x] == if q(x) then multiset(s)[x] else 0
  {
    if s != [] {
      var n := |s| - 1;
      FilterCounts(s[..n], q, x);
      assert s == s[..n] + [s[n]];
    }
  }

  lemma {:induction false} FilterIsOrderFree<T(!new)>(a: seq<T>, b: seq<T>, q: T -> bool)
    requires multiset(a) == multiset(b)
    ensures multiset(Filter(a, q)) == multiset(Filter(b, q))
  {
    forall x ensures multiset(Filter(a, q))[x] == multiset(Filter(b, q))[x] {
      FilterCounts(a, q, x);
      FilterCounts(b, q, x);
    }
  }

  /** Two disjoint tests that together make a third split a filter into two. */
  lemma {:induction false} FilterSplits<T(!new)>(s: seq<T>, q: T -> bool, q1: T -> bool, q2: T -> bool)
    requires forall x :: (q(x) <==> q1(x) || q2(x)) && !(q1(x) && q2(x))
    ensures multiset(Filter(s, q)) == multiset(Filter(s, q1)) + multiset(Filter(s, q2))
  {
    forall x ensures multiset(Filter(s, q))[x] == multiset(Filter(s, q1))[x] + multiset(Filter(s, q2))[x] {
      FilterCounts(s, q, x);
      FilterCounts(s, q1, x);
      FilterCounts(s, q2, x);
    }
  }
}
