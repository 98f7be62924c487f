/** Text order on identifiers, and the sorted listing of a set of them. */
module Ordering {
  import opened Basics

  /** Code point by code point, a proper prefix first. */
  predicate Less(a: Id, b: Id) {
    if b == "" then false
    else if a == "" then true
    else if a[0] != b[0] then a[0] < b[0]
    else Less(a[1..], b[1..])
  }

  predicate Least(x: Id, s: set<Id>) {
    x in s && forall y :: y in s ==> y == x || Less(x, y)
  }

  predicate Increasing(ids: seq<Id>) {
    forall i, j :: 0 <= i < j < |ids| ==> Less(ids[i], ids[j])
  }

  lemma {:induction false} LessIsAsymmetric(a: Id, b: Id)
    ensures !(Less(a, b) && Less(b, a))
    decreases |a|
  {
    if a != "" && b != "" { LessIsAsymmetric(a[1..], b[1..]); }
  }

  lemma {:induction false} LessIsTotal(a: Id, b: Id)
    ensures a == b || Less(a, b) || Less(b, a)
    decreases |a|
  {
    if a != "" && b != "" {
      LessIsTotal(a[1..], b[1..]);
      assert a == [a[0]] + a[1..] && b == [b[0]] + b[1..];
    }
  }

  lemma {:induction false} LessIsTransitive(a: Id, b: Id, c: Id)
    requires Less(a, b) && Less(b, c)
    ensures Less(a, c)
    decreases |a|
  {
    if a != "" && a[0] == b[0] && b[0] == c[0] { LessIsTransitive(a[1..], b[1..], c[1..]); }
  }

  lemma {:induction false} LeastExists(s: set<Id>)
    requires s != {}
    ensures exists x :: Least(x, s)
  {
    var a :| a in s;
    var rest := s - {a};
    if rest == {} {
      assert s == {a};
      assert Least(a, s);
    } else {
      LeastExists(rest);
      var b :| Least(b, rest);
      LessIsTotal(a, b);
      if Less(a, b) {
        forall y | y in s ensures y == a || Less(a, y) {
          if y != a && y != b { LessIsTransitive(a, b, y); }
        }
        assert Least(a, s);
      } else {
        assert Least(b, s);
      }
    }
  }

  lemma {:induction false} LeastIsUnique(s: set<Id>)
    ensures forall x, y :: Least(x, s) && Least(y, s) ==> x == y
  {
    forall x, y | Least(x, s) && Least(y, s) ensures x == y {
      LessIsAsymmetric(x, y);
    }
  }

  function LeastOf(s: set<Id>): (x: Id)
    requires s != {}
    ensures Least(x, s)
  {
    LeastExists(s);
    LeastIsUnique(s);
    var x :| Least(x, s);
    x
  }

  /** The built-in sort, applied to the keys of a dictionary. */
  function SortIds(s: set<Id>): seq<Id> {
    if s == {} then []
    else
      var x := LeastOf(s);
      [x] + SortIds(s - {x})
  }

  lemma {:induction false} SortIdsLists(s: set<Id>)
    ensures forall x :: x in SortIds(s) <==> x in s
  {
    if s != {} { SortIdsLists(s - {LeastOf(s)}); }
  }

  lemma {:induction false} SortIdsIncreases(s: set<Id>)
    ensures Increasing(SortIds(s))
  {
    if s != {} {
      var x, rest := LeastOf(s), s - {LeastOf(s)};
      SortIdsIncreases(rest);
      SortIdsLists(rest);
      forall i, j | 0 <= i < j < |SortIds(s)| ensures Less(SortIds(s)[i], SortIds(s)[j]) {
        assert SortIds(rest)[j - 1] in rest;
      }
    }
  }
}
