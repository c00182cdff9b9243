/** Finite sets of integers: their elements in ascending order. */
module Integers {
  lemma EmptyOrInhabited(s: set<int>)
    ensures s == {} || exists i :: i in s
  {
    if forall i :: i !in s {
      assert s == {};
    }
  }

  predicate IsLeast(m: int, s: set<int>) {
    m in s && forall k | k in s :: m <= k
  }

  lemma LeastExists(s: set<int>)
    requires s != {}
    ensures exists m :: IsLeast(m, s)
  {
    EmptyOrInhabited(s);
    var x :| x in s;
    EmptyOrInhabited(s - {x});
    if s - {x} == {} {
      assert s == {x};
      assert IsLeast(x, s);
    } else {
      LeastExists(s - {x});
      var m :| IsLeast(m, s - {x});
      assert forall k | k in s :: k == x || k in s - {x};
      assert IsLeast(if x < m then x else m, s);
    }
  }

  /** r lists the elements of s in ascending order. */
  ghost predicate Ascending(r: seq<int>, s: set<int>) {
    && (forall k :: k in r <==> k in s)
    && forall i, j | 0 <= i < j < |r| :: r[i] < r[j]
  }

  lemma LeastFirst(m: int, s: set<int>, rest: seq<int>)
    requires IsLeast(m, s) && Ascending(rest, s - {m})
    ensures Ascending([m] + rest, s)
  {
    var r := [m] + rest;
    forall i, j | 0 <= i < j < |r| ensures r[i] < r[j] {
      assert r[j] in rest;
    }
    forall k ensures k in r <==> k in s {
      if k in s && k != m {
        assert k in rest;
      }
    }
  }

  function Sorted(s: set<int>): (r: seq<int>)
    ensures Ascending(r, s)
  {
    if s == {} then []
    else
      LeastExists(s);
      var m :| IsLeast(m, s);
      var rest := Sorted(s - {m});
      LeastFirst(m, s, rest);
      [m] + rest
  }
}
