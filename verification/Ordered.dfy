/** Finite sets listed in the order of a strict total order, as `ORDER BY` does. */
module Ordered {
  ghost predicate TotalOrder<T(!new)>(lt: (T, T) -> bool) {
    && (forall a :: !lt(a, a))
    && (forall a, b :: a == b || lt(a, b) || lt(b, a))
    && (forall a, b, c :: lt(a, b) && lt(b, c) ==> lt(a, c))
  }

  predicate Least<T(==)>(s: set<T>, lt: (T, T) -> bool, m: T) {
    m in s && forall x | x in s :: x == m || lt(m, x)
  }

  lemma LeastExists<T(!new)>(s: set<T>, lt: (T, T) -> bool)
    requires TotalOrder(lt) && s != {}
    ensures exists m :: Least(s, lt, m)
  {
    var x :| x in s;
    var rest := s - {x};
    if rest == {} {
      assert s == {x};
      assert Least(s, lt, x);
    } else {
      LeastExists(rest, lt);
      var m :| Least(rest, lt, m);
      var least := if lt(x, m) then x else m;
      forall y | y in s ensures y == least || lt(least, y) {
        assert y == x || y in rest;
      }
      assert Least(s, lt, least);
    }
  }

  function Sorted<T(==,!new)>(s: set<T>, lt: (T, T) -> bool): (q: seq<T>)
    requires TotalOrder(lt)
  {
    if s == {} then []
    else
      LeastExists(s, lt);
      var m :| Least(s, lt, m);
      [m] + Sorted(s - {m}, lt)
  }

  predicate Ascending<T>(q: seq<T>, lt: (T, T) -> bool) {
    forall i, j | 0 <= i < j < |q| :: lt(q[i], q[j])
  }

  lemma {:induction false} SortedListsTheSet<T(!new)>(s: set<T>, lt: (T, T) -> bool)
    requires TotalOrder(lt)
    ensures Ascending(Sorted(s, lt), lt) && |Sorted(s, lt)| == |s|
    ensures forall x :: x in Sorted(s, lt) <==> x in s
  {
    if s != {} {
      LeastExists(s, lt);
      var m := Sorted(s, lt)[0];
      SortedListsTheSet(s - {m}, lt);
    }
  }

  /** A strictly ascending sequence is the listing of its elements. */
  lemma {:induction false} AscendingIsSorted<T(!new)>(q: seq<T>, s: set<T>, lt: (T, T) -> bool)
    requires TotalOrder(lt) && Ascending(q, lt) && forall x :: x in q <==> x in s
    ensures Sorted(s, lt) == q
    decreases |q|
  {
    if q == [] {
      assert s == {};
    } else {
      assert q == [q[0]] + q[1..];
      assert q[0] in s;
      assert Least(s, lt, q[0]) by {
        forall x | x in s ensures x == q[0] || lt(q[0], x) {
          var i :| 0 <= i < |q| && q[i] == x;
        }
      }
      assert Sorted(s, lt)[0] == q[0];
      AscendingIsSorted(q[1..], s - {q[0]}, lt);
    }
  }

  function Beyond<T(==)>(s: set<T>, lt: (T, T) -> bool, x: T): set<T> {
    set y | y in s && lt(x, y)
  }

  /** What lies beyond an element of the listing is what follows it. */
  lemma RestOfListing<T(!new)>(s: set<T>, lt: (T, T) -> bool, k: nat)
    requires TotalOrder(lt) && 0 < k <= |Sorted(s, lt)|
    ensures Sorted(Beyond(s, lt, Sorted(s, lt)[k - 1]), lt) == Sorted(s, lt)[k..]
  {
    var q := Sorted(s, lt);
    var beyond := Beyond(s, lt, q[k - 1]);
    SortedListsTheSet(s, lt);
    forall x ensures x in q[k..] <==> x in beyond {
      if x in beyond {
        var i :| 0 <= i < |q| && q[i] == x;
        assert i >= k;
        assert x == q[k..][i - k];
      }
    }
    AscendingIsSorted(q[k..], beyond, lt);
  }

  function FirstOf<T>(q: seq<T>, limit: nat): seq<T> {
    if |q| <= limit then q else q[..limit]
  }
}
