/** The least of a set of numbers, and sizes of subsets. */
module Sets {
  ghost predicate IsLeast(ids: set<nat>, m: nat) {
    m in ids && forall id <- ids :: m <= id
  }

  lemma {:induction false} LeastExists(ids: set<nat>)
    requires ids != {}
    ensures exists m :: IsLeast(ids, m)
    decreases |ids|
  {
    var x :| x in ids;
    if ids == {x} {
      assert IsLeast(ids, x);
    } else {
      assert ids - {x} != {};
      LeastExists(ids - {x});
      var m :| IsLeast(ids - {x}, m);
      assert forall y <- ids :: y == x || y in ids - {x};
      assert IsLeast(ids, if x < m then x else m);
    }
  }

  ghost function Least(ids: set<nat>): (m: nat)
    requires ids != {}
    ensures IsLeast(ids, m)
  {
    LeastExists(ids);
    var m :| IsLeast(ids, m);
    m
  }

  method FindLeast(ids: set<nat>) returns (m: nat)
    requires ids != {}
    ensures m == Least(ids)
  {
    m :| m in ids;
    var rest := ids - {m};
    while rest != {}
      invariant m in ids && rest <= ids
      invariant forall x <- ids :: x in rest || m <= x
      decreases |rest|
    {
      var x :| x in rest;
      if x < m {
        m := x;
      }
      rest := rest - {x};
    }
    assert IsLeast(ids, m);
  }

  lemma SubsetSize<T>(a: set<T>, b: set<T>)
    requires a <= b
    ensures |a| <= |b|
  {
    assert b == a + (b - a);
  }
}
