/** Ordered maps with integer keys: the last key, and the key before the upper bound of an index. */
module OrderedMap {

  ghost predicate IsLast<V>(m: map<int, V>, k: int) {
    k in m && forall i :: i in m ==> i <= k
  }

  ghost predicate IsFloor<V>(m: map<int, V>, at: int, k: int) {
    k in m && k <= at && forall i :: i in m && i <= at ==> i <= k
  }

  lemma {:induction false} LastKeyExists<V>(m: map<int, V>)
    requires exists i :: i in m
    ensures exists k :: IsLast(m, k)
    decreases |m|
  {
    var x :| x in m;
    var rest := m - {x};
    assert forall i :: i in m && i != x ==> i in rest;
    if exists i :: i in rest {
      assert m.Keys == rest.Keys + {x};
      LastKeyExists(rest);
      var k :| IsLast(rest, k);
      assert IsLast(m, if x > k then x else k);
    } else {
      assert IsLast(m, x);
    }
  }

  function LastKey<V>(m: map<int, V>): (k: int)
    requires exists i :: i in m
    ensures IsLast(m, k)
  {
    LastKeyExists(m);
    var k :| k in m && forall i :: i in m ==> i <= k;
    k
  }

  function FloorKey<V>(m: map<int, V>, at: int): (k: int)
    requires exists k :: IsFloor(m, at, k)
    ensures IsFloor(m, at, k)
  {
    assert exists k :: k in m && k <= at && forall i :: i in m && i <= at ==> i <= k by {
      var k :| IsFloor(m, at, k);
    }
    var k :| k in m && k <= at && forall i :: i in m && i <= at ==> i <= k;
    k
  }
}
