/** A finite set of numbers in ascending order, as ORDER BY returns a key column. */
module Ordering {
  predicate IsLeast(m: nat, ids: set<nat>) {
    m in ids && forall i | i in ids :: m <= i
  }

  function Least(ids: set<nat>): (m: nat)
    requires ids != {}
    ensures IsLeast(m, ids)
  {
    LeastExists(ids);
    var m :| m in ids && IsLeast(m, ids);
    m
  }

  lemma {:induction false} LeastExists(ids: set<nat>)
    requires ids != {}
    ensures exists m :: IsLeast(m, ids)
  {
    var x :| x in ids;
    if ids == {x} {
      assert IsLeast(x, ids);
    } else {
      LeastExists(ids - {x});
      var y :| IsLeast(y, ids - {x});
      assert forall i | i in ids :: i == x || i in ids - {x};
      assert IsLeast(if x <= y then x else y, ids);
    }
  }

  function InOrder(ids: set<nat>): (r: seq<nat>)
    ensures forall i :: i in r <==> i in ids
    ensures forall k | 0 <= k < |r| :: r[k] in ids
    ensures forall i, j | 0 <= i < j < |r| :: r[i] < r[j]
  {
    if ids == {} then [] else [Least(ids)] + InOrder(ids - {Least(ids)})
  }

  lemma {:induction false} RangeInOrder(ids: set<nat>, lo: nat, hi: nat)
    requires lo <= hi && forall k: nat :: k in ids <==> lo <= k < hi
    ensures |InOrder(ids)| == hi - lo && forall i | 0 <= i < hi - lo :: InOrder(ids)[i] == lo + i
    decreases hi - lo
  {
    if lo < hi {
      assert lo in ids && Least(ids) == lo;
      RangeInOrder(ids - {lo}, lo + 1, hi);
    } else {
      assert ids == {};
    }
  }
}
