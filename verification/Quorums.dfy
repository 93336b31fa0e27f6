/** Majorities of a cell of `n` servers. */
module Quorums {

  function Ids(n: nat): (ids: set<nat>)
    ensures forall k: nat :: k in ids <==> k < n
    ensures |ids| == n
  {
    if n == 0 then {} else Ids(n - 1) + {n - 1}
  }

  /** The test `count > n / 2` of the program, on the set that was counted. */
  ghost predicate Quorum(n: nat, q: set<nat>) {
    q <= Ids(n) && |q| > n / 2
  }

  lemma {:induction false} SubsetCount<T>(a: set<T>, b: set<T>)
    requires a <= b
    ensures |a| <= |b|
    decreases |a|
  {
    if a == {} {
    } else {
      var x :| x in a;
      SubsetCount(a - {x}, b - {x});
    }
  }

  /** Two majorities share a server. */
  lemma Intersect(n: nat, a: set<nat>, b: set<nat>) returns (j: nat)
    requires Quorum(n, a) && Quorum(n, b)
    ensures j in a && j in b && j < n
  {
    SubsetCount(a + b, Ids(n));
    assert |a + b| + |a * b| == |a| + |b|;
    assert a * b != {};
    j :| j in a * b;
  }
}
