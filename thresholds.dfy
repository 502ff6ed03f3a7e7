/**
 * Classification of a value against an ascending list of bin edges, the
 * scheme shared by the heart-rate and the velocity zones: the zone of a
 * value is the number of edges it has reached.
 */
module Thresholds {

  /** The edges are strictly ascending. */
  predicate Ascending(edges: seq<real>) {
    forall i, j :: 0 <= i < j < |edges| ==> edges[i] < edges[j]
  }

  /** The number of edges at or below `r`. */
  function Reached(edges: seq<real>, r: real): (n: nat)
    ensures n <= |edges|
  {
    if edges == [] then 0
    else (if edges[0] <= r then 1 else 0) + Reached(edges[1..], r)
  }

  /** Raising the value never lowers the number of edges reached. */
  lemma {:induction false} ReachedMonotone(edges: seq<real>, r1: real, r2: real)
    requires r1 <= r2
    ensures Reached(edges, r1) <= Reached(edges, r2)
    decreases |edges|
  {
    if edges != [] {
      ReachedMonotone(edges[1..], r1, r2);
    }
  }

  /** A value below every edge reaches none. */
  lemma {:induction false} BelowAllReachesNone(edges: seq<real>, r: real)
    requires forall i :: 0 <= i < |edges| ==> r < edges[i]
    ensures Reached(edges, r) == 0
    decreases |edges|
  {
    if edges != [] {
      assert forall i :: 0 <= i < |edges[1..]| ==> edges[1..][i] == edges[i + 1];
      BelowAllReachesNone(edges[1..], r);
    }
  }

  /**
   * Against ascending edges, a value that has reached exactly the first
   * `k` edges (and lies below the others) reaches `k` edges.
   */
  lemma {:induction false} ReachedFirst(edges: seq<real>, r: real, k: nat)
    requires Ascending(edges) && k <= |edges|
    requires forall i :: 0 <= i < k ==> edges[i] <= r
    requires k < |edges| ==> r < edges[k]
    ensures Reached(edges, r) == k
    decreases |edges|
  {
    if edges != [] {
      var tail := edges[1..];
      assert Ascending(tail) by {
        forall i, j | 0 <= i < j < |tail| ensures tail[i] < tail[j] {
          assert tail[i] == edges[i + 1] && tail[j] == edges[j + 1];
        }
      }
      if k == 0 {
        assert forall i :: 0 <= i < |edges| ==> r < edges[i];
        BelowAllReachesNone(edges, r);
      } else {
        assert forall i :: 0 <= i < k - 1 ==> tail[i] == edges[i + 1];
        ReachedFirst(tail, r, k - 1);
      }
    }
  }

  /**
   * The converse: against ascending edges, a value that reaches `k` edges
   * has reached exactly the first `k` and lies below the others.
   */
  lemma {:induction false} ReachedOnlyFirst(edges: seq<real>, r: real)
    requires Ascending(edges)
    ensures forall i :: 0 <= i < Reached(edges, r) ==> edges[i] <= r
    ensures Reached(edges, r) < |edges| ==> r < edges[Reached(edges, r)]
    decreases |edges|
  {
    if edges != [] {
      var tail := edges[1..];
      assert Ascending(tail) by {
        forall i, j | 0 <= i < j < |tail| ensures tail[i] < tail[j] {
          assert tail[i] == edges[i + 1] && tail[j] == edges[j + 1];
        }
      }
      if edges[0] <= r {
        ReachedOnlyFirst(tail, r);
        var k := Reached(tail, r);
        assert Reached(edges, r) == k + 1;
        forall i | 0 <= i < k + 1 ensures edges[i] <= r {
          if i > 0 {
            assert edges[i] == tail[i - 1];
          }
        }
        if k + 1 < |edges| {
          assert edges[k + 1] == tail[k];
        }
      } else {
        BelowAllReachesNone(edges, r);
      }
    }
  }
}
