/** Classification by an ascending list of inclusive lower bounds: a value's
    rank is the number of bounds it has reached.  This is the reference both
    threshold classifiers of the bot are proved against. */
module Thresholds {

  predicate Ascending(bounds: seq<real>) {
    forall i, j :: 0 <= i < j < |bounds| ==> bounds[i] < bounds[j]
  }

  /** How many of `bounds` are at or below `x`. */
  function Rank(bounds: seq<real>, x: real): (r: nat)
    ensures r <= |bounds|
  {
    if bounds == [] then 0
    else (if bounds[0] <= x then 1 else 0) + Rank(bounds[1..], x)
  }

  /** A larger value never reaches fewer bounds. */
  lemma {:induction false} RankMonotone(bounds: seq<real>, x: real, y: real)
    requires x <= y
    ensures Rank(bounds, x) <= Rank(bounds, y)
  {
    if bounds != [] {
      RankMonotone(bounds[1..], x, y);
    }
  }

  /** For ascending bounds the rank is `k` exactly when `x` lies in the
      half-open interval between the k-th and (k+1)-th bound. */
  lemma {:induction false} RankInterval(bounds: seq<real>, x: real, k: nat)
    requires Ascending(bounds)
    requires k <= |bounds|
    requires k == 0 || bounds[k - 1] <= x
    requires k == |bounds| || x < bounds[k]
    ensures Rank(bounds, x) == k
  {
    if bounds != [] {
      if k == 0 {
        RankInterval(bounds[1..], x, 0);
      } else {
        RankInterval(bounds[1..], x, k - 1);
      }
    }
  }

  /** Conversely, for ascending bounds a value of rank `k` has reached the
      k-th bound and not the (k+1)-th. */
  lemma {:induction false} RankLocates(bounds: seq<real>, x: real)
    requires Ascending(bounds)
    ensures var k := Rank(bounds, x);
      && (k == 0 || bounds[k - 1] <= x)
      && (k == |bounds| || x < bounds[k])
  {
    if bounds != [] {
      RankLocates(bounds[1..], x);
      if bounds[0] > x {
        RankInterval(bounds, x, 0);
      }
    }
  }
}
