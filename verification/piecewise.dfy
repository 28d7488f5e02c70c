/** Threshold-driven branch selection, as used by the piecewise drag
    correlations: a chain of `if x < b0 ... elif x < b1 ... else ...` picks the
    branch whose half-open interval contains `x`. Branch `k` of a chain with
    bounds `b` covers `[b[k-1], b[k])`, the first branch has no lower end and
    the last no upper end. */
module Piecewise {

  /** The thresholds are tested in strictly increasing order. */
  ghost predicate Increasing(b: seq<real>) {
    forall i, j :: 0 <= i < j < |b| ==> b[i] < b[j]
  }

  /** `x` lies in the half-open interval of branch `k`. */
  predicate InInterval(b: seq<real>, k: nat, x: real) {
    && k <= |b|
    && (k == 0 || b[k - 1] <= x)
    && (k == |b| || x < b[k])
  }

  /** The branch an if/elif chain over the bounds `b` takes for `x`: the
      number of leading bounds that `x` is not below. */
  function Locate(b: seq<real>, x: real): (k: nat)
    ensures k <= |b|
    ensures InInterval(b, k, x)
  {
    if |b| == 0 || x < b[0] then 0 else 1 + Locate(b[1..], x)
  }

  /** With increasing bounds at most one branch contains `x`. */
  lemma IntervalUnique(b: seq<real>, j: nat, k: nat, x: real)
    requires Increasing(b)
    requires InInterval(b, j, x) && InInterval(b, k, x)
    ensures j == k
  {
  }

  /** So `Locate` is exactly the branch whose interval contains `x`. */
  lemma LocateExact(b: seq<real>, k: nat, x: real)
    requires Increasing(b)
    ensures Locate(b, x) == k <==> InInterval(b, k, x)
  {
  }

  /** A larger `x` never selects an earlier branch. */
  lemma {:induction false} LocateMonotone(b: seq<real>, x: real, y: real)
    requires x <= y
    ensures Locate(b, x) <= Locate(b, y)
  {
    if |b| == 0 || x < b[0] {
    } else {
      LocateMonotone(b[1..], x, y);
    }
  }
}
