/**
 Lifting an exact step condition to whole runs.
 */
module Runs {

  /** If every step from a good state leads to a good one exactly unless it is bad, then a run is good throughout
      exactly when none of its steps is bad. */
  lemma Throughout(good: seq<bool>, bad: seq<bool>)
    requires |good| == |bad| + 1 && good[0]
    requires forall i :: 0 <= i < |bad| && good[i] ==> (good[i + 1] <==> !bad[i])
    ensures (forall i :: 0 <= i < |good| ==> good[i]) <==> (forall i :: 0 <= i < |bad| ==> !bad[i])
  {
    var n := 0;
    while n < |bad| && !bad[n]
      invariant n <= |bad| && (forall i :: 0 <= i <= n ==> good[i]) && (forall i :: 0 <= i < n ==> !bad[i])
    {
      n := n + 1;
    }
    assert n < |bad| ==> good[n] && !good[n + 1];
  }
}
