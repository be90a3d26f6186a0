/**
 * The running-minimum scan that several source loops share (AIBehaviorSystem.FindClosestEnemy,
 * FindTargetsJob.Execute, RTSInputManager.FindNearestEnemy and SelectUnitAtWorldPosition,
 * UnitSelectionSystem.SelectUnitAtPosition): walk the candidates in order, keep one whose
 * distance is strictly smaller than the best so far. `eligible[k]` says whether candidate k
 * passes the loop's filters and `dist[k]` is its (squared) distance.
 */
module Nearest {
  import opened Options

  /** The index the scan ends on, or None when no candidate is eligible. */
  function FirstNearest(eligible: seq<bool>, dist: seq<real>): (r: Option<nat>)
    requires |eligible| == |dist|
    ensures r.Some? ==> r.value < |eligible| && eligible[r.value]
    decreases |eligible|
  {
    if |eligible| == 0 then None
    else
      var k := |eligible| - 1;
      var best := FirstNearest(eligible[..k], dist[..k]);
      if eligible[k] && (best.None? || dist[k] < dist[best.value]) then Some(k) else best
  }

  /**
   * The scan finds something iff some candidate is eligible; what it finds is at least as near
   * as every eligible candidate and strictly nearer than every eligible candidate before it,
   * so the first of several equally near candidates wins.
   */
  lemma {:induction false} FirstNearestIsNearest(eligible: seq<bool>, dist: seq<real>)
    requires |eligible| == |dist|
    ensures FirstNearest(eligible, dist).None? <==> forall k :: 0 <= k < |eligible| ==> !eligible[k]
    ensures FirstNearest(eligible, dist).Some? ==>
              var r := FirstNearest(eligible, dist).value;
              && (forall k :: 0 <= k < |eligible| && eligible[k] ==> dist[r] <= dist[k])
              && (forall k :: 0 <= k < r && eligible[k] ==> dist[r] < dist[k])
    decreases |eligible|
  {
    if |eligible| > 0 {
      var k := |eligible| - 1;
      FirstNearestIsNearest(eligible[..k], dist[..k]);
      assert forall j :: 0 <= j < k ==> eligible[..k][j] == eligible[j] && dist[..k][j] == dist[j];
    }
  }

  /** Two scans over candidate lists that agree on the eligible entries and their distances give the same answer. */
  lemma {:induction false} FirstNearestCongruent(e1: seq<bool>, d1: seq<real>, e2: seq<bool>, d2: seq<real>)
    requires |e1| == |d1| == |e2| == |d2|
    requires forall k :: 0 <= k < |e1| ==> e1[k] == e2[k]
    requires forall k :: 0 <= k < |e1| && e1[k] ==> d1[k] == d2[k]
    ensures FirstNearest(e1, d1) == FirstNearest(e2, d2)
    decreases |e1|
  {
    if |e1| > 0 {
      var k := |e1| - 1;
      FirstNearestCongruent(e1[..k], d1[..k], e2[..k], d2[..k]);
    }
  }
}
