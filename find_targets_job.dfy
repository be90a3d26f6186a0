/**
 * FindTargetsJob: the array form of the nearest-enemy search. For every AI unit (parallel
 * arrays indexed by aiIndex) it scans the potential targets (parallel arrays indexed by
 * targetIndex) and, when an enemy is found, points that unit's AttackRange at it. Unlike
 * AIBehaviorSystem it has no throttle, no dead-unit filter of its own and no pursuit.
 */
module FindTargetsJob {
  import opened Options
  import opened Geometry
  import opened Components
  import opened Nearest

  /** Target k passes the inner loop's filters for an AI unit at `aiPos`. */
  function TargetFlags(targetTransforms: seq<Transform>, targetUnitTypes: seq<UnitType>, aiPos: Vec3, detectionRange: real, teamId: int): (r: seq<bool>)
    requires |targetTransforms| == |targetUnitTypes|
    ensures |r| == |targetTransforms|
    ensures forall k :: 0 <= k < |r| ==>
              r[k] == (targetUnitTypes[k].teamId != teamId && WithinDistance(aiPos, targetTransforms[k].position, detectionRange))
  {
    seq(|targetTransforms|, k requires 0 <= k < |targetTransforms| =>
      targetUnitTypes[k].teamId != teamId && WithinDistance(aiPos, targetTransforms[k].position, detectionRange))
  }

  function TargetDistances(targetTransforms: seq<Transform>, aiPos: Vec3): (r: seq<real>)
    ensures |r| == |targetTransforms|
    ensures forall k :: 0 <= k < |r| ==> r[k] == DistSq(aiPos, targetTransforms[k].position)
  {
    seq(|targetTransforms|, k requires 0 <= k < |targetTransforms| => DistSq(aiPos, targetTransforms[k].position))
  }

  /** The `closestEnemy` the inner loop ends with. */
  function PickTarget(potentialTargets: seq<Entity>, targetTransforms: seq<Transform>, targetUnitTypes: seq<UnitType>,
                      aiPos: Vec3, detectionRange: real, teamId: int): Entity
    requires |potentialTargets| == |targetTransforms| == |targetUnitTypes|
  {
    match FirstNearest(TargetFlags(targetTransforms, targetUnitTypes, aiPos, detectionRange, teamId), TargetDistances(targetTransforms, aiPos))
    case None => Null
    case Some(k) => potentialTargets[k]
  }

  /** Target k is of another team and within detection range of `aiPos`. */
  predicate IsEnemyInRange(targetTransforms: seq<Transform>, targetUnitTypes: seq<UnitType>, k: int, aiPos: Vec3, detectionRange: real, teamId: int)
    requires 0 <= k < |targetTransforms| == |targetUnitTypes|
  {
    targetUnitTypes[k].teamId != teamId && WithinDistance(aiPos, targetTransforms[k].position, detectionRange)
  }

  /**
   * With no target of another team within detection range the pick is Null. When there is one,
   * the pick is such a target, no farther than any other and strictly nearer than every such
   * target with a lower index; the same holds of any non-null pick.
   */
  lemma PickTargetIsClosest(potentialTargets: seq<Entity>, targetTransforms: seq<Transform>, targetUnitTypes: seq<UnitType>,
                            aiPos: Vec3, detectionRange: real, teamId: int)
    requires |potentialTargets| == |targetTransforms| == |targetUnitTypes|
    ensures var r := PickTarget(potentialTargets, targetTransforms, targetUnitTypes, aiPos, detectionRange, teamId);
            && ((forall k :: 0 <= k < |potentialTargets| ==>
                   !IsEnemyInRange(targetTransforms, targetUnitTypes, k, aiPos, detectionRange, teamId)) ==> r == Null)
            && ((exists k :: 0 <= k < |potentialTargets| &&
                   IsEnemyInRange(targetTransforms, targetUnitTypes, k, aiPos, detectionRange, teamId)) ==>
                  exists j :: 0 <= j < |potentialTargets| && potentialTargets[j] == r
                    && IsEnemyInRange(targetTransforms, targetUnitTypes, j, aiPos, detectionRange, teamId)
                    && (forall k :: 0 <= k < |potentialTargets| && IsEnemyInRange(targetTransforms, targetUnitTypes, k, aiPos, detectionRange, teamId)
                          ==> DistSq(aiPos, targetTransforms[j].position) <= DistSq(aiPos, targetTransforms[k].position))
                    && (forall k :: 0 <= k < j && IsEnemyInRange(targetTransforms, targetUnitTypes, k, aiPos, detectionRange, teamId)
                          ==> DistSq(aiPos, targetTransforms[j].position) < DistSq(aiPos, targetTransforms[k].position)))
            && (r != Null ==>
                  exists j :: 0 <= j < |potentialTargets| && potentialTargets[j] == r
                    && IsEnemyInRange(targetTransforms, targetUnitTypes, j, aiPos, detectionRange, teamId)
                    && (forall k :: 0 <= k < |potentialTargets| && IsEnemyInRange(targetTransforms, targetUnitTypes, k, aiPos, detectionRange, teamId)
                          ==> DistSq(aiPos, targetTransforms[j].position) <= DistSq(aiPos, targetTransforms[k].position))
                    && (forall k :: 0 <= k < j && IsEnemyInRange(targetTransforms, targetUnitTypes, k, aiPos, detectionRange, teamId)
                          ==> DistSq(aiPos, targetTransforms[j].position) < DistSq(aiPos, targetTransforms[k].position)))
  {
    var flags := TargetFlags(targetTransforms, targetUnitTypes, aiPos, detectionRange, teamId);
    FirstNearestIsNearest(flags, TargetDistances(targetTransforms, aiPos));
    assert forall k :: 0 <= k < |flags| ==> flags[k] == IsEnemyInRange(targetTransforms, targetUnitTypes, k, aiPos, detectionRange, teamId);
  }

  /** The write at the end of one outer iteration: only when an enemy was found. */
  function Retarget(a: AttackRange, closestEnemy: Entity): (r: AttackRange)
    ensures r.range == a.range
    ensures closestEnemy == Null ==> r == a
    ensures closestEnemy != Null ==> r.target == closestEnemy && r.hasTarget
  {
    if closestEnemy != Null then a.(target := closestEnemy, hasTarget := true) else a
  }

  /** Execute's inner loop for one AI unit: the running-minimum scan over the potential targets. */
  method ScanTargets(potentialTargets: array<Entity>, targetTransforms: array<Transform>, targetUnitTypes: array<UnitType>,
                     aiPos: Vec3, detectionRange: real, teamId: int) returns (closestEnemy: Entity)
    requires potentialTargets.Length == targetTransforms.Length == targetUnitTypes.Length
    ensures closestEnemy == PickTarget(potentialTargets[..], targetTransforms[..], targetUnitTypes[..], aiPos, detectionRange, teamId)
  {
    ghost var flags := TargetFlags(targetTransforms[..], targetUnitTypes[..], aiPos, detectionRange, teamId);
    ghost var dists := TargetDistances(targetTransforms[..], aiPos);
    ghost var best: Option<nat> := None;
    closestEnemy := Null;
    var closestDistance: Option<real> := None;  // float.MaxValue

    for targetIndex := 0 to potentialTargets.Length
      invariant best == FirstNearest(flags[..targetIndex], dists[..targetIndex])
      invariant best.None? ==> closestEnemy == Null && closestDistance.None?
      invariant best.Some? ==> best.value < targetIndex && closestEnemy == potentialTargets[best.value]
                               && closestDistance == Some(dists[best.value])
    {
      assert flags[..targetIndex + 1][..targetIndex] == flags[..targetIndex];
      assert dists[..targetIndex + 1][..targetIndex] == dists[..targetIndex];
      var targetUnitType := targetUnitTypes[targetIndex];
      if targetUnitType.teamId == teamId {
        continue;
      }
      var distance := DistSq(aiPos, targetTransforms[targetIndex].position);
      if WithinDistance(aiPos, targetTransforms[targetIndex].position, detectionRange)
         && (closestDistance.None? || distance < closestDistance.value) {
        closestDistance := Some(distance);
        closestEnemy := potentialTargets[targetIndex];
        best := Some(targetIndex);
      }
    }
    assert flags[..potentialTargets.Length] == flags && dists[..potentialTargets.Length] == dists;
  }

  method Execute(potentialTargets: array<Entity>, targetTransforms: array<Transform>, targetUnitTypes: array<UnitType>,
                 aiEntities: array<Entity>, aiTransforms: array<Transform>, aiComponents: array<AI>, aiUnitTypes: array<UnitType>,
                 attackRanges: array<AttackRange>)
    requires potentialTargets.Length == targetTransforms.Length == targetUnitTypes.Length
    requires aiEntities.Length == aiTransforms.Length == aiComponents.Length == aiUnitTypes.Length == attackRanges.Length
    modifies attackRanges
    ensures forall i :: 0 <= i < attackRanges.Length ==>
              attackRanges[i] == Retarget(old(attackRanges[i]),
                PickTarget(potentialTargets[..], targetTransforms[..], targetUnitTypes[..],
                           aiTransforms[i].position, aiComponents[i].detectionRange, aiUnitTypes[i].teamId))
  {
    for aiIndex := 0 to aiEntities.Length
      invariant forall i :: 0 <= i < attackRanges.Length ==>
                  attackRanges[i] == if i < aiIndex then Retarget(old(attackRanges[i]),
                    PickTarget(potentialTargets[..], targetTransforms[..], targetUnitTypes[..],
                               aiTransforms[i].position, aiComponents[i].detectionRange, aiUnitTypes[i].teamId))
                  else old(attackRanges[i])
    {
      var aiPos := aiTransforms[aiIndex].position;
      var ai := aiComponents[aiIndex];
      var aiUnitType := aiUnitTypes[aiIndex];
      var attackRange := attackRanges[aiIndex];

      var closestEnemy := ScanTargets(potentialTargets, targetTransforms, targetUnitTypes, aiPos, ai.detectionRange, aiUnitType.teamId);

      if closestEnemy != Null {
        attackRange := attackRange.(target := closestEnemy, hasTarget := true);
        attackRanges[aiIndex] := attackRange;
      }
    }
  }
}
