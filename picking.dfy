/**
 * What a click on the ground selects or targets, as RTSInputManager and UnitSelectionSystem
 * both decide it from the resolved click point. A left click picks the nearest living player
 * unit strictly within 2 of the point (the first of several equally near ones). A right click
 * looks for the first unit strictly within 2 of the point and attacks it if it belongs to a team
 * other than 0, and otherwise moves to the point.
 */
module Picking {
  import opened Options
  import opened Geometry
  import opened Components
  import opened Store
  import opened Nearest
  import AIBehaviorSystem
  import Orders

  const PickRadius: real := 2.0

  /** A unit a left click at `point` may pick: LocalTransform, PlayerUnitTag, no DeadTag, distance < 2. */
  predicate Pickable(es: map<Entity, EntityData>, e: Entity, point: Vec3) {
    && e in es
    && es[e].transform.Some? && es[e].player && !es[e].dead
    && StrictlyWithin(point, PositionOf(es[e]), PickRadius)
  }

  function PickFlags(es: map<Entity, EntityData>, order: seq<Entity>, point: Vec3): (r: seq<bool>)
    ensures |r| == |order|
    ensures forall k :: 0 <= k < |order| ==> r[k] == Pickable(es, order[k], point)
  {
    seq(|order|, k requires 0 <= k < |order| => Pickable(es, order[k], point))
  }

  /** The unit a left click picks, or Entity.Null. */
  function PickedUnit(es: map<Entity, EntityData>, order: seq<Entity>, point: Vec3): Entity {
    match FirstNearest(PickFlags(es, order, point), AIBehaviorSystem.Distances(es, order, point))
    case None => Null
    case Some(k) => order[k]
  }

  /**
   * The pick is a living player unit within reach, no other such unit is nearer, every such unit
   * visited before it is strictly farther, and nothing is picked exactly when there is none.
   */
  lemma PickedUnitIsNearest(es: map<Entity, EntityData>, order: seq<Entity>, point: Vec3)
    requires Null !in es
    ensures var r := PickedUnit(es, order, point);
            && (r == Null <==> forall k :: 0 <= k < |order| ==> !Pickable(es, order[k], point))
            && (r != Null ==>
                  && Pickable(es, r, point)
                  && (forall k :: 0 <= k < |order| && Pickable(es, order[k], point) ==>
                        AIBehaviorSystem.DistanceTo(es, r, point) <= AIBehaviorSystem.DistanceTo(es, order[k], point))
                  && (exists j :: 0 <= j < |order| && order[j] == r &&
                        forall k :: 0 <= k < j && Pickable(es, order[k], point) ==>
                          AIBehaviorSystem.DistanceTo(es, r, point) < AIBehaviorSystem.DistanceTo(es, order[k], point)))
  {
    FirstNearestIsNearest(PickFlags(es, order, point), AIBehaviorSystem.Distances(es, order, point));
  }

  /** What the pick reads of an entity: LocalTransform, PlayerUnitTag and DeadTag. */
  predicate SamePickables(a: map<Entity, EntityData>, b: map<Entity, EntityData>) {
    && a.Keys == b.Keys
    && forall e :: e in a ==> a[e].transform == b[e].transform && a[e].player == b[e].player && a[e].dead == b[e].dead
  }

  /** Changing anything else (a selection, say) does not change what a click picks. */
  lemma PickedUnitFrame(a: map<Entity, EntityData>, b: map<Entity, EntityData>, order: seq<Entity>, point: Vec3)
    requires SamePickables(a, b)
    ensures PickedUnit(a, order, point) == PickedUnit(b, order, point)
  {
    assert PickFlags(a, order, point) == PickFlags(b, order, point);
    assert AIBehaviorSystem.Distances(a, order, point) == AIBehaviorSystem.Distances(b, order, point);
  }

  /** GroupComponent.IsSelected := true and AddComponent<SelectedTag>. */
  function MarkSelected(d: EntityData): (r: EntityData)
    requires d.group.Some?
    ensures r.selected && r.group.Some? && r.group.value.isSelected && r.group.value.groupId == d.group.value.groupId
  {
    d.(group := Some(d.group.value.(isSelected := true)), selected := true)
  }

  /** The world after a left click: the picked unit, if any, is selected; nothing else changes. */
  function SelectedAt(es: map<Entity, EntityData>, order: seq<Entity>, point: Vec3): map<Entity, EntityData>
    requires var u := PickedUnit(es, order, point); u != Null ==> es[u].group.Some?
  {
    var u := PickedUnit(es, order, point);
    if u == Null then es else es[u := MarkSelected(es[u])]
  }

  /**
   * A unit a right click may hit: LocalTransform and distance < 2; UnitSelectionSystem also
   * leaves out units with a DeadTag, RTSInputManager does not.
   */
  predicate Hittable(es: map<Entity, EntityData>, e: Entity, point: Vec3, skipDead: bool) {
    && e in es && es[e].transform.Some?
    && !(skipDead && es[e].dead)
    && StrictlyWithin(point, PositionOf(es[e]), PickRadius)
  }

  /** The first hittable entity in visiting order, or Entity.Null. */
  function UnitAt(es: map<Entity, EntityData>, order: seq<Entity>, point: Vec3, skipDead: bool): Entity
    decreases |order|
  {
    if order == [] then Null
    else if Hittable(es, order[0], point, skipDead) then order[0]
    else UnitAt(es, order[1..], point, skipDead)
  }

  /** The unit at the point is the first hittable one, and Null exactly when there is none. */
  lemma {:induction false} UnitAtIsFirst(es: map<Entity, EntityData>, order: seq<Entity>, point: Vec3, skipDead: bool)
    requires Null !in es
    ensures var r := UnitAt(es, order, point, skipDead);
            && (r == Null <==> forall k :: 0 <= k < |order| ==> !Hittable(es, order[k], point, skipDead))
            && (r != Null ==> exists j :: 0 <= j < |order| && order[j] == r && Hittable(es, r, point, skipDead) &&
                                forall k :: 0 <= k < j ==> !Hittable(es, order[k], point, skipDead))
    decreases |order|
  {
    if order != [] && !Hittable(es, order[0], point, skipDead) {
      UnitAtIsFirst(es, order[1..], point, skipDead);
      var r := UnitAt(es, order, point, skipDead);
      forall k | 0 <= k < |order|
        ensures order[k] == order[0] || order[k] == order[1..][k - 1]
      {
      }
      if r != Null {
        var j :| 0 <= j < |order[1..]| && order[1..][j] == r && Hittable(es, r, point, skipDead) &&
                 forall k :: 0 <= k < j ==> !Hittable(es, order[1..][k], point, skipDead);
        assert order[j + 1] == r;
        forall k | 0 <= k < j + 1
          ensures !Hittable(es, order[k], point, skipDead)
        {
          if k > 0 {
            assert order[k] == order[1..][k - 1];
          }
        }
      }
    }
  }

  /** A right click attacks the unit it hits when that unit has a UnitType of a team other than 0, and moves otherwise. */
  function RightClickOrder(es: map<Entity, EntityData>, target: Entity, point: Vec3): (r: Orders.Order)
    ensures r.AttackOn? <==> target != Null && target in es && es[target].unitType.Some? && es[target].unitType.value.teamId != 0
    ensures r.AttackOn? ==> r.target == target
    ensures r.MoveTo? ==> r.destination == point
    ensures !r.Halt?
  {
    if target != Null && target in es && es[target].unitType.Some? && es[target].unitType.value.teamId != 0
    then Orders.AttackOn(target)
    else Orders.MoveTo(point)
  }
}
