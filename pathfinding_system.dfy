/**
 * PathfindingSystem: a path request is answered with the single waypoint FinalDestination; the
 * unit then steers towards the current waypoint and advances the waypoint index each time it
 * comes within its stopping distance, dropping its destination after the last waypoint.
 */
module PathfindingSystem {
  import opened Options
  import opened Geometry
  import opened Components
  import opened Store

  /** The three things the system writes for one unit. */
  datatype PathState = PathState(pathfinding: Pathfinding, movement: Movement, waypoints: seq<Vec3>)

  /** The replanning step: a pending request becomes the one-waypoint path [FinalDestination]. */
  function Replan(p: Pathfinding, waypoints: seq<Vec3>): (r: (Pathfinding, seq<Vec3>))
    ensures p.needsPath ==> r.1 == [p.finalDestination] && r.0 == p.(needsPath := false, waypointIndex := 0)
    ensures !p.needsPath ==> r == (p, waypoints)
  {
    if p.needsPath then (p.(needsPath := false, waypointIndex := 0), [p.finalDestination]) else (p, waypoints)
  }

  /** One unit's update, from its Pathfinding, Movement, position and waypoint buffer. */
  function Follow(p: Pathfinding, m: Movement, position: Vec3, waypoints: seq<Vec3>): (r: PathState)
    ensures r.pathfinding.finalDestination == p.finalDestination && !r.pathfinding.needsPath
    ensures r.movement.speed == m.speed && r.movement.stoppingDistance == m.stoppingDistance
  {
    var (p1, w1) := Replan(p, waypoints);
    if |w1| > 0 && p1.waypointIndex < |w1| then
      var currentWaypoint := w1[p1.waypointIndex];
      if WithinDistance(position, currentWaypoint, m.stoppingDistance) then
        var p2 := p1.(waypointIndex := p1.waypointIndex + 1);
        if p2.waypointIndex >= |w1| then PathState(p2, m.(hasDestination := false), w1)
        else PathState(p2, m.(destination := w1[p2.waypointIndex]), w1)
      else PathState(p1, m.(destination := currentWaypoint, hasDestination := true), w1)
    else PathState(p1, m, w1)
  }

  /**
   * Following the path: with a valid index the unit either steers at the current waypoint, or
   * has reached it and the index grows by exactly one, the destination becoming the next
   * waypoint or being dropped after the last one. With no valid index nothing but the replan
   * happens.
   */
  lemma FollowSteps(p: Pathfinding, m: Movement, position: Vec3, waypoints: seq<Vec3>)
    ensures var (p1, w1) := Replan(p, waypoints);
            var r := Follow(p, m, position, waypoints);
            && r.waypoints == w1
            && (!(|w1| > 0 && p1.waypointIndex < |w1|) ==> r.pathfinding == p1 && r.movement == m)
            && (|w1| > 0 && p1.waypointIndex < |w1| ==>
                  var current := w1[p1.waypointIndex];
                  if WithinDistance(position, current, m.stoppingDistance) then
                    && r.pathfinding == p1.(waypointIndex := p1.waypointIndex + 1)
                    && (r.pathfinding.waypointIndex >= |w1| ==> r.movement == m.(hasDestination := false))
                    && (r.pathfinding.waypointIndex < |w1| ==> r.movement == m.(destination := w1[r.pathfinding.waypointIndex]))
                  else
                    r.pathfinding == p1 && r.movement == m.(destination := current, hasDestination := true))
  {
  }

  /** The waypoint index never passes the end of the buffer if it did not before the tick. */
  lemma FollowKeepsIndexInBounds(p: Pathfinding, m: Movement, position: Vec3, waypoints: seq<Vec3>)
    requires p.needsPath || p.waypointIndex <= |waypoints|
    ensures var r := Follow(p, m, position, waypoints);
            r.pathfinding.waypointIndex <= |r.waypoints|
  {
  }

  /**
   * A fresh request on a unit standing away from its destination yields the path
   * [FinalDestination], index 0, and steering straight at the destination.
   */
  lemma FreshPathHeadsForDestination(p: Pathfinding, m: Movement, position: Vec3, waypoints: seq<Vec3>)
    requires p.needsPath && !WithinDistance(position, p.finalDestination, m.stoppingDistance)
    ensures var r := Follow(p, m, position, waypoints);
            && r.waypoints == [p.finalDestination] && r.pathfinding.waypointIndex == 0
            && r.movement.destination == p.finalDestination && r.movement.hasDestination
  {
  }

  /** The system's query: Pathfinding, Movement, LocalTransform and the waypoint buffer; no DeadTag. */
  predicate Pathing(d: EntityData) {
    d.pathfinding.Some? && d.movement.Some? && d.transform.Some? && d.waypoints.Some? && !d.dead
  }

  /** One entity's update: only Pathfinding, Movement and the waypoint buffer may change. */
  function PathUnit(d: EntityData): (r: EntityData)
    ensures r == d.(pathfinding := r.pathfinding, movement := r.movement, waypoints := r.waypoints)
    ensures r.pathfinding.Some? == d.pathfinding.Some? && r.movement.Some? == d.movement.Some? && r.waypoints.Some? == d.waypoints.Some?
    ensures !Pathing(d) ==> r == d
  {
    if !Pathing(d) then d
    else
      var s := Follow(d.pathfinding.value, d.movement.value, PositionOf(d), d.waypoints.value);
      d.(pathfinding := Some(s.pathfinding), movement := Some(s.movement), waypoints := Some(s.waypoints))
  }

  /** The body of the system's loop for one entity. */
  method UpdateUnit(d: EntityData) returns (next: EntityData)
    ensures next == PathUnit(d)
  {
    next := d;
    if d.pathfinding.Some? && d.movement.Some? && d.transform.Some? && d.waypoints.Some? && !d.dead {
      var pathfinding := d.pathfinding.value;
      var movement := d.movement.value;
      var position := d.transform.value.position;
      var waypoints := d.waypoints.value;
      if pathfinding.needsPath {
        waypoints := [];
        waypoints := waypoints + [pathfinding.finalDestination];
        assert waypoints == [d.pathfinding.value.finalDestination];
        pathfinding := pathfinding.(needsPath := false);
        pathfinding := pathfinding.(waypointIndex := 0);
      }
      assert (pathfinding, waypoints) == Replan(d.pathfinding.value, d.waypoints.value);
      if |waypoints| > 0 && pathfinding.waypointIndex < |waypoints| {
        var currentWaypoint := waypoints[pathfinding.waypointIndex];
        if WithinDistance(position, currentWaypoint, movement.stoppingDistance) {
          pathfinding := pathfinding.(waypointIndex := pathfinding.waypointIndex + 1);
          if pathfinding.waypointIndex >= |waypoints| {
            movement := movement.(hasDestination := false);
          } else {
            movement := movement.(destination := waypoints[pathfinding.waypointIndex]);
          }
        } else {
          movement := movement.(destination := currentWaypoint);
          movement := movement.(hasDestination := true);
        }
      }
      assert PathState(pathfinding, movement, waypoints) == Follow(d.pathfinding.value, d.movement.value, position, d.waypoints.value);
      next := d.(pathfinding := Some(pathfinding), movement := Some(movement), waypoints := Some(waypoints));
    }
  }

  method OnUpdate(w: World)
    requires w.Valid()
    modifies w`entities
    ensures w.Valid()
    ensures w.entities == MapValues(old(w.entities), PathUnit)
  {
    var i := 0;
    while i < |w.order|
      invariant 0 <= i <= |w.order|
      invariant w.entities.Keys == old(w.entities).Keys
      invariant forall e :: e in w.entities ==>
                  w.entities[e] == if e in w.order[..i] then PathUnit(old(w.entities)[e]) else old(w.entities)[e]
    {
      var e := w.order[i];
      var next := UpdateUnit(w.entities[e]);
      w.entities := w.entities[e := next];
      i := i + 1;
    }
    assert w.order[..i] == w.order;
  }
}
