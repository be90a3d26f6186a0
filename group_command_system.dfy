/**
 * GroupCommandSystem: for selected living units with a Group, an enabled Command and Movement,
 * a Move order goes to the Pathfinding component when the unit has one and straight to
 * Movement otherwise. The Command itself is only read.
 */
module GroupCommandSystem {
  import opened Options
  import opened Components
  import opened Store

  /** The system's query: Group, enabled Command, Movement, SelectedTag, no DeadTag. */
  predicate Considered(d: EntityData) {
    d.group.Some? && d.command.Some? && d.commandEnabled && d.movement.Some? && d.selected && !d.dead
  }

  /**
   * One pass over one entity. Nothing but Movement and Pathfinding may change, a unit with
   * Pathfinding keeps its Movement, and the Command and its enable bit are untouched.
   */
  function Route(d: EntityData): (r: EntityData)
    ensures !Considered(d) || d.command.value.kind != Move ==> r == d
    ensures r == d.(movement := r.movement, pathfinding := r.pathfinding)
    ensures r.pathfinding.Some? == d.pathfinding.Some? && r.movement.Some? == d.movement.Some?
    ensures d.pathfinding.Some? ==> r.movement == d.movement
  {
    if !Considered(d) || d.command.value.kind != Move then d
    else
      var c := d.command.value;
      if d.pathfinding.Some? then
        d.(pathfinding := Some(d.pathfinding.value.(finalDestination := c.targetPosition, needsPath := true, waypointIndex := 0)))
      else
        d.(movement := Some(d.movement.value.(destination := c.targetPosition, hasDestination := true)))
  }

  /** A Move order either asks for a new path to the target or heads straight for it. */
  lemma RouteMove(d: EntityData)
    requires Considered(d) && d.command.value.kind == Move
    ensures var t := d.command.value.targetPosition;
            if d.pathfinding.Some? then
              var p := Route(d).pathfinding.value;
              p.finalDestination == t && p.needsPath && p.waypointIndex == 0
            else
              var m := Route(d).movement.value;
              m.destination == t && m.hasDestination && m.speed == d.movement.value.speed
                && m.stoppingDistance == d.movement.value.stoppingDistance
  {
  }

  method OnUpdate(w: World)
    requires w.Valid()
    modifies w`entities
    ensures w.Valid()
    ensures w.entities == MapValues(old(w.entities), Route)
  {
    var i := 0;
    while i < |w.order|
      invariant 0 <= i <= |w.order|
      invariant w.entities.Keys == old(w.entities).Keys
      invariant forall e :: e in w.entities ==>
                  w.entities[e] == if e in w.order[..i] then Route(old(w.entities)[e]) else old(w.entities)[e]
    {
      var e := w.order[i];
      var d := w.entities[e];
      if d.group.Some? && d.command.Some? && d.commandEnabled && d.movement.Some? && d.selected && !d.dead {
        var command := d.command.value;
        if command.kind == Move {
          if d.pathfinding.Some? {
            var pathfinding := d.pathfinding.value;
            pathfinding := pathfinding.(finalDestination := command.targetPosition, needsPath := true, waypointIndex := 0);
            w.entities := w.entities[e := d.(pathfinding := Some(pathfinding))];
          } else {
            var movement := d.movement.value;
            movement := movement.(destination := command.targetPosition, hasDestination := true);
            w.entities := w.entities[e := d.(movement := Some(movement))];
          }
        }
      }
      i := i + 1;
    }
    assert w.order[..i] == w.order;
  }
}
