/**
 * CommandSystem: applies each enabled, one-shot Command of a living unit to its Movement and
 * AttackRange, then disables the Command so that the order is not applied again.
 */
module CommandSystem {
  import opened Options
  import opened Components
  import opened Store

  /** The system's query: an enabled Command, Movement and AttackRange, and no DeadTag. */
  predicate Processed(d: EntityData) {
    d.command.Some? && d.commandEnabled && d.movement.Some? && d.attackRange.Some? && !d.dead
  }

  /**
   * One pass over one entity. Only Movement, AttackRange and the enable bit may change, the
   * Command data never does, and afterwards the entity is no longer processed.
   */
  function Resolve(d: EntityData): (r: EntityData)
    ensures !Processed(d) ==> r == d
    ensures Processed(d) ==> r == d.(movement := r.movement, attackRange := r.attackRange, commandEnabled := false)
    ensures r.movement.Some? == d.movement.Some? && r.attackRange.Some? == d.attackRange.Some?
    ensures r.command == d.command
    ensures !Processed(r)
  {
    if !Processed(d) then d
    else
      var c := d.command.value;
      var m := d.movement.value;
      var a := d.attackRange.value;
      var (m', a') :=
        match c.kind
        case Move => (m.(destination := c.targetPosition, hasDestination := true), a.(hasTarget := false))
        case Attack => if c.targetEntity != Null then (m, a.(target := c.targetEntity, hasTarget := true)) else (m, a)
        case Stop => (m.(hasDestination := false), a.(hasTarget := false))
        case Patrol => (m, a);
      d.(movement := Some(m'), attackRange := Some(a'), commandEnabled := false)
  }

  /** What each order does to the fields it touches, and which fields it leaves alone. */
  lemma ResolveByKind(d: EntityData)
    requires Processed(d)
    ensures var c, m, a := d.command.value, d.movement.value, d.attackRange.value;
            var m', a' := Resolve(d).movement.value, Resolve(d).attackRange.value;
            && m'.speed == m.speed && m'.stoppingDistance == m.stoppingDistance && a'.range == a.range
            && (c.kind == Move ==>
                  m'.destination == c.targetPosition && m'.hasDestination && !a'.hasTarget && a'.target == a.target)
            && (c.kind == Attack && c.targetEntity != Null ==>
                  m' == m && a'.target == c.targetEntity && a'.hasTarget)
            && (c.kind == Attack && c.targetEntity == Null ==> m' == m && a' == a)
            && (c.kind == Stop ==>
                  !m'.hasDestination && m'.destination == m.destination && !a'.hasTarget && a'.target == a.target)
            && (c.kind == Patrol ==> m' == m && a' == a)
  {
  }

  /** A Command is applied once: a second pass with no new order changes nothing. */
  lemma OneShot(d: EntityData)
    ensures Resolve(Resolve(d)) == Resolve(d)
  {
  }

  method OnUpdate(w: World)
    requires w.Valid()
    modifies w`entities
    ensures w.Valid()
    ensures w.entities == MapValues(old(w.entities), Resolve)
  {
    var i := 0;
    while i < |w.order|
      invariant 0 <= i <= |w.order|
      invariant w.entities.Keys == old(w.entities).Keys
      invariant forall e :: e in w.entities ==>
                  w.entities[e] == if e in w.order[..i] then Resolve(old(w.entities)[e]) else old(w.entities)[e]
    {
      var e := w.order[i];
      var d := w.entities[e];
      if d.command.Some? && d.commandEnabled && d.movement.Some? && d.attackRange.Some? && !d.dead {
        var command := d.command.value;
        var movement := d.movement.value;
        var attackRange := d.attackRange.value;
        match command.kind {
          case Move =>
            movement := movement.(destination := command.targetPosition, hasDestination := true);
            attackRange := attackRange.(hasTarget := false);
          case Attack =>
            if command.targetEntity != Null {
              attackRange := attackRange.(target := command.targetEntity, hasTarget := true);
            }
          case Stop =>
            movement := movement.(hasDestination := false);
            attackRange := attackRange.(hasTarget := false);
          case Patrol =>
        }
        // SetComponentEnabled<CommandComponent>(entity, false)
        w.entities := w.entities[e := d.(movement := Some(movement), attackRange := Some(attackRange), commandEnabled := false)];
      }
      i := i + 1;
    }
    assert w.order[..i] == w.order;
  }

  /** Running the system twice in a row is the same as running it once. */
  lemma {:induction false} OnUpdateIdempotent(es: map<Entity, EntityData>)
    ensures MapValues(MapValues(es, Resolve), Resolve) == MapValues(es, Resolve)
  {
    forall e | e in es
      ensures MapValues(MapValues(es, Resolve), Resolve)[e] == MapValues(es, Resolve)[e]
    {
      OneShot(es[e]);
    }
  }
}
