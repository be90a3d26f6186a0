/**
 * MovementSystem: every living unit with a destination steps towards it at its Movement.Speed,
 * unless it is already within its stopping distance. The same step is shared by MovementJob.
 */
module MovementSystem {
  import opened Options
  import opened Geometry
  import opened Components
  import opened Store

  /**
   * One seek step of a transform. Only Position and Rotation may change, and Rotation only
   * when the direction has lengthsq > 0.01.
   */
  function SeekStep(t: Transform, m: Movement, deltaTime: real, normalize: Normalizer): (r: Transform)
    ensures r.scale == t.scale
    ensures !m.hasDestination || WithinDistance(t.position, m.destination, m.stoppingDistance) ==> r == t
    ensures r.rotation != t.rotation ==> LengthSq(normalize(Sub(m.destination, t.position))) > 0.01
  {
    if !m.hasDestination then t
    else
      var direction := normalize(Sub(m.destination, t.position));
      if WithinDistance(t.position, m.destination, m.stoppingDistance) then t
      else
        var newPosition := Add(t.position, Scale(direction, m.speed * deltaTime));
        t.(position := newPosition,
           rotation := if LengthSq(direction) > 0.01 then LookAlong(direction) else t.rotation)
  }

  /**
   * A unit outside its stopping distance moves along the normalized direction by exactly
   * Speed * dt (when the normalizer yields a unit vector), and faces that direction when it is
   * not degenerate. The destination itself is never cleared here.
   */
  lemma SeekStepMoves(t: Transform, m: Movement, deltaTime: real, normalize: Normalizer)
    requires m.hasDestination && !WithinDistance(t.position, m.destination, m.stoppingDistance)
    ensures var direction, r := normalize(Sub(m.destination, t.position)), SeekStep(t, m, deltaTime, normalize);
            && r.position == Add(t.position, Scale(direction, m.speed * deltaTime))
            && (LengthSq(direction) == 1.0 ==> DistSq(t.position, r.position) == (m.speed * deltaTime) * (m.speed * deltaTime))
            && (LengthSq(direction) > 0.01 ==> r.rotation == LookAlong(direction))
  {
    var direction := normalize(Sub(m.destination, t.position));
    if LengthSq(direction) == 1.0 {
      StepLength(t.position, direction, m.speed * deltaTime);
    }
  }

  /** The system's query: LocalTransform (written), Movement (read), no DeadTag. */
  predicate Moves(d: EntityData) {
    d.transform.Some? && d.movement.Some? && !d.dead
  }

  /** One entity's update: only its LocalTransform may change. */
  function MoveUnit(d: EntityData, deltaTime: real, normalize: Normalizer): (r: EntityData)
    ensures r == d.(transform := r.transform)
    ensures r.transform.Some? == d.transform.Some?
    ensures !Moves(d) ==> r == d
  {
    if Moves(d) then d.(transform := Some(SeekStep(d.transform.value, d.movement.value, deltaTime, normalize))) else d
  }

  function MoveFn(deltaTime: real, normalize: Normalizer): EntityData -> EntityData {
    (d: EntityData) => MoveUnit(d, deltaTime, normalize)
  }

  function MoveAll(es: map<Entity, EntityData>, deltaTime: real, normalize: Normalizer): map<Entity, EntityData> {
    MapValues(es, MoveFn(deltaTime, normalize))
  }

  /** A dead unit keeps its transform, and so does every unit without a destination. */
  lemma MoveAllKeepsStill(es: map<Entity, EntityData>, deltaTime: real, normalize: Normalizer, e: Entity)
    requires e in es
    requires es[e].dead || es[e].movement.None? || !es[e].movement.value.hasDestination
    ensures MoveAll(es, deltaTime, normalize)[e] == es[e]
  {
  }

  /** The body of the query loop for one entity: its new transform, and whether it moved. */
  method MoveOne(d: EntityData, deltaTime: real, normalize: Normalizer) returns (n: EntityData, moved: bool)
    ensures n == MoveUnit(d, deltaTime, normalize)
    ensures !moved ==> n == d
  {
    n, moved := d, false;
    if d.transform.Some? && d.movement.Some? && !d.dead {
      var transform := d.transform.value;
      var movement := d.movement.value;
      if movement.hasDestination {
        var currentPos := transform.position;
        var destination := movement.destination;
        var direction := normalize(Sub(destination, currentPos));
        if !WithinDistance(currentPos, destination, movement.stoppingDistance) {
          var newPosition := Add(currentPos, Scale(direction, movement.speed * deltaTime));
          assert SeekStep(transform, movement, deltaTime, normalize) ==
                 transform.(position := newPosition, rotation := if LengthSq(direction) > 0.01 then LookAlong(direction) else transform.rotation);
          transform := transform.(position := Add(currentPos, Scale(direction, movement.speed * deltaTime)));
          if LengthSq(direction) > 0.01 {
            transform := transform.(rotation := LookAlong(direction));
          }
          assert transform == SeekStep(d.transform.value, movement, deltaTime, normalize);
          n := d.(transform := Some(transform));
          moved := true;
        }
      }
    }
  }

  method OnUpdate(w: World, deltaTime: real, normalize: Normalizer)
    requires w.Valid()
    modifies w`entities
    ensures w.Valid()
    ensures w.entities == MoveAll(old(w.entities), deltaTime, normalize)
  {
    var transforms := w.entities;
    ghost var f := MoveFn(deltaTime, normalize);
    var i := 0;
    while i < |w.order|
      invariant 0 <= i <= |w.order|
      invariant RewrittenBy(w.entities, transforms, w.order[..i], f)
    {
      var e := w.order[i];
      var n, moved := MoveOne(transforms[e], deltaTime, normalize);
      if moved {
        RewriteStep(w.entities, transforms, w.order, i, f);
        w.entities := w.entities[e := n];
      } else {
        RewriteSkip(w.entities, transforms, w.order, i, f);
      }
      i := i + 1;
    }
    assert w.order[..i] == w.order;
    RewriteDone(w.entities, transforms, w.order, f);
  }
}
