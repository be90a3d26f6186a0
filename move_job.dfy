/**
 * MoveJob: a command-driven step at a fixed speed of 5 units per second, ignoring any
 * Movement component. Nothing in the source schedules it.
 */
module MoveJob {
  import opened Geometry
  import opened Components

  const FixedSpeed: real := 5.0

  /** The threshold of `distance > 0.1f`. */
  const ArrivalDistance: real := 0.1

  /** The new LocalTransform after one Execute; the Command is only read. */
  function MoveToward(t: Transform, command: Command, deltaTime: real, normalize: Normalizer): (r: Transform)
    ensures r.scale == t.scale
    ensures command.kind != Move || WithinDistance(t.position, command.targetPosition, ArrivalDistance) ==> r == t
  {
    if command.kind != Move then t
    else
      var direction := normalize(Sub(command.targetPosition, t.position));
      if !WithinDistance(t.position, command.targetPosition, ArrivalDistance) then
        t.(position := Add(t.position, Scale(direction, FixedSpeed * deltaTime)), rotation := LookAlong(direction))
      else t
  }

  /**
   * A Move order farther than 0.1 away moves the transform by 5 * dt along the normalized
   * direction and always rewrites the rotation (there is no lengthsq guard here).
   */
  lemma MoveTowardSteps(t: Transform, command: Command, deltaTime: real, normalize: Normalizer)
    requires command.kind == Move && !WithinDistance(t.position, command.targetPosition, ArrivalDistance)
    ensures var direction, r := normalize(Sub(command.targetPosition, t.position)), MoveToward(t, command, deltaTime, normalize);
            && r.rotation == LookAlong(direction)
            && (LengthSq(direction) == 1.0 ==> DistSq(t.position, r.position) == (FixedSpeed * deltaTime) * (FixedSpeed * deltaTime))
  {
    var direction := normalize(Sub(command.targetPosition, t.position));
    if LengthSq(direction) == 1.0 {
      StepLength(t.position, direction, FixedSpeed * deltaTime);
    }
  }

  method Execute(transform: Transform, command: Command, deltaTime: real, normalize: Normalizer) returns (r: Transform)
    ensures r == MoveToward(transform, command, deltaTime, normalize)
  {
    r := transform;
    if command.kind != Move {
      return;
    }
    var direction := normalize(Sub(command.targetPosition, r.position));
    if !WithinDistance(r.position, command.targetPosition, ArrivalDistance) {
      var speed := FixedSpeed;
      r := r.(position := Add(r.position, Scale(direction, speed * deltaTime)));
      r := r.(rotation := LookAlong(direction));
    }
  }
}
