/**
 * MovementJob: the per-chunk form of MovementSystem's step. The chunk's LocalTransform and
 * MovementComponent columns are two parallel arrays of chunk.Count entries.
 */
module MovementJob {
  import opened Geometry
  import opened Components
  import opened MovementSystem

  /** Every entity of the chunk is stepped exactly as MovementSystem steps it; Movement is only read. */
  method Execute(transforms: array<Transform>, movements: array<Movement>, deltaTime: real, normalize: Normalizer)
    requires transforms.Length == movements.Length
    modifies transforms
    ensures forall i :: 0 <= i < transforms.Length ==>
              transforms[i] == SeekStep(old(transforms[i]), movements[i], deltaTime, normalize)
  {
    for i := 0 to transforms.Length
      invariant forall j :: 0 <= j < transforms.Length ==>
                  transforms[j] == if j < i then SeekStep(old(transforms[j]), movements[j], deltaTime, normalize) else old(transforms[j])
    {
      var movement := movements[i];
      if !movement.hasDestination {
        continue;
      }
      var transform := transforms[i];
      var currentPos := transform.position;
      var destination := movement.destination;
      var direction := normalize(Sub(destination, currentPos));
      if WithinDistance(currentPos, destination, movement.stoppingDistance) {
        continue;
      }
      transform := transform.(position := Add(currentPos, Scale(direction, movement.speed * deltaTime)));
      if LengthSq(direction) > 0.01 {
        transform := transform.(rotation := LookAlong(direction));
      }
      transforms[i] := transform;
    }
  }
}
