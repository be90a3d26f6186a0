/**
 * CollisionDetectionSystem: for every projectile, the units (LocalTransform, Health, UnitType,
 * no DeadTag) are scanned in query order; the first unit of another team within 1 of the
 * projectile takes the projectile's damage, a Hit effect lasting 0.5 is created at the unit,
 * the projectile is destroyed, and the scan for that projectile stops. The projectile itself
 * is only read.
 */
module CollisionDetectionSystem {
  import opened Options
  import opened Geometry
  import opened Components
  import opened Store
  import opened Combat
  import ProjectileSystem

  /** The outer query: LocalTransform and ProjectileComponent. */
  predicate IsProjectile(es: map<Entity, EntityData>, p: Entity) {
    p in es && es[p].transform.Some? && es[p].projectile.Some?
  }

  /** The inner query: LocalTransform, Health and UnitType, and no DeadTag. */
  predicate IsUnit(es: map<Entity, EntityData>, u: Entity) {
    u in es && es[u].transform.Some? && es[u].health.Some? && es[u].unitType.Some? && !es[u].dead
  }

  const CollisionDistance: real := 1.0
  const CollisionEffectDuration: real := 0.5

  /** Unit u is of another team than projectile p and within 1 of it. */
  predicate Hits(es: map<Entity, EntityData>, p: Entity, u: Entity)
    requires IsProjectile(es, p)
  {
    && IsUnit(es, u)
    && es[u].unitType.value.teamId != es[p].projectile.value.teamId
    && WithinDistance(PositionOf(es[p]), PositionOf(es[u]), CollisionDistance)
  }

  /** The index at which the inner scan breaks: the first unit the projectile hits. */
  function FirstHit(es: map<Entity, EntityData>, p: Entity, units: seq<Entity>): (r: Option<nat>)
    requires IsProjectile(es, p)
    ensures r.Some? ==> r.value < |units| && Hits(es, p, units[r.value])
    ensures r.Some? ==> forall j :: 0 <= j < r.value ==> !Hits(es, p, units[j])
    ensures r.None? ==> forall j :: 0 <= j < |units| ==> !Hits(es, p, units[j])
  {
    if units == [] then None
    else if Hits(es, p, units[0]) then Some(0)
    else
      match FirstHit(es, p, units[1..])
      case None => None
      case Some(k) => Some(k + 1)
  }

  /** The requests one projectile's scan may queue. */
  predicate ScanOps(p: Entity, ops: seq<Op>) {
    || ops == []
    || (|ops| == 2 && ops[0].CreateEffect? && ops[0].effect.kind == Hit && ops[1] == Destroy(p))
  }

  /** One projectile's scan over `units`. */
  function Scan(es: map<Entity, EntityData>, p: Entity, units: seq<Entity>, now: real): (r: Tick)
    ensures OnlyHealthChanges(es, r.entities)
    ensures ScanOps(p, r.ops)
  {
    if !IsProjectile(es, p) then Tick(es, [])
    else
      match FirstHit(es, p, units)
      case None => Tick(es, [])
      case Some(k) =>
        var u := units[k];
        var position := PositionOf(es[u]);
        Tick(DealDamage(es, u, es[p].projectile.value.damage), [HitEffect(position, CollisionEffectDuration, now), Destroy(p)])
  }

  /**
   * A scan hits exactly when some unit of another team is within 1; a hit damages the first
   * such unit in query order, puts the Hit effect at that unit and destroys the projectile,
   * and touches no other health.
   */
  lemma ScanHitsFirst(es: map<Entity, EntityData>, p: Entity, units: seq<Entity>, now: real)
    requires IsProjectile(es, p)
    ensures var r := Scan(es, p, units, now);
            && (r.ops != [] <==> exists j :: 0 <= j < |units| && Hits(es, p, units[j]))
            && (r.ops == [] ==> r.entities == es)
            && (r.ops != [] ==>
                  exists k :: 0 <= k < |units| && Hits(es, p, units[k])
                    && (forall j :: 0 <= j < k ==> !Hits(es, p, units[j]))
                    && r.ops == [HitEffect(PositionOf(es[units[k]]), CollisionEffectDuration, now), Destroy(p)]
                    && r.entities[units[k]].health == Some(ApplyDamage(es[units[k]].health.value, es[p].projectile.value.damage))
                    && forall y :: y in es && y != units[k] ==> r.entities[y] == es[y])
  {
    match FirstHit(es, p, units)
    case None =>
    case Some(k) =>
      assert Hits(es, p, units[k]);
  }

  /** The projectiles of `order`, one after another, each scanning `units`. */
  function CollisionFold(es: map<Entity, EntityData>, order: seq<Entity>, units: seq<Entity>, now: real): (r: Tick)
    ensures OnlyHealthChanges(es, r.entities)
    decreases |order|
  {
    if order == [] then Tick(es, [])
    else
      var k := |order| - 1;
      var prefix := CollisionFold(es, order[..k], units, now);
      var step := Scan(prefix.entities, order[k], units, now);
      Tick(step.entities, prefix.ops + step.ops)
  }

  lemma CollisionFoldSnoc(es: map<Entity, EntityData>, order: seq<Entity>, units: seq<Entity>, i: nat, now: real)
    requires i < |order|
    ensures var before := CollisionFold(es, order[..i], units, now);
            var step := Scan(before.entities, order[i], units, now);
            CollisionFold(es, order[..i + 1], units, now) == Tick(step.entities, before.ops + step.ops)
  {
    assert order[..i + 1][..i] == order[..i];
  }

  /** The hit branch of the inner loop: damage, effect, destroy. */
  method HitUnit(w: World, p: Entity, u: Entity, damage: real, now: real)
    requires w.Valid() && IsUnit(w.entities, u)
    modifies w`entities, w`endOps
    ensures w.Valid()
    ensures w.entities == DealDamage(old(w.entities), u, damage)
    ensures w.endOps == old(w.endOps) + [HitEffect(PositionOf(old(w.entities)[u]), CollisionEffectDuration, now), Destroy(p)]
  {
    var position := w.entities[u].transform.value.position;
    var health := w.entities[u].health.value;
    health := health.(current := if 0.0 > health.current - damage then 0.0 else health.current - damage);
    health := health.(isDead := health.current <= 0.0);
    w.entities := w.entities[u := w.entities[u].(health := Some(health))];
    var hitEffect := CreateEffect(Transform(position, Identity, 1.0), Effect(Hit, 0.5, now, position));
    w.endOps := w.endOps + [hitEffect, Destroy(p)];
  }

  /** The inner loop for one projectile. */
  method ScanOne(w: World, p: Entity, now: real)
    requires w.Valid()
    modifies w`entities, w`endOps
    ensures w.Valid()
    ensures var scan := Scan(old(w.entities), p, w.order, now);
            w.entities == scan.entities && w.endOps == old(w.endOps) + scan.ops
  {
    if !(p in w.entities && w.entities[p].transform.Some? && w.entities[p].projectile.Some?) {
      return;
    }
    var projectilePosition, projectile := w.entities[p].transform.value.position, w.entities[p].projectile.value;
    var j := 0;
    while j < |w.order|
      invariant 0 <= j <= |w.order|
      invariant w.entities == old(w.entities) && w.endOps == old(w.endOps)
      invariant forall k :: 0 <= k < j ==> !Hits(w.entities, p, w.order[k])
    {
      var u := w.order[j];
      var unit := w.entities[u];
      if !(unit.transform.Some? && unit.health.Some? && unit.unitType.Some? && !unit.dead) {
        j := j + 1;
        continue;
      }
      if unit.unitType.value.teamId == projectile.teamId {
        j := j + 1;
        continue;
      }
      if WithinDistance(projectilePosition, unit.transform.value.position, 1.0) {
        assert Hits(w.entities, p, u);
        HitUnit(w, p, u, projectile.damage, now);
        return;
      }
      j := j + 1;
    }
  }

  /** One iteration of the outer loop. */
  method ScanNext(w: World, ghost start: map<Entity, EntityData>, ghost startOps: seq<Op>, i: nat, now: real)
    requires w.Valid() && i < |w.order|
    requires var t := CollisionFold(start, w.order[..i], w.order, now);
             w.entities == t.entities && w.endOps == startOps + t.ops
    modifies w`entities, w`endOps
    ensures w.Valid()
    ensures var t := CollisionFold(start, w.order[..i + 1], w.order, now);
            w.entities == t.entities && w.endOps == startOps + t.ops
  {
    ghost var before := CollisionFold(start, w.order[..i], w.order, now);
    ghost var step := Scan(before.entities, w.order[i], w.order, now);
    CollisionFoldSnoc(start, w.order, w.order, i, now);
    ScanOne(w, w.order[i], now);
    AppendAssoc(startOps, before.ops, step.ops);
  }

  method OnUpdate(w: World, now: real)
    requires w.Valid()
    modifies w`entities, w`endOps
    ensures w.Valid()
    ensures var t := CollisionFold(old(w.entities), w.order, w.order, now);
            w.entities == t.entities && w.endOps == old(w.endOps) + t.ops
  {
    ghost var start, startOps := w.entities, w.endOps;
    var i := 0;
    while i < |w.order|
      invariant 0 <= i <= |w.order| && w.Valid()
      invariant var t := CollisionFold(start, w.order[..i], w.order, now);
                w.entities == t.entities && w.endOps == startOps + t.ops
    {
      ScanNext(w, start, startOps, i, now);
      i := i + 1;
    }
    assert w.order[..i] == w.order;
  }

  /**
   * ProjectileSystem, then this system, in one frame, against the same EndSimulation buffer.
   * Both test the same projectile against the same target, and neither looks at what the
   * other has already queued.
   */
  function ProjectilesThenCollisions(es: map<Entity, EntityData>, order: seq<Entity>, deltaTime: real, now: real): (r: Tick)
    requires ProjectileSystem.TargetsPlaced(es)
  {
    var flown := ProjectileSystem.ProjectileFold(es, order, deltaTime, now);
    var collided := CollisionFold(flown.entities, order, order, now);
    Tick(collided.entities, flown.ops + collided.ops)
  }

  /**
   * The shape of the double hit: the first entity of `order` is a projectile and no unit, the
   * second is its target, a live unit of another team and no projectile, and the projectile is
   * not spent after this tick's flight.
   */
  predicate AimedAtEnemyUnit(es: map<Entity, EntityData>, order: seq<Entity>, deltaTime: real) {
    && |order| == 2 && order[0] != order[1]
    && ProjectileSystem.Flies(es, order[0]) && !IsUnit(es, order[0])
    && ProjectileSystem.TargetOf(es, order[0]) == order[1] && order[1] != Null
    && IsUnit(es, order[1]) && es[order[1]].projectile.None?
    && var p := es[order[0]].projectile.value;
       && p.lifeTime - deltaTime > 0.0
       && es[order[1]].unitType.value.teamId != p.teamId
  }

  /** The projectile's new position is within 1 of the target. */
  predicate EndsWithin(es: map<Entity, EntityData>, order: seq<Entity>, deltaTime: real)
    requires |order| == 2 && ProjectileSystem.Flies(es, order[0]) && order[1] in es && es[order[1]].transform.Some?
  {
    WithinDistance(ProjectileSystem.Fly(es[order[0]].transform.value, es[order[0]].projectile.value, deltaTime).0.position,
                   PositionOf(es[order[1]]), CollisionDistance)
  }

  /** The situation of the double hit: the shape above, with the projectile landing on its target. */
  predicate LandsOnEnemyUnit(es: map<Entity, EntityData>, order: seq<Entity>, deltaTime: real) {
    AimedAtEnemyUnit(es, order, deltaTime) && EndsWithin(es, order, deltaTime)
  }

  /** The projectile's turn of `order` alone. */
  lemma ProjectileFoldFirst(es: map<Entity, EntityData>, order: seq<Entity>, deltaTime: real, now: real)
    requires ProjectileSystem.TargetsPlaced(es) && |order| == 2
    ensures ProjectileSystem.ProjectileFold(es, order[..1], deltaTime, now) == ProjectileSystem.Step(es, order[0], deltaTime, now)
  {
    ProjectileSystem.ProjectileFoldSnoc(es, order, 0, deltaTime, now);
    var first := ProjectileSystem.Step(es, order[0], deltaTime, now);
    assert order[..0] == [] && [] + first.ops == first.ops;
  }

  /** Two turns where the second entity is no projectile: only the first turn counts. */
  lemma ProjectileFoldFirstOnly(es: map<Entity, EntityData>, order: seq<Entity>, deltaTime: real, now: real)
    requires ProjectileSystem.TargetsPlaced(es) && |order| == 2
    requires !ProjectileSystem.Flies(ProjectileSystem.Step(es, order[0], deltaTime, now).entities, order[1])
    ensures ProjectileSystem.ProjectileFold(es, order, deltaTime, now) == ProjectileSystem.Step(es, order[0], deltaTime, now)
  {
    ProjectileFoldFirst(es, order, deltaTime, now);
    ProjectileSystem.ProjectileFoldSnoc(es, order, 1, deltaTime, now);
    var first := ProjectileSystem.Step(es, order[0], deltaTime, now);
    assert order[..2] == order && first.ops + [] == first.ops;
  }

  /** Two scans where the second entity is no projectile: only the first scan counts. */
  lemma CollisionFoldFirstOnly(es: map<Entity, EntityData>, order: seq<Entity>, units: seq<Entity>, now: real)
    requires |order| == 2 && !IsProjectile(Scan(es, order[0], units, now).entities, order[1])
    ensures CollisionFold(es, order, units, now) == Scan(es, order[0], units, now)
  {
    var first := Scan(es, order[0], units, now);
    assert order[..1][..0] == [] && order[..1][0] == order[0] && order[..1] != [];
    assert CollisionFold(es, order[..1], units, now) == Tick(first.entities, first.ops);
    assert order[..2] == order && first.ops + [] == first.ops;
  }

  /** A projectile's turn is its flight followed by its landing. */
  lemma StepIsLand(es: map<Entity, EntityData>, x: Entity, deltaTime: real, now: real)
    requires ProjectileSystem.TargetsPlaced(es) && ProjectileSystem.Flies(es, x)
    ensures var moved := ProjectileSystem.Moved(es, x, deltaTime);
            && ProjectileSystem.Flies(moved, x) && ProjectileSystem.Placed(moved, ProjectileSystem.TargetOf(moved, x))
            && ProjectileSystem.Step(es, x, deltaTime, now) == ProjectileSystem.Land(moved, x, now)
  {
    assert ProjectileSystem.Placed(es, ProjectileSystem.TargetOf(es, x));
  }

  /** A live projectile whose existing target is within 1 lands on it. */
  lemma LandHits(moved: map<Entity, EntityData>, x: Entity, now: real)
    requires ProjectileSystem.Flies(moved, x) && ProjectileSystem.Placed(moved, ProjectileSystem.TargetOf(moved, x))
    requires var p := moved[x].projectile.value;
             && p.lifeTime > 0.0 && Exists(moved, p.target)
             && WithinDistance(moved[x].transform.value.position, PositionOf(moved[p.target]), ProjectileSystem.HitDistance)
    ensures var p := moved[x].projectile.value;
            ProjectileSystem.Land(moved, x, now)
              == Tick(DealDamage(moved, p.target, p.damage), [HitEffect(PositionOf(moved[p.target]), ProjectileSystem.HitEffectDuration, now), Destroy(x)])
  {
  }

  /** In the double-hit situation the projectile's turn lands on the target. */
  lemma TurnLands(es: map<Entity, EntityData>, order: seq<Entity>, deltaTime: real, now: real)
    requires ProjectileSystem.TargetsPlaced(es) && LandsOnEnemyUnit(es, order, deltaTime)
    ensures var p, t := order[0], order[1];
            var moved := ProjectileSystem.Moved(es, p, deltaTime);
            ProjectileSystem.Step(es, p, deltaTime, now)
              == Tick(DealDamage(moved, t, es[p].projectile.value.damage), [HitEffect(PositionOf(es[t]), ProjectileSystem.HitEffectDuration, now), Destroy(p)])
  {
    var p, t := order[0], order[1];
    StepIsLand(es, p, deltaTime, now);
    var moved := ProjectileSystem.Moved(es, p, deltaTime);
    assert moved[t] == es[t];
    LandHits(moved, p, now);
  }

  /** So the ProjectileSystem leg damages the target once and queues one Hit effect and one destroy. */
  lemma ProjectileLegLands(es: map<Entity, EntityData>, order: seq<Entity>, deltaTime: real, now: real)
    requires ProjectileSystem.TargetsPlaced(es) && LandsOnEnemyUnit(es, order, deltaTime)
    ensures var p, t := order[0], order[1];
            var moved := ProjectileSystem.Moved(es, p, deltaTime);
            ProjectileSystem.ProjectileFold(es, order, deltaTime, now)
              == Tick(DealDamage(moved, t, es[p].projectile.value.damage), [HitEffect(PositionOf(es[t]), ProjectileSystem.HitEffectDuration, now), Destroy(p)])
  {
    TurnLands(es, order, deltaTime, now);
    ProjectileFoldFirstOnly(es, order, deltaTime, now);
  }

  /** A scan whose first hit is units[k] damages that unit and queues its Hit effect and the destroy. */
  lemma ScanStopsAt(es: map<Entity, EntityData>, p: Entity, units: seq<Entity>, now: real, k: nat)
    requires IsProjectile(es, p) && FirstHit(es, p, units) == Some(k)
    ensures k < |units|
    ensures var r := Scan(es, p, units, now);
            && r.ops == [HitEffect(PositionOf(es[units[k]]), CollisionEffectDuration, now), Destroy(p)]
            && r.entities == DealDamage(es, units[k], es[p].projectile.value.damage)
  {
  }

  /** A scan over two units that misses the first and hits the second stops at the second. */
  lemma FirstHitSecond(es: map<Entity, EntityData>, p: Entity, units: seq<Entity>, a: Entity, b: Entity)
    requires IsProjectile(es, p) && units == [a, b]
    requires !Hits(es, p, a) && Hits(es, p, b)
    ensures FirstHit(es, p, units) == Some(1)
  {
    assert units[0] == a && units[1..] == [b];
  }

  /**
   * After the ProjectileSystem leg the projectile still exists in the world this system sees,
   * at its new position, and the damaged target is still a live unit of the other team.
   */
  lemma StillHits(es: map<Entity, EntityData>, order: seq<Entity>, deltaTime: real, flown: map<Entity, EntityData>)
    requires LandsOnEnemyUnit(es, order, deltaTime)
    requires flown == DealDamage(ProjectileSystem.Moved(es, order[0], deltaTime), order[1], es[order[0]].projectile.value.damage)
    ensures IsProjectile(flown, order[0]) && FirstHit(flown, order[0], order) == Some(1)
    ensures flown[order[0]].projectile.value.damage == es[order[0]].projectile.value.damage
    ensures flown[order[1]].transform == es[order[1]].transform
  {
    var p, t := order[0], order[1];
    var moved := ProjectileSystem.Moved(es, p, deltaTime);
    assert moved[t] == es[t] && flown[p] == moved[p];
    assert flown[t] == es[t].(health := flown[t].health);
    FirstHitSecond(flown, p, order, p, t);
  }

  /** So the CollisionDetectionSystem leg hits the target a second time. */
  lemma CollisionLegHits(es: map<Entity, EntityData>, order: seq<Entity>, deltaTime: real, flown: map<Entity, EntityData>, now: real)
    requires LandsOnEnemyUnit(es, order, deltaTime)
    requires flown == DealDamage(ProjectileSystem.Moved(es, order[0], deltaTime), order[1], es[order[0]].projectile.value.damage)
    ensures var p, t := order[0], order[1];
            CollisionFold(flown, order, order, now)
              == Tick(DealDamage(flown, t, es[p].projectile.value.damage), [HitEffect(PositionOf(es[t]), CollisionEffectDuration, now), Destroy(p)])
  {
    StillHits(es, order, deltaTime, flown);
    ScanStopsAt(flown, order[0], order, now, 1);
    CollisionFoldFirstOnly(flown, order, order, now);
  }

  /**
   * As written, a projectile that lands on a live unit of another team is hit-tested again by
   * this system in the same frame and hits again: the target takes the damage twice, two Hit
   * effects are created and the projectile is destroyed twice.
   */
  lemma DoubleHit(es: map<Entity, EntityData>, order: seq<Entity>, deltaTime: real, now: real)
    requires ProjectileSystem.TargetsPlaced(es) && LandsOnEnemyUnit(es, order, deltaTime)
    ensures var r, p, t := ProjectilesThenCollisions(es, order, deltaTime, now), order[0], order[1];
            && DestroyCount(r.ops, p) == 2
            && HitEffectCount(r.ops) == 2
            && t in r.entities
            && r.entities[t].health == Some(ApplyDamage(ApplyDamage(es[t].health.value, es[p].projectile.value.damage), es[p].projectile.value.damage))
  {
    var p, t := order[0], order[1];
    var d := es[p].projectile.value.damage;
    ProjectileLegLands(es, order, deltaTime, now);
    var flown := ProjectileSystem.ProjectileFold(es, order, deltaTime, now);
    CollisionLegHits(es, order, deltaTime, flown.entities, now);
    var collided := CollisionFold(flown.entities, order, order, now);
    CountsOfConcat(flown.ops, collided.ops, p);
    TwoOpCounts(HitEffect(PositionOf(es[t]), ProjectileSystem.HitEffectDuration, now), p);
    TwoOpCounts(HitEffect(PositionOf(es[t]), CollisionEffectDuration, now), p);
    var moved := ProjectileSystem.Moved(es, p, deltaTime);
    assert moved[t] == es[t];
  }

  /** Unit 2 of the example: team 1, at the origin, with `health` of 100. */
  function Target(health: real): EntityData {
    Empty.(transform := Some(Transform(Vec3(0.0, 0.0, 0.0), Identity, 1.0)),
           health := Some(Health(health, 100.0, false)),
           unitType := Some(UnitType(Infantry, 1)))
  }

  /** Projectile 1 of the example: team 0, damage 10, flying along x at speed 20 towards unit 2. */
  function Arrow(position: Vec3, lifeTime: real): EntityData {
    Empty.(transform := Some(Transform(position, Identity, 1.0)),
           projectile := Some(Projectile(20.0, Vec3(1.0, 0.0, 0.0), 2, 10.0, lifeTime, 0)))
  }

  /** Projectile 1 is aimed at unit 2, both at the origin. */
  function DoubleHitWorld(): map<Entity, EntityData> {
    map[1 := Arrow(Vec3(0.0, 0.0, 0.0), 5.0), 2 := Target(100.0)]
  }

  /** The example world satisfies the ProjectileSystem's precondition. */
  lemma DoubleHitPlaced(es: map<Entity, EntityData>)
    requires es == DoubleHitWorld()
    ensures ProjectileSystem.TargetsPlaced(es)
  {
    forall x | ProjectileSystem.Flies(es, x)
      ensures ProjectileSystem.Placed(es, ProjectileSystem.TargetOf(es, x))
    {
      assert x == 1;
    }
  }

  /** In 0.01 at speed 20 along x, the projectile moves from the origin to x = 0.2. */
  lemma DoubleHitFlight(t: Transform, p: Projectile, deltaTime: real)
    requires t == Transform(Vec3(0.0, 0.0, 0.0), Identity, 1.0)
    requires p == Projectile(20.0, Vec3(1.0, 0.0, 0.0), 2, 10.0, 5.0, 0) && deltaTime == 0.01
    ensures ProjectileSystem.Fly(t, p, deltaTime).0.position == Vec3(0.2, 0.0, 0.0)
  {
    assert Scale(p.direction, p.speed * deltaTime) == Vec3(0.2, 0.0, 0.0);
  }

  /** A point 0.2 from the origin is within 1 of it. */
  lemma DoubleHitDistance(a: Vec3, b: Vec3)
    requires a == Vec3(0.2, 0.0, 0.0) && b == Vec3(0.0, 0.0, 0.0)
    ensures WithinDistance(a, b, CollisionDistance)
  {
    assert DistSq(a, b) == LengthSq(Sub(b, a));
  }

  /** Where the example's projectile ends its flight, and where unit 2 stands. */
  lemma DoubleHitPositions(es: map<Entity, EntityData>, order: seq<Entity>, deltaTime: real)
    requires es == DoubleHitWorld() && order == [1, 2] && deltaTime == 0.01
    ensures ProjectileSystem.Flies(es, order[0]) && order[1] in es && es[order[1]].transform.Some?
    ensures ProjectileSystem.Fly(es[order[0]].transform.value, es[order[0]].projectile.value, deltaTime).0.position == Vec3(0.2, 0.0, 0.0)
    ensures PositionOf(es[order[1]]) == Vec3(0.0, 0.0, 0.0)
  {
    assert es[1] == Arrow(Vec3(0.0, 0.0, 0.0), 5.0) && es[2] == Target(100.0);
    assert order[0] == 1 && order[1] == 2;
    DoubleHitFlight(es[1].transform.value, es[1].projectile.value, deltaTime);
  }

  /** The example's projectile ends its flight within 1 of unit 2. */
  lemma DoubleHitClose(es: map<Entity, EntityData>, order: seq<Entity>, deltaTime: real)
    requires es == DoubleHitWorld() && order == [1, 2] && deltaTime == 0.01
    ensures |order| == 2 && ProjectileSystem.Flies(es, order[0]) && order[1] in es && es[order[1]].transform.Some?
    ensures EndsWithin(es, order, deltaTime)
  {
    DoubleHitPositions(es, order, deltaTime);
    DoubleHitDistance(ProjectileSystem.Fly(es[order[0]].transform.value, es[order[0]].projectile.value, deltaTime).0.position,
                      PositionOf(es[order[1]]));
  }

  /** The example has the shape of the double hit. */
  lemma DoubleHitAimed(es: map<Entity, EntityData>, order: seq<Entity>, deltaTime: real)
    requires es == DoubleHitWorld() && order == [1, 2] && deltaTime == 0.01
    ensures AimedAtEnemyUnit(es, order, deltaTime)
  {
    assert es[1] == Arrow(Vec3(0.0, 0.0, 0.0), 5.0) && es[2] == Target(100.0);
    assert order[0] == 1 && order[1] == 2;
  }

  /** The example is an instance of the double-hit situation. */
  lemma DoubleHitWorldLands(es: map<Entity, EntityData>, order: seq<Entity>, deltaTime: real)
    requires es == DoubleHitWorld() && order == [1, 2] && deltaTime == 0.01
    ensures ProjectileSystem.TargetsPlaced(es) && LandsOnEnemyUnit(es, order, deltaTime)
  {
    DoubleHitPlaced(es);
    DoubleHitAimed(es, order, deltaTime);
    DoubleHitClose(es, order, deltaTime);
  }

  /** DoubleHit, applied to the example. */
  lemma DoubleHitInstance(es: map<Entity, EntityData>, order: seq<Entity>, deltaTime: real, now: real)
    requires es == DoubleHitWorld() && order == [1, 2] && deltaTime == 0.01 && now == 0.0
    ensures ProjectileSystem.TargetsPlaced(es) && |order| == 2 && order[0] in es && order[1] in es
    ensures es[order[0]].projectile.Some? && es[order[1]].health.Some?
    ensures var r, p, t := ProjectilesThenCollisions(es, order, deltaTime, now), order[0], order[1];
            && DestroyCount(r.ops, p) == 2
            && HitEffectCount(r.ops) == 2
            && t in r.entities
            && r.entities[t].health == Some(ApplyDamage(ApplyDamage(es[t].health.value, es[p].projectile.value.damage), es[p].projectile.value.damage))
  {
    DoubleHitWorldLands(es, order, deltaTime);
    DoubleHit(es, order, deltaTime, now);
  }

  /**
   * The example: projectile 1 (damage 10) lands on unit 2 (health 100) in a 0.01 frame. Unit 2
   * ends the frame at 80 instead of 90, with two Hit effects and two destroys of projectile 1.
   */
  lemma DoubleHitExample(es: map<Entity, EntityData>, order: seq<Entity>, deltaTime: real, now: real)
    requires es == DoubleHitWorld() && order == [1, 2] && deltaTime == 0.01 && now == 0.0
    ensures ProjectileSystem.TargetsPlaced(es)
    ensures var r := ProjectilesThenCollisions(es, order, deltaTime, now);
            && DestroyCount(r.ops, 1) == 2
            && HitEffectCount(r.ops) == 2
            && 2 in r.entities && r.entities[2].health == Some(Health(80.0, 100.0, false))
  {
    DoubleHitInstance(es, order, deltaTime, now);
    assert order[0] == 1 && order[1] == 2;
    assert es[1] == Arrow(Vec3(0.0, 0.0, 0.0), 5.0) && es[2] == Target(100.0);
    assert ApplyDamage(ApplyDamage(Health(100.0, 100.0, false), 10.0), 10.0) == Health(80.0, 100.0, false);
  }

  /** The counts of a Hit effect followed by a Destroy. */
  lemma TwoOpCounts(effect: Op, p: Entity)
    requires effect.CreateEffect? && effect.effect.kind == Hit
    ensures DestroyCount([effect, Destroy(p)], p) == 1 && HitEffectCount([effect, Destroy(p)]) == 1
  {
    CountsOfOne(effect, p);
    CountsOfOne(Destroy(p), p);
    CountsOfConcat([effect], [Destroy(p)], p);
    assert [effect] + [Destroy(p)] == [effect, Destroy(p)];
  }

  /** This system's scan, skipping a projectile that is already queued for destruction. */
  function ScanUnlessDestroyed(es: map<Entity, EntityData>, p: Entity, units: seq<Entity>, now: real, queued: seq<Op>): (r: Tick)
    ensures OnlyHealthChanges(es, r.entities) && ScanOps(p, r.ops)
    ensures DestroyCount(queued, p) > 0 ==> r == Tick(es, [])
    ensures DestroyCount(queued, p) == 0 ==> r == Scan(es, p, units, now)
  {
    if DestroyCount(queued, p) > 0 then Tick(es, []) else Scan(es, p, units, now)
  }

  /** The corrected outer loop: `queued` is what the buffer held before this system ran. */
  function CorrectedCollisionFold(es: map<Entity, EntityData>, order: seq<Entity>, units: seq<Entity>, now: real, queued: seq<Op>): (r: Tick)
    ensures OnlyHealthChanges(es, r.entities)
    decreases |order|
  {
    if order == [] then Tick(es, [])
    else
      var k := |order| - 1;
      var prefix := CorrectedCollisionFold(es, order[..k], units, now, queued);
      var step := ScanUnlessDestroyed(prefix.entities, order[k], units, now, queued + prefix.ops);
      Tick(step.entities, prefix.ops + step.ops)
  }

  function ProjectilesThenCorrectedCollisions(es: map<Entity, EntityData>, order: seq<Entity>, deltaTime: real, now: real): (r: Tick)
    requires ProjectileSystem.TargetsPlaced(es)
  {
    var flown := ProjectileSystem.ProjectileFold(es, order, deltaTime, now);
    var collided := CorrectedCollisionFold(flown.entities, order, order, now, flown.ops);
    Tick(collided.entities, flown.ops + collided.ops)
  }

  lemma ScanDestroyCount(p: Entity, ops: seq<Op>, y: Entity)
    requires ScanOps(p, ops)
    ensures DestroyCount(ops, y) == if ops != [] && p == y then 1 else 0
  {
    if ops != [] {
      CountsOfOne(ops[0], y);
      CountsOfOne(ops[1], y);
      CountsOfConcat([ops[0]], [ops[1]], y);
      assert [ops[0]] + [ops[1]] == ops;
    }
  }

  /** A buffer that destroys nothing twice still destroys nothing twice after the corrected loop. */
  lemma {:induction false} CorrectedFoldDestroysOnce(es: map<Entity, EntityData>, order: seq<Entity>, units: seq<Entity>, now: real, queued: seq<Op>)
    requires forall y :: DestroyCount(queued, y) <= 1
    ensures forall y :: DestroyCount(queued + CorrectedCollisionFold(es, order, units, now, queued).ops, y) <= 1
    decreases |order|
  {
    if order != [] {
      var k := |order| - 1;
      CorrectedFoldDestroysOnce(es, order[..k], units, now, queued);
      var prefix := CorrectedCollisionFold(es, order[..k], units, now, queued);
      var step := ScanUnlessDestroyed(prefix.entities, order[k], units, now, queued + prefix.ops);
      AppendAssoc(queued, prefix.ops, step.ops);
      assert CorrectedCollisionFold(es, order, units, now, queued).ops == prefix.ops + step.ops;
      forall y
        ensures DestroyCount(queued + (prefix.ops + step.ops), y) <= 1
      {
        CountsOfConcat(queued + prefix.ops, step.ops, y);
        ScanDestroyCount(order[k], step.ops, y);
      }
    } else {
      assert queued + CorrectedCollisionFold(es, order, units, now, queued).ops == queued;
    }
  }

  /** With the correction, no entity is destroyed twice by the two systems in one frame. */
  lemma CorrectedDestroysOnce(es: map<Entity, EntityData>, order: seq<Entity>, deltaTime: real, now: real)
    requires ProjectileSystem.TargetsPlaced(es) && Distinct(order)
    ensures forall y :: DestroyCount(ProjectilesThenCorrectedCollisions(es, order, deltaTime, now).ops, y) <= 1
  {
    var flown := ProjectileSystem.ProjectileFold(es, order, deltaTime, now);
    forall y
      ensures DestroyCount(flown.ops, y) <= 1
    {
      ProjectileSystem.DestroyedAtMostOnce(es, order, deltaTime, now, y);
    }
    CorrectedFoldDestroysOnce(flown.entities, order, order, now, flown.ops);
  }

  /**
   * In the double-hit situation the corrected collision pass finds the projectile already
   * queued for destruction and skips it, and the target is no projectile: it adds nothing.
   */
  lemma CorrectedLegSkips(es: map<Entity, EntityData>, order: seq<Entity>, deltaTime: real, flown: Tick, now: real)
    requires LandsOnEnemyUnit(es, order, deltaTime)
    requires var p, t := order[0], order[1];
             flown == Tick(DealDamage(ProjectileSystem.Moved(es, p, deltaTime), t, es[p].projectile.value.damage),
                           [HitEffect(PositionOf(es[t]), ProjectileSystem.HitEffectDuration, now), Destroy(p)])
    ensures CorrectedCollisionFold(flown.entities, order, order, now, flown.ops) == Tick(flown.entities, [])
  {
    var p, t := order[0], order[1];
    var e := flown.entities;
    TwoOpCounts(HitEffect(PositionOf(es[t]), ProjectileSystem.HitEffectDuration, now), p);
    assert flown.ops + [] == flown.ops;
    assert order[..1][..0] == [] && order[..1][0] == p && order[..1] != [];
    assert CorrectedCollisionFold(e, order[..1], order, now, flown.ops) == Tick(e, []);
    var moved := ProjectileSystem.Moved(es, p, deltaTime);
    assert moved[t] == es[t];
    assert !IsProjectile(e, t);
    assert order[..2][..1] == order[..1] && order[..2] == order;
  }

  /**
   * With the correction, a projectile that lands on a live unit of another team hits it once:
   * the target takes the damage once, one Hit effect is created and the projectile is
   * destroyed once.
   */
  lemma CorrectedSingleHit(es: map<Entity, EntityData>, order: seq<Entity>, deltaTime: real, now: real)
    requires ProjectileSystem.TargetsPlaced(es) && LandsOnEnemyUnit(es, order, deltaTime)
    ensures var r, p, t := ProjectilesThenCorrectedCollisions(es, order, deltaTime, now), order[0], order[1];
            && DestroyCount(r.ops, p) == 1
            && HitEffectCount(r.ops) == 1
            && t in r.entities
            && r.entities[t].health == Some(ApplyDamage(es[t].health.value, es[p].projectile.value.damage))
  {
    var p, t := order[0], order[1];
    ProjectileLegLands(es, order, deltaTime, now);
    var flown := ProjectileSystem.ProjectileFold(es, order, deltaTime, now);
    CorrectedLegSkips(es, order, deltaTime, flown, now);
    TwoOpCounts(HitEffect(PositionOf(es[t]), ProjectileSystem.HitEffectDuration, now), p);
    assert flown.ops + [] == flown.ops;
    var moved := ProjectileSystem.Moved(es, p, deltaTime);
    assert moved[t] == es[t];
  }

  /** CorrectedSingleHit, applied to the example. */
  lemma CorrectedSingleHitInstance(es: map<Entity, EntityData>, order: seq<Entity>, deltaTime: real, now: real)
    requires es == DoubleHitWorld() && order == [1, 2] && deltaTime == 0.01 && now == 0.0
    ensures ProjectileSystem.TargetsPlaced(es) && |order| == 2 && order[0] in es && order[1] in es
    ensures es[order[0]].projectile.Some? && es[order[1]].health.Some?
    ensures var r, p, t := ProjectilesThenCorrectedCollisions(es, order, deltaTime, now), order[0], order[1];
            && DestroyCount(r.ops, p) == 1
            && HitEffectCount(r.ops) == 1
            && t in r.entities
            && r.entities[t].health == Some(ApplyDamage(es[t].health.value, es[p].projectile.value.damage))
  {
    DoubleHitWorldLands(es, order, deltaTime);
    CorrectedSingleHit(es, order, deltaTime, now);
  }

  /**
   * The example with the correction: unit 2 ends the frame at 90, with one Hit effect and one
   * destroy of projectile 1.
   */
  lemma CorrectedSingleHitExample(es: map<Entity, EntityData>, order: seq<Entity>, deltaTime: real, now: real)
    requires es == DoubleHitWorld() && order == [1, 2] && deltaTime == 0.01 && now == 0.0
    ensures ProjectileSystem.TargetsPlaced(es)
    ensures var r := ProjectilesThenCorrectedCollisions(es, order, deltaTime, now);
            && DestroyCount(r.ops, 1) == 1
            && HitEffectCount(r.ops) == 1
            && 2 in r.entities && r.entities[2].health == Some(Health(90.0, 100.0, false))
  {
    CorrectedSingleHitInstance(es, order, deltaTime, now);
    assert order[0] == 1 && order[1] == 2;
    assert es[1] == Arrow(Vec3(0.0, 0.0, 0.0), 5.0) && es[2] == Target(100.0);
    assert ApplyDamage(Health(100.0, 100.0, false), 10.0) == Health(90.0, 100.0, false);
  }
}
