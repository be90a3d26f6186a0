/**
 * ProjectileSystem: every projectile flies Direction * Speed * dt and loses dt of LifeTime.
 * A spent projectile is destroyed. Otherwise, if its target still exists and is within 1 of
 * the projectile's new position, the target's health takes the projectile's damage (when it
 * has a Health), a Hit effect lasting 1 is created at the target, and the projectile is
 * destroyed. Creation and destruction go to the EndSimulation buffer.
 */
module ProjectileSystem {
  import opened Options
  import opened Geometry
  import opened Components
  import opened Store
  import opened Combat

  /** The system's query: LocalTransform and ProjectileComponent. */
  predicate Flies(es: map<Entity, EntityData>, x: Entity) {
    x in es && es[x].transform.Some? && es[x].projectile.Some?
  }

  function TargetOf(es: map<Entity, EntityData>, x: Entity): Entity
    requires Flies(es, x)
  {
    es[x].projectile.value.target
  }

  /** What SystemAPI.GetComponent<LocalTransform>(target) needs: an existing target has a LocalTransform. */
  predicate Placed(es: map<Entity, EntityData>, t: Entity) {
    Exists(es, t) ==> es[t].transform.Some?
  }

  ghost predicate TargetsPlaced(es: map<Entity, EntityData>) {
    forall x :: Flies(es, x) ==> Placed(es, TargetOf(es, x))
  }

  const HitDistance: real := 1.0
  const HitEffectDuration: real := 1.0

  /** One tick of flight: the position advances along Direction and LifeTime drops by dt. */
  function Fly(t: Transform, p: Projectile, deltaTime: real): (r: (Transform, Projectile))
    ensures r.0.rotation == t.rotation && r.0.scale == t.scale
    ensures r.1 == p.(lifeTime := p.lifeTime - deltaTime)
  {
    (t.(position := Add(t.position, Scale(p.direction, p.speed * deltaTime))), p.(lifeTime := p.lifeTime - deltaTime))
  }

  /** A projectile with a unit Direction covers exactly Speed * dt in one tick. */
  lemma FlightDistance(t: Transform, p: Projectile, deltaTime: real)
    requires LengthSq(p.direction) == 1.0
    ensures DistSq(t.position, Fly(t, p, deltaTime).0.position) == (p.speed * deltaTime) * (p.speed * deltaTime)
  {
    StepLength(t.position, p.direction, p.speed * deltaTime);
  }

  /**
   * What one projectile's turn may change: the projectile's own LocalTransform and
   * ProjectileComponent, where only Position and LifeTime move, and anyone's Health.
   */
  predicate FlightFrame(es: map<Entity, EntityData>, es': map<Entity, EntityData>) {
    && es'.Keys == es.Keys
    && forall y :: y in es ==>
         && es'[y] == es[y].(transform := es'[y].transform, projectile := es'[y].projectile, health := es'[y].health)
         && es'[y].transform.Some? == es[y].transform.Some?
         && es'[y].projectile.Some? == es[y].projectile.Some?
         && (es[y].projectile.Some? ==> es'[y].projectile.value == es[y].projectile.value.(lifeTime := es'[y].projectile.value.lifeTime))
  }

  /** The requests one projectile's turn may queue. */
  predicate TurnOps(x: Entity, ops: seq<Op>) {
    || ops == []
    || ops == [Destroy(x)]
    || (|ops| == 2 && ops[0].CreateEffect? && ops[0].effect.kind == Hit && ops[1] == Destroy(x))
  }

  /** The projectile has moved and aged; the rest of its turn is decided on this world. */
  function Moved(es: map<Entity, EntityData>, x: Entity, deltaTime: real): (r: map<Entity, EntityData>)
    requires Flies(es, x)
    ensures FlightFrame(es, r) && forall y :: y in es && y != x ==> r[y] == es[y]
  {
    var (t, p) := Fly(es[x].transform.value, es[x].projectile.value, deltaTime);
    es[x := es[x].(transform := Some(t), projectile := Some(p))]
  }

  lemma MovedKeepsPlaced(es: map<Entity, EntityData>, x: Entity, deltaTime: real)
    requires Flies(es, x) && Placed(es, TargetOf(es, x))
    ensures var moved := Moved(es, x, deltaTime); Flies(moved, x) && Placed(moved, TargetOf(moved, x))
  {
  }

  /** The rest of a turn, once the projectile has moved and aged: expiry, then the hit test. */
  function Land(moved: map<Entity, EntityData>, x: Entity, now: real): (r: Tick)
    requires Flies(moved, x) && Placed(moved, TargetOf(moved, x))
    ensures OnlyHealthChanges(moved, r.entities)
    ensures TurnOps(x, r.ops)
  {
    var p := moved[x].projectile.value;
    if p.lifeTime <= 0.0 then Tick(moved, [Destroy(x)])
    else if !Exists(moved, p.target) then Tick(moved, [])
    else
      var position, targetPos := moved[x].transform.value.position, PositionOf(moved[p.target]);
      if !WithinDistance(position, targetPos, HitDistance) then Tick(moved, [])
      else Tick(DealDamage(moved, p.target, p.damage), [HitEffect(targetPos, HitEffectDuration, now), Destroy(x)])
  }

  /** One projectile's turn, against the world as the earlier projectiles of this tick left it. */
  function Step(es: map<Entity, EntityData>, x: Entity, deltaTime: real, now: real): (r: Tick)
    requires TargetsPlaced(es)
    ensures FlightFrame(es, r.entities)
    ensures TurnOps(x, r.ops)
    ensures !Flies(es, x) ==> r == Tick(es, [])
  {
    if !Flies(es, x) then Tick(es, [])
    else
      assert Placed(es, TargetOf(es, x));
      Land(Moved(es, x, deltaTime), x, now)
  }

  /** The frame of one turn keeps every target of a projectile placed. */
  lemma StepKeepsPlaced(es: map<Entity, EntityData>, es': map<Entity, EntityData>)
    requires TargetsPlaced(es) && FlightFrame(es, es')
    ensures TargetsPlaced(es')
  {
    forall x | Flies(es', x)
      ensures Placed(es', TargetOf(es', x))
    {
      assert Flies(es, x) && TargetOf(es', x) == TargetOf(es, x);
      assert Placed(es, TargetOf(es, x));
    }
  }

  /** The projectiles of `order`, one after another. */
  function ProjectileFold(es: map<Entity, EntityData>, order: seq<Entity>, deltaTime: real, now: real): (r: Tick)
    requires TargetsPlaced(es)
    ensures TargetsPlaced(r.entities) && r.entities.Keys == es.Keys
    decreases |order|
  {
    if order == [] then Tick(es, [])
    else
      var k := |order| - 1;
      var prefix := ProjectileFold(es, order[..k], deltaTime, now);
      var step := Step(prefix.entities, order[k], deltaTime, now);
      StepKeepsPlaced(prefix.entities, step.entities);
      Tick(step.entities, prefix.ops + step.ops)
  }

  lemma ProjectileFoldSnoc(es: map<Entity, EntityData>, order: seq<Entity>, i: nat, deltaTime: real, now: real)
    requires TargetsPlaced(es) && i < |order|
    ensures var before := ProjectileFold(es, order[..i], deltaTime, now);
            var step := Step(before.entities, order[i], deltaTime, now);
            ProjectileFold(es, order[..i + 1], deltaTime, now) == Tick(step.entities, before.ops + step.ops)
  {
    assert order[..i + 1][..i] == order[..i];
  }

  /**
   * The cases of one projectile's turn. It always moves and ages. Spent, it is destroyed and
   * hurts no one. With its target gone, nothing else happens. Otherwise it hits exactly when
   * the target is within 1 of its new position, and a hit damages the target whatever the
   * target's team and whether or not it is already dead.
   */
  lemma StepCases(es: map<Entity, EntityData>, x: Entity, deltaTime: real, now: real)
    requires TargetsPlaced(es) && Flies(es, x)
    ensures var r, p := Step(es, x, deltaTime, now), es[x].projectile.value;
            var flown := Fly(es[x].transform.value, p, deltaTime);
            var position := flown.0.position;
            && r.entities[x].transform == Some(flown.0)
            && r.entities[x].projectile == Some(flown.1)
            && (flown.1.lifeTime <= 0.0 ==>
                  r.ops == [Destroy(x)] && forall y :: y in es ==> r.entities[y].health == es[y].health)
            && (flown.1.lifeTime > 0.0 && !Exists(es, p.target) ==>
                  r.ops == [] && forall y :: y in es ==> r.entities[y].health == es[y].health)
            && (flown.1.lifeTime > 0.0 && Exists(es, p.target) ==>
                  r.entities[p.target].transform.Some?
                  && var targetPos := r.entities[p.target].transform.value.position;
                  if WithinDistance(position, targetPos, HitDistance) then
                    && r.ops == [HitEffect(targetPos, HitEffectDuration, now), Destroy(x)]
                    && (es[p.target].health.Some? ==> r.entities[p.target].health == Some(ApplyDamage(es[p.target].health.value, p.damage)))
                    && (forall y :: y in es && y != p.target ==> r.entities[y].health == es[y].health)
                  else
                    r.ops == [] && forall y :: y in es ==> r.entities[y].health == es[y].health)
  {
    assert Placed(es, TargetOf(es, x));
  }

  /** A projectile is destroyed at most once per tick, and only by its own turn. */
  lemma {:induction false} DestroyedAtMostOnce(es: map<Entity, EntityData>, order: seq<Entity>, deltaTime: real, now: real, y: Entity)
    requires TargetsPlaced(es) && Distinct(order)
    ensures DestroyCount(ProjectileFold(es, order, deltaTime, now).ops, y) <= (if y in order then 1 else 0)
    decreases |order|
  {
    if order != [] {
      var k := |order| - 1;
      assert Distinct(order[..k]);
      DestroyedAtMostOnce(es, order[..k], deltaTime, now, y);
      var prefix := ProjectileFold(es, order[..k], deltaTime, now);
      var step := Step(prefix.entities, order[k], deltaTime, now);
      CountsOfConcat(prefix.ops, step.ops, y);
      TurnDestroyCount(order[k], step.ops, y);
      if y in order[..k] {
        var j :| 0 <= j < k && order[..k][j] == y;
        assert order[j] == y;
      }
      assert y in order <== y in order[..k] || y == order[k];
    }
  }

  lemma TurnDestroyCount(x: Entity, ops: seq<Op>, y: Entity)
    requires TurnOps(x, ops)
    ensures DestroyCount(ops, y) == if ops != [] && x == y then 1 else 0
  {
    if |ops| == 2 {
      assert ops[..1][..0] == [];
    } else if ops == [Destroy(x)] {
      assert ops[..0] == [];
    }
  }

  method CreateHitEffect(w: World, position: Vec3, now: real)
    modifies w`endOps
    ensures w.endOps == old(w.endOps) + [HitEffect(position, HitEffectDuration, now)]
  {
    var effect := CreateEffect(Transform(position, Identity, 1.0), Effect(Hit, 1.0, now, position));
    w.endOps := w.endOps + [effect];
  }

  /** The body of the system's loop for one projectile. */
  method FlyOne(w: World, x: Entity, deltaTime: real, now: real)
    requires w.Valid() && TargetsPlaced(w.entities)
    modifies w`entities, w`endOps
    ensures w.Valid()
    ensures var step := Step(old(w.entities), x, deltaTime, now);
            w.entities == step.entities && w.endOps == old(w.endOps) + step.ops
  {
    if !(x in w.entities && w.entities[x].transform.Some? && w.entities[x].projectile.Some?) {
      return;
    }
    assert Placed(w.entities, TargetOf(w.entities, x));
    var d := w.entities[x];
    var transform, projectile := d.transform.value, d.projectile.value;
    transform := transform.(position := Add(transform.position, Scale(projectile.direction, projectile.speed * deltaTime)));
    projectile := projectile.(lifeTime := projectile.lifeTime - deltaTime);
    ghost var moved := Moved(w.entities, x, deltaTime);
    assert transform == Fly(d.transform.value, d.projectile.value, deltaTime).0;
    assert projectile == Fly(d.transform.value, d.projectile.value, deltaTime).1;
    w.entities := w.entities[x := d.(transform := Some(transform), projectile := Some(projectile))];
    assert w.entities == moved;
    MovedKeepsPlaced(old(w.entities), x, deltaTime);
    LandOne(w, x, now);
  }

  /** The loop body after the writes to the projectile's own components. */
  method LandOne(w: World, x: Entity, now: real)
    requires w.Valid() && Flies(w.entities, x) && Placed(w.entities, TargetOf(w.entities, x))
    modifies w`entities, w`endOps
    ensures w.Valid()
    ensures var land := Land(old(w.entities), x, now);
            w.entities == land.entities && w.endOps == old(w.endOps) + land.ops
  {
    var position, projectile := w.entities[x].transform.value.position, w.entities[x].projectile.value;
    if projectile.lifeTime <= 0.0 {
      w.endOps := w.endOps + [Destroy(x)];
      return;
    }
    var target := projectile.target;
    if target != Null && target in w.entities {
      var targetPos := w.entities[target].transform.value.position;
      if WithinDistance(position, targetPos, 1.0) {
        HitTarget(w, target, projectile.damage);
        CreateHitEffect(w, targetPos, now);
        w.endOps := w.endOps + [Destroy(x)];
      }
    }
  }

  /** The guarded health write of a hit. */
  method HitTarget(w: World, target: Entity, damage: real)
    requires w.Valid()
    modifies w`entities
    ensures w.Valid()
    ensures w.entities == DealDamage(old(w.entities), target, damage)
  {
    if target in w.entities && w.entities[target].health.Some? {
      var health := w.entities[target].health.value;
      health := health.(current := if 0.0 > health.current - damage then 0.0 else health.current - damage);
      health := health.(isDead := health.current <= 0.0);
      w.entities := w.entities[target := w.entities[target].(health := Some(health))];
    }
  }

  /** One iteration of the system's loop. */
  method FlyNext(w: World, ghost start: map<Entity, EntityData>, ghost startOps: seq<Op>, i: nat, deltaTime: real, now: real)
    requires w.Valid() && TargetsPlaced(start) && i < |w.order|
    requires var t := ProjectileFold(start, w.order[..i], deltaTime, now);
             w.entities == t.entities && w.endOps == startOps + t.ops
    modifies w`entities, w`endOps
    ensures w.Valid()
    ensures var t := ProjectileFold(start, w.order[..i + 1], deltaTime, now);
            w.entities == t.entities && w.endOps == startOps + t.ops
  {
    ghost var before := ProjectileFold(start, w.order[..i], deltaTime, now);
    ghost var step := Step(before.entities, w.order[i], deltaTime, now);
    ProjectileFoldSnoc(start, w.order, i, deltaTime, now);
    FlyOne(w, w.order[i], deltaTime, now);
    AppendAssoc(startOps, before.ops, step.ops);
  }

  method OnUpdate(w: World, deltaTime: real, now: real)
    requires w.Valid() && TargetsPlaced(w.entities)
    modifies w`entities, w`endOps
    ensures w.Valid()
    ensures var t := ProjectileFold(old(w.entities), w.order, deltaTime, now);
            w.entities == t.entities && w.endOps == old(w.endOps) + t.ops
  {
    ghost var start, startOps := w.entities, w.endOps;
    var i := 0;
    while i < |w.order|
      invariant 0 <= i <= |w.order| && w.Valid()
      invariant var t := ProjectileFold(start, w.order[..i], deltaTime, now);
                w.entities == t.entities && w.endOps == startOps + t.ops
    {
      FlyNext(w, start, startOps, i, deltaTime, now);
      i := i + 1;
    }
    assert w.order[..i] == w.order;
  }
}
