/**
 * AttackJob: the parallel (IJobEntity) form of AttackSystem. Each call of Execute handles one
 * attacker, reading targets through component lookups and writing the target's Health through
 * HealthLookup; an archer's projectile goes to a parallel command buffer under the attacker's
 * index in the query. Unlike AttackSystem it drops a target that has no LocalTransform instead
 * of failing on it, and its query does not exclude dead attackers.
 */
module AttackJob {
  import opened Options
  import opened Geometry
  import opened Components
  import opened Store
  import opened Combat
  import AttackSystem

  /** An entry of EntityCommandBuffer.ParallelWriter: the request and the sort key it was written with. */
  datatype KeyedOp = KeyedOp(sortKey: int, op: Op)

  /** What one Execute produces: the new ref components, the health table and the queued projectile. */
  datatype Outcome = Outcome(attackRange: AttackRange, damage: Damage, healths: map<Entity, Health>, projectile: Option<Op>)

  /** DealDirectDamage: the clamped rule, applied only when the target has a Health component. */
  function DirectDamage(healths: map<Entity, Health>, target: Entity, damageAmount: real): (r: map<Entity, Health>)
    ensures r.Keys == healths.Keys
    ensures forall x :: x in healths && x != target ==> r[x] == healths[x]
    ensures target in healths ==> r[target] == ApplyDamage(healths[target], damageAmount)
  {
    if target in healths then healths[target := ApplyDamage(healths[target], damageAmount)] else healths
  }

  /**
   * One attacker's turn as the job sees it. The job keeps the AttackRange or only clears
   * HasTarget, keeps DamageAmount and AttackSpeed, touches no health but the target's, and
   * queues a projectile only for an archer, in which case it touches no health at all.
   */
  function Turn(transforms: map<Entity, Transform>, healths: map<Entity, Health>, dead: set<Entity>, currentTime: real,
                  a: AttackRange, d: Damage, u: UnitType, t: Transform, normalize: Normalizer): (r: Outcome)
    ensures r.attackRange == a || r.attackRange == a.(hasTarget := false)
    ensures r.damage == d || r.damage == d.(lastAttackTime := currentTime)
    ensures r.healths.Keys == healths.Keys
    ensures forall x :: x in healths && x != a.target ==> r.healths[x] == healths[x]
    ensures r.projectile.Some? ==> u.kind == Archer && r.healths == healths
    ensures !a.hasTarget ==> r == Outcome(a, d, healths, None)
  {
    if !a.hasTarget then Outcome(a, d, healths, None)
    else if a.target !in transforms || a.target in dead then Outcome(a.(hasTarget := false), d, healths, None)
    else
      var targetPos := transforms[a.target].position;
      if WithinDistance(t.position, targetPos, a.range) && CooldownReady(currentTime, d) then
        var stamped := d.(lastAttackTime := currentTime);
        if u.kind == Archer then
          Outcome(a, stamped, healths, Some(NewProjectile(t.position, targetPos, a.target, d.amount, u.teamId, normalize)))
        else
          Outcome(a, stamped, DirectDamage(healths, a.target, d.amount), None)
      else Outcome(a, d, healths, None)
  }

  /** The command-buffer entries a turn writes. */
  function Keyed(sortKey: int, projectile: Option<Op>): seq<KeyedOp> {
    if projectile.Some? then [KeyedOp(sortKey, projectile.value)] else []
  }

  /** The lookups a scheduling system would hand the job, read off a world. */
  function TransformsOf(es: map<Entity, EntityData>): (r: map<Entity, Transform>)
    ensures forall x :: x in r <==> x in es && es[x].transform.Some?
  {
    map x | x in es && es[x].transform.Some? :: es[x].transform.value
  }

  function HealthsOf(es: map<Entity, EntityData>): (r: map<Entity, Health>)
    ensures forall x :: x in r <==> x in es && es[x].health.Some?
  {
    map x | x in es && es[x].health.Some? :: es[x].health.value
  }

  function DeadOf(es: map<Entity, EntityData>): (r: set<Entity>)
    ensures forall x :: x in r <==> x in es && es[x].dead
  {
    set x | x in es && es[x].dead
  }

  lemma HealthsOfDealDamage(es: map<Entity, EntityData>, target: Entity, amount: real)
    ensures HealthsOf(DealDamage(es, target, amount)) == DirectDamage(HealthsOf(es), target, amount)
  {
    var l, r := HealthsOf(DealDamage(es, target, amount)), DirectDamage(HealthsOf(es), target, amount);
    forall x | x in l
      ensures x in r && l[x] == r[x]
    {
    }
  }

  lemma HealthsOfStamp(es: map<Entity, EntityData>, e: Entity, damage: Damage, now: real)
    requires e in es
    ensures HealthsOf(AttackSystem.Stamp(es, e, damage, now)) == HealthsOf(es)
  {
    var l, r := HealthsOf(AttackSystem.Stamp(es, e, damage, now)), HealthsOf(es);
    forall x | x in l
      ensures x in r && l[x] == r[x]
    {
    }
  }

  lemma HealthsOfDrop(es: map<Entity, EntityData>, e: Entity)
    requires e in es && es[e].attackRange.Some?
    ensures HealthsOf(AttackSystem.DropTarget(es, e)) == HealthsOf(es)
  {
    var l, r := HealthsOf(AttackSystem.DropTarget(es, e)), HealthsOf(es);
    forall x | x in l
      ensures x in r && l[x] == r[x]
    {
    }
  }

  /** The job, run on the lookups of `es`, reproduces AttackSystem's turn for `e`. */
  predicate Agree(es: map<Entity, EntityData>, e: Entity, now: real, normalize: Normalizer)
    requires AttackSystem.TargetsLocatable(es) && e in es && AttackSystem.Attacks(es[e])
  {
    var d := es[e];
    var r := Turn(TransformsOf(es), HealthsOf(es), DeadOf(es), now,
                  d.attackRange.value, d.damage.value, d.unitType.value, d.transform.value, normalize);
    var s := AttackSystem.AttackStep(es, e, now, normalize);
    && e in s.entities
    && s.entities[e].attackRange == Some(r.attackRange)
    && s.entities[e].damage == Some(r.damage)
    && HealthsOf(s.entities) == r.healths
    && s.ops == (if r.projectile.Some? then [r.projectile.value] else [])
  }

  lemma AgreeOnDrop(es: map<Entity, EntityData>, e: Entity, now: real, normalize: Normalizer)
    requires AttackSystem.TargetsLocatable(es) && Null !in es && e in es && AttackSystem.Attacks(es[e])
    requires es[e].attackRange.value.hasTarget
    requires var t := es[e].attackRange.value.target; !Exists(es, t) || es[t].dead
    ensures Agree(es, e, now, normalize)
  {
    var drop := AttackSystem.DropTarget(es, e);
    assert AttackSystem.AttackStep(es, e, now, normalize) == Tick(drop, []);
    HealthsOfDrop(es, e);
  }

  lemma AgreeOnLocated(es: map<Entity, EntityData>, e: Entity, now: real, normalize: Normalizer)
    requires AttackSystem.TargetsLocatable(es) && e in es && AttackSystem.Attacks(es[e])
    requires es[e].attackRange.value.hasTarget
    requires var t := es[e].attackRange.value.target; Exists(es, t) && !es[t].dead
    ensures Agree(es, e, now, normalize)
  {
    var d := es[e];
    var a := d.attackRange.value;
    AttackSystem.AttackStepCases(es, e, now, normalize);
    if WithinDistance(PositionOf(d), PositionOf(es[a.target]), a.range) && CooldownReady(now, d.damage.value) {
      if d.unitType.value.kind == Archer {
        HealthsOfStamp(es, e, d.damage.value, now);
      } else {
        HealthsOfDealDamage(es, a.target, d.damage.value.amount);
        HealthsOfStamp(DealDamage(es, a.target, d.damage.value.amount), e, d.damage.value, now);
      }
    }
  }

  /**
   * On a world whose held targets can be located, and for a living attacker, the job and
   * AttackSystem agree: same AttackRange, same Damage, same health table, and the same
   * projectile request.
   */
  lemma JobAgreesWithSystem(es: map<Entity, EntityData>, e: Entity, now: real, normalize: Normalizer)
    requires AttackSystem.TargetsLocatable(es) && Null !in es && e in es && AttackSystem.Attacks(es[e])
    ensures Agree(es, e, now, normalize)
  {
    var t := es[e].attackRange.value.target;
    if !es[e].attackRange.value.hasTarget {
    } else if !Exists(es, t) || es[t].dead {
      AgreeOnDrop(es, e, now, normalize);
    } else {
      AgreeOnLocated(es, e, now, normalize);
    }
  }

  /**
   * A living target without a LocalTransform: the job drops it, where AttackSystem's
   * GetComponent<LocalTransform> has no value to return.
   */
  lemma JobDropsUnplacedTarget(transforms: map<Entity, Transform>, healths: map<Entity, Health>, dead: set<Entity>, currentTime: real,
                               a: AttackRange, d: Damage, u: UnitType, t: Transform, normalize: Normalizer)
    requires a.hasTarget && a.target !in transforms
    ensures var r := Turn(transforms, healths, dead, currentTime, a, d, u, t, normalize);
            !r.attackRange.hasTarget && r.damage == d && r.healths == healths && r.projectile.None?
  {
  }

  class Job {
    const currentTime: real
    var ecb: seq<KeyedOp>
    const transformLookup: map<Entity, Transform>
    var healthLookup: map<Entity, Health>
    const deadTagLookup: set<Entity>

    constructor(currentTime: real, transformLookup: map<Entity, Transform>, healthLookup: map<Entity, Health>, deadTagLookup: set<Entity>)
      ensures this.currentTime == currentTime && this.transformLookup == transformLookup
      ensures this.healthLookup == healthLookup && this.deadTagLookup == deadTagLookup
      ensures ecb == []
    {
      this.currentTime := currentTime;
      this.transformLookup := transformLookup;
      this.healthLookup := healthLookup;
      this.deadTagLookup := deadTagLookup;
      ecb := [];
    }

    /** The `ref attackRange` and `ref damage` parameters come back as results. */
    method Execute(entityInQueryIndex: int, attackRange: AttackRange, damage: Damage, unitType: UnitType, transform: Transform,
                   normalize: Normalizer)
      returns (attackRange': AttackRange, damage': Damage)
      modifies this`ecb, this`healthLookup
      ensures var r := Turn(transformLookup, old(healthLookup), deadTagLookup, currentTime,
                              attackRange, damage, unitType, transform, normalize);
              attackRange' == r.attackRange && damage' == r.damage && healthLookup == r.healths
              && ecb == old(ecb) + Keyed(entityInQueryIndex, r.projectile)
    {
      attackRange', damage' := attackRange, damage;
      if !attackRange'.hasTarget {
        return;
      }
      var target := attackRange'.target;
      if target !in transformLookup || target in deadTagLookup {
        attackRange' := attackRange'.(hasTarget := false);
        return;
      }
      var targetPos := transformLookup[target].position;
      if WithinDistance(transform.position, targetPos, attackRange'.range) {
        if damage'.attackSpeed != 0.0 && currentTime - damage'.lastAttackTime >= 1.0 / damage'.attackSpeed {
          if unitType.kind == Archer {
            CreateProjectile(entityInQueryIndex, transform.position, targetPos, target, damage'.amount, unitType.teamId, normalize);
          } else {
            DealDirectDamage(target, damage'.amount);
          }
          damage' := damage'.(lastAttackTime := currentTime);
        }
      }
    }

    method CreateProjectile(jobIndex: int, startPos: Vec3, targetPos: Vec3, target: Entity, damage: real, teamId: int,
                            normalize: Normalizer)
      modifies this`ecb
      ensures ecb == old(ecb) + [KeyedOp(jobIndex, NewProjectile(startPos, targetPos, target, damage, teamId, normalize))]
    {
      var direction := normalize(Sub(targetPos, startPos));
      var op := Op.CreateProjectile(Transform(startPos, LookAlong(direction), 1.0),
                                 Projectile(ProjectileSpeed, direction, target, damage, ProjectileLifeTime, teamId));
      ecb := ecb + [KeyedOp(jobIndex, op)];
    }

    method DealDirectDamage(target: Entity, damageAmount: real)
      modifies this`healthLookup
      ensures healthLookup == DirectDamage(old(healthLookup), target, damageAmount)
    {
      if target in healthLookup {
        var health := healthLookup[target];
        health := health.(current := if 0.0 > health.current - damageAmount then 0.0 else health.current - damageAmount);
        health := health.(isDead := health.current <= 0.0);
        healthLookup := healthLookup[target := health];
      }
    }
  }
}
