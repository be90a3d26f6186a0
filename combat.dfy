/**
 * The rules AttackSystem and its parallel twin AttackJob share, and the damage rule that
 * AttackSystem.DealDamage, AttackJob.DealDirectDamage, ProjectileSystem and
 * CollisionDetectionSystem each write out: health drops by the damage, clamped at zero, and
 * IsDead is recomputed from the new value.
 */
module Combat {
  import opened Options
  import opened Geometry
  import opened Components
  import opened Store

  /**
   * `now - lastAttackTime >= 1f / attackSpeed`. In IEEE arithmetic 1/0 is +infinity, which no
   * finite elapsed time reaches, so a unit with AttackSpeed 0 never attacks.
   */
  predicate CooldownReady(now: real, d: Damage) {
    d.attackSpeed != 0.0 && now - d.lastAttackTime >= 1.0 / d.attackSpeed
  }

  /** Once ready, a unit stays ready as time goes on: readiness is monotone in elapsed time. */
  lemma CooldownStaysReady(now: real, later: real, d: Damage)
    requires CooldownReady(now, d) && now <= later
    ensures CooldownReady(later, d)
  {
  }

  const ProjectileSpeed: real := 20.0
  const ProjectileLifeTime: real := 5.0

  /**
   * CreateProjectile: a new entity at the attacker's position, facing the normalized direction
   * to the target, with Speed 20, LifeTime 5, and the target, damage and team of the attacker.
   */
  function NewProjectile(startPos: Vec3, targetPos: Vec3, target: Entity, damage: real, teamId: int, normalize: Normalizer): (r: Op)
    ensures r.CreateProjectile? && r.transform.position == startPos && r.transform.scale == 1.0
    ensures r.projectile.speed == ProjectileSpeed && r.projectile.lifeTime == ProjectileLifeTime
    ensures r.projectile.target == target && r.projectile.damage == damage && r.projectile.teamId == teamId
    ensures r.projectile.direction == normalize(Sub(targetPos, startPos)) && r.transform.rotation == LookAlong(r.projectile.direction)
  {
    var direction := normalize(Sub(targetPos, startPos));
    CreateProjectile(Transform(startPos, LookAlong(direction), 1.0),
                     Projectile(ProjectileSpeed, direction, target, damage, ProjectileLifeTime, teamId))
  }

  function ApplyDamage(h: Health, amount: real): (r: Health)
    ensures r.current >= 0.0 && r.current >= h.current - amount
    ensures r.current == 0.0 || r.current == h.current - amount
    ensures r.isDead <==> r.current == 0.0
    ensures r.max == h.max
  {
    var c := if 0.0 > h.current - amount then 0.0 else h.current - amount;
    h.(current := c, isDead := c <= 0.0)
  }

  /** Two hits of non-negative damage leave the same health as one hit of their sum. */
  lemma TwoHitsAreOneHit(h: Health, a: real, b: real)
    requires a >= 0.0 && b >= 0.0
    ensures ApplyDamage(ApplyDamage(h, a), b) == ApplyDamage(h, a + b)
  {
  }

  /** Non-negative damage never raises health and never clears IsDead once health is spent. */
  lemma DamageIsMonotone(h: Health, amount: real)
    requires amount >= 0.0 && h.current >= 0.0
    ensures ApplyDamage(h, amount).current <= h.current
    ensures h.current == 0.0 ==> ApplyDamage(h, amount).isDead
  {
  }

  /** Only Health may differ. */
  predicate OnlyHealthChanges(es: map<Entity, EntityData>, es': map<Entity, EntityData>) {
    && es'.Keys == es.Keys
    && forall x :: x in es ==> es'[x] == es[x].(health := es'[x].health)
  }

  /** DealDamage: the clamped rule on the target's health, when it has one; nothing else changes. */
  function DealDamage(es: map<Entity, EntityData>, target: Entity, damageAmount: real): (r: map<Entity, EntityData>)
    ensures OnlyHealthChanges(es, r)
    ensures forall x :: x in es && x != target ==> r[x] == es[x]
    ensures target in es && es[target].health.Some? ==> r[target].health == Some(ApplyDamage(es[target].health.value, damageAmount))
    ensures target !in es || es[target].health.None? ==> r == es
  {
    if target in es && es[target].health.Some? then
      es[target := es[target].(health := Some(ApplyDamage(es[target].health.value, damageAmount)))]
    else es
  }

  /**
   * The Hit effect both projectile systems create: a new entity at `position` with identity
   * rotation and scale 1, whose EffectComponent starts now and lasts `duration`.
   */
  function HitEffect(position: Vec3, duration: real, now: real): (r: Op)
    ensures r.CreateEffect? && r.effect.kind == Hit && r.effect.duration == duration && r.effect.startTime == now
    ensures r.transform == Transform(position, Identity, 1.0) && r.effect.position == position
  {
    CreateEffect(Transform(position, Identity, 1.0), Effect(Hit, duration, now, position))
  }
}
