/**
 * AttackSystem: every living attacker with a target first drops a target that no longer
 * exists or is dead; otherwise, when the target is in range and the cooldown has passed, it
 * attacks once — an archer by queueing a projectile on the BeginSimulation buffer, anyone
 * else by damaging the target's health at once — and stamps its LastAttackTime.
 */
module AttackSystem {
  import opened Options
  import opened Geometry
  import opened Components
  import opened Store
  import opened Combat

  /** The system's query: AttackRange, Damage, UnitType, LocalTransform, no DeadTag. */
  predicate Attacks(d: EntityData) {
    d.attackRange.Some? && d.damage.Some? && d.unitType.Some? && d.transform.Some? && !d.dead
  }

  /** The target an entity's AttackRange holds, when HasTarget is set. */
  predicate Targets(es: map<Entity, EntityData>, x: Entity) {
    x in es && es[x].attackRange.Some? && es[x].attackRange.value.hasTarget
  }

  /**
   * What SystemAPI.GetComponent<LocalTransform>(target) needs: a held target that exists and
   * is not dead has a LocalTransform.
   */
  ghost predicate TargetsLocatable(es: map<Entity, EntityData>) {
    forall x :: Targets(es, x) ==> Locatable(es, TargetOf(es, x))
  }

  function TargetOf(es: map<Entity, EntityData>, x: Entity): Entity
    requires Targets(es, x)
  {
    es[x].attackRange.value.target
  }

  /** An entity that exists and is not dead has a LocalTransform. */
  predicate Locatable(es: map<Entity, EntityData>, t: Entity) {
    Exists(es, t) && !es[t].dead ==> es[t].transform.Some?
  }

  /** What the three per-tick systems write of an entity: Health, Damage and AttackRange. */
  predicate OnlyCombatChanges(es: map<Entity, EntityData>, es': map<Entity, EntityData>) {
    && es'.Keys == es.Keys
    && forall x :: x in es ==> es'[x] == es[x].(health := es'[x].health, damage := es'[x].damage, attackRange := es'[x].attackRange)
  }

  /** Attacks restamp LastAttackTime but never change which units carry Damage or their DamageAmount. */
  predicate SameDamageAmounts(es: map<Entity, EntityData>, es': map<Entity, EntityData>)
    requires es'.Keys == es.Keys
  {
    forall x :: x in es ==> es'[x].damage.Some? == es[x].damage.Some?
                            && (es[x].damage.Some? ==> es'[x].damage.value.amount == es[x].damage.value.amount)
  }

  /**
   * What one attacker's turn may change: Health anywhere, and the attacker's own Damage and
   * AttackRange, where the AttackRange can only lose HasTarget and DamageAmount is kept.
   */
  predicate StepFrame(es: map<Entity, EntityData>, es': map<Entity, EntityData>, e: Entity) {
    && OnlyCombatChanges(es, es')
    && SameDamageAmounts(es, es')
    && (forall x :: x in es && x != e ==> es'[x].damage == es[x].damage && es'[x].attackRange == es[x].attackRange)
    && (e in es && es[e].attackRange.Some? ==>
          es'[e].attackRange == es[e].attackRange || es'[e].attackRange == Some(es[e].attackRange.value.(hasTarget := false)))
    && (e in es && es[e].attackRange.None? ==> es'[e].attackRange.None?)
  }

  /** The lost-target branch: HasTarget := false and nothing else. */
  function DropTarget(es: map<Entity, EntityData>, e: Entity): (r: map<Entity, EntityData>)
    requires e in es && es[e].attackRange.Some?
    ensures StepFrame(es, r, e)
  {
    es[e := es[e].(attackRange := Some(es[e].attackRange.value.(hasTarget := false)))]
  }

  /** Every request is a projectile creation with Speed 20 and LifeTime 5. */
  predicate ProjectilesOnly(ops: seq<Op>) {
    forall k :: 0 <= k < |ops| ==>
      ops[k].CreateProjectile? && ops[k].projectile.speed == ProjectileSpeed && ops[k].projectile.lifeTime == ProjectileLifeTime
  }

  /** The blow itself: the archer's projectile, or the melee hit on the target's health. */
  function Hit(es: map<Entity, EntityData>, e: Entity, targetPos: Vec3, normalize: Normalizer): (r: Tick)
    requires e in es && Attacks(es[e])
    ensures OnlyHealthChanges(es, r.entities)
    ensures |r.ops| <= 1 && ProjectilesOnly(r.ops)
  {
    var d := es[e];
    var damage, unitType, target := d.damage.value, d.unitType.value, d.attackRange.value.target;
    if unitType.kind == Archer then Tick(es, [NewProjectile(PositionOf(d), targetPos, target, damage.amount, unitType.teamId, normalize)])
    else Tick(DealDamage(es, target, damage.amount), [])
  }

  /** SetComponent(entity, new DamageComponent { .., LastAttackTime = now }). */
  function Stamp(es: map<Entity, EntityData>, e: Entity, damage: Damage, now: real): (r: map<Entity, EntityData>)
    requires e in es
  {
    es[e := es[e].(damage := Some(Damage(damage.amount, damage.attackSpeed, now)))]
  }

  lemma StrikeFrame(es: map<Entity, EntityData>, es1: map<Entity, EntityData>, e: Entity, now: real)
    requires e in es && es[e].damage.Some? && OnlyHealthChanges(es, es1)
    ensures StepFrame(es, Stamp(es1, e, es[e].damage.value, now), e)
  {
    var r := Stamp(es1, e, es[e].damage.value, now);
    assert forall x :: x in es && x != e ==> r[x] == es1[x];
  }

  /** The firing branch: the blow, then LastAttackTime := now. */
  function Strike(es: map<Entity, EntityData>, e: Entity, targetPos: Vec3, now: real, normalize: Normalizer): (r: Tick)
    requires e in es && Attacks(es[e])
    ensures StepFrame(es, r.entities, e)
    ensures |r.ops| <= 1 && ProjectilesOnly(r.ops)
  {
    var hit := Hit(es, e, targetPos, normalize);
    StrikeFrame(es, hit.entities, e, now);
    Tick(Stamp(hit.entities, e, es[e].damage.value, now), hit.ops)
  }

  /** One attacker's turn, against the world as the earlier attackers of this tick left it. */
  function AttackStep(es: map<Entity, EntityData>, e: Entity, now: real, normalize: Normalizer): (r: Tick)
    requires TargetsLocatable(es)
    ensures StepFrame(es, r.entities, e)
    ensures |r.ops| <= 1 && ProjectilesOnly(r.ops)
    ensures e !in es || !Attacks(es[e]) || !es[e].attackRange.value.hasTarget ==> r == Tick(es, [])
  {
    if e !in es || !Attacks(es[e]) || !es[e].attackRange.value.hasTarget then Tick(es, [])
    else
      var d := es[e];
      var attackRange, target := d.attackRange.value, d.attackRange.value.target;
      if !Exists(es, target) || es[target].dead then Tick(DropTarget(es, e), [])
      else
        assert Locatable(es, TargetOf(es, e));
        var targetPos := PositionOf(es[target]);
        if !WithinDistance(PositionOf(d), targetPos, attackRange.range) || !CooldownReady(now, d.damage.value) then Tick(es, [])
        else Strike(es, e, targetPos, now, normalize)
  }

  /** The frame of one turn keeps every held target locatable. */
  lemma StepKeepsLocatable(es: map<Entity, EntityData>, es': map<Entity, EntityData>, e: Entity)
    requires TargetsLocatable(es) && StepFrame(es, es', e)
    ensures TargetsLocatable(es')
    ensures forall x :: Targets(es', x) ==> Targets(es, x) && TargetOf(es', x) == TargetOf(es, x)
  {
    forall x | Targets(es', x)
      ensures Targets(es, x) && TargetOf(es', x) == TargetOf(es, x) && Locatable(es', TargetOf(es', x))
    {
      if x != e {
        assert es'[x].attackRange == es[x].attackRange;
      }
      var t := TargetOf(es, x);
      assert Locatable(es, t);
      if Exists(es', t) {
        assert es'[t].dead == es[t].dead && es'[t].transform == es[t].transform;
      }
    }
  }

  /** The attackers of `order`, one after another. */
  function AttackFold(es: map<Entity, EntityData>, order: seq<Entity>, now: real, normalize: Normalizer): (r: Tick)
    requires TargetsLocatable(es)
    ensures TargetsLocatable(r.entities) && r.entities.Keys == es.Keys
    decreases |order|
  {
    if order == [] then Tick(es, [])
    else
      var k := |order| - 1;
      var prefix := AttackFold(es, order[..k], now, normalize);
      var step := AttackStep(prefix.entities, order[k], now, normalize);
      StepKeepsLocatable(prefix.entities, step.entities, order[k]);
      Tick(step.entities, prefix.ops + step.ops)
  }

  /**
   * Across a tick only Health, Damage and AttackRange change, DamageAmount is kept, and an
   * AttackRange still holding a target holds the one it held at the start of the tick.
   */
  lemma {:induction false} AttackFoldFrame(es: map<Entity, EntityData>, order: seq<Entity>, now: real, normalize: Normalizer)
    requires TargetsLocatable(es)
    ensures var r := AttackFold(es, order, now, normalize).entities;
            && OnlyCombatChanges(es, r)
            && SameDamageAmounts(es, r)
            && forall x :: Targets(r, x) ==> Targets(es, x) && TargetOf(r, x) == TargetOf(es, x)
    decreases |order|
  {
    if order != [] {
      var k := |order| - 1;
      AttackFoldFrame(es, order[..k], now, normalize);
      var prefix := AttackFold(es, order[..k], now, normalize).entities;
      var step := AttackStep(prefix, order[k], now, normalize).entities;
      StepKeepsLocatable(prefix, step, order[k]);
    }
  }

  /**
   * The cases of one attacker's turn: an invalid target is dropped with no attack; a target
   * out of range or a cooldown not yet over changes nothing; an attack stamps LastAttackTime
   * with `now`, keeps DamageAmount and AttackSpeed, and either queues exactly one projectile
   * (archer, no health touched) or applies the clamped damage to the target's health (melee,
   * nothing queued).
   */
  lemma AttackStepCases(es: map<Entity, EntityData>, e: Entity, now: real, normalize: Normalizer)
    requires TargetsLocatable(es) && e in es && Attacks(es[e]) && es[e].attackRange.value.hasTarget
    ensures Locatable(es, TargetOf(es, e))
    ensures var d, r := es[e], AttackStep(es, e, now, normalize);
            var a, dmg, target := d.attackRange.value, d.damage.value, d.attackRange.value.target;
            if !Exists(es, target) || es[target].dead then
              r.ops == [] && r.entities == es[e := d.(attackRange := Some(a.(hasTarget := false)))]
            else if !WithinDistance(PositionOf(d), PositionOf(es[target]), a.range) || !CooldownReady(now, dmg) then
              r == Tick(es, [])
            else
              && r.entities[e].damage == Some(dmg.(lastAttackTime := now))
              && r.entities[e].attackRange == d.attackRange
              && (d.unitType.value.kind == Archer ==>
                    && r.ops == [NewProjectile(PositionOf(d), PositionOf(es[target]), target, dmg.amount, d.unitType.value.teamId, normalize)]
                    && forall x :: x in es ==> r.entities[x].health == es[x].health)
              && (d.unitType.value.kind != Archer ==>
                    && r.ops == []
                    && (es[target].health.Some? ==> r.entities[target].health == Some(ApplyDamage(es[target].health.value, dmg.amount)))
                    && forall x :: x in es && x != target ==> r.entities[x].health == es[x].health)
  {
  }

  /** Each attacker attacks at most once per tick: no more requests than attackers visited, all of them projectiles. */
  lemma {:induction false} AttackFoldOpsBound(es: map<Entity, EntityData>, order: seq<Entity>, now: real, normalize: Normalizer)
    requires TargetsLocatable(es)
    ensures |AttackFold(es, order, now, normalize).ops| <= |order|
    ensures ProjectilesOnly(AttackFold(es, order, now, normalize).ops)
    decreases |order|
  {
    if order != [] {
      var k := |order| - 1;
      AttackFoldOpsBound(es, order[..k], now, normalize);
      var prefix := AttackFold(es, order[..k], now, normalize);
      var step := AttackStep(prefix.entities, order[k], now, normalize);
      assert AttackFold(es, order, now, normalize).ops == prefix.ops + step.ops;
    }
  }

  /** Health is never raised by a non-negative blow and never driven below zero. */
  predicate NoHealing(es: map<Entity, EntityData>, es': map<Entity, EntityData>)
    requires es'.Keys == es.Keys
  {
    forall x :: x in es && es[x].health.Some? && es[x].health.value.current >= 0.0 ==>
      es'[x].health.Some? && 0.0 <= es'[x].health.value.current <= es[x].health.value.current
  }

  predicate NonNegativeDamage(es: map<Entity, EntityData>) {
    forall x :: x in es && es[x].damage.Some? ==> es[x].damage.value.amount >= 0.0
  }

  lemma MeleeNeverHeals(es: map<Entity, EntityData>, e: Entity, target: Entity, damage: Damage, now: real)
    requires e in es && damage.amount >= 0.0
    ensures var r := Stamp(DealDamage(es, target, damage.amount), e, damage, now);
            r.Keys == es.Keys && NoHealing(es, r)
  {
    var h := DealDamage(es, target, damage.amount);
    var r := Stamp(h, e, damage, now);
    assert forall x :: x in es ==> r[x].health == h[x].health;
  }

  lemma StepNeverHeals(es: map<Entity, EntityData>, e: Entity, now: real, normalize: Normalizer)
    requires TargetsLocatable(es) && NonNegativeDamage(es)
    ensures NoHealing(es, AttackStep(es, e, now, normalize).entities)
  {
    if e in es && Attacks(es[e]) && es[e].attackRange.value.hasTarget {
      var d := es[e];
      var target := d.attackRange.value.target;
      if Exists(es, target) && !es[target].dead && d.unitType.value.kind != Archer {
        MeleeNeverHeals(es, e, target, d.damage.value, now);
      }
    }
  }

  /** With non-negative damage amounts, an attack tick never raises a non-negative health, nor drives it below zero. */
  lemma {:induction false} AttackNeverHeals(es: map<Entity, EntityData>, order: seq<Entity>, now: real, normalize: Normalizer)
    requires TargetsLocatable(es) && NonNegativeDamage(es)
    ensures NoHealing(es, AttackFold(es, order, now, normalize).entities)
    decreases |order|
  {
    if order != [] {
      var k := |order| - 1;
      AttackNeverHeals(es, order[..k], now, normalize);
      AttackFoldFrame(es, order[..k], now, normalize);
      var prefix := AttackFold(es, order[..k], now, normalize).entities;
      assert NonNegativeDamage(prefix) by {
        forall x | x in prefix && prefix[x].damage.Some?
          ensures prefix[x].damage.value.amount >= 0.0
        {
          assert es[x].damage.Some?;
        }
      }
      StepNeverHeals(prefix, order[k], now, normalize);
    }
  }

  /** SystemAPI.SetComponent(target, health) inside DealDamage. */
  method DealDamageTo(w: World, target: Entity, damageAmount: real)
    requires w.Valid()
    modifies w`entities
    ensures w.Valid()
    ensures w.entities == DealDamage(old(w.entities), target, damageAmount)
  {
    if target in w.entities && w.entities[target].health.Some? {
      var health := w.entities[target].health.value;
      var current := if 0.0 > health.current - damageAmount then 0.0 else health.current - damageAmount;
      health := health.(current := current);
      health := health.(isDead := health.current <= 0.0);
      w.entities := w.entities[target := w.entities[target].(health := Some(health))];
    }
  }

  /** The body of the system's loop for one attacker. */
  method AttackOne(w: World, e: Entity, now: real, normalize: Normalizer)
    requires w.Valid() && TargetsLocatable(w.entities)
    modifies w`entities, w`beginOps
    ensures w.Valid()
    ensures var step := AttackStep(old(w.entities), e, now, normalize);
            w.entities == step.entities && w.beginOps == old(w.beginOps) + step.ops
  {
    if e !in w.entities {
      return;
    }
    var d := w.entities[e];
    if !(d.attackRange.Some? && d.damage.Some? && d.unitType.Some? && d.transform.Some? && !d.dead) {
      return;
    }
    var attackRange, damage, unitType, transform := d.attackRange.value, d.damage.value, d.unitType.value, d.transform.value;
    if !attackRange.hasTarget {
      return;
    }
    var target := attackRange.target;
    if !(target != Null && target in w.entities) || w.entities[target].dead {
      attackRange := attackRange.(hasTarget := false);
      w.entities := w.entities[e := d.(attackRange := Some(attackRange))];
      return;
    }
    assert Locatable(w.entities, TargetOf(w.entities, e));
    var targetPos := w.entities[target].transform.value.position;
    if WithinDistance(transform.position, targetPos, attackRange.range) {
      if damage.attackSpeed != 0.0 && now - damage.lastAttackTime >= 1.0 / damage.attackSpeed {
        StrikeOne(w, e, targetPos, now, normalize);
      }
    }
  }

  /** The firing branch of the loop body. */
  method StrikeOne(w: World, e: Entity, targetPos: Vec3, now: real, normalize: Normalizer)
    requires w.Valid() && e in w.entities && Attacks(w.entities[e])
    modifies w`entities, w`beginOps
    ensures w.Valid()
    ensures var strike := Strike(old(w.entities), e, targetPos, now, normalize);
            w.entities == strike.entities && w.beginOps == old(w.beginOps) + strike.ops
  {
    var d := w.entities[e];
    var damage, unitType, transform, target := d.damage.value, d.unitType.value, d.transform.value, d.attackRange.value.target;
    if unitType.kind == Archer {
      w.beginOps := w.beginOps + [NewProjectile(transform.position, targetPos, target, damage.amount, unitType.teamId, normalize)];
    } else {
      DealDamageTo(w, target, damage.amount);
    }
    w.entities := w.entities[e := w.entities[e].(damage := Some(Damage(damage.amount, damage.attackSpeed, now)))];
  }

  lemma AttackFoldSnoc(es: map<Entity, EntityData>, order: seq<Entity>, i: nat, now: real, normalize: Normalizer)
    requires TargetsLocatable(es) && i < |order|
    ensures var before := AttackFold(es, order[..i], now, normalize);
            var step := AttackStep(before.entities, order[i], now, normalize);
            AttackFold(es, order[..i + 1], now, normalize) == Tick(step.entities, before.ops + step.ops)
  {
    assert order[..i + 1][..i] == order[..i];
  }

  /** One iteration of the system's loop: the attacker at position i of the order takes its turn. */
  method AttackNext(w: World, ghost start: map<Entity, EntityData>, ghost startOps: seq<Op>, i: nat, now: real, normalize: Normalizer)
    requires w.Valid() && TargetsLocatable(start) && i < |w.order|
    requires var t := AttackFold(start, w.order[..i], now, normalize);
             w.entities == t.entities && w.beginOps == startOps + t.ops
    modifies w`entities, w`beginOps
    ensures w.Valid()
    ensures var t := AttackFold(start, w.order[..i + 1], now, normalize);
            w.entities == t.entities && w.beginOps == startOps + t.ops
  {
    ghost var before := AttackFold(start, w.order[..i], now, normalize);
    ghost var step := AttackStep(before.entities, w.order[i], now, normalize);
    AttackFoldSnoc(start, w.order, i, now, normalize);
    AttackOne(w, w.order[i], now, normalize);
    assert w.beginOps == (startOps + before.ops) + step.ops;
    AppendAssoc(startOps, before.ops, step.ops);
  }

  method OnUpdate(w: World, now: real, normalize: Normalizer)
    requires w.Valid() && TargetsLocatable(w.entities)
    modifies w`entities, w`beginOps
    ensures w.Valid()
    ensures var t := AttackFold(old(w.entities), w.order, now, normalize);
            w.entities == t.entities && w.beginOps == old(w.beginOps) + t.ops
  {
    ghost var start, startOps := w.entities, w.beginOps;
    var i := 0;
    while i < |w.order|
      invariant 0 <= i <= |w.order| && w.Valid()
      invariant var t := AttackFold(start, w.order[..i], now, normalize);
                w.entities == t.entities && w.beginOps == startOps + t.ops
    {
      AttackNext(w, start, startOps, i, now, normalize);
      i := i + 1;
    }
    assert w.order[..i] == w.order;
  }
}
