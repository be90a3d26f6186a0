/**
 * HealthSystem: every entity with a HealthComponent and no DeadTag whose IsDead flag is set
 * gets, through the EndSimulation buffer, a DeadTag, a Death effect lasting 2 at its position
 * (when it has a LocalTransform), and the removal of its GroupComponent and SelectedTag.
 * Health itself is only read.
 */
module HealthSystem {
  import opened Options
  import opened Geometry
  import opened Components
  import opened Store

  /** The query: HealthComponent and no DeadTag. */
  predicate Queried(es: map<Entity, EntityData>, e: Entity) {
    e in es && es[e].health.Some? && !es[e].dead
  }

  /** A queried entity whose IsDead is set: it has died since the last tick. */
  predicate Dying(es: map<Entity, EntityData>, e: Entity) {
    Queried(es, e) && es[e].health.value.isDead
  }

  const DeathEffectDuration: real := 2.0

  /** The Death effect CreateDeathEffect requests: at `position`, identity rotation, scale 1, starting now. */
  function DeathEffect(position: Vec3, now: real): Op {
    CreateEffect(Transform(position, Identity, 1.0), Effect(Death, DeathEffectDuration, now, position))
  }

  /** The requests one entity's iteration queues. */
  function Turn(es: map<Entity, EntityData>, e: Entity, now: real): seq<Op> {
    if !Dying(es, e) then []
    else
      [AddDeadTag(e)]
      + (if es[e].transform.Some? then [DeathEffect(PositionOf(es[e]), now)] else [])
      + [RemoveGroup(e), RemoveSelected(e)]
  }

  function TurnOf(es: map<Entity, EntityData>, now: real): Entity -> seq<Op> {
    (e: Entity) => Turn(es, e, now)
  }

  /** The requests one tick queues, visiting `order`. */
  function Requests(es: map<Entity, EntityData>, order: seq<Entity>, now: real): seq<Op> {
    Gather(order, TurnOf(es, now))
  }

  /**
   * One iteration: a living entity queues nothing; a dying one queues its DeadTag and the two
   * removals, and a Death effect exactly when it has a LocalTransform. Nothing is destroyed and
   * no projectile is created.
   */
  lemma TurnCases(es: map<Entity, EntityData>, e: Entity, now: real, x: Entity)
    ensures Turn(es, e, now) == [] <==> !Dying(es, e)
    ensures AddDeadTag(x) in Turn(es, e, now) <==> x == e && Dying(es, e)
    ensures RemoveGroup(x) in Turn(es, e, now) <==> x == e && Dying(es, e)
    ensures RemoveSelected(x) in Turn(es, e, now) <==> x == e && Dying(es, e)
    ensures Dying(es, e) && es[e].transform.Some? ==> DeathEffect(PositionOf(es[e]), now) in Turn(es, e, now)
    ensures forall o :: o in Turn(es, e, now) && o.CreateEffect? ==>
              Dying(es, e) && es[e].transform.Some? && o == DeathEffect(PositionOf(es[e]), now)
    ensures forall o :: o in Turn(es, e, now) ==> !o.Destroy? && !o.CreateProjectile?
  {
    if Dying(es, e) {
      var effect := if es[e].transform.Some? then [DeathEffect(PositionOf(es[e]), now)] else [];
      assert Turn(es, e, now) == [AddDeadTag(e)] + effect + [RemoveGroup(e), RemoveSelected(e)];
      forall o | o in Turn(es, e, now)
        ensures o in [AddDeadTag(e), RemoveGroup(e), RemoveSelected(e)] || o in effect
      {
      }
    }
  }

  /** Exactly the dying entities of the tick get a DeadTag and lose their group and selection. */
  lemma DeathRequests(es: map<Entity, EntityData>, order: seq<Entity>, now: real, x: Entity)
    ensures AddDeadTag(x) in Requests(es, order, now) <==> x in order && Dying(es, x)
    ensures RemoveGroup(x) in Requests(es, order, now) <==> x in order && Dying(es, x)
    ensures RemoveSelected(x) in Requests(es, order, now) <==> x in order && Dying(es, x)
  {
    var turn := TurnOf(es, now);
    forall o | o == AddDeadTag(x) || o == RemoveGroup(x) || o == RemoveSelected(x)
      ensures o in Requests(es, order, now) <==> x in order && Dying(es, x)
    {
      InGather(order, turn, o);
      if o in Requests(es, order, now) {
        var k :| 0 <= k < |order| && o in turn(order[k]);
        TurnCases(es, order[k], now, x);
      }
      if x in order && Dying(es, x) {
        var k :| 0 <= k < |order| && order[k] == x;
        TurnCases(es, x, now, x);
        assert o in turn(order[k]);
      }
    }
  }

  /**
   * Every effect requested is the Death effect of a dying entity of the tick that has a
   * LocalTransform, placed at it; every such entity gets one.
   */
  lemma DeathEffects(es: map<Entity, EntityData>, order: seq<Entity>, now: real)
    ensures forall o :: o in Requests(es, order, now) && o.CreateEffect? ==>
              exists x :: x in order && Dying(es, x) && es[x].transform.Some? && o == DeathEffect(PositionOf(es[x]), now)
    ensures forall x :: x in order && Dying(es, x) && es[x].transform.Some? ==>
              DeathEffect(PositionOf(es[x]), now) in Requests(es, order, now)
  {
    var turn := TurnOf(es, now);
    forall o | o in Requests(es, order, now) && o.CreateEffect?
      ensures exists x :: x in order && Dying(es, x) && es[x].transform.Some? && o == DeathEffect(PositionOf(es[x]), now)
    {
      InGather(order, turn, o);
      var k :| 0 <= k < |order| && o in turn(order[k]);
      TurnCases(es, order[k], now, order[k]);
    }
    forall x | x in order && Dying(es, x) && es[x].transform.Some?
      ensures DeathEffect(PositionOf(es[x]), now) in Requests(es, order, now)
    {
      var k :| 0 <= k < |order| && order[k] == x;
      TurnCases(es, x, now, x);
      InGather(order, turn, DeathEffect(PositionOf(es[x]), now));
    }
  }

  /** The system destroys nothing and creates no projectile. */
  lemma NothingDestroyed(es: map<Entity, EntityData>, order: seq<Entity>, now: real)
    ensures forall o :: o in Requests(es, order, now) ==> !o.Destroy? && !o.CreateProjectile?
  {
    var turn := TurnOf(es, now);
    forall o | o in Requests(es, order, now)
      ensures !o.Destroy? && !o.CreateProjectile?
    {
      InGather(order, turn, o);
      var k :| 0 <= k < |order| && o in turn(order[k]);
      TurnCases(es, order[k], now, order[k]);
    }
  }

  method CreateDeathEffect(w: World, position: Vec3, now: real)
    modifies w`endOps
    ensures w.endOps == old(w.endOps) + [DeathEffect(position, now)]
  {
    w.endOps := w.endOps + [CreateEffect(Transform(position, Identity, 1.0), Effect(Death, DeathEffectDuration, now, position))];
  }

  /** The body of the query loop for entity e. */
  method Visit(w: World, e: Entity, now: real)
    modifies w`endOps
    ensures w.endOps == old(w.endOps) + Turn(w.entities, e, now)
  {
    if e in w.entities && w.entities[e].health.Some? && !w.entities[e].dead {
      var d := w.entities[e];
      if d.health.value.isDead {
        ghost var before := w.endOps;
        w.endOps := w.endOps + [AddDeadTag(e)];
        if d.transform.Some? {
          CreateDeathEffect(w, d.transform.value.position, now);
        }
        w.endOps := w.endOps + [RemoveGroup(e)];
        w.endOps := w.endOps + [RemoveSelected(e)];
        ghost var effect := if d.transform.Some? then [DeathEffect(PositionOf(d), now)] else [];
        assert w.endOps == before + ([AddDeadTag(e)] + effect + [RemoveGroup(e), RemoveSelected(e)]);
      }
    }
  }

  method OnUpdate(w: World, now: real)
    modifies w`endOps
    ensures w.endOps == old(w.endOps) + Requests(w.entities, w.order, now)
  {
    var i := 0;
    while i < |w.order|
      invariant 0 <= i <= |w.order|
      invariant w.endOps == old(w.endOps) + Requests(w.entities, w.order[..i], now)
    {
      Visit(w, w.order[i], now);
      GatherSnoc(w.order, i, TurnOf(w.entities, now));
      AppendAssoc(old(w.endOps), Requests(w.entities, w.order[..i], now), Turn(w.entities, w.order[i], now));
      i := i + 1;
    }
    assert w.order[..i] == w.order;
  }
}
