/**
 * CleanupSystem: once the world's elapsed time exceeds 3, every entity with a HealthComponent
 * and a DeadTag is destroyed through the EndSimulation buffer. The delay is measured from the
 * start of the world, not from the entity's death.
 */
module CleanupSystem {
  import opened Components
  import opened Store

  const CleanupDelay: real := 3.0

  /** The query: HealthComponent and DeadTag. */
  predicate Queried(es: map<Entity, EntityData>, e: Entity) {
    e in es && es[e].health.Some? && es[e].dead
  }

  /** The requests one entity's iteration queues. */
  function Turn(es: map<Entity, EntityData>, e: Entity, now: real): seq<Op> {
    if Queried(es, e) && now > CleanupDelay then [Destroy(e)] else []
  }

  function TurnOf(es: map<Entity, EntityData>, now: real): Entity -> seq<Op> {
    (e: Entity) => Turn(es, e, now)
  }

  /** The requests one tick queues, visiting `order`. */
  function Requests(es: map<Entity, EntityData>, order: seq<Entity>, now: real): seq<Op> {
    Gather(order, TurnOf(es, now))
  }

  /**
   * The system only destroys; it destroys an entity exactly when the elapsed time is past 3
   * and the entity is a visited dead entity with Health, however long ago it died.
   */
  lemma DestroysDeadAfterDelay(es: map<Entity, EntityData>, order: seq<Entity>, now: real, x: Entity)
    ensures Destroy(x) in Requests(es, order, now) <==> now > CleanupDelay && x in order && Queried(es, x)
    ensures forall o :: o in Requests(es, order, now) ==> o.Destroy?
  {
    var turn := TurnOf(es, now);
    InGather(order, turn, Destroy(x));
    if now > CleanupDelay && x in order && Queried(es, x) {
      var k :| 0 <= k < |order| && order[k] == x;
      assert Destroy(x) in turn(order[k]);
    }
    forall o | o in Requests(es, order, now)
      ensures o.Destroy?
    {
      InGather(order, turn, o);
    }
  }

  /** Up to elapsed time 3 the system queues nothing at all. */
  lemma NothingBeforeDelay(es: map<Entity, EntityData>, order: seq<Entity>, now: real)
    requires now <= CleanupDelay
    ensures Requests(es, order, now) == []
  {
    var r := Requests(es, order, now);
    if r != [] {
      InGather(order, TurnOf(es, now), r[0]);
      assert false;
    }
  }

  /** Each dead entity is destroyed at most once per tick. */
  lemma DestroyedOnce(es: map<Entity, EntityData>, order: seq<Entity>, now: real, x: Entity)
    requires Distinct(order)
    ensures DestroyCount(Requests(es, order, now), x) <= (if x in order then 1 else 0)
  {
    var turn := TurnOf(es, now);
    forall e
      ensures DestroyCount(turn(e), x) <= (if e == x then 1 else 0)
    {
      if Queried(es, e) && now > CleanupDelay {
        CountsOfOne(Destroy(e), x);
      }
    }
    GatherDestroysOnce(order, turn, x);
  }

  /** The body of the query loop for entity e. */
  method Visit(w: World, e: Entity, now: real)
    modifies w`endOps
    ensures w.endOps == old(w.endOps) + Turn(w.entities, e, now)
  {
    if e in w.entities && w.entities[e].health.Some? && w.entities[e].dead {
      if now > CleanupDelay {
        w.endOps := w.endOps + [Destroy(e)];
      }
    }
  }

  method OnUpdate(w: World, now: real)
    modifies w`endOps
    ensures w.endOps == old(w.endOps) + Requests(w.entities, w.order, now)
  {
    var i := 0;
    while i < |w.order|
      invariant 0 <= i <= |w.order|
      invariant w.endOps == old(w.endOps) + Requests(w.entities, w.order[..i], now)
    {
      Visit(w, w.order[i], now);
      GatherSnoc(w.order, i, TurnOf(w.entities, now));
      AppendAssoc(old(w.endOps), Requests(w.entities, w.order[..i], now), Turn(w.entities, w.order[i], now));
      i := i + 1;
    }
    assert w.order[..i] == w.order;
  }
}
