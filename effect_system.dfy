/**
 * EffectSystem: every entity with an EffectComponent whose time is up (now - StartTime >=
 * Duration) is destroyed through the EndSimulation buffer. Effects are only read.
 */
module EffectSystem {
  import opened Components
  import opened Store

  /** The query (EffectComponent) and the expiry test. */
  predicate Expired(es: map<Entity, EntityData>, e: Entity, now: real) {
    e in es && es[e].effect.Some? && now - es[e].effect.value.startTime >= es[e].effect.value.duration
  }

  /** The requests one entity's iteration queues. */
  function Turn(es: map<Entity, EntityData>, e: Entity, now: real): seq<Op> {
    if Expired(es, e, now) then [Destroy(e)] else []
  }

  function TurnOf(es: map<Entity, EntityData>, now: real): Entity -> seq<Op> {
    (e: Entity) => Turn(es, e, now)
  }

  /** The requests one tick queues, visiting `order`. */
  function Requests(es: map<Entity, EntityData>, order: seq<Entity>, now: real): seq<Op> {
    Gather(order, TurnOf(es, now))
  }

  /** The system only destroys, and destroys an entity exactly when it is a visited, expired effect. */
  lemma DestroysExactlyExpired(es: map<Entity, EntityData>, order: seq<Entity>, now: real, x: Entity)
    ensures Destroy(x) in Requests(es, order, now) <==> x in order && Expired(es, x, now)
    ensures forall o :: o in Requests(es, order, now) ==> o.Destroy?
  {
    var turn := TurnOf(es, now);
    InGather(order, turn, Destroy(x));
    if x in order && Expired(es, x, now) {
      var k :| 0 <= k < |order| && order[k] == x;
      assert Destroy(x) in turn(order[k]);
    }
    forall o | o in Requests(es, order, now)
      ensures o.Destroy?
    {
      InGather(order, turn, o);
    }
  }

  /** Each effect is examined once per tick, so it is destroyed at most once. */
  lemma DestroyedOnce(es: map<Entity, EntityData>, order: seq<Entity>, now: real, x: Entity)
    requires Distinct(order)
    ensures DestroyCount(Requests(es, order, now), x) <= (if x in order then 1 else 0)
  {
    var turn := TurnOf(es, now);
    forall e
      ensures DestroyCount(turn(e), x) <= (if e == x then 1 else 0)
    {
      if Expired(es, e, now) {
        CountsOfOne(Destroy(e), x);
      }
    }
    GatherDestroysOnce(order, turn, x);
  }

  /** The body of the query loop for entity e. */
  method Visit(w: World, e: Entity, now: real)
    modifies w`endOps
    ensures w.endOps == old(w.endOps) + Turn(w.entities, e, now)
  {
    if e in w.entities && w.entities[e].effect.Some? {
      var effect := w.entities[e].effect.value;
      if now - effect.startTime >= effect.duration {
        w.endOps := w.endOps + [Destroy(e)];
      }
    }
  }

  method OnUpdate(w: World, now: real)
    modifies w`endOps
    ensures w.endOps == old(w.endOps) + Requests(w.entities, w.order, now)
  {
    var i := 0;
    while i < |w.order|
      invariant 0 <= i <= |w.order|
      invariant w.endOps == old(w.endOps) + Requests(w.entities, w.order[..i], now)
    {
      Visit(w, w.order[i], now);
      GatherSnoc(w.order, i, TurnOf(w.entities, now));
      AppendAssoc(old(w.endOps), Requests(w.entities, w.order[..i], now), Turn(w.entities, w.order[i], now));
      i := i + 1;
    }
    assert w.order[..i] == w.order;
  }
}
