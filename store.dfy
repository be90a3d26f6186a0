/**
 * The entity store (Unity's EntityManager/World) and the deferred entity command buffers.
 *
 * A World holds the entities with their components, the order in which queries visit them,
 * and the two command-buffer logs the systems append to: BeginSimulation (AttackSystem) and
 * EndSimulation (every other system). Playback of those logs is library code and is not
 * modelled: the logs are only ever appended to.
 */
module Store {
  import opened Options
  import opened Geometry
  import opened Components

  /**
   * One deferred request. A CreateEntity followed by AddComponent(LocalTransform) and
   * AddComponent(ProjectileComponent or EffectComponent) on the new entity is one Create entry.
   */
  datatype Op =
    | CreateProjectile(transform: Transform, projectile: Projectile)
    | CreateEffect(transform: Transform, effect: Effect)
    | AddDeadTag(e: Entity)
    | RemoveGroup(e: Entity)
    | RemoveSelected(e: Entity)
    | Destroy(e: Entity)

  predicate Distinct(s: seq<Entity>) {
    forall i, j :: 0 <= i < j < |s| ==> s[i] != s[j]
  }

  /** SystemAPI.Exists / EntityManager.Exists: Entity.Null never exists. */
  predicate Exists(es: map<Entity, EntityData>, e: Entity) {
    e != Null && e in es
  }

  /** Apply one per-entity rule to every entity. */
  function MapValues(es: map<Entity, EntityData>, f: EntityData -> EntityData): (r: map<Entity, EntityData>)
    ensures r.Keys == es.Keys
    ensures forall e :: e in es ==> r[e] == f(es[e])
  {
    map e | e in es :: f(es[e])
  }

  /** The entities a list of requests destroys. */
  function DestroyedBy(ops: seq<Op>): (s: set<Entity>)
    ensures forall e :: e in s <==> exists k :: 0 <= k < |ops| && ops[k] == Destroy(e)
  {
    if ops == [] then {}
    else
      var rest := DestroyedBy(ops[..|ops| - 1]);
      assert forall k :: 0 <= k < |ops| - 1 ==> ops[..|ops| - 1][k] == ops[k];
      if ops[|ops| - 1].Destroy? then rest + {ops[|ops| - 1].e} else rest
  }

  /** How many requests of a list destroy entity e. */
  function DestroyCount(ops: seq<Op>, e: Entity): nat {
    if ops == [] then 0
    else DestroyCount(ops[..|ops| - 1], e) + (if ops[|ops| - 1] == Destroy(e) then 1 else 0)
  }

  /** How many Hit effects a list of requests creates. */
  function HitEffectCount(ops: seq<Op>): nat {
    if ops == [] then 0
    else HitEffectCount(ops[..|ops| - 1])
         + (if ops[|ops| - 1].CreateEffect? && ops[|ops| - 1].effect.kind == Hit then 1 else 0)
  }

  lemma CountsOfOne(o: Op, e: Entity)
    ensures DestroyCount([o], e) == if o == Destroy(e) then 1 else 0
    ensures HitEffectCount([o]) == if o.CreateEffect? && o.effect.kind == Hit then 1 else 0
  {
    assert [o][..0] == [];
  }

  lemma {:induction false} CountsOfConcat(a: seq<Op>, b: seq<Op>, e: Entity)
    ensures DestroyCount(a + b, e) == DestroyCount(a, e) + DestroyCount(b, e)
    ensures HitEffectCount(a + b) == HitEffectCount(a) + HitEffectCount(b)
    decreases |b|
  {
    if b == [] {
      assert a + b == a;
    } else {
      assert (a + b)[..|a + b| - 1] == a + b[..|b| - 1];
      CountsOfConcat(a, b[..|b| - 1], e);
    }
  }

  /**
   * Partway through a loop that rewrites, in visiting order, each entity with f applied to a
   * copy taken before the loop: `cur` is `start` with the entities of `visited` rewritten.
   */
  ghost predicate RewrittenBy(cur: map<Entity, EntityData>, start: map<Entity, EntityData>, visited: seq<Entity>,
                              f: EntityData -> EntityData) {
    && cur.Keys == start.Keys
    && forall e :: e in cur ==> cur[e] == if e in visited then f(start[e]) else start[e]
  }

  /** The loop writes f's result for the next entity. */
  lemma RewriteStep(cur: map<Entity, EntityData>, start: map<Entity, EntityData>, order: seq<Entity>, i: nat,
                    f: EntityData -> EntityData)
    requires i < |order| && order[i] in start
    requires RewrittenBy(cur, start, order[..i], f)
    ensures RewrittenBy(cur[order[i] := f(start[order[i]])], start, order[..i + 1], f)
  {
    assert order[..i + 1] == order[..i] + [order[i]];
  }

  /** The loop skips the next entity, which f leaves as it is. */
  lemma RewriteSkip(cur: map<Entity, EntityData>, start: map<Entity, EntityData>, order: seq<Entity>, i: nat,
                    f: EntityData -> EntityData)
    requires i < |order| && order[i] in start && f(start[order[i]]) == start[order[i]]
    requires RewrittenBy(cur, start, order[..i], f)
    ensures RewrittenBy(cur, start, order[..i + 1], f)
  {
    assert order[..i + 1] == order[..i] + [order[i]];
  }

  /** Once every entity has been visited, f has been applied to all of them. */
  lemma RewriteDone(cur: map<Entity, EntityData>, start: map<Entity, EntityData>, order: seq<Entity>,
                    f: EntityData -> EntityData)
    requires RewrittenBy(cur, start, order, f)
    requires forall e :: e in start ==> e in order
    ensures cur == MapValues(start, f)
  {
  }

  /** A tick's outcome: the entities and the requests queued. */
  datatype Tick = Tick(entities: map<Entity, EntityData>, ops: seq<Op>)

  /** Requests queued across two steps of a loop land in the buffer in order. */
  lemma AppendAssoc(a: seq<Op>, b: seq<Op>, c: seq<Op>)
    ensures (a + b) + c == a + (b + c)
  {
  }

  /**
   * The requests a query loop that only queues requests leaves in the buffer: `turn(e)` for
   * each visited entity, in visiting order.
   */
  function Gather(order: seq<Entity>, turn: Entity -> seq<Op>): seq<Op>
    decreases |order|
  {
    if order == [] then [] else Gather(order[..|order| - 1], turn) + turn(order[|order| - 1])
  }

  lemma GatherSnoc(order: seq<Entity>, i: nat, turn: Entity -> seq<Op>)
    requires i < |order|
    ensures Gather(order[..i + 1], turn) == Gather(order[..i], turn) + turn(order[i])
  {
    assert order[..i + 1][..i] == order[..i];
  }

  /** A request is gathered exactly when some visited entity's turn queues it. */
  lemma {:induction false} InGather(order: seq<Entity>, turn: Entity -> seq<Op>, o: Op)
    ensures o in Gather(order, turn) <==> exists k :: 0 <= k < |order| && o in turn(order[k])
    decreases |order|
  {
    if order != [] {
      var n := |order| - 1;
      InGather(order[..n], turn, o);
      if o in Gather(order, turn) && o !in turn(order[n]) {
        var k :| 0 <= k < n && o in turn(order[..n][k]);
        assert order[..n][k] == order[k];
      }
      if exists k :: 0 <= k < |order| && o in turn(order[k]) {
        var k :| 0 <= k < |order| && o in turn(order[k]);
        if k < n {
          assert order[..n][k] == order[k];
        }
      }
    }
  }

  /**
   * When each turn destroys at most its own entity, once, a loop over distinct entities
   * destroys each entity at most once, and only a visited one.
   */
  lemma {:induction false} GatherDestroysOnce(order: seq<Entity>, turn: Entity -> seq<Op>, x: Entity)
    requires Distinct(order)
    requires forall e :: DestroyCount(turn(e), x) <= (if e == x then 1 else 0)
    ensures DestroyCount(Gather(order, turn), x) <= (if x in order then 1 else 0)
    decreases |order|
  {
    if order != [] {
      var n := |order| - 1;
      assert Distinct(order[..n]);
      GatherDestroysOnce(order[..n], turn, x);
      CountsOfConcat(Gather(order[..n], turn), turn(order[n]), x);
      assert DestroyCount(turn(order[n]), x) <= (if order[n] == x then 1 else 0);
      if x in order[..n] {
        var j :| 0 <= j < n && order[..n][j] == x;
        assert order[j] == x && order[n] != x;
      }
    }
  }

  class World {
    var entities: map<Entity, EntityData>
    /** The order in which queries visit the entities (Unity's chunk order). */
    var order: seq<Entity>
    var nextId: nat
    /** BeginSimulationEntityCommandBufferSystem's buffer. */
    var beginOps: seq<Op>
    /** EndSimulationEntityCommandBufferSystem's buffer. */
    var endOps: seq<Op>

    /** Every entity is visited exactly once by a query, Null is never an entity, ids are fresh below nextId. */
    ghost predicate Valid()
      reads this
    {
      && Null !in entities
      && 0 < nextId
      && (forall e :: e in entities ==> e < nextId)
      && (forall e :: e in entities <==> e in order)
      && Distinct(order)
    }

    constructor ()
      ensures Valid()
      ensures entities == map[] && order == [] && beginOps == [] && endOps == []
    {
      entities := map[];
      order := [];
      nextId := 1;
      beginOps := [];
      endOps := [];
    }

    /** EntityManager.CreateEntity with its components set at once. */
    method CreateEntity(d: EntityData) returns (e: Entity)
      requires Valid()
      modifies this`entities, this`order, this`nextId
      ensures Valid()
      ensures e == old(nextId) && e != Null && e !in old(entities)
      ensures entities == old(entities)[e := d] && order == old(order) + [e]
    {
      e := nextId;
      entities := entities[e := d];
      order := order + [e];
      nextId := nextId + 1;
    }

    /** EntityManager.SetComponentData / AddComponent / RemoveComponent on an existing entity, applied at once. */
    method Set(e: Entity, d: EntityData)
      requires Valid() && e in entities
      modifies this`entities
      ensures Valid()
      ensures entities == old(entities)[e := d]
    {
      entities := entities[e := d];
    }

    /** EntityManager.DestroyEntity on every entity. */
    method DestroyAll()
      requires Valid()
      modifies this`entities, this`order
      ensures Valid()
      ensures entities == map[] && order == []
    {
      entities := map[];
      order := [];
    }
  }
}
