/**
 * AIBehaviorSystem: every living non-player unit with AI re-targets at most once per search
 * interval. A search picks the nearest living unit of another team within detection range
 * (first found wins ties), targets it, and sends the unit towards it when it is out of attack
 * range. The search time is updated whether or not an enemy was found.
 */
module AIBehaviorSystem {
  import opened Options
  import opened Geometry
  import opened Components
  import opened Store
  import opened Nearest

  /** FindClosestEnemy's query (LocalTransform, UnitType, no DeadTag) and its two filters. */
  predicate IsEnemyInRange(es: map<Entity, EntityData>, e: Entity, position: Vec3, detectionRange: real, teamId: int) {
    && Exists(es, e)
    && es[e].transform.Some? && es[e].unitType.Some? && !es[e].dead
    && es[e].unitType.value.teamId != teamId
    && WithinDistance(position, PositionOf(es[e]), detectionRange)
  }

  /** Squared distance from `position` to entity e (0 for an entity the scan never looks at). */
  function DistanceTo(es: map<Entity, EntityData>, e: Entity, position: Vec3): real {
    if e in es && es[e].transform.Some? then DistSq(position, PositionOf(es[e])) else 0.0
  }

  function EnemyFlags(es: map<Entity, EntityData>, order: seq<Entity>, position: Vec3, detectionRange: real, teamId: int): (r: seq<bool>)
    ensures |r| == |order|
    ensures forall k :: 0 <= k < |order| ==> r[k] == IsEnemyInRange(es, order[k], position, detectionRange, teamId)
  {
    seq(|order|, k requires 0 <= k < |order| => IsEnemyInRange(es, order[k], position, detectionRange, teamId))
  }

  function Distances(es: map<Entity, EntityData>, order: seq<Entity>, position: Vec3): (r: seq<real>)
    ensures |r| == |order|
    ensures forall k :: 0 <= k < |order| ==> r[k] == DistanceTo(es, order[k], position)
  {
    seq(|order|, k requires 0 <= k < |order| => DistanceTo(es, order[k], position))
  }

  /** The entity FindClosestEnemy returns: the scan's pick, or Entity.Null. */
  function ClosestEnemy(es: map<Entity, EntityData>, order: seq<Entity>, position: Vec3, detectionRange: real, teamId: int): Entity {
    match FirstNearest(EnemyFlags(es, order, position, detectionRange, teamId), Distances(es, order, position))
    case None => Null
    case Some(k) => order[k]
  }

  /**
   * The closest enemy is a living unit of another team within detection range, no candidate is
   * nearer, every candidate visited before it is strictly farther, and Null is returned exactly
   * when there is no candidate.
   */
  lemma ClosestEnemyIsClosest(es: map<Entity, EntityData>, order: seq<Entity>, position: Vec3, detectionRange: real, teamId: int)
    ensures var r := ClosestEnemy(es, order, position, detectionRange, teamId);
            && (r == Null <==> forall k :: 0 <= k < |order| ==> !IsEnemyInRange(es, order[k], position, detectionRange, teamId))
            && (r != Null ==>
                  && IsEnemyInRange(es, r, position, detectionRange, teamId)
                  && (forall k :: 0 <= k < |order| && IsEnemyInRange(es, order[k], position, detectionRange, teamId) ==>
                        DistanceTo(es, r, position) <= DistanceTo(es, order[k], position))
                  && (exists j :: 0 <= j < |order| && order[j] == r &&
                        forall k :: 0 <= k < j && IsEnemyInRange(es, order[k], position, detectionRange, teamId) ==>
                          DistanceTo(es, r, position) < DistanceTo(es, order[k], position)))
  {
    var flags, dists := EnemyFlags(es, order, position, detectionRange, teamId), Distances(es, order, position);
    FirstNearestIsNearest(flags, dists);
  }

  /** What FindClosestEnemy reads of each entity: LocalTransform, UnitType and DeadTag. */
  predicate SameSightings(a: map<Entity, EntityData>, b: map<Entity, EntityData>) {
    && a.Keys == b.Keys
    && forall e :: e in a ==> a[e].transform == b[e].transform && a[e].unitType == b[e].unitType && a[e].dead == b[e].dead
  }

  lemma ClosestEnemyFrame(a: map<Entity, EntityData>, b: map<Entity, EntityData>, order: seq<Entity>, position: Vec3, detectionRange: real, teamId: int)
    requires SameSightings(a, b)
    ensures ClosestEnemy(a, order, position, detectionRange, teamId) == ClosestEnemy(b, order, position, detectionRange, teamId)
  {
    assert EnemyFlags(a, order, position, detectionRange, teamId) == EnemyFlags(b, order, position, detectionRange, teamId);
    assert Distances(a, order, position) == Distances(b, order, position);
  }

  method FindClosestEnemy(es: map<Entity, EntityData>, order: seq<Entity>, position: Vec3, detectionRange: real, teamId: int)
    returns (closestEnemy: Entity)
    requires forall k :: 0 <= k < |order| ==> Exists(es, order[k])
    ensures closestEnemy == ClosestEnemy(es, order, position, detectionRange, teamId)
  {
    ghost var flags, dists := EnemyFlags(es, order, position, detectionRange, teamId), Distances(es, order, position);
    ghost var best: Option<nat> := None;
    closestEnemy := Null;
    var closestDistance: Option<real> := None;  // float.MaxValue
    for i := 0 to |order|
      invariant best == FirstNearest(flags[..i], dists[..i])
      invariant best.None? ==> closestEnemy == Null && closestDistance.None?
      invariant best.Some? ==> best.value < i && closestEnemy == order[best.value] && closestDistance == Some(dists[best.value])
    {
      assert flags[..i + 1][..i] == flags[..i] && dists[..i + 1][..i] == dists[..i];
      var entity := order[i];
      var d := es[entity];
      if d.transform.Some? && d.unitType.Some? && !d.dead {
        if d.unitType.value.teamId == teamId {
          continue;
        }
        var distance := DistSq(position, d.transform.value.position);
        if WithinDistance(position, d.transform.value.position, detectionRange)
           && (closestDistance.None? || distance < closestDistance.value) {
          closestDistance := Some(distance);
          closestEnemy := entity;
          best := Some(i);
        }
      }
    }
    assert flags[..|order|] == flags && dists[..|order|] == dists;
  }

  /** The system's query: AI, UnitType, LocalTransform, Movement, AttackRange; no DeadTag, no PlayerUnitTag. */
  predicate Updated(d: EntityData) {
    d.ai.Some? && d.unitType.Some? && d.transform.Some? && d.movement.Some? && d.attackRange.Some? && !d.dead && !d.player
  }

  /** The throttle: a search runs only when strictly more than the interval has passed. */
  predicate SearchDue(ai: AI, now: real) {
    now - ai.lastTargetSearchTime > ai.targetSearchInterval
  }

  /**
   * One unit's update, given the world `es` as the search sees it. Only AI, AttackRange and
   * Movement may change.
   */
  function Think(es: map<Entity, EntityData>, order: seq<Entity>, now: real, d: EntityData): (r: EntityData)
    ensures r == d.(ai := r.ai, attackRange := r.attackRange, movement := r.movement)
    ensures r.ai.Some? == d.ai.Some? && r.attackRange.Some? == d.attackRange.Some? && r.movement.Some? == d.movement.Some?
    ensures !Updated(d) || !SearchDue(d.ai.value, now) ==> r == d
  {
    if !Updated(d) || !SearchDue(d.ai.value, now) then d
    else
      var ai, position := d.ai.value, PositionOf(d);
      var enemy := ClosestEnemy(es, order, position, ai.detectionRange, d.unitType.value.teamId);
      var d' :=
        if enemy == Null then d
        else
          var a := d.attackRange.value.(target := enemy, hasTarget := true);
          var m :=
            if enemy in es && es[enemy].transform.Some? && !WithinDistance(position, PositionOf(es[enemy]), a.range)
            then d.movement.value.(destination := PositionOf(es[enemy]), hasDestination := true)
            else d.movement.value;
          d.(attackRange := Some(a), movement := Some(m));
      d'.(ai := Some(ai.(lastTargetSearchTime := now)))
  }

  /**
   * A due search stamps the search time; without a find it leaves AttackRange and Movement as
   * they were (an old target is kept); with one it targets a living enemy of another team in
   * detection range, and moves towards it exactly when it is out of attack range.
   */
  lemma ThinkSearch(es: map<Entity, EntityData>, order: seq<Entity>, now: real, d: EntityData)
    requires Updated(d) && SearchDue(d.ai.value, now)
    ensures var r, ai := Think(es, order, now, d), d.ai.value;
            var position, teamId := PositionOf(d), d.unitType.value.teamId;
            var enemy := ClosestEnemy(es, order, position, ai.detectionRange, teamId);
            && r.ai == Some(ai.(lastTargetSearchTime := now))
            && (enemy == Null ==> r.attackRange == d.attackRange && r.movement == d.movement)
            && (enemy != Null ==>
                  && IsEnemyInRange(es, enemy, position, ai.detectionRange, teamId)
                  && es[enemy].unitType.value.teamId != teamId
                  && r.attackRange == Some(d.attackRange.value.(target := enemy, hasTarget := true))
                  && (if WithinDistance(position, PositionOf(es[enemy]), d.attackRange.value.range)
                      then r.movement == d.movement
                      else r.movement == Some(d.movement.value.(destination := PositionOf(es[enemy]), hasDestination := true))))
  {
    ClosestEnemyIsClosest(es, order, PositionOf(d), d.ai.value.detectionRange, d.unitType.value.teamId);
  }

  /** The whole system: every unit thinks against the world as it was at the start of the pass. */
  function ThinkAll(es: map<Entity, EntityData>, order: seq<Entity>, now: real): map<Entity, EntityData> {
    MapValues(es, d => Think(es, order, now, d))
  }

  /** Think depends on the rest of the world only through what FindClosestEnemy reads. */
  lemma ThinkFrame(a: map<Entity, EntityData>, b: map<Entity, EntityData>, order: seq<Entity>, now: real, d: EntityData)
    requires SameSightings(a, b)
    ensures Think(a, order, now, d) == Think(b, order, now, d)
  {
    if Updated(d) && SearchDue(d.ai.value, now) {
      ClosestEnemyFrame(a, b, order, PositionOf(d), d.ai.value.detectionRange, d.unitType.value.teamId);
    }
  }

  /** The body of the system's loop for one unit. */
  method UpdateUnit(es: map<Entity, EntityData>, order: seq<Entity>, now: real, d: EntityData) returns (next: EntityData)
    requires forall k :: 0 <= k < |order| ==> Exists(es, order[k])
    ensures next == Think(es, order, now, d)
  {
    next := d;
    if d.ai.Some? && d.unitType.Some? && d.transform.Some? && d.movement.Some? && d.attackRange.Some? && !d.dead && !d.player {
      var ai := d.ai.value;
      var attackRange := d.attackRange.value;
      var movement := d.movement.value;
      var position := d.transform.value.position;
      if now - ai.lastTargetSearchTime > ai.targetSearchInterval {
        var closestEnemy := FindClosestEnemy(es, order, position, ai.detectionRange, d.unitType.value.teamId);
        if closestEnemy != Null {
          attackRange := attackRange.(target := closestEnemy, hasTarget := true);
          if closestEnemy in es && es[closestEnemy].transform.Some? {
            var targetPos := es[closestEnemy].transform.value.position;
            if !WithinDistance(position, targetPos, attackRange.range) {
              movement := movement.(destination := targetPos, hasDestination := true);
            }
          }
        }
        ai := ai.(lastTargetSearchTime := now);
        next := d.(ai := Some(ai), attackRange := Some(attackRange), movement := Some(movement));
      }
    }
  }

  method OnUpdate(w: World, now: real)
    requires w.Valid()
    modifies w`entities
    ensures w.Valid()
    ensures w.entities == ThinkAll(old(w.entities), w.order, now)
  {
    ghost var start := w.entities;
    var i := 0;
    while i < |w.order|
      invariant 0 <= i <= |w.order|
      invariant w.entities.Keys == start.Keys
      invariant forall e :: e in w.entities ==>
                  w.entities[e] == if e in w.order[..i] then Think(start, w.order, now, start[e]) else start[e]
      invariant SameSightings(w.entities, start)
    {
      var e := w.order[i];
      var next := UpdateUnit(w.entities, w.order, now, w.entities[e]);
      ThinkFrame(w.entities, start, w.order, now, start[e]);
      w.entities := w.entities[e := next];
      i := i + 1;
    }
    assert w.order[..i] == w.order;
  }
}
