/**
 * RTSGameManager: the stats table and the construction of a unit entity, one component at a
 * time, for a team. The random unit kinds and spawn offsets are parameters.
 */
module RTSGameManager {
  import opened Options
  import opened Geometry
  import opened Components
  import opened Store
  import CommandSystem
  import AIBehaviorSystem

  /** The tuple GetUnitStats returns. */
  datatype UnitStats = UnitStats(health: real, damage: real, speed: real, range: real, attackSpeed: real)

  /** The stats table; a value outside the declared kinds falls to the Infantry row. */
  function GetUnitStats(kind: UnitKind): (r: UnitStats)
    ensures r.health > 0.0 && r.damage > 0.0 && r.speed > 0.0 && r.range > 0.0 && r.attackSpeed > 0.0
  {
    match kind
    case Infantry => UnitStats(100.0, 25.0, 3.0, 2.0, 1.0)
    case Cavalry => UnitStats(150.0, 35.0, 6.0, 2.5, 0.8)
    case Archer => UnitStats(80.0, 30.0, 2.5, 8.0, 1.2)
    case Dinosaur => UnitStats(300.0, 50.0, 4.0, 3.0, 0.6)
    case Undeclared(_) => UnitStats(100.0, 25.0, 3.0, 2.0, 1.0)
  }

  /** The default arm: a kind outside the declared four gets the Infantry stats. */
  lemma UndeclaredKindIsInfantry(kind: UnitKind)
    requires kind.Undeclared?
    ensures GetUnitStats(kind) == GetUnitStats(Infantry)
  {
  }

  /** The kinds that get a PathfindingComponent and a waypoint buffer. */
  predicate NeedsPathfinding(kind: UnitKind) {
    kind == Cavalry || kind == Dinosaur
  }

  const StoppingDistance: real := 1.5
  /** AIComponent.DetectionRange exceeds the attack range by this much. */
  const DetectionMargin: real := 5.0
  const SearchInterval: real := 1.0
  const InitialPlayerUnits: nat := 10
  const InitialEnemyUnits: nat := 15

  /** The entity SpawnUnit leaves behind. */
  function NewUnit(kind: UnitKind, position: Vec3, teamId: int, isPlayer: bool): EntityData {
    var s := GetUnitStats(kind);
    Empty.(
      transform := Some(Transform(position, Identity, 1.0)),
      health := Some(Health(s.health, s.health, false)),
      damage := Some(Damage(s.damage, s.attackSpeed, 0.0)),
      movement := Some(Movement(s.speed, position, false, StoppingDistance)),
      attackRange := Some(AttackRange(s.range, Null, false)),
      unitType := Some(UnitType(kind, teamId)),
      ai := if isPlayer then None else Some(AI(Aggressive, s.range + DetectionMargin, 0.0, SearchInterval)),
      player := isPlayer,
      group := Some(Group(teamId, false)),
      pathfinding := if NeedsPathfinding(kind) then Some(Pathfinding(false, 0, position)) else None,
      waypoints := if NeedsPathfinding(kind) then Some([]) else None,
      command := if isPlayer then Some(Command(Stop, position, Null, 0.0)) else None,
      commandEnabled := isPlayer)
  }

  /**
   * A new unit stands at its spawn point with full health and the stats of its kind, alive,
   * unselected, in the group numbered like its team, with no target and no destination; it has
   * Pathfinding (aimed at the spawn point, no waypoints) exactly when it is Cavalry or Dinosaur.
   */
  lemma NewUnitIsFresh(kind: UnitKind, position: Vec3, teamId: int, isPlayer: bool)
    ensures var d, s := NewUnit(kind, position, teamId, isPlayer), GetUnitStats(kind);
            && d.transform.Some? && PositionOf(d) == position
            && d.health == Some(Health(s.health, s.health, false)) && !d.dead
            && d.unitType == Some(UnitType(kind, teamId))
            && d.group == Some(Group(teamId, false)) && !d.selected
            && d.movement.Some? && !d.movement.value.hasDestination && d.movement.value.speed == s.speed
            && d.attackRange.Some? && !d.attackRange.value.hasTarget && d.attackRange.value.range == s.range
            && (d.pathfinding.Some? <==> kind == Cavalry || kind == Dinosaur)
            && (d.pathfinding.Some? ==>
                  d.pathfinding.value == Pathfinding(false, 0, position) && d.waypoints == Some([]))
            && d.projectile.None? && d.effect.None?
  {
  }

  /**
   * A player unit carries PlayerUnitTag and no AI, and its enabled Stop command is what
   * CommandSystem applies on the next tick: the unit keeps its place and has no target.
   */
  lemma PlayerUnitStartsStopped(kind: UnitKind, position: Vec3, teamId: int)
    ensures var d := NewUnit(kind, position, teamId, true);
            && d.player && d.ai.None?
            && CommandSystem.Processed(d)
            && d.command.value.kind == Stop && d.command.value.targetPosition == position
            && var r := CommandSystem.Resolve(d);
               !r.commandEnabled && !r.movement.value.hasDestination && !r.attackRange.value.hasTarget
               && r.movement.value.destination == position
  {
    var d := NewUnit(kind, position, teamId, true);
    CommandSystem.ResolveByKind(d);
  }

  /**
   * A non-player unit has an Aggressive AI whose detection range is its attack range plus 5
   * and whose search interval is 1, has no Command, and is one AIBehaviorSystem updates.
   */
  lemma EnemyUnitHunts(kind: UnitKind, position: Vec3, teamId: int)
    ensures var d := NewUnit(kind, position, teamId, false);
            && !d.player && d.command.None? && !d.commandEnabled
            && d.ai == Some(AI(Aggressive, GetUnitStats(kind).range + DetectionMargin, 0.0, SearchInterval))
            && AIBehaviorSystem.Updated(d)
            && !CommandSystem.Processed(d)
  {
  }

  /**
   * SpawnUnit: create the entity, then add its components one by one. The components are
   * gathered first and the entity is created with them, since nothing can observe the entity
   * between those calls.
   */
  method SpawnUnit(w: World, kind: UnitKind, position: Vec3, teamId: int, isPlayer: bool) returns (unit: Entity)
    requires w.Valid()
    modifies w`entities, w`order, w`nextId
    ensures w.Valid()
    ensures unit == old(w.nextId) && unit != Null && unit !in old(w.entities)
    ensures w.entities == old(w.entities)[unit := NewUnit(kind, position, teamId, isPlayer)]
    ensures w.order == old(w.order) + [unit]
  {
    var d := Empty;
    d := d.(transform := Some(Transform(position, Identity, 1.0)));
    var stats := GetUnitStats(kind);
    d := d.(health := Some(Health(stats.health, stats.health, false)));
    d := d.(damage := Some(Damage(stats.damage, stats.attackSpeed, 0.0)));
    d := d.(movement := Some(Movement(stats.speed, position, false, 1.5)));
    d := d.(attackRange := Some(AttackRange(stats.range, Null, false)));
    d := d.(unitType := Some(UnitType(kind, teamId)));
    if !isPlayer {
      d := d.(ai := Some(AI(Aggressive, stats.range + 5.0, 0.0, 1.0)));
    } else {
      d := d.(player := true);
    }
    d := d.(group := Some(Group(teamId, false)));
    if kind == Cavalry || kind == Dinosaur {
      d := d.(pathfinding := Some(Pathfinding(false, 0, position)));
      d := d.(waypoints := Some([]));
    }
    if isPlayer {
      // AddComponentData leaves an enableable component enabled.
      d := d.(command := Some(Command(Stop, position, Null, 0.0)), commandEnabled := true);
    }
    unit := w.CreateEntity(d);
  }

  /** The number of iterations of `for (int i = 0; i < unitCount; i++)`. */
  function Iterations(unitCount: int): nat {
    if unitCount < 0 then 0 else unitCount
  }

  /**
   * SpawnUnitsForTeam: exactly unitCount new units (none when unitCount is not positive), the
   * k-th of the kind drawn k-th at the centre plus the k-th drawn offset; older entities are
   * untouched.
   */
  method SpawnUnitsForTeam(w: World, teamId: int, centerPosition: Vec3, unitCount: int, isPlayer: bool,
                           kinds: seq<UnitKind>, offsets: seq<Vec3>)
    requires w.Valid()
    requires |kinds| == |offsets| == Iterations(unitCount)
    modifies w`entities, w`order, w`nextId
    ensures w.Valid()
    ensures |w.order| == |old(w.order)| + Iterations(unitCount)
    ensures w.order[..|old(w.order)|] == old(w.order)
    ensures forall e :: e in old(w.entities) ==> e in w.entities && w.entities[e] == old(w.entities)[e]
    ensures forall k :: 0 <= k < Iterations(unitCount) ==>
              var e := w.order[|old(w.order)| + k];
              e !in old(w.entities) && e in w.entities
              && w.entities[e] == NewUnit(kinds[k], Add(centerPosition, offsets[k]), teamId, isPlayer)
  {
    var i := 0;
    while i < unitCount
      invariant 0 <= i <= Iterations(unitCount)
      invariant w.Valid()
      invariant |w.order| == |old(w.order)| + i
      invariant w.order[..|old(w.order)|] == old(w.order)
      invariant forall e :: e in old(w.entities) ==> e in w.entities && w.entities[e] == old(w.entities)[e]
      invariant forall k :: 0 <= k < i ==>
                  var e := w.order[|old(w.order)| + k];
                  e !in old(w.entities) && e in w.entities
                  && w.entities[e] == NewUnit(kinds[k], Add(centerPosition, offsets[k]), teamId, isPlayer)
    {
      var unitType := kinds[i];
      var spawnPos := Add(centerPosition, offsets[i]);
      var unit := SpawnUnit(w, unitType, spawnPos, teamId, isPlayer);
      assert w.order[|old(w.order)| + i] == unit;
      i := i + 1;
    }
  }

  /** SpawnInitialUnits: the player's units at one point, then the enemy's at another. */
  method SpawnInitialUnits(w: World, playerSpawnPoint: Vec3, enemySpawnPoint: Vec3,
                           playerKinds: seq<UnitKind>, playerOffsets: seq<Vec3>,
                           enemyKinds: seq<UnitKind>, enemyOffsets: seq<Vec3>)
    requires w.Valid()
    requires |playerKinds| == |playerOffsets| == InitialPlayerUnits
    requires |enemyKinds| == |enemyOffsets| == InitialEnemyUnits
    modifies w`entities, w`order, w`nextId
    ensures w.Valid()
    ensures |w.order| == |old(w.order)| + InitialPlayerUnits + InitialEnemyUnits
    ensures w.order[..|old(w.order)|] == old(w.order)
    ensures forall e :: e in old(w.entities) ==> e in w.entities && w.entities[e] == old(w.entities)[e]
    ensures forall k :: 0 <= k < InitialPlayerUnits ==>
              var e := w.order[|old(w.order)| + k];
              e in w.entities
              && w.entities[e] == NewUnit(playerKinds[k], Add(playerSpawnPoint, playerOffsets[k]), PlayerTeam, true)
    ensures forall k :: 0 <= k < InitialEnemyUnits ==>
              var e := w.order[|old(w.order)| + InitialPlayerUnits + k];
              e in w.entities
              && w.entities[e] == NewUnit(enemyKinds[k], Add(enemySpawnPoint, enemyOffsets[k]), EnemyTeam, false)
  {
    SpawnUnitsForTeam(w, 0, playerSpawnPoint, InitialPlayerUnits, true, playerKinds, playerOffsets);
    SpawnUnitsForTeam(w, 1, enemySpawnPoint, InitialEnemyUnits, false, enemyKinds, enemyOffsets);
  }

  /** SpawnPlayerUnit: a team-0 player unit. */
  method SpawnPlayerUnit(w: World, kind: UnitKind, position: Vec3) returns (unit: Entity)
    requires w.Valid()
    modifies w`entities, w`order, w`nextId
    ensures w.Valid()
    ensures unit !in old(w.entities) && w.order == old(w.order) + [unit]
    ensures w.entities == old(w.entities)[unit := NewUnit(kind, position, PlayerTeam, true)]
  {
    unit := SpawnUnit(w, kind, position, 0, true);
  }

  /** SpawnEnemyUnit: a team-1 AI unit. */
  method SpawnEnemyUnit(w: World, kind: UnitKind, position: Vec3) returns (unit: Entity)
    requires w.Valid()
    modifies w`entities, w`order, w`nextId
    ensures w.Valid()
    ensures unit !in old(w.entities) && w.order == old(w.order) + [unit]
    ensures w.entities == old(w.entities)[unit := NewUnit(kind, position, EnemyTeam, false)]
  {
    unit := SpawnUnit(w, kind, position, 1, false);
  }
}
