/**
 * UnitSpawnerSystem: spawning from prebuilt archetypes. An archetype is the set of component
 * types a new entity starts with, each holding its zero value; SpawnUnitOptimized then
 * overwrites them with SetComponentData, which throws when the component is not there.
 */
module UnitSpawnerSystem {
  import opened Options
  import opened Geometry
  import opened Components
  import opened Store
  import opened RTSGameManager
  import AIBehaviorSystem

  datatype ComponentType =
    | LocalTransform | HealthComponent | DamageComponent | MovementComponent | AttackRangeComponent
    | UnitTypeComponent | GroupComponent | PathfindingComponent | AIComponent | CommandComponent

  type Archetype = set<ComponentType>

  /** What every archetype holds. */
  const UnitComponents: Archetype :=
    {LocalTransform, HealthComponent, DamageComponent, MovementComponent, AttackRangeComponent, UnitTypeComponent, GroupComponent}

  const InfantryArchetype: Archetype := UnitComponents
  const CavalryArchetype: Archetype := UnitComponents + {PathfindingComponent}
  const ArcherArchetype: Archetype := UnitComponents
  const DinosaurArchetype: Archetype := UnitComponents + {PathfindingComponent}

  function GetArchetypeForUnitType(kind: UnitKind): Archetype {
    match kind
    case Infantry => InfantryArchetype
    case Cavalry => CavalryArchetype
    case Archer => ArcherArchetype
    case Dinosaur => DinosaurArchetype
    case Undeclared(_) => InfantryArchetype
  }

  /**
   * Every archetype holds the seven unit components; Pathfinding exactly for Cavalry and
   * Dinosaur; AIComponent and CommandComponent never; an undeclared kind gets Infantry's.
   */
  lemma ArchetypeContents(kind: UnitKind)
    ensures UnitComponents <= GetArchetypeForUnitType(kind)
    ensures PathfindingComponent in GetArchetypeForUnitType(kind) <==> NeedsPathfinding(kind)
    ensures AIComponent !in GetArchetypeForUnitType(kind) && CommandComponent !in GetArchetypeForUnitType(kind)
    ensures kind.Undeclared? ==> GetArchetypeForUnitType(kind) == GetArchetypeForUnitType(Infantry)
  {
  }

  /** This system's copy of the stats table. */
  function GetUnitStats(kind: UnitKind): UnitStats {
    match kind
    case Infantry => UnitStats(100.0, 25.0, 3.0, 2.0, 1.0)
    case Cavalry => UnitStats(150.0, 35.0, 6.0, 2.5, 0.8)
    case Archer => UnitStats(80.0, 30.0, 2.5, 8.0, 1.2)
    case Dinosaur => UnitStats(300.0, 50.0, 4.0, 3.0, 0.6)
    case Undeclared(_) => UnitStats(100.0, 25.0, 3.0, 2.0, 1.0)
  }

  /** The table is RTSGameManager's, row for row, default row included. */
  lemma SameStatsTable(kind: UnitKind)
    ensures GetUnitStats(kind) == RTSGameManager.GetUnitStats(kind)
  {
  }

  /**
   * EntityManager.CreateEntity(archetype): each component of the archetype holds its zero
   * value (enum fields hold their first name). A zeroed rotation is not a unit quaternion; it
   * is shown as Identity, and SpawnUnitOptimized overwrites it in every case.
   */
  function Instantiate(archetype: Archetype): EntityData {
    Empty.(
      transform := if LocalTransform in archetype then Some(Transform(Zero, Identity, 0.0)) else None,
      health := if HealthComponent in archetype then Some(Health(0.0, 0.0, false)) else None,
      damage := if DamageComponent in archetype then Some(Damage(0.0, 0.0, 0.0)) else None,
      movement := if MovementComponent in archetype then Some(Movement(0.0, Zero, false, 0.0)) else None,
      attackRange := if AttackRangeComponent in archetype then Some(AttackRange(0.0, Null, false)) else None,
      unitType := if UnitTypeComponent in archetype then Some(UnitType(Infantry, 0)) else None,
      group := if GroupComponent in archetype then Some(Group(0, false)) else None,
      pathfinding := if PathfindingComponent in archetype then Some(Pathfinding(false, 0, Zero)) else None,
      ai := if AIComponent in archetype then Some(AI(Aggressive, 0.0, 0.0, 0.0)) else None,
      command := if CommandComponent in archetype then Some(Command(Move, Zero, Null, 0.0)) else None,
      commandEnabled := CommandComponent in archetype)
  }

  /** How a call ends: with the finished unit, or with an exception that leaves the half-built one in the world. */
  datatype Outcome = Spawned(unit: EntityData) | Threw(partial: EntityData)

  /** The entity once the seven SetComponentData calls common to every unit have run. */
  function BaseUnit(kind: UnitKind, position: Vec3, teamId: int): EntityData {
    var s := GetUnitStats(kind);
    Instantiate(GetArchetypeForUnitType(kind)).(
      transform := Some(Transform(position, Identity, 1.0)),
      health := Some(Health(s.health, s.health, false)),
      damage := Some(Damage(s.damage, s.attackSpeed, 0.0)),
      movement := Some(Movement(s.speed, position, false, StoppingDistance)),
      attackRange := Some(AttackRange(s.range, Null, false)),
      unitType := Some(UnitType(kind, teamId)),
      group := Some(Group(teamId, false)))
  }

  /** The Pathfinding setup of Cavalry and Dinosaur. */
  function WithPath(d: EntityData, kind: UnitKind, position: Vec3): EntityData {
    if NeedsPathfinding(kind) then d.(pathfinding := Some(Pathfinding(false, 0, position)), waypoints := Some([]))
    else d
  }

  /** SpawnUnitOptimized as written: a non-player spawn calls SetComponentData on an AIComponent the entity lacks. */
  function Optimized(kind: UnitKind, position: Vec3, teamId: int, isPlayer: bool): Outcome {
    var d := BaseUnit(kind, position, teamId);
    if !isPlayer && AIComponent !in GetArchetypeForUnitType(kind) then Threw(d)
    else if !isPlayer then
      Spawned(WithPath(d.(ai := Some(AI(Aggressive, GetUnitStats(kind).range + DetectionMargin, 0.0, SearchInterval))), kind, position))
    else
      Spawned(WithPath(d.(player := true, command := Some(Command(Stop, position, Null, 0.0)), commandEnabled := true), kind, position))
  }

  /**
   * A player unit comes out exactly as RTSGameManager.SpawnUnit builds it; every non-player
   * spawn throws and leaves behind a unit with no AIComponent and no PlayerUnitTag, which
   * AIBehaviorSystem never updates.
   */
  lemma OptimizedOutcomes(kind: UnitKind, position: Vec3, teamId: int, isPlayer: bool)
    ensures Optimized(kind, position, teamId, isPlayer).Threw? <==> !isPlayer
    ensures isPlayer ==> Optimized(kind, position, teamId, isPlayer) == Spawned(NewUnit(kind, position, teamId, true))
    ensures !isPlayer ==>
              var p := Optimized(kind, position, teamId, isPlayer).partial;
              && p.ai.None? && !p.player && p.command.None?
              && p.unitType == Some(UnitType(kind, teamId)) && p.health.Some? && !p.dead
              && !AIBehaviorSystem.Updated(p)
  {
    ArchetypeContents(kind);
    SameStatsTable(kind);
  }

  /** The seven SetComponentData calls every unit gets, on a freshly created entity. */
  method SetUnitComponents(created: EntityData, kind: UnitKind, position: Vec3, teamId: int) returns (d: EntityData)
    requires created == Instantiate(GetArchetypeForUnitType(kind))
    ensures d == BaseUnit(kind, position, teamId)
  {
    var stats := GetUnitStats(kind);
    // Each of these components is in every archetype (ArchetypeContents).
    d := created;
    d := d.(transform := Some(Transform(position, Identity, 1.0)));
    d := d.(health := Some(Health(stats.health, stats.health, false)));
    d := d.(damage := Some(Damage(stats.damage, stats.attackSpeed, 0.0)));
    d := d.(movement := Some(Movement(stats.speed, position, false, 1.5)));
    d := d.(attackRange := Some(AttackRange(stats.range, Null, false)));
    d := d.(unitType := Some(UnitType(kind, teamId)));
    d := d.(group := Some(Group(teamId, false)));
  }

  /** The player branch: PlayerUnitTag, then a Command added (enabled) and set to Stop at the spawn point. */
  method MakePlayer(base: EntityData, position: Vec3) returns (d: EntityData)
    ensures d == base.(player := true, command := Some(Command(Stop, position, Null, 0.0)), commandEnabled := true)
  {
    d := base.(player := true);
    d := d.(command := Some(Command(Move, Zero, Null, 0.0)), commandEnabled := true);
    d := d.(command := Some(Command(Stop, position, Null, 0.0)));
  }

  /** The Cavalry and Dinosaur branch: Pathfinding set (it is in their archetype) and an empty waypoint buffer added. */
  method AddPathfinding(base: EntityData, kind: UnitKind, position: Vec3) returns (d: EntityData)
    ensures d == WithPath(base, kind, position)
  {
    d := base;
    if kind == Cavalry || kind == Dinosaur {
      d := d.(pathfinding := Some(Pathfinding(false, 0, position)));
      d := d.(waypoints := Some([]));
    }
  }

  /**
   * SpawnUnitOptimized. As in RTSGameManager.SpawnUnit, the entity is created once its
   * components are gathered; where the source throws, it is created with those set so far.
   */
  method SpawnUnitOptimized(w: World, kind: UnitKind, position: Vec3, teamId: int, isPlayer: bool)
    returns (unit: Entity, threw: bool)
    requires w.Valid()
    modifies w`entities, w`order, w`nextId
    ensures w.Valid()
    ensures unit !in old(w.entities) && w.order == old(w.order) + [unit]
    ensures threw == Optimized(kind, position, teamId, isPlayer).Threw?
    ensures w.entities == old(w.entities)[unit := match Optimized(kind, position, teamId, isPlayer)
                                                  case Spawned(d) => d
                                                  case Threw(d) => d]
  {
    var archetype := GetArchetypeForUnitType(kind);
    var d := SetUnitComponents(Instantiate(archetype), kind, position, teamId);
    if !isPlayer {
      if AIComponent !in archetype {
        // SetComponentData<AIComponent> on an entity without one throws.
        ghost var outcome := Optimized(kind, position, teamId, isPlayer);
        assert outcome == Threw(d);
        unit := w.CreateEntity(d);
        threw := true;
        return;
      }
      d := d.(ai := Some(AI(Aggressive, GetUnitStats(kind).range + 5.0, 0.0, 1.0)));
    } else {
      d := MakePlayer(d, position);
    }
    d := AddPathfinding(d, kind, position);
    ghost var outcome := Optimized(kind, position, teamId, isPlayer);
    assert outcome == Spawned(d);
    unit := w.CreateEntity(d);
    threw := false;
  }

  /**
   * The evidently intended spawn: the AIComponent is added rather than set. The search
   * interval is the value drawn from [0.8, 1.2].
   */
  function CorrectedOptimized(kind: UnitKind, position: Vec3, teamId: int, isPlayer: bool, searchInterval: real): EntityData {
    var d := BaseUnit(kind, position, teamId);
    if !isPlayer then
      WithPath(d.(ai := Some(AI(Aggressive, GetUnitStats(kind).range + DetectionMargin, 0.0, searchInterval))), kind, position)
    else
      WithPath(d.(player := true, command := Some(Command(Stop, position, Null, 0.0)), commandEnabled := true), kind, position)
  }

  /**
   * The corrected spawn never throws and builds the unit RTSGameManager.SpawnUnit builds,
   * except that an AI unit's search interval is the drawn one; an AI unit is then one that
   * AIBehaviorSystem updates.
   */
  lemma CorrectedMatchesManager(kind: UnitKind, position: Vec3, teamId: int, isPlayer: bool, searchInterval: real)
    requires 0.8 <= searchInterval <= 1.2
    ensures isPlayer ==> CorrectedOptimized(kind, position, teamId, isPlayer, searchInterval) == NewUnit(kind, position, teamId, true)
    ensures !isPlayer ==>
              var d := CorrectedOptimized(kind, position, teamId, isPlayer, searchInterval);
              && d == NewUnit(kind, position, teamId, false).(ai := Some(AI(Aggressive, GetUnitStats(kind).range + DetectionMargin, 0.0, searchInterval)))
              && 0.8 <= d.ai.value.targetSearchInterval <= 1.2
              && AIBehaviorSystem.Updated(d)
  {
    ArchetypeContents(kind);
    SameStatsTable(kind);
  }

  method SpawnUnitOptimizedCorrected(w: World, kind: UnitKind, position: Vec3, teamId: int, isPlayer: bool, searchInterval: real)
    returns (unit: Entity)
    requires w.Valid()
    requires 0.8 <= searchInterval <= 1.2
    modifies w`entities, w`order, w`nextId
    ensures w.Valid()
    ensures unit !in old(w.entities) && w.order == old(w.order) + [unit]
    ensures w.entities == old(w.entities)[unit := CorrectedOptimized(kind, position, teamId, isPlayer, searchInterval)]
  {
    var archetype := GetArchetypeForUnitType(kind);
    var d := SetUnitComponents(Instantiate(archetype), kind, position, teamId);
    if !isPlayer {
      // AddComponentData<AIComponent> in place of SetComponentData.
      d := d.(ai := Some(AI(Aggressive, GetUnitStats(kind).range + 5.0, 0.0, searchInterval)));
    } else {
      d := MakePlayer(d, position);
    }
    d := AddPathfinding(d, kind, position);
    unit := w.CreateEntity(d);
  }
}
