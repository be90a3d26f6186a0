/**
 * The component records of the simulation (the files under Assets/Scripts/Components), the tags
 * (DeadTag, SelectedTag, PlayerUnitTag), GroupComponent, and the per-entity record that
 * gathers whichever of them an entity carries.
 */
module Components {
  import opened Options
  import opened Geometry

  /**
   * Unity's Entity handle. Index and version are folded into one number; 0 is Entity.Null,
   * which no live entity ever equals.
   */
  type Entity = nat

  const Null: Entity := 0

  /** LocalTransform.Rotation, kept abstract: identity, or quaternion.LookRotationSafe(dir, up). */
  datatype Rotation = Identity | LookAlong(dir: Vec3)

  datatype Transform = Transform(position: Vec3, rotation: Rotation, scale: real)

  datatype Health = Health(current: real, max: real, isDead: bool)

  datatype Damage = Damage(amount: real, attackSpeed: real, lastAttackTime: real)

  datatype Movement = Movement(speed: real, destination: Vec3, hasDestination: bool, stoppingDistance: real)

  datatype AttackRange = AttackRange(range: real, target: Entity, hasTarget: bool)

  /**
   * UnitType. A C# enum variable can hold any integer; `Undeclared(code)` stands for a value
   * outside the four declared names (a code other than 0..3).
   */
  datatype UnitKind = Infantry | Cavalry | Archer | Dinosaur | Undeclared(code: int)

  datatype UnitType = UnitType(kind: UnitKind, teamId: int)

  /** AIBehaviorType: only Aggressive is ever assigned; the others are declared and inert. */
  datatype AIBehavior = Aggressive | Defensive | Patrolling | Guard

  datatype AI = AI(behavior: AIBehavior, detectionRange: real, lastTargetSearchTime: real, targetSearchInterval: real)

  /** CommandType; Patrol is declared but no system acts on it. */
  datatype CommandType = Move | Attack | Stop | Patrol

  datatype Command = Command(kind: CommandType, targetPosition: Vec3, targetEntity: Entity, commandTime: real)

  /** PathfindingComponent. The waypoint index is only ever set to 0 or incremented, so it is a nat. */
  datatype Pathfinding = Pathfinding(needsPath: bool, waypointIndex: nat, finalDestination: Vec3)

  datatype Projectile = Projectile(speed: real, direction: Vec3, target: Entity, damage: real, lifeTime: real, teamId: int)

  datatype EffectType = Death | Hit | Muzzleflash | Explosion

  datatype Effect = Effect(kind: EffectType, duration: real, startTime: real, position: Vec3)

  /** The player's team; every other team is hostile to it, and the spawned enemies are team 1. */
  const PlayerTeam: int := 0
  const EnemyTeam: int := 1

  /** GroupComponent: group id (0 = ungrouped, 11..15 = hotkey groups) and the selection flag. */
  datatype Group = Group(groupId: int, isSelected: bool)

  /**
   * Everything one entity carries. A component the entity lacks is None; a tag is a bool.
   * `commandEnabled` is the IEnableableComponent bit of CommandComponent: queries that name
   * CommandComponent only see entities whose bit is set, while HasComponent and GetComponent
   * ignore it. `waypoints` is the DynamicBuffer<WaypointBuffer>.
   */
  datatype EntityData = EntityData(
    transform: Option<Transform>,
    health: Option<Health>,
    damage: Option<Damage>,
    movement: Option<Movement>,
    attackRange: Option<AttackRange>,
    unitType: Option<UnitType>,
    ai: Option<AI>,
    command: Option<Command>,
    commandEnabled: bool,
    pathfinding: Option<Pathfinding>,
    waypoints: Option<seq<Vec3>>,
    projectile: Option<Projectile>,
    effect: Option<Effect>,
    group: Option<Group>,
    dead: bool,
    selected: bool,
    player: bool)

  /** An entity created by CreateEntity before any component is added. */
  const Empty: EntityData := EntityData(None, None, None, None, None, None, None, None, false,
                                        None, None, None, None, None, false, false, false)

  /** The position of an entity that has a LocalTransform. */
  function PositionOf(d: EntityData): Vec3
    requires d.transform.Some?
  {
    d.transform.value.position
  }
}
