# SimulationWar core in Dafny

A model of the per-tick unit simulation of SimulationWar, a Unity ECS real-time strategy game written in C#, and of the manager code around it. The model covers selection, control groups, order issuing, pause and speed, the end-of-game check, the minimap transform and the UI readouts. Each source file of the core is one Dafny module of the same name.

- **Entities and components.** `Components` holds the component records: Health, Damage, Movement, AttackRange, UnitType, AI, Command, Pathfinding with its waypoint buffer, Projectile, Effect and Group. It also holds the DeadTag, SelectedTag and PlayerUnitTag tags, and `EntityData`, the record of optional components one entity carries. `EntityData` includes the enable bit of the Command, which is an enableable component.
- **The world.** `Store.World` is a class standing for Unity's EntityManager. Its fields are:
  - the entity map;
  - the order in which queries visit entities;
  - the next fresh id;
  - the two entity command buffers, BeginSimulation (used by AttackSystem) and EndSimulation (used by every other system).

  The buffers are append-only logs of Create, Add, Remove and Destroy requests. A system that only queues requests is a `World` method appending its requests, proved equal to a function of the world. A system that writes components in place rewrites the entity map in a loop, proved equal to a per-entity function mapped over the map.
- **Time and geometry.** Time (`now`, `deltaTime`) is a real parameter. Positions are real triples. A distance test `distance <= r` is stated on squared distances. `normalize` is a function parameter, and rotations are opaque values.
- **Systems.** Each system is a module with an `OnUpdate` method over a `World`, specified by a function and given lemmas for what the source promises. The systems are CommandSystem, GroupCommandSystem, AIBehaviorSystem, MovementSystem, PathfindingSystem, FormationSystem, AttackSystem, ProjectileSystem, CollisionDetectionSystem, HealthSystem, EffectSystem and CleanupSystem.
- **Jobs.** The jobs FindTargetsJob, MovementJob, MoveJob and AttackJob are modelled as their `Execute` methods over the arrays or lookups they receive.
- **Shared rules.** A few rules are written out in several source files and are defined once here:
  - `Nearest`: the running-minimum scan;
  - `Combat`: the clamped damage rule;
  - `Orders`: order issuing;
  - `Picking`: click picking;
  - `UnitCensus`: the team head-count.
- **Managers.** RTSGameManager, UnitSpawnerSystem, RTSInputManager, UnitSelectionSystem, GameStateManager, MinimapSystem and RTSUIManager are modelled with their input already resolved. The click's ground point, the shift key, the screen height and the world-to-screen transform are parameters.

Unity semantics the model relies on:
- A query that names an enableable component (here CommandComponent) matches only entities on which that component is enabled.
- `GetComponent`, `GetComponentData` and `SetComponentData` on a component the entity lacks throw. Where the source does this without a guard, the model either requires the component to be present or models the throw as an error outcome.
- A MonoBehaviour's `Start` runs once in its life.

Behaviour of the code worth knowing:
- ProjectileSystem and CollisionDetectionSystem can both resolve the same projectile in one tick: see Findings.
- RTSGameManager adds a unit's components one at a time, and UnitSpawnerSystem sets a component that its archetype lacks: see Findings.
- Both spawners give every unit, player or not, a Group whose id is its team id (`RTSGameManager.NewUnitIsFresh`).
- CleanupSystem compares the world's elapsed time against 3, not the time since the unit died (`CleanupSystem.DestroysDeadAfterDelay`).

## Model

| member | source | states |
|---|---|---|
| CommandSystem.Resolve | Assets/Scripts/Systems/CommandSystem.cs:10-38 | A unit outside the query (dead, or Command missing or disabled) is unchanged; a processed unit changes only Movement, AttackRange and the enable bit, which ends disabled; the Command data is never written |
| CommandSystem.ResolveByKind | Assets/Scripts/Systems/CommandSystem.cs:15-35 | Move sets Destination and HasDestination and clears HasTarget; Attack with a target sets Target and HasTarget and leaves Movement; Attack on Null and Patrol change nothing; Stop clears both flags but keeps the old Destination and Target; Speed, StoppingDistance and Range are kept |
| CommandSystem.OneShot | Assets/Scripts/Systems/CommandSystem.cs:38 | Resolving a resolved unit changes nothing: the disabled Command keeps it out of the next run |
| CommandSystem.OnUpdate | Assets/Scripts/Systems/CommandSystem.cs:8-40 | The query loop leaves every entity resolved, the same set of entities, and nothing else changed |
| CommandSystem.OnUpdateIdempotent | Assets/Scripts/Systems/CommandSystem.cs:38 | A second system run with no new order leaves the world as the first left it |
| GroupCommandSystem.Route | Assets/Scripts/Systems/GroupCommandSystem.cs:11-33 | Units outside the query, and commands other than Move, are unchanged; only Movement and Pathfinding can change, neither is added or removed, and a unit with Pathfinding keeps its Movement |
| GroupCommandSystem.RouteMove | Assets/Scripts/Systems/GroupCommandSystem.cs:17-32 | Move on a unit with Pathfinding sets FinalDestination, NeedsPath and index 0; without Pathfinding it sets Destination and HasDestination and keeps Speed and StoppingDistance |
| GroupCommandSystem.OnUpdate | Assets/Scripts/Systems/GroupCommandSystem.cs:8-35 | The query loop routes every entity and changes nothing else |
| AIBehaviorSystem.ClosestEnemyIsClosest | Assets/Scripts/Systems/AIBehaviorSystem.cs:50-71 | The result is Null exactly when no living unit of another team lies within DetectionRange; otherwise it is such a unit, no farther than any other, and strictly nearer than every such unit visited before it (the first wins ties) |
| AIBehaviorSystem.FindClosestEnemy | Assets/Scripts/Systems/AIBehaviorSystem.cs:50-71 | The running-minimum loop returns the closest enemy defined above |
| AIBehaviorSystem.Think | Assets/Scripts/Systems/AIBehaviorSystem.cs:14-46 | Only AI, AttackRange and Movement can change, none is added or removed; a dead or player unit, or one whose search is not yet due (elapsed time not strictly above the interval), is unchanged |
| AIBehaviorSystem.ThinkSearch | Assets/Scripts/Systems/AIBehaviorSystem.cs:21-45 | A due search stamps LastTargetSearchTime with the current time; with no enemy found AttackRange and Movement stay (an old target is not cleared); with one it is an enemy of another team, becomes the target, and the unit heads for it only when it is farther than Range |
| AIBehaviorSystem.ThinkFrame | Assets/Scripts/Systems/AIBehaviorSystem.cs:14-46 | A unit's decision depends only on the positions, teams and death marks of the others, so units updated earlier in the loop do not change it |
| AIBehaviorSystem.UpdateUnit | Assets/Scripts/Systems/AIBehaviorSystem.cs:19-46 | One iteration of the query loop computes the decision above |
| AIBehaviorSystem.OnUpdate | Assets/Scripts/Systems/AIBehaviorSystem.cs:10-48 | The system run leaves every unit with its decision taken against the world as it was at the start |
| FindTargetsJob.PickTargetIsClosest | Assets/Scripts/Jobs/FindTargetsJob.cs:31-45 | The inner loop's pick is Null when no target of another team lies within DetectionRange; when one does, the pick is such a target, of minimal distance and strictly nearer than every lower-indexed one, so the lowest index wins ties |
| FindTargetsJob.Retarget | Assets/Scripts/Jobs/FindTargetsJob.cs:47-52 | Range is kept; with no enemy the record is unchanged, otherwise Target and HasTarget are set |
| FindTargetsJob.ScanTargets | Assets/Scripts/Jobs/FindTargetsJob.cs:31-45 | The inner running-minimum loop returns PickTarget for that AI unit |
| FindTargetsJob.Execute | Assets/Scripts/Jobs/FindTargetsJob.cs:22-54 | Every AttackRanges slot is retargeted at its own AI's pick; only that array is written |
| Nearest.FirstNearest | Assets/Scripts/Systems/AIBehaviorSystem.cs:52-68 | The running minimum with a strict comparison only ever picks an eligible index |
| Nearest.FirstNearestIsNearest | Assets/Scripts/Systems/AIBehaviorSystem.cs:52-68 | It is None exactly when nothing is eligible; otherwise its distance is minimal among the eligible and strictly below every eligible one before it |
| Nearest.FirstNearestCongruent | Assets/Scripts/Jobs/FindTargetsJob.cs:31-45 | The pick depends only on the eligibility flags and on the distances of eligible entries |
| Geometry.StepLength | Assets/Scripts/Systems/MovementSystem.cs:29 | A step along a unit direction by k covers exactly distance k |
| MovementSystem.SeekStep | Assets/Scripts/Systems/MovementSystem.cs:17-36 | Scale never changes; without a destination, or within StoppingDistance, the transform is unchanged; the rotation changes only when the direction's squared length exceeds 0.01 |
| MovementSystem.SeekStepMoves | Assets/Scripts/Systems/MovementSystem.cs:21-36 | Beyond StoppingDistance the unit moves by direction times Speed times dt, a step of exactly Speed times dt for a unit direction, and faces along the direction when it is long enough |
| MovementSystem.MoveUnit | Assets/Scripts/Systems/MovementSystem.cs:14-17 | Only the transform can change, and dead units and units without a Movement or a destination do not move |
| MovementSystem.MoveAllKeepsStill | Assets/Scripts/Systems/MovementSystem.cs:14-17 | A dead unit or one with no destination is left exactly as it was |
| MovementSystem.MoveOne | Assets/Scripts/Systems/MovementSystem.cs:17-36 | The loop body gives the entity its seek step exactly as MoveUnit says, and reports when it left the entity unchanged |
| MovementSystem.OnUpdate | Assets/Scripts/Systems/MovementSystem.cs:10-38 | The query loop moves every unit one seek step and changes nothing else |
| MovementJob.Execute | Assets/Scripts/Jobs/MovementJob.cs:15-43 | Each of the chunk's transforms is replaced by its seek step; the Movement array is only read |
| MoveJob.MoveToward | Assets/Scripts/Jobs/MoveJob.cs:11-26 | Scale never changes; a Command that is not Move, or a target within 0.1, leaves the transform as it was |
| MoveJob.MoveTowardSteps | Assets/Scripts/Jobs/MoveJob.cs:16-24 | Farther than 0.1 from a Move target the unit turns along the direction and steps exactly 5 times dt for a unit direction, whatever its Movement says |
| MoveJob.Execute | Assets/Scripts/Jobs/MoveJob.cs:11-26 | The job's in-place update computes MoveToward |
| PathfindingSystem.Replan | Assets/Scripts/Systems/PathfindingSystem.cs:17-26 | With NeedsPath the waypoints become exactly the final destination, NeedsPath is cleared and the index reset to 0; otherwise nothing changes |
| PathfindingSystem.Follow | Assets/Scripts/Systems/PathfindingSystem.cs:17-52 | FinalDestination, Speed and StoppingDistance are kept and NeedsPath ends false |
| PathfindingSystem.FollowSteps | Assets/Scripts/Systems/PathfindingSystem.cs:29-51 | Waypoints are followed only when the index is inside the buffer; on reaching a waypoint the index grows by exactly one and the unit stops after the last or heads for the next; otherwise it heads for the current waypoint |
| PathfindingSystem.FollowKeepsIndexInBounds | Assets/Scripts/Systems/PathfindingSystem.cs:17-36 | An index within the buffer's length stays within it |
| PathfindingSystem.FreshPathHeadsForDestination | Assets/Scripts/Systems/PathfindingSystem.cs:17-51 | A fresh plan of a unit not yet at its goal heads straight for the final destination |
| PathfindingSystem.PathUnit | Assets/Scripts/Systems/PathfindingSystem.cs:12-15 | Only Pathfinding, Movement and the waypoint buffer can change, none is added or removed, and dead units or units outside the query are unchanged |
| PathfindingSystem.UpdateUnit | Assets/Scripts/Systems/PathfindingSystem.cs:16-52 | One iteration of the query loop computes the replan and follow step |
| PathfindingSystem.OnUpdate | Assets/Scripts/Systems/PathfindingSystem.cs:10-54 | The query loop applies that step to every entity and changes nothing else |
| FormationSystem.SelectedUnits | Assets/Scripts/Systems/FormationSystem.cs:17-24 | Exactly the living selected player units with a LocalTransform, in query order, each once |
| FormationSystem.CollectSelected | Assets/Scripts/Systems/FormationSystem.cs:14-24 | The collecting loop builds those units and, index by index, their positions |
| FormationSystem.SumOfCopies | Assets/Scripts/Systems/FormationSystem.cs:58-66 | Summing n copies of a point gives n times the point |
| FormationSystem.CalculateCenter | Assets/Scripts/Systems/FormationSystem.cs:58-66 | The summing loop returns the sum of the positions divided by their number |
| FormationSystem.CenterOfOnePoint | Assets/Scripts/Systems/FormationSystem.cs:58-66 | The centre of units all standing on one point is that point |
| FormationSystem.ISqrt | Assets/Scripts/Systems/FormationSystem.cs:70 | The integer square root: s squared is at most n, which is below (s + 1) squared |
| FormationSystem.UnitsPerRow | Assets/Scripts/Systems/FormationSystem.cs:70 | At least 1, and the integer square root of the unit count when there is a unit |
| FormationSystem.FormationOffset | Assets/Scripts/Systems/FormationSystem.cs:68-80 | The offset lies on the ground plane, never behind the target, and its x stays within one row's width around the target |
| FormationSystem.FormationOffsetGrid | Assets/Scripts/Systems/FormationSystem.cs:70-79 | Row and column come from the index by division and remainder, with 0 <= column < units per row, and the offset is ((column - perRow/2) * 2, 0, row * 2) |
| FormationSystem.FormationOffsetInjective | Assets/Scripts/Systems/FormationSystem.cs:68-80 | Distinct indices get distinct offsets, so no two units of a formation share a slot |
| FormationSystem.Reform | Assets/Scripts/Systems/FormationSystem.cs:33-49 | Only Movement can change; a unit whose Command is not Move is unchanged; a Move unit keeps its Speed and gets the target plus its offset, HasDestination and StoppingDistance 1.5 |
| FormationSystem.IndexOf | Assets/Scripts/Systems/FormationSystem.cs:31 | The first position of a unit in the list |
| FormationSystem.FormationSlots | Assets/Scripts/Systems/FormationSystem.cs:26-52 | With at most one selected unit nothing changes; otherwise the i-th selected unit is reformed with index i, and every other entity is unchanged |
| FormationSystem.FormationIgnoresPositions | Assets/Scripts/Systems/FormationSystem.cs:29 | Moving a selected unit changes no destination: the centre is computed and never used |
| FormationSystem.ApplyFormation | Assets/Scripts/Systems/FormationSystem.cs:31-51 | The loop over the selected units writes each one's reformed Movement and nothing else |
| FormationSystem.OnUpdate | Assets/Scripts/Systems/FormationSystem.cs:11-56 | The system run leaves the world as the formation rule above says |
| Combat.CooldownStaysReady | Assets/Scripts/Systems/AttackSystem.cs:37 | A cooldown that has run out stays run out as time goes on |
| Combat.NewProjectile | Assets/Scripts/Systems/AttackSystem.cs:64-87 | The requested projectile starts at the attacker, flies at speed 20 for 5 seconds towards the target, carries the target, damage and team, and faces its direction |
| Combat.ApplyDamage | Assets/Scripts/Systems/AttackSystem.cs:89-99 | Health never goes below 0, is the old health minus the damage unless clamped to 0, IsDead holds exactly at 0, and MaxHealth is kept |
| Combat.TwoHitsAreOneHit | Assets/Scripts/Systems/AttackSystem.cs:89-99 | Two hits of non-negative damage do what one hit of their sum does |
| Combat.DamageIsMonotone | Assets/Scripts/Systems/AttackSystem.cs:89-99 | Non-negative damage never heals, and a unit at 0 health is marked dead |
| Combat.DealDamage | Assets/Scripts/Systems/AttackSystem.cs:89-99 | Only the target's Health changes, by the clamp; a target without Health is left alone |
| Combat.HitEffect | Assets/Scripts/Systems/ProjectileSystem.cs:59-77 | The requested effect is a Hit at the given position with the given duration, starting now |
| AttackSystem.DropTarget | Assets/Scripts/Systems/AttackSystem.cs:25-29 | Dropping a dead or missing target changes only the attacker's combat state |
| AttackSystem.Hit | Assets/Scripts/Systems/AttackSystem.cs:39-49 | A strike changes at most Health values and requests at most one projectile |
| AttackSystem.Strike | Assets/Scripts/Systems/AttackSystem.cs:39-58 | A strike followed by the LastAttackTime stamp changes only the attacker's combat state and Health values, and requests at most one projectile |
| AttackSystem.AttackStep | Assets/Scripts/Systems/AttackSystem.cs:16-61 | One attacker's iteration changes only its own combat state and Health values, requests at most one projectile, and does nothing for a dead attacker or one without a target |
| AttackSystem.StepKeepsLocatable | Assets/Scripts/Systems/AttackSystem.cs:24-31 | An iteration never gives a unit a new target, so every target still has a LocalTransform to read |
| AttackSystem.AttackFold | Assets/Scripts/Systems/AttackSystem.cs:16-61 | The query loop keeps the set of entities and keeps every target locatable |
| AttackSystem.AttackFoldFrame | Assets/Scripts/Systems/AttackSystem.cs:16-61 | A tick changes only AttackRange, Damage and Health, keeps every DamageAmount and AttackSpeed, and never introduces a target |
| AttackSystem.AttackStepCases | Assets/Scripts/Systems/AttackSystem.cs:22-58 | A missing or dead target only clears HasTarget; out of Range or cooling down nothing happens; otherwise LastAttackTime becomes now, an archer requests exactly the projectile and touches no Health, and a melee unit clamps only its target's Health |
| AttackSystem.AttackFoldOpsBound | Assets/Scripts/Systems/AttackSystem.cs:16-61 | Each attacker attacks at most once a tick: at most one request per attacker, all of them projectiles |
| AttackSystem.MeleeNeverHeals | Assets/Scripts/Systems/AttackSystem.cs:89-99 | A melee strike of non-negative damage lowers no one's health |
| AttackSystem.StepNeverHeals | Assets/Scripts/Systems/AttackSystem.cs:16-61 | With non-negative damage amounts one attacker's iteration heals no one |
| AttackSystem.AttackNeverHeals | Assets/Scripts/Systems/AttackSystem.cs:16-61 | With non-negative damage amounts a whole tick heals no one |
| AttackSystem.DealDamageTo | Assets/Scripts/Systems/AttackSystem.cs:89-99 | The method applies the damage rule to the world |
| AttackSystem.AttackOne | Assets/Scripts/Systems/AttackSystem.cs:21-60 | One loop iteration updates the world and appends to the begin-of-frame buffer as AttackStep says |
| AttackSystem.StrikeOne | Assets/Scripts/Systems/AttackSystem.cs:39-58 | The firing branch updates the world and the buffer as Strike says |
| AttackSystem.AttackNext | Assets/Scripts/Systems/AttackSystem.cs:16-61 | One more iteration extends the fold by one attacker |
| AttackSystem.OnUpdate | Assets/Scripts/Systems/AttackSystem.cs:10-62 | The system run leaves the world and the buffer as the fold over the query order says |
| AttackJob.DirectDamage | Assets/Scripts/Jobs/AttackJob.cs:82-91 | Only the target's entry of the Health lookup changes, by the clamp, and a target without Health is left alone |
| AttackJob.Turn | Assets/Scripts/Jobs/AttackJob.cs:17-56 | The job may only clear HasTarget, stamp LastAttackTime and damage its target; a projectile request comes only from an archer and then no Health changes; without a target nothing happens |
| AttackJob.HealthsOfDealDamage | Assets/Scripts/Jobs/AttackJob.cs:82-91 | The job's damage on the Health lookup is AttackSystem's damage on the world, read through the lookup |
| AttackJob.JobAgreesWithSystem | Assets/Scripts/Jobs/AttackJob.cs:17-56 | On the lookups of a world, the job's turn for a unit gives the same AttackRange, Damage, Health values and projectile request as AttackSystem's iteration for it |
| AttackJob.JobDropsUnplacedTarget | Assets/Scripts/Jobs/AttackJob.cs:29-33 | A target with no LocalTransform makes the job drop it and do nothing else |
| AttackJob.Job.Execute | Assets/Scripts/Jobs/AttackJob.cs:17-56 | The job's Execute returns the new AttackRange and Damage, writes the Health lookup, and appends the projectile request keyed by the query index, as Turn says |
| AttackJob.Job.CreateProjectile | Assets/Scripts/Jobs/AttackJob.cs:58-80 | Appends exactly one projectile request, keyed by the job index, with speed 20 and lifetime 5 |
| AttackJob.Job.DealDirectDamage | Assets/Scripts/Jobs/AttackJob.cs:82-91 | Applies the damage rule to the Health lookup |
| ProjectileSystem.Fly | Assets/Scripts/Systems/ProjectileSystem.cs:20-24 | The flight keeps rotation and scale, and LifeTime drops by exactly dt with every other projectile field kept |
| ProjectileSystem.FlightDistance | Assets/Scripts/Systems/ProjectileSystem.cs:21 | Along a unit direction a projectile travels exactly Speed times dt |
| ProjectileSystem.Land | Assets/Scripts/Systems/ProjectileSystem.cs:25-55 | After the flight only Health values change, and the requests are nothing, the projectile's destroy, or one Hit effect and then its destroy |
| ProjectileSystem.Step | Assets/Scripts/Systems/ProjectileSystem.cs:16-56 | One iteration changes only the projectile's position and LifeTime and Health values, with the requests above; an entity that is not a projectile is left alone |
| ProjectileSystem.StepKeepsPlaced | Assets/Scripts/Systems/ProjectileSystem.cs:32-34 | Every bound target that exists keeps a LocalTransform to read after any iteration |
| ProjectileSystem.ProjectileFold | Assets/Scripts/Systems/ProjectileSystem.cs:16-56 | The query loop keeps the set of entities and keeps bound targets readable |
| ProjectileSystem.StepCases | Assets/Scripts/Systems/ProjectileSystem.cs:20-54 | The projectile flies and ages; expired, it is destroyed with no damage; with its target missing nothing more happens; within 1 of the target it damages only the target (when it has Health), requests a Hit effect of 1 second at the target and is destroyed; otherwise nothing more; no team or death check is made |
| ProjectileSystem.DestroyedAtMostOnce | Assets/Scripts/Systems/ProjectileSystem.cs:27-28 | Over a tick the system requests at most one destroy per projectile and none for other entities |
| ProjectileSystem.TurnDestroyCount | Assets/Scripts/Systems/ProjectileSystem.cs:27-53 | One iteration's requests destroy its own projectile at most once and nothing else |
| ProjectileSystem.CreateHitEffect | Assets/Scripts/Systems/ProjectileSystem.cs:59-77 | Appends one Hit effect of duration 1 at the position, starting now |
| ProjectileSystem.FlyOne | Assets/Scripts/Systems/ProjectileSystem.cs:19-55 | One loop iteration updates the world and the end-of-frame buffer as Step says |
| ProjectileSystem.LandOne | Assets/Scripts/Systems/ProjectileSystem.cs:25-55 | The part of an iteration after the flight updates the world and the buffer as Land says |
| ProjectileSystem.HitTarget | Assets/Scripts/Systems/ProjectileSystem.cs:40-47 | Applies the damage rule to the bound target |
| ProjectileSystem.FlyNext | Assets/Scripts/Systems/ProjectileSystem.cs:16-56 | One more iteration extends the fold by one projectile |
| ProjectileSystem.OnUpdate | Assets/Scripts/Systems/ProjectileSystem.cs:10-57 | The system run leaves the world and the buffer as the fold over the query order says |
| CollisionDetectionSystem.FirstHit | Assets/Scripts/Systems/CollisionDetectionSystem.cs:20-31 | The unit a projectile collides with is the first in query order that is living, of another team and within 1; None when there is none |
| CollisionDetectionSystem.Scan | Assets/Scripts/Systems/CollisionDetectionSystem.cs:20-56 | One projectile's inner loop changes only Health values and requests nothing, or one Hit effect and the projectile's destroy |
| CollisionDetectionSystem.ScanHitsFirst | Assets/Scripts/Systems/CollisionDetectionSystem.cs:20-56 | Requests are made exactly when some unit is hit; with no hit nothing changes; otherwise only the first unit hit loses health by the clamp, and one Hit effect of 0.5 seconds at it and one destroy are requested, after which the loop breaks |
| CollisionDetectionSystem.CollisionFold | Assets/Scripts/Systems/CollisionDetectionSystem.cs:16-57 | The outer loop over projectiles changes only Health values |
| CollisionDetectionSystem.HitUnit | Assets/Scripts/Systems/CollisionDetectionSystem.cs:33-53 | A collision applies the damage rule to the unit and appends the Hit effect at the unit and the projectile's destroy |
| CollisionDetectionSystem.ScanOne | Assets/Scripts/Systems/CollisionDetectionSystem.cs:20-56 | The inner loop updates the world and the end-of-frame buffer as Scan says |
| CollisionDetectionSystem.ScanNext | Assets/Scripts/Systems/CollisionDetectionSystem.cs:16-57 | One more outer iteration extends the fold by one projectile |
| CollisionDetectionSystem.OnUpdate | Assets/Scripts/Systems/CollisionDetectionSystem.cs:10-58 | The system run leaves the world and the buffer as the fold says |
| CollisionDetectionSystem.ScanStopsAt | Assets/Scripts/Systems/CollisionDetectionSystem.cs:30-54 | When the first unit hit is known, the inner loop's outcome is that unit's damage and the two requests |
| CollisionDetectionSystem.DoubleHit | Assets/Scripts/Systems/ProjectileSystem.cs:32-53 | As written: a projectile that reaches an enemy target in a tick is destroyed twice, spawns two Hit effects and damages the target twice, once by ProjectileSystem and once by this system |
| CollisionDetectionSystem.DoubleHitExample | Assets/Scripts/Systems/CollisionDetectionSystem.cs:16-54 | The concrete input of the finding: a 10-damage arrow 0.2 from a unit with 100 health leaves it at 80, with two destroys and two Hit effects |
| CollisionDetectionSystem.ScanUnlessDestroyed | Assets/Scripts/Systems/CollisionDetectionSystem.cs:16-57 | Corrected: a projectile whose destroy is already queued this frame is skipped; any other is scanned as written |
| CollisionDetectionSystem.CorrectedCollisionFold | Assets/Scripts/Systems/CollisionDetectionSystem.cs:16-57 | Corrected: the outer loop with that skip changes only Health values |
| CollisionDetectionSystem.CorrectedFoldDestroysOnce | Assets/Scripts/Systems/CollisionDetectionSystem.cs:53-54 | Corrected: starting from requests that destroy nothing twice, the loop adds none that would |
| CollisionDetectionSystem.CorrectedDestroysOnce | Assets/Scripts/Systems/ProjectileSystem.cs:27-53 | Corrected: ProjectileSystem followed by the corrected collision pass destroys every entity at most once per tick |
| CollisionDetectionSystem.CorrectedSingleHit | Assets/Scripts/Systems/CollisionDetectionSystem.cs:16-54 | Corrected: a projectile that lands on a live unit of another team damages it once, with one Hit effect and one destroy of the projectile |
| CollisionDetectionSystem.CorrectedSingleHitExample | Assets/Scripts/Systems/CollisionDetectionSystem.cs:16-54 | Corrected, on the finding's concrete input: the unit with 100 health ends at 90, with one destroy and one Hit effect |
| HealthSystem.TurnCases | Assets/Scripts/Systems/HealthSystem.cs:15-35 | A unit queues anything exactly when it is living with IsDead set; then it queues its own DeadTag add and Group and SelectedTag removals, a Death effect at its position exactly when it has a LocalTransform, and never a destroy or a projectile |
| HealthSystem.DeathRequests | Assets/Scripts/Systems/HealthSystem.cs:19-33 | Over the query, an entity gets the DeadTag add and the Group and SelectedTag removals exactly when it is living with IsDead set |
| HealthSystem.DeathEffects | Assets/Scripts/Systems/HealthSystem.cs:25-29 | Every Death effect requested belongs to a dying unit with a LocalTransform, at its position, and every such unit gets one |
| HealthSystem.NothingDestroyed | Assets/Scripts/Systems/HealthSystem.cs:15-35 | The system never destroys an entity or creates a projectile |
| HealthSystem.CreateDeathEffect | Assets/Scripts/Systems/HealthSystem.cs:38-56 | Appends one Death effect of duration 2 at the position, starting now |
| HealthSystem.Visit | Assets/Scripts/Systems/HealthSystem.cs:19-34 | One loop iteration appends that unit's requests |
| HealthSystem.OnUpdate | Assets/Scripts/Systems/HealthSystem.cs:10-36 | The system appends every unit's requests in query order and writes no component |
| EffectSystem.DestroysExactlyExpired | Assets/Scripts/Systems/EffectSystem.cs:14-21 | An entity is destroyed exactly when it is an effect in the query with now - StartTime >= Duration; only destroys are requested |
| EffectSystem.DestroyedOnce | Assets/Scripts/Systems/EffectSystem.cs:14-21 | Each effect is destroyed at most once per run, and nothing outside the query is |
| EffectSystem.Visit | Assets/Scripts/Systems/EffectSystem.cs:17-20 | One loop iteration appends that effect's destroy, if it has expired |
| EffectSystem.OnUpdate | Assets/Scripts/Systems/EffectSystem.cs:8-22 | The system appends every expired effect's destroy in query order and writes no component |
| CleanupSystem.DestroysDeadAfterDelay | Assets/Scripts/Systems/CleanupSystem.cs:16-25 | An entity is destroyed exactly when the elapsed game time exceeds 3 and it has Health and DeadTag, however long ago it died; only destroys are requested |
| CleanupSystem.NothingBeforeDelay | Assets/Scripts/Systems/CleanupSystem.cs:21 | In the first 3 seconds of the game nothing is destroyed |
| CleanupSystem.DestroyedOnce | Assets/Scripts/Systems/CleanupSystem.cs:16-25 | Each dead unit is destroyed at most once per run, and nothing outside the query is |
| CleanupSystem.Visit | Assets/Scripts/Systems/CleanupSystem.cs:21-24 | One loop iteration appends that unit's destroy when the delay has passed |
| CleanupSystem.OnUpdate | Assets/Scripts/Systems/CleanupSystem.cs:8-26 | The system appends the destroys in query order and writes no component |
| RTSGameManager.GetUnitStats | Assets/Scripts/Managers/RTSGameManager.cs:172-182 | Every entry of the stats table (health, damage, speed, range, attack speed) is positive |
| RTSGameManager.UndeclaredKindIsInfantry | Assets/Scripts/Managers/RTSGameManager.cs:180 | A kind outside the enum gets Infantry's stats |
| RTSGameManager.NewUnitIsFresh | Assets/Scripts/Managers/RTSGameManager.cs:72-170 | A spawned unit stands at its position with full health and is living, has the given kind and team, group id = team id and not selected, no destination and no target, Speed and Range from the table, Pathfinding (not needing a path, index 0, heading for its spawn position) and an empty waypoint buffer exactly for Cavalry and Dinosaur, and is neither a projectile nor an effect |
| RTSGameManager.PlayerUnitStartsStopped | Assets/Scripts/Managers/RTSGameManager.cs:134-169 | A player unit carries PlayerUnitTag, no AI, and an enabled Stop Command at its spawn position, which CommandSystem resolves to standing still with no target |
| RTSGameManager.EnemyUnitHunts | Assets/Scripts/Managers/RTSGameManager.cs:124-133 | A non-player unit gets an Aggressive AI with DetectionRange = range + 5, interval 1 and no Command, so AIBehaviorSystem updates it and CommandSystem never does |
| RTSGameManager.SpawnUnit | Assets/Scripts/Managers/RTSGameManager.cs:72-170 | Adds exactly one fresh entity, holding the new unit, and changes no other |
| RTSGameManager.SpawnUnitsForTeam | Assets/Scripts/Managers/RTSGameManager.cs:43-52 | Creates exactly unitCount units (none for a negative count) at the centre plus the drawn offsets, with the drawn kinds, appended after the old entities, which are unchanged |
| RTSGameManager.SpawnInitialUnits | Assets/Scripts/Managers/RTSGameManager.cs:34-41 | Ten player units of team 0 and then fifteen AI units of team 1, each at its spawn point plus its offset, after the old entities, which are unchanged |
| RTSGameManager.SpawnPlayerUnit | Assets/Scripts/Managers/RTSGameManager.cs:191-194 | Adds one team-0 player unit |
| RTSGameManager.SpawnEnemyUnit | Assets/Scripts/Managers/RTSGameManager.cs:196-199 | Adds one team-1 AI unit |
| UnitSpawnerSystem.ArchetypeContents | Assets/Scripts/Systems/UnitSpawnerSystem.cs:13-57 | Every archetype holds the seven unit components; Pathfinding exactly for Cavalry and Dinosaur; none holds AIComponent or CommandComponent; an undeclared kind maps to Infantry's archetype (lines 159-169) |
| UnitSpawnerSystem.SameStatsTable | Assets/Scripts/Systems/UnitSpawnerSystem.cs:171-181 | The spawner's stats table is RTSGameManager's, default included |
| UnitSpawnerSystem.OptimizedOutcomes | Assets/Scripts/Systems/UnitSpawnerSystem.cs:64-157 | As written: a player unit comes out as RTSGameManager builds it; every non-player unit throws at the AIComponent write (line 122) and is left a living unit with no AI, which AIBehaviorSystem never updates |
| UnitSpawnerSystem.SetUnitComponents | Assets/Scripts/Systems/UnitSpawnerSystem.cs:66-117 | The archetype instance gets the position, the table's stats, its kind and team, and group id = team id |
| UnitSpawnerSystem.MakePlayer | Assets/Scripts/Systems/UnitSpawnerSystem.cs:130-141 | A player unit gets PlayerUnitTag and an enabled Stop Command at its position |
| UnitSpawnerSystem.AddPathfinding | Assets/Scripts/Systems/UnitSpawnerSystem.cs:143-154 | Cavalry and Dinosaur get Pathfinding heading for the spawn position and an empty waypoint buffer |
| UnitSpawnerSystem.SpawnUnitOptimized | Assets/Scripts/Systems/UnitSpawnerSystem.cs:64-157 | Adds one fresh entity holding the outcome above, and reports whether the call threw |
| UnitSpawnerSystem.CorrectedMatchesManager | Assets/Scripts/Systems/UnitSpawnerSystem.cs:119-129 | Corrected (AIComponent added rather than set): a player unit is RTSGameManager's, and a non-player unit is RTSGameManager's except for its drawn search interval in [0.8, 1.2], so AIBehaviorSystem updates it |
| UnitSpawnerSystem.SpawnUnitOptimizedCorrected | Assets/Scripts/Systems/UnitSpawnerSystem.cs:64-157 | Corrected: adds one fresh entity holding the corrected unit |
| Orders.IssuedOrderIsCarriedOut | Assets/Scripts/Managers/RTSInputManager.cs:178-218 | An issued order touches only the Command and its enabled bit; a living reached unit with Movement and AttackRange gets the order stamped with the current time, and CommandSystem's next tick carries it out: Move sets and enables the destination and drops the target, Attack on a real entity sets the target, Stop clears both |
| Orders.IssuedChangesOnlyReached | Assets/Scripts/Managers/RTSInputManager.cs:288-306 | Issuing changes only units the query reaches (enabled Command, SelectedTag, PlayerUnitTag), and each of those gets the written Command |
| Orders.DisabledUnitIgnoresOrders | Assets/Scripts/Managers/RTSInputManager.cs:180-195 | A unit whose Command is disabled is unchanged by any sequence of orders, each followed by a CommandSystem tick (as-written half of a finding) |
| Orders.SpawnedPlayerUnitIgnoresOrders | Assets/Scripts/Managers/RTSGameManager.cs:134-169 | A spawned player unit, once its initial Stop has been applied, never gets a destination or a target from any later order (as-written half of a finding) |
| Orders.GiveOrder | Assets/Scripts/Managers/RTSInputManager.cs:184-192 | The loop body writes the order's type, its target position or target entity, and the time into the Command and enables it |
| Orders.Issue | Assets/Scripts/Managers/RTSInputManager.cs:178-197 | The issuing loop leaves the world equal to Issued: every reached unit given the order, every other entity untouched |
| Orders.CorrectedOrderIsCarriedOut | Assets/Scripts/Managers/RTSInputManager.cs:178-218 | With the enabled-state-ignoring query, every selected living player unit carries out each order on the next CommandSystem tick (corrected half of a finding) |
| Orders.CorrectedAgreesWhenEnabled | Assets/Scripts/Managers/RTSInputManager.cs:180-195 | On units whose Command is enabled the corrected loop does exactly what the written one does |
| Orders.IssueCorrected | Assets/Scripts/Managers/RTSInputManager.cs:178-197 | The corrected issuing loop leaves the world equal to IssuedCorrected |
| Picking.PickedUnitIsNearest | Assets/Scripts/Managers/RTSInputManager.cs:124-154 | The unit a left click picks is a living player unit strictly within 2 of the point, none is nearer, all visited before it are strictly farther, and Null exactly when there is none |
| Picking.PickedUnitFrame | Assets/Scripts/Managers/UnitSelectionSystem.cs:37-43 | The pick depends only on LocalTransform, PlayerUnitTag and DeadTag, so clearing the selection first does not change it |
| Picking.MarkSelected | Assets/Scripts/Managers/RTSInputManager.cs:146-151 | Selecting a unit sets SelectedTag and IsSelected and keeps its group id |
| Picking.UnitAtIsFirst | Assets/Scripts/Managers/UnitSelectionSystem.cs:120-137 | The unit at a point is the first hittable one in visiting order, and Null exactly when none is hittable |
| Picking.RightClickOrder | Assets/Scripts/Managers/RTSInputManager.cs:156-176 | A right click orders Attack on the hit unit exactly when it has a UnitType of a team other than 0, and a Move to the point otherwise; never Stop |
| RTSInputManager.ClearedDeselects | Assets/Scripts/Managers/RTSInputManager.cs:240-256 | After clearing, no player unit with a GroupComponent is selected by tag or flag, its group id and other components are kept, and other entities are untouched |
| RTSInputManager.ClearAllSelections | Assets/Scripts/Managers/RTSInputManager.cs:240-256 | The clearing loop leaves the world equal to Cleared |
| RTSInputManager.StartSelection | Assets/Scripts/Managers/RTSInputManager.cs:56-65 | Starting a drag clears the selection unless shift is held |
| RTSInputManager.FindClosestPlayerUnit | Assets/Scripts/Managers/RTSInputManager.cs:126-145 | The running-minimum scan returns PickedUnit |
| RTSInputManager.SelectUnitAtWorldPosition | Assets/Scripts/Managers/RTSInputManager.cs:124-154 | The picked unit, if any, is selected and nothing else changes |
| RTSInputManager.SelectionRectSpansCorners | Assets/Scripts/Managers/RTSInputManager.cs:450-458 | The rectangle has non-negative size, spans both corners horizontally and their flipped images vertically, and does not depend on which corner the drag began at |
| RTSInputManager.BoxSelectsInside | Assets/Scripts/Managers/RTSInputManager.cs:99-122 | Box selection selects exactly the player units with a group whose screen point lies in the rectangle, never deselects, and changes nothing else |
| RTSInputManager.BoxVisit | Assets/Scripts/Managers/RTSInputManager.cs:105-119 | The loop body selects the unit exactly as BoxOne does, and reports when it changed nothing |
| RTSInputManager.SelectUnitsInRect | Assets/Scripts/Managers/RTSInputManager.cs:99-122 | The box-selection loop leaves the world equal to BoxSelected |
| RTSInputManager.EndSelection | Assets/Scripts/Managers/RTSInputManager.cs:72-87 | A drag wider and taller than 5 box-selects; otherwise a click that hit the ground selects the unit there, and one that hit nothing changes nothing |
| RTSInputManager.IssueMoveCommand | Assets/Scripts/Managers/RTSInputManager.cs:178-197 | Every reached unit is given a Move to the destination at the current time |
| RTSInputManager.IssueAttackCommand | Assets/Scripts/Managers/RTSInputManager.cs:199-218 | Every reached unit is given an Attack on the target at the current time |
| RTSInputManager.IssueStopCommand | Assets/Scripts/Managers/RTSInputManager.cs:288-306 | Every reached unit is given a Stop at the current time |
| RTSInputManager.GetUnitAtWorldPosition | Assets/Scripts/Managers/RTSInputManager.cs:220-238 | Returns the first entity with a LocalTransform strictly within 2, dead or not, or Null |
| RTSInputManager.IssueCommand | Assets/Scripts/Managers/RTSInputManager.cs:156-176 | The right click issues Attack on the unit hit when its team is not 0, and Move to the point otherwise |
| RTSInputManager.NearestEnemyIsNearest | Assets/Scripts/Managers/RTSInputManager.cs:330-357 | The nearest enemy is a living unit of a team other than 0 with no range limit, none is nearer, and Null exactly when there is none |
| RTSInputManager.NearestEnemyFrame | Assets/Scripts/Managers/RTSInputManager.cs:335-352 | The enemy search reads only positions, teams and DeadTags |
| RTSInputManager.FindNearestEnemy | Assets/Scripts/Managers/RTSInputManager.cs:330-357 | The running-minimum scan returns NearestEnemy |
| RTSInputManager.AggressiveTargetsNearest | Assets/Scripts/Managers/RTSInputManager.cs:308-328 | Every selected player unit with an AttackRange targets its nearest living enemy when there is one and is left alone otherwise; only AttackRange changes, so later searches see the same world |
| RTSInputManager.AggressOneFrame | Assets/Scripts/Managers/RTSInputManager.cs:315-325 | Retargeting one unit depends on the rest of the world only through what the enemy search reads |
| RTSInputManager.AggressVisit | Assets/Scripts/Managers/RTSInputManager.cs:317-324 | The loop body retargets the unit exactly as AggressOne does |
| RTSInputManager.RetargetKeepsSightings | Assets/Scripts/Managers/RTSInputManager.cs:320-323 | Changing a unit's AttackRange leaves what the enemy search reads unchanged |
| RTSInputManager.SetAggressiveMode | Assets/Scripts/Managers/RTSInputManager.cs:308-328 | The loop leaves the world equal to Aggressive |
| RTSInputManager.HotkeyGroupIds | Assets/Scripts/Managers/RTSInputManager.cs:373-386 | The five hotkeys use the distinct group ids 11..15 |
| RTSInputManager.SavedGroupIsSelection | Assets/Scripts/Managers/RTSInputManager.cs:388-422 | After SaveGroup(n) a player unit with a group is in group n + 10 exactly when it is selected; unselected former members get id 0, other ids are kept, and only group ids change |
| RTSInputManager.UnassignGroup | Assets/Scripts/Managers/RTSInputManager.cs:390-406 | The first loop ungroups the player units of the group |
| RTSInputManager.AssignGroup | Assets/Scripts/Managers/RTSInputManager.cs:408-421 | The second loop puts every selected player unit in the group |
| RTSInputManager.SaveGroup | Assets/Scripts/Managers/RTSInputManager.cs:388-422 | The two loops together leave the world equal to Saved |
| RTSInputManager.SelectedGroupIsMembers | Assets/Scripts/Managers/RTSInputManager.cs:424-448 | After SelectGroup(n) a player unit with a group is selected, by tag and flag, exactly when it is living and in group n + 10; only the selection changes |
| RTSInputManager.SelectGroup | Assets/Scripts/Managers/RTSInputManager.cs:424-448 | Clearing then the member loop leaves the world equal to GroupSelected |
| UnitSelectionSystem.ClearedDeselects | Assets/Scripts/Managers/UnitSelectionSystem.cs:71-80 | After clearing, no player unit with a group is selected, a selected one has IsSelected false, group ids are kept and nothing else changes |
| UnitSelectionSystem.ClearAllSelections | Assets/Scripts/Managers/UnitSelectionSystem.cs:71-80 | The clearing loop leaves the world equal to Cleared |
| UnitSelectionSystem.TwoPassesPickNearest | Assets/Scripts/Managers/UnitSelectionSystem.cs:87-109 | Collecting the candidates and then taking the first of least distance picks the same unit at the same distance as the single running-minimum scan |
| UnitSelectionSystem.FindClosestPlayerUnit | Assets/Scripts/Managers/UnitSelectionSystem.cs:84-109 | The two loops return the specification PickedUnit |
| UnitSelectionSystem.SelectUnitAtPosition | Assets/Scripts/Managers/UnitSelectionSystem.cs:82-118 | The picked unit, if any, is selected and nothing else changes |
| UnitSelectionSystem.GetUnitAtPosition | Assets/Scripts/Managers/UnitSelectionSystem.cs:120-137 | Returns the first living entity with a LocalTransform strictly within 2, or Null |
| UnitSelectionSystem.HandleRightClick | Assets/Scripts/Managers/UnitSelectionSystem.cs:47-69 | The right click issues Attack on the living unit hit when its team is not 0, and Move to the point otherwise |
| UnitSelectionSystem.IssueMoveCommand | Assets/Scripts/Managers/UnitSelectionSystem.cs:139-151 | Every reached unit is given a Move to the destination at the current time |
| UnitSelectionSystem.IssueAttackCommand | Assets/Scripts/Managers/UnitSelectionSystem.cs:153-165 | Every reached unit is given an Attack on the target at the current time |
| UnitSelectionSystem.ClickSelectsAtMostOne | Assets/Scripts/Managers/UnitSelectionSystem.cs:30-45 | Without shift a left click leaves at most one player unit with a group selected, the picked one, which is always selected; with shift the earlier selection stays |
| UnitSelectionSystem.HandleUnitSelection | Assets/Scripts/Managers/UnitSelectionSystem.cs:30-45 | Clearing unless shift is held and then selecting leaves the world equal to AfterClick |
| GameStateManager.SpeedStaysInRange | Assets/Scripts/Managers/GameStateManager.cs:56-66 | Faster never exceeds 4 and Slower never goes below 0.25, a speed in [0.25, 4] stays there, and away from the bounds one step up and one down undo each other |
| GameStateManager.JudgeCases | Assets/Scripts/Managers/GameStateManager.cs:94-101 | Defeat exactly when no living team-0 unit remains (even when no team-1 unit does either); victory exactly when one does and no living team-1 unit does |
| GameStateManager.GameState.constructor | Assets/Scripts/Managers/GameStateManager.cs:8-15 | Not paused, speed 1, checks on, not ended |
| GameStateManager.GameState.TogglePause | Assets/Scripts/Managers/GameStateManager.cs:50-54 | Flips GamePaused |
| GameStateManager.GameState.IncreaseGameSpeed | Assets/Scripts/Managers/GameStateManager.cs:56-60 | Speed becomes min(speed * 1.5, 4) |
| GameStateManager.GameState.DecreaseGameSpeed | Assets/Scripts/Managers/GameStateManager.cs:62-66 | Speed becomes max(speed / 1.5, 0.25) |
| GameStateManager.GameState.HandleGameControls | Assets/Scripts/Managers/GameStateManager.cs:28-48 | Space toggles pause, Plus or Equals speeds up and otherwise Minus slows down; the time scale is 0 while paused and the speed otherwise, and a speed in [0.25, 4] stays there |
| GameStateManager.GameState.OnGameEnd | Assets/Scripts/Managers/GameStateManager.cs:104-114 | The game is ended and paused |
| GameStateManager.GameState.CheckGameState | Assets/Scripts/Managers/GameStateManager.cs:68-102 | Does nothing when checks are off or the game has ended; otherwise ends the game with the census verdict (defeat first, then victory) and otherwise changes nothing |
| GameStateManager.GameState.RestartGame | Assets/Scripts/Managers/GameStateManager.cs:122-139 | The flags are reset, every entity is destroyed, and the census then reads defeat (as-written half of a finding) |
| GameStateManager.GameState.RestartThenCheck | Assets/Scripts/Managers/GameStateManager.cs:122-139 | A restart followed by a check ends the new game at once in defeat (as-written half of a finding) |
| GameStateManager.GameState.RestartGameCorrected | Assets/Scripts/Managers/RTSGameManager.cs:26-41 | Restarting and spawning the initial units again leaves a game the census judges undecided (corrected half of a finding) |
| UnitCensus.CountTeamPositive | Assets/Scripts/Managers/GameStateManager.cs:77-91 | A team's count is positive exactly when some living unit of that team is in the world |
| UnitCensus.TeamsWithinLiving | Assets/Scripts/UI/RTSUIManager.cs:63-69 | The team-0 and team-1 counts together never exceed the number of living units |
| UnitCensus.CountByTeam | Assets/Scripts/Managers/GameStateManager.cs:85-91 | The counting loop returns the team-0 and team-1 counts of living units |
| MinimapSystem.WorldToMinimapScales | Assets/Scripts/Managers/MinimapSystem.cs:100-111 | World to minimap is the scaling of x and z by minimapSize / mapSize |
| MinimapSystem.MinimapToWorldScales | Assets/Scripts/Managers/MinimapSystem.cs:122-134 | Minimap to world is the scaling by mapSize / minimapSize, at height 0 |
| MinimapSystem.WorldRoundTrip | Assets/Scripts/Managers/MinimapSystem.cs:100-134 | World to minimap and back recovers x and z, at height 0 |
| MinimapSystem.MinimapRoundTrip | Assets/Scripts/Managers/MinimapSystem.cs:100-134 | Minimap to world and back is the identity |
| MinimapSystem.OriginIsCentre | Assets/Scripts/Managers/MinimapSystem.cs:102-110 | The world origin, at any height, is drawn at the minimap's centre |
| MinimapSystem.ClickCentresCamera | Assets/Scripts/Managers/MinimapSystem.cs:113-120 | Clicking where a world position is drawn puts the camera right above it at its own height |
| RTSUIManager.SelectedCount | Assets/Scripts/UI/RTSUIManager.cs:36-44 | The selected-unit count never exceeds the number of entities |
| RTSUIManager.ClearedShowsNoSelection | Assets/Scripts/UI/RTSUIManager.cs:36-44 | Right after RTSInputManager clears the selection, the readout is 0 |
| RTSUIManager.UpdateGameStats | Assets/Scripts/UI/RTSUIManager.cs:46-72 | Returns the census counts of living team-0 and team-1 units, which together never exceed the living units |
| RTSUIManager.BandThresholds | Assets/Scripts/UI/RTSUIManager.cs:124-133 | With a positive maximum the bar is green above 60% of it, yellow above 30% up to 60%, and red at or below 30%, exactly one of the three |
| RTSUIManager.BandMonotone | Assets/Scripts/UI/RTSUIManager.cs:128-133 | Less health never gives a greener bar |
| RTSUIManager.BarsAreIndexed | Assets/Scripts/UI/RTSUIManager.cs:84-97 | The bars are numbered 0, 1, 2, ..., each belongs to a selected living unit with health and position, every such unit has one, and over a query order without repeats no unit has two |
| RTSUIManager.UpdateHealthBars | Assets/Scripts/UI/RTSUIManager.cs:74-99 | The loop creates exactly the bars of Bars, in visiting order with a running index |
| RTSUIManager.CreateHealthBar | Assets/Scripts/UI/RTSUIManager.cs:101-135 | The bar sits 2 above the unit, its fill is current / max and its colour the band of that ratio |

## Left out

- Unity ECS runtime internals are not modelled: query matching beyond the component filters, chunking, `ScheduleParallel` and job dependencies, and the storage of enable masks. They are library code. Queries are modelled by their filters over a fixed visiting order.
- Playback of the entity command buffers is not modelled. It is library code, so the logs are only appended to, and each CreateEntity with its AddComponent calls is one Create request.
- Scheduling-only systems are not modelled: OptimizedMovementSystem, AdvancedAISystem, TargetFindingSystem and RTSBootstrap only copy arrays, schedule jobs or register systems. Their logic is in MovementJob and FindTargetsJob, which are modelled. The order of systems within a tick is left to the framework, so no tick-level composition is claimed beyond the two-system lemmas about ProjectileSystem followed by CollisionDetectionSystem (`CollisionDetectionSystem.DoubleHit`, `CollisionDetectionSystem.CorrectedDestroysOnce`, `CollisionDetectionSystem.CorrectedSingleHit`).
- Empty or unfinished code is not modelled: ChunkAttackJob (an empty loop and a throwing `Execute`), OptimizedAttackSystem (schedules that job), FindTargetJob (no search body), SelectionIndicatorSystem (empty) and PerformanceMonitorSystem (logging only).
- Rendering and visual sync are not modelled: UnitVisualManager, VisualEffectsManager, MinimapSystem's icon pooling in UpdateMinimap, and RTSUIManager's reuse and activation of bar objects. `RTSUIManager.CreateHealthBar` returns the bar's placement point, fill and colour instead of writing to a UI object.
- Editor and scene authoring code (RTSQuickSetup, UnitAuthoring) is not part of this model.
- Raw input and the camera are parameters, not modelled code. These are key and mouse polling, `Physics.Raycast`, `Camera.WorldToScreenPoint` and RTSCameraController. The resolved click point, shift state, pressed keys, screen height and world-to-screen function are passed in, so `HandleKeyboardInput` and the key-polling loop of `HandleGroupSelection` are left out. What they dispatch to is modelled, and `RTSInputManager.HotkeyGroupIds` states the hotkey-to-group mapping.
- `RTSInputManager.SpawnTestUnit` and RTSUIManager's four spawn buttons are not modelled separately. Each adds `RTSGameManager.SpawnPlayerUnit` at the player spawn point plus a random offset, and the offset is a parameter of that member.
- Randomness is taken as parameters: unit kinds, spawn offsets and the AI search interval. `UnitSpawnerSystem.CorrectedMatchesManager` requires the interval to lie in the source's range [0.8, 1.2].
- Floating point is not modelled: all arithmetic is on reals, so rounding, overflow to infinity and NaN are not captured. `sqrt` is avoided by comparing squared distances, `normalize` is a function parameter, and `quaternion.LookRotationSafe` is an opaque rotation.
- MinimapSystem.WorldToMinimapPosition and MinimapToWorldPosition require a non-zero map and minimap size. With size 0 the source divides by zero and produces infinities or NaN, which reals cannot represent. RTSUIManager's zero MaxHealth is modelled explicitly instead (fill None, colour from the sign of the health).
- Exceptions the source raises are not modelled as exceptions. An unguarded `GetComponent`, `GetComponentData` or `SetComponentData` on a missing component throws. The members doing so require the component to be present, for example `UnitSelectionSystem.SelectUnitAtPosition`, `RTSInputManager.SelectUnitAtWorldPosition`, `RTSInputManager.SetAggressiveMode`, AttackSystem's target read and FormationSystem's Movement read (`GetComponent<MovementComponent>(..).Speed`). FormationSystem's requirement, `FormationReadable`, asks it only of the selected units with a Move command, and only when more than one unit is selected, as the source reads it. The exception is UnitSpawnerSystem, whose throw on every non-player unit is one of the findings and is modelled as an outcome.
- `Debug.Log` messages and `ShowEndGameUI` (empty) are not modelled.
- `Pathfinding.waypointIndex` is a `nat`, while the source field is an `int`. The source only ever sets it to 0 or adds 1 to it, so it is never negative and nothing is lost.
- RTSGameManager.GetUnitStats: its own contract states only that every table entry is positive. The values per kind are the table itself, and `UnitSpawnerSystem.SameStatsTable` relates it to the spawner's copy.
- RTSUIManager.SelectedCount: its own contract states only the bound by the number of entities. What the count means after a clear is `RTSUIManager.ClearedShowsNoSelection`.
- GameStateManager.GameState.RestartGame: reactivating RTSGameManager (`enabled = false; enabled = true`) is modelled as doing nothing. That component has no OnEnable or OnDisable, and its Start runs once. This is the as-written half of a finding.

## Findings

| source | as written | input that shows it | evidently intended | confidence | as-written member | corrected member |
|---|---|---|---|---|---|---|
| Assets/Scripts/Managers/RTSInputManager.cs:180-195 | The order queries name CommandComponent, an enableable component, so they match only units whose Command is enabled; CommandSystem disables each Command it applies (Assets/Scripts/Systems/CommandSystem.cs:38), so a unit is never reached again; UnitSelectionSystem.cs:141-163 does the same | A selected player unit spawned with its Stop command, after one CommandSystem tick: every later Move, Attack or Stop leaves it unchanged and it never gets a destination or target | Every selected player unit gets each new order (a query that ignores the enable state) | medium, not executed | Orders.DisabledUnitIgnoresOrders, Orders.SpawnedPlayerUnitIgnoresOrders, Orders.Issue | Orders.IssueCorrected, Orders.CorrectedOrderIsCarriedOut, Orders.CorrectedAgreesWhenEnabled |
| Assets/Scripts/Systems/CollisionDetectionSystem.cs:37-54 | ProjectileSystem hits and destroys a projectile that reached its target (Assets/Scripts/Systems/ProjectileSystem.cs:32-53), and CollisionDetectionSystem scans the same projectile in the same frame, damages the unit again, creates a second Hit effect and destroys it again | A team-0 projectile (damage 10, speed 20 along x, lifetime 5) at the origin aimed at a team-1 unit at the origin with health 100, in a frame of 0.01: the projectile ends 0.2 from the unit, and after the two systems the unit has 80, with two destroys and two Hit effects queued | One impact per projectile: damage once, one Hit effect, one destroy | high, not executed | CollisionDetectionSystem.DoubleHit, CollisionDetectionSystem.DoubleHitExample | CollisionDetectionSystem.ScanUnlessDestroyed, CollisionDetectionSystem.CorrectedCollisionFold, CollisionDetectionSystem.CorrectedDestroysOnce, CollisionDetectionSystem.CorrectedSingleHit, CollisionDetectionSystem.CorrectedSingleHitExample |
| Assets/Scripts/Systems/UnitSpawnerSystem.cs:122 | SetComponentData(AIComponent) on an entity whose archetype has no AIComponent (Assets/Scripts/Systems/UnitSpawnerSystem.cs:13-57) throws, so every non-player spawn fails after its entity is created | SpawnUnitOptimized for any kind with isPlayer false | Add the AIComponent, giving the unit RTSGameManager's Aggressive AI | high, not executed | UnitSpawnerSystem.OptimizedOutcomes, UnitSpawnerSystem.SpawnUnitOptimized | UnitSpawnerSystem.CorrectedMatchesManager, UnitSpawnerSystem.SpawnUnitOptimizedCorrected |
| Assets/Scripts/Managers/GameStateManager.cs:128-138 | RestartGame destroys every entity and toggles RTSGameManager's `enabled`, which does not run its Start again, so no unit is spawned | RestartGame with victory checks on, then the next CheckGameState: it finds no team-0 unit and ends the new game in defeat | Respawn the initial units as RTSGameManager.Start does (Assets/Scripts/Managers/RTSGameManager.cs:26-41) | medium, not executed | GameStateManager.GameState.RestartThenCheck, GameStateManager.GameState.RestartGame | GameStateManager.GameState.RestartGameCorrected |
