/**
 * GameStateManager: pause and game speed, the once-a-second check for the end of the game, and
 * the restart. Speed steps by a factor of 1.5 and stays between 0.25 and 4; the time scale is 0
 * while paused. The game is lost when no living unit of team 0 remains (checked first) and won
 * when no living unit of team 1 does; once it has ended, and while checks are switched off, the
 * check does nothing.
 */
module GameStateManager {
  import opened Options
  import opened Geometry
  import opened Components
  import opened Store
  import opened UnitCensus
  import RTSGameManager

  const MinSpeed: real := 0.25
  const MaxSpeed: real := 4.0
  const SpeedFactor: real := 1.5

  /** IncreaseGameSpeed: Mathf.Min(speed * 1.5, 4). */
  function Faster(speed: real): real {
    if speed * SpeedFactor < MaxSpeed then speed * SpeedFactor else MaxSpeed
  }

  /** DecreaseGameSpeed: Mathf.Max(speed / 1.5, 0.25). */
  function Slower(speed: real): real {
    if speed / SpeedFactor > MinSpeed then speed / SpeedFactor else MinSpeed
  }

  /**
   * Increasing never goes above 4 and decreasing never below 0.25, whatever the speed was, so
   * a speed in [0.25, 4] stays there. Away from the bounds one step up and one step down undo
   * each other.
   */
  lemma SpeedStaysInRange(speed: real)
    ensures Faster(speed) <= MaxSpeed && Slower(speed) >= MinSpeed
    ensures MinSpeed <= speed <= MaxSpeed ==>
              MinSpeed <= Faster(speed) <= MaxSpeed && MinSpeed <= Slower(speed) <= MaxSpeed
    ensures MinSpeed <= speed && speed * SpeedFactor <= MaxSpeed ==> Slower(Faster(speed)) == speed
    ensures MinSpeed * SpeedFactor <= speed <= MaxSpeed ==> Faster(Slower(speed)) == speed
  {
  }

  datatype Outcome = Undecided | Victory | Defeat

  /** What CheckGameState concludes from the census: defeat first, then victory. */
  function Judge(es: map<Entity, EntityData>, order: seq<Entity>): Outcome {
    if CountTeam(es, order, PlayerTeam) == 0 then Defeat
    else if CountTeam(es, order, EnemyTeam) == 0 then Victory
    else Undecided
  }

  /**
   * The game is lost exactly when no living team-0 unit remains, even if no team-1 unit remains
   * either; it is won exactly when a team-0 unit but no team-1 unit remains.
   */
  lemma JudgeCases(es: map<Entity, EntityData>, order: seq<Entity>)
    ensures Judge(es, order) == Defeat <==>
              forall k :: 0 <= k < |order| && order[k] in es ==> !OnTeam(es[order[k]], PlayerTeam)
    ensures Judge(es, order) == Victory <==>
              && (exists k :: 0 <= k < |order| && order[k] in es && OnTeam(es[order[k]], PlayerTeam))
              && (forall k :: 0 <= k < |order| && order[k] in es ==> !OnTeam(es[order[k]], EnemyTeam))
  {
    CountTeamPositive(es, order, PlayerTeam);
    CountTeamPositive(es, order, EnemyTeam);
  }

  /** The argument OnGameEnd is called with (playerWon), or None when the game goes on. */
  function EndOf(o: Outcome): Option<bool> {
    match o
    case Undecided => None
    case Victory => Some(true)
    case Defeat => Some(false)
  }

  class GameState {
    var gamePaused: bool
    var gameSpeed: real
    var checkVictoryConditions: bool
    var gameEnded: bool

    constructor ()
      ensures !gamePaused && gameSpeed == 1.0 && checkVictoryConditions && !gameEnded
    {
      gamePaused := false;
      gameSpeed := 1.0;
      checkVictoryConditions := true;
      gameEnded := false;
    }

    method TogglePause()
      modifies this`gamePaused
      ensures gamePaused == !old(gamePaused)
    {
      gamePaused := !gamePaused;
    }

    method IncreaseGameSpeed()
      modifies this`gameSpeed
      ensures gameSpeed == Faster(old(gameSpeed))
    {
      gameSpeed := if gameSpeed * 1.5 < 4.0 then gameSpeed * 1.5 else 4.0;
    }

    method DecreaseGameSpeed()
      modifies this`gameSpeed
      ensures gameSpeed == Slower(old(gameSpeed))
    {
      gameSpeed := if gameSpeed / 1.5 > 0.25 then gameSpeed / 1.5 else 0.25;
    }

    /**
     * HandleGameControls with the keys pressed this frame: Space toggles pause, Plus or Equals
     * speeds up, otherwise Minus slows down; it returns Time.timeScale.
     */
    method HandleGameControls(spacePressed: bool, plusPressed: bool, minusPressed: bool) returns (timeScale: real)
      modifies this`gamePaused, this`gameSpeed
      ensures gamePaused == (old(gamePaused) != spacePressed)
      ensures gameSpeed == if plusPressed then Faster(old(gameSpeed)) else if minusPressed then Slower(old(gameSpeed)) else old(gameSpeed)
      ensures timeScale == if gamePaused then 0.0 else gameSpeed
      ensures MinSpeed <= old(gameSpeed) <= MaxSpeed ==> MinSpeed <= gameSpeed <= MaxSpeed
    {
      if spacePressed {
        TogglePause();
      }
      if plusPressed {
        IncreaseGameSpeed();
      } else if minusPressed {
        DecreaseGameSpeed();
      }
      SpeedStaysInRange(old(gameSpeed));
      timeScale := if gamePaused then 0.0 else gameSpeed;
    }

    method OnGameEnd(playerWon: bool)
      modifies this`gameEnded, this`gamePaused
      ensures gameEnded && gamePaused
    {
      gameEnded := true;
      gamePaused := true;
    }

    /**
     * CheckGameState, run once a second. It returns the argument it passed to OnGameEnd, if it
     * called it.
     */
    method CheckGameState(w: World) returns (ended: Option<bool>)
      requires w.Valid()
      modifies this`gameEnded, this`gamePaused
      ensures ended == if !checkVictoryConditions || old(gameEnded) then None else EndOf(Judge(w.entities, w.order))
      ensures gameEnded == (old(gameEnded) || ended.Some?)
      ensures gamePaused == (old(gamePaused) || ended.Some?)
    {
      if !checkVictoryConditions || gameEnded {
        return None;
      }
      var playerUnits, enemyUnits := CountByTeam(w.entities, w.order);
      if playerUnits == 0 {
        OnGameEnd(false);
        ended := Some(false);
      } else if enemyUnits == 0 {
        OnGameEnd(true);
        ended := Some(true);
      } else {
        ended := None;
      }
    }

    /**
     * RestartGame: the flags are reset and every entity destroyed. Toggling RTSGameManager's
     * `enabled` runs its OnDisable and OnEnable, neither of which it has; its Start, which
     * spawns the initial units, runs once in a component's life, so nothing is spawned again.
     */
    method RestartGame(w: World)
      requires w.Valid()
      modifies this`gameEnded, this`gamePaused, this`gameSpeed, w`entities, w`order
      ensures w.Valid()
      ensures !gameEnded && !gamePaused && gameSpeed == 1.0
      ensures w.entities == map[] && w.order == []
      ensures Judge(w.entities, w.order) == Defeat
    {
      gameEnded := false;
      gamePaused := false;
      gameSpeed := 1.0;
      w.DestroyAll();
    }

    /** The restart as written: the next check ends the restarted game at once, in defeat. */
    method RestartThenCheck(w: World) returns (ended: Option<bool>)
      requires w.Valid() && checkVictoryConditions
      modifies this`gameEnded, this`gamePaused, this`gameSpeed, w`entities, w`order
      ensures ended == Some(false) && gameEnded && gamePaused
    {
      RestartGame(w);
      ended := CheckGameState(w);
    }

    /**
     * The restart evidently intended: after clearing the world, spawn the initial units again,
     * as RTSGameManager.Start does. The offsets and kinds stand for its random draws.
     */
    method RestartGameCorrected(w: World, playerSpawnPoint: Vec3, enemySpawnPoint: Vec3,
                                playerKinds: seq<UnitKind>, playerOffsets: seq<Vec3>,
                                enemyKinds: seq<UnitKind>, enemyOffsets: seq<Vec3>)
      requires w.Valid()
      requires |playerKinds| == |playerOffsets| == RTSGameManager.InitialPlayerUnits
      requires |enemyKinds| == |enemyOffsets| == RTSGameManager.InitialEnemyUnits
      modifies this`gameEnded, this`gamePaused, this`gameSpeed, w`entities, w`order, w`nextId
      ensures w.Valid()
      ensures !gameEnded && !gamePaused && gameSpeed == 1.0
      ensures Judge(w.entities, w.order) == Undecided
    {
      gameEnded := false;
      gamePaused := false;
      gameSpeed := 1.0;
      w.DestroyAll();
      RTSGameManager.SpawnInitialUnits(w, playerSpawnPoint, enemySpawnPoint, playerKinds, playerOffsets, enemyKinds, enemyOffsets);
      RTSGameManager.NewUnitIsFresh(playerKinds[0], Add(playerSpawnPoint, playerOffsets[0]), PlayerTeam, true);
      RTSGameManager.NewUnitIsFresh(enemyKinds[0], Add(enemySpawnPoint, enemyOffsets[0]), EnemyTeam, false);
      assert OnTeam(w.entities[w.order[0]], PlayerTeam);
      assert OnTeam(w.entities[w.order[RTSGameManager.InitialPlayerUnits]], EnemyTeam);
      CountTeamPositive(w.entities, w.order, PlayerTeam);
      CountTeamPositive(w.entities, w.order, EnemyTeam);
    }
  }
}
