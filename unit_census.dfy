/**
 * The head-count that GameStateManager.CheckGameState and RTSUIManager.UpdateGameStats both
 * take: the query is UnitTypeComponent without DeadTag, a unit of team 0 counts as the
 * player's, one of team 1 as the enemy's, and a unit of any other team is not counted.
 */
module UnitCensus {
  import opened Options
  import opened Components
  import opened Store

  /** The census query: a UnitTypeComponent and no DeadTag. */
  predicate Living(d: EntityData) {
    d.unitType.Some? && !d.dead
  }

  predicate OnTeam(d: EntityData, team: int) {
    Living(d) && d.unitType.value.teamId == team
  }

  /** How many entities of `order` are living units of `team`. */
  function CountTeam(es: map<Entity, EntityData>, order: seq<Entity>, team: int): nat
    decreases |order|
  {
    if order == [] then 0
    else
      var e := order[|order| - 1];
      CountTeam(es, order[..|order| - 1], team) + (if e in es && OnTeam(es[e], team) then 1 else 0)
  }

  /** How many entities of `order` the census query matches at all. */
  function CountLiving(es: map<Entity, EntityData>, order: seq<Entity>): nat
    decreases |order|
  {
    if order == [] then 0
    else
      var e := order[|order| - 1];
      CountLiving(es, order[..|order| - 1]) + (if e in es && Living(es[e]) then 1 else 0)
  }

  /** A team has a living unit exactly when its count is positive. */
  lemma {:induction false} CountTeamPositive(es: map<Entity, EntityData>, order: seq<Entity>, team: int)
    ensures CountTeam(es, order, team) > 0 <==>
              exists k :: 0 <= k < |order| && order[k] in es && OnTeam(es[order[k]], team)
    decreases |order|
  {
    if order != [] {
      var n := |order| - 1;
      CountTeamPositive(es, order[..n], team);
      if CountTeam(es, order[..n], team) > 0 {
        var k :| 0 <= k < n && order[..n][k] in es && OnTeam(es[order[..n][k]], team);
        assert order[k] == order[..n][k];
      }
      if exists k :: 0 <= k < |order| && order[k] in es && OnTeam(es[order[k]], team) {
        var k :| 0 <= k < |order| && order[k] in es && OnTeam(es[order[k]], team);
        if k < n {
          assert order[..n][k] == order[k];
        }
      }
    }
  }

  /**
   * Team 0 and team 1 are counted separately and never together, and units of other teams
   * not at all, so the two counts add up to at most the number of living units.
   */
  lemma {:induction false} TeamsWithinLiving(es: map<Entity, EntityData>, order: seq<Entity>)
    ensures CountTeam(es, order, PlayerTeam) + CountTeam(es, order, EnemyTeam) <= CountLiving(es, order)
    decreases |order|
  {
    if order != [] {
      TeamsWithinLiving(es, order[..|order| - 1]);
    }
  }

  /** The counting loop both managers run over the census query. */
  method CountByTeam(es: map<Entity, EntityData>, order: seq<Entity>) returns (playerUnits: nat, enemyUnits: nat)
    requires forall k :: 0 <= k < |order| ==> order[k] in es
    ensures playerUnits == CountTeam(es, order, PlayerTeam)
    ensures enemyUnits == CountTeam(es, order, EnemyTeam)
  {
    playerUnits, enemyUnits := 0, 0;
    for i := 0 to |order|
      invariant playerUnits == CountTeam(es, order[..i], PlayerTeam)
      invariant enemyUnits == CountTeam(es, order[..i], EnemyTeam)
    {
      assert order[..i + 1][..i] == order[..i];
      var d := es[order[i]];
      if d.unitType.Some? && !d.dead {
        if d.unitType.value.teamId == 0 {
          playerUnits := playerUnits + 1;
        } else if d.unitType.value.teamId == 1 {
          enemyUnits := enemyUnits + 1;
        }
      }
    }
    assert order[..|order|] == order;
  }
}
