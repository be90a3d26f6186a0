/**
 * RTSUIManager's readouts, refreshed every 0.1 seconds: how many player units are selected,
 * how many living units each side has, and one health bar per selected living unit, coloured
 * green above 60% health, yellow above 30% and red otherwise.
 */
module RTSUIManager {
  import opened Options
  import opened Geometry
  import opened Components
  import opened Store
  import opened UnitCensus
  import RTSInputManager

  /** UpdateSelectedUnitsInfo's query: GroupComponent, SelectedTag, PlayerUnitTag. */
  predicate CountedSelected(d: EntityData) {
    d.group.Some? && d.selected && d.player
  }

  /** The selected-unit count (CalculateEntityCount), over the entities of `order`. */
  function SelectedCount(es: map<Entity, EntityData>, order: seq<Entity>): (r: nat)
    ensures r <= |order|
    decreases |order|
  {
    if order == [] then 0
    else
      var e := order[|order| - 1];
      SelectedCount(es, order[..|order| - 1]) + (if e in es && CountedSelected(es[e]) then 1 else 0)
  }

  /** Right after RTSInputManager clears the selection, the readout says 0. */
  lemma {:induction false} ClearedShowsNoSelection(es: map<Entity, EntityData>, order: seq<Entity>)
    requires forall k :: 0 <= k < |order| ==> order[k] in es
    ensures SelectedCount(RTSInputManager.Cleared(es), order) == 0
    decreases |order|
  {
    if order != [] {
      var n := |order| - 1;
      RTSInputManager.ClearedDeselects(es, order[n]);
      ClearedShowsNoSelection(es, order[..n]);
    }
  }

  /** UpdateGameStats: the same census as the end-of-game check. */
  method UpdateGameStats(w: World) returns (playerUnits: nat, enemyUnits: nat)
    requires w.Valid()
    ensures playerUnits == CountTeam(w.entities, w.order, PlayerTeam)
    ensures enemyUnits == CountTeam(w.entities, w.order, EnemyTeam)
    ensures playerUnits + enemyUnits <= CountLiving(w.entities, w.order)
  {
    playerUnits, enemyUnits := CountByTeam(w.entities, w.order);
    TeamsWithinLiving(w.entities, w.order);
  }

  datatype BarColor = Green | Yellow | Red

  /**
   * The bar colour for CurrentHealth / MaxHealth. With MaxHealth 0 the float division gives
   * +infinity for positive health (green) and NaN or -infinity otherwise (red).
   */
  function Band(h: Health): BarColor {
    if h.max == 0.0 then (if h.current > 0.0 then Green else Red)
    else
      var healthPercent := h.current / h.max;
      if healthPercent > 0.6 then Green else if healthPercent > 0.3 then Yellow else Red
  }

  /** With a positive maximum the bands are the health thresholds 60% and 30% of it. */
  lemma BandThresholds(h: Health)
    requires h.max > 0.0
    ensures Band(h) == Green <==> h.current > 0.6 * h.max
    ensures Band(h) == Yellow <==> 0.3 * h.max < h.current <= 0.6 * h.max
    ensures Band(h) == Red <==> h.current <= 0.3 * h.max
  {
    var p := h.current / h.max;
    assert p * h.max == h.current;
    ScaleKeepsOrder(p, 0.6, h.max);
    ScaleKeepsOrder(p, 0.3, h.max);
    assert p > 0.6 <==> h.current > 0.6 * h.max;
    assert p > 0.3 <==> h.current > 0.3 * h.max;
  }

  lemma ScaleKeepsOrder(p: real, t: real, m: real)
    requires m > 0.0
    ensures p > t <==> p * m > t * m
  {
    if p > t {
      assert (p - t) * m > 0.0;
    } else {
      assert (t - p) * m >= 0.0;
    }
  }

  function Rank(c: BarColor): nat {
    match c
    case Red => 0
    case Yellow => 1
    case Green => 2
  }

  /** Losing health never moves the bar towards green. */
  lemma BandMonotone(h1: Health, h2: Health)
    requires h1.max == h2.max && h1.max > 0.0 && h1.current <= h2.current
    ensures Rank(Band(h1)) <= Rank(Band(h2))
  {
    BandThresholds(h1);
    BandThresholds(h2);
  }

  /** UpdateHealthBars' query: HealthComponent, LocalTransform, SelectedTag and no DeadTag. */
  predicate ShowsBar(es: map<Entity, EntityData>, e: Entity) {
    e in es && es[e].health.Some? && es[e].transform.Some? && es[e].selected && !es[e].dead
  }

  /**
   * One CreateHealthBar call: the unit, the point two units above it that the bar is placed
   * at, the fill (None where the float division is not finite) and colour, and the bar's index.
   */
  datatype HealthBar = HealthBar(entity: Entity, anchor: Vec3, fill: Option<real>, color: BarColor, index: nat)

  function BarFor(es: map<Entity, EntityData>, e: Entity, index: nat): HealthBar
    requires ShowsBar(es, e)
  {
    var h := es[e].health.value;
    HealthBar(e, Add(PositionOf(es[e]), Vec3(0.0, 2.0, 0.0)),
              if h.max == 0.0 then None else Some(h.current / h.max), Band(h), index)
  }

  /** The bars UpdateHealthBars creates, in visiting order. */
  function Bars(es: map<Entity, EntityData>, order: seq<Entity>): seq<HealthBar>
    decreases |order|
  {
    if order == [] then []
    else
      var e := order[|order| - 1];
      var before := Bars(es, order[..|order| - 1]);
      before + (if ShowsBar(es, e) then [BarFor(es, e, |before|)] else [])
  }

  /**
   * The bars are numbered 0, 1, 2, ... in order; each belongs to a selected living unit of the
   * query, every such unit has one, and, as no entity is visited twice, no unit has two.
   */
  lemma {:induction false} BarsAreIndexed(es: map<Entity, EntityData>, order: seq<Entity>)
    ensures forall k :: 0 <= k < |Bars(es, order)| ==>
              var b := Bars(es, order)[k];
              b.index == k && b.entity in order && ShowsBar(es, b.entity) && b == BarFor(es, b.entity, k)
    ensures forall e :: e in order && ShowsBar(es, e) ==> exists k :: 0 <= k < |Bars(es, order)| && Bars(es, order)[k].entity == e
    ensures Distinct(order) ==>
              forall i, j :: 0 <= i < j < |Bars(es, order)| ==> Bars(es, order)[i].entity != Bars(es, order)[j].entity
    decreases |order|
  {
    if order != [] {
      var n := |order| - 1;
      var before := Bars(es, order[..n]);
      BarsAreIndexed(es, order[..n]);
      var bars := Bars(es, order);
      assert forall k :: 0 <= k < |before| ==> bars[k] == before[k];
      if Distinct(order) {
        assert Distinct(order[..n]);
        forall i, j | 0 <= i < j < |bars|
          ensures bars[i].entity != bars[j].entity
        {
          if j == |before| {
            assert bars[j].entity == order[n];
            var m :| 0 <= m < n && order[..n][m] == bars[i].entity;
            assert order[m] == bars[i].entity;
          }
        }
      }
      forall e | e in order && ShowsBar(es, e)
        ensures exists k :: 0 <= k < |bars| && bars[k].entity == e
      {
        if e == order[n] {
          assert bars[|before|].entity == e;
        } else {
          var i :| 0 <= i < |order| && order[i] == e;
          assert order[..n][i] == e;
          var k :| 0 <= k < |before| && before[k].entity == e;
          assert bars[k].entity == e;
        }
      }
    }
  }

  /** UpdateHealthBars: one CreateHealthBar call per unit of the query, with a running index. */
  method UpdateHealthBars(w: World) returns (bars: seq<HealthBar>)
    requires w.Valid()
    ensures bars == Bars(w.entities, w.order)
  {
    bars := [];
    var healthBarIndex := 0;
    for i := 0 to |w.order|
      invariant bars == Bars(w.entities, w.order[..i])
      invariant healthBarIndex == |bars|
    {
      assert w.order[..i + 1][..i] == w.order[..i];
      var e := w.order[i];
      var d := w.entities[e];
      if d.health.Some? && d.transform.Some? && d.selected && !d.dead {
        var bar := CreateHealthBar(d.transform.value.position, d.health.value, healthBarIndex);
        bars := bars + [bar.(entity := e)];
        healthBarIndex := healthBarIndex + 1;
      }
    }
    assert w.order[..|w.order|] == w.order;
  }

  /** CreateHealthBar: the bar's placement point, fill and colour (the entity is filled in by the caller). */
  method CreateHealthBar(worldPosition: Vec3, health: Health, index: nat) returns (bar: HealthBar)
    ensures bar.anchor == Add(worldPosition, Vec3(0.0, 2.0, 0.0)) && bar.index == index
    ensures bar.color == Band(health)
    ensures bar.fill == if health.max == 0.0 then None else Some(health.current / health.max)
  {
    var fill: Option<real> := None;
    var color := Red;
    if health.max != 0.0 {
      var healthPercent := health.current / health.max;
      fill := Some(healthPercent);
      if healthPercent > 0.6 {
        color := Green;
      } else if healthPercent > 0.3 {
        color := Yellow;
      }
    } else if health.current > 0.0 {
      color := Green;
    }
    bar := HealthBar(Null, Add(worldPosition, Vec3(0.0, 2.0, 0.0)), fill, color, index);
  }
}
