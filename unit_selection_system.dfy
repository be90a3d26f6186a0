/**
 * UnitSelectionSystem: the ECS system's own handling of clicks, beside RTSInputManager's. A left
 * click clears the selection unless shift is held and then selects the nearest living player
 * unit within 2 of the ground point hit; a right click attacks the living unit hit there if it
 * belongs to a team other than 0, and moves to the point otherwise.
 */
module UnitSelectionSystem {
  import opened Options
  import opened Geometry
  import opened Components
  import opened Store
  import opened Nearest
  import opened Picking
  import AIBehaviorSystem
  import Orders

  /** ClearAllSelections on one entity: the query is PlayerUnitTag, SelectedTag and GroupComponent. */
  function ClearOne(d: EntityData): EntityData {
    if d.player && d.selected && d.group.Some? then d.(group := Some(d.group.value.(isSelected := false)), selected := false) else d
  }

  function Cleared(es: map<Entity, EntityData>): map<Entity, EntityData> {
    MapValues(es, ClearOne)
  }

  /**
   * After ClearAllSelections no player unit with a GroupComponent carries a SelectedTag; one
   * that did also has IsSelected cleared. Nothing else changes.
   */
  lemma ClearedDeselects(es: map<Entity, EntityData>, e: Entity)
    requires e in es
    ensures e in Cleared(es)
    ensures var d, r := es[e], Cleared(es)[e];
            && r == d.(group := r.group, selected := r.selected)
            && (d.player && d.group.Some? ==> !r.selected && r.group.Some? && r.group.value.groupId == d.group.value.groupId)
            && (d.player && d.group.Some? && d.selected ==> !r.group.value.isSelected)
            && (!(d.player && d.selected && d.group.Some?) ==> r == d)
  {
  }

  method ClearAllSelections(w: World)
    requires w.Valid()
    modifies w`entities
    ensures w.Valid()
    ensures w.entities == Cleared(old(w.entities))
  {
    var start := w.entities;
    var i := 0;
    while i < |w.order|
      invariant 0 <= i <= |w.order|
      invariant RewrittenBy(w.entities, start, w.order[..i], ClearOne)
    {
      var e := w.order[i];
      var d := start[e];
      if d.player && d.selected && d.group.Some? {
        var group := d.group.value.(isSelected := false);
        d := d.(group := Some(group));
        d := d.(selected := false);
        RewriteStep(w.entities, start, w.order, i, ClearOne);
        w.entities := w.entities[e := d];
      } else {
        RewriteSkip(w.entities, start, w.order, i, ClearOne);
      }
      i := i + 1;
    }
    assert w.order[..i] == w.order;
    RewriteDone(w.entities, start, w.order, ClearOne);
  }

  /** The first pass of SelectUnitAtPosition: every pickable unit with its distance, in visiting order. */
  function Candidates(es: map<Entity, EntityData>, order: seq<Entity>, point: Vec3): seq<(Entity, real)>
    decreases |order|
  {
    if order == [] then []
    else
      var e := order[|order| - 1];
      Candidates(es, order[..|order| - 1], point)
      + (if Pickable(es, e, point) then [(e, AIBehaviorSystem.DistanceTo(es, e, point))] else [])
  }

  /** The second pass: the first entry of strictly smallest distance. */
  function ListPick(list: seq<(Entity, real)>): Option<(Entity, real)>
    decreases |list|
  {
    if list == [] then None
    else
      var best := ListPick(list[..|list| - 1]);
      var c := list[|list| - 1];
      if best.None? || c.1 < best.value.1 then Some(c) else best
  }

  /**
   * The two passes pick the same unit, at the same distance, as the single running-minimum scan
   * RTSInputManager does.
   */
  lemma {:induction false} TwoPassesPickNearest(es: map<Entity, EntityData>, order: seq<Entity>, point: Vec3)
    ensures var flags, dists := PickFlags(es, order, point), AIBehaviorSystem.Distances(es, order, point);
            ListPick(Candidates(es, order, point)) ==
              match FirstNearest(flags, dists)
              case None => None
              case Some(k) => Some((order[k], dists[k]))
    decreases |order|
  {
    if order != [] {
      var n := |order| - 1;
      var flags, dists := PickFlags(es, order, point), AIBehaviorSystem.Distances(es, order, point);
      TwoPassesPickNearest(es, order[..n], point);
      assert PickFlags(es, order[..n], point) == flags[..n];
      assert AIBehaviorSystem.Distances(es, order[..n], point) == dists[..n];
      var b := FirstNearest(flags[..n], dists[..n]);
      if b.Some? {
        assert order[..n][b.value] == order[b.value] && dists[..n][b.value] == dists[b.value];
      }
      assert FirstNearest(flags, dists) == if flags[n] && (b.None? || dists[n] < dists[b.value]) then Some(n) else b;
      var list, prefix := Candidates(es, order, point), Candidates(es, order[..n], point);
      if Pickable(es, order[n], point) {
        assert list == prefix + [(order[n], dists[n])];
        assert list[..|list| - 1] == prefix;
        var p := ListPick(prefix);
        assert ListPick(list) == if p.None? || dists[n] < p.value.1 then Some((order[n], dists[n])) else p;
      } else {
        assert list == prefix;
      }
    }
  }

  /**
   * SelectUnitAtPosition. SystemAPI.GetComponent<GroupComponent> on the picked unit throws when
   * it has none, so the picked unit must carry one.
   */
  method SelectUnitAtPosition(w: World, position: Vec3)
    requires w.Valid()
    requires var u := PickedUnit(w.entities, w.order, position); u != Null ==> w.entities[u].group.Some?
    modifies w`entities
    ensures w.Valid()
    ensures w.entities == SelectedAt(old(w.entities), w.order, position)
  {
    var closestUnit := FindClosestPlayerUnit(w.entities, w.order, position);
    if closestUnit != Null {
      var d := w.entities[closestUnit];
      var group := d.group.value.(isSelected := true);
      d := d.(group := Some(group));
      d := d.(selected := true);
      w.entities := w.entities[closestUnit := d];
    }
  }

  /** The two loops of SelectUnitAtPosition. */
  method FindClosestPlayerUnit(es: map<Entity, EntityData>, order: seq<Entity>, position: Vec3) returns (closestUnit: Entity)
    requires Null !in es
    ensures closestUnit == PickedUnit(es, order, position)
  {
    var unitList: seq<(Entity, real)> := [];
    for i := 0 to |order|
      invariant unitList == Candidates(es, order[..i], position)
    {
      assert order[..i + 1][..i] == order[..i];
      var e := order[i];
      if e in es && es[e].transform.Some? && es[e].player && !es[e].dead {
        var distance := DistSq(position, es[e].transform.value.position);
        if StrictlyWithin(position, es[e].transform.value.position, 2.0) {
          unitList := unitList + [(e, distance)];
        }
      }
    }
    assert order[..|order|] == order;

    closestUnit := Null;
    var closestDistance: Option<real> := None;  // float.MaxValue
    for j := 0 to |unitList|
      invariant ListPick(unitList[..j]).None? ==> closestUnit == Null && closestDistance.None?
      invariant ListPick(unitList[..j]).Some? ==>
                  closestUnit == ListPick(unitList[..j]).value.0 && closestDistance == Some(ListPick(unitList[..j]).value.1)
    {
      assert unitList[..j + 1][..j] == unitList[..j];
      var (entity, distance) := unitList[j];
      if closestDistance.None? || distance < closestDistance.value {
        closestDistance := Some(distance);
        closestUnit := entity;
      }
    }
    assert unitList[..|unitList|] == unitList;
    TwoPassesPickNearest(es, order, position);
    PickedUnitIsNearest(es, order, position);
  }

  /** GetUnitAtPosition: the first living entity with a LocalTransform within 2. */
  method GetUnitAtPosition(es: map<Entity, EntityData>, order: seq<Entity>, position: Vec3) returns (foundUnit: Entity)
    ensures foundUnit == UnitAt(es, order, position, true)
  {
    foundUnit := Null;
    var i := 0;
    while i < |order|
      invariant 0 <= i <= |order|
      invariant UnitAt(es, order[i..], position, true) == UnitAt(es, order, position, true)
    {
      assert order[i..][1..] == order[i + 1..];
      var e := order[i];
      if e in es && es[e].transform.Some? && !es[e].dead {
        if StrictlyWithin(position, es[e].transform.value.position, 2.0) {
          foundUnit := e;
          break;
        }
      }
      i := i + 1;
    }
  }

  /** HandleRightClick, for a right click whose ray hit the ground at `point`. */
  method HandleRightClick(w: World, point: Vec3, now: real)
    requires w.Valid()
    modifies w`entities
    ensures w.Valid()
    ensures w.entities == Orders.Issued(old(w.entities), RightClickOrder(old(w.entities), UnitAt(old(w.entities), w.order, point, true), point), now)
  {
    var targetUnit := GetUnitAtPosition(w.entities, w.order, point);
    if targetUnit != Null && targetUnit in w.entities && w.entities[targetUnit].unitType.Some? {
      if w.entities[targetUnit].unitType.value.teamId != 0 {
        IssueAttackCommand(w, targetUnit, now);
        return;
      }
    }
    IssueMoveCommand(w, point, now);
  }

  method IssueMoveCommand(w: World, destination: Vec3, now: real)
    requires w.Valid()
    modifies w`entities
    ensures w.Valid()
    ensures w.entities == Orders.Issued(old(w.entities), Orders.MoveTo(destination), now)
  {
    Orders.Issue(w, Orders.MoveTo(destination), now);
  }

  method IssueAttackCommand(w: World, target: Entity, now: real)
    requires w.Valid()
    modifies w`entities
    ensures w.Valid()
    ensures w.entities == Orders.Issued(old(w.entities), Orders.AttackOn(target), now)
  {
    Orders.Issue(w, Orders.AttackOn(target), now);
  }

  /** What HandleUnitSelection leaves, for a left click whose ray hit the ground at `point`. */
  function AfterClick(es: map<Entity, EntityData>, order: seq<Entity>, shiftHeld: bool, point: Vec3): map<Entity, EntityData>
    requires var u := PickedUnit(es, order, point); u != Null ==> es[u].group.Some?
  {
    var base := if shiftHeld then es else Cleared(es);
    assert SamePickables(es, base);
    PickedUnitFrame(es, base, order, point);
    SelectedAt(base, order, point)
  }

  /**
   * Without shift a click leaves at most one player unit with a group selected: the unit it
   * picked, which is selected whenever there is one. With shift the earlier selection stays.
   */
  lemma ClickSelectsAtMostOne(es: map<Entity, EntityData>, order: seq<Entity>, shiftHeld: bool, point: Vec3)
    requires Null !in es
    requires var u := PickedUnit(es, order, point); u != Null ==> es[u].group.Some?
    ensures var r, u := AfterClick(es, order, shiftHeld, point), PickedUnit(es, order, point);
            && r.Keys == es.Keys
            && (u != Null ==> r[u].selected && r[u].group.value.isSelected)
            && (!shiftHeld ==> forall e :: e in r && r[e].player && r[e].group.Some? && r[e].selected ==> e == u)
            && (shiftHeld ==> forall e :: e in es && es[e].selected ==> r[e].selected)
  {
    var base := if shiftHeld then es else Cleared(es);
    assert SamePickables(es, base);
    PickedUnitFrame(es, base, order, point);
    if !shiftHeld {
      forall e | e in es
        ensures es[e].player && es[e].group.Some? ==> !base[e].selected
        ensures base[e].player == es[e].player && base[e].group.Some? == es[e].group.Some?
      {
        ClearedDeselects(es, e);
      }
    }
  }

  /** HandleUnitSelection, for a left click whose ray hit the ground at `point`. */
  method HandleUnitSelection(w: World, shiftHeld: bool, point: Vec3)
    requires w.Valid()
    requires var u := PickedUnit(w.entities, w.order, point); u != Null ==> w.entities[u].group.Some?
    modifies w`entities
    ensures w.Valid()
    ensures w.entities == AfterClick(old(w.entities), w.order, shiftHeld, point)
  {
    ghost var es := w.entities;
    if !shiftHeld {
      ClearAllSelections(w);
      assert SamePickables(es, w.entities);
      PickedUnitFrame(es, w.entities, w.order, point);
    }
    SelectUnitAtPosition(w, point);
  }
}
