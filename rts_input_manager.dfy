/**
 * RTSInputManager: what the player's mouse and keyboard do to the units, with the input already
 * resolved. A drag wider and taller than 5 pixels box-selects the player units whose screen
 * position falls inside it; a click selects the nearest player unit within 2 of the ground point
 * hit; a right click attacks an enemy unit hit there or moves to the point; S stops; A points
 * every selected unit at its nearest enemy; Ctrl+1..5 saves the selection as group 11..15 and
 * 1..5 selects that group.
 */
module RTSInputManager {
  import opened Options
  import opened Geometry
  import opened Components
  import opened Store
  import opened Nearest
  import opened Picking
  import AIBehaviorSystem
  import Orders

  // ---------------------------------------------------------------- selection

  /** ClearAllSelections on one entity: the query is GroupComponent and PlayerUnitTag. */
  function ClearOne(d: EntityData): EntityData {
    if d.group.Some? && d.player then d.(group := Some(d.group.value.(isSelected := false)), selected := false) else d
  }

  function Cleared(es: map<Entity, EntityData>): map<Entity, EntityData> {
    MapValues(es, ClearOne)
  }

  /**
   * After ClearAllSelections no player unit with a GroupComponent is selected, by tag or by
   * flag; its group id and every other component are kept, and other entities are untouched.
   */
  lemma ClearedDeselects(es: map<Entity, EntityData>, e: Entity)
    requires e in es
    ensures e in Cleared(es)
    ensures var d, r := es[e], Cleared(es)[e];
            && r == d.(group := r.group, selected := r.selected)
            && (d.group.Some? && d.player ==>
                  !r.selected && r.group.Some? && !r.group.value.isSelected && r.group.value.groupId == d.group.value.groupId)
            && (!(d.group.Some? && d.player) ==> r == d)
  {
  }

  method ClearAllSelections(w: World)
    requires w.Valid()
    modifies w`entities
    ensures w.Valid()
    ensures w.entities == Cleared(old(w.entities))
  {
    var groups := w.entities;
    var i := 0;
    while i < |w.order|
      invariant 0 <= i <= |w.order|
      invariant RewrittenBy(w.entities, groups, w.order[..i], ClearOne)
    {
      var e := w.order[i];
      var d := groups[e];
      if d.group.Some? && d.player {
        var group := d.group.value.(isSelected := false);
        d := d.(group := Some(group));
        d := d.(selected := false);
        RewriteStep(w.entities, groups, w.order, i, ClearOne);
        w.entities := w.entities[e := d];
      } else {
        RewriteSkip(w.entities, groups, w.order, i, ClearOne);
      }
      i := i + 1;
    }
    assert w.order[..i] == w.order;
    RewriteDone(w.entities, groups, w.order, ClearOne);
  }

  /** StartSelection: unless shift is held, a new drag first clears the selection. */
  method StartSelection(w: World, shiftHeld: bool)
    requires w.Valid()
    modifies w`entities
    ensures w.Valid()
    ensures w.entities == if shiftHeld then old(w.entities) else Cleared(old(w.entities))
  {
    if !shiftHeld {
      ClearAllSelections(w);
    }
  }

  /** SelectUnitAtWorldPosition's scan for the closest living player unit within 2. */
  method FindClosestPlayerUnit(es: map<Entity, EntityData>, order: seq<Entity>, worldPos: Vec3) returns (closestUnit: Entity)
    requires forall k :: 0 <= k < |order| ==> order[k] in es
    ensures closestUnit == PickedUnit(es, order, worldPos)
  {
    ghost var flags, dists := PickFlags(es, order, worldPos), AIBehaviorSystem.Distances(es, order, worldPos);
    ghost var best: Option<nat> := None;
    closestUnit := Null;
    var closestDistance: Option<real> := None;  // float.MaxValue
    for i := 0 to |order|
      invariant best == FirstNearest(flags[..i], dists[..i])
      invariant best.None? ==> closestUnit == Null && closestDistance.None?
      invariant best.Some? ==> best.value < i && closestUnit == order[best.value] && closestDistance == Some(dists[best.value])
    {
      assert flags[..i + 1][..i] == flags[..i] && dists[..i + 1][..i] == dists[..i];
      var d := es[order[i]];
      if d.transform.Some? && d.player {
        if d.dead {
          continue;
        }
        var distance := DistSq(worldPos, d.transform.value.position);
        if StrictlyWithin(worldPos, d.transform.value.position, 2.0)
           && (closestDistance.None? || distance < closestDistance.value) {
          closestDistance := Some(distance);
          closestUnit := order[i];
          best := Some(i);
        }
      }
    }
    assert flags[..|order|] == flags && dists[..|order|] == dists;
  }

  /**
   * SelectUnitAtWorldPosition. GetComponentData<GroupComponent> on the picked unit throws when it
   * has none, so the picked unit must carry one.
   */
  method SelectUnitAtWorldPosition(w: World, worldPos: Vec3)
    requires w.Valid()
    requires var u := PickedUnit(w.entities, w.order, worldPos); u != Null ==> w.entities[u].group.Some?
    modifies w`entities
    ensures w.Valid()
    ensures w.entities == SelectedAt(old(w.entities), w.order, worldPos)
  {
    var closestUnit := FindClosestPlayerUnit(w.entities, w.order, worldPos);
    if closestUnit != Null {
      var d := w.entities[closestUnit];
      var group := d.group.value.(isSelected := true);
      d := d.(group := Some(group));
      d := d.(selected := true);
      w.entities := w.entities[closestUnit := d];
    }
  }

  /** Box selection's screen rectangle; y is flipped against the screen height. */
  datatype Rect = Rect(x: real, y: real, width: real, height: real)

  function Min(a: real, b: real): real { if a <= b then a else b }

  function Abs(a: real): real { if a < 0.0 then -a else a }

  function GetSelectionRect(start: Vec3, end: Vec3, screenHeight: real): Rect {
    var minX, minY := Min(start.x, end.x), Min(start.y, end.y);
    var width, height := Abs(start.x - end.x), Abs(start.y - end.y);
    Rect(minX, screenHeight - minY - height, width, height)
  }

  /**
   * The rectangle spans exactly the two corners horizontally and their mirror images against the
   * screen height vertically, so its size is never negative, and it does not matter which
   * corner the drag started from.
   */
  lemma SelectionRectSpansCorners(start: Vec3, end: Vec3, screenHeight: real)
    ensures var r := GetSelectionRect(start, end, screenHeight);
            && r.width >= 0.0 && r.height >= 0.0
            && (r.x == start.x || r.x == end.x) && r.x <= start.x && r.x <= end.x
            && (r.x + r.width == start.x || r.x + r.width == end.x) && r.x + r.width >= start.x && r.x + r.width >= end.x
            && (r.y == screenHeight - start.y || r.y == screenHeight - end.y)
            && r.y <= screenHeight - start.y && r.y <= screenHeight - end.y
            && r.y + r.height >= screenHeight - start.y && r.y + r.height >= screenHeight - end.y
            && r == GetSelectionRect(end, start, screenHeight)
  {
  }

  /** EndSelection box-selects only when the drag is more than 5 pixels in both directions. */
  predicate IsBoxSelection(r: Rect) {
    r.width > 5.0 && r.height > 5.0
  }

  /** Rect.Contains: the left and top edges are inside, the right and bottom edges are not. */
  predicate Contains(r: Rect, p: Vec3) {
    r.x <= p.x < r.x + r.width && r.y <= p.y < r.y + r.height
  }

  /** The screen point of a world position, with y flipped against the screen height. */
  function ScreenPoint(toScreen: Vec3 -> Vec3, position: Vec3, screenHeight: real): Vec3 {
    var s := toScreen(position);
    s.(y := screenHeight - s.y)
  }

  /** SelectUnitsInRect on one entity: the query is LocalTransform, GroupComponent and PlayerUnitTag. */
  function BoxOne(d: EntityData, r: Rect, toScreen: Vec3 -> Vec3, screenHeight: real): EntityData {
    if d.transform.Some? && d.group.Some? && d.player && Contains(r, ScreenPoint(toScreen, PositionOf(d), screenHeight))
    then MarkSelected(d) else d
  }

  function BoxFn(r: Rect, toScreen: Vec3 -> Vec3, screenHeight: real): EntityData -> EntityData {
    (d: EntityData) => BoxOne(d, r, toScreen, screenHeight)
  }

  function BoxSelected(es: map<Entity, EntityData>, r: Rect, toScreen: Vec3 -> Vec3, screenHeight: real): map<Entity, EntityData> {
    MapValues(es, BoxFn(r, toScreen, screenHeight))
  }

  /**
   * Box selection adds exactly the player units with a group whose screen point lies in the
   * rectangle; it never deselects anything and leaves group ids and other entities alone.
   */
  lemma BoxSelectsInside(es: map<Entity, EntityData>, r: Rect, toScreen: Vec3 -> Vec3, screenHeight: real, e: Entity)
    requires e in es
    ensures e in BoxSelected(es, r, toScreen, screenHeight)
    ensures var d, n := es[e], BoxSelected(es, r, toScreen, screenHeight)[e];
            && n == d.(group := n.group, selected := n.selected)
            && (d.selected ==> n.selected)
            && (d.transform.Some? && d.group.Some? && d.player ==>
                  n.group.Some? && n.group.value.groupId == d.group.value.groupId
                  && (Contains(r, ScreenPoint(toScreen, PositionOf(d), screenHeight)) ==> n.selected && n.group.value.isSelected)
                  && (!Contains(r, ScreenPoint(toScreen, PositionOf(d), screenHeight)) ==> n == d))
            && (!(d.transform.Some? && d.group.Some? && d.player) ==> n == d)
  {
  }

  /** The body of SelectUnitsInRect's loop: whether the unit is inside, and the unit selected. */
  method BoxVisit(d: EntityData, r: Rect, toScreen: Vec3 -> Vec3, screenHeight: real) returns (n: EntityData, inside: bool)
    ensures n == BoxOne(d, r, toScreen, screenHeight)
    ensures !inside ==> n == d
  {
    n, inside := d, false;
    if d.transform.Some? && d.group.Some? && d.player {
      var screenPos := toScreen(d.transform.value.position);
      screenPos := screenPos.(y := screenHeight - screenPos.y);
      if Contains(r, screenPos) {
        var group := d.group.value.(isSelected := true);
        n := n.(group := Some(group));
        n := n.(selected := true);
        inside := true;
      }
    }
  }

  /** SelectUnitsInRect; `toScreen` is the camera's WorldToScreenPoint. */
  method SelectUnitsInRect(w: World, r: Rect, toScreen: Vec3 -> Vec3, screenHeight: real)
    requires w.Valid()
    modifies w`entities
    ensures w.Valid()
    ensures w.entities == BoxSelected(old(w.entities), r, toScreen, screenHeight)
  {
    var groups := w.entities;
    ghost var f := BoxFn(r, toScreen, screenHeight);
    var i := 0;
    while i < |w.order|
      invariant 0 <= i <= |w.order|
      invariant RewrittenBy(w.entities, groups, w.order[..i], f)
    {
      var e := w.order[i];
      var d, inside := BoxVisit(groups[e], r, toScreen, screenHeight);
      if inside {
        RewriteStep(w.entities, groups, w.order, i, f);
        w.entities := w.entities[e := d];
      } else {
        RewriteSkip(w.entities, groups, w.order, i, f);
      }
      i := i + 1;
    }
    assert w.order[..i] == w.order;
    RewriteDone(w.entities, groups, w.order, f);
  }

  /**
   * EndSelection: a large enough drag box-selects; otherwise a click that hit the ground at
   * `hit` selects the unit there, and one that hit nothing does nothing.
   */
  method EndSelection(w: World, start: Vec3, end: Vec3, screenHeight: real, toScreen: Vec3 -> Vec3, hit: Option<Vec3>)
    requires w.Valid()
    requires hit.Some? ==> var u := PickedUnit(w.entities, w.order, hit.value); u != Null ==> w.entities[u].group.Some?
    modifies w`entities
    ensures w.Valid()
    ensures var r := GetSelectionRect(start, end, screenHeight);
            w.entities == if IsBoxSelection(r) then BoxSelected(old(w.entities), r, toScreen, screenHeight)
                          else if hit.Some? then SelectedAt(old(w.entities), w.order, hit.value)
                          else old(w.entities)
  {
    var selectionRect := GetSelectionRect(start, end, screenHeight);
    if selectionRect.width > 5.0 && selectionRect.height > 5.0 {
      SelectUnitsInRect(w, selectionRect, toScreen, screenHeight);
    } else if hit.Some? {
      SelectUnitAtWorldPosition(w, hit.value);
    }
  }

  // ---------------------------------------------------------------- commands

  method IssueMoveCommand(w: World, destination: Vec3, now: real)
    requires w.Valid()
    modifies w`entities
    ensures w.Valid()
    ensures w.entities == Orders.Issued(old(w.entities), Orders.MoveTo(destination), now)
  {
    Orders.Issue(w, Orders.MoveTo(destination), now);
  }

  method IssueAttackCommand(w: World, target: Entity, now: real)
    requires w.Valid()
    modifies w`entities
    ensures w.Valid()
    ensures w.entities == Orders.Issued(old(w.entities), Orders.AttackOn(target), now)
  {
    Orders.Issue(w, Orders.AttackOn(target), now);
  }

  method IssueStopCommand(w: World, now: real)
    requires w.Valid()
    modifies w`entities
    ensures w.Valid()
    ensures w.entities == Orders.Issued(old(w.entities), Orders.Halt, now)
  {
    Orders.Issue(w, Orders.Halt, now);
  }

  /** GetUnitAtWorldPosition: the first entity with a LocalTransform within 2, dead or not. */
  method GetUnitAtWorldPosition(es: map<Entity, EntityData>, order: seq<Entity>, worldPos: Vec3) returns (unit: Entity)
    ensures unit == UnitAt(es, order, worldPos, false)
  {
    for i := 0 to |order|
      invariant UnitAt(es, order[i..], worldPos, false) == UnitAt(es, order, worldPos, false)
    {
      assert order[i..][1..] == order[i + 1..];
      var e := order[i];
      if e in es && es[e].transform.Some? {
        if StrictlyWithin(worldPos, es[e].transform.value.position, 2.0) {
          return e;
        }
      }
    }
    return Null;
  }

  /** IssueCommand, for a right click whose ray hit the ground at `point`. */
  method IssueCommand(w: World, point: Vec3, now: real)
    requires w.Valid()
    modifies w`entities
    ensures w.Valid()
    ensures w.entities == Orders.Issued(old(w.entities), RightClickOrder(old(w.entities), UnitAt(old(w.entities), w.order, point, false), point), now)
  {
    var targetUnit := GetUnitAtWorldPosition(w.entities, w.order, point);
    if targetUnit != Null && targetUnit in w.entities && w.entities[targetUnit].unitType.Some? {
      if w.entities[targetUnit].unitType.value.teamId != 0 {
        IssueAttackCommand(w, targetUnit, now);
        return;
      }
    }
    IssueMoveCommand(w, point, now);
  }

  // ---------------------------------------------------------------- aggressive mode

  /** FindNearestEnemy's candidates: LocalTransform and UnitType of a team other than 0, no DeadTag. */
  predicate IsEnemy(es: map<Entity, EntityData>, e: Entity) {
    e in es && es[e].transform.Some? && es[e].unitType.Some? && es[e].unitType.value.teamId != 0 && !es[e].dead
  }

  function EnemyFlags(es: map<Entity, EntityData>, order: seq<Entity>): (r: seq<bool>)
    ensures |r| == |order|
    ensures forall k :: 0 <= k < |order| ==> r[k] == IsEnemy(es, order[k])
  {
    seq(|order|, k requires 0 <= k < |order| => IsEnemy(es, order[k]))
  }

  /** The entity FindNearestEnemy returns. */
  function NearestEnemy(es: map<Entity, EntityData>, order: seq<Entity>, position: Vec3): Entity {
    match FirstNearest(EnemyFlags(es, order), AIBehaviorSystem.Distances(es, order, position))
    case None => Null
    case Some(k) => order[k]
  }

  /**
   * The nearest enemy is a living unit of a team other than 0, at any distance; none is nearer,
   * and Null is returned exactly when there is no such unit.
   */
  lemma NearestEnemyIsNearest(es: map<Entity, EntityData>, order: seq<Entity>, position: Vec3)
    requires Null !in es
    ensures var r := NearestEnemy(es, order, position);
            && (r == Null <==> forall k :: 0 <= k < |order| ==> !IsEnemy(es, order[k]))
            && (r != Null ==>
                  && IsEnemy(es, r)
                  && forall k :: 0 <= k < |order| && IsEnemy(es, order[k]) ==>
                       AIBehaviorSystem.DistanceTo(es, r, position) <= AIBehaviorSystem.DistanceTo(es, order[k], position))
  {
    FirstNearestIsNearest(EnemyFlags(es, order), AIBehaviorSystem.Distances(es, order, position));
  }

  lemma NearestEnemyFrame(a: map<Entity, EntityData>, b: map<Entity, EntityData>, order: seq<Entity>, position: Vec3)
    requires AIBehaviorSystem.SameSightings(a, b)
    ensures NearestEnemy(a, order, position) == NearestEnemy(b, order, position)
  {
    assert EnemyFlags(a, order) == EnemyFlags(b, order);
    assert AIBehaviorSystem.Distances(a, order, position) == AIBehaviorSystem.Distances(b, order, position);
  }

  method FindNearestEnemy(es: map<Entity, EntityData>, order: seq<Entity>, position: Vec3) returns (nearest: Entity)
    requires forall k :: 0 <= k < |order| ==> order[k] in es
    ensures nearest == NearestEnemy(es, order, position)
  {
    ghost var flags, dists := EnemyFlags(es, order), AIBehaviorSystem.Distances(es, order, position);
    ghost var best: Option<nat> := None;
    nearest := Null;
    var nearestDistance: Option<real> := None;  // float.MaxValue
    for i := 0 to |order|
      invariant best == FirstNearest(flags[..i], dists[..i])
      invariant best.None? ==> nearest == Null && nearestDistance.None?
      invariant best.Some? ==> best.value < i && nearest == order[best.value] && nearestDistance == Some(dists[best.value])
    {
      assert flags[..i + 1][..i] == flags[..i] && dists[..i + 1][..i] == dists[..i];
      var d := es[order[i]];
      if d.transform.Some? && d.unitType.Some? {
        if d.unitType.value.teamId == 0 {
          continue;
        }
        if d.dead {
          continue;
        }
        var distance := DistSq(position, d.transform.value.position);
        if nearestDistance.None? || distance < nearestDistance.value {
          nearestDistance := Some(distance);
          nearest := order[i];
          best := Some(i);
        }
      }
    }
    assert flags[..|order|] == flags && dists[..|order|] == dists;
  }

  /** SetAggressiveMode's query: AttackRange, SelectedTag, PlayerUnitTag. */
  predicate Aggressing(d: EntityData) {
    d.attackRange.Some? && d.selected && d.player
  }

  /** SetAggressiveMode on one unit, with the world `es` as it stands. */
  function AggressOne(es: map<Entity, EntityData>, order: seq<Entity>, d: EntityData): EntityData
    requires Aggressing(d) ==> d.transform.Some?
  {
    if Aggressing(d) && NearestEnemy(es, order, PositionOf(d)) != Null
    then d.(attackRange := Some(d.attackRange.value.(target := NearestEnemy(es, order, PositionOf(d)), hasTarget := true)))
    else d
  }

  /** GetComponentData<LocalTransform> on every unit of the query throws unless each has one. */
  predicate AggressorsPlaced(es: map<Entity, EntityData>) {
    forall e :: e in es && Aggressing(es[e]) ==> es[e].transform.Some?
  }

  function AggressFn(es: map<Entity, EntityData>, order: seq<Entity>): EntityData -> EntityData {
    (d: EntityData) => if Aggressing(d) ==> d.transform.Some? then AggressOne(es, order, d) else d
  }

  function Aggressive(es: map<Entity, EntityData>, order: seq<Entity>): map<Entity, EntityData> {
    MapValues(es, AggressFn(es, order))
  }

  /**
   * Every selected player unit with an AttackRange targets its nearest living enemy when there
   * is one and keeps its attack range otherwise; nothing else changes, so what the search reads
   * stays as it was.
   */
  lemma AggressiveTargetsNearest(es: map<Entity, EntityData>, order: seq<Entity>, e: Entity)
    requires Null !in es && e in es && AggressorsPlaced(es)
    ensures e in Aggressive(es, order)
    ensures var d, r := es[e], Aggressive(es, order)[e];
            && r == d.(attackRange := r.attackRange)
            && (Aggressing(d) && NearestEnemy(es, order, PositionOf(d)) != Null ==>
                  var n := NearestEnemy(es, order, PositionOf(d));
                  && IsEnemy(es, n)
                  && r.attackRange == Some(d.attackRange.value.(target := n, hasTarget := true)))
            && (!Aggressing(d) || NearestEnemy(es, order, PositionOf(d)) == Null ==> r == d)
    ensures AIBehaviorSystem.SameSightings(es, Aggressive(es, order))
  {
    if Aggressing(es[e]) {
      NearestEnemyIsNearest(es, order, PositionOf(es[e]));
    }
  }

  /** AggressOne reads of the world only what the enemy search reads. */
  lemma AggressOneFrame(a: map<Entity, EntityData>, b: map<Entity, EntityData>, order: seq<Entity>, d: EntityData)
    requires AIBehaviorSystem.SameSightings(a, b)
    requires Aggressing(d) ==> d.transform.Some?
    ensures AggressOne(a, order, d) == AggressOne(b, order, d)
  {
    if Aggressing(d) {
      NearestEnemyFrame(a, b, order, PositionOf(d));
    }
  }

  /** The body of SetAggressiveMode's loop for one unit of the query. */
  method AggressVisit(es: map<Entity, EntityData>, order: seq<Entity>, d: EntityData) returns (n: EntityData, found: bool)
    requires forall k :: 0 <= k < |order| ==> order[k] in es
    requires Aggressing(d) && d.transform.Some?
    ensures n == AggressOne(es, order, d)
    ensures !found ==> n == d
  {
    n, found := d, false;
    var nearestEnemy := FindNearestEnemy(es, order, d.transform.value.position);
    if nearestEnemy != Null {
      var attackRange := d.attackRange.value.(target := nearestEnemy, hasTarget := true);
      n := n.(attackRange := Some(attackRange));
      found := true;
    }
  }

  /** Retargeting one unit leaves everything the enemy search reads as it was. */
  lemma RetargetKeepsSightings(cur: map<Entity, EntityData>, start: map<Entity, EntityData>, e: Entity, n: EntityData)
    requires AIBehaviorSystem.SameSightings(cur, start) && e in start
    requires n == start[e].(attackRange := n.attackRange)
    ensures AIBehaviorSystem.SameSightings(cur[e := n], start)
  {
  }

  /** One iteration of SetAggressiveMode's loop keeps both loop invariants. */
  lemma AggressAdvance(cur: map<Entity, EntityData>, start: map<Entity, EntityData>, order: seq<Entity>, i: nat,
                       n: EntityData, found: bool)
    requires i < |order| && order[i] in start && AggressorsPlaced(start)
    requires RewrittenBy(cur, start, order[..i], AggressFn(start, order)) && AIBehaviorSystem.SameSightings(cur, start)
    requires var d := start[order[i]];
             && (Aggressing(d) ==> n == AggressOne(cur, order, d))
             && (!Aggressing(d) || !found ==> n == d)
    ensures var next := if found then cur[order[i] := n] else cur;
            && RewrittenBy(next, start, order[..i + 1], AggressFn(start, order))
            && AIBehaviorSystem.SameSightings(next, start)
  {
    var d := start[order[i]];
    if Aggressing(d) {
      AggressOneFrame(cur, start, order, d);
    }
    if found {
      RewriteStep(cur, start, order, i, AggressFn(start, order));
      RetargetKeepsSightings(cur, start, order[i], n);
    } else {
      RewriteSkip(cur, start, order, i, AggressFn(start, order));
    }
  }

  method SetAggressiveMode(w: World)
    requires w.Valid() && AggressorsPlaced(w.entities)
    modifies w`entities
    ensures w.Valid()
    ensures w.entities == Aggressive(old(w.entities), w.order)
  {
    var attackRanges := w.entities;
    var i := 0;
    while i < |w.order|
      invariant 0 <= i <= |w.order|
      invariant RewrittenBy(w.entities, attackRanges, w.order[..i], AggressFn(attackRanges, w.order))
      invariant AIBehaviorSystem.SameSightings(w.entities, attackRanges)
    {
      var e := w.order[i];
      var d := attackRanges[e];
      var n, found := d, false;
      if d.attackRange.Some? && d.selected && d.player {
        n, found := AggressVisit(w.entities, w.order, d);
      }
      AggressAdvance(w.entities, attackRanges, w.order, i, n, found);
      if found {
        w.entities := w.entities[e := n];
      }
      i := i + 1;
    }
    assert w.order[..i] == w.order;
    RewriteDone(w.entities, attackRanges, w.order, AggressFn(attackRanges, w.order));
  }

  // ---------------------------------------------------------------- control groups

  const GroupHotkeyCount: nat := 5

  /** HandleGroupSelection: hotkey i (Alpha1..Alpha5) stands for group number i + 1. */
  function HotkeyGroupNumber(i: nat): int {
    i + 1
  }

  /** Group number n is stored as GroupId n + 10. */
  function GroupIdOf(groupNumber: int): (id: int) {
    groupNumber + 10
  }

  /** The five hotkeys use the group ids 11..15, one each, none of them 0 (ungrouped). */
  lemma HotkeyGroupIds(i: nat, j: nat)
    requires i < GroupHotkeyCount && j < GroupHotkeyCount
    ensures 11 <= GroupIdOf(HotkeyGroupNumber(i)) <= 15
    ensures GroupIdOf(HotkeyGroupNumber(i)) == GroupIdOf(HotkeyGroupNumber(j)) <==> i == j
  {
  }

  /** SaveGroup's first loop on one entity: a player unit in the group leaves it. */
  function Unassign(d: EntityData, groupId: int): EntityData {
    if d.group.Some? && d.player && d.group.value.groupId == groupId
    then d.(group := Some(d.group.value.(groupId := 0))) else d
  }

  function UnassignFn(groupId: int): EntityData -> EntityData {
    (d: EntityData) => Unassign(d, groupId)
  }

  /** SaveGroup's second loop on one entity: a selected player unit joins the group. */
  function Assign(d: EntityData, groupId: int): EntityData {
    if d.group.Some? && d.selected && d.player then d.(group := Some(d.group.value.(groupId := groupId))) else d
  }

  function AssignFn(groupId: int): EntityData -> EntityData {
    (d: EntityData) => Assign(d, groupId)
  }

  function Saved(es: map<Entity, EntityData>, groupNumber: int): map<Entity, EntityData> {
    MapValues(MapValues(es, UnassignFn(GroupIdOf(groupNumber))), AssignFn(GroupIdOf(groupNumber)))
  }

  /**
   * After SaveGroup(n) a player unit with a group is in group n + 10 exactly when it is
   * selected; an unselected former member is ungrouped (id 0) and other units keep their ids.
   * Only group ids change.
   */
  lemma SavedGroupIsSelection(es: map<Entity, EntityData>, groupNumber: int, e: Entity)
    requires e in es && GroupIdOf(groupNumber) != 0
    ensures e in Saved(es, groupNumber)
    ensures var d, r := es[e], Saved(es, groupNumber)[e];
            && (d.group.Some? && d.player ==>
                  && r.group.Some? && r.group.value.isSelected == d.group.value.isSelected
                  && (r.group.value.groupId == GroupIdOf(groupNumber) <==> d.selected)
                  && (!d.selected ==> r.group.value.groupId == if d.group.value.groupId == GroupIdOf(groupNumber) then 0 else d.group.value.groupId)
                  && r == d.(group := r.group))
            && (!(d.group.Some? && d.player) ==> r == d)
  {
  }

  method UnassignGroup(w: World, groupId: int)
    requires w.Valid()
    modifies w`entities
    ensures w.Valid()
    ensures w.entities == MapValues(old(w.entities), UnassignFn(groupId))
  {
    var groups := w.entities;
    ghost var f := UnassignFn(groupId);
    var i := 0;
    while i < |w.order|
      invariant 0 <= i <= |w.order|
      invariant RewrittenBy(w.entities, groups, w.order[..i], f)
    {
      var e := w.order[i];
      var d := groups[e];
      if d.group.Some? && d.player && d.group.value.groupId == groupId {
        var group := d.group.value.(groupId := 0);
        d := d.(group := Some(group));
        RewriteStep(w.entities, groups, w.order, i, f);
        w.entities := w.entities[e := d];
      } else {
        RewriteSkip(w.entities, groups, w.order, i, f);
      }
      i := i + 1;
    }
    assert w.order[..i] == w.order;
    RewriteDone(w.entities, groups, w.order, f);
  }

  method AssignGroup(w: World, groupId: int)
    requires w.Valid()
    modifies w`entities
    ensures w.Valid()
    ensures w.entities == MapValues(old(w.entities), AssignFn(groupId))
  {
    var groups := w.entities;
    ghost var f := AssignFn(groupId);
    var i := 0;
    while i < |w.order|
      invariant 0 <= i <= |w.order|
      invariant RewrittenBy(w.entities, groups, w.order[..i], f)
    {
      var e := w.order[i];
      var d := groups[e];
      if d.group.Some? && d.selected && d.player {
        var group := d.group.value.(groupId := groupId);
        d := d.(group := Some(group));
        RewriteStep(w.entities, groups, w.order, i, f);
        w.entities := w.entities[e := d];
      } else {
        RewriteSkip(w.entities, groups, w.order, i, f);
      }
      i := i + 1;
    }
    assert w.order[..i] == w.order;
    RewriteDone(w.entities, groups, w.order, f);
  }

  method SaveGroup(w: World, groupNumber: int)
    requires w.Valid()
    modifies w`entities
    ensures w.Valid()
    ensures w.entities == Saved(old(w.entities), groupNumber)
  {
    UnassignGroup(w, groupNumber + 10);
    AssignGroup(w, groupNumber + 10);
  }

  /** SelectGroup's loop on one entity: a living player unit of the group is selected. */
  function PickMember(d: EntityData, groupId: int): EntityData {
    if d.group.Some? && d.player && d.group.value.groupId == groupId && !d.dead then MarkSelected(d) else d
  }

  function PickMemberFn(groupId: int): EntityData -> EntityData {
    (d: EntityData) => PickMember(d, groupId)
  }

  function GroupSelected(es: map<Entity, EntityData>, groupNumber: int): map<Entity, EntityData> {
    MapValues(Cleared(es), PickMemberFn(GroupIdOf(groupNumber)))
  }

  /**
   * After SelectGroup(n) a player unit with a group is selected, by tag and by flag, exactly
   * when it is alive and in group n + 10; only the selection changes.
   */
  lemma SelectedGroupIsMembers(es: map<Entity, EntityData>, groupNumber: int, e: Entity)
    requires e in es
    ensures e in GroupSelected(es, groupNumber)
    ensures var d, r := es[e], GroupSelected(es, groupNumber)[e];
            && r == d.(group := r.group, selected := r.selected)
            && (d.group.Some? && d.player ==>
                  var member := !d.dead && d.group.value.groupId == GroupIdOf(groupNumber);
                  && r.group.Some? && r.group.value.groupId == d.group.value.groupId
                  && (r.selected <==> member)
                  && (r.group.value.isSelected <==> member))
            && (!(d.group.Some? && d.player) ==> r == d)
  {
    ClearedDeselects(es, e);
  }

  method SelectGroup(w: World, groupNumber: int)
    requires w.Valid()
    modifies w`entities
    ensures w.Valid()
    ensures w.entities == GroupSelected(old(w.entities), groupNumber)
  {
    ClearAllSelections(w);
    var groups := w.entities;
    ghost var f := PickMemberFn(groupNumber + 10);
    var i := 0;
    while i < |w.order|
      invariant 0 <= i <= |w.order|
      invariant RewrittenBy(w.entities, groups, w.order[..i], f)
    {
      var e := w.order[i];
      var d := groups[e];
      if d.group.Some? && d.player && d.group.value.groupId == groupNumber + 10 {
        if !d.dead {
          var group := d.group.value.(isSelected := true);
          d := d.(group := Some(group));
          d := d.(selected := true);
          RewriteStep(w.entities, groups, w.order, i, f);
          w.entities := w.entities[e := d];
        } else {
          RewriteSkip(w.entities, groups, w.order, i, f);
        }
      } else {
        RewriteSkip(w.entities, groups, w.order, i, f);
      }
      i := i + 1;
    }
    assert w.order[..i] == w.order;
    RewriteDone(w.entities, groups, w.order, f);
  }
}
