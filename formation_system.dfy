/**
 * FormationSystem: when more than one living player unit is selected, every one of them with a
 * Move command is sent to the command's target plus its own slot of a square-ish grid. The
 * centre of the selection is computed but never used.
 */
module FormationSystem {
  import opened Options
  import opened Geometry
  import opened Components
  import opened Store

  /** The collecting query: LocalTransform, SelectedTag, PlayerUnitTag, no DeadTag. */
  predicate IsMember(es: map<Entity, EntityData>, e: Entity) {
    e in es && es[e].transform.Some? && es[e].selected && es[e].player && !es[e].dead
  }

  /** The selected units in query order. */
  function SelectedUnits(es: map<Entity, EntityData>, order: seq<Entity>): (r: seq<Entity>)
    ensures forall e :: e in r <==> e in order && IsMember(es, e)
    ensures forall i :: 0 <= i < |r| ==> IsMember(es, r[i])
    ensures Distinct(order) ==> Distinct(r)
    ensures |r| <= |order|
  {
    if order == [] then []
    else
      var k := |order| - 1;
      assert forall e :: e in order <==> e in order[..k] || e == order[k];
      SelectedUnits(es, order[..k]) + if IsMember(es, order[k]) then [order[k]] else []
  }

  /** Their positions, in the same order. */
  function PositionsOf(es: map<Entity, EntityData>, units: seq<Entity>): (r: seq<Vec3>)
    requires forall i :: 0 <= i < |units| ==> units[i] in es && es[units[i]].transform.Some?
    ensures |r| == |units|
    ensures forall i :: 0 <= i < |units| ==> r[i] == PositionOf(es[units[i]])
  {
    seq(|units|, i requires 0 <= i < |units| => PositionOf(es[units[i]]))
  }

  method CollectSelected(es: map<Entity, EntityData>, order: seq<Entity>) returns (selectedUnits: seq<Entity>, selectedPositions: seq<Vec3>)
    ensures selectedUnits == SelectedUnits(es, order)
    ensures selectedPositions == PositionsOf(es, selectedUnits)
  {
    selectedUnits, selectedPositions := [], [];
    for i := 0 to |order|
      invariant selectedUnits == SelectedUnits(es, order[..i])
      invariant selectedPositions == PositionsOf(es, selectedUnits)
    {
      assert order[..i + 1][..i] == order[..i];
      var entity := order[i];
      if entity in es && es[entity].transform.Some? && es[entity].selected && es[entity].player && !es[entity].dead {
        selectedUnits := selectedUnits + [entity];
        selectedPositions := selectedPositions + [es[entity].transform.value.position];
      }
    }
    assert order[..|order|] == order;
  }

  /** The sum of a list of positions. */
  function Sum(positions: seq<Vec3>): Vec3 {
    if positions == [] then Zero else Add(Sum(positions[..|positions| - 1]), positions[|positions| - 1])
  }

  /** float3 / int: each coordinate divided by the count. */
  function Divide(v: Vec3, n: int): Vec3
    requires n != 0
  {
    Vec3(v.x / n as real, v.y / n as real, v.z / n as real)
  }

  /** n copies of one position sum to n times it, so their centre is that position. */
  lemma {:induction false} SumOfCopies(positions: seq<Vec3>, p: Vec3)
    requires forall i :: 0 <= i < |positions| ==> positions[i] == p
    ensures Sum(positions) == Scale(p, |positions| as real)
    decreases |positions|
  {
    if positions != [] {
      SumOfCopies(positions[..|positions| - 1], p);
    }
  }

  method CalculateCenter(positions: seq<Vec3>) returns (center: Vec3)
    requires |positions| > 0
    ensures center == Divide(Sum(positions), |positions|)
  {
    var sum := Zero;
    for i := 0 to |positions|
      invariant sum == Sum(positions[..i])
    {
      assert positions[..i + 1][..i] == positions[..i];
      sum := Add(sum, positions[i]);
    }
    assert positions[..|positions|] == positions;
    center := Divide(sum, |positions|);
  }

  /** Scaling by a non-zero count and dividing by it again gives the position back. */
  lemma DivideScaled(p: Vec3, n: int)
    requires n != 0
    ensures Divide(Scale(p, n as real), n) == p
  {
    var k := n as real;
    assert p.x * k / k == p.x && p.y * k / k == p.y && p.z * k / k == p.z;
  }

  /** The centre of a selection whose units all stand at one point is that point. */
  lemma CenterOfOnePoint(positions: seq<Vec3>, p: Vec3)
    requires |positions| > 0
    requires forall i :: 0 <= i < |positions| ==> positions[i] == p
    ensures Divide(Sum(positions), |positions|) == p
  {
    SumOfCopies(positions, p);
    DivideScaled(p, |positions|);
  }

  /** (int)math.sqrt(n): the integer square root, searched upwards from `r`. */
  function ISqrtFrom(n: nat, r: nat): (s: nat)
    requires r * r <= n
    ensures s * s <= n < (s + 1) * (s + 1)
    decreases n - r
  {
    if (r + 1) * (r + 1) > n then r else ISqrtFrom(n, r + 1)
  }

  function ISqrt(n: nat): (s: nat)
    ensures s * s <= n < (s + 1) * (s + 1)
  {
    ISqrtFrom(n, 0)
  }

  /** math.max(1, (int)math.sqrt(totalUnits)). */
  function UnitsPerRow(totalUnits: nat): (r: nat)
    ensures 1 <= r
    ensures totalUnits >= 1 ==> r * r <= totalUnits < (r + 1) * (r + 1)
  {
    if ISqrt(totalUnits) > 1 then ISqrt(totalUnits) else 1
  }

  const Spacing: real := 2.0

  /**
   * GetFormationOffset: slot `index` sits in row index / unitsPerRow and column
   * index % unitsPerRow, two units apart, with the columns shifted left by half a row. The
   * offset lies in the ground plane, in front of (z >= 0) and across (-unitsPerRow <= x <=
   * unitsPerRow - 2) the target.
   */
  function FormationOffset(index: nat, totalUnits: nat): (r: Vec3)
    ensures r.y == 0.0 && r.z >= 0.0
    ensures -(UnitsPerRow(totalUnits) as real) <= r.x <= UnitsPerRow(totalUnits) as real - 2.0
  {
    var perRow := UnitsPerRow(totalUnits);
    var row := index / perRow;
    var col := index % perRow;
    Vec3((col as real - perRow as real * 0.5) * Spacing, 0.0, row as real * Spacing)
  }

  /** The slot decomposition: index = row * unitsPerRow + col with 0 <= col < unitsPerRow. */
  lemma FormationOffsetGrid(index: nat, totalUnits: nat)
    ensures var perRow, r := UnitsPerRow(totalUnits), FormationOffset(index, totalUnits);
            var row, col := index / perRow, index % perRow;
            && col < perRow && index == row * perRow + col
            && r == Vec3((col as real - perRow as real * 0.5) * Spacing, 0.0, row as real * Spacing)
  {
  }

  /** Different slots of one formation never share an offset. */
  lemma {:induction false} FormationOffsetInjective(i: nat, j: nat, totalUnits: nat)
    requires i != j
    ensures FormationOffset(i, totalUnits) != FormationOffset(j, totalUnits)
  {
    var perRow := UnitsPerRow(totalUnits);
    var ri, ci := i / perRow, i % perRow;
    var rj, cj := j / perRow, j % perRow;
    assert i == ri * perRow + ci && j == rj * perRow + cj;
    if ri == rj {
      assert ci != cj;
      assert (ci as real - perRow as real * 0.5) * Spacing != (cj as real - perRow as real * 0.5) * Spacing;
    } else {
      assert ri as real * Spacing != rj as real * Spacing;
    }
  }

  /** A selected unit's new Movement: same Speed, the offset target, a destination, stopping distance 1.5. */
  function Reform(d: EntityData, index: nat, totalUnits: nat): (r: EntityData)
    requires d.command.Some? && d.command.value.kind == Move ==> d.movement.Some?
    ensures r == d.(movement := r.movement)
    ensures d.command.None? || d.command.value.kind != Move ==> r == d
    ensures d.command.Some? && d.command.value.kind == Move ==>
              r.movement == Some(Movement(d.movement.value.speed,
                                          Add(d.command.value.targetPosition, FormationOffset(index, totalUnits)),
                                          true, 1.5))
  {
    if d.command.Some? && d.command.value.kind == Move then
      d.(movement := Some(Movement(d.movement.value.speed,
                                   Add(d.command.value.targetPosition, FormationOffset(index, totalUnits)),
                                   true, 1.5)))
    else d
  }

  /** The position of e in a list that holds it. */
  function IndexOf(s: seq<Entity>, e: Entity): (i: nat)
    requires e in s
    ensures i < |s| && s[i] == e
    ensures forall j :: 0 <= j < i ==> s[j] != e
  {
    if s[0] == e then 0 else 1 + IndexOf(s[1..], e)
  }

  lemma IndexOfDistinct(s: seq<Entity>, i: nat)
    requires Distinct(s) && i < |s|
    ensures IndexOf(s, s[i]) == i
  {
    var k := IndexOf(s, s[i]);
    assert !(i < k);
  }

  /** What GetComponent<MovementComponent> needs: each listed unit with a Move command has Movement. */
  predicate MoversHaveMovement(es: map<Entity, EntityData>, units: seq<Entity>) {
    forall e :: e in units && e in es && es[e].command.Some? && es[e].command.value.kind == Move ==> es[e].movement.Some?
  }

  /** The Movement read happens only for the selected units, and only when more than one is selected. */
  predicate FormationReadable(es: map<Entity, EntityData>, order: seq<Entity>) {
    |SelectedUnits(es, order)| > 1 ==> MoversHaveMovement(es, SelectedUnits(es, order))
  }

  /** Every listed unit takes its slot's Movement; the slot is the unit's position in the list. */
  function Reformed(es: map<Entity, EntityData>, units: seq<Entity>): (r: map<Entity, EntityData>)
    requires MoversHaveMovement(es, units)
    ensures r.Keys == es.Keys
  {
    map e | e in es :: if e in units then Reform(es[e], IndexOf(units, e), |units|) else es[e]
  }

  /** The whole system on a world. */
  function Formation(es: map<Entity, EntityData>, order: seq<Entity>): (r: map<Entity, EntityData>)
    requires FormationReadable(es, order)
    ensures r.Keys == es.Keys
  {
    var units := SelectedUnits(es, order);
    if |units| > 1 then Reformed(es, units) else es
  }

  /**
   * With at least two selected units, the unit in slot i of the selection that has a Move order
   * heads for TargetPosition + offset(i); every other entity is unchanged, and a selection of
   * fewer than two changes nothing.
   */
  lemma FormationSlots(es: map<Entity, EntityData>, order: seq<Entity>)
    requires FormationReadable(es, order) && Distinct(order)
    ensures var units, r := SelectedUnits(es, order), Formation(es, order);
            && (|units| <= 1 ==> r == es)
            && (forall e :: e in es && e !in units ==> r[e] == es[e])
            && (|units| > 1 ==> forall i :: 0 <= i < |units| ==> units[i] in es && r[units[i]] == Reform(es[units[i]], i, |units|))
  {
    var units := SelectedUnits(es, order);
    forall i | 0 <= i < |units|
      ensures units[i] in es && IndexOf(units, units[i]) == i
    {
      assert units[i] in units;
      IndexOfDistinct(units, i);
    }
  }

  /**
   * The centre is never used: moving one selected unit somewhere else changes no destination.
   * The outcome depends on which units are selected, not on where they stand.
   */
  lemma {:induction false} SelectionIgnoresPositions(es: map<Entity, EntityData>, order: seq<Entity>, e: Entity, p: Vec3)
    requires IsMember(es, e)
    ensures var es' := es[e := es[e].(transform := Some(es[e].transform.value.(position := p)))];
            SelectedUnits(es', order) == SelectedUnits(es, order)
    decreases |order|
  {
    if order != [] {
      SelectionIgnoresPositions(es, order[..|order| - 1], e, p);
    }
  }

  lemma FormationIgnoresPositions(es: map<Entity, EntityData>, order: seq<Entity>, e: Entity, p: Vec3)
    requires FormationReadable(es, order) && IsMember(es, e)
    ensures var es' := es[e := es[e].(transform := Some(es[e].transform.value.(position := p)))];
            FormationReadable(es', order)
            && forall x :: x in es ==> Formation(es', order)[x].movement == Formation(es, order)[x].movement
  {
    SelectionIgnoresPositions(es, order, e, p);
  }

  /** The second loop: re-target the selected units with a Move command, slot by slot. */
  method ApplyFormation(w: World, selectedUnits: seq<Entity>)
    requires w.Valid() && MoversHaveMovement(w.entities, selectedUnits) && Distinct(selectedUnits)
    requires forall i :: 0 <= i < |selectedUnits| ==> selectedUnits[i] in w.entities
    modifies w`entities
    ensures w.Valid()
    ensures w.entities == Reformed(old(w.entities), selectedUnits)
  {
    ghost var start := w.entities;
    for i := 0 to |selectedUnits|
      invariant w.entities.Keys == start.Keys
      invariant forall e :: e in w.entities ==>
                  w.entities[e] == if e in selectedUnits[..i] then Reform(start[e], IndexOf(selectedUnits, e), |selectedUnits|) else start[e]
    {
      IndexOfDistinct(selectedUnits, i);
      var entity := selectedUnits[i];
      var d := w.entities[entity];
      if d.command.Some? {
        var command := d.command.value;
        if command.kind == Move {
          var formationOffset := FormationOffset(i, |selectedUnits|);
          var newDestination := Add(command.targetPosition, formationOffset);
          w.entities := w.entities[entity := d.(movement := Some(Movement(d.movement.value.speed, newDestination, true, 1.5)))];
        }
      }
    }
    assert selectedUnits[..|selectedUnits|] == selectedUnits;
  }

  method OnUpdate(w: World)
    requires w.Valid() && FormationReadable(w.entities, w.order)
    modifies w`entities
    ensures w.Valid()
    ensures w.entities == Formation(old(w.entities), w.order)
  {
    var selectedUnits, selectedPositions := CollectSelected(w.entities, w.order);
    if |selectedUnits| > 1 {
      var centerPosition := CalculateCenter(selectedPositions);
      ApplyFormation(w, selectedUnits);
    }
  }
}
