/**
 * Issuing a Move, Attack or Stop order to the selected player units, which RTSInputManager and
 * UnitSelectionSystem both do: the order is written into each unit's CommandComponent with the
 * current time, and the Command is enabled so that CommandSystem applies it on its next tick.
 *
 * Both sources find the units with a query that names CommandComponent, and Unity matches
 * such a query only against entities whose Command is enabled. CommandSystem disables every
 * Command it applies, so a unit whose Command has been applied once is never reached again.
 */
module Orders {
  import opened Options
  import opened Geometry
  import opened Components
  import opened Store
  import CommandSystem

  datatype Order = MoveTo(destination: Vec3) | AttackOn(target: Entity) | Halt

  /** The units the order queries match: an enabled Command, SelectedTag and PlayerUnitTag. */
  predicate Reached(d: EntityData) {
    d.command.Some? && d.commandEnabled && d.selected && d.player
  }

  /** The order written into a Command: type, its target if it has one, and the time. */
  function Write(c: Command, order: Order, now: real): Command {
    match order
    case MoveTo(p) => c.(kind := Move, targetPosition := p, commandTime := now)
    case AttackOn(t) => c.(kind := Attack, targetEntity := t, commandTime := now)
    case Halt => c.(kind := Stop, commandTime := now)
  }

  /** SetComponentData with the written Command, then SetComponentEnabled(true). */
  function Give(d: EntityData, order: Order, now: real): EntityData
    requires d.command.Some?
  {
    d.(command := Some(Write(d.command.value, order, now)), commandEnabled := true)
  }

  /** One unit as an issuing loop leaves it. */
  function IssueOne(d: EntityData, order: Order, now: real): EntityData {
    if Reached(d) then Give(d, order, now) else d
  }

  function IssueFn(order: Order, now: real): EntityData -> EntityData {
    (d: EntityData) => IssueOne(d, order, now)
  }

  function Issued(es: map<Entity, EntityData>, order: Order, now: real): map<Entity, EntityData> {
    MapValues(es, IssueFn(order, now))
  }

  /**
   * A unit the query reaches gets the order, stamped with the time, and CommandSystem then
   * carries it out: a Move sets the destination, an Attack on a real entity sets the target, a
   * Stop clears both. Fields other than the Command and its bit are never touched.
   */
  lemma IssuedOrderIsCarriedOut(d: EntityData, order: Order, now: real)
    ensures IssueOne(d, order, now) == d.(command := IssueOne(d, order, now).command,
                                           commandEnabled := IssueOne(d, order, now).commandEnabled)
    ensures Reached(d) && d.movement.Some? && d.attackRange.Some? && !d.dead ==>
              var r := IssueOne(d, order, now);
              && r.command.value.commandTime == now
              && CommandSystem.Processed(r)
              && var m, a := CommandSystem.Resolve(r).movement.value, CommandSystem.Resolve(r).attackRange.value;
                 && (order.MoveTo? ==> m.destination == order.destination && m.hasDestination && !a.hasTarget)
                 && (order.AttackOn? && order.target != Null ==> a.target == order.target && a.hasTarget)
                 && (order.Halt? ==> !m.hasDestination && !a.hasTarget)
  {
    if Reached(d) && d.movement.Some? && d.attackRange.Some? && !d.dead {
      CommandSystem.ResolveByKind(IssueOne(d, order, now));
    }
  }

  /** What the order loops leave: an order for a unit the query reaches, nothing for the rest. */
  lemma IssuedChangesOnlyReached(es: map<Entity, EntityData>, order: Order, now: real, e: Entity)
    requires e in es
    ensures e in Issued(es, order, now)
    ensures Issued(es, order, now)[e] != es[e] ==> Reached(es[e])
    ensures Reached(es[e]) ==> Issued(es, order, now)[e].command == Some(Write(es[e].command.value, order, now))
  {
  }

  /** The Command after each order in turn, each followed by one CommandSystem tick. */
  function Replay(d: EntityData, orders: seq<Order>, now: real): EntityData
    decreases |orders|
  {
    if orders == [] then d
    else Replay(CommandSystem.Resolve(IssueOne(d, orders[0], now)), orders[1..], now)
  }

  /** A unit whose Command is disabled is beyond reach: no sequence of orders changes it. */
  lemma {:induction false} DisabledUnitIgnoresOrders(d: EntityData, orders: seq<Order>, now: real)
    requires d.command.Some? && !d.commandEnabled
    ensures Replay(d, orders, now) == d
    decreases |orders|
  {
    if orders != [] {
      assert IssueOne(d, orders[0], now) == d;
      assert CommandSystem.Resolve(d) == d;
      DisabledUnitIgnoresOrders(d, orders[1..], now);
    }
  }

  /**
   * A freshly spawned player unit, selected, has its initial Stop applied on the first
   * CommandSystem tick; after that no order ever gives it a destination or a target.
   */
  lemma SpawnedPlayerUnitIgnoresOrders(spawned: EntityData, orders: seq<Order>, now: real)
    requires spawned.player && spawned.command.Some? && spawned.commandEnabled && spawned.command.value.kind == Stop
    requires spawned.movement.Some? && spawned.attackRange.Some? && !spawned.dead
    ensures var d := CommandSystem.Resolve(spawned.(selected := true));
            && Replay(d, orders, now) == d
            && !Replay(d, orders, now).movement.value.hasDestination
            && !Replay(d, orders, now).attackRange.value.hasTarget
  {
    var d := CommandSystem.Resolve(spawned.(selected := true));
    CommandSystem.ResolveByKind(spawned.(selected := true));
    DisabledUnitIgnoresOrders(d, orders, now);
  }

  /** The body of an issuing loop for one unit it reaches. */
  method GiveOrder(d: EntityData, order: Order, now: real) returns (r: EntityData)
    requires d.command.Some?
    ensures r == Give(d, order, now)
  {
    var command := d.command.value;
    match order {
      case MoveTo(p) =>
        command := command.(kind := Move, targetPosition := p, commandTime := now);
      case AttackOn(t) =>
        command := command.(kind := Attack, targetEntity := t, commandTime := now);
      case Halt =>
        command := command.(kind := Stop, commandTime := now);
    }
    r := d.(command := Some(command));
    r := r.(commandEnabled := true);
  }

  method Issue(w: World, order: Order, now: real)
    requires w.Valid()
    modifies w`entities
    ensures w.Valid()
    ensures w.entities == Issued(old(w.entities), order, now)
  {
    // ToComponentDataArray: the loop works on copies taken before it starts.
    var commands := w.entities;
    ghost var f := IssueFn(order, now);
    var i := 0;
    while i < |w.order|
      invariant 0 <= i <= |w.order|
      invariant RewrittenBy(w.entities, commands, w.order[..i], f)
    {
      var e := w.order[i];
      var d := commands[e];
      if d.command.Some? && d.commandEnabled && d.selected && d.player {
        d := GiveOrder(d, order, now);
        RewriteStep(w.entities, commands, w.order, i, f);
        w.entities := w.entities[e := d];
      } else {
        RewriteSkip(w.entities, commands, w.order, i, f);
      }
      i := i + 1;
    }
    assert w.order[..i] == w.order;
    RewriteDone(w.entities, commands, w.order, f);
  }

  /**
   * The evidently intended query also matches units whose Command is disabled
   * (EntityQueryOptions.IgnoreComponentEnabledState).
   */
  predicate ReachedCorrected(d: EntityData) {
    d.command.Some? && d.selected && d.player
  }

  function IssueOneCorrected(d: EntityData, order: Order, now: real): EntityData {
    if ReachedCorrected(d) then Give(d, order, now) else d
  }

  function IssueCorrectedFn(order: Order, now: real): EntityData -> EntityData {
    (d: EntityData) => IssueOneCorrected(d, order, now)
  }

  function IssuedCorrected(es: map<Entity, EntityData>, order: Order, now: real): map<Entity, EntityData> {
    MapValues(es, IssueCorrectedFn(order, now))
  }

  /**
   * With the corrected query every selected living player unit with Movement and AttackRange
   * carries out each new order on the next CommandSystem tick, whether or not an earlier
   * Command has been applied.
   */
  lemma CorrectedOrderIsCarriedOut(d: EntityData, order: Order, now: real)
    requires ReachedCorrected(d) && d.movement.Some? && d.attackRange.Some? && !d.dead
    ensures var r := IssueOneCorrected(d, order, now);
            && r.command.value.commandTime == now
            && CommandSystem.Processed(r)
            && var m, a := CommandSystem.Resolve(r).movement.value, CommandSystem.Resolve(r).attackRange.value;
               && (order.MoveTo? ==> m.destination == order.destination && m.hasDestination && !a.hasTarget)
               && (order.AttackOn? && order.target != Null ==> a.target == order.target && a.hasTarget)
               && (order.Halt? ==> !m.hasDestination && !a.hasTarget)
  {
    CommandSystem.ResolveByKind(IssueOneCorrected(d, order, now));
  }

  /** On units whose Command is enabled the corrected and the written loops agree. */
  lemma CorrectedAgreesWhenEnabled(d: EntityData, order: Order, now: real)
    requires d.commandEnabled
    ensures IssueOneCorrected(d, order, now) == IssueOne(d, order, now)
  {
  }

  method IssueCorrected(w: World, order: Order, now: real)
    requires w.Valid()
    modifies w`entities
    ensures w.Valid()
    ensures w.entities == IssuedCorrected(old(w.entities), order, now)
  {
    var commands := w.entities;
    ghost var f := IssueCorrectedFn(order, now);
    var i := 0;
    while i < |w.order|
      invariant 0 <= i <= |w.order|
      invariant RewrittenBy(w.entities, commands, w.order[..i], f)
    {
      var e := w.order[i];
      var d := commands[e];
      if d.command.Some? && d.selected && d.player {
        d := GiveOrder(d, order, now);
        RewriteStep(w.entities, commands, w.order, i, f);
        w.entities := w.entities[e := d];
      } else {
        RewriteSkip(w.entities, commands, w.order, i, f);
      }
      i := i + 1;
    }
    assert w.order[..i] == w.order;
    RewriteDone(w.entities, commands, w.order, f);
  }
}
