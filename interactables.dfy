/**
 * Boxes, pressure plates and levers (src/entities/InteractableObject.ts).
 * A plate is active exactly while the player is near it and fires its
 * callbacks on the change edges; a lever flips on an interact in reach and
 * fires the callback of the side it lands on.
 *
 * A callback is a closure the level installs. The only one the level
 * installs opens the timed door, so a callback is the datum `OpenTimedDoor`;
 * a firing is returned to the caller, which runs it at once.
 */
module Interactables {
  import opened Wrappers
  import opened Geometry
  import opened Bodies

  datatype InteractableType = Box | PressurePlate | Lever

  datatype Callback = OpenTimedDoor

  /** A plate is pressed below a distance of 1.5. */
  const PlateReachSq: real := 1.5 * 1.5
  /** A lever can be pulled up to a distance of 2, inclusive. */
  const LeverReachSq: real := 2.0 * 2.0

  /** `isActive` after `update`. */
  function ActiveAfterUpdate(kind: InteractableType, active: bool, distSq: real): bool {
    if kind == PressurePlate then distSq < PlateReachSq else active
  }

  /** The callback `update` fires, if any. */
  function FiredByUpdate(kind: InteractableType, active: bool, distSq: real,
                         onActivate: Option<Callback>, onDeactivate: Option<Callback>): Option<Callback> {
    if kind != PressurePlate then None
    else
      var shouldBeActive := distSq < PlateReachSq;
      if shouldBeActive && !active then onActivate
      else if !shouldBeActive && active then onDeactivate
      else None
  }

  /** `isActive` after `tryInteract`. */
  function ActiveAfterInteract(kind: InteractableType, active: bool, distSq: real): bool {
    if kind == Lever && distSq <= LeverReachSq then !active else active
  }

  /** The callback `tryInteract` fires, if any. */
  function FiredByInteract(kind: InteractableType, active: bool, distSq: real,
                           onActivate: Option<Callback>, onDeactivate: Option<Callback>): Option<Callback> {
    if kind == Lever && distSq <= LeverReachSq then (if !active then onActivate else onDeactivate)
    else None
  }

  /** After an update a plate is active exactly when the player is near it; boxes and levers keep their flag. */
  lemma PlateTracksProximity(kind: InteractableType, active: bool, distSq: real)
    ensures kind == PressurePlate ==> (ActiveAfterUpdate(kind, active, distSq) <==> distSq < 2.25)
    ensures kind != PressurePlate ==> ActiveAfterUpdate(kind, active, distSq) == active
  {
  }

  /**
   * A plate fires `onActivate` only on a rise and `onDeactivate` only on a
   * fall of its flag; an unchanged flag fires nothing.
   */
  lemma PlateFiresOnEdges(kind: InteractableType, active: bool, distSq: real,
                          onA: Option<Callback>, onD: Option<Callback>)
    ensures var after := ActiveAfterUpdate(kind, active, distSq);
      var fired := FiredByUpdate(kind, active, distSq, onA, onD);
      (after == active ==> fired == None) &&
      (!active && after ==> fired == onA) &&
      (active && !after ==> fired == onD)
  {
  }

  /** A second update with the player where the first left it fires nothing and changes nothing. */
  lemma PlateUpdateSettles(kind: InteractableType, active: bool, distSq: real,
                           onA: Option<Callback>, onD: Option<Callback>)
    ensures var after := ActiveAfterUpdate(kind, active, distSq);
      ActiveAfterUpdate(kind, after, distSq) == after &&
      FiredByUpdate(kind, after, distSq, onA, onD) == None
  {
  }

  /**
   * A lever in reach (distance 2 included) flips and fires the callback of
   * its new side; anything else is left alone and fires nothing.
   */
  lemma LeverToggleRule(kind: InteractableType, active: bool, distSq: real,
                        onA: Option<Callback>, onD: Option<Callback>)
    ensures kind == Lever && distSq <= 4.0 ==>
      ActiveAfterInteract(kind, active, distSq) == !active &&
      FiredByInteract(kind, active, distSq, onA, onD) == (if !active then onA else onD)
    ensures kind != Lever || distSq > 4.0 ==>
      ActiveAfterInteract(kind, active, distSq) == active &&
      FiredByInteract(kind, active, distSq, onA, onD) == None
    ensures ActiveAfterInteract(kind, active, 4.0) == (if kind == Lever then !active else active)
  {
  }

  /** Two interacts in reach put the lever back as it was. */
  lemma LeverTwiceRestores(kind: InteractableType, active: bool, distSq: real)
    ensures ActiveAfterInteract(kind, ActiveAfterInteract(kind, active, distSq), distSq) == active
  {
  }

  class InteractableObject {
    const kind: InteractableType
    const body: Body
    var isActive: bool
    const onActivate: Option<Callback>
    const onDeactivate: Option<Callback>

    constructor (kind: InteractableType, position: Vec3, onActivate: Option<Callback>, onDeactivate: Option<Callback>)
      ensures fresh(body) && body.position == position
      ensures this.kind == kind && !isActive
      ensures this.onActivate == onActivate && this.onDeactivate == onDeactivate
    {
      this.kind := kind;
      body := new Body(position);
      isActive := false;
      this.onActivate := onActivate;
      this.onDeactivate := onDeactivate;
    }

    /** The plate logic of `update`; returns the callback it fires. */
    method Update(playerBody: Body) returns (fired: Option<Callback>)
      modifies this`isActive
      ensures var d := DistSq(body.position, playerBody.position);
        isActive == ActiveAfterUpdate(kind, old(isActive), d) &&
        fired == FiredByUpdate(kind, old(isActive), d, onActivate, onDeactivate)
    {
      fired := None;
      if kind == PressurePlate {
        var dist := DistSq(body.position, playerBody.position);
        var shouldBeActive := dist < PlateReachSq;

        if shouldBeActive && !isActive {
          isActive := true;
          fired := onActivate;
        } else if !shouldBeActive && isActive {
          isActive := false;
          fired := onDeactivate;
        }
      }
    }

    /** The lever toggle; returns the callback it fires. */
    method TryInteract(playerBody: Body) returns (fired: Option<Callback>)
      modifies this`isActive
      ensures var d := DistSq(body.position, playerBody.position);
        isActive == ActiveAfterInteract(kind, old(isActive), d) &&
        fired == FiredByInteract(kind, old(isActive), d, onActivate, onDeactivate)
    {
      fired := None;
      if kind != Lever {
        return;
      }
      var dist := DistSq(body.position, playerBody.position);
      if dist > LeverReachSq {
        return;
      }

      isActive := !isActive;
      if isActive {
        fired := onActivate;
      } else {
        fired := onDeactivate;
      }
    }
  }
}
