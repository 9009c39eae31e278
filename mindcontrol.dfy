/**
 * Possession (src/systems/MindControlSystem.ts): pressing interact next to
 * the helmet hands the controls to the drones, pressing it again at any
 * distance takes them back; controlled drones mirror the player's intents,
 * uncontrolled ones stand still.
 *
 * The drone's ground test is a ray cast of the physics engine; here it is
 * an input, one flag per drone. Meshes are not modelled.
 */
module MindControl {
  import opened Geometry
  import opened Bodies
  import opened Input
  import opened Players

  const DroneSpeed: real := 6.0
  const DroneJumpForce: real := 6.0
  /** The helmet is in reach below a distance of 2. */
  const HelmetReachSq: real := 2.0 * 2.0

  /** What `syncInput` makes of a drone's velocity. */
  function DroneVelocity(v: Vec3, left: bool, right: bool, jump: bool, grounded: bool): Vec3 {
    var vx := if left then -DroneSpeed else if right then DroneSpeed else 0.0;
    var vy := if jump && grounded && Abs(v.y) < 0.1 then DroneJumpForce else v.y;
    v.(x := vx, y := vy)
  }

  /** A drone moves at 6 in the held direction, left first, and stands still otherwise. */
  lemma DroneMirrorsIntents(v: Vec3, left: bool, right: bool, jump: bool, grounded: bool)
    ensures var w := DroneVelocity(v, left, right, jump, grounded);
      (left ==> w.x == -DroneSpeed) && (!left && right ==> w.x == DroneSpeed) &&
      (!left && !right ==> w.x == 0.0) && w.z == v.z
  {
  }

  /**
   * A drone jumps exactly when jump is held, it stands on ground and it is
   * not moving vertically; nothing remembers an earlier press, so a drone
   * held on the ground with jump held jumps on every such frame.
   */
  lemma DroneJumpRule(v: Vec3, left: bool, right: bool, jump: bool, grounded: bool)
    ensures DroneVelocity(v, left, right, jump, grounded).y ==
      (if jump && grounded && -0.1 < v.y < 0.1 then DroneJumpForce else v.y)
  {
  }

  /** The possession flag after one update. */
  function Possess(controlling: bool, justPressed: bool, nearHelmet: bool): bool {
    if justPressed then
      (if !controlling && nearHelmet then true else if controlling then false else controlling)
    else controlling
  }

  /** On a press edge possession starts only near the helmet and ends anywhere; otherwise it is kept. */
  lemma PossessionRule(controlling: bool, justPressed: bool, nearHelmet: bool)
    ensures !justPressed ==> Possess(controlling, justPressed, nearHelmet) == controlling
    ensures justPressed && controlling ==> !Possess(controlling, justPressed, nearHelmet)
    ensures justPressed && !controlling ==> Possess(controlling, justPressed, nearHelmet) == nearHelmet
  {
  }

  /** One frame's interact reading and whether the player is near the helmet. */
  datatype Reading = Reading(pressed: bool, nearHelmet: bool)

  /** The possession flag and the remembered reading after a run of frames. */
  function Track(controlling: bool, was: bool, rs: seq<Reading>): (bool, bool)
    decreases |rs|
  {
    if rs == [] then (controlling, was)
    else
      var prev := Track(controlling, was, rs[..|rs| - 1]);
      var r := rs[|rs| - 1];
      (Possess(prev.0, r.pressed && !prev.1, r.nearHelmet), r.pressed)
  }

  ghost predicate HeldThroughout(rs: seq<Reading>) {
    forall i :: 0 <= i < |rs| ==> rs[i].pressed
  }

  /**
   * Holding interact toggles possession at most once, on the first frame:
   * after any run of held frames the flag is what the first frame made it.
   */
  lemma {:induction false} HoldingTogglesOnce(controlling: bool, was: bool, rs: seq<Reading>)
    requires HeldThroughout(rs) && rs != []
    ensures Track(controlling, was, rs).0 == Possess(controlling, !was, rs[0].nearHelmet)
    ensures Track(controlling, was, rs).1
    decreases |rs|
  {
    var init := rs[..|rs| - 1];
    if init != [] {
      assert HeldThroughout(init) by {
        forall i | 0 <= i < |init| ensures init[i].pressed {
          assert init[i] == rs[i];
        }
      }
      assert init[0] == rs[0];
      HoldingTogglesOnce(controlling, was, init);
    }
  }

  class Drone {
    const body: Body

    constructor (position: Vec3)
      ensures fresh(body) && body.position == position && body.velocity == Zero
    {
      body := new Body(position);
    }

    /** Mirrors the intents; `isGrounded` is the ray-cast result. */
    method SyncInput(im: InputManager, isGrounded: bool)
      modifies body
      ensures body.velocity ==
        DroneVelocity(old(body.velocity), im.IsMovingLeft(), im.IsMovingRight(), im.IsJumpPressed(), isGrounded)
      ensures body.position == old(body.position) && body.angularVelocity == old(body.angularVelocity)
      ensures body.awake == old(body.awake) && body.collisionResponse == old(body.collisionResponse)
    {
      if im.IsMovingLeft() {
        body.velocity := body.velocity.(x := -DroneSpeed);
      } else if im.IsMovingRight() {
        body.velocity := body.velocity.(x := DroneSpeed);
      } else {
        body.velocity := body.velocity.(x := 0.0);
      }

      if im.IsJumpPressed() && isGrounded && Abs(body.velocity.y) < 0.1 {
        body.velocity := body.velocity.(y := DroneJumpForce);
      }
    }
  }

  /** The bodies of a list of drones. */
  function DroneBodies(drones: seq<Drone>): set<Body> {
    set d | d in drones :: d.body
  }

  class MindControlSystem {
    var drones: seq<Drone>
    const helmetPosition: Vec3
    var wasInteractPressed: bool

    /** No two drones share a body. */
    ghost predicate Valid()
      reads this
    {
      forall i, j :: 0 <= i < j < |drones| ==> drones[i].body != drones[j].body
    }

    constructor (position: Vec3)
      ensures Valid() && drones == [] && helmetPosition == position && !wasInteractPressed
    {
      drones := [];
      helmetPosition := position;
      wasInteractPressed := false;
    }

    /**
     * One frame: toggle possession on the interact press edge, then drive
     * the drones. `grounded[i]` is the ray-cast result of drone `i`.
     */
    method Update(player: Player, im: InputManager, grounded: seq<bool>)
      requires Valid() && |grounded| == |drones| && player.body !in DroneBodies(drones)
      modifies this`wasInteractPressed, player`isMindControlling, DroneBodies(drones)
      ensures Valid() && drones == old(drones)
      ensures wasInteractPressed == old(im.IsInteractPressed())
      ensures player.isMindControlling ==
        Possess(old(player.isMindControlling), old(im.IsInteractPressed()) && !old(wasInteractPressed),
                DistSq(old(player.body.position), helmetPosition) < HelmetReachSq)
      ensures forall i :: 0 <= i < |drones| ==>
        drones[i].body.velocity ==
          (if player.isMindControlling
           then DroneVelocity(old(drones[i].body.velocity), old(im.IsMovingLeft()), old(im.IsMovingRight()),
                              old(im.IsJumpPressed()), grounded[i])
           else old(drones[i].body.velocity).(x := 0.0))
      ensures forall i :: 0 <= i < |drones| ==>
        drones[i].body.position == old(drones[i].body.position) &&
        drones[i].body.angularVelocity == old(drones[i].body.angularVelocity) &&
        drones[i].body.awake == old(drones[i].body.awake) &&
        drones[i].body.collisionResponse == old(drones[i].body.collisionResponse)
    {
      var isInteractCurrentlyPressed := im.IsInteractPressed();
      var interactJustPressed := isInteractCurrentlyPressed && !wasInteractPressed;

      // helmet interaction
      var dist := DistSq(player.body.position, helmetPosition);
      if interactJustPressed {
        if !player.isMindControlling && dist < HelmetReachSq {
          player.isMindControlling := true;
        } else if player.isMindControlling {
          player.isMindControlling := false;
        }
      }

      wasInteractPressed := isInteractCurrentlyPressed;

      // mirror the intents to the drones, or stop them
      DriveDrones(player.isMindControlling, im, grounded);
    }

    /** The drone loops of `update`: every drone mirrors the intents when `controlling`, else stops. */
    method DriveDrones(controlling: bool, im: InputManager, grounded: seq<bool>)
      requires Valid() && |grounded| == |drones|
      modifies DroneBodies(drones)
      ensures forall i :: 0 <= i < |drones| ==>
        drones[i].body.velocity ==
          (if controlling
           then DroneVelocity(old(drones[i].body.velocity), old(im.IsMovingLeft()), old(im.IsMovingRight()),
                              old(im.IsJumpPressed()), grounded[i])
           else old(drones[i].body.velocity).(x := 0.0))
      ensures forall i :: 0 <= i < |drones| ==>
        drones[i].body.position == old(drones[i].body.position) &&
        drones[i].body.angularVelocity == old(drones[i].body.angularVelocity) &&
        drones[i].body.awake == old(drones[i].body.awake) &&
        drones[i].body.collisionResponse == old(drones[i].body.collisionResponse)
    {
      ghost var left, right, jump := im.IsMovingLeft(), im.IsMovingRight(), im.IsJumpPressed();
      var i := 0;
      while i < |drones|
        invariant 0 <= i <= |drones|
        invariant im.IsMovingLeft() == left && im.IsMovingRight() == right && im.IsJumpPressed() == jump
        invariant forall k :: 0 <= k < i ==>
          drones[k].body.velocity ==
            (if controlling then DroneVelocity(old(drones[k].body.velocity), left, right, jump, grounded[k])
             else old(drones[k].body.velocity).(x := 0.0))
        invariant forall k :: i <= k < |drones| ==> drones[k].body.velocity == old(drones[k].body.velocity)
        invariant forall k :: 0 <= k < |drones| ==>
          drones[k].body.position == old(drones[k].body.position) &&
          drones[k].body.angularVelocity == old(drones[k].body.angularVelocity) &&
          drones[k].body.awake == old(drones[k].body.awake) &&
          drones[k].body.collisionResponse == old(drones[k].body.collisionResponse)
      {
        if controlling {
          drones[i].SyncInput(im, grounded[i]);
        } else {
          drones[i].body.velocity := drones[i].body.velocity.(x := 0.0);
        }
        i := i + 1;
      }
    }
  }
}
