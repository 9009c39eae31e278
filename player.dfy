/**
 * Player locomotion (src/entities/Player.ts): coyote time, the jump that
 * fires on the press edge once per airborne spell, ground and air rules for
 * the horizontal velocity, the lethal-landing rule, and `die`.
 *
 * Whether the body stands on ground comes from a ray cast of the physics
 * engine; here it is the `isGrounded` parameter. Animation is not modelled.
 * `Step` states one update on values; `Player.Update` is the imperative
 * update and is proved to follow it.
 */
module Players {
  import opened Geometry
  import opened Bodies
  import opened Input
  import opened Sessions

  const MovementSpeed: real := 6.5
  const JumpForce: real := 7.5
  const CoyoteTime: real := 0.1
  const AirAccel: real := 15.0
  /** Landing faster than this (downwards) kills. */
  const LethalLandingVy: real := -20.0

  /** The movement state the player keeps between frames. */
  datatype Motion = Motion(coyoteTimer: real, jumpHeld: bool, jumpUsed: bool, wasGrounded: bool)

  /** The intents the update reads. */
  datatype Controls = Controls(left: bool, right: bool, jump: bool)

  /** The two flags that take control away from the player. */
  datatype Mode = Mode(mindControlling: bool, startingIntro: bool)

  /** What one update produces: the new motion state, the new velocity, and whether it jumped or died. */
  datatype Outcome = Outcome(motion: Motion, vx: real, vy: real, jumped: bool, lethal: bool)

  predicate TakesInput(mode: Mode) {
    !mode.mindControlling && !mode.startingIntro
  }

  /** Left wins over right; no input gives 0. */
  function TargetVelX(mode: Mode, c: Controls): real {
    if TakesInput(mode) && c.left then -MovementSpeed
    else if TakesInput(mode) && c.right then MovementSpeed
    else 0.0
  }

  function CoyoteAfter(timer: real, grounded: bool, dt: real): real {
    if grounded then CoyoteTime else Max(0.0, timer - dt)
  }

  /** Multiply by `factor` and snap to zero below 0.1. */
  function Damp(vx: real, factor: real): real {
    var w := vx * factor;
    if Abs(w) < 0.1 then 0.0 else w
  }

  function GroundVelX(mode: Mode, vx: real, vy: real, target: real): real {
    if mode.startingIntro then
      (if Abs(vy) < 0.1 then Damp(vx, 0.95) else vx)
    else if mode.mindControlling then Damp(vx, 0.8)
    else if target != 0.0 then target
    else Damp(vx, 0.8)
  }

  function AirVelX(takeInput: bool, vx: real, target: real, dt: real): real {
    if takeInput && target != 0.0 then
      var step := AirAccel * dt;
      if Abs(vx - target) < step then target
      else vx + (Sign(target - vx) as real) * step
    else vx
  }

  /** One `update`, given the intents, the ground test and the current velocity. */
  function Step(m: Motion, mode: Mode, c: Controls, grounded: bool, vx: real, vy: real, dt: real): Outcome {
    var take := TakesInput(mode);
    var coyote := CoyoteAfter(m.coyoteTimer, grounded, dt);
    var canJump := coyote > 0.0;
    var target := TargetVelX(mode, c);
    var vx1 := if grounded then GroundVelX(mode, vx, vy, target) else AirVelX(take, vx, target, dt);
    var justPressed := take && c.jump && !m.jumpHeld;
    var jumped := justPressed && canJump && !m.jumpUsed;
    var vy1 := if jumped then JumpForce else vy;
    var used := if grounded then false else jumped || m.jumpUsed;
    var lethal := !mode.startingIntro && grounded && !m.wasGrounded && vy1 < LethalLandingVy;
    Outcome(Motion(if jumped then 0.0 else coyote, take && c.jump, used, grounded), vx1, vy1, jumped, lethal)
  }

  /** The coyote timer stays within [0, 0.1]; a jump needs it positive and empties it. */
  lemma CoyoteBounded(m: Motion, mode: Mode, c: Controls, grounded: bool, vx: real, vy: real, dt: real)
    requires 0.0 <= m.coyoteTimer <= CoyoteTime && dt >= 0.0
    ensures var r := Step(m, mode, c, grounded, vx, vy, dt);
      0.0 <= r.motion.coyoteTimer <= CoyoteTime &&
      (r.jumped ==> CoyoteAfter(m.coyoteTimer, grounded, dt) > 0.0 && r.motion.coyoteTimer == 0.0) &&
      (grounded && !r.jumped ==> r.motion.coyoteTimer == CoyoteTime)
  {
  }

  /** While mind-controlling or in the intro the target is 0 and nothing jumps. */
  lemma NoControlWithoutInput(m: Motion, mode: Mode, c: Controls, grounded: bool, vx: real, vy: real, dt: real)
    requires !TakesInput(mode)
    ensures TargetVelX(mode, c) == 0.0
    ensures var r := Step(m, mode, c, grounded, vx, vy, dt);
      !r.jumped && !r.motion.jumpHeld && r.vy == vy
  {
  }

  /** The target speed is the run speed in the held direction, left first. */
  lemma TargetIsRunSpeed(mode: Mode, c: Controls)
    requires TakesInput(mode)
    ensures c.left ==> TargetVelX(mode, c) == -6.5
    ensures !c.left && c.right ==> TargetVelX(mode, c) == 6.5
    ensures !c.left && !c.right ==> TargetVelX(mode, c) == 0.0
  {
  }

  /** On the ground with input the velocity is exactly the target. */
  lemma GroundedInputSnaps(m: Motion, mode: Mode, c: Controls, vx: real, vy: real, dt: real)
    requires TakesInput(mode) && (c.left || c.right)
    ensures Step(m, mode, c, true, vx, vy, dt).vx == TargetVelX(mode, c)
  {
  }

  /** On the ground without input the velocity is 0 or 0.8 of what it was, so it never grows. */
  lemma GroundedCoastSlows(m: Motion, mode: Mode, c: Controls, vx: real, vy: real, dt: real)
    requires TakesInput(mode) && !c.left && !c.right
    ensures var r := Step(m, mode, c, true, vx, vy, dt);
      (r.vx == 0.0 || r.vx == vx * 0.8) && Abs(r.vx) <= Abs(vx)
  {
  }

  /** No grounded velocity rule ever speeds the player up unless the player pushes. */
  lemma GroundedNeverSpeedsUpUnpushed(m: Motion, mode: Mode, c: Controls, vx: real, vy: real, dt: real)
    requires !TakesInput(mode) || (!c.left && !c.right)
    ensures Abs(Step(m, mode, c, true, vx, vy, dt).vx) <= Abs(vx)
  {
  }

  /** In the air with input the velocity moves towards the target by at most 15*dt and never past it. */
  lemma AirControlNeverOvershoots(m: Motion, mode: Mode, c: Controls, vx: real, vy: real, dt: real)
    requires TakesInput(mode) && (c.left || c.right) && dt >= 0.0
    ensures var r := Step(m, mode, c, false, vx, vy, dt);
      var t := TargetVelX(mode, c);
      Min(vx, t) <= r.vx <= Max(vx, t) && Abs(r.vx - vx) <= AirAccel * dt
  {
    var t := TargetVelX(mode, c);
    var step := AirAccel * dt;
    var r := Step(m, mode, c, false, vx, vy, dt);
    if Abs(vx - t) < step {
      assert r.vx == t;
    } else if t > vx {
      assert r.vx == vx + step;
    } else {
      assert r.vx == vx - step;
    }
  }

  /** In the air without input the velocity is left to the physics. */
  lemma AirWithoutInputKeepsVelocity(m: Motion, mode: Mode, c: Controls, vx: real, vy: real, dt: real)
    requires !TakesInput(mode) || (!c.left && !c.right)
    ensures Step(m, mode, c, false, vx, vy, dt).vx == vx
  {
  }

  /** A jump fires exactly on a press edge with coyote time left and no jump used. */
  lemma JumpRule(m: Motion, mode: Mode, c: Controls, grounded: bool, vx: real, vy: real, dt: real)
    ensures var r := Step(m, mode, c, grounded, vx, vy, dt);
      (r.jumped <==> TakesInput(mode) && c.jump && !m.jumpHeld &&
                     CoyoteAfter(m.coyoteTimer, grounded, dt) > 0.0 && !m.jumpUsed) &&
      (r.jumped ==> r.vy == JumpForce && r.motion.coyoteTimer == 0.0 && !r.lethal) &&
      (r.jumped && !grounded ==> r.motion.jumpUsed) &&
      (grounded ==> !r.motion.jumpUsed) &&
      r.motion.wasGrounded == grounded
  {
  }

  /** The lethal landing: a landing frame, outside the intro, falling faster than 20. */
  lemma LethalLandingRule(m: Motion, mode: Mode, c: Controls, grounded: bool, vx: real, vy: real, dt: real)
    ensures var r := Step(m, mode, c, grounded, vx, vy, dt);
      r.lethal <==> !mode.startingIntro && grounded && !m.wasGrounded && !r.jumped && vy < LethalLandingVy
  {
  }

  /** The inputs of one frame of locomotion. */
  datatype Tick = Tick(mode: Mode, controls: Controls, grounded: bool, vx: real, vy: real, dt: real)

  /** The motion state after a run of frames, with the number of jumps fired. */
  function Replay(m: Motion, ticks: seq<Tick>): (Motion, nat)
    decreases |ticks|
  {
    if ticks == [] then (m, 0)
    else
      var prev := Replay(m, ticks[..|ticks| - 1]);
      var t := ticks[|ticks| - 1];
      var r := Step(prev.0, t.mode, t.controls, t.grounded, t.vx, t.vy, t.dt);
      (r.motion, prev.1 + if r.jumped then 1 else 0)
  }

  ghost predicate Airborne(ticks: seq<Tick>) {
    forall i :: 0 <= i < |ticks| ==> !ticks[i].grounded
  }

  ghost predicate JumpHeldThroughout(ticks: seq<Tick>) {
    forall i :: 0 <= i < |ticks| ==> ticks[i].controls.jump && TakesInput(ticks[i].mode)
  }

  /** However often jump is pressed, an airborne spell holds at most one jump. */
  lemma {:induction false} OneJumpPerAirborneSpell(m: Motion, ticks: seq<Tick>)
    requires Airborne(ticks)
    ensures Replay(m, ticks).1 <= (if m.jumpUsed then 0 else 1)
    ensures Replay(m, ticks).1 == 1 ==> Replay(m, ticks).0.jumpUsed
    ensures m.jumpUsed ==> Replay(m, ticks).0.jumpUsed
    decreases |ticks|
  {
    if ticks != [] {
      var init := ticks[..|ticks| - 1];
      assert Airborne(init) by {
        forall i | 0 <= i < |init| ensures !init[i].grounded {
          assert init[i] == ticks[i];
        }
      }
      OneJumpPerAirborneSpell(m, init);
    }
  }

  /** Holding jump fires at most once, on the first frame, and never when it was already held. */
  lemma {:induction false} HoldingJumpFiresOnce(m: Motion, ticks: seq<Tick>)
    requires JumpHeldThroughout(ticks)
    ensures Replay(m, ticks).1 <= (if m.jumpHeld then 0 else 1)
    ensures ticks != [] ==> Replay(m, ticks).0.jumpHeld
    decreases |ticks|
  {
    if ticks != [] {
      var init := ticks[..|ticks| - 1];
      assert JumpHeldThroughout(init) by {
        forall i | 0 <= i < |init| ensures init[i].controls.jump && TakesInput(init[i].mode) {
          assert init[i] == ticks[i];
        }
      }
      HoldingJumpFiresOnce(m, init);
    }
  }

  class Player {
    const body: Body
    /** The rendered position, copied from the body at the start of each update. */
    var meshPosition: Vec3
    var isMindControlling: bool
    var isStartingIntro: bool
    /** The death hook, when one is installed. */
    var onDeath: Session?
    var coyoteTimer: real
    var wasGrounded: bool
    var jumpHeld: bool
    var jumpUsed: bool

    ghost predicate Valid()
      reads this, onDeath
    {
      onDeath != null ==> onDeath.body == body
    }

    function MotionState(): Motion
      reads this
    {
      Motion(coyoteTimer, jumpHeld, jumpUsed, wasGrounded)
    }

    function ModeOf(): Mode
      reads this
    {
      Mode(isMindControlling, isStartingIntro)
    }

    /** The state a death can change. */
    function Snapshot(): Victim
      reads this, body, onDeath
    {
      Victim(body.position, body.velocity, body.angularVelocity, body.awake,
             onDeath != null && onDeath.gameRunning, if onDeath != null then onDeath.deathScreens else 0)
    }

    /** The death handler `die` would run now. */
    function HookOf(): Hook
      reads this, onDeath, if onDeath != null then {onDeath.checkpoints} else {}
    {
      if onDeath == null then NoHook else onDeath.HookValue()
    }

    constructor (b: Body)
      ensures body == b && onDeath == null && meshPosition == b.position
      ensures !isMindControlling && !isStartingIntro
      ensures MotionState() == Motion(0.0, false, false, false)
    {
      body := b;
      meshPosition := b.position;
      isMindControlling := false;
      isStartingIntro := false;
      onDeath := null;
      coyoteTimer := 0.0;
      wasGrounded := false;
      jumpHeld := false;
      jumpUsed := false;
    }

    /** Hands the death to the hook, or puts the body back at the fallback spawn. */
    method Die()
      requires Valid()
      modifies body, onDeath
      ensures Snapshot() == Sessions.Die(old(Snapshot()), old(HookOf()))
      ensures body.collisionResponse == old(body.collisionResponse)
      ensures onDeath != null ==>
        onDeath.deathCooldown == old(onDeath.deathCooldown) &&
        onDeath.introState == old(onDeath.introState) &&
        onDeath.introRecoveryTimer == old(onDeath.introRecoveryTimer)
    {
      if onDeath != null {
        onDeath.OnDeath();
      } else {
        body.position := FallbackSpawn;
        body.velocity := Zero;
      }
    }

    /** One frame of locomotion. */
    method Update(im: InputManager, isGrounded: bool, deltaTime: real)
      requires Valid()
      modifies this, body, onDeath
      ensures Valid()
      ensures onDeath == old(onDeath) && ModeOf() == old(ModeOf())
      ensures meshPosition == old(body.position)
      ensures HookOf() == old(HookOf())
      ensures body.collisionResponse == old(body.collisionResponse)
      ensures onDeath != null ==> onDeath.deathCooldown == old(onDeath.deathCooldown)
      ensures onDeath != null ==>
        onDeath.introState == old(onDeath.introState) && onDeath.introRecoveryTimer == old(onDeath.introRecoveryTimer)
      ensures var r := Step(old(MotionState()), old(ModeOf()),
                            old(Controls(im.IsMovingLeft(), im.IsMovingRight(), im.IsJumpPressed())),
                            isGrounded, old(body.velocity.x), old(body.velocity.y), deltaTime);
        var moved := old(Snapshot()).(velocity := old(body.velocity).(x := r.vx, y := r.vy));
        MotionState() == r.motion &&
        Snapshot() == (if r.lethal then Sessions.Die(moved, old(HookOf())) else moved)
    {
      var controls := Controls(im.IsMovingLeft(), im.IsMovingRight(), im.IsJumpPressed());
      ghost var hook := HookOf();
      meshPosition := body.position;
      var lethal := Move(controls, isGrounded, deltaTime);
      ghost var moved := Snapshot();
      // fall damage
      if lethal {
        Die();
        assert Snapshot() == Sessions.Die(moved, hook);
      }
      ghost var final := Snapshot();
      wasGrounded := isGrounded;
      assert Snapshot() == final;
    }

    /**
     * The part of `update` before the fall-damage test: coyote time, the
     * horizontal velocity and the jump. Returns whether this frame is a lethal landing.
     */
    method Move(c: Controls, isGrounded: bool, deltaTime: real) returns (lethal: bool)
      modifies this, body
      ensures var r := Step(old(MotionState()), ModeOf(), c, isGrounded, old(body.velocity.x), old(body.velocity.y), deltaTime);
        MotionState() == r.motion.(wasGrounded := old(wasGrounded)) &&
        body.velocity == old(body.velocity).(x := r.vx, y := r.vy) &&
        lethal == r.lethal
      ensures body.position == old(body.position) && body.angularVelocity == old(body.angularVelocity)
      ensures body.awake == old(body.awake) && body.collisionResponse == old(body.collisionResponse)
      ensures meshPosition == old(meshPosition) && onDeath == old(onDeath) && ModeOf() == old(ModeOf())
    {
      var takeInput := !isMindControlling && !isStartingIntro;

      // coyote time
      if isGrounded {
        coyoteTimer := CoyoteTime;
      } else {
        coyoteTimer := Max(0.0, coyoteTimer - deltaTime);
      }
      var canJump := coyoteTimer > 0.0;

      // horizontal movement
      var vx := HorizontalVelocity(ModeOf(), c, isGrounded, body.velocity.x, body.velocity.y, deltaTime);
      body.velocity := body.velocity.(x := vx);

      // jump: once per press and once per airborne spell
      var jumpJustPressed := takeInput && c.jump && !jumpHeld;
      jumpHeld := takeInput && c.jump;
      if jumpJustPressed && canJump && !jumpUsed {
        body.velocity := body.velocity.(y := JumpForce);
        coyoteTimer := 0.0;
        jumpUsed := true;
      }
      if isGrounded {
        jumpUsed := false;
      }

      lethal := !isStartingIntro && isGrounded && !wasGrounded && body.velocity.y < LethalLandingVy;
    }
  }

  /** The horizontal-velocity section of `update`, branch for branch. */
  method HorizontalVelocity(mode: Mode, c: Controls, isGrounded: bool, vx0: real, vy: real, deltaTime: real)
    returns (vx: real)
    ensures vx == (if isGrounded then GroundVelX(mode, vx0, vy, TargetVelX(mode, c))
                   else AirVelX(TakesInput(mode), vx0, TargetVelX(mode, c), deltaTime))
  {
    var takeInput := !mode.mindControlling && !mode.startingIntro;
    var targetVelX := 0.0;
    if takeInput && c.left {
      targetVelX := -MovementSpeed;
    } else if takeInput && c.right {
      targetVelX := MovementSpeed;
    }

    vx := vx0;
    if isGrounded {
      if mode.startingIntro {
        if Abs(vy) < 0.1 {
          vx := vx * 0.95;
          if Abs(vx) < 0.1 { vx := 0.0; }
        }
      } else if mode.mindControlling {
        vx := vx * 0.8;
        if Abs(vx) < 0.1 { vx := 0.0; }
      } else {
        if targetVelX != 0.0 {
          vx := targetVelX;
        } else {
          vx := vx * 0.8;
          if Abs(vx) < 0.1 { vx := 0.0; }
        }
      }
    } else {
      // air control: momentum based
      if takeInput && targetVelX != 0.0 {
        var step := AirAccel * deltaTime;
        if Abs(vx - targetVelX) < step {
          vx := targetVelX;
        } else {
          vx := vx + (Sign(targetVelX - vx) as real) * step;
        }
      }
    }
  }
}
