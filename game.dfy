/**
 * The session and the frame loop (src/main.ts): the play and replay
 * buttons, the death hook, the clamped frame time, the invulnerability
 * after a replay, the cinematic intro, the order in which the systems run,
 * the audio inputs and the camera's zoom bands.
 *
 * The physics step runs between `Tick` and `Listen`; it belongs to the
 * physics engine and is not modelled, so whatever it does to the bodies is
 * simply what `Listen` finds. Ground tests, the guards' angles to the player
 * and the distances fed to the audio are inputs.
 */
module GameLoop {
  import opened Geometry
  import opened Bodies
  import opened Checkpoints
  import opened Sessions
  import opened Input
  import opened Players
  import opened Enemies
  import opened MindControl
  import opened Levels
  import opened Audio

  // ---------------------------------------------------------------------
  // Frame time and invulnerability

  /** The longest frame the simulation accepts, in seconds. */
  const MaxDelta: real := 0.1

  /** Milliseconds since the last frame, as seconds, capped at 0.1 so a stall cannot tunnel bodies. */
  function ClampDelta(elapsedMs: real): (dt: real)
    ensures dt <= MaxDelta
    ensures dt == elapsedMs / 1000.0 || dt == MaxDelta
    ensures elapsedMs <= 100.0 ==> dt == elapsedMs / 1000.0
    ensures elapsedMs >= 100.0 ==> dt == MaxDelta
  {
    Min(elapsedMs / 1000.0, MaxDelta)
  }

  /** The invulnerability countdown: it runs while positive, whether or not the game is running. */
  function CooldownAfter(cooldown: real, dt: real): real {
    if cooldown > 0.0 then cooldown - dt else cooldown
  }

  /** The invulnerability left after a replay (one second) and a run of frames. */
  function CooldownRun(cooldown: real, dts: seq<real>): real
    decreases |dts|
  {
    if dts == [] then cooldown else CooldownAfter(CooldownRun(cooldown, dts[..|dts| - 1]), dts[|dts| - 1])
  }

  /**
   * A replay buys exactly one second of frames: the player is invulnerable
   * while less than a second has passed and vulnerable from then on.
   */
  lemma {:induction false} ReplayGivesOneSecond(dts: seq<real>)
    requires forall i :: 0 <= i < |dts| ==> dts[i] >= 0.0
    ensures Total(dts) < 1.0 ==> CooldownRun(1.0, dts) == 1.0 - Total(dts)
    ensures (CooldownRun(1.0, dts) > 0.0) <==> Total(dts) < 1.0
    decreases |dts|
  {
    if dts != [] {
      var init := dts[..|dts| - 1];
      assert forall i :: 0 <= i < |init| ==> init[i] == dts[i];
      ReplayGivesOneSecond(init);
    }
  }

  /** A countdown that has run out stays out: a later death is handled. */
  lemma {:induction false} SpentCooldownStaysSpent(cooldown: real, dts: seq<real>)
    requires cooldown <= 0.0
    ensures CooldownRun(cooldown, dts) == cooldown
    decreases |dts|
  {
    if dts != [] {
      SpentCooldownStaysSpent(cooldown, dts[..|dts| - 1]);
    }
  }

  // ---------------------------------------------------------------------
  // The cinematic intro

  /** Intro stage (0 not started, 1 falling, 2 recovering, 3 playing), its timer, and the player's intro flag. */
  datatype Intro = Intro(stage: int, recoveryTimer: real, startingIntro: bool)

  /** The body readings the intro looks at, and the frame time. */
  datatype BodyReading = BodyReading(vx: real, vy: real, y: real, dt: real)

  /** The player has landed from the intro fall and stopped sliding. */
  predicate Settled(r: BodyReading) {
    r.vy > -0.1 && r.vy < 0.1 && r.y < 5.0 && Abs(r.vx) < 0.5
  }

  /** One frame of the intro: the next intro state and the body's x velocity after it. */
  function IntroStep(i: Intro, r: BodyReading): (Intro, real) {
    if i.stage == 1 then
      if Settled(r) then (Intro(2, 1.0, i.startingIntro), 0.0) else (i, r.vx)
    else if i.stage == 2 then
      var t := i.recoveryTimer - r.dt;
      if t <= 0.0 then (Intro(3, t, false), r.vx) else (i.(recoveryTimer := t), r.vx)
    else (i, r.vx)
  }

  /**
   * The intro moves one stage at a time and never back; stages 0 and 3 are
   * left alone; the player gets control back only on leaving stage 2; the
   * fall ends only once the player is settled, and then the slide is stopped.
   */
  lemma IntroStepRule(i: Intro, r: BodyReading)
    ensures var (j, vx) := IntroStep(i, r);
      (j.stage == i.stage || j.stage == i.stage + 1) &&
      (i.stage != 1 && i.stage != 2 ==> j == i && vx == r.vx) &&
      (j.startingIntro != i.startingIntro ==> i.stage == 2 && j.stage == 3 && !j.startingIntro) &&
      (i.stage == 1 && j.stage == 2 <==> i.stage == 1 && Settled(r)) &&
      (i.stage == 1 && j.stage == 2 ==> j.recoveryTimer == 1.0 && vx == 0.0) &&
      (i.stage == 2 && j.stage == 3 <==> i.stage == 2 && i.recoveryTimer - r.dt <= 0.0)
  {
  }

  function IntroRun(i: Intro, rs: seq<BodyReading>): Intro
    decreases |rs|
  {
    if rs == [] then i else IntroStep(IntroRun(i, rs[..|rs| - 1]), rs[|rs| - 1]).0
  }

  function Elapsed(rs: seq<BodyReading>): real
    decreases |rs|
  {
    if rs == [] then 0.0 else Elapsed(rs[..|rs| - 1]) + rs[|rs| - 1].dt
  }

  /**
   * Once the fall has ended, control comes back after exactly one second
   * of frames, whatever the body does meanwhile.
   */
  lemma {:induction false} RecoveryTakesOneSecond(s: bool, rs: seq<BodyReading>)
    requires forall k :: 0 <= k < |rs| ==> rs[k].dt >= 0.0
    ensures Elapsed(rs) < 1.0 ==> IntroRun(Intro(2, 1.0, s), rs) == Intro(2, 1.0 - Elapsed(rs), s)
    ensures Elapsed(rs) >= 1.0 ==> IntroRun(Intro(2, 1.0, s), rs).stage == 3 && !IntroRun(Intro(2, 1.0, s), rs).startingIntro
    decreases |rs|
  {
    if rs != [] {
      var init := rs[..|rs| - 1];
      assert forall k :: 0 <= k < |init| ==> init[k] == rs[k];
      RecoveryTakesOneSecond(s, init);
    }
  }

  // ---------------------------------------------------------------------
  // Audio inputs

  /** The audio's stand-in distance when nothing is near. */
  const FarAway: real := 999.0

  /** The nearest of the guards' distances, or 999 when every one is at least that far. */
  function Nearest(ds: seq<real>): real
    decreases |ds|
  {
    if ds == [] then FarAway
    else
      var prev := Nearest(ds[..|ds| - 1]);
      if ds[|ds| - 1] < prev then ds[|ds| - 1] else prev
  }

  lemma {:induction false} NearestIsMinimum(ds: seq<real>)
    ensures Nearest(ds) <= FarAway
    ensures forall i :: 0 <= i < |ds| ==> Nearest(ds) <= ds[i]
    ensures Nearest(ds) == FarAway || Nearest(ds) in ds
    decreases |ds|
  {
    if ds != [] {
      var init := ds[..|ds| - 1];
      NearestIsMinimum(init);
      assert forall i :: 0 <= i < |init| ==> init[i] == ds[i];
    }
  }

  /** The nearest-guard loop. */
  method NearestEnemyDist(ds: seq<real>) returns (nearest: real)
    ensures nearest == Nearest(ds)
    ensures nearest <= FarAway && (forall i :: 0 <= i < |ds| ==> nearest <= ds[i])
    ensures nearest == FarAway || nearest in ds
  {
    nearest := FarAway;
    var i := 0;
    while i < |ds|
      invariant 0 <= i <= |ds|
      invariant nearest == Nearest(ds[..i])
    {
      assert ds[..i + 1][..i] == ds[..i];
      if ds[i] < nearest {
        nearest := ds[i];
      }
      i := i + 1;
    }
    assert ds[..i] == ds;
    NearestIsMinimum(ds);
  }

  // ---------------------------------------------------------------------
  // The camera's zoom

  /** The camera distance a stretch of the level asks for, and how fast the camera gets there. */
  datatype Zoom = Zoom(targetZ: real, lerpSpeed: real)

  const WideShot: Zoom := Zoom(30.0, 0.02)

  /** The zoom band the player's x falls in; every band is open at both ends. */
  function ZoomFor(px: real): Zoom {
    if px > 65.0 && px < 95.0 then Zoom(22.0, 0.02)        // stealth zone
    else if px > 95.0 && px < 120.0 then Zoom(35.0, 0.02)  // spike gauntlet
    else if px > 145.0 && px < 170.0 then Zoom(38.0, 0.02) // vertical climb
    else if px > 170.0 && px < 190.0 then Zoom(24.0, 0.02) // facility entrance
    else if px > 190.0 && px < 230.0 then Zoom(18.0, 0.04) // wolf chase
    else if px > 230.0 && px < 282.0 then Zoom(22.0, 0.02) // desperate run
    else if px > 282.0 then Zoom(35.0, 0.01)               // safe zone
    else WideShot
  }

  /**
   * The band edges, the stretch between the gauntlet and the climb and
   * everything before the stealth zone get the default wide shot.
   */
  lemma ZoomEdgesAreWide(px: real)
    requires px <= 65.0 || px == 95.0 || (120.0 <= px <= 145.0) || px == 170.0 ||
             px == 190.0 || px == 230.0 || px == 282.0
    ensures ZoomFor(px) == WideShot
  {
  }

  /**
   * Every shot lies between 18 and 38; the wolf chase alone has the closest
   * shot and the fastest zoom, the safe zone alone the slowest.
   */
  lemma ZoomRange(px: real)
    ensures 18.0 <= ZoomFor(px).targetZ <= 38.0
    ensures ZoomFor(px).targetZ == 18.0 <==> 190.0 < px < 230.0
    ensures ZoomFor(px).lerpSpeed == 0.04 <==> 190.0 < px < 230.0
    ensures ZoomFor(px).lerpSpeed == 0.01 <==> px > 282.0
    ensures ZoomFor(px).lerpSpeed in {0.01, 0.02, 0.04}
  {
  }

  /** Linear interpolation from `a` to `b` by `t`. */
  function Lerp(a: real, b: real, t: real): real {
    (1.0 - t) * a + t * b
  }

  /** A zoom step moves the camera towards its target, never past it, closing a fraction t of the gap. */
  lemma LerpApproaches(a: real, b: real, t: real)
    requires 0.0 <= t <= 1.0
    ensures Min(a, b) <= Lerp(a, b, t) <= Max(a, b)
    ensures Lerp(a, b, t) - b == (1.0 - t) * (a - b)
  {
    var g := b - a;
    LerpIsStep(a, b, t);
    if g >= 0.0 {
      ScaleWithin(t, g);
    } else {
      ScaleWithin(t, -g);
      NegatedScale(t, g);
    }
  }

  lemma LerpIsStep(a: real, b: real, t: real)
    ensures Lerp(a, b, t) == a + t * (b - a)
    ensures Lerp(a, b, t) - b == (1.0 - t) * (a - b)
  {
  }

  lemma NegatedScale(t: real, g: real)
    ensures t * (-g) == -(t * g)
  {
  }

  /** A fraction of a non-negative gap lies within the gap. */
  lemma ScaleWithin(t: real, x: real)
    requires 0.0 <= t <= 1.0 && 0.0 <= x
    ensures 0.0 <= t * x <= x
  {
    assert x - t * x == (1.0 - t) * x;
  }

  // ---------------------------------------------------------------------
  // The game

  /** The level, built after the player, with none of its bodies being the player's. */
  method BuildLevel(playerBody: Body, others: set<object>) returns (lb: LevelBuilder)
    ensures fresh(lb) && lb.Valid() && lb.Apart(playerBody)
    ensures forall o :: o in others ==> lb.Outside(o)
  {
    lb := new LevelBuilder();
    assert forall i :: 0 <= i < |lb.enemies| ==> lb.enemies[i].body in EnemyBodies(lb.enemies);
    assert forall k :: 0 <= k < |lb.interactables| ==> lb.interactables[k].body in PropBodies(lb.interactables);
  }

  /** The player, the level, the mind control and the session, with the death hook wired to the session. */
  method Assemble(im: InputManager) returns (p: Player, lb: LevelBuilder, mc: MindControlSystem, s: Session)
    ensures p.onDeath == s && s.body == p.body && s.checkpoints == lb.checkpointSystem
    ensures lb.Outside(p) && lb.Outside(mc) && lb.Outside(im) && lb.Outside(s)
    ensures lb.Valid() && lb.Apart(p.body) && mc.Valid()
    ensures p.body !in DroneBodies(mc.drones) && lb.timedDoorBody !in DroneBodies(mc.drones)
    ensures !s.gameRunning && s.deathCooldown == 0.0 && s.introState == 0 && s.introRecoveryTimer == 0.0
    ensures !p.isStartingIntro && p.body.position == Vec3(0.0, 5.0, 0.0)
    ensures mc.helmetPosition == Vec3(185.0, 2.0, 0.0) && mc.drones == []
  {
    var playerBody := new Body(Vec3(0.0, 5.0, 0.0));
    p := new Player(playerBody);
    mc := new MindControlSystem(Vec3(185.0, 2.0, 0.0));
    lb := BuildLevel(playerBody, {p, mc, im});
    s := new Session(lb.checkpointSystem, playerBody);
    assert lb.Outside(s);
    p.onDeath := s;
    assert DroneBodies(mc.drones) == {};
  }

  class Game {
    const input: InputManager
    const audio: AudioManager
    const player: Player
    const level: LevelBuilder
    const mindControl: MindControlSystem
    /** The module-level state of the game loop and the death hook. */
    const session: Session
    var cameraZ: real

    function IntroOf(): Intro
      reads session, player
    {
      Intro(session.introState, session.introRecoveryTimer, player.isStartingIntro)
    }

    ghost predicate Valid()
      reads this, player, session, level, level.enemies, level.checkpointSystem, level.wolf, level.timedDoorBody
      reads mindControl
    {
      player.onDeath == session && session.body == player.body &&
      session.checkpoints == level.checkpointSystem &&
      level.Valid() && level.Apart(player.body) &&
      level.Outside(player) && level.Outside(mindControl) && level.Outside(input) && level.Outside(session) &&
      mindControl.Valid() && player.body !in DroneBodies(mindControl.drones) &&
      level.timedDoorBody !in DroneBodies(mindControl.drones) &&
      // the game registers no drone with the mind-control system
      mindControl.drones == []
    }

    /** Wires the game together: the help hook points at the session, the helmet is at the facility entrance. */
    constructor ()
      ensures Valid()
      ensures !session.gameRunning && session.deathCooldown == 0.0 && IntroOf() == Intro(0, 0.0, false)
      ensures player.body.position == Vec3(0.0, 5.0, 0.0) && cameraZ == 30.0
      ensures mindControl.helmetPosition == Vec3(185.0, 2.0, 0.0) && mindControl.drones == []
      ensures !audio.started && input.gameUI.Some?
    {
      var im := new InputManager();
      im.SetGameUI(TouchControls(0.0, false, false));
      var am := new AudioManager();
      var p, lb, mc, s := Assemble(im);
      input := im;
      audio := am;
      player := p;
      level := lb;
      mindControl := mc;
      session := s;
      cameraZ := 30.0;
    }

    /** The play button: start the audio and drop the player into the intro from high up. */
    method OnPlay()
      requires Valid()
      modifies session`gameRunning, session`introState, audio, player`isStartingIntro, player.body
      ensures Valid()
      ensures session.gameRunning && audio.started && IntroOf().stage == 1 && IntroOf().startingIntro
      ensures player.body.position == Vec3(-5.0, 12.0, 0.0) && player.body.velocity == Vec3(0.0, -2.0, 0.0)
      ensures player.body.angularVelocity == old(player.body.angularVelocity) && player.body.awake == old(player.body.awake)
      ensures player.body.collisionResponse == old(player.body.collisionResponse)
      ensures session.deathCooldown == old(session.deathCooldown) && session.introRecoveryTimer == old(session.introRecoveryTimer)
      ensures audio.footstepTimer == old(audio.footstepTimer) && audio.forestTimer == old(audio.forestTimer) &&
              audio.growlTimer == old(audio.growlTimer)
      ensures audio.droneLevel == (if old(audio.started) then old(audio.droneLevel) else DroneStartLevel)
    {
      session.gameRunning := true;
      audio.Start();
      player.isStartingIntro := true;
      player.body.position := Vec3(-5.0, 12.0, 0.0);
      player.body.velocity := Vec3(0.0, -2.0, 0.0);
      session.introState := 1;
    }

    /** The replay button: one second of invulnerability, back at the last checkpoint, stopped. */
    method OnReplay()
      requires Valid()
      modifies session`gameRunning, session`deathCooldown, audio, player.body
      ensures Valid()
      ensures session.gameRunning && audio.started && session.deathCooldown == 1.0
      ensures player.body.position == level.checkpointSystem.GetSpawnPosition()
      ensures player.body.velocity == Zero && player.body.angularVelocity == Zero && player.body.awake
      ensures player.body.collisionResponse == old(player.body.collisionResponse)
      ensures IntroOf() == old(IntroOf())
      ensures audio.footstepTimer == old(audio.footstepTimer) && audio.forestTimer == old(audio.forestTimer) &&
              audio.growlTimer == old(audio.growlTimer)
      ensures audio.droneLevel == (if old(audio.started) then old(audio.droneLevel) else DroneStartLevel)
    {
      session.gameRunning := true;
      audio.Start();
      session.deathCooldown := 1.0;
      level.checkpointSystem.Respawn(player.body);
      player.body.velocity := Zero;
    }

    /**
     * The simulation half of a frame: clamp the frame time, run the
     * invulnerability countdown and, while the game runs, the intro, the
     * player, the level and the mind control, in that order. Returns the
     * frame time and whether the game was running at the start of the frame.
     */
    method Tick(elapsedMs: real, playerGrounded: bool, angles: seq<real>, droneGrounded: seq<bool>)
      returns (dt: real, ran: bool)
      requires Valid() && |angles| == |level.enemies| && |droneGrounded| == |mindControl.drones|
      modifies session, player, player.body
      modifies level, level.enemies, EnemyBodies(level.enemies), EnemyDetections(level.enemies)
      modifies level.interactables, level.checkpointSystem, level.wolf, level.wolf.body
      modifies level.timedDoorBody, level.safeZoneDoorBody
      modifies mindControl`wasInteractPressed, DroneBodies(mindControl.drones)
      ensures Valid()
      ensures player.body.collisionResponse == old(player.body.collisionResponse)
      ensures dt == ClampDelta(elapsedMs) && ran == old(session.gameRunning)
      ensures session.deathCooldown == CooldownAfter(old(session.deathCooldown), dt)
      ensures !ran ==> IntroOf() == old(IntroOf()) && player.Snapshot() == old(player.Snapshot()) &&
                       level.SceneOf() == old(level.SceneOf())
      ensures ran ==> (IntroOf() ==
        IntroStep(old(IntroOf()), BodyReading(old(player.body.velocity.x), old(player.body.velocity.y),
                                              old(player.body.position.y), dt)).0)
      ensures ran ==>
        var (i, vx) := IntroStep(old(IntroOf()), BodyReading(old(player.body.velocity.x), old(player.body.velocity.y),
                                                           old(player.body.position.y), dt));
        var r := Step(old(player.MotionState()), Mode(old(player.isMindControlling), i.startingIntro),
                      old(Controls(input.IsMovingLeft(), input.IsMovingRight(), input.IsJumpPressed())),
                      playerGrounded, vx, old(player.body.velocity.y), dt);
        var moved := old(player.Snapshot()).(velocity := old(player.body.velocity).(x := r.vx, y := r.vy));
        var hook := OnDeathHook(session.deathCooldown, old(level.checkpointSystem.GetSpawnPosition()));
        player.MotionState() == r.motion && player.meshPosition == old(player.body.position) &&
        (level.SceneOf(), player.Snapshot()) ==
          level.Next(old(level.SceneOf()), if r.lethal then Sessions.Die(moved, hook) else moved, hook,
                     old(player.body.position), old(input.IsInteractPressed()), dt, angles, player.HookOf())
      ensures ran ==>
        mindControl.wasInteractPressed == input.IsInteractPressed() &&
        player.isMindControlling ==
          Possess(old(player.isMindControlling), input.IsInteractPressed() && !old(mindControl.wasInteractPressed),
                  DistSq(player.body.position, mindControl.helmetPosition) < HelmetReachSq)
      ensures level.checkpointSystem.lastReachedId >= old(level.checkpointSystem.lastReachedId)
      ensures old(level.wolfChaseTriggered) ==> level.wolfChaseTriggered
      ensures old(level.safeZoneDoorClosed) ==> level.safeZoneDoorClosed
    {
      dt := ClampDelta(elapsedMs);
      ran := session.gameRunning;

      CoolDown(dt);
      if ran {
        AdvanceIntro(dt);
        RunSystems(playerGrounded, angles, droneGrounded, dt);
      }
    }

    /** The death cooldown runs down while positive. */
    method CoolDown(dt: real)
      requires Valid()
      modifies session`deathCooldown
      ensures Valid()
      ensures session.deathCooldown == CooldownAfter(old(session.deathCooldown), dt)
      ensures IntroOf() == old(IntroOf()) && player.Snapshot() == old(player.Snapshot())
      ensures level.SceneOf() == old(level.SceneOf())
      ensures player.HookOf() == OnDeathHook(session.deathCooldown, level.checkpointSystem.GetSpawnPosition())
    {
      if session.deathCooldown > 0.0 {
        session.deathCooldown := session.deathCooldown - dt;
      }
    }

    /** The intro machine of the frame. */
    method AdvanceIntro(dt: real)
      requires Valid()
      modifies session`introState, session`introRecoveryTimer, player`isStartingIntro, player.body
      ensures Valid()
      ensures var (i, vx) := IntroStep(old(IntroOf()), BodyReading(old(player.body.velocity.x), old(player.body.velocity.y),
                                                              old(player.body.position.y), dt));
        IntroOf() == i && player.body.velocity == old(player.body.velocity).(x := vx)
      ensures player.body.position == old(player.body.position)
      ensures player.body.angularVelocity == old(player.body.angularVelocity) && player.body.awake == old(player.body.awake)
      ensures player.body.collisionResponse == old(player.body.collisionResponse)
      ensures level.SceneOf() == old(level.SceneOf()) && player.HookOf() == old(player.HookOf())
      ensures player.Snapshot() == old(player.Snapshot()).(velocity := player.body.velocity)
      ensures player.MotionState() == old(player.MotionState())
      ensures player.ModeOf() == Mode(old(player.isMindControlling), IntroOf().startingIntro)
    {
      IntroMachine(dt);
    }

    /** The intro machine's branches, on the session and the player's body alone. */
    method IntroMachine(dt: real)
      requires Valid()
      modifies session`introState, session`introRecoveryTimer, player`isStartingIntro, player.body
      ensures Valid()
      ensures var (i, vx) := IntroStep(old(IntroOf()), BodyReading(old(player.body.velocity.x), old(player.body.velocity.y),
                                                              old(player.body.position.y), dt));
        IntroOf() == i && player.body.velocity == old(player.body.velocity).(x := vx)
      ensures player.body.position == old(player.body.position)
      ensures player.body.angularVelocity == old(player.body.angularVelocity) && player.body.awake == old(player.body.awake)
      ensures player.body.collisionResponse == old(player.body.collisionResponse)
    {
      if session.introState == 1 {
        // ends once landed, settled and no longer sliding
        if player.body.velocity.y > -0.1 && player.body.velocity.y < 0.1 && player.body.position.y < 5.0 {
          if Abs(player.body.velocity.x) < 0.5 {
            player.body.velocity := player.body.velocity.(x := 0.0);
            session.introState := 2;
            session.introRecoveryTimer := 1.0;
          }
        }
      } else if session.introState == 2 {
        session.introRecoveryTimer := session.introRecoveryTimer - dt;
        if session.introRecoveryTimer <= 0.0 {
          session.introState := 3;
          player.isStartingIntro := false;
        }
      }
    }

    /**
     * Player, level and mind control, in the frame's order: the level starts
     * from the player the player's update left, and mind control measures the
     * player the level left.
     */
    method RunSystems(playerGrounded: bool, angles: seq<real>, droneGrounded: seq<bool>, dt: real)
      requires Valid() && |angles| == |level.enemies| && |droneGrounded| == |mindControl.drones|
      modifies session, player, player.body
      modifies level, level.enemies, EnemyBodies(level.enemies), EnemyDetections(level.enemies)
      modifies level.interactables, level.checkpointSystem, level.wolf, level.wolf.body
      modifies level.timedDoorBody, level.safeZoneDoorBody
      modifies mindControl`wasInteractPressed, DroneBodies(mindControl.drones)
      ensures Valid()
      ensures player.body.collisionResponse == old(player.body.collisionResponse)
      ensures IntroOf() == old(IntroOf()) && session.deathCooldown == old(session.deathCooldown)
      ensures var r := Step(old(player.MotionState()), old(player.ModeOf()),
                            old(Controls(input.IsMovingLeft(), input.IsMovingRight(), input.IsJumpPressed())),
                            playerGrounded, old(player.body.velocity.x), old(player.body.velocity.y), dt);
        var moved := old(player.Snapshot()).(velocity := old(player.body.velocity).(x := r.vx, y := r.vy));
        player.MotionState() == r.motion && player.meshPosition == old(player.body.position) &&
        (level.SceneOf(), player.Snapshot()) ==
          level.Next(old(level.SceneOf()), if r.lethal then Sessions.Die(moved, old(player.HookOf())) else moved,
                     old(player.HookOf()), old(player.body.position), old(input.IsInteractPressed()), dt, angles,
                     player.HookOf())
      ensures mindControl.wasInteractPressed == input.IsInteractPressed()
      ensures player.isMindControlling ==
        Possess(old(player.isMindControlling), input.IsInteractPressed() && !old(mindControl.wasInteractPressed),
                DistSq(player.body.position, mindControl.helmetPosition) < HelmetReachSq)
      ensures level.checkpointSystem.lastReachedId >= old(level.checkpointSystem.lastReachedId)
      ensures old(level.wolfChaseTriggered) ==> level.wolfChaseTriggered
      ensures old(level.safeZoneDoorClosed) ==> level.safeZoneDoorClosed
    {
      RunPlayer(playerGrounded, dt);
      RunLevel(angles, droneGrounded, dt);
    }

    /** The player's own update, which leaves the level and mind control as they are. */
    method RunPlayer(playerGrounded: bool, dt: real)
      requires Valid()
      modifies player, player.body, session
      ensures Valid()
      ensures player.body.collisionResponse == old(player.body.collisionResponse)
      ensures IntroOf() == old(IntroOf()) && session.deathCooldown == old(session.deathCooldown)
      ensures level.SceneOf() == old(level.SceneOf()) && level.LatchState() == old(level.LatchState())
      ensures level.checkpointSystem.lastReachedId == old(level.checkpointSystem.lastReachedId)
      ensures mindControl.wasInteractPressed == old(mindControl.wasInteractPressed)
      ensures input.IsInteractPressed() == old(input.IsInteractPressed())
      ensures player.ModeOf() == old(player.ModeOf()) && player.HookOf() == old(player.HookOf())
      ensures player.meshPosition == old(player.body.position)
      ensures var r := Step(old(player.MotionState()), old(player.ModeOf()),
                            old(Controls(input.IsMovingLeft(), input.IsMovingRight(), input.IsJumpPressed())),
                            playerGrounded, old(player.body.velocity.x), old(player.body.velocity.y), dt);
        var moved := old(player.Snapshot()).(velocity := old(player.body.velocity).(x := r.vx, y := r.vy));
        player.MotionState() == r.motion &&
        player.Snapshot() == (if r.lethal then Sessions.Die(moved, old(player.HookOf())) else moved)
    {
      player.Update(input, playerGrounded, dt);
    }

    /** The level and mind control, from the player as it is now. */
    method RunLevel(angles: seq<real>, droneGrounded: seq<bool>, dt: real)
      requires Valid() && |angles| == |level.enemies| && |droneGrounded| == |mindControl.drones|
      modifies session, player`isMindControlling, player.body
      modifies level, level.enemies, EnemyBodies(level.enemies), EnemyDetections(level.enemies)
      modifies level.interactables, level.checkpointSystem, level.wolf, level.wolf.body
      modifies level.timedDoorBody, level.safeZoneDoorBody
      modifies mindControl`wasInteractPressed, DroneBodies(mindControl.drones)
      ensures Valid()
      ensures player.body.collisionResponse == old(player.body.collisionResponse)
      ensures IntroOf() == old(IntroOf()) && session.deathCooldown == old(session.deathCooldown)
      ensures player.meshPosition == old(player.meshPosition) && player.MotionState() == old(player.MotionState())
      ensures (level.SceneOf(), player.Snapshot()) ==
        level.Next(old(level.SceneOf()), old(player.Snapshot()), old(player.HookOf()), old(player.meshPosition),
                   old(input.IsInteractPressed()), dt, angles, player.HookOf())
      ensures mindControl.wasInteractPressed == input.IsInteractPressed()
      ensures player.isMindControlling ==
        Possess(old(player.isMindControlling), input.IsInteractPressed() && !old(mindControl.wasInteractPressed),
                DistSq(player.body.position, mindControl.helmetPosition) < HelmetReachSq)
      ensures level.checkpointSystem.lastReachedId >= old(level.checkpointSystem.lastReachedId)
      ensures old(level.wolfChaseTriggered) ==> level.wolfChaseTriggered
      ensures old(level.safeZoneDoorClosed) ==> level.safeZoneDoorClosed
    {
      StepLevel(angles, dt);
      RunMindControl(droneGrounded);
    }

    /** The level's update, which leaves the rest of the player, mind control and the input as they are. */
    method StepLevel(angles: seq<real>, dt: real)
      requires Valid() && |angles| == |level.enemies|
      modifies session, player.body
      modifies level, level.enemies, EnemyBodies(level.enemies), EnemyDetections(level.enemies)
      modifies level.interactables, level.checkpointSystem, level.wolf, level.wolf.body
      modifies level.timedDoorBody, level.safeZoneDoorBody
      ensures Valid()
      ensures player.body.collisionResponse == old(player.body.collisionResponse)
      ensures IntroOf() == old(IntroOf()) && session.deathCooldown == old(session.deathCooldown)
      ensures (level.SceneOf(), player.Snapshot()) ==
        level.Next(old(level.SceneOf()), old(player.Snapshot()), old(player.HookOf()), old(player.meshPosition),
                   old(input.IsInteractPressed()), dt, angles, player.HookOf())
      ensures level.checkpointSystem.lastReachedId >= old(level.checkpointSystem.lastReachedId)
      ensures old(level.wolfChaseTriggered) ==> level.wolfChaseTriggered
      ensures old(level.safeZoneDoorClosed) ==> level.safeZoneDoorClosed
    {
      level.Update(player, input, dt, angles);
    }

    /** Mind control's update, which leaves the level and the player's body as they are. */
    method RunMindControl(droneGrounded: seq<bool>)
      requires Valid() && |droneGrounded| == |mindControl.drones|
      modifies player`isMindControlling, mindControl`wasInteractPressed, DroneBodies(mindControl.drones)
      ensures Valid()
      ensures level.SceneOf() == old(level.SceneOf())
      ensures player.Snapshot() == old(player.Snapshot()) && player.HookOf() == old(player.HookOf())
      ensures player.meshPosition == old(player.meshPosition) && player.MotionState() == old(player.MotionState())
      ensures IntroOf() == old(IntroOf())
      ensures mindControl.wasInteractPressed == input.IsInteractPressed()
      ensures player.isMindControlling ==
        Possess(old(player.isMindControlling), input.IsInteractPressed() && !old(mindControl.wasInteractPressed),
                DistSq(player.body.position, mindControl.helmetPosition) < HelmetReachSq)
    {
      mindControl.Update(player, input, droneGrounded);
    }

    /**
     * The audio half of a frame, after the physics step: the player's
     * speed, the nearest guard and, once the chase has been triggered, the
     * wolf. `enemyDists` and `wolfDistance` are the measured distances.
     */
    method Listen(dt: real, ran: bool, enemyDists: seq<real>, wolfDistance: real, roll: real)
      returns (cues: seq<Cue>)
      modifies audio
      ensures !ran || !old(audio.started) ==> (cues == [] && audio.footstepTimer == old(audio.footstepTimer) &&
        audio.forestTimer == old(audio.forestTimer) && audio.growlTimer == old(audio.growlTimer) &&
        audio.droneLevel == old(audio.droneLevel))
      ensures ran && audio.started ==>
        cues == Cues(old(audio.footstepTimer), old(audio.forestTimer), old(audio.growlTimer), dt,
                     Abs(player.body.velocity.x), Nearest(enemyDists),
                     if level.wolfChaseTriggered then wolfDistance else FarAway, roll)
      ensures ran && audio.started ==>
        var wolfDist := if level.wolfChaseTriggered then wolfDistance else FarAway;
        audio.footstepTimer == FootstepTimer(old(audio.footstepTimer), dt, Abs(player.body.velocity.x)) &&
        audio.forestTimer == ForestTimer(old(audio.forestTimer), dt, wolfDist, roll) &&
        audio.growlTimer == AfterBark(AfterGrowl(old(audio.growlTimer), dt, Nearest(enemyDists)), dt, wolfDist) &&
        audio.droneLevel == DangerLevel(wolfDist, Nearest(enemyDists))
      ensures audio.started == old(audio.started)
    {
      cues := [];
      if ran {
        var playerSpeed := Abs(player.body.velocity.x);
        var nearest := NearestEnemyDist(enemyDists);
        var wolfDist := FarAway;
        if level.wolfChaseTriggered {
          wolfDist := wolfDistance;
        }
        cues := audio.Update(dt, playerSpeed, nearest, wolfDist, roll);
      }
    }

    /** The camera's zoom towards the band the rendered player is in. */
    method Present()
      modifies this`cameraZ
      ensures var z := ZoomFor(player.meshPosition.x);
        cameraZ == Lerp(old(cameraZ), z.targetZ, z.lerpSpeed)
    {
      var px := player.meshPosition.x;
      var zoom := ZoomFor(px);
      cameraZ := Lerp(cameraZ, zoom.targetZ, zoom.lerpSpeed);
    }
  }

  /** A zoom step with any band's speed never overshoots the band's shot. */
  lemma ZoomNeverOvershoots(cameraZ: real, px: real)
    ensures var z := ZoomFor(px);
      Min(cameraZ, z.targetZ) <= Lerp(cameraZ, z.targetZ, z.lerpSpeed) <= Max(cameraZ, z.targetZ)
  {
    ZoomRange(px);
    LerpApproaches(cameraZ, ZoomFor(px).targetZ, ZoomFor(px).lerpSpeed);
  }
}
