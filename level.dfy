/**
 * The level (src/environment/LevelBuilder.ts): what the section builders
 * leave behind (guards, interactables, hazard zones, the eleven
 * checkpoints, the wolf and two doors) and the per-frame update that drives
 * them in a fixed order: guards, interactables, lever pulls, hazards,
 * checkpoints, the death floor, the timed door, and the wolf section.
 *
 * Geometry, meshes, lights and decoration are not modelled. Each part of
 * the update is a method of its own, in the order the update runs them.
 */
module Levels {
  import opened Wrappers
  import opened Geometry
  import opened Bodies
  import opened Checkpoints
  import opened Detection
  import opened Sessions
  import opened Players
  import opened Enemies
  import opened Wolves
  import opened Hazards
  import opened Interactables

  // ---------------------------------------------------------------------
  // What the sections build

  /** The checkpoints in registration order, one or two per section. */
  const CheckpointPositions: seq<Vec3> := [
    Vec3(-3.0, 8.0, 0.0),    // 1 forest intro
    Vec3(32.0, 2.0, 0.0),    // 2 first gap
    Vec3(53.0, 2.0, 0.0),    // 3 box puzzle
    Vec3(93.0, 2.0, 0.0),    // 4 stealth zone
    Vec3(121.0, 2.0, 0.0),   // 5 spike gauntlet
    Vec3(126.0, 2.0, 0.0),   // 6 lever and door
    Vec3(163.0, 7.0, 0.0),   // 7 vertical climb
    Vec3(178.0, 2.0, 0.0),   // 8 facility entrance
    Vec3(192.0, 2.0, 0.0),   // 9 wolf chase
    Vec3(248.0, 2.0, 0.0),   // 10 desperate run
    Vec3(288.0, 2.0, 0.0)    // 11 safe zone
  ]

  /** The hazard zones in the order they are pushed. */
  const LevelHazards: seq<HazardZone> := [
    HazardZone(Fall, Area(29.0, -8.0, 6.0, 10.0)),
    HazardZone(Fall, Area(50.5, -8.0, 5.0, 10.0)),
    HazardZone(Spike, Area(100.5, -2.0, 3.0, 2.0)),
    HazardZone(Spike, Area(106.5, -2.0, 3.0, 2.0)),
    HazardZone(Spike, Area(112.5, -2.0, 3.0, 2.0)),
    HazardZone(Spike, Area(118.5, -2.0, 3.0, 2.0)),
    HazardZone(Fall, Area(241.0, -8.0, 4.0, 10.0)),
    HazardZone(Spike, Area(252.5, -2.0, 3.0, 2.0)),
    HazardZone(Fall, Area(269.0, -8.0, 4.0, 10.0))
  ]

  /** Checkpoints run from west to east in the order they are registered. */
  lemma CheckpointsRunEastward()
    ensures |CheckpointPositions| == 11
    ensures forall i, j :: 0 <= i < j < |CheckpointPositions| ==>
      CheckpointPositions[i].x < CheckpointPositions[j].x
  {
  }

  /** No checkpoint lies inside a hazard zone, so a respawn never lands in one. */
  lemma NoCheckpointInAHazard()
    ensures forall i, k :: 0 <= i < |CheckpointPositions| && 0 <= k < |LevelHazards| ==>
      !Kills(LevelHazards[k], CheckpointPositions[i].x, CheckpointPositions[i].y)
  {
  }

  // ---------------------------------------------------------------------
  // The timed door

  /** The timed door: open flag, remaining time, and whether its body blocks. */
  datatype TimedDoor = TimedDoor(isOpen: bool, openTimer: real, solid: bool)

  const DoorOpenTime: real := 5.0

  /** What the lever's `onActivate` closure leaves: open, passable, five seconds to go. */
  const OpenedDoor: TimedDoor := TimedDoor(true, DoorOpenTime, false)

  /** The door section of the update. */
  function DoorTick(d: TimedDoor, dt: real): TimedDoor {
    if d.isOpen then
      var t := d.openTimer - dt;
      if t <= 0.0 then TimedDoor(false, t, true) else d.(openTimer := t)
    else d
  }

  /** An open door never blocks, a closed one always does. */
  predicate DoorConsistent(d: TimedDoor) {
    d.isOpen <==> !d.solid
  }

  lemma DoorTickKeepsConsistency(d: TimedDoor, dt: real)
    requires DoorConsistent(d)
    ensures DoorConsistent(DoorTick(d, dt)) && DoorConsistent(OpenedDoor)
    ensures !d.isOpen ==> DoorTick(d, dt) == d
  {
  }

  /** The door over a run of frames in which the lever is not pulled. */
  function DoorRun(d: TimedDoor, dts: seq<real>): TimedDoor
    decreases |dts|
  {
    if dts == [] then d else DoorTick(DoorRun(d, dts[..|dts| - 1]), dts[|dts| - 1])
  }

  function Total(dts: seq<real>): real
    decreases |dts|
  {
    if dts == [] then 0.0 else Total(dts[..|dts| - 1]) + dts[|dts| - 1]
  }

  /**
   * A door opened by the lever stays open, with the time left counting
   * down, until five seconds of frames have passed, and is closed and solid
   * from then on, wherever the player is.
   */
  lemma {:induction false} DoorClosesAfterFiveSeconds(dts: seq<real>)
    requires forall i :: 0 <= i < |dts| ==> dts[i] >= 0.0
    ensures Total(dts) < DoorOpenTime ==> DoorRun(OpenedDoor, dts) == TimedDoor(true, DoorOpenTime - Total(dts), false)
    ensures Total(dts) >= DoorOpenTime ==> !DoorRun(OpenedDoor, dts).isOpen && DoorRun(OpenedDoor, dts).solid
    decreases |dts|
  {
    if dts != [] {
      var init := dts[..|dts| - 1];
      assert forall i :: 0 <= i < |init| ==> init[i] == dts[i];
      DoorClosesAfterFiveSeconds(init);
    }
  }

  // ---------------------------------------------------------------------
  // The wolf section

  const WolfChaseX: real := 190.0
  const SafeZoneX: real := 284.5

  /** The latches of the wolf section: chase triggered, wolf chasing, safe-zone door closed. */
  datatype Latches = Latches(triggered: bool, chasing: bool, doorClosed: bool)

  /** The trigger: the first frame past x = 190 latches it and starts the chase. */
  function Trigger(p: Latches, x: real): Latches {
    if !p.triggered && x > WolfChaseX then Latches(true, true, p.doorClosed) else p
  }

  /** The safe zone: once triggered and past x = 284.5 the door is shut and the wolf stops. */
  function Halt(p: Latches, x: real): Latches {
    if p.triggered && x > SafeZoneX then Latches(true, false, true) else p
  }

  /**
   * The wolf section of one frame: `x0` is the player's x when the trigger
   * is read, `x1` after the wolf's own update (which may have killed).
   */
  function WolfSection(p: Latches, x0: real, x1: real): Latches {
    Halt(Trigger(p, x0), x1)
  }

  /** Nothing but the trigger starts the wolf, and only a triggered chase closes the door. */
  predicate LatchesConsistent(p: Latches) {
    (!p.triggered ==> !p.chasing) && (p.doorClosed ==> p.triggered)
  }

  /** The trigger latches, starts the chase only at that moment, and the door only ever closes. */
  lemma WolfSectionRule(p: Latches, x0: real, x1: real)
    requires LatchesConsistent(p)
    ensures var q := WolfSection(p, x0, x1);
      LatchesConsistent(q) &&
      q.triggered == (p.triggered || x0 > WolfChaseX) &&
      (p.doorClosed ==> q.doorClosed) &&
      (q.chasing && !p.chasing ==> !p.triggered && x0 > WolfChaseX)
  {
  }

  /** The frames of a run, as the two x positions the wolf section reads. */
  datatype Crossing = Crossing(x0: real, x1: real)

  function LatchRun(p: Latches, cs: seq<Crossing>): Latches
    decreases |cs|
  {
    if cs == [] then p
    else
      var prev := LatchRun(p, cs[..|cs| - 1]);
      var c := cs[|cs| - 1];
      WolfSection(prev, c.x0, c.x1)
  }

  /** A wolf halted at the safe zone is never restarted, and the door stays shut, whatever the player does later. */
  lemma {:induction false} HaltedWolfStaysHalted(p: Latches, cs: seq<Crossing>)
    requires p.triggered && !p.chasing
    ensures LatchRun(p, cs).triggered && !LatchRun(p, cs).chasing
    ensures p.doorClosed ==> LatchRun(p, cs).doorClosed
    decreases |cs|
  {
    if cs != [] {
      HaltedWolfStaysHalted(p, cs[..|cs| - 1]);
    }
  }

  /** Starting from the initial latches, the chase is started at most once over any run. */
  lemma {:induction false} LatchesStayConsistent(p: Latches, cs: seq<Crossing>)
    requires LatchesConsistent(p)
    ensures LatchesConsistent(LatchRun(p, cs))
    ensures p.triggered ==> LatchRun(p, cs).triggered
    decreases |cs|
  {
    if cs != [] {
      var init := cs[..|cs| - 1];
      LatchesStayConsistent(p, init);
      var c := cs[|cs| - 1];
      WolfSectionRule(LatchRun(p, init), c.x0, c.x1);
    }
  }

  /**
   * The wolf section's state besides the latches: the wolf's velocity,
   * where the safe-zone door stands, whether the wolf is shown and solid,
   * its body's spin and awake flag, and the safe-zone door body's collision
   * response and motion.
   */
  datatype WolfScene = WolfScene(latches: Latches, velocity: Vec3, safeDoor: Vec3, visible: bool, solid: bool,
                                 spin: Vec3, awake: bool, safeSolid: bool, safeDrift: Drift)

  /**
   * The wolf section on values: the trigger reads the player's x, the wolf
   * (standing at `wolfAt`) runs and bites under the hook `h`, and the safe
   * zone is checked at the x the bite left. Returns the scene and the player.
   */
  function WolfStep(s: WolfScene, wolfAt: Vec3, v: Victim, h: Hook): (WolfScene, Victim) {
    var x0 := v.position.x;
    var starts := !s.latches.triggered && x0 > WolfChaseX;
    var chasing := s.latches.chasing || starts;
    var bite := chasing && DistSq(wolfAt, v.position) < BiteReachSq;
    var v1 := if bite then Die(v, h) else v;
    var p := WolfSection(s.latches, x0, v1.position.x);
    var halted := (s.latches.triggered || starts) && v1.position.x > SafeZoneX;
    var velocity :=
      if halted then Zero
      else if chasing then s.velocity.(x := WolfChaseSpeed * (Sign(x0 - wolfAt.x) as real))
      else s.velocity;
    var door := if p.doorClosed && !s.latches.doorClosed then s.safeDoor.(y := 1.0) else s.safeDoor;
    // starting a chase that is not already running shows the wolf and makes it solid
    var shown := starts && !s.latches.chasing;
    (s.(latches := p, velocity := velocity, safeDoor := door, visible := s.visible || shown, solid := s.solid || shown),
     v1)
  }

  /**
   * Before the trigger the wolf neither moves nor bites; a halted wolf never
   * bites again; and the door, once it has moved, stays where it is.
   */
  lemma WolfStepRule(s: WolfScene, wolfAt: Vec3, v: Victim, h: Hook)
    ensures var (s1, v1) := WolfStep(s, wolfAt, v, h);
      s1.latches == WolfSection(s.latches, v.position.x, v1.position.x) &&
      (!s.latches.triggered && v.position.x <= WolfChaseX && !s.latches.chasing ==>
         v1 == v && s1 == s) &&
      (s.latches.triggered && !s.latches.chasing ==> v1 == v) &&
      (s.latches.doorClosed ==> s1.safeDoor == s.safeDoor) &&
      (v1 != v ==> s1.latches.chasing || v1.position.x > SafeZoneX) &&
      s1.spin == s.spin && s1.awake == s.awake &&
      s1.safeDoor.x == s.safeDoor.x && s1.safeDoor.z == s.safeDoor.z &&
      s1.safeSolid == s.safeSolid && s1.safeDrift == s.safeDrift
  {
  }

  /**
   * The wolf stays hidden and without collision until the trigger; from the
   * trigger frame on it is shown and solid, also after the safe zone halts it.
   */
  lemma WolfShownOnceTriggered(s: WolfScene, wolfAt: Vec3, v: Victim, h: Hook)
    requires LatchesConsistent(s.latches)
    requires s.latches.triggered ==> s.visible && s.solid
    ensures var (s1, _) := WolfStep(s, wolfAt, v, h);
      (s1.latches.triggered ==> s1.visible && s1.solid) &&
      (!s1.latches.triggered ==> s1.visible == s.visible && s1.solid == s.solid) &&
      (s1.latches.triggered && !s.latches.triggered ==> s1.visible && s1.solid)
  {
  }

  /** An interactable's flag after the proximity pass and, while interact is held, the lever pass. */
  function ActorFlag(kind: InteractableType, active: bool, distSq: real, pressed: bool): bool {
    var a := ActiveAfterUpdate(kind, active, distSq);
    if pressed then ActiveAfterInteract(kind, a, distSq) else a
  }

  /** Whether an interactable fires a callback in either pass of a frame. */
  predicate ActorFires(kind: InteractableType, active: bool, distSq: real,
                       onA: Option<Callback>, onD: Option<Callback>, pressed: bool) {
    FiredByUpdate(kind, active, distSq, onA, onD).Some? ||
    (pressed && FiredByInteract(kind, ActiveAfterUpdate(kind, active, distSq), distSq, onA, onD).Some?)
  }

  /**
   * A box never changes and never fires; a plate ignores the interact key;
   * a lever ignores proximity and, with interact held in reach, flips and
   * fires the callback of its new side.
   */
  lemma ActorRule(kind: InteractableType, active: bool, distSq: real,
                  onA: Option<Callback>, onD: Option<Callback>, pressed: bool)
    ensures kind == Box ==> ActorFlag(kind, active, distSq, pressed) == active &&
                            !ActorFires(kind, active, distSq, onA, onD, pressed)
    ensures kind == PressurePlate ==>
      ActorFlag(kind, active, distSq, pressed) == ActorFlag(kind, active, distSq, false) &&
      (ActorFires(kind, active, distSq, onA, onD, pressed) <==> ActorFires(kind, active, distSq, onA, onD, false))
    ensures kind == Lever ==>
      ActorFlag(kind, active, distSq, pressed) == (if pressed && distSq <= LeverReachSq then !active else active) &&
      (ActorFires(kind, active, distSq, onA, onD, pressed) <==>
         pressed && distSq <= LeverReachSq && (if active then onD else onA).Some?)
  {
  }

  /**
   * The safety section on values: the hazard zones under the hook `h0`, the
   * checkpoint scan at the position the hazards left, then the death floor
   * under `h1`, the hook once the scan has moved the spawn point. Returns
   * the new furthest checkpoint and the player.
   */
  function SafetyStep(zones: seq<HazardZone>, cps: seq<Checkpoint>, last: int, v: Victim,
                      h0: Hook, h1: Hook): (int, Victim) {
    var vh := HazardPass(zones, v, h0);
    (Scan(cps, last, vh.position.x, vh.position.y),
     if OutOfBounds(vh.position.y, OutOfBoundsY) then Die(vh, h1) else vh)
  }

  /**
   * The furthest checkpoint never moves back; a player on safe ground is
   * left alone and scanned where it stands; one killed in a zone under a
   * lethal hook is scanned at its spawn point.
   */
  lemma {:induction false} SafetyStepRule(zones: seq<HazardZone>, cps: seq<Checkpoint>, last: int, v: Victim,
                                          h0: Hook, h1: Hook)
    ensures SafetyStep(zones, cps, last, v, h0, h1).0 >= last
    ensures Clear(zones, v.position.x, v.position.y) && !OutOfBounds(v.position.y, OutOfBoundsY) ==>
      SafetyStep(zones, cps, last, v, h0, h1) == (Scan(cps, last, v.position.x, v.position.y), v)
    ensures |zones| == 1 && Lethal(h0) && Kills(zones[0], v.position.x, v.position.y) ==>
      SafetyStep(zones, cps, last, v, h0, h1).0 == Scan(cps, last, SpawnOf(h0).x, SpawnOf(h0).y)
  {
    var vh := HazardPass(zones, v, h0);
    ScanNeverDecreases(cps, last, vh.position.x, vh.position.y);
    if Clear(zones, v.position.x, v.position.y) {
      ClearPassIsNoOp(zones, v, h0);
    }
    if |zones| == 1 && Lethal(h0) && Kills(zones[0], v.position.x, v.position.y) {
      assert zones == [zones[0]];
      InsideKillsEveryTime(zones[0], v, h0);
    }
  }

  // ---------------------------------------------------------------------
  // The level object

  function EnemyBodies(es: seq<Enemy>): set<Body> {
    set e | e in es :: e.body
  }

  function EnemyDetections(es: seq<Enemy>): set<DetectionSystem> {
    set e | e in es :: e.detection
  }

  function PropBodies(ps: seq<InteractableObject>): set<Body> {
    set p | p in ps :: p.body
  }

  /** The guards, the props and the three door and wolf bodies are pairwise distinct objects. */
  ghost predicate SeparateParts(es: seq<Enemy>, ps: seq<InteractableObject>, wolfBody: Body, doorBody: Body,
                                safeBody: Body) {
    (forall i, j :: 0 <= i < j < |ps| ==> ps[i] != ps[j]) &&
    wolfBody != doorBody && wolfBody != safeBody && doorBody != safeBody &&
    (forall i :: 0 <= i < |es| ==>
      es[i].body != wolfBody && es[i].body != doorBody && es[i].body != safeBody) &&
    (forall i, j :: 0 <= i < j < |es| ==>
      es[i] != es[j] && es[i].body != es[j].body && es[i].detection != es[j].detection) &&
    (forall k :: 0 <= k < |ps| ==>
      ps[k].body != wolfBody && ps[k].body != doorBody &&
      ps[k].body != safeBody) &&
    (forall k, i :: 0 <= k < |ps| && 0 <= i < |es| ==> ps[k].body != es[i].body)
  }

  /** The level's actors and doors, built in section order, all new and pairwise distinct. */
  method BuildParts() returns (props: seq<InteractableObject>, guards: seq<Enemy>, doorBody: Body, w: Wolf,
                               safeBody: Body)
    ensures SeparateParts(guards, props, w.body, doorBody, safeBody)
    ensures |props| == 2
    ensures props[0].kind == Box && props[0].onActivate == None && props[0].onDeactivate == None
    ensures props[1].kind == Lever && props[1].onActivate == Some(OpenTimedDoor) && props[1].onDeactivate == None
    ensures |guards| == 2
    ensures guards[0].body.position == Vec3(75.0, 2.0, 0.0) &&
            guards[0].patrolMinX == 72.0 && guards[0].patrolMaxX == 82.0
    ensures guards[1].body.position == Vec3(88.0, 2.0, 0.0) &&
            guards[1].patrolMinX == 83.0 && guards[1].patrolMaxX == 92.0
    ensures forall i :: 0 <= i < |guards| ==> guards[i].Valid()
    ensures doorBody.collisionResponse && doorBody.position == Vec3(140.0, 1.0, 0.0)
    ensures w.body.position == Vec3(185.0, 0.0, 0.0) && !w.isChasing && !w.visible && !w.body.collisionResponse
    ensures safeBody.position == Vec3(284.0, 4.0, 0.0)
    ensures fresh(w) && fresh(w.body) && fresh(doorBody) && fresh(safeBody)
    ensures fresh(EnemyBodies(guards)) && fresh(PropBodies(props))
    ensures fresh(guards) && fresh(EnemyDetections(guards)) && fresh(props)
  {
    props := BuildProps();
    guards := BuildGuards();
    // 6 lever and door
    doorBody := new Body(Vec3(140.0, 1.0, 0.0));
    // 9 wolf chase
    w := new Wolf(Vec3(185.0, 0.0, 0.0));
    // 11 safe zone
    safeBody := new Body(Vec3(284.0, 4.0, 0.0));
  }

  /** The box of the puzzle (section 3) and the lever of the timed door (section 6). */
  method BuildProps() returns (props: seq<InteractableObject>)
    ensures |props| == 2 && props[0] != props[1] && props[0].body != props[1].body
    ensures props[0].kind == Box && props[0].onActivate == None && props[0].onDeactivate == None
    ensures props[1].kind == Lever && props[1].onActivate == Some(OpenTimedDoor) && props[1].onDeactivate == None
    ensures fresh(props[0]) && fresh(props[1]) && fresh(PropBodies(props))
  {
    // 3 box puzzle
    var box := new InteractableObject(Box, Vec3(46.0, 0.5, 0.0), None, None);
    // 6 lever and door
    var lever := new InteractableObject(Lever, Vec3(128.0, 0.0, 0.0), Some(OpenTimedDoor), None);
    props := [box, lever];
    assert PropBodies(props) == {box.body, lever.body};
  }

  /** The two patrolling guards of the stealth zone. */
  method BuildGuards() returns (guards: seq<Enemy>)
    ensures |guards| == 2
    ensures guards[0].body.position == Vec3(75.0, 2.0, 0.0) &&
            guards[0].patrolMinX == 72.0 && guards[0].patrolMaxX == 82.0
    ensures guards[1].body.position == Vec3(88.0, 2.0, 0.0) &&
            guards[1].patrolMinX == 83.0 && guards[1].patrolMaxX == 92.0
    ensures forall i :: 0 <= i < |guards| ==> guards[i].Valid() && guards[i].body in EnemyBodies(guards)
    ensures guards[0] != guards[1] && guards[0].body != guards[1].body && guards[0].detection != guards[1].detection
    ensures fresh(guards[0]) && fresh(guards[1]) && fresh(EnemyBodies(guards)) && fresh(EnemyDetections(guards))
  {
    var guard1 := new Enemy(Vec3(75.0, 2.0, 0.0), 72.0, 82.0);
    var guard2 := new Enemy(Vec3(88.0, 2.0, 0.0), 83.0, 92.0);
    guards := [guard1, guard2];
    assert EnemyBodies(guards) == {guard1.body, guard2.body};
    assert EnemyDetections(guards) == {guard1.detection, guard2.detection};
  }

  /**
   * The checkpoint registrations of the eleven sections, in the order the
   * sections are built; each gets the number registered before it as id.
   */
  method RegisterCheckpoints(cps: CheckpointSystem)
    requires cps.Valid() && cps.checkpoints == [] && cps.lastReachedId == -1
    modifies cps
    ensures cps.Valid() && cps.lastReachedId == -1
    ensures |cps.checkpoints| == |CheckpointPositions|
    ensures forall i :: 0 <= i < |CheckpointPositions| ==>
      cps.checkpoints[i] == Checkpoint(CheckpointPositions[i], i)
  {
    var _ := cps.Register(Vec3(-3.0, 8.0, 0.0));   // 1 forest intro
    var _ := cps.Register(Vec3(32.0, 2.0, 0.0));   // 2 first gap
    var _ := cps.Register(Vec3(53.0, 2.0, 0.0));   // 3 box puzzle
    var _ := cps.Register(Vec3(93.0, 2.0, 0.0));   // 4 stealth zone
    var _ := cps.Register(Vec3(121.0, 2.0, 0.0));  // 5 spike gauntlet
    var _ := cps.Register(Vec3(126.0, 2.0, 0.0));  // 6 lever and door
    var _ := cps.Register(Vec3(163.0, 7.0, 0.0));  // 7 vertical climb
    var _ := cps.Register(Vec3(178.0, 2.0, 0.0));  // 8 facility entrance
    var _ := cps.Register(Vec3(192.0, 2.0, 0.0));  // 9 wolf chase
    var _ := cps.Register(Vec3(248.0, 2.0, 0.0));  // 10 desperate run
    var _ := cps.Register(Vec3(288.0, 2.0, 0.0));  // 11 safe zone
  }

  /** The session's clocks and intro state, which no part of the level update touches. */
  ghost function SessionTimers(s: Session?): (real, int, real)
    reads s
  {
    if s == null then (0.0, 0, 0.0) else (s.deathCooldown, s.introState, s.introRecoveryTimer)
  }

  /**
   * The part of the level a frame changes: each guard's state and position,
   * each interactable's flag and position, the timed door with its body's
   * position and motion, the checkpoints and the last one reached, the wolf
   * section and the wolf's position.
   */
  datatype Scene = Scene(guards: seq<Guard>, guardAt: seq<Vec3>, flags: seq<bool>, propAt: seq<Vec3>,
                         door: TimedDoor, doorAt: Vec3, doorDrift: Drift, checkpoints: seq<Checkpoint>, last: int,
                         wolf: WolfScene, wolfAt: Vec3)

  class LevelBuilder {
    const enemies: seq<Enemy>
    const interactables: seq<InteractableObject>
    const hazards: seq<HazardZone>
    const checkpointSystem: CheckpointSystem
    const wolf: Wolf
    var wolfChaseTriggered: bool
    const timedDoorBody: Body
    var timedDoorOpen: bool
    var openTimer: real
    const safeZoneDoorBody: Body
    var safeZoneDoorClosed: bool

    function TimedDoorState(): TimedDoor
      reads this, timedDoorBody
    {
      TimedDoor(timedDoorOpen, openTimer, timedDoorBody.collisionResponse)
    }

    function LatchState(): Latches
      reads this, wolf
    {
      Latches(wolfChaseTriggered, wolf.isChasing, safeZoneDoorClosed)
    }

    /** No two of the level's objects are the same. */
    ghost predicate Separate() {
      SeparateParts(enemies, interactables, wolf.body, timedDoorBody, safeZoneDoorBody)
    }

    ghost predicate Valid()
      reads this, enemies, checkpointSystem, wolf, timedDoorBody
    {
      Separate() &&
      checkpointSystem.Valid() &&
      (forall i :: 0 <= i < |enemies| ==> enemies[i].Valid()) &&
      DoorConsistent(TimedDoorState()) &&
      LatchesConsistent(LatchState())
    }

    /** `o` is none of the level's objects, so no level update writes it. */
    ghost predicate Outside(o: object) {
      o != this && o !in enemies && o !in EnemyBodies(enemies) && o !in EnemyDetections(enemies) &&
      o !in interactables && o !in PropBodies(interactables) &&
      o != checkpointSystem && o != wolf && o != wolf.body && o != timedDoorBody && o != safeZoneDoorBody
    }

    /** The player's body is none of the level's own bodies. */
    predicate Apart(b: Body) {
      b != wolf.body && b != timedDoorBody && b != safeZoneDoorBody &&
      (forall i :: 0 <= i < |enemies| ==> enemies[i].body != b) &&
      (forall k :: 0 <= k < |interactables| ==> interactables[k].body != b)
    }

    /** The state the wolf section writes. */
    function WolfSceneOf(): WolfScene
      reads this, wolf, wolf.body, safeZoneDoorBody
    {
      WolfScene(LatchState(), wolf.body.velocity, safeZoneDoorBody.position, wolf.visible,
                wolf.body.collisionResponse, wolf.body.angularVelocity, wolf.body.awake,
                safeZoneDoorBody.collisionResponse, safeZoneDoorBody.DriftOf())
    }

    /** Each guard's state. */
    function GuardsOf(): seq<Guard>
      reads this, enemies, EnemyBodies(enemies), EnemyDetections(enemies)
    {
      seq(|enemies|, i reads enemies, EnemyBodies(enemies), EnemyDetections(enemies)
                       requires 0 <= i < |enemies| => enemies[i].View())
    }

    /** Each guard's position. */
    function GuardSpots(): seq<Vec3>
      reads this, enemies, EnemyBodies(enemies)
    {
      seq(|enemies|, i reads enemies, EnemyBodies(enemies) requires 0 <= i < |enemies| => enemies[i].body.position)
    }

    /** Each interactable's flag. */
    function FlagsOf(): seq<bool>
      reads this, interactables
    {
      seq(|interactables|, k reads interactables requires 0 <= k < |interactables| => interactables[k].isActive)
    }

    /** Each interactable's position. */
    function PropSpots(): seq<Vec3>
      reads this, interactables, PropBodies(interactables)
    {
      seq(|interactables|, k reads interactables, PropBodies(interactables)
                             requires 0 <= k < |interactables| => interactables[k].body.position)
    }

    /** The level as one frame changes it. */
    function SceneOf(): Scene
      reads this, enemies, EnemyBodies(enemies), EnemyDetections(enemies), interactables, PropBodies(interactables)
      reads checkpointSystem, wolf, wolf.body, timedDoorBody, safeZoneDoorBody
    {
      Scene(GuardsOf(), GuardSpots(), FlagsOf(), PropSpots(), TimedDoorState(), timedDoorBody.position, timedDoorBody.DriftOf(),
            checkpointSystem.checkpoints, checkpointSystem.lastReachedId, WolfSceneOf(), wolf.body.position)
    }

    /**
     * Whether either interactable pass runs a callback, over the flags
     * `flags` and the positions `spots`, with the player at `at`.
     */
    predicate Fires(flags: seq<bool>, spots: seq<Vec3>, at: Vec3, pressed: bool)
      requires |flags| == |spots| == |interactables|
    {
      exists k :: 0 <= k < |interactables| &&
        ActorFires(interactables[k].kind, flags[k], DistSq(spots[k], at),
                   interactables[k].onActivate, interactables[k].onDeactivate, pressed)
    }

    /** Whether the proximity pass runs a callback. */
    predicate ProximityFires(flags: seq<bool>, spots: seq<Vec3>, at: Vec3)
      requires |flags| == |spots| == |interactables|
    {
      exists k :: 0 <= k < |interactables| &&
        FiredByUpdate(interactables[k].kind, flags[k], DistSq(spots[k], at),
                      interactables[k].onActivate, interactables[k].onDeactivate).Some?
    }

    /** Whether the lever pass runs a callback. */
    predicate LeverFires(flags: seq<bool>, spots: seq<Vec3>, at: Vec3)
      requires |flags| == |spots| == |interactables|
    {
      exists k :: 0 <= k < |interactables| &&
        FiredByInteract(interactables[k].kind, flags[k], DistSq(spots[k], at),
                        interactables[k].onActivate, interactables[k].onDeactivate).Some?
    }

    /**
     * The proximity pass, then the lever pass while interact is held, leave
     * the flags and the door `PropsStep` gives.
     */
    lemma PropsStepByPasses(s: Scene, flags1: seq<bool>, flags2: seq<bool>, door1: TimedDoor, door2: TimedDoor,
                            at: Vec3, pressed: bool)
      requires |s.flags| == |s.propAt| == |flags1| == |flags2| == |interactables|
      requires forall k :: 0 <= k < |interactables| ==>
        flags1[k] == ActiveAfterUpdate(interactables[k].kind, s.flags[k], DistSq(s.propAt[k], at))
      requires forall k :: 0 <= k < |interactables| ==>
        flags2[k] == if pressed then ActiveAfterInteract(interactables[k].kind, flags1[k], DistSq(s.propAt[k], at))
                     else flags1[k]
      requires door1 == if ProximityFires(s.flags, s.propAt, at) then OpenedDoor else s.door
      requires door2 == if pressed && LeverFires(flags1, s.propAt, at) then OpenedDoor else door1
      ensures s.(flags := flags2, door := door2) == PropsStep(s, at, pressed)
    {
      FiresByPasses(s.flags, flags1, s.propAt, at, pressed);
    }

    /**
     * A callback runs in the frame exactly when the proximity pass runs one,
     * or interact is held and the lever pass, over the flags the proximity
     * pass left (`flags1`), runs one.
     */
    lemma FiresByPasses(flags0: seq<bool>, flags1: seq<bool>, spots: seq<Vec3>, at: Vec3, pressed: bool)
      requires |flags0| == |flags1| == |spots| == |interactables|
      requires forall k :: 0 <= k < |interactables| ==>
        flags1[k] == ActiveAfterUpdate(interactables[k].kind, flags0[k], DistSq(spots[k], at))
      ensures Fires(flags0, spots, at, pressed) <==>
        ProximityFires(flags0, spots, at) || (pressed && LeverFires(flags1, spots, at))
    {
      if Fires(flags0, spots, at, pressed) {
        var k :| 0 <= k < |interactables| &&
          ActorFires(interactables[k].kind, flags0[k], DistSq(spots[k], at),
                     interactables[k].onActivate, interactables[k].onDeactivate, pressed);
        assert FiredByUpdate(interactables[k].kind, flags0[k], DistSq(spots[k], at),
                             interactables[k].onActivate, interactables[k].onDeactivate).Some? ||
               (pressed && FiredByInteract(interactables[k].kind, flags1[k], DistSq(spots[k], at),
                                           interactables[k].onActivate, interactables[k].onDeactivate).Some?);
      }
      if ProximityFires(flags0, spots, at) {
        var k :| 0 <= k < |interactables| &&
          FiredByUpdate(interactables[k].kind, flags0[k], DistSq(spots[k], at),
                        interactables[k].onActivate, interactables[k].onDeactivate).Some?;
        assert ActorFires(interactables[k].kind, flags0[k], DistSq(spots[k], at),
                          interactables[k].onActivate, interactables[k].onDeactivate, pressed);
      }
      if pressed && LeverFires(flags1, spots, at) {
        var k :| 0 <= k < |interactables| &&
          FiredByInteract(interactables[k].kind, flags1[k], DistSq(spots[k], at),
                          interactables[k].onActivate, interactables[k].onDeactivate).Some?;
        assert ActorFires(interactables[k].kind, flags0[k], DistSq(spots[k], at),
                          interactables[k].onActivate, interactables[k].onDeactivate, pressed);
      }
    }

    /**
     * Guards `0 .. n-1` of the level `s` in turn, each seeing the player the
     * guards before it left; their new states and the player they leave.
     */
    function GuardsRun(s: Scene, n: nat, eye: Vec3, v0: Victim, h: Hook, angles: seq<real>, deltaTime: real)
      : (r: (seq<Guard>, Victim))
      requires n <= |enemies| && |s.guards| == |s.guardAt| == |angles| == |enemies|
      ensures |r.0| == n
      decreases n
    {
      if n == 0 then ([], v0)
      else
        var (gs, v) := GuardsRun(s, n - 1, eye, v0, h, angles, deltaTime);
        var (g, v') := GuardStep(s.guards[n - 1], s.guardAt[n - 1], enemies[n - 1].patrolMinX,
                                 enemies[n - 1].patrolMaxX, eye, v, h, angles[n - 1], deltaTime);
        (gs + [g], v')
    }

    /**
     * Guards stepped one after another, guard `k` turning `seen[k]` into
     * `seen[k + 1]`, make up the guards' run.
     */
    lemma {:induction false} GuardsRunChains(s: Scene, eye: Vec3, h: Hook, angles: seq<real>, deltaTime: real,
                                             views: seq<Guard>, seen: seq<Victim>, n: nat)
      requires |s.guards| == |s.guardAt| == |angles| == |views| == |enemies| && |seen| == |enemies| + 1
      requires n <= |enemies|
      requires forall k :: 0 <= k < |enemies| ==>
        (views[k], seen[k + 1]) ==
          GuardStep(s.guards[k], s.guardAt[k], enemies[k].patrolMinX, enemies[k].patrolMaxX,
                    eye, seen[k], h, angles[k], deltaTime)
      ensures GuardsRun(s, n, eye, seen[0], h, angles, deltaTime) == (views[..n], seen[n])
      decreases n
    {
      if n > 0 {
        GuardsRunChains(s, eye, h, angles, deltaTime, views, seen, n - 1);
        assert views[..n] == views[..n - 1] + [views[n - 1]];
      }
    }

    /** The interactable passes over the level `s` with the player at `at`: the flags and the door they leave. */
    function PropsStep(s: Scene, at: Vec3, pressed: bool): Scene
      requires |s.flags| == |s.propAt| == |interactables|
    {
      s.(flags := seq(|interactables|, k requires 0 <= k < |interactables| =>
                        ActorFlag(interactables[k].kind, s.flags[k], DistSq(s.propAt[k], at), pressed)),
         door := if Fires(s.flags, s.propAt, at, pressed) then OpenedDoor else s.door)
    }

    /** The guards in turn, then the interactable passes measuring the player the guards left. */
    function ActorsStep(s: Scene, v0: Victim, h0: Hook, eye: Vec3, pressed: bool, deltaTime: real,
                        angles: seq<real>): (Scene, Victim)
      requires |s.guards| == |s.guardAt| == |angles| == |enemies| && |s.flags| == |s.propAt| == |interactables|
    {
      var (guards, v1) := GuardsRun(s, |enemies|, eye, v0, h0, angles, deltaTime);
      (PropsStep(s.(guards := guards), v1.position, pressed), v1)
    }

    /** The safety section: the checkpoint reached and the player it leaves. */
    function SafetySceneStep(s: Scene, v: Victim, h0: Hook, h1: Hook): (Scene, Victim) {
      var (last, v1) := SafetyStep(hazards, s.checkpoints, s.last, v, h0, h1);
      (s.(last := last), v1)
    }

    /** The timed door's countdown, then the wolf section. */
    function DoorsStep(s: Scene, v: Victim, h: Hook, deltaTime: real): (Scene, Victim) {
      var (wolfScene, v1) := WolfStep(s.wolf, s.wolfAt, v, h);
      (s.(door := DoorTick(s.door, deltaTime), wolf := wolfScene), v1)
    }

    /** The sections after the actors: safety, then the doors with the hook `h1` the safety section leaves. */
    function LateStep(s: Scene, v: Victim, h0: Hook, h1: Hook, deltaTime: real): (Scene, Victim) {
      var (s1, v1) := SafetySceneStep(s, v, h0, h1);
      DoorsStep(s1, v1, h1, deltaTime)
    }

    /**
     * The level frame, section by section, from the level `s`, the player
     * `v0` and the death hook `h0`: the guards in turn; both interactable
     * passes measuring the player the guards left; the safety section from
     * that same player, and the door countdown and the wolf section from the
     * player the safety section leaves, both with `h1`, the hook once the
     * checkpoints are scanned. `eye` is the player's rendered position and
     * `pressed` the interact key. The level and the player after.
     */
    function Next(s: Scene, v0: Victim, h0: Hook, eye: Vec3, pressed: bool, deltaTime: real,
                  angles: seq<real>, h1: Hook): (Scene, Victim)
      requires |s.guards| == |s.guardAt| == |angles| == |enemies| && |s.flags| == |s.propAt| == |interactables|
    {
      var (s1, v1) := ActorsStep(s, v0, h0, eye, pressed, deltaTime, angles);
      LateStep(s1, v1, h0, h1, deltaTime)
    }

    /** Builds the eleven sections in order. */
    constructor ()
      ensures Valid()
      ensures checkpointSystem.lastReachedId == -1
      ensures |checkpointSystem.checkpoints| == |CheckpointPositions|
      ensures forall i :: 0 <= i < |CheckpointPositions| ==>
        checkpointSystem.checkpoints[i] == Checkpoint(CheckpointPositions[i], i)
      ensures hazards == LevelHazards
      ensures |enemies| == 2
      ensures enemies[0].body.position == Vec3(75.0, 2.0, 0.0) &&
              enemies[0].patrolMinX == 72.0 && enemies[0].patrolMaxX == 82.0
      ensures enemies[1].body.position == Vec3(88.0, 2.0, 0.0) &&
              enemies[1].patrolMinX == 83.0 && enemies[1].patrolMaxX == 92.0
      ensures |interactables| == 2
      ensures interactables[0].kind == Box && interactables[0].onActivate == None && interactables[0].onDeactivate == None
      ensures interactables[1].kind == Lever && interactables[1].onActivate == Some(OpenTimedDoor) &&
              interactables[1].onDeactivate == None
      ensures wolf.body.position == Vec3(185.0, 0.0, 0.0) && !wolf.visible && !wolf.body.collisionResponse
      ensures timedDoorBody.position == Vec3(140.0, 1.0, 0.0) && safeZoneDoorBody.position == Vec3(284.0, 4.0, 0.0)
      ensures TimedDoorState() == TimedDoor(false, 0.0, true)
      ensures LatchState() == Latches(false, false, false)
      ensures fresh(wolf) && fresh(wolf.body) && fresh(timedDoorBody) && fresh(safeZoneDoorBody)
      ensures fresh(checkpointSystem) && fresh(EnemyBodies(enemies)) && fresh(PropBodies(interactables))
      ensures fresh(enemies) && fresh(EnemyDetections(enemies)) && fresh(interactables)
    {
      var cps := new CheckpointSystem();
      RegisterCheckpoints(cps);
      var props, guards, doorBody, w, safeBody := BuildParts();

      enemies := guards;
      interactables := props;
      hazards := LevelHazards;
      checkpointSystem := cps;
      wolf := w;
      wolfChaseTriggered := false;
      timedDoorBody := doorBody;
      timedDoorOpen := false;
      openTimer := 0.0;
      safeZoneDoorBody := safeBody;
      safeZoneDoorClosed := false;
      new;
    }

    /**
     * One frame of the level, its sections in order. `angles[i]` is guard
     * `i`'s angle to the player.
     */
    method Update(player: Player, im: Input.InputManager, deltaTime: real, angles: seq<real>)
      requires Valid() && player.Valid() && Apart(player.body) && |angles| == |enemies|
      modifies this, enemies, EnemyBodies(enemies), EnemyDetections(enemies), interactables, checkpointSystem
      modifies wolf, wolf.body, timedDoorBody, safeZoneDoorBody, player.body, player.onDeath
      ensures Valid() && player.Valid()
      ensures (SceneOf(), player.Snapshot()) ==
        Next(old(SceneOf()), old(player.Snapshot()), old(player.HookOf()), old(player.meshPosition),
             old(im.IsInteractPressed()), deltaTime, angles, player.HookOf())
      ensures checkpointSystem.lastReachedId >= old(checkpointSystem.lastReachedId)
      ensures old(wolfChaseTriggered) ==> wolfChaseTriggered
      ensures old(safeZoneDoorClosed) ==> safeZoneDoorClosed
      ensures old(wolfChaseTriggered) && !old(wolf.isChasing) ==> !wolf.isChasing
      ensures SessionTimers(player.onDeath) == old(SessionTimers(player.onDeath))
      ensures player.body.collisionResponse == old(player.body.collisionResponse)
    {
      UpdateActors(player, im, deltaTime, angles);
      UpdateLate(player, deltaTime);
    }

    /** The safety section, then the doors. */
    method UpdateLate(player: Player, deltaTime: real)
      requires Valid() && player.Valid() && Apart(player.body)
      modifies checkpointSystem, this`timedDoorOpen, this`openTimer, this`wolfChaseTriggered, this`safeZoneDoorClosed
      modifies timedDoorBody, wolf, wolf.body, safeZoneDoorBody, player.body, player.onDeath
      ensures Valid() && player.Valid()
      ensures (SceneOf(), player.Snapshot()) ==
        LateStep(old(SceneOf()), old(player.Snapshot()), old(player.HookOf()), player.HookOf(), deltaTime)
      ensures checkpointSystem.lastReachedId >= old(checkpointSystem.lastReachedId)
      ensures old(wolfChaseTriggered) ==> wolfChaseTriggered
      ensures old(safeZoneDoorClosed) ==> safeZoneDoorClosed
      ensures old(wolfChaseTriggered) && !old(wolf.isChasing) ==> !wolf.isChasing
      ensures SessionTimers(player.onDeath) == old(SessionTimers(player.onDeath))
      ensures player.body.collisionResponse == old(player.body.collisionResponse)
    {
      UpdateSafety(player);
      UpdateDoors(player, deltaTime);
    }

    /** The guards, the interactables and, while interact is held, the lever pass. */
    method UpdateActors(player: Player, im: Input.InputManager, deltaTime: real, angles: seq<real>)
      requires Valid() && player.Valid() && Apart(player.body) && |angles| == |enemies|
      modifies enemies, EnemyBodies(enemies), EnemyDetections(enemies), interactables
      modifies this`timedDoorOpen, this`openTimer, timedDoorBody, player.body, player.onDeath
      ensures Valid() && player.Valid()
      ensures (SceneOf(), player.Snapshot()) ==
        ActorsStep(old(SceneOf()), old(player.Snapshot()), old(player.HookOf()), old(player.meshPosition),
                   old(im.IsInteractPressed()), deltaTime, angles)
      ensures player.HookOf() == old(player.HookOf())
      ensures LatchState() == old(LatchState())
      ensures SessionTimers(player.onDeath) == old(SessionTimers(player.onDeath))
      ensures player.body.collisionResponse == old(player.body.collisionResponse)
    {
      UpdateEnemies(player, deltaTime, angles);
      RunProps(player, im.IsInteractPressed());
    }

    /** The interactable passes, measuring the player's body; the player itself is left as it was. */
    method RunProps(player: Player, pressed: bool)
      requires Valid() && player.Valid() && Apart(player.body)
      modifies interactables, this`timedDoorOpen, this`openTimer, timedDoorBody
      ensures Valid() && player.Valid()
      ensures SceneOf() == PropsStep(old(SceneOf()), old(player.body.position), pressed)
      ensures player.Snapshot() == old(player.Snapshot()) && player.HookOf() == old(player.HookOf())
      ensures LatchState() == old(LatchState())
      ensures SessionTimers(player.onDeath) == old(SessionTimers(player.onDeath))
      ensures player.body.collisionResponse == old(player.body.collisionResponse)
    {
      UpdateProps(player.body, pressed);
    }

    /** The proximity pass and, while interact is held, the lever pass, both measuring `playerBody`. */
    method UpdateProps(playerBody: Body, pressed: bool)
      requires Valid()
      modifies interactables, this`timedDoorOpen, this`openTimer, timedDoorBody
      ensures Valid()
      ensures SceneOf() == PropsStep(old(SceneOf()), old(playerBody.position), pressed)
      ensures playerBody.position == old(playerBody.position)
    {
      ghost var s0 := SceneOf();
      UpdateInteractables(playerBody);
      ghost var flags1, door1 := FlagsOf(), TimedDoorState();
      if pressed {
        InteractAll(playerBody);
      }
      PropsStepByPasses(s0, flags1, FlagsOf(), door1, TimedDoorState(), playerBody.position, pressed);
    }

    /** The hazard zones, the checkpoints at the position the hazards left, and the death floor. */
    method UpdateSafety(player: Player)
      requires Valid() && player.Valid() && Apart(player.body)
      modifies checkpointSystem, player.body, player.onDeath
      ensures Valid() && player.Valid()
      ensures (SceneOf(), player.Snapshot()) ==
        SafetySceneStep(old(SceneOf()), old(player.Snapshot()), old(player.HookOf()), player.HookOf())
      ensures checkpointSystem.lastReachedId >= old(checkpointSystem.lastReachedId)
      ensures SessionTimers(player.onDeath) == old(SessionTimers(player.onDeath))
      ensures player.body.collisionResponse == old(player.body.collisionResponse)
    {
      RunHazards(player);
      RunCheckpoints(player);
      RunFloor(player);
    }

    /** The hazard zones; nothing of the level changes. */
    method RunHazards(player: Player)
      requires Valid() && player.Valid() && Apart(player.body)
      modifies player.body, player.onDeath
      ensures Valid() && player.Valid()
      ensures SceneOf() == old(SceneOf())
      ensures player.Snapshot() == HazardPass(hazards, old(player.Snapshot()), old(player.HookOf()))
      ensures player.HookOf() == old(player.HookOf())
      ensures SessionTimers(player.onDeath) == old(SessionTimers(player.onDeath))
      ensures player.body.collisionResponse == old(player.body.collisionResponse)
    {
      CheckHazards(player);
    }

    /** The checkpoint scan at the player's position; the player is left as it was. */
    method RunCheckpoints(player: Player)
      requires Valid() && player.Valid() && Apart(player.body)
      modifies checkpointSystem
      ensures Valid() && player.Valid()
      ensures SceneOf() ==
        old(SceneOf()).(last := Scan(checkpointSystem.checkpoints, old(checkpointSystem.lastReachedId),
                                     player.body.position.x, player.body.position.y))
      ensures checkpointSystem.lastReachedId >= old(checkpointSystem.lastReachedId)
      ensures player.Snapshot() == old(player.Snapshot())
      ensures SessionTimers(player.onDeath) == old(SessionTimers(player.onDeath))
      ensures player.body.collisionResponse == old(player.body.collisionResponse)
    {
      ghost var lastBefore := checkpointSystem.lastReachedId;
      checkpointSystem.CheckPlayer(player.body);
      ScanNeverDecreases(checkpointSystem.checkpoints, lastBefore, player.body.position.x, player.body.position.y);
    }

    /** The death floor under the hook `player.HookOf()`; nothing of the level changes. */
    method RunFloor(player: Player)
      requires Valid() && player.Valid() && Apart(player.body)
      modifies player.body, player.onDeath
      ensures Valid() && player.Valid()
      ensures SceneOf() == old(SceneOf())
      ensures player.Snapshot() ==
        (if OutOfBounds(old(player.body.position.y), OutOfBoundsY)
         then Sessions.Die(old(player.Snapshot()), old(player.HookOf())) else old(player.Snapshot()))
      ensures player.HookOf() == old(player.HookOf())
      ensures SessionTimers(player.onDeath) == old(SessionTimers(player.onDeath))
      ensures player.body.collisionResponse == old(player.body.collisionResponse)
    {
      KillOutOfBounds(player);
    }

    /** The timed door's countdown, then the wolf section. */
    method UpdateDoors(player: Player, deltaTime: real)
      requires Valid() && player.Valid() && Apart(player.body)
      modifies this`timedDoorOpen, this`openTimer, this`wolfChaseTriggered, this`safeZoneDoorClosed
      modifies timedDoorBody, wolf, wolf.body, safeZoneDoorBody, player.body, player.onDeath
      ensures Valid() && player.Valid()
      ensures (SceneOf(), player.Snapshot()) ==
        DoorsStep(old(SceneOf()), old(player.Snapshot()), old(player.HookOf()), deltaTime)
      ensures player.HookOf() == old(player.HookOf())
      ensures old(wolfChaseTriggered) ==> wolfChaseTriggered
      ensures old(safeZoneDoorClosed) ==> safeZoneDoorClosed
      ensures old(wolfChaseTriggered) && !old(wolf.isChasing) ==> !wolf.isChasing
      ensures SessionTimers(player.onDeath) == old(SessionTimers(player.onDeath))
      ensures player.body.collisionResponse == old(player.body.collisionResponse)
    {
      TickTimedDoor(deltaTime);
      RunWolf(player, deltaTime);
    }

    /** The wolf section; of the level only its latches, the wolf and the safe-zone door change. */
    method RunWolf(player: Player, deltaTime: real)
      requires Valid() && player.Valid() && Apart(player.body)
      modifies this`wolfChaseTriggered, this`safeZoneDoorClosed, wolf, wolf.body, safeZoneDoorBody
      modifies player.body, player.onDeath
      ensures Valid() && player.Valid()
      ensures var (ws, v) := WolfStep(old(WolfSceneOf()), old(wolf.body.position), old(player.Snapshot()),
                                      old(player.HookOf()));
        SceneOf() == old(SceneOf()).(wolf := ws) && player.Snapshot() == v
      ensures player.HookOf() == old(player.HookOf())
      ensures player.body.collisionResponse == old(player.body.collisionResponse)
      ensures SessionTimers(player.onDeath) == old(SessionTimers(player.onDeath))
    {
      UpdateWolf(player, deltaTime);
    }

    /** Every guard in turn, each seeing the player the guards before it left. */
    method UpdateEnemies(player: Player, deltaTime: real, angles: seq<real>)
      requires Valid() && player.Valid() && Apart(player.body) && |angles| == |enemies|
      modifies enemies, EnemyBodies(enemies), EnemyDetections(enemies), player.body, player.onDeath
      ensures Valid() && player.Valid()
      ensures var (guards, v) := GuardsRun(old(SceneOf()), |enemies|, old(player.meshPosition), old(player.Snapshot()),
                                           old(player.HookOf()), angles, deltaTime);
        SceneOf() == old(SceneOf()).(guards := guards) && player.Snapshot() == v
      ensures player.HookOf() == old(player.HookOf())
      ensures exists n: nat :: player.Snapshot() == DieTimes(old(player.Snapshot()), old(player.HookOf()), n)
      ensures player.body.collisionResponse == old(player.body.collisionResponse)
      ensures player.onDeath != null ==>
        player.onDeath.deathCooldown == old(player.onDeath.deathCooldown) &&
        player.onDeath.introState == old(player.onDeath.introState) &&
        player.onDeath.introRecoveryTimer == old(player.onDeath.introRecoveryTimer)
    {
      ghost var s0 := SceneOf();
      ghost var h0 := player.HookOf();
      ghost var seen := GuardsPass(player, deltaTime, angles);
      forall k | 0 <= k < |enemies|
        ensures seen[k + 1] == seen[k] || seen[k + 1] == Sessions.Die(seen[k], h0)
      {
      }
      ChainOfDeaths(seen, h0);
      GuardsRunChains(s0, player.meshPosition, h0, angles, deltaTime, GuardsOf(), seen, |enemies|);
      assert GuardsOf()[..|enemies|] == GuardsOf();
      assert GuardSpots() == s0.guardAt;
    }

    /** The loop of `UpdateEnemies`; `seen[k]` is the player guard `k` sees. */
    method GuardsPass(player: Player, deltaTime: real, angles: seq<real>) returns (ghost seen: seq<Victim>)
      requires Valid() && player.Valid() && Apart(player.body) && |angles| == |enemies|
      modifies enemies, EnemyBodies(enemies), EnemyDetections(enemies), player.body, player.onDeath
      ensures Valid() && player.Valid() && player.HookOf() == old(player.HookOf())
      ensures |seen| == |enemies| + 1 && seen[0] == old(player.Snapshot()) && seen[|enemies|] == player.Snapshot()
      ensures forall k :: 0 <= k < |enemies| ==>
        enemies[k].body.position == old(enemies[k].body.position) &&
        (enemies[k].View(), seen[k + 1]) ==
          GuardStep(old(enemies[k].View()), enemies[k].body.position, enemies[k].patrolMinX, enemies[k].patrolMaxX,
                    player.meshPosition, seen[k], old(player.HookOf()), angles[k], deltaTime)
      ensures FlagsOf() == old(FlagsOf()) && PropSpots() == old(PropSpots()) && TimedDoorState() == old(TimedDoorState())
      ensures WolfSceneOf() == old(WolfSceneOf()) && wolf.body.position == old(wolf.body.position)
      ensures checkpointSystem.checkpoints == old(checkpointSystem.checkpoints)
      ensures checkpointSystem.lastReachedId == old(checkpointSystem.lastReachedId)
      ensures player.body.collisionResponse == old(player.body.collisionResponse)
      ensures player.onDeath != null ==>
        player.onDeath.deathCooldown == old(player.onDeath.deathCooldown) &&
        player.onDeath.introState == old(player.onDeath.introState) &&
        player.onDeath.introRecoveryTimer == old(player.onDeath.introRecoveryTimer)
    {
      ghost var v0 := player.Snapshot();
      ghost var h0 := player.HookOf();
      ghost var flags0, spots0 := FlagsOf(), PropSpots();
      ghost var views0 := GuardsOf();
      seen := [v0];
      var i := 0;
      while i < |enemies|
        invariant 0 <= i <= |enemies|
        invariant Valid() && player.Valid() && Apart(player.body)
        invariant player.HookOf() == h0
        invariant |seen| == i + 1 && seen[0] == v0 && seen[i] == player.Snapshot()
        invariant forall k :: 0 <= k < |enemies| ==> enemies[k].body.position == old(enemies[k].body.position)
        invariant forall k :: 0 <= k < i ==>
          (enemies[k].View(), seen[k + 1]) ==
            GuardStep(views0[k], enemies[k].body.position, enemies[k].patrolMinX, enemies[k].patrolMaxX,
                      player.meshPosition, seen[k], h0, angles[k], deltaTime)
        invariant forall k :: i <= k < |enemies| ==> enemies[k].View() == views0[k]
        invariant FlagsOf() == flags0 && PropSpots() == spots0 && TimedDoorState() == old(TimedDoorState())
        invariant WolfSceneOf() == old(WolfSceneOf()) && wolf.body.position == old(wolf.body.position)
        invariant player.body.collisionResponse == old(player.body.collisionResponse)
        invariant SessionTimers(player.onDeath) == old(SessionTimers(player.onDeath))
      {
        UpdateGuard(i, player, deltaTime, angles[i]);
        seen := seen + [player.Snapshot()];
        i := i + 1;
      }
    }

    /** One guard's update: its perception, state and steering, and the player left alone or dead once. */
    method UpdateGuard(i: nat, player: Player, deltaTime: real, angle: real)
      requires Valid() && player.Valid() && Apart(player.body) && i < |enemies|
      modifies enemies[i], enemies[i].body, enemies[i].detection, player.body, player.onDeath
      ensures Valid() && player.Valid()
      ensures FlagsOf() == old(FlagsOf()) && PropSpots() == old(PropSpots()) && TimedDoorState() == old(TimedDoorState())
      ensures WolfSceneOf() == old(WolfSceneOf()) && wolf.body.position == old(wolf.body.position)
      ensures player.HookOf() == old(player.HookOf())
      ensures enemies[i].body.position == old(enemies[i].body.position)
      ensures (enemies[i].View(), player.Snapshot()) ==
        GuardStep(old(enemies[i].View()), enemies[i].body.position, enemies[i].patrolMinX, enemies[i].patrolMaxX,
                  player.meshPosition, old(player.Snapshot()), old(player.HookOf()), angle, deltaTime)
      ensures forall k :: 0 <= k < |enemies| && k != i ==>
        enemies[k].View() == old(enemies[k].View()) && enemies[k].body.position == old(enemies[k].body.position)
      ensures player.Snapshot() == old(player.Snapshot()) ||
              player.Snapshot() == Sessions.Die(old(player.Snapshot()), old(player.HookOf()))
      ensures player.body.collisionResponse == old(player.body.collisionResponse)
      ensures SessionTimers(player.onDeath) == old(SessionTimers(player.onDeath))
    {
      enemies[i].Update(player, deltaTime, angle);
    }

    /** The lever's `onActivate` closure. */
    method OpenDoor()
      modifies this`timedDoorOpen, this`openTimer, timedDoorBody
      ensures TimedDoorState() == OpenedDoor
      ensures timedDoorBody.position == old(timedDoorBody.position) && timedDoorBody.DriftOf() == old(timedDoorBody.DriftOf())
    {
      timedDoorOpen := true;
      openTimer := DoorOpenTime;
      timedDoorBody.collisionResponse := false;
    }

    /** Runs a fired callback at once. */
    method Run(fired: Option<Callback>)
      modifies this`timedDoorOpen, this`openTimer, timedDoorBody
      ensures TimedDoorState() == (if fired.Some? then OpenedDoor else old(TimedDoorState()))
      ensures timedDoorBody.position == old(timedDoorBody.position) && timedDoorBody.DriftOf() == old(timedDoorBody.DriftOf())
    {
      match fired
      case Some(OpenTimedDoor) => OpenDoor();
      case None =>
    }

    /** Interactable `i`'s proximity update, and the callback it runs. */
    method UpdateInteractable(i: nat, playerBody: Body) returns (fired: Option<Callback>)
      requires Valid() && i < |interactables|
      modifies interactables[i], this`timedDoorOpen, this`openTimer, timedDoorBody
      ensures Valid()
      ensures var p := interactables[i];
        var d := DistSq(p.body.position, playerBody.position);
        p.isActive == ActiveAfterUpdate(p.kind, old(p.isActive), d) &&
        fired == FiredByUpdate(p.kind, old(p.isActive), d, p.onActivate, p.onDeactivate)
      ensures forall k :: 0 <= k < |interactables| && k != i ==> interactables[k].isActive == old(interactables[k].isActive)
      ensures forall k :: 0 <= k < |interactables| ==> interactables[k].body.position == old(interactables[k].body.position)
      ensures playerBody.position == old(playerBody.position)
      ensures TimedDoorState() == (if fired.Some? then OpenedDoor else old(TimedDoorState()))
      ensures SceneOf() == old(SceneOf()).(flags := FlagsOf(), door := TimedDoorState())
    {
      fired := interactables[i].Update(playerBody);
      Run(fired);
    }

    /** Interact pressed at interactable `i`, and the callback it runs. */
    method InteractWith(i: nat, playerBody: Body) returns (fired: Option<Callback>)
      requires Valid() && i < |interactables|
      modifies interactables[i], this`timedDoorOpen, this`openTimer, timedDoorBody
      ensures Valid()
      ensures var p := interactables[i];
        var d := DistSq(p.body.position, playerBody.position);
        p.isActive == ActiveAfterInteract(p.kind, old(p.isActive), d) &&
        fired == FiredByInteract(p.kind, old(p.isActive), d, p.onActivate, p.onDeactivate)
      ensures forall k :: 0 <= k < |interactables| && k != i ==> interactables[k].isActive == old(interactables[k].isActive)
      ensures forall k :: 0 <= k < |interactables| ==> interactables[k].body.position == old(interactables[k].body.position)
      ensures playerBody.position == old(playerBody.position)
      ensures TimedDoorState() == (if fired.Some? then OpenedDoor else old(TimedDoorState()))
      ensures SceneOf() == old(SceneOf()).(flags := FlagsOf(), door := TimedDoorState())
    {
      fired := interactables[i].TryInteract(playerBody);
      Run(fired);
    }

    /** The proximity pass over the interactables. */
    method UpdateInteractables(playerBody: Body)
      requires Valid()
      modifies interactables, this`timedDoorOpen, this`openTimer, timedDoorBody
      ensures Valid()
      ensures playerBody.position == old(playerBody.position)
      ensures forall k :: 0 <= k < |interactables| ==>
        interactables[k].body.position == old(interactables[k].body.position)
      ensures forall k :: 0 <= k < |interactables| ==>
        interactables[k].isActive ==
          ActiveAfterUpdate(interactables[k].kind, old(interactables[k].isActive),
                            DistSq(interactables[k].body.position, playerBody.position))
      ensures TimedDoorState() ==
        (if ProximityFires(old(FlagsOf()), old(PropSpots()), playerBody.position) then OpenedDoor else old(TimedDoorState()))
      ensures SceneOf() == old(SceneOf()).(flags := FlagsOf(), door := TimedDoorState())
    {
      ghost var flags0, spots0 := FlagsOf(), PropSpots();
      ghost var any := false;
      var i := 0;
      while i < |interactables|
        invariant 0 <= i <= |interactables|
        invariant Valid()
        invariant forall k :: 0 <= k < |interactables| ==> interactables[k].body.position == spots0[k]
        invariant playerBody.position == old(playerBody.position)
        invariant forall k :: 0 <= k < i ==>
          interactables[k].isActive ==
            ActiveAfterUpdate(interactables[k].kind, flags0[k], DistSq(spots0[k], playerBody.position))
        invariant forall k :: i <= k < |interactables| ==> interactables[k].isActive == flags0[k]
        invariant any <==> (exists k :: 0 <= k < i &&
                              FiredByUpdate(interactables[k].kind, flags0[k],
                                DistSq(spots0[k], playerBody.position),
                                interactables[k].onActivate, interactables[k].onDeactivate).Some?)
        invariant TimedDoorState() == (if any then OpenedDoor else old(TimedDoorState()))
        invariant SceneOf() == old(SceneOf()).(flags := FlagsOf(), door := TimedDoorState())
      {
        var fired := UpdateInteractable(i, playerBody);
        any := any || fired.Some?;
        i := i + 1;
      }
    }

    /** The lever pass, run while interact is held. */
    method InteractAll(playerBody: Body)
      requires Valid()
      modifies interactables, this`timedDoorOpen, this`openTimer, timedDoorBody
      ensures Valid()
      ensures playerBody.position == old(playerBody.position)
      ensures forall k :: 0 <= k < |interactables| ==>
        interactables[k].body.position == old(interactables[k].body.position)
      ensures forall k :: 0 <= k < |interactables| ==>
        interactables[k].isActive ==
          ActiveAfterInteract(interactables[k].kind, old(interactables[k].isActive),
                              DistSq(interactables[k].body.position, playerBody.position))
      ensures TimedDoorState() ==
        (if LeverFires(old(FlagsOf()), old(PropSpots()), playerBody.position) then OpenedDoor else old(TimedDoorState()))
      ensures SceneOf() == old(SceneOf()).(flags := FlagsOf(), door := TimedDoorState())
    {
      ghost var flags0, spots0 := FlagsOf(), PropSpots();
      ghost var any := false;
      var i := 0;
      while i < |interactables|
        invariant 0 <= i <= |interactables|
        invariant Valid()
        invariant forall k :: 0 <= k < |interactables| ==> interactables[k].body.position == spots0[k]
        invariant playerBody.position == old(playerBody.position)
        invariant forall k :: 0 <= k < i ==>
          interactables[k].isActive ==
            ActiveAfterInteract(interactables[k].kind, flags0[k], DistSq(spots0[k], playerBody.position))
        invariant forall k :: i <= k < |interactables| ==> interactables[k].isActive == flags0[k]
        invariant any <==> (exists k :: 0 <= k < i &&
                              FiredByInteract(interactables[k].kind, flags0[k],
                                DistSq(spots0[k], playerBody.position),
                                interactables[k].onActivate, interactables[k].onDeactivate).Some?)
        invariant TimedDoorState() == (if any then OpenedDoor else old(TimedDoorState()))
        invariant SceneOf() == old(SceneOf()).(flags := FlagsOf(), door := TimedDoorState())
      {
        var fired := InteractWith(i, playerBody);
        any := any || fired.Some?;
        i := i + 1;
      }
    }

    /** Every hazard zone in turn, each testing the player where the deaths before it left the body. */
    method CheckHazards(player: Player)
      requires player.Valid()
      modifies player.body, player.onDeath
      ensures player.Valid()
      ensures player.Snapshot() == HazardPass(hazards, old(player.Snapshot()), old(player.HookOf()))
      ensures player.HookOf() == old(player.HookOf())
      ensures player.body.collisionResponse == old(player.body.collisionResponse)
      ensures player.onDeath != null ==>
        player.onDeath.deathCooldown == old(player.onDeath.deathCooldown) &&
        player.onDeath.introState == old(player.onDeath.introState) &&
        player.onDeath.introRecoveryTimer == old(player.onDeath.introRecoveryTimer)
    {
      ghost var v0 := player.Snapshot();
      ghost var h0 := player.HookOf();
      var i := 0;
      while i < |hazards|
        invariant 0 <= i <= |hazards|
        invariant player.Valid()
        invariant player.HookOf() == h0
        invariant player.Snapshot() == HazardPass(hazards[..i], v0, h0)
        invariant player.body.collisionResponse == old(player.body.collisionResponse)
        invariant player.onDeath != null ==>
          player.onDeath.deathCooldown == old(player.onDeath.deathCooldown) &&
          player.onDeath.introState == old(player.onDeath.introState) &&
          player.onDeath.introRecoveryTimer == old(player.onDeath.introRecoveryTimer)
      {
        assert hazards[..i + 1][..i] == hazards[..i];
        if Kills(hazards[i], player.body.position.x, player.body.position.y) {
          player.Die();
        }
        i := i + 1;
      }
      assert hazards[..i] == hazards;
    }

    /** The death floor. */
    method KillOutOfBounds(player: Player)
      requires player.Valid()
      modifies player.body, player.onDeath
      ensures player.Valid()
      ensures player.Snapshot() ==
        (if OutOfBounds(old(player.body.position.y), OutOfBoundsY)
         then Sessions.Die(old(player.Snapshot()), old(player.HookOf())) else old(player.Snapshot()))
      ensures player.HookOf() == old(player.HookOf())
      ensures player.body.collisionResponse == old(player.body.collisionResponse)
      ensures player.onDeath != null ==>
        player.onDeath.deathCooldown == old(player.onDeath.deathCooldown) &&
        player.onDeath.introState == old(player.onDeath.introState) &&
        player.onDeath.introRecoveryTimer == old(player.onDeath.introRecoveryTimer)
    {
      if player.body.position.y < OutOfBoundsY {
        player.Die();
      }
    }

    /** The timed-door countdown. */
    method TickTimedDoor(deltaTime: real)
      requires Valid()
      modifies this`timedDoorOpen, this`openTimer, timedDoorBody
      ensures Valid()
      ensures TimedDoorState() == DoorTick(old(TimedDoorState()), deltaTime)
      ensures SceneOf() == old(SceneOf()).(door := TimedDoorState())
    {
      if timedDoorOpen {
        openTimer := openTimer - deltaTime;
        if openTimer <= 0.0 {
          timedDoorOpen := false;
          timedDoorBody.collisionResponse := true;
        }
      }
    }

    /** The wolf trigger, the wolf's own update, and the safe zone. */
    method UpdateWolf(player: Player, deltaTime: real)
      requires Valid() && player.Valid() && Apart(player.body)
      modifies this`wolfChaseTriggered, this`safeZoneDoorClosed, wolf, wolf.body, safeZoneDoorBody
      modifies player.body, player.onDeath
      ensures Valid() && player.Valid()
      ensures wolf.body.position == old(wolf.body.position)
      ensures (WolfSceneOf(), player.Snapshot()) ==
        WolfStep(old(WolfSceneOf()), wolf.body.position, old(player.Snapshot()), old(player.HookOf()))
      ensures player.HookOf() == old(player.HookOf())
      ensures player.body.collisionResponse == old(player.body.collisionResponse)
      ensures player.onDeath != null ==>
        player.onDeath.deathCooldown == old(player.onDeath.deathCooldown) &&
        player.onDeath.introState == old(player.onDeath.introState) &&
        player.onDeath.introRecoveryTimer == old(player.onDeath.introRecoveryTimer)
    {
      TriggerWolf(player.body.position.x);
      ChaseAndBite(player);
      CloseSafeZone(player.body.position.x);
    }

    /** The wolf's own update; of the wolf section only the wolf's velocity changes. */
    method ChaseAndBite(player: Player)
      requires Valid() && player.Valid() && Apart(player.body)
      modifies wolf.body, player.body, player.onDeath
      ensures Valid() && player.Valid()
      ensures WolfSceneOf() == old(WolfSceneOf()).(velocity := wolf.body.velocity)
      ensures wolf.body.position == old(wolf.body.position)
      ensures wolf.body.velocity == (if wolf.isChasing
        then old(wolf.body.velocity).(x := WolfChaseSpeed * (Sign(old(player.body.position.x) - wolf.body.position.x) as real))
        else old(wolf.body.velocity))
      ensures var bite := wolf.isChasing && DistSq(wolf.body.position, old(player.body.position)) < BiteReachSq;
        player.Snapshot() == (if bite then Sessions.Die(old(player.Snapshot()), old(player.HookOf()))
                              else old(player.Snapshot()))
      ensures player.HookOf() == old(player.HookOf())
      ensures player.body.collisionResponse == old(player.body.collisionResponse)
      ensures SessionTimers(player.onDeath) == old(SessionTimers(player.onDeath))
    {
      wolf.Update(player);
    }

    /** The trigger: the first frame past x = 190 starts the chase. */
    method TriggerWolf(x: real)
      requires Valid()
      modifies this`wolfChaseTriggered, wolf, wolf.body
      ensures Valid()
      ensures LatchState() == Trigger(old(LatchState()), x)
      ensures var shown := !old(wolfChaseTriggered) && x > WolfChaseX && !old(wolf.isChasing);
        wolf.visible == (old(wolf.visible) || shown) &&
        wolf.body.collisionResponse == (old(wolf.body.collisionResponse) || shown) &&
        WolfSceneOf() == old(WolfSceneOf()).(latches := LatchState(), visible := wolf.visible,
                                             solid := wolf.body.collisionResponse)
      ensures wolf.body.position == old(wolf.body.position) && wolf.body.velocity == old(wolf.body.velocity)
      ensures wolf.body.angularVelocity == old(wolf.body.angularVelocity) && wolf.body.awake == old(wolf.body.awake)
    {
      if !wolfChaseTriggered && x > WolfChaseX {
        wolfChaseTriggered := true;
        wolf.StartChase();
      }
    }

    /** The safe zone: past x = 284.5 after the trigger the door slams and the wolf halts. */
    method CloseSafeZone(x: real)
      requires Valid()
      modifies this`safeZoneDoorClosed, wolf, wolf.body, safeZoneDoorBody
      ensures Valid()
      ensures LatchState() == Halt(old(LatchState()), x)
      ensures var halted := old(wolfChaseTriggered) && x > SafeZoneX;
        wolf.body.velocity == (if halted then Zero else old(wolf.body.velocity)) &&
        safeZoneDoorBody.position ==
          (if halted && !old(safeZoneDoorClosed) then old(safeZoneDoorBody.position).(y := 1.0)
           else old(safeZoneDoorBody.position))
      ensures wolf.body.position == old(wolf.body.position)
      ensures wolf.visible == old(wolf.visible) && wolf.body.collisionResponse == old(wolf.body.collisionResponse)
      ensures wolf.body.angularVelocity == old(wolf.body.angularVelocity) && wolf.body.awake == old(wolf.body.awake)
      ensures WolfSceneOf() ==
        old(WolfSceneOf()).(latches := LatchState(), velocity := wolf.body.velocity, safeDoor := safeZoneDoorBody.position)
    {
      // the door slams behind the player and the wolf can no longer reach
      if wolfChaseTriggered && x > SafeZoneX {
        if !safeZoneDoorClosed {
          safeZoneDoorClosed := true;
          safeZoneDoorBody.position := safeZoneDoorBody.position.(y := 1.0);
        }
        wolf.isChasing := false;
        wolf.body.velocity := Zero;
      }
    }
  }
}
