/**
 * The patrolling guard (src/entities/Enemy.ts): the alert state of its
 * perception selects PATROL or CHASE, patrol walks between two bounds and
 * turns when it passes one, chase runs towards the player, and a chasing
 * guard kills the player within reach.
 *
 * The angle between the guard's facing and the direction to the player is
 * an input (the vector library computes it). Meshes and the spotlight are
 * not modelled.
 */
module Enemies {
  import opened Geometry
  import opened Bodies
  import opened Detection
  import opened Sessions
  import opened Players

  datatype EnemyState = Patrol | Chasing

  const PatrolSpeed: real := 3.0
  const ChaseSpeed: real := 7.0
  /** The grab reach, squared: the kill happens below a distance of 1.5. */
  const GrabReachSq: real := 1.5 * 1.5
  /** The player counts as running above this horizontal speed. */
  const RunningSpeed: real := 2.0

  predicate IsRunning(vx: real) {
    Abs(vx) > RunningSpeed
  }

  /** UNAWARE means patrol, CHASE means chase, SUSPICIOUS keeps what was. */
  function StateFor(s: EnemyState, alert: AlertState): EnemyState {
    match alert
    case Unaware => Patrol
    case Chase => Chasing
    case Suspicious => s
  }

  /** The two bound tests of `updatePatrol`, in order: past the right bound turns left, past the left bound turns right. */
  function PatrolTurn(dir: int, x: real, minX: real, maxX: real): int {
    var d := if x > maxX then -1 else dir;
    if x < minX then 1 else d
  }

  /** What the movement sections write: the velocity, the facing and the patrol direction. */
  datatype Steering = Steering(vx: real, face: int, patrolDirection: int)

  function Steer(s: EnemyState, dir: int, ex: real, px: real, minX: real, maxX: real): Steering {
    match s
    case Patrol => Steering(PatrolSpeed * (dir as real), dir, PatrolTurn(dir, ex, minX, maxX))
    case Chasing =>
      var d := Sign(px - ex);
      Steering(ChaseSpeed * (d as real), d, dir)
  }

  /**
   * A guard's state: its perception, its state, its steering, its velocity,
   * and the body's spin, awake flag and collision response, which no guard
   * update writes.
   */
  datatype Guard = Guard(memo: Memory, state: EnemyState, patrolDirection: int, faceDirection: int, velocity: Vec3,
                         spin: Vec3, awake: bool, solid: bool)

  /**
   * One guard's update on values. The guard stands at `at` and patrols
   * between `minX` and `maxX`; `eye` is the player's rendered position,
   * `v` the player's body and `h` the death handler in force. Returns the
   * guard and the player afterwards.
   */
  function GuardStep(g: Guard, at: Vec3, minX: real, maxX: real, eye: Vec3, v: Victim, h: Hook,
                     angleDeg: real, deltaTime: real): (Guard, Victim)
  {
    var d := DistSq(at, eye);
    var memo := Next(g.memo, CanSee(d, angleDeg), CanHear(d, IsRunning(v.velocity.x)), d, deltaTime);
    var state := StateFor(g.state, memo.state);
    var st := Steer(state, g.patrolDirection, at.x, v.position.x, minX, maxX);
    var grab := state == Chasing && DistSq(at, v.position) < GrabReachSq;
    (g.(memo := memo, state := state, patrolDirection := st.patrolDirection, faceDirection := st.face,
         velocity := g.velocity.(x := st.vx)),
     if grab then Die(v, h) else v)
  }

  predicate Unit(d: int) {
    d == -1 || d == 1
  }

  lemma StateMapping(s: EnemyState, alert: AlertState)
    ensures alert == Unaware ==> StateFor(s, alert) == Patrol
    ensures alert == Chase ==> StateFor(s, alert) == Chasing
    ensures alert == Suspicious ==> StateFor(s, alert) == s
    ensures StateFor(s, alert) == Chasing <==> alert == Chase || (alert == Suspicious && s == Chasing)
  {
  }

  /** The patrol direction stays a unit; past a bound it points back inside. */
  lemma PatrolTurnRule(dir: int, x: real, minX: real, maxX: real)
    requires Unit(dir)
    ensures Unit(PatrolTurn(dir, x, minX, maxX))
    ensures x < minX ==> PatrolTurn(dir, x, minX, maxX) == 1
    ensures minX <= x && x > maxX ==> PatrolTurn(dir, x, minX, maxX) == -1
    ensures minX <= x <= maxX ==> PatrolTurn(dir, x, minX, maxX) == dir
  {
  }

  /**
   * One guard update: the patrol direction stays a unit; the guard chases
   * exactly when its perception says CHASE, or SUSPICIOUS while it was
   * already chasing; the player is touched only by a chasing guard within
   * grab reach; a patrolling guard leaves the player alone and faces the
   * direction it held before the frame; the body's spin, awake flag and
   * collision response are kept.
   */
  lemma GuardStepRule(g: Guard, at: Vec3, minX: real, maxX: real, eye: Vec3, v: Victim, h: Hook,
                      angleDeg: real, deltaTime: real)
    requires Unit(g.patrolDirection)
    ensures var (g1, v1) := GuardStep(g, at, minX, maxX, eye, v, h, angleDeg, deltaTime);
      Unit(g1.patrolDirection) &&
      (g1.state == Chasing <==> g1.memo.state == Chase || (g1.memo.state == Suspicious && g.state == Chasing)) &&
      (v1 != v ==> g1.state == Chasing && DistSq(at, v.position) < GrabReachSq) &&
      (g1.state == Patrol ==> v1 == v && g1.faceDirection == g.patrolDirection) &&
      g1.spin == g.spin && g1.awake == g.awake && g1.solid == g.solid
  {
  }

  /** Patrol walks at 3 in the direction held before this frame's turn and faces that way. */
  lemma PatrolSteering(dir: int, ex: real, px: real, minX: real, maxX: real)
    requires Unit(dir)
    ensures var st := Steer(Patrol, dir, ex, px, minX, maxX);
      Abs(st.vx) == PatrolSpeed && st.face == dir && Unit(st.patrolDirection) &&
      (st.vx > 0.0 <==> dir == 1)
  {
  }

  /** Chase runs at 7 towards the player, faces the player, and stands still level with the player; patrol direction is kept. */
  lemma ChaseSteering(dir: int, ex: real, px: real, minX: real, maxX: real)
    ensures var st := Steer(Chasing, dir, ex, px, minX, maxX);
      st.face == Sign(px - ex) && st.patrolDirection == dir &&
      (px > ex ==> st.vx == ChaseSpeed) && (px < ex ==> st.vx == -ChaseSpeed) &&
      (px == ex ==> st.vx == 0.0) &&
      st.vx * (px - ex) >= 0.0
  {
    var d := Sign(px - ex);
    assert (d as real) * (px - ex) >= 0.0;
    assert ChaseSpeed * (d as real) * (px - ex) == ChaseSpeed * ((d as real) * (px - ex));
  }

  class Enemy {
    const body: Body
    const detection: DetectionSystem
    var state: EnemyState
    var patrolDirection: int
    var faceDirection: int
    const patrolMinX: real
    const patrolMaxX: real

    ghost predicate Valid()
      reads this
    {
      Unit(patrolDirection)
    }

    /** The guard's state as one value. */
    function View(): Guard
      reads this, body, detection
    {
      Guard(detection.Memo(), state, patrolDirection, faceDirection, body.velocity,
            body.angularVelocity, body.awake, body.collisionResponse)
    }

    constructor (position: Vec3, patrolMinX: real, patrolMaxX: real)
      ensures Valid() && fresh(body) && fresh(detection)
      ensures body.position == position && body.velocity == Zero
      ensures detection.Memo() == Initial
      ensures state == Patrol && patrolDirection == 1 && faceDirection == 1
      ensures this.patrolMinX == patrolMinX && this.patrolMaxX == patrolMaxX
    {
      body := new Body(position);
      detection := new DetectionSystem();
      state := Patrol;
      patrolDirection := 1;
      faceDirection := 1;
      this.patrolMinX := patrolMinX;
      this.patrolMaxX := patrolMaxX;
    }

    /**
     * One frame: perceive, pick the state, move, and grab. `angleDeg` is the
     * angle between the facing (`faceDirection`, 0, 0) and the player.
     */
    method Update(player: Player, deltaTime: real, angleDeg: real)
      requires Valid() && player.Valid() && body != player.body
      modifies this, body, detection, player.body, player.onDeath
      ensures Valid() && player.Valid()
      ensures var d := DistSq(old(body.position), old(player.meshPosition));
        detection.Memo() == Next(old(detection.Memo()), CanSee(d, angleDeg),
                                 CanHear(d, IsRunning(old(player.body.velocity.x))), d, deltaTime)
      ensures state == StateFor(old(state), detection.alertState)
      ensures var st := Steer(state, old(patrolDirection), old(body.position.x), old(player.body.position.x),
                              patrolMinX, patrolMaxX);
        body.velocity == old(body.velocity).(x := st.vx) &&
        faceDirection == st.face && patrolDirection == st.patrolDirection
      ensures body.position == old(body.position)
      ensures body.angularVelocity == old(body.angularVelocity) && body.awake == old(body.awake) &&
              body.collisionResponse == old(body.collisionResponse)
      ensures var grab := state == Chasing && DistSq(old(body.position), old(player.body.position)) < GrabReachSq;
        player.Snapshot() == (if grab then Sessions.Die(old(player.Snapshot()), old(player.HookOf()))
                              else old(player.Snapshot()))
      ensures player.onDeath != null ==>
        player.onDeath.deathCooldown == old(player.onDeath.deathCooldown) &&
        player.onDeath.introState == old(player.onDeath.introState) &&
        player.onDeath.introRecoveryTimer == old(player.onDeath.introRecoveryTimer)
      ensures player.body.collisionResponse == old(player.body.collisionResponse)
      ensures (View(), player.Snapshot()) ==
        GuardStep(old(View()), body.position, patrolMinX, patrolMaxX, old(player.meshPosition),
                  old(player.Snapshot()), old(player.HookOf()), angleDeg, deltaTime)
    {
      Act(player, deltaTime, angleDeg);

      // kill the player on grab
      var distToPlayer := DistSq(body.position, player.body.position);
      if distToPlayer < GrabReachSq && state == Chasing {
        player.Die();
      }
    }

    /** Perceive, pick the state and move; the player is only looked at. */
    method Act(player: Player, deltaTime: real, angleDeg: real)
      requires Valid() && player.Valid() && body != player.body
      modifies this, body, detection
      ensures Valid() && player.Valid()
      ensures var d := DistSq(old(body.position), old(player.meshPosition));
        detection.Memo() == Next(old(detection.Memo()), CanSee(d, angleDeg),
                                 CanHear(d, IsRunning(old(player.body.velocity.x))), d, deltaTime)
      ensures state == StateFor(old(state), detection.alertState)
      ensures var st := Steer(state, old(patrolDirection), old(body.position.x), old(player.body.position.x),
                              patrolMinX, patrolMaxX);
        body.velocity == old(body.velocity).(x := st.vx) &&
        faceDirection == st.face && patrolDirection == st.patrolDirection
      ensures body.position == old(body.position)
      ensures body.angularVelocity == old(body.angularVelocity) && body.awake == old(body.awake) &&
              body.collisionResponse == old(body.collisionResponse)
      ensures player.Snapshot() == old(player.Snapshot()) && player.HookOf() == old(player.HookOf())
      ensures player.meshPosition == old(player.meshPosition)
    {
      var playerIsRunning := Abs(player.body.velocity.x) > RunningSpeed;
      var alertState := detection.Update(body.position, player.meshPosition, angleDeg, playerIsRunning, deltaTime);

      if alertState == Unaware {
        state := Patrol;
      } else if alertState == Chase {
        state := Chasing;
      }

      Move(player);
    }

    /** The patrol or chase section for the guard's state. */
    method Move(player: Player)
      requires Valid() && body != player.body
      modifies this, body
      ensures Valid() && state == old(state)
      ensures var st := Steer(state, old(patrolDirection), old(body.position.x), player.body.position.x,
                              patrolMinX, patrolMaxX);
        body.velocity == old(body.velocity).(x := st.vx) &&
        faceDirection == st.face && patrolDirection == st.patrolDirection
      ensures body.position == old(body.position)
      ensures body.angularVelocity == old(body.angularVelocity) && body.awake == old(body.awake) &&
              body.collisionResponse == old(body.collisionResponse)
    {
      match state
      case Patrol => UpdatePatrol();
      case Chasing => UpdateChase(player);
    }

    method UpdatePatrol()
      requires Valid()
      modifies this, body
      ensures Valid() && state == old(state)
      ensures body.velocity == old(body.velocity).(x := PatrolSpeed * (old(patrolDirection) as real))
      ensures body.position == old(body.position)
      ensures body.angularVelocity == old(body.angularVelocity) && body.awake == old(body.awake) &&
              body.collisionResponse == old(body.collisionResponse)
      ensures faceDirection == old(patrolDirection)
      ensures patrolDirection == PatrolTurn(old(patrolDirection), body.position.x, patrolMinX, patrolMaxX)
    {
      body.velocity := body.velocity.(x := PatrolSpeed * (patrolDirection as real));
      faceDirection := patrolDirection;

      // turn around at the bounds
      if body.position.x > patrolMaxX { patrolDirection := -1; }
      if body.position.x < patrolMinX { patrolDirection := 1; }
    }

    method UpdateChase(player: Player)
      requires body != player.body
      modifies this, body
      ensures state == old(state) && patrolDirection == old(patrolDirection)
      ensures var dir := Sign(player.body.position.x - body.position.x);
        body.velocity == old(body.velocity).(x := ChaseSpeed * (dir as real)) && faceDirection == dir
      ensures body.position == old(body.position)
      ensures body.angularVelocity == old(body.angularVelocity) && body.awake == old(body.awake) &&
              body.collisionResponse == old(body.collisionResponse)
    {
      var dir := Sign(player.body.position.x - body.position.x);
      body.velocity := body.velocity.(x := ChaseSpeed * (dir as real));
      faceDirection := dir;
    }
  }
}
