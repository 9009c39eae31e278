/**
 * A guard's perception: a sight test, a hearing test and the
 * UNAWARE / SUSPICIOUS / CHASE alert machine driven by them
 * (src/systems/DetectionSystem.ts). The angle between the guard's facing
 * and the direction to the player is an input, in degrees: it is computed
 * by the vector library from the two positions.
 */
module Detection {
  import opened Geometry

  datatype AlertState = Unaware | Suspicious | Chase

  const SuspiciousThreshold: real := 1.5
  const RunSoundRadius: real := 12.0
  const WalkSoundRadius: real := 4.0
  /** Half-angle of the vision cone, in degrees. */
  const FieldOfViewDeg: real := 70.0
  const VisionRange: real := 15.0
  const ChaseDistanceLose: real := 20.0

  /** Sight: within vision range, and strictly inside the cone. */
  predicate CanSee(distSq: real, angleDeg: real) {
    if distSq > VisionRange * VisionRange then false
    else angleDeg < FieldOfViewDeg
  }

  /** Hearing: strictly inside the running or the walking radius. */
  predicate CanHear(distSq: real, playerIsRunning: bool) {
    var radius := if playerIsRunning then RunSoundRadius else WalkSoundRadius;
    distSq < radius * radius
  }

  /** The alert state and the suspicion timer. */
  datatype Memory = Memory(state: AlertState, timer: real)

  const Initial: Memory := Memory(Unaware, 0.0)

  /** One update of the machine, given the two senses and the distance. */
  function Next(m: Memory, see: bool, hear: bool, distSq: real, dt: real): Memory {
    match m.state
    case Unaware =>
      if see || hear then Memory(Suspicious, 0.0) else m
    case Suspicious =>
      if !see && !hear then
        var t := Max(0.0, m.timer - dt);
        Memory(if t <= 0.0 then Unaware else Suspicious, t)
      else
        var t := m.timer + dt;
        Memory(if t >= SuspiciousThreshold then Chase else Suspicious, t)
    case Chase =>
      if distSq > ChaseDistanceLose * ChaseDistanceLose && !see then
        Memory(Suspicious, SuspiciousThreshold * 0.5)
      else m
  }

  /** Sight never reaches past the vision range, whatever the angle. */
  lemma BlindBeyondRange(distSq: real, angleDeg: real)
    requires distSq > VisionRange * VisionRange
    ensures !CanSee(distSq, angleDeg)
  {
  }

  /** Within range, sight is exactly the strict cone test. */
  lemma SightInRangeIsCone(distSq: real, angleDeg: real)
    requires distSq <= VisionRange * VisionRange
    ensures CanSee(distSq, angleDeg) <==> angleDeg < FieldOfViewDeg
  {
  }

  /** UNAWARE never jumps to CHASE; contact makes it SUSPICIOUS with a fresh timer. */
  lemma UnawareNeverChases(m: Memory, see: bool, hear: bool, distSq: real, dt: real)
    requires m.state == Unaware
    ensures Next(m, see, hear, distSq, dt).state != Chase
    ensures (see || hear) ==> Next(m, see, hear, distSq, dt) == Memory(Suspicious, 0.0)
    ensures !(see || hear) ==> Next(m, see, hear, distSq, dt) == m
  {
  }

  /** While suspicious with contact, CHASE comes exactly when the timer reaches the threshold. */
  lemma SuspicionEscalates(m: Memory, see: bool, hear: bool, distSq: real, dt: real)
    requires m.state == Suspicious && (see || hear)
    ensures Next(m, see, hear, distSq, dt).timer == m.timer + dt
    ensures Next(m, see, hear, distSq, dt).state == Chase <==> m.timer + dt >= SuspiciousThreshold
  {
  }

  /** While suspicious without contact, the timer decays, is never negative, and UNAWARE comes at zero. */
  lemma SuspicionDecays(m: Memory, see: bool, hear: bool, distSq: real, dt: real)
    requires m.state == Suspicious && !see && !hear
    ensures Next(m, see, hear, distSq, dt).timer == Max(0.0, m.timer - dt)
    ensures Next(m, see, hear, distSq, dt).timer >= 0.0
    ensures Next(m, see, hear, distSq, dt).state == Unaware <==> Next(m, see, hear, distSq, dt).timer == 0.0
  {
  }

  /** CHASE is dropped only far away and out of sight, hearing not mattering, to the half-threshold memory. */
  lemma ChaseIsLostOnlyFarAndUnseen(m: Memory, see: bool, hear: bool, distSq: real, dt: real)
    requires m.state == Chase
    ensures Next(m, see, hear, distSq, dt).state != Unaware
    ensures Next(m, see, hear, distSq, dt).state == Suspicious <==>
      distSq > ChaseDistanceLose * ChaseDistanceLose && !see
    ensures Next(m, see, hear, distSq, dt).state == Suspicious ==>
      Next(m, see, hear, distSq, dt).timer == 0.75
    ensures Next(m, see, hear, distSq, dt) == Next(m, see, !hear, distSq, dt)
  {
  }

  /** One frame of sensing, as the guard passes it to the machine. */
  datatype Frame = Frame(see: bool, hear: bool, distSq: real, dt: real)

  function Run(m: Memory, frames: seq<Frame>): Memory
    decreases |frames|
  {
    if frames == [] then m
    else
      var f := frames[|frames| - 1];
      Next(Run(m, frames[..|frames| - 1]), f.see, f.hear, f.distSq, f.dt)
  }

  /** Total time of the frames in which the player was seen or heard. */
  function ContactTime(frames: seq<Frame>): real
    decreases |frames|
  {
    if frames == [] then 0.0
    else
      var f := frames[|frames| - 1];
      ContactTime(frames[..|frames| - 1]) + (if f.see || f.hear then f.dt else 0.0)
  }

  ghost predicate NonNegativeSteps(frames: seq<Frame>) {
    forall i :: 0 <= i < |frames| ==> frames[i].dt >= 0.0
  }

  /**
   * Starting UNAWARE, no run of frames reaches CHASE before the player has
   * been in contact for at least the suspicion threshold in total; on the way
   * the suspicion timer never exceeds the contact time.
   */
  lemma {:induction false} ChaseNeedsSustainedContact(frames: seq<Frame>)
    requires NonNegativeSteps(frames)
    ensures var m := Run(Initial, frames);
      ContactTime(frames) >= SuspiciousThreshold || (m.state != Chase && m.timer <= ContactTime(frames))
    ensures Run(Initial, frames).state == Chase ==> ContactTime(frames) >= SuspiciousThreshold
    decreases |frames|
  {
    if frames != [] {
      var init := frames[..|frames| - 1];
      assert NonNegativeSteps(init) by {
        forall i | 0 <= i < |init| ensures init[i].dt >= 0.0 {
          assert init[i] == frames[i];
        }
      }
      ChaseNeedsSustainedContact(init);
      ContactTimeNonNegative(init);
    }
  }

  lemma {:induction false} ContactTimeNonNegative(frames: seq<Frame>)
    requires NonNegativeSteps(frames)
    ensures ContactTime(frames) >= 0.0
    decreases |frames|
  {
    if frames != [] {
      var init := frames[..|frames| - 1];
      assert NonNegativeSteps(init) by {
        forall i | 0 <= i < |init| ensures init[i].dt >= 0.0 {
          assert init[i] == frames[i];
        }
      }
      ContactTimeNonNegative(init);
    }
  }

  /** With non-negative steps the suspicion timer is never negative. */
  lemma TimerStaysNonNegative(m: Memory, see: bool, hear: bool, distSq: real, dt: real)
    requires m.timer >= 0.0 && dt >= 0.0
    ensures Next(m, see, hear, distSq, dt).timer >= 0.0
  {
  }

  class DetectionSystem {
    var alertState: AlertState
    var suspiciousTimer: real

    function Memo(): Memory
      reads this
    {
      Memory(alertState, suspiciousTimer)
    }

    constructor ()
      ensures Memo() == Initial
    {
      alertState := Unaware;
      suspiciousTimer := 0.0;
    }

    /**
     * Senses the player and advances the machine. `enemyPos` is the guard's
     * body position, `playerPos` the player's rendered position.
     */
    method Update(enemyPos: Vec3, playerPos: Vec3, angleDeg: real, playerIsRunning: bool, deltaTime: real)
      returns (s: AlertState)
      modifies this
      ensures var d := DistSq(enemyPos, playerPos);
        Memo() == Next(old(Memo()), CanSee(d, angleDeg), CanHear(d, playerIsRunning), d, deltaTime)
      ensures s == alertState
    {
      var dist := DistSq(enemyPos, playerPos);
      var canSee := CanSee(dist, angleDeg);
      var canHear := CanHear(dist, playerIsRunning);

      if alertState == Unaware {
        if canSee || canHear {
          alertState := Suspicious;
          suspiciousTimer := 0.0;
        }
      } else if alertState == Suspicious {
        if !canSee && !canHear {
          // contact lost: decay towards zero, then forget
          suspiciousTimer := Max(0.0, suspiciousTimer - deltaTime);
          if suspiciousTimer <= 0.0 {
            alertState := Unaware;
          }
        } else {
          suspiciousTimer := suspiciousTimer + deltaTime;
          if suspiciousTimer >= SuspiciousThreshold {
            alertState := Chase;
          }
        }
      } else if alertState == Chase {
        if dist > ChaseDistanceLose * ChaseDistanceLose && !canSee {
          alertState := Suspicious;
          suspiciousTimer := SuspiciousThreshold * 0.5;
        }
      }
      s := alertState;
    }

    method Reset()
      modifies this
      ensures Memo() == Initial
    {
      alertState := Unaware;
      suspiciousTimer := 0.0;
    }
  }
}
