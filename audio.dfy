/**
 * Cue scheduling of the procedural soundtrack (src/core/AudioManager.ts):
 * footsteps paced by the player's speed, forest creatures while the wolf is
 * far, guard growls and wolf barks by proximity, and the level of the drone
 * pad by danger. Synthesis is not modelled: a sound played is a `Cue`
 * returned to the caller, and the drone's gain is the level it is ramped to.
 * The random extra wait before a creature sound is an input in [0, 1).
 */
module Audio {
  import opened Geometry

  datatype Cue = Footstep | Creature | Growl(volume: real) | Bark

  /** The first level of the drone pad, set when it is started. */
  const DroneStartLevel: real := 0.12

  function StepInterval(playerSpeed: real): real {
    if playerSpeed > 3.0 then 0.28 else 0.45
  }

  /** The player counts as walking above a speed of 0.5. */
  predicate Walking(playerSpeed: real) {
    playerSpeed > 0.5
  }

  predicate FootstepFires(timer: real, dt: real, playerSpeed: real) {
    Walking(playerSpeed) && timer + dt > StepInterval(playerSpeed)
  }

  function FootstepTimer(timer: real, dt: real, playerSpeed: real): real {
    if !Walking(playerSpeed) then 0.3
    else if FootstepFires(timer, dt, playerSpeed) then 0.0
    else timer + dt
  }

  /** Forest sounds are considered only while the wolf is more than 30 away. */
  predicate Quiet(wolfDist: real) {
    wolfDist > 30.0
  }

  predicate CreatureFires(timer: real, dt: real, wolfDist: real, roll: real) {
    Quiet(wolfDist) && timer + dt > 4.0 + roll * 8.0
  }

  function ForestTimer(timer: real, dt: real, wolfDist: real, roll: real): real {
    if !Quiet(wolfDist) then timer
    else if CreatureFires(timer, dt, wolfDist, roll) then 0.0
    else timer + dt
  }

  function GrowlInterval(enemyDist: real): real {
    if enemyDist < 5.0 then 2.0 else 5.0
  }

  predicate GrowlFires(timer: real, dt: real, enemyDist: real) {
    enemyDist < 15.0 && timer + dt > GrowlInterval(enemyDist)
  }

  /** The shared timer after the growl check. */
  function AfterGrowl(timer: real, dt: real, enemyDist: real): real {
    if !(enemyDist < 15.0) then timer
    else if GrowlFires(timer, dt, enemyDist) then 0.0
    else timer + dt
  }

  function BarkInterval(wolfDist: real): real {
    if wolfDist < 8.0 then 0.8 else 2.0
  }

  predicate BarkFires(timer: real, dt: real, wolfDist: real) {
    wolfDist < 30.0 && timer + dt > BarkInterval(wolfDist)
  }

  /** The shared timer after the bark check. */
  function AfterBark(timer: real, dt: real, wolfDist: real): real {
    if !(wolfDist < 30.0) then timer
    else if BarkFires(timer, dt, wolfDist) then 0.0
    else timer + dt
  }

  /** The volume of a growl at distance `enemyDist`. */
  function GrowlVolume(enemyDist: real): real {
    Min(0.15, (1.0 - enemyDist / 15.0) * 0.12)
  }

  /** The level the drone pad is ramped to: the wolf first, then a guard. */
  function DangerLevel(wolfDist: real, enemyDist: real): real {
    if wolfDist < 20.0 then 0.3 else if enemyDist < 10.0 then 0.2 else 0.1
  }

  /** The cues of one update, in the order they are checked. */
  function Cues(footstep: real, forest: real, growl: real, dt: real, playerSpeed: real,
                enemyDist: real, wolfDist: real, roll: real): seq<Cue> {
    (if FootstepFires(footstep, dt, playerSpeed) then [Footstep] else []) +
    (if CreatureFires(forest, dt, wolfDist, roll) then [Creature] else []) +
    (if GrowlFires(growl, dt, enemyDist) then [Growl(GrowlVolume(enemyDist))] else []) +
    (if BarkFires(AfterGrowl(growl, dt, enemyDist), dt, wolfDist) then [Bark] else [])
  }

  // ---------------------------------------------------------------------
  // Properties of the schedule

  /**
   * A footstep is due once the player has walked past the step interval,
   * 0.28 when running faster than 3 and 0.45 otherwise; standing still
   * primes the timer at 0.3 and plays nothing.
   */
  lemma FootstepRule(timer: real, dt: real, playerSpeed: real)
    ensures !Walking(playerSpeed) ==> FootstepTimer(timer, dt, playerSpeed) == 0.3 && !FootstepFires(timer, dt, playerSpeed)
    ensures Walking(playerSpeed) ==>
      (FootstepFires(timer, dt, playerSpeed) <==>
        timer + dt > (if playerSpeed > 3.0 then 0.28 else 0.45))
    ensures FootstepFires(timer, dt, playerSpeed) ==> FootstepTimer(timer, dt, playerSpeed) == 0.0
  {
  }

  /** Whatever the inputs, the footstep timer never holds more than the longest interval. */
  lemma FootstepTimerBounded(timer: real, dt: real, playerSpeed: real)
    ensures FootstepTimer(timer, dt, playerSpeed) <= 0.45
    ensures Walking(playerSpeed) ==> FootstepTimer(timer, dt, playerSpeed) <= StepInterval(playerSpeed)
  {
  }

  /**
   * Standing primes the timer at 0.3, so the first step after starting to
   * walk is due as soon as the frame time exceeds the rest of the interval.
   */
  lemma FirstStepAfterStanding(dt: real, playerSpeed: real)
    requires Walking(playerSpeed) && 0.0 <= dt
    ensures FootstepFires(0.3, dt, playerSpeed) <==> dt > StepInterval(playerSpeed) - 0.3
  {
  }

  /** While the wolf is within 30 no creature sound plays and the forest timer is frozen. */
  lemma ForestHushedDuringChase(timer: real, dt: real, wolfDist: real, roll: real)
    requires wolfDist <= 30.0
    ensures !CreatureFires(timer, dt, wolfDist, roll) && ForestTimer(timer, dt, wolfDist, roll) == timer
  {
  }

  /** The random wait lies between 4 and 12: a creature never sounds before 4 and always after 12. */
  lemma CreatureWaitBounds(timer: real, dt: real, wolfDist: real, roll: real)
    requires Quiet(wolfDist) && 0.0 <= roll < 1.0
    ensures timer + dt <= 4.0 ==> !CreatureFires(timer, dt, wolfDist, roll)
    ensures timer + dt >= 12.0 ==> CreatureFires(timer, dt, wolfDist, roll)
  {
  }

  /** Growls only below 15, every 2 below 5 and every 5 otherwise, and never loud. */
  lemma GrowlRule(timer: real, dt: real, enemyDist: real)
    ensures GrowlFires(timer, dt, enemyDist) ==> enemyDist < 15.0
    ensures enemyDist >= 15.0 ==> AfterGrowl(timer, dt, enemyDist) == timer
    ensures enemyDist < 5.0 ==> (GrowlFires(timer, dt, enemyDist) <==> timer + dt > 2.0)
    ensures 5.0 <= enemyDist < 15.0 ==> (GrowlFires(timer, dt, enemyDist) <==> timer + dt > 5.0)
  {
  }

  /**
   * For any real distance (never negative) a growl's volume lies in
   * (0, 0.12], so the 0.15 cap is never the value chosen.
   */
  lemma GrowlVolumeBounds(enemyDist: real)
    requires 0.0 <= enemyDist < 15.0
    ensures 0.0 < GrowlVolume(enemyDist) <= 0.12
    ensures GrowlVolume(enemyDist) == (1.0 - enemyDist / 15.0) * 0.12
  {
  }

  /** Closer guards growl louder. */
  lemma GrowlLouderWhenCloser(d1: real, d2: real)
    requires 0.0 <= d1 <= d2 < 15.0
    ensures GrowlVolume(d1) >= GrowlVolume(d2)
  {
  }

  /**
   * Growl and bark share one timer: when a guard is within 15 and the wolf
   * within 30 and the growl is not due, the timer has advanced twice over
   * the frame before the bark interval is compared.
   */
  lemma SharedTimerAdvancesTwice(timer: real, dt: real, enemyDist: real, wolfDist: real)
    requires enemyDist < 15.0 && wolfDist < 30.0 && !GrowlFires(timer, dt, enemyDist)
    ensures BarkFires(AfterGrowl(timer, dt, enemyDist), dt, wolfDist) <==> timer + 2.0 * dt > BarkInterval(wolfDist)
    ensures !BarkFires(AfterGrowl(timer, dt, enemyDist), dt, wolfDist) ==>
      AfterBark(AfterGrowl(timer, dt, enemyDist), dt, wolfDist) == timer + 2.0 * dt
  {
  }

  /** The danger levels: 0.3 with the wolf within 20 whatever the guards, 0.2 for a guard within 10, else 0.1. */
  lemma DangerLevelRule(wolfDist: real, enemyDist: real)
    ensures DangerLevel(wolfDist, enemyDist) in {0.1, 0.2, 0.3}
    ensures DangerLevel(wolfDist, enemyDist) == 0.3 <==> wolfDist < 20.0
    ensures DangerLevel(wolfDist, enemyDist) == 0.2 <==> !(wolfDist < 20.0) && enemyDist < 10.0
    ensures DangerLevel(wolfDist, enemyDist) >= DangerLevel(999.0, 999.0)
  {
  }

  /** The cues come in a fixed order, a bark last, and each at most once per frame. */
  lemma CuesAtMostOneEach(footstep: real, forest: real, growl: real, dt: real, playerSpeed: real,
                          enemyDist: real, wolfDist: real, roll: real)
    ensures var cs := Cues(footstep, forest, growl, dt, playerSpeed, enemyDist, wolfDist, roll);
      |cs| <= 4 &&
      (Footstep in cs <==> FootstepFires(footstep, dt, playerSpeed)) &&
      (Creature in cs <==> CreatureFires(forest, dt, wolfDist, roll)) &&
      (Bark in cs <==> BarkFires(AfterGrowl(growl, dt, enemyDist), dt, wolfDist)) &&
      (forall c :: c in cs && c.Growl? ==> GrowlFires(growl, dt, enemyDist) && c.volume == GrowlVolume(enemyDist))
  {
  }

  // ---------------------------------------------------------------------
  // The manager

  class AudioManager {
    var started: bool
    var footstepTimer: real
    var forestTimer: real
    var growlTimer: real
    /** The gain the drone pad is ramped to; it exists once started. */
    var droneLevel: real

    constructor ()
      ensures !started && footstepTimer == 0.0 && forestTimer == 0.0 && growlTimer == 0.0
    {
      started := false;
      footstepTimer := 0.0;
      forestTimer := 0.0;
      growlTimer := 0.0;
      droneLevel := 0.0;
    }

    /** Starts the drone and the wind once; later calls change nothing. */
    method Start()
      modifies this
      ensures started
      ensures !old(started) ==> droneLevel == DroneStartLevel
      ensures old(started) ==> droneLevel == old(droneLevel)
      ensures footstepTimer == old(footstepTimer) && forestTimer == old(forestTimer) && growlTimer == old(growlTimer)
    {
      if started {
        return;
      }
      started := true;
      droneLevel := DroneStartLevel;
    }

    /**
     * One frame. `roll` is the frame's random draw for the creature wait.
     * Before `Start` nothing happens.
     */
    method Update(deltaTime: real, playerSpeed: real, nearestEnemyDist: real, wolfDist: real, roll: real)
      returns (cues: seq<Cue>)
      modifies this
      ensures started == old(started)
      ensures !started ==> (cues == [] &&
        footstepTimer == old(footstepTimer) && forestTimer == old(forestTimer) &&
        growlTimer == old(growlTimer) && droneLevel == old(droneLevel))
      ensures started ==> (
        cues == Cues(old(footstepTimer), old(forestTimer), old(growlTimer), deltaTime, playerSpeed,
                     nearestEnemyDist, wolfDist, roll) &&
        footstepTimer == FootstepTimer(old(footstepTimer), deltaTime, playerSpeed) &&
        forestTimer == ForestTimer(old(forestTimer), deltaTime, wolfDist, roll) &&
        growlTimer == AfterBark(AfterGrowl(old(growlTimer), deltaTime, nearestEnemyDist), deltaTime, wolfDist) &&
        droneLevel == DangerLevel(wolfDist, nearestEnemyDist))
    {
      cues := [];
      if !started {
        return;
      }
      var step := Footsteps(deltaTime, playerSpeed);
      var creature := ForestCreatures(deltaTime, wolfDist, roll);
      var growl := GuardGrowl(deltaTime, nearestEnemyDist);
      var bark := WolfBark(deltaTime, wolfDist);
      cues := step + creature + growl + bark;

      // drone intensity
      var dangerLevel := 0.1;
      if wolfDist < 20.0 {
        dangerLevel := 0.3;
      } else if nearestEnemyDist < 10.0 {
        dangerLevel := 0.2;
      }
      droneLevel := dangerLevel;
    }

    /** Footsteps: the step timer runs while walking, faster when running, and rests at 0.3 otherwise. */
    method Footsteps(deltaTime: real, playerSpeed: real) returns (cue: seq<Cue>)
      modifies this`footstepTimer
      ensures footstepTimer == FootstepTimer(old(footstepTimer), deltaTime, playerSpeed)
      ensures cue == if FootstepFires(old(footstepTimer), deltaTime, playerSpeed) then [Footstep] else []
    {
      cue := [];
      if playerSpeed > 0.5 {
        var stepInterval := if playerSpeed > 3.0 then 0.28 else 0.45;
        footstepTimer := footstepTimer + deltaTime;
        if footstepTimer > stepInterval {
          footstepTimer := 0.0;
          cue := [Footstep];
        }
      } else {
        footstepTimer := 0.3;
      }
    }

    /** Forest creatures, hushed during the chase. */
    method ForestCreatures(deltaTime: real, wolfDist: real, roll: real) returns (cue: seq<Cue>)
      modifies this`forestTimer
      ensures forestTimer == ForestTimer(old(forestTimer), deltaTime, wolfDist, roll)
      ensures cue == if CreatureFires(old(forestTimer), deltaTime, wolfDist, roll) then [Creature] else []
    {
      cue := [];
      if wolfDist > 30.0 {
        forestTimer := forestTimer + deltaTime;
        if forestTimer > 4.0 + roll * 8.0 {
          forestTimer := 0.0;
          cue := [Creature];
        }
      }
    }

    /** The guard growl on the shared timer, louder the closer the guard. */
    method GuardGrowl(deltaTime: real, nearestEnemyDist: real) returns (cue: seq<Cue>)
      modifies this`growlTimer
      ensures growlTimer == AfterGrowl(old(growlTimer), deltaTime, nearestEnemyDist)
      ensures cue == if GrowlFires(old(growlTimer), deltaTime, nearestEnemyDist)
                     then [Growl(GrowlVolume(nearestEnemyDist))] else []
    {
      cue := [];
      if nearestEnemyDist < 15.0 {
        growlTimer := growlTimer + deltaTime;
        var growlInterval := if nearestEnemyDist < 5.0 then 2.0 else 5.0;
        if growlTimer > growlInterval {
          growlTimer := 0.0;
          var intensity := 1.0 - nearestEnemyDist / 15.0;
          cue := [Growl(Min(0.15, intensity * 0.12))];
        }
      }
    }

    /** The wolf bark, on the timer the growl left. */
    method WolfBark(deltaTime: real, wolfDist: real) returns (cue: seq<Cue>)
      modifies this`growlTimer
      ensures growlTimer == AfterBark(old(growlTimer), deltaTime, wolfDist)
      ensures cue == if BarkFires(old(growlTimer), deltaTime, wolfDist) then [Bark] else []
    {
      cue := [];
      if wolfDist < 30.0 {
        growlTimer := growlTimer + deltaTime;
        var barkInterval := if wolfDist < 8.0 then 0.8 else 2.0;
        if growlTimer > barkInterval {
          growlTimer := 0.0;
          cue := [Bark];
        }
      }
    }
  }
}
