/**
 * The session state that src/main.ts keeps in module-level variables
 * (running flag, death cooldown, intro stage and timer) together with the
 * `onDeath` hook it installs on the player (src/main.ts:33-37, 69-75).
 * The death screen is recorded as a count of `showDeathScreen` calls.
 *
 * What a death does is also stated on values: `Die` takes the part of the
 * state a death can change (`Victim`) and the installed hook (`Hook`).
 */
module Sessions {
  import opened Geometry
  import opened Bodies
  import opened Checkpoints

  /** The player's body and the session flags a death can change. */
  datatype Victim = Victim(
    position: Vec3, velocity: Vec3, angularVelocity: Vec3, awake: bool,
    gameRunning: bool, deathScreens: nat)

  /**
   * The death handler in force: none (the player's own fallback), or the
   * session's hook with the cooldown and the spawn point it would use.
   */
  datatype Hook = NoHook | OnDeathHook(deathCooldown: real, spawn: Vec3)

  /** Where `die` puts the body when no hook is installed. */
  const FallbackSpawn: Vec3 := Vec3(0.0, 5.0, 0.0)

  /** One call of the player's `die`. */
  function Die(v: Victim, h: Hook): Victim {
    match h
    case NoHook => v.(position := FallbackSpawn, velocity := Zero)
    case OnDeathHook(cooldown, spawn) =>
      if cooldown > 0.0 then v
      else v.(position := spawn, velocity := Zero, angularVelocity := Zero, awake := true,
              gameRunning := false, deathScreens := v.deathScreens + 1)
  }

  /** `n` deaths in a row under the same hook. */
  function DieTimes(v: Victim, h: Hook, n: nat): Victim
    decreases n
  {
    if n == 0 then v else Die(DieTimes(v, h, n - 1), h)
  }

  /** Whether a death under `h` has any effect. */
  predicate Lethal(h: Hook) {
    h.NoHook? || h.deathCooldown <= 0.0
  }

  function SpawnOf(h: Hook): Vec3 {
    if h.NoHook? then FallbackSpawn else h.spawn
  }

  /** During the invulnerability window a death changes nothing. */
  lemma InvulnerableDeathIsNoOp(v: Victim, h: Hook)
    requires !Lethal(h)
    ensures Die(v, h) == v
  {
  }

  /** Otherwise the body stops at the spawn point; with the hook the game also stops. */
  lemma DeathStopsAtSpawn(v: Victim, h: Hook)
    requires Lethal(h)
    ensures Die(v, h).position == SpawnOf(h) && Die(v, h).velocity == Zero
    ensures h.OnDeathHook? ==>
      !Die(v, h).gameRunning && Die(v, h).deathScreens == v.deathScreens + 1 &&
      Die(v, h).angularVelocity == Zero
  {
  }

  /**
   * Several deaths in one frame leave the body where one death does; only
   * the count of death screens shown keeps growing.
   */
  lemma {:induction false} RepeatedDeaths(v: Victim, h: Hook, n: nat)
    requires n >= 1
    ensures DieTimes(v, h, n) ==
      Die(v, h).(deathScreens := v.deathScreens + (if h.OnDeathHook? && Lethal(h) then n else 0))
    decreases n
  {
    if n > 1 {
      RepeatedDeaths(v, h, n - 1);
    }
  }

  /**
   * A chain of updates each of which leaves the player alone or kills it
   * once under the same hook ends where some number of deaths in a row would.
   */
  lemma {:induction false} ChainOfDeaths(vs: seq<Victim>, h: Hook)
    requires |vs| > 0
    requires forall i :: 0 <= i < |vs| - 1 ==> vs[i + 1] == vs[i] || vs[i + 1] == Die(vs[i], h)
    ensures exists n: nat :: vs[|vs| - 1] == DieTimes(vs[0], h, n)
    decreases |vs|
  {
    if |vs| == 1 {
      assert vs[0] == DieTimes(vs[0], h, 0);
    } else {
      var init := vs[..|vs| - 1];
      assert forall i :: 0 <= i < |init| ==> init[i] == vs[i];
      ChainOfDeaths(init, h);
      var n: nat :| init[|init| - 1] == DieTimes(vs[0], h, n);
      if vs[|vs| - 1] == vs[|vs| - 2] {
        assert vs[|vs| - 1] == DieTimes(vs[0], h, n);
      } else {
        assert vs[|vs| - 1] == DieTimes(vs[0], h, n + 1);
      }
    }
  }

  class Session {
    var gameRunning: bool
    /** Invulnerability left after a replay, in seconds. */
    var deathCooldown: real
    /** 0 not started, 1 falling, 2 recovering, 3 playing. */
    var introState: int
    var introRecoveryTimer: real
    /** How many times the death screen has been shown. */
    var deathScreens: nat
    /** The checkpoint registry and the body the hook closes over. */
    const checkpoints: CheckpointSystem
    const body: Body

    function View(): Victim
      reads this, body
    {
      Victim(body.position, body.velocity, body.angularVelocity, body.awake, gameRunning, deathScreens)
    }

    function HookValue(): Hook
      reads this, checkpoints
    {
      OnDeathHook(deathCooldown, checkpoints.GetSpawnPosition())
    }

    constructor (checkpoints: CheckpointSystem, body: Body)
      ensures this.checkpoints == checkpoints && this.body == body
      ensures !gameRunning && deathCooldown == 0.0 && deathScreens == 0
      ensures introState == 0 && introRecoveryTimer == 0.0
    {
      this.checkpoints := checkpoints;
      this.body := body;
      gameRunning := false;
      deathCooldown := 0.0;
      introState := 0;
      introRecoveryTimer := 0.0;
      deathScreens := 0;
    }

    /** The `onDeath` hook: ignored while invulnerable, else respawn and stop the game. */
    method OnDeath()
      modifies this, body
      ensures View() == Die(old(View()), old(HookValue()))
      ensures deathCooldown == old(deathCooldown)
      ensures introState == old(introState) && introRecoveryTimer == old(introRecoveryTimer)
      ensures body.collisionResponse == old(body.collisionResponse)
    {
      if deathCooldown > 0.0 {
        return;
      }
      checkpoints.Respawn(body);
      body.velocity := Zero;
      deathScreens := deathScreens + 1;
      gameRunning := false;
    }
  }
}
