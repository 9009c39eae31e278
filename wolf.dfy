/**
 * The wolf (src/entities/Wolf.ts): hidden and passive until its chase is
 * started, then it runs towards the player at 5.8 every frame and kills on
 * contact. Leg, bob and eye animation are not modelled.
 */
module Wolves {
  import opened Geometry
  import opened Bodies
  import opened Sessions
  import opened Players

  const WolfChaseSpeed: real := 5.8
  /** The contact reach, squared: the kill happens below a distance of 1.5. */
  const BiteReachSq: real := 1.5 * 1.5

  /** The wolf is slower than the player's run, so the player can escape. */
  lemma SlowerThanThePlayer()
    ensures 0.0 < WolfChaseSpeed < MovementSpeed
  {
  }

  /** The wolf's and the player's x along a chase. */
  datatype Pursuit = Pursuit(wolfX: real, playerX: real)

  /**
   * The chase integrated frame by frame with the frame times `dts`: the wolf
   * moves at its chase velocity, the player runs right at full speed.
   */
  function Flee(p: Pursuit, dts: seq<real>): Pursuit
    decreases |dts|
  {
    if dts == [] then p
    else
      var prev := Flee(p, dts[..|dts| - 1]);
      var dt := dts[|dts| - 1];
      Pursuit(prev.wolfX + WolfChaseSpeed * (Sign(prev.playerX - prev.wolfX) as real) * dt,
              prev.playerX + MovementSpeed * dt)
  }

  /** The time a run of frames covers. */
  function Duration(dts: seq<real>): real
    decreases |dts|
  {
    if dts == [] then 0.0 else Duration(dts[..|dts| - 1]) + dts[|dts| - 1]
  }

  /**
   * A player ahead of the wolf who keeps running away at full speed gains
   * exactly the difference of the two speeds every second: the lead grows
   * by 0.7 per second and never shrinks.
   */
  lemma {:induction false} FleeingPlayerKeepsLead(p: Pursuit, dts: seq<real>)
    requires p.playerX > p.wolfX
    requires forall i :: 0 <= i < |dts| ==> dts[i] >= 0.0
    ensures Duration(dts) >= 0.0
    ensures Flee(p, dts).playerX - Flee(p, dts).wolfX ==
      p.playerX - p.wolfX + (MovementSpeed - WolfChaseSpeed) * Duration(dts)
    ensures Flee(p, dts).playerX - Flee(p, dts).wolfX >= p.playerX - p.wolfX
    ensures Duration(dts) > 0.0 ==> Flee(p, dts).playerX - Flee(p, dts).wolfX > p.playerX - p.wolfX
    decreases |dts|
  {
    if dts != [] {
      var init := dts[..|dts| - 1];
      assert forall i :: 0 <= i < |init| ==> init[i] == dts[i];
      FleeingPlayerKeepsLead(p, init);
      var prev := Flee(p, init);
      var dt := dts[|dts| - 1];
      assert Sign(prev.playerX - prev.wolfX) == 1;
      assert Flee(p, dts).playerX - Flee(p, dts).wolfX == prev.playerX - prev.wolfX + (MovementSpeed - WolfChaseSpeed) * dt;
    }
  }

  class Wolf {
    const body: Body
    var isChasing: bool
    /** Whether the mesh is shown. */
    var visible: bool

    constructor (position: Vec3)
      ensures fresh(body) && body.position == position && body.velocity == Zero
      ensures !isChasing && !visible && !body.collisionResponse
    {
      body := new Body(position);
      isChasing := false;
      visible := false;
      new;
      // collisions stay off until the chase begins
      body.collisionResponse := false;
    }

    /** Starts the chase; a second call changes nothing. */
    method StartChase()
      modifies this, body
      ensures isChasing
      ensures !old(isChasing) ==> visible && body.collisionResponse
      ensures old(isChasing) ==> visible == old(visible) && body.collisionResponse == old(body.collisionResponse)
      ensures body.position == old(body.position) && body.velocity == old(body.velocity)
      ensures body.angularVelocity == old(body.angularVelocity) && body.awake == old(body.awake)
    {
      if isChasing {
        return;
      }
      isChasing := true;
      visible := true;
      body.collisionResponse := true;
    }

    /** One frame: passive while not chasing; else run at the player and bite in reach. */
    method Update(player: Player)
      requires player.Valid() && body != player.body
      modifies body, player.body, player.onDeath
      ensures player.Valid()
      ensures body.position == old(body.position) && body.collisionResponse == old(body.collisionResponse)
      ensures body.angularVelocity == old(body.angularVelocity) && body.awake == old(body.awake)
      ensures body.velocity == (if isChasing
        then old(body.velocity).(x := WolfChaseSpeed * (Sign(old(player.body.position.x) - old(body.position.x)) as real))
        else old(body.velocity))
      ensures var bite := isChasing && DistSq(old(body.position), old(player.body.position)) < BiteReachSq;
        player.Snapshot() == (if bite then Sessions.Die(old(player.Snapshot()), old(player.HookOf()))
                              else old(player.Snapshot()))
      ensures player.onDeath != null ==>
        player.onDeath.deathCooldown == old(player.onDeath.deathCooldown) &&
        player.onDeath.introState == old(player.onDeath.introState) &&
        player.onDeath.introRecoveryTimer == old(player.onDeath.introRecoveryTimer)
      ensures player.body.collisionResponse == old(player.body.collisionResponse)
      ensures player.HookOf() == old(player.HookOf())
    {
      if !isChasing {
        return;
      }
      ghost var victim := player.Snapshot();
      ghost var hook := player.HookOf();

      // always run towards the player
      var dir := Sign(player.body.position.x - body.position.x);
      body.velocity := body.velocity.(x := WolfChaseSpeed * (dir as real));
      assert player.Snapshot() == victim && player.HookOf() == hook;

      // kill the player on contact
      var dist := DistSq(body.position, player.body.position);
      if dist < BiteReachSq {
        player.Die();
      }
    }
  }
}
