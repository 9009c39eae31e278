/**
 * Kill zones (src/environment/HazardZone.ts): an axis-aligned rectangle in
 * the x/y plane, open on every side, and the death floor below the map.
 * The zone's kind only selects its visuals. A test that holds makes the
 * caller run the player's `die`; what that does is `Sessions.Die`.
 */
module Hazards {
  import opened Geometry
  import opened Sessions

  datatype HazardType = Spike | Fall | Kill

  /** Centre, width and height of the trigger area; fixed once built. */
  datatype Area = Area(x: real, y: real, w: real, h: real)

  datatype HazardZone = HazardZone(kind: HazardType, area: Area)

  /** Whether `check` kills a player standing at (px, py). */
  predicate Kills(z: HazardZone, px: real, py: real) {
    var a := z.area;
    px > a.x - a.w / 2.0 && px < a.x + a.w / 2.0 &&
    py > a.y - a.h / 2.0 && py < a.y + a.h / 2.0
  }

  /** The default depth of the death floor. */
  const OutOfBoundsY: real := -15.0

  /** Whether `createOutOfBoundsKill` kills at height `y`. */
  predicate OutOfBounds(y: real, threshold: real) {
    y < threshold
  }

  /** The test is "strictly closer to the centre than half the size", on both axes. */
  lemma KillsIsCentredTest(z: HazardZone, px: real, py: real)
    ensures Kills(z, px, py) <==> Abs(px - z.area.x) < z.area.w / 2.0 && Abs(py - z.area.y) < z.area.h / 2.0
  {
  }

  /** The edges of a zone are safe. */
  lemma EdgesAreSafe(z: HazardZone, px: real, py: real)
    requires px == z.area.x - z.area.w / 2.0 || px == z.area.x + z.area.w / 2.0 ||
             py == z.area.y - z.area.h / 2.0 || py == z.area.y + z.area.h / 2.0
    ensures !Kills(z, px, py)
  {
  }

  /** The kind plays no part in the test. */
  lemma KindIsIrrelevant(a: Area, k1: HazardType, k2: HazardType, px: real, py: real)
    ensures Kills(HazardZone(k1, a), px, py) == Kills(HazardZone(k2, a), px, py)
  {
  }

  /** A zone with no width or no height never kills. */
  lemma EmptyZoneIsHarmless(z: HazardZone, px: real, py: real)
    requires z.area.w <= 0.0 || z.area.h <= 0.0
    ensures !Kills(z, px, py)
  {
  }

  /** The death floor is strict: standing exactly on the threshold is safe. */
  lemma FloorIsStrict(y: real)
    ensures !OutOfBounds(OutOfBoundsY, OutOfBoundsY)
    ensures OutOfBounds(y, OutOfBoundsY) <==> y < -15.0
  {
  }

  /**
   * The hazard pass of the level update on values: each zone in order tests
   * the player where the deaths before it have left the body.
   */
  function HazardPass(zones: seq<HazardZone>, v: Victim, h: Hook): Victim
    decreases |zones|
  {
    if zones == [] then v
    else
      var prev := HazardPass(zones[..|zones| - 1], v, h);
      var z := zones[|zones| - 1];
      if Kills(z, prev.position.x, prev.position.y) then Die(prev, h) else prev
  }

  ghost predicate Clear(zones: seq<HazardZone>, px: real, py: real) {
    forall i :: 0 <= i < |zones| ==> !Kills(zones[i], px, py)
  }

  /** A player outside every zone is left alone. */
  lemma {:induction false} ClearPassIsNoOp(zones: seq<HazardZone>, v: Victim, h: Hook)
    requires Clear(zones, v.position.x, v.position.y)
    ensures HazardPass(zones, v, h) == v
    decreases |zones|
  {
    if zones != [] {
      var init := zones[..|zones| - 1];
      assert Clear(init, v.position.x, v.position.y) by {
        forall i | 0 <= i < |init| ensures !Kills(init[i], v.position.x, v.position.y) {
          assert init[i] == zones[i];
        }
      }
      ClearPassIsNoOp(init, v, h);
    }
  }

  /**
   * There is no cooldown in the zones: while the session's invulnerability
   * lasts nothing happens, and otherwise a death is dealt on every frame the
   * player is found inside.
   */
  lemma InsideKillsEveryTime(z: HazardZone, v: Victim, h: Hook)
    requires Lethal(h) && Kills(z, v.position.x, v.position.y)
    ensures HazardPass([z], v, h) == Die(v, h)
    ensures HazardPass([z], v, h).position == SpawnOf(h)
  {
    assert [z][..0] == [];
  }

  /** A pass under an invulnerable hook changes nothing, however many zones the player is in. */
  lemma {:induction false} InvulnerablePassIsNoOp(zones: seq<HazardZone>, v: Victim, h: Hook)
    requires !Lethal(h)
    ensures HazardPass(zones, v, h) == v
    decreases |zones|
  {
    if zones != [] {
      InvulnerablePassIsNoOp(zones[..|zones| - 1], v, h);
    }
  }
}
