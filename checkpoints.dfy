/**
 * The checkpoint registry: an append-only list of checkpoints numbered in
 * registration order, the furthest checkpoint the player has reached, and
 * the respawn teleport (src/systems/CheckpointSystem.ts).
 */
module Checkpoints {
  import opened Wrappers
  import opened Geometry
  import opened Bodies

  datatype Checkpoint = Checkpoint(position: Vec3, id: int)

  /** A checkpoint counts as reached below this distance in the x/y plane. */
  const ReachRadius: real := 3.0

  /** Where the player respawns before any checkpoint has been reached. */
  const DefaultSpawn: Vec3 := Vec3(0.0, 5.0, 0.0)

  /** Every checkpoint's id is its position in the list. */
  ghost predicate WellNumbered(cps: seq<Checkpoint>) {
    forall i :: 0 <= i < |cps| ==> cps[i].id == i
  }

  /** The range test of `checkPlayer`: x and y only, strictly below 3. */
  predicate InReach(cp: Checkpoint, px: real, py: real) {
    var dx := px - cp.position.x;
    var dy := py - cp.position.y;
    dx * dx + dy * dy < ReachRadius * ReachRadius
  }

  /**
   * The value `lastReachedId` holds after the loop of `checkPlayer` has
   * visited `cps` in order, starting from `last`, with the player at (px, py).
   */
  function Scan(cps: seq<Checkpoint>, last: int, px: real, py: real): int
    decreases |cps|
  {
    if cps == [] then last
    else Visit(Scan(cps[..|cps| - 1], last, px, py), cps[|cps| - 1], px, py)
  }

  /** One iteration of that loop: skip ids already passed, else take it if in reach. */
  function Visit(cur: int, cp: Checkpoint, px: real, py: real): int {
    if cp.id <= cur then cur
    else if InReach(cp, px, py) then cp.id
    else cur
  }

  lemma ScanPrefix(cps: seq<Checkpoint>, i: nat, last: int, px: real, py: real)
    requires i < |cps|
    ensures Scan(cps[..i + 1], last, px, py) == Visit(Scan(cps[..i], last, px, py), cps[i], px, py)
  {
    assert cps[..i + 1][..i] == cps[..i];
  }

  /** The scan never moves the furthest-reached index backwards. */
  lemma {:induction false} ScanNeverDecreases(cps: seq<Checkpoint>, last: int, px: real, py: real)
    ensures Scan(cps, last, px, py) >= last
    decreases |cps|
  {
    if cps != [] {
      ScanNeverDecreases(cps[..|cps| - 1], last, px, py);
    }
  }

  /**
   * On a well-numbered registry the scan yields the largest id above `last`
   * whose checkpoint is in reach, or `last` itself when there is none.
   */
  lemma {:induction false} ScanIsFurthest(cps: seq<Checkpoint>, last: int, px: real, py: real)
    requires WellNumbered(cps)
    ensures Scan(cps, last, px, py) >= last
    ensures Scan(cps, last, px, py) > last ==>
      0 <= Scan(cps, last, px, py) < |cps| && InReach(cps[Scan(cps, last, px, py)], px, py)
    ensures forall k :: 0 <= k < |cps| && k > Scan(cps, last, px, py) ==> !InReach(cps[k], px, py)
    decreases |cps|
  {
    if cps != [] {
      var n := |cps| - 1;
      var init := cps[..n];
      assert WellNumbered(init) by {
        forall i | 0 <= i < |init| ensures init[i].id == i {
          assert init[i] == cps[i];
        }
      }
      ScanIsFurthest(init, last, px, py);
      var cur := Scan(init, last, px, py);
      var r := Scan(cps, last, px, py);
      assert r == Visit(cur, cps[n], px, py);
      assert cps[n].id == n;
      forall k | 0 <= k < |cps| && k > r
        ensures !InReach(cps[k], px, py)
      {
        if k < n {
          assert cps[k] == init[k];
        }
      }
      if r > last && r != cur {
        assert r == n;
      }
      if r > last && r == cur {
        assert init[r] == cps[r];
      }
    }
  }

  /** A second scan from the result of the first changes nothing. */
  lemma ScanIdempotent(cps: seq<Checkpoint>, last: int, px: real, py: real)
    requires WellNumbered(cps)
    ensures Scan(cps, Scan(cps, last, px, py), px, py) == Scan(cps, last, px, py)
  {
    var r := Scan(cps, last, px, py);
    ScanIsFurthest(cps, last, px, py);
    ScanIsFurthest(cps, r, px, py);
  }

  /** `Array.prototype.find` by id: the first checkpoint carrying `id`, if any. */
  function FindById(cps: seq<Checkpoint>, id: int): (r: Option<Checkpoint>)
    ensures r.Some? ==> r.value.id == id && r.value in cps
    ensures r.None? ==> forall i :: 0 <= i < |cps| ==> cps[i].id != id
    decreases |cps|
  {
    if cps == [] then None
    else if cps[0].id == id then Some(cps[0])
    else
      var r := FindById(cps[1..], id);
      assert forall i :: 1 <= i < |cps| ==> cps[i] == cps[1..][i - 1];
      r
  }

  class CheckpointSystem {
    var checkpoints: seq<Checkpoint>
    var lastReachedId: int

    ghost predicate Valid()
      reads this
    {
      WellNumbered(checkpoints) && -1 <= lastReachedId < |checkpoints|
    }

    constructor ()
      ensures Valid()
      ensures checkpoints == [] && lastReachedId == -1
    {
      checkpoints := [];
      lastReachedId := -1;
    }

    /** Appends a checkpoint whose id is the number registered before it. */
    method Register(position: Vec3) returns (cp: Checkpoint)
      requires Valid()
      modifies this
      ensures Valid()
      ensures cp == Checkpoint(position, |old(checkpoints)|)
      ensures checkpoints == old(checkpoints) + [cp]
      ensures lastReachedId == old(lastReachedId)
    {
      cp := Checkpoint(position, |checkpoints|);
      checkpoints := checkpoints + [cp];
    }

    /** Advances `lastReachedId` over the checkpoints the player is near. */
    method CheckPlayer(playerBody: Body)
      requires Valid()
      modifies this
      ensures Valid()
      ensures checkpoints == old(checkpoints)
      ensures lastReachedId ==
        Scan(checkpoints, old(lastReachedId), playerBody.position.x, playerBody.position.y)
    {
      var px := playerBody.position.x;
      var py := playerBody.position.y;
      var i := 0;
      while i < |checkpoints|
        invariant 0 <= i <= |checkpoints|
        invariant checkpoints == old(checkpoints)
        invariant lastReachedId == Scan(checkpoints[..i], old(lastReachedId), px, py)
      {
        var cp := checkpoints[i];
        ScanPrefix(checkpoints, i, old(lastReachedId), px, py);
        // checkpoints already passed are skipped
        if cp.id > lastReachedId && InReach(cp, px, py) {
          lastReachedId := cp.id;
        }
        i := i + 1;
      }
      assert checkpoints[..i] == checkpoints;
      ScanIsFurthest(checkpoints, old(lastReachedId), px, py);
    }

    /** The position of the furthest checkpoint reached, or the default spawn. */
    function GetSpawnPosition(): (p: Vec3)
      reads this
      ensures Valid() && lastReachedId >= 0 ==> p == checkpoints[lastReachedId].position
      ensures Valid() && lastReachedId == -1 ==> p == DefaultSpawn
    {
      var found := FindById(checkpoints, lastReachedId);
      if found.Some? then found.value.position else DefaultSpawn
    }

    /** Teleports the body to the spawn position and stops it. */
    method Respawn(playerBody: Body)
      modifies playerBody
      ensures playerBody.position == GetSpawnPosition()
      ensures playerBody.velocity == Zero && playerBody.angularVelocity == Zero
      ensures playerBody.awake
      ensures playerBody.collisionResponse == old(playerBody.collisionResponse)
    {
      playerBody.position := GetSpawnPosition();
      playerBody.velocity := Zero;
      playerBody.angularVelocity := Zero;
      playerBody.awake := true;
    }
  }
}
