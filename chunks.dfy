/**
 * Chunk bookkeeping of the endless forest (`LevelManager` in
 * src/environment/LevelChunk.ts): the manager keeps the x positions of the
 * 20-wide chunks around the player, drops the ones more than two chunks
 * away and makes sure the chunk ahead exists.
 *
 * A chunk is known here by its x position; its meshes, trees and floor body
 * are random decoration and not modelled. Every position is a multiple of
 * 20, so positions are integers.
 */
module Chunks {
  const ChunkSize: int := 20

  function AbsInt(v: int): (r: nat)
    ensures r == v || r == -v
  {
    if v < 0 then -v else v
  }

  /** The x of the chunk whose span [x - 10, x + 10) holds the player. */
  function TargetChunkX(playerX: real): int {
    ((playerX + (ChunkSize as real) / 2.0) / (ChunkSize as real)).Floor * ChunkSize
  }

  /** The player is always inside the span of the target chunk. */
  lemma TargetChunkBrackets(playerX: real)
    ensures var t := TargetChunkX(playerX) as real;
      t - 10.0 <= playerX < t + 10.0
    ensures TargetChunkX(playerX) % ChunkSize == 0
  {
    var k := ((playerX + 10.0) / 20.0).Floor;
    assert (k as real) <= (playerX + 10.0) / 20.0 < (k as real) + 1.0;
  }

  /** A chunk survives the cleanup when it lies at most two chunks from `t`. */
  predicate Near(c: int, t: int) {
    AbsInt(c - t) <= ChunkSize * 2
  }

  /** What the backward splice loop leaves of `s`. */
  function KeepNear(s: seq<int>, t: int): seq<int>
    decreases |s|
  {
    if s == [] then []
    else (if Near(s[0], t) then [s[0]] else []) + KeepNear(s[1..], t)
  }

  /** Exactly the far chunks are dropped. */
  lemma {:induction false} KeepNearMembers(s: seq<int>, t: int, c: int)
    ensures c in KeepNear(s, t) <==> c in s && Near(c, t)
    decreases |s|
  {
    if s != [] {
      KeepNearMembers(s[1..], t, c);
      assert s == [s[0]] + s[1..];
    }
  }

  /** The cleanup keeps the relative order: it distributes over concatenation. */
  lemma {:induction false} KeepNearKeepsOrder(a: seq<int>, b: seq<int>, t: int)
    ensures KeepNear(a + b, t) == KeepNear(a, t) + KeepNear(b, t)
    decreases |a|
  {
    if a != [] {
      assert (a + b)[1..] == a[1..] + b;
      KeepNearKeepsOrder(a[1..], b, t);
    } else {
      assert a + b == b;
    }
  }

  /** A list of chunks all near `t` is left as it is. */
  lemma {:induction false} KeepNearIdempotent(s: seq<int>, t: int)
    requires forall i :: 0 <= i < |s| ==> Near(s[i], t)
    ensures KeepNear(s, t) == s
    decreases |s|
  {
    if s != [] {
      KeepNearIdempotent(s[1..], t);
    }
  }

  lemma {:induction false} KeepNearLength(s: seq<int>, t: int)
    ensures |KeepNear(s, t)| <= |s|
    ensures multiset(KeepNear(s, t)) <= multiset(s)
    decreases |s|
  {
    if s != [] {
      KeepNearLength(s[1..], t);
      assert s == [s[0]] + s[1..];
    }
  }

  ghost predicate Distinct(s: seq<int>) {
    forall i, j :: 0 <= i < j < |s| ==> s[i] != s[j]
  }

  lemma {:induction false} KeepNearDistinct(s: seq<int>, t: int)
    requires Distinct(s)
    ensures Distinct(KeepNear(s, t))
    decreases |s|
  {
    if s != [] {
      assert Distinct(s[1..]) by {
        forall i, j | 0 <= i < j < |s[1..]| ensures s[1..][i] != s[1..][j] {
          assert s[1..][i] == s[i + 1] && s[1..][j] == s[j + 1];
        }
      }
      KeepNearDistinct(s[1..], t);
      KeepNearMembers(s[1..], t, s[0]);
      assert s[0] !in s[1..] by {
        forall j | 0 <= j < |s[1..]| ensures s[1..][j] != s[0] {
          assert s[1..][j] == s[j + 1];
        }
      }
    }
  }

  /** The chunk list after a frame whose target chunk is new. */
  function Shift(s: seq<int>, t: int): seq<int> {
    var kept := KeepNear(s, t);
    if t + ChunkSize in kept then kept else kept + [t + ChunkSize]
  }

  /**
   * After a shift the chunk ahead exists, every chunk lies within two chunks
   * of the target, a chunk is added only when the one ahead was missing,
   * and chunk positions stay distinct.
   */
  lemma ShiftRule(s: seq<int>, t: int)
    requires Distinct(s)
    ensures var r := Shift(s, t);
      t + ChunkSize in r &&
      (forall c :: c in r ==> Near(c, t)) &&
      (forall c :: c in r <==> (c in s && Near(c, t)) || c == t + ChunkSize) &&
      |r| <= |KeepNear(s, t)| + 1 &&
      (t + ChunkSize in s ==> r == KeepNear(s, t)) &&
      Distinct(r)
  {
    var kept := KeepNear(s, t);
    forall c ensures c in kept <==> c in s && Near(c, t) {
      KeepNearMembers(s, t, c);
    }
    KeepNearDistinct(s, t);
    assert Near(t + ChunkSize, t);
  }

  /** Positions are multiples of the chunk size. */
  ghost predicate OnGrid(s: seq<int>) {
    forall i :: 0 <= i < |s| ==> s[i] % ChunkSize == 0
  }

  class LevelManager {
    var chunks: seq<int>
    var currentChunkX: int

    /** Distinct chunks on the grid, none more than two chunks from the current one. */
    ghost predicate Valid()
      reads this
    {
      Distinct(chunks) && OnGrid(chunks) && currentChunkX % ChunkSize == 0 &&
      forall i :: 0 <= i < |chunks| ==> Near(chunks[i], currentChunkX)
    }

    /** The three initial chunks, around x = 0. */
    constructor ()
      ensures Valid()
      ensures chunks == [0, 20, -20] && currentChunkX == 0
    {
      chunks := [0, 20, -20];
      currentChunkX := 0;
    }

    /** Follows the player: on entering a new chunk, drop the far ones and add the one ahead. */
    method Update(playerX: real)
      requires Valid()
      modifies this
      ensures Valid()
      ensures var t := TargetChunkX(playerX);
        if t == old(currentChunkX) then chunks == old(chunks) && currentChunkX == old(currentChunkX)
        else currentChunkX == t && chunks == Shift(old(chunks), t)
    {
      var targetChunkX := TargetChunkX(playerX);
      TargetChunkBrackets(playerX);

      if targetChunkX != currentChunkX {
        currentChunkX := targetChunkX;
        DropFarChunks(targetChunkX);

        // make sure there is a chunk ahead
        var forwardX := targetChunkX + ChunkSize;
        if forwardX !in chunks {
          chunks := chunks + [forwardX];
        }

        ShiftRule(old(chunks), targetChunkX);
        GridKept(old(chunks), targetChunkX);
      }
    }

    /** The cleanup loop, from the back, splicing out every chunk more than two chunks from `t`. */
    method DropFarChunks(t: int)
      modifies this`chunks
      ensures chunks == KeepNear(old(chunks), t)
    {
      ghost var s := chunks;
      var i := |chunks| - 1;
      while i >= 0
        invariant -1 <= i < |s|
        invariant chunks == s[..i + 1] + KeepNear(s[i + 1..], t)
      {
        ghost var rest := KeepNear(s[i + 1..], t);
        KeepNearStep(s, i, t);
        assert chunks[..i] == s[..i] && chunks[i] == s[i] && chunks[i + 1..] == rest;
        if AbsInt(chunks[i] - t) > ChunkSize * 2 {
          chunks := chunks[..i] + chunks[i + 1..];
        } else {
          assert chunks == s[..i] + ([s[i]] + rest);
        }
        i := i - 1;
      }
      assert s[0..] == s;
    }
  }

  /** One step of the backward loop: the filter of a suffix, by its head. */
  lemma KeepNearStep(s: seq<int>, i: int, t: int)
    requires 0 <= i < |s|
    ensures KeepNear(s[i..], t) == (if Near(s[i], t) then [s[i]] else []) + KeepNear(s[i + 1..], t)
  {
    assert s[i..][1..] == s[i + 1..];
  }

  lemma GridKept(s: seq<int>, t: int)
    requires OnGrid(s) && t % ChunkSize == 0
    ensures OnGrid(Shift(s, t))
  {
    var r := Shift(s, t);
    forall i | 0 <= i < |r| ensures r[i] % ChunkSize == 0 {
      KeepNearMembers(s, t, r[i]);
    }
  }
}
