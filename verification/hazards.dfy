/**
 * Obstacles (rocks and black holes) as far as the game's rules see them: their kind, their size
 * and the one-shot `already_hit` flag that lets each obstacle count at most one crash.
 */
module Hazards {
  import opened Basics
  import opened Arena

  datatype Kind = Rock | Blackhole

  /** An obstacle; its floating-point position, velocity and spin are not part of this model. */
  datatype Obstacle = Obstacle(kind: Kind, size: int, alreadyHit: bool)

  /** `Obstacle.__init__`: size from `randint(30, 50)` for a rock, `randint(40, 60)` otherwise; not yet hit. */
  predicate NewObstacle(o: Obstacle)
  {
    && !o.alreadyHit
    && (if o.kind == Rock then 30 <= o.size <= 50 else 40 <= o.size <= 60)
  }

  /** The obstacle list `reset_level` builds: `rocks` rocks followed by `blackholes` black holes. */
  predicate LevelHazards(hazards: seq<Obstacle>, rocks: nat, blackholes: nat)
  {
    && |hazards| == rocks + blackholes
    && (forall k :: 0 <= k < |hazards| ==> NewObstacle(hazards[k]))
    && (forall k :: 0 <= k < |hazards| ==> (hazards[k].kind == Rock <==> k < rocks))
  }

  /** The obstacles after one frame: an obstacle that overlaps the player is flagged as hit. */
  function MarkHits(obstacles: seq<Obstacle>, overlaps: seq<bool>): (marked: seq<Obstacle>)
    requires |overlaps| == |obstacles|
    ensures |marked| == |obstacles|
    ensures forall k :: 0 <= k < |marked| ==>
      marked[k].kind == obstacles[k].kind && marked[k].size == obstacles[k].size
      && (marked[k].alreadyHit <==> obstacles[k].alreadyHit || overlaps[k])
  {
    seq(|obstacles|, k requires 0 <= k < |obstacles| =>
      obstacles[k].(alreadyHit := obstacles[k].alreadyHit || overlaps[k]))
  }

  /** How many obstacles overlap the player for the first time: the crashes a frame adds. */
  function NewHits(obstacles: seq<Obstacle>, overlaps: seq<bool>): nat
    requires |overlaps| == |obstacles|
  {
    if |obstacles| == 0 then 0
    else NewHits(obstacles[..|obstacles| - 1], overlaps[..|obstacles| - 1])
         + (if overlaps[|obstacles| - 1] && !obstacles[|obstacles| - 1].alreadyHit then 1 else 0)
  }

  /** How many obstacles carry the `already_hit` flag. */
  function HitCount(obstacles: seq<Obstacle>): nat
  {
    if |obstacles| == 0 then 0
    else HitCount(obstacles[..|obstacles| - 1]) + (if obstacles[|obstacles| - 1].alreadyHit then 1 else 0)
  }

  lemma {:induction false} HitCountBound(obstacles: seq<Obstacle>)
    ensures HitCount(obstacles) <= |obstacles|
    ensures (forall k :: 0 <= k < |obstacles| ==> !obstacles[k].alreadyHit) ==> HitCount(obstacles) == 0
  {
    if |obstacles| > 0 {
      HitCountBound(obstacles[..|obstacles| - 1]);
    }
  }

  /**
   * The crashes of a frame are exactly the obstacles whose flag it sets: a flag set once is never
   * cleared, so an obstacle counts at most one crash in its lifetime.
   */
  lemma {:induction false} HitAccounting(obstacles: seq<Obstacle>, overlaps: seq<bool>)
    requires |overlaps| == |obstacles|
    ensures HitCount(MarkHits(obstacles, overlaps)) == HitCount(obstacles) + NewHits(obstacles, overlaps)
  {
    if |obstacles| > 0 {
      var n := |obstacles| - 1;
      HitAccounting(obstacles[..n], overlaps[..n]);
      assert MarkHits(obstacles, overlaps)[..n] == MarkHits(obstacles[..n], overlaps[..n]);
    }
  }

  /** The state of the crash loop after the first `i` obstacles. */
  ghost predicate CrashProgress(obstacles: seq<Obstacle>, overlaps: seq<bool>, crashes: nat, gameOver: bool,
                                i: nat, current: seq<Obstacle>, count: nat, over: bool)
    requires |overlaps| == |obstacles| && i <= |obstacles|
  {
    && current == MarkHits(obstacles[..i], overlaps[..i]) + obstacles[i..]
    && count == crashes + NewHits(obstacles[..i], overlaps[..i])
    && over == (gameOver || (count > crashes && count >= MAX_CRASHES))
  }

  /** One iteration of the crash loop keeps `CrashProgress`. */
  lemma CrashStep(obstacles: seq<Obstacle>, overlaps: seq<bool>, crashes: nat, gameOver: bool,
                  i: nat, current: seq<Obstacle>, count: nat, over: bool)
    requires |overlaps| == |obstacles| && i < |obstacles|
    requires CrashProgress(obstacles, overlaps, crashes, gameOver, i, current, count, over)
    ensures i < |current| && current[i] == obstacles[i]
    ensures overlaps[i] && !obstacles[i].alreadyHit ==>
      CrashProgress(obstacles, overlaps, crashes, gameOver, i + 1,
                    current[i := current[i].(alreadyHit := true)], count + 1, over || count + 1 >= MAX_CRASHES)
    ensures !(overlaps[i] && !obstacles[i].alreadyHit) ==>
      CrashProgress(obstacles, overlaps, crashes, gameOver, i + 1, current, count, over)
  {
    assert obstacles[..i + 1][..i] == obstacles[..i] && overlaps[..i + 1][..i] == overlaps[..i];
    var done := MarkHits(obstacles[..i], overlaps[..i]);
    assert MarkHits(obstacles[..i + 1], overlaps[..i + 1]) == done + [MarkHits(obstacles, overlaps)[i]];
    assert current == done + [obstacles[i]] + obstacles[i + 1..];
  }

  /**
   * The obstacle loop of `Game.update` (collision part): an obstacle that overlaps the player and
   * is not yet hit adds one crash and is flagged; as soon as the count reaches 5 the game is over.
   * `overlaps[k]` is the result of `colliderect` for obstacle `k` in this frame.
   */
  method ResolveCrashes(obstacles: seq<Obstacle>, overlaps: seq<bool>, crashes: nat, gameOver: bool)
    returns (after: seq<Obstacle>, newCrashes: nat, newGameOver: bool)
    requires |overlaps| == |obstacles|
    ensures after == MarkHits(obstacles, overlaps)
    ensures newCrashes == crashes + NewHits(obstacles, overlaps)
    ensures newGameOver == (gameOver || (newCrashes > crashes && newCrashes >= MAX_CRASHES))
  {
    after, newCrashes, newGameOver := obstacles, crashes, gameOver;
    var i := 0;
    while i < |obstacles|
      invariant 0 <= i <= |obstacles|
      invariant CrashProgress(obstacles, overlaps, crashes, gameOver, i, after, newCrashes, newGameOver)
    {
      CrashStep(obstacles, overlaps, crashes, gameOver, i, after, newCrashes, newGameOver);
      if overlaps[i] && !after[i].alreadyHit {
        newCrashes := newCrashes + 1;
        after := after[i := after[i].(alreadyHit := true)];
        if newCrashes >= MAX_CRASHES {
          newGameOver := true;
        }
      }
      i := i + 1;
    }
    assert obstacles[..i] == obstacles && overlaps[..i] == overlaps;
  }

  /** One frame of hazards as `Game.update` sees them: an optional random spawn, then the overlaps. */
  datatype HazardFrame = HazardFrame(spawn: Option<Obstacle>, overlaps: seq<bool>)

  function WithSpawn(obstacles: seq<Obstacle>, spawn: Option<Obstacle>): seq<Obstacle>
  {
    if spawn.Some? then obstacles + [spawn.value] else obstacles
  }

  /** The overlap vectors of `frames` fit the obstacle list as it grows. */
  ghost predicate FramesFit(obstacles: seq<Obstacle>, frames: seq<HazardFrame>)
    decreases |frames|
  {
    frames == [] ||
    (var present := WithSpawn(obstacles, frames[0].spawn);
     && |frames[0].overlaps| == |present|
     && FramesFit(MarkHits(present, frames[0].overlaps), frames[1..]))
  }

  /** The obstacle list after a run of frames. */
  ghost function AfterFrames(obstacles: seq<Obstacle>, frames: seq<HazardFrame>): seq<Obstacle>
    requires FramesFit(obstacles, frames)
    decreases |frames|
  {
    if frames == [] then obstacles
    else
      var present := WithSpawn(obstacles, frames[0].spawn);
      AfterFrames(MarkHits(present, frames[0].overlaps), frames[1..])
  }

  /** The crashes obstacles add over a run of frames. */
  ghost function CrashesOver(obstacles: seq<Obstacle>, frames: seq<HazardFrame>): nat
    requires FramesFit(obstacles, frames)
    decreases |frames|
  {
    if frames == [] then 0
    else
      var present := WithSpawn(obstacles, frames[0].spawn);
      NewHits(present, frames[0].overlaps) + CrashesOver(MarkHits(present, frames[0].overlaps), frames[1..])
  }

  lemma SpawnKeepsHitCount(obstacles: seq<Obstacle>, spawn: Option<Obstacle>)
    requires spawn.Some? ==> NewObstacle(spawn.value)
    ensures HitCount(WithSpawn(obstacles, spawn)) == HitCount(obstacles)
  {
    if spawn.Some? {
      assert WithSpawn(obstacles, spawn)[..|obstacles|] == obstacles;
    }
  }

  /**
   * Over any run of frames, with new obstacles spawned unhit, the crashes obstacles cause equal
   * the number of flags they set, and so never exceed the number of obstacles that were unhit at
   * some point: no obstacle causes two crashes.
   */
  lemma {:induction false} CrashesOverLifetime(obstacles: seq<Obstacle>, frames: seq<HazardFrame>)
    requires FramesFit(obstacles, frames)
    requires forall k :: 0 <= k < |frames| && frames[k].spawn.Some? ==> NewObstacle(frames[k].spawn.value)
    ensures HitCount(AfterFrames(obstacles, frames)) == HitCount(obstacles) + CrashesOver(obstacles, frames)
    ensures CrashesOver(obstacles, frames) <= |AfterFrames(obstacles, frames)| - HitCount(obstacles)
    decreases |frames|
  {
    if frames == [] {
      HitCountBound(obstacles);
    } else {
      var present := WithSpawn(obstacles, frames[0].spawn);
      SpawnKeepsHitCount(obstacles, frames[0].spawn);
      HitAccounting(present, frames[0].overlaps);
      CrashesOverLifetime(MarkHits(present, frames[0].overlaps), frames[1..]);
    }
  }
}
