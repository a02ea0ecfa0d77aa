/**
 * Star collectibles: where a new star may be placed (`Star.__init__`) and how the stars captured
 * in one frame are removed and replaced (the `for star in self.stars[:]` loop of `Game.update`).
 */
module Stars {
  import opened Basics
  import opened Arena

  /** A star's centre is drawn at least this far from every arena edge. */
  const STAR_MARGIN: int := 50
  /** A new star must be strictly farther than this from the player. */
  const MIN_PLAYER_DISTANCE: int := 50
  /** Score gained per captured star. */
  const STAR_POINTS: int := 10

  /** A star; its drawn size (20) plays no part in the rules modelled here. */
  datatype Star = Star(x: int, y: int)

  /** The range of `random.randint(50, WIDTH-50)` and `random.randint(50, HEIGHT-50)`. */
  predicate InStarField(p: Point)
  {
    STAR_MARGIN <= p.x <= WIDTH - STAR_MARGIN && STAR_MARGIN <= p.y <= HEIGHT - STAR_MARGIN
  }

  function SquaredDistance(a: Point, b: Point): nat
  {
    (a.x - b.x) * (a.x - b.x) + (a.y - b.y) * (a.y - b.y)
  }

  /**
   * The acceptance test of the rejection loop: no player, or `math.hypot(dx, dy) > 50`.
   * On integers that is the same as dx*dx + dy*dy > 2500.
   */
  predicate Acceptable(p: Point, player: Option<Point>)
  {
    player.None? || SquaredDistance(p, player.value) > MIN_PLAYER_DISTANCE * MIN_PLAYER_DISTANCE
  }

  /** What every star built by `Star(player)` satisfies. */
  predicate Placed(s: Star, player: Option<Point>)
  {
    InStarField(Point(s.x, s.y)) && Acceptable(Point(s.x, s.y), player)
  }

  /** `n` stars placed around a player standing at `at`, as `reset_level` builds them. */
  predicate StarsPlaced(stars: seq<Star>, n: nat, at: Point)
  {
    |stars| == n && forall k :: 0 <= k < |stars| ==> Placed(stars[k], Some(at))
  }

  /**
   * `Star.__init__`: draw candidate points until one is acceptable. `draws` is the sequence of
   * points the random generator yields; the loop takes the first acceptable one.
   */
  method PlaceStar(player: Option<Point>, draws: seq<Point>) returns (s: Star, tries: nat)
    requires forall k :: 0 <= k < |draws| ==> InStarField(draws[k])
    requires exists k :: 0 <= k < |draws| && Acceptable(draws[k], player)
    ensures 1 <= tries <= |draws|
    ensures s == Star(draws[tries - 1].x, draws[tries - 1].y)
    ensures Placed(s, player)
    ensures forall k :: 0 <= k < tries - 1 ==> !Acceptable(draws[k], player)
  {
    var i := 0;
    while !Acceptable(draws[i], player)
      invariant 0 <= i < |draws|
      invariant forall k :: 0 <= k < i ==> !Acceptable(draws[k], player)
      invariant exists k :: i <= k < |draws| && Acceptable(draws[k], player)
      decreases |draws| - i
    {
      i := i + 1;
    }
    s := Star(draws[i].x, draws[i].y);
    tries := i + 1;
  }

  /**
   * Wherever the player is, some point of the star field is acceptable, so the rejection loop of
   * `Star.__init__` has something to find.
   */
  lemma PlacementPossible(player: Option<Point>)
    ensures exists p :: InStarField(p) && Acceptable(p, player)
  {
    if player.Some? && player.value.x <= WIDTH / 2 {
      assert InStarField(Point(WIDTH - STAR_MARGIN, STAR_MARGIN));
      assert Acceptable(Point(WIDTH - STAR_MARGIN, STAR_MARGIN), player);
    } else {
      assert InStarField(Point(STAR_MARGIN, STAR_MARGIN));
      assert Acceptable(Point(STAR_MARGIN, STAR_MARGIN), player);
    }
  }

  /** The stars of `stars` that were not captured (`hits` says which overlap the player). */
  function Kept(stars: seq<Star>, hits: seq<bool>): seq<Star>
    requires |hits| == |stars|
  {
    if |stars| == 0 then []
    else Kept(stars[..|stars| - 1], hits[..|stars| - 1])
         + (if hits[|stars| - 1] then [] else [stars[|stars| - 1]])
  }

  /** The replacement stars appended, one per capture, in capture order. */
  function Spawned(replacements: seq<Star>, hits: seq<bool>): seq<Star>
    requires |hits| == |replacements|
  {
    if |hits| == 0 then []
    else Spawned(replacements[..|hits| - 1], hits[..|hits| - 1])
         + (if hits[|hits| - 1] then [replacements[|hits| - 1]] else [])
  }

  /** The number of captures in a frame. */
  function Captures(hits: seq<bool>): nat
  {
    if |hits| == 0 then 0 else Captures(hits[..|hits| - 1]) + (if hits[|hits| - 1] then 1 else 0)
  }

  lemma {:induction false} KeptSpawnedSizes(stars: seq<Star>, replacements: seq<Star>, hits: seq<bool>)
    requires |hits| == |stars| == |replacements|
    ensures |Kept(stars, hits)| == |stars| - Captures(hits)
    ensures |Spawned(replacements, hits)| == Captures(hits)
  {
    if |stars| > 0 {
      var n := |stars| - 1;
      KeptSpawnedSizes(stars[..n], replacements[..n], hits[..n]);
    }
  }

  /** Extending the snapshot prefix by one star extends each of the three summaries by its part. */
  lemma PrefixStep(stars: seq<Star>, hits: seq<bool>, replacements: seq<Star>, i: nat)
    requires |hits| == |stars| == |replacements| && i < |stars|
    ensures Kept(stars[..i + 1], hits[..i + 1])
         == Kept(stars[..i], hits[..i]) + (if hits[i] then [] else [stars[i]])
    ensures Spawned(replacements[..i + 1], hits[..i + 1])
         == Spawned(replacements[..i], hits[..i]) + (if hits[i] then [replacements[i]] else [])
    ensures Captures(hits[..i + 1]) == Captures(hits[..i]) + (if hits[i] then 1 else 0)
  {
    assert stars[..i + 1][..i] == stars[..i] && hits[..i + 1][..i] == hits[..i];
    assert replacements[..i + 1][..i] == replacements[..i];
  }

  /** Removing the element just after `kept` from `kept + rest + spawned`. */
  lemma SplitAt<T>(kept: seq<T>, rest: seq<T>, spawned: seq<T>, live: seq<T>)
    requires live == kept + rest + spawned && |rest| > 0
    ensures live[|kept|] == rest[0]
    ensures live[..|kept|] + live[|kept| + 1..] == kept + rest[1..] + spawned
    ensures live == (kept + [rest[0]]) + rest[1..] + spawned
  {
    assert live[..|kept|] == kept;
    assert live[|kept| + 1..] == rest[1..] + spawned;
  }

  /** What the capture loop has done after looking at the first `i` stars of the snapshot. */
  ghost predicate CaptureProgress(stars: seq<Star>, hits: seq<bool>, replacements: seq<Star>, score: nat,
                                  i: nat, at: nat, live: seq<Star>, newScore: nat)
    requires |hits| == |stars| == |replacements| && i <= |stars|
  {
    && at == |Kept(stars[..i], hits[..i])|
    && live == Kept(stars[..i], hits[..i]) + stars[i..] + Spawned(replacements[..i], hits[..i])
    && newScore == score + STAR_POINTS * Captures(hits[..i])
  }

  /** One iteration of the capture loop keeps `CaptureProgress`. */
  lemma CaptureStep(stars: seq<Star>, hits: seq<bool>, replacements: seq<Star>, score: nat,
                    i: nat, at: nat, live: seq<Star>, newScore: nat)
    requires |hits| == |stars| == |replacements| && i < |stars|
    requires CaptureProgress(stars, hits, replacements, score, i, at, live, newScore)
    ensures at < |live| && live[at] == stars[i]
    ensures hits[i] ==> CaptureProgress(stars, hits, replacements, score, i + 1, at,
                                        live[..at] + live[at + 1..] + [replacements[i]], newScore + STAR_POINTS)
    ensures !hits[i] ==> CaptureProgress(stars, hits, replacements, score, i + 1, at + 1, live, newScore)
  {
    PrefixStep(stars, hits, replacements, i);
    var kept, spawned := Kept(stars[..i], hits[..i]), Spawned(replacements[..i], hits[..i]);
    assert stars[i..][1..] == stars[i + 1..];
    SplitAt(kept, stars[i..], spawned, live);
  }

  /**
   * The capture loop of `Game.update`, over a snapshot of the star list: each captured star is
   * removed from the live list (where it sits after earlier removals) and a replacement is
   * appended; each capture adds 10 to the score. `replacements[k]` is the star that would be
   * built if `stars[k]` is captured.
   */
  method CaptureStars(stars: seq<Star>, hits: seq<bool>, replacements: seq<Star>, score: nat)
    returns (live: seq<Star>, newScore: nat)
    requires |hits| == |stars| == |replacements|
    ensures live == Kept(stars, hits) + Spawned(replacements, hits)
    ensures |live| == |stars|
    ensures newScore == score + STAR_POINTS * Captures(hits)
  {
    live, newScore := stars, score;
    var i, at := 0, 0;
    while i < |stars|
      invariant 0 <= i <= |stars|
      invariant CaptureProgress(stars, hits, replacements, score, i, at, live, newScore)
    {
      CaptureStep(stars, hits, replacements, score, i, at, live, newScore);
      if hits[i] {
        live := live[..at] + live[at + 1..];
        newScore := newScore + STAR_POINTS;
        live := live + [replacements[i]];
      } else {
        at := at + 1;
      }
      i := i + 1;
    }
    assert stars[..i] == stars && hits[..i] == hits && replacements[..i] == replacements;
    KeptSpawnedSizes(stars, replacements, hits);
  }

  /** Every star alive after the capture loop was alive before it or is one of the replacements. */
  lemma CapturedStarsFrom(stars: seq<Star>, hits: seq<bool>, replacements: seq<Star>)
    requires |hits| == |stars| == |replacements|
    ensures forall s :: s in Kept(stars, hits) + Spawned(replacements, hits) ==> s in stars || s in replacements
  {
    KeptFrom(stars, hits);
    SpawnedFrom(replacements, hits);
  }

  lemma {:induction false} KeptFrom(stars: seq<Star>, hits: seq<bool>)
    requires |hits| == |stars|
    ensures forall k :: 0 <= k < |Kept(stars, hits)| ==> Kept(stars, hits)[k] in stars
  {
    if |stars| > 0 {
      var n := |stars| - 1;
      KeptFrom(stars[..n], hits[..n]);
      assert forall s :: s in stars[..n] ==> s in stars;
    }
  }

  lemma {:induction false} SpawnedFrom(replacements: seq<Star>, hits: seq<bool>)
    requires |hits| == |replacements|
    ensures forall k :: 0 <= k < |Spawned(replacements, hits)| ==> Spawned(replacements, hits)[k] in replacements
  {
    if |hits| > 0 {
      var n := |hits| - 1;
      SpawnedFrom(replacements[..n], hits[..n]);
      assert forall s :: s in replacements[..n] ==> s in replacements;
    }
  }

  /**
   * When every replacement that can be used is placed around the player, so is every star the
   * capture loop appends.
   */
  lemma {:induction false} SpawnedPlaced(replacements: seq<Star>, hits: seq<bool>, player: Option<Point>)
    requires |hits| == |replacements|
    requires forall k :: 0 <= k < |hits| && hits[k] ==> Placed(replacements[k], player)
    ensures forall k :: 0 <= k < |Spawned(replacements, hits)| ==> Placed(Spawned(replacements, hits)[k], player)
  {
    if |hits| > 0 {
      var n := |hits| - 1;
      SpawnedPlaced(replacements[..n], hits[..n], player);
    }
  }

  /** Every star of `stars` lies in the star field. */
  predicate AllInField(stars: seq<Star>)
  {
    forall k :: 0 <= k < |stars| ==> InStarField(Point(stars[k].x, stars[k].y))
  }

  /**
   * The capture loop keeps every star inside the star field, given that the stars before it and
   * the replacements it uses lie there.
   */
  lemma {:induction false} CaptureKeepsField(stars: seq<Star>, hits: seq<bool>, replacements: seq<Star>)
    requires |hits| == |stars| == |replacements|
    requires AllInField(stars)
    requires forall k :: 0 <= k < |hits| && hits[k] ==> InStarField(Point(replacements[k].x, replacements[k].y))
    ensures AllInField(Kept(stars, hits)) && AllInField(Spawned(replacements, hits))
    ensures AllInField(Kept(stars, hits) + Spawned(replacements, hits))
  {
    if |stars| > 0 {
      var n := |stars| - 1;
      assert AllInField(stars[..n]);
      CaptureKeepsField(stars[..n], hits[..n], replacements[..n]);
    }
    var kept, spawned := Kept(stars, hits), Spawned(replacements, hits);
    assert forall k :: 0 <= k < |spawned| ==> (kept + spawned)[|kept| + k] == spawned[k];
  }
}
