/** What the game's session state machines share: input events, buttons, levels and random draws. */
module Session {
  import opened Basics
  import opened Arena
  import opened Stars
  import opened Hazards

  /** A `pygame.Rect`: left, top, width, height. */
  datatype Rect = Rect(left: int, top: int, width: int, height: int)

  /** `Rect.collidepoint`: the left and top edges are inside, the right and bottom edges are not. */
  predicate Collides(r: Rect, p: Point)
  {
    r.left <= p.x < r.left + r.width && r.top <= p.y < r.top + r.height
  }

  /** The keys the handlers tell apart; every other key is `OtherKey`. */
  datatype Key = Return | Backspace | KeyR | OtherKey

  /** An event from `pygame.event.get()`: a key press with its `unicode` text, or a mouse click. */
  datatype Event = Quit | KeyDown(key: Key, unicode: string) | MouseDown(pos: Point)

  /** How `handle_events` ends: still running, `False` returned on QUIT, or an uncaught `IndexError`. */
  datatype Flow = Running | Exited | Raised

  /** A row of a `levels` table (the background colour is rendering only). */
  datatype Level = Level(name: string, starsNeeded: nat, rocks: nat, blackholes: nat)

  /** The score that opens the riddle gate of a level: `stars_needed * 10`. */
  function Threshold(level: Level): nat
  {
    level.starsNeeded * STAR_POINTS
  }

  /** `5 + level_index * 2`: the stars on the field of a level. */
  function StarCount(levelIndex: nat): nat
  {
    5 + 2 * levelIndex
  }

  /** The random values a level reset consumes: its new obstacles and its new stars. */
  datatype LevelDraw = LevelDraw(hazards: seq<Obstacle>, stars: seq<Star>)

  /** A draw that fits a reset to a level with `rocks` rocks, `blackholes` black holes and `starCount` stars around `at`. */
  predicate DrawFits(d: LevelDraw, rocks: nat, blackholes: nat, starCount: nat, at: Point)
  {
    LevelHazards(d.hazards, rocks, blackholes) && StarsPlaced(d.stars, starCount, at)
  }

  /** The buttons of the revisions that keep a `buttons` list. */
  datatype Action = Restart | TryAgain
  datatype Button = Button(rect: Rect, action: Action)

  /**
   * What one playing frame of `Game.update` reads from its collaborators: the held keys, the
   * obstacle spawned by the 1-in-N chance (if any), the `colliderect` results for each obstacle
   * and each star, the star each capture would build, and the index `random.choice` picks.
   */
  datatype FrameInput = FrameInput(
    keys: Keys,
    spawn: Option<Obstacle>,
    hazardHits: seq<bool>,
    starHits: seq<bool>,
    replacements: seq<Star>,
    riddlePick: nat)

  /** The collision and replacement inputs of a frame fit the obstacles and stars on the field. */
  predicate FrameFitsField(f: FrameInput, obstacles: seq<Obstacle>, stars: seq<Star>, player: Point)
  {
    && (f.spawn.Some? ==> NewObstacle(f.spawn.value))
    && |f.hazardHits| == |WithSpawn(obstacles, f.spawn)|
    && |f.starHits| == |stars| == |f.replacements|
    && (forall k :: 0 <= k < |stars| && f.starHits[k] ==> Placed(f.replacements[k], Some(Moved(player, f.keys))))
  }
}
