/**
 * The arena shared by all revisions of the game and the player's craft (`UFO`): its integer
 * position, its clamped movement and its crash counter.
 */
module Arena {
  import opened Basics

  const WIDTH: int := 800
  const HEIGHT: int := 600
  /** `UFO.radius`: half the side of the craft's square collision box. */
  const UFO_RADIUS: int := 25
  /** `UFO.speed`: pixels moved per frame for each held arrow key. */
  const UFO_SPEED: int := 5
  /** Reaching this many crashes ends the game. */
  const MAX_CRASHES: nat := 5

  datatype Point = Point(x: int, y: int)

  /** The four arrow keys held during a frame (`pygame.key.get_pressed()`). */
  datatype Keys = Keys(left: bool, right: bool, up: bool, down: bool)

  /** `max(lo, min(hi, v))`, the clamp written in `UFO.move`. */
  function Clamp(lo: int, hi: int, v: int): int
  {
    Max(lo, Min(hi, v))
  }

  /** The craft's centre keeps its whole collision box inside the arena. */
  predicate InArena(p: Point)
  {
    UFO_RADIUS <= p.x <= WIDTH - UFO_RADIUS && UFO_RADIUS <= p.y <= HEIGHT - UFO_RADIUS
  }

  /** Where `UFO.move` puts a craft at `p` when `keys` are held. */
  function Moved(p: Point, keys: Keys): (q: Point)
    ensures InArena(q)
    ensures InArena(p) ==> -UFO_SPEED <= q.x - p.x <= UFO_SPEED && -UFO_SPEED <= q.y - p.y <= UFO_SPEED
    ensures InArena(p) && keys.left == keys.right ==> q.x == p.x
    ensures InArena(p) && keys.up == keys.down ==> q.y == p.y
  {
    var x := p.x - (if keys.left then UFO_SPEED else 0) + (if keys.right then UFO_SPEED else 0);
    var y := p.y - (if keys.up then UFO_SPEED else 0) + (if keys.down then UFO_SPEED else 0);
    Point(Clamp(UFO_RADIUS, WIDTH - UFO_RADIUS, x), Clamp(UFO_RADIUS, HEIGHT - UFO_RADIUS, y))
  }

  /** The player's craft. Positions are integers: they start at 0 or `WIDTH // 2` and move by 5 or 10. */
  class Ufo {
    var x: int
    var y: int
    var crashes: nat

    constructor (start: Point)
      ensures x == start.x && y == start.y && crashes == 0
    {
      x, y := start.x, start.y;
      crashes := 0;
    }

    /**
     * `UFO()` again, on this same craft: a new session starts with a craft that has these fields.
     * Nothing else keeps a reference to the craft, so re-initialising it cannot be told apart from
     * building a new one.
     */
    method Reinit(start: Point)
      modifies this
      ensures x == start.x && y == start.y && crashes == 0
    {
      x, y := start.x, start.y;
      crashes := 0;
    }

    /** `UFO.move`: step by the held keys, then clamp each coordinate to the arena. */
    method Move(keys: Keys)
      modifies this`x, this`y
      ensures Point(x, y) == Moved(Point(old(x), old(y)), keys)
      ensures InArena(Point(x, y))
    {
      if keys.left {
        x := x - UFO_SPEED;
      }
      if keys.right {
        x := x + UFO_SPEED;
      }
      if keys.up {
        y := y - UFO_SPEED;
      }
      if keys.down {
        y := y + UFO_SPEED;
      }
      x := Max(UFO_RADIUS, Min(WIDTH - UFO_RADIUS, x));
      y := Max(UFO_RADIUS, Min(HEIGHT - UFO_RADIUS, y));
    }
  }
}
