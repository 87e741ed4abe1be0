/** Rectangles, the library behaviour the game relies on but that is not part of the
    repository (overlap tests, float-to-int storage in a Rect, math.hypot), and the
    one-frame gravity step shared by the player, monsters and coins. */
module Geometry {
  import opened Settings

  /** A pygame Rect: top-left corner and size, all integers. */
  datatype Rect = Rect(x: int, y: int, w: int, h: int) {
    function Bottom(): int { y + h }
    function CenterX(): int { x + w / 2 }
    function CenterY(): int { y + h / 2 }
  }

  /** The playfield, pygame.Rect(0, 0, SCREEN_WIDTH, SCREEN_HEIGHT). */
  const ScreenRect := Rect(0, 0, ScreenWidth, ScreenHeight)

  /** pygame's Rect.colliderect, used by spritecollide with the sprite's rect first.
      Left abstract. */
  const Overlaps: (Rect, Rect) -> bool

  /** Whether pygame, storing a non-integral real in a Rect field, moves it up to the
      next integer (otherwise it takes the floor). Left abstract. */
  const RoundsUp: real -> bool

  /** The integer a Rect field holds after `rect.f = r` for a real r: r itself when r is
      whole, otherwise one of the two integers around it. */
  function ToRectInt(r: real): (n: int)
    ensures r - 1.0 < n as real < r + 1.0
    ensures r == r.Floor as real ==> n as real == r
  {
    if r == r.Floor as real then r.Floor
    else if RoundsUp(r) then r.Floor + 1
    else r.Floor
  }

  type PositiveReal = r: real | r > 0.0 witness 1.0

  /** math.hypot at a point other than the origin; its exact floating-point value is
      left abstract. */
  const HypotOffOrigin: (int, int) -> PositiveReal

  /** math.hypot(dx, dy) on integer arguments. */
  function Hypot(dx: int, dy: int): (d: real)
    ensures d >= 0.0
    ensures d == 0.0 <==> dx == 0 && dy == 0
  {
    if dx == 0 && dy == 0 then 0.0 else HypotOffOrigin(dx, dy)
  }

  function Max(a: int, b: int): int { if a < b then b else a }
  function Min(a: int, b: int): int { if a < b then a else b }

  /** `max(lo, min(v, hi))`, the screen clamp the player and the dragon apply to x. */
  function ClampX(v: int, lo: int, hi: int): (r: int)
    ensures lo <= hi ==> lo <= r <= hi
    ensures lo <= v <= hi ==> r == v
  {
    Max(lo, Min(v, hi))
  }

  /** One frame of gravity with the ground clamp: the velocity gains `g`, the rect moves
      down by the new velocity, and a rect whose bottom reaches GroundLevel is put back on
      the ground with zero velocity. The flag says whether the clamp fired. */
  function Fall(r: Rect, v: real, g: real): (res: (Rect, real, bool))
    ensures res.0 == r.(y := res.0.y)
    ensures res.2 <==> ToRectInt(r.y as real + (v + g)) + r.h >= GroundLevel
    ensures res.2 ==> res.0.Bottom() == GroundLevel && res.1 == 0.0
    ensures !res.2 ==> res.0.y == ToRectInt(r.y as real + (v + g)) && res.1 == v + g
    ensures res.0.Bottom() <= GroundLevel
  {
    var v1 := v + g;
    var y1 := ToRectInt(r.y as real + v1);
    if y1 + r.h >= GroundLevel then (r.(y := GroundLevel - r.h), 0.0, true)
    else (r.(y := y1), v1, false)
  }
}
