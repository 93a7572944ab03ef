/**
 * What the physics world answers to one raycast, reduced to what the
 * controller reads from it.
 */
module Rays {
  import opened Wrappers

  datatype Vec2 = Vec2(x: real, y: real)

  /**
   * A raycast hit: the hit point, the angle in degrees between the ray's
   * reference axis and the surface normal (what Vector2.Angle returns: the up
   * axis for the vertical probes, the direction of travel for the side probe),
   * and whether the collider carries the OneWayPlatform component.
   */
  datatype Hit = Hit(px: real, py: real, angle: real, oneWay: bool)

  /** The three casts from a row of anchors (the bottom or the top edge). */
  datatype RowCasts = RowCasts(left: Option<Hit>, right: Option<Hit>, center: Option<Hit>)

  /** The three casts from the leading side edge. */
  datatype EdgeCasts = EdgeCasts(top: Option<Hit>, bottom: Option<Hit>, center: Option<Hit>)

  predicate RowMisses(c: RowCasts) {
    c.left.None? && c.right.None? && c.center.None?
  }

  predicate EdgeMisses(c: EdgeCasts) {
    c.top.None? && c.bottom.None? && c.center.None?
  }

  /** The hit height, or `fallback` when the ray hit nothing. */
  function HeightOr(c: Option<Hit>, fallback: real): real {
    if c.Some? then c.value.py else fallback
  }

  /** The hit abscissa, or `fallback` when the ray hit nothing. */
  function ReachOr(c: Option<Hit>, fallback: real): real {
    if c.Some? then c.value.px else fallback
  }

  /** `y` is not below the point hit by `c` (vacuous for a miss). */
  predicate NotBelow(c: Option<Hit>, y: real) {
    c.Some? ==> y >= c.value.py
  }

  /** `y` is not above the point hit by `c` (vacuous for a miss). */
  predicate NotAbove(c: Option<Hit>, y: real) {
    c.Some? ==> y <= c.value.py
  }

  /** `x` is not to the right of the point hit by `c` (vacuous for a miss). */
  predicate NotRightOf(c: Option<Hit>, x: real) {
    c.Some? ==> x <= c.value.px
  }

  /** `x` is not to the left of the point hit by `c` (vacuous for a miss). */
  predicate NotLeftOf(c: Option<Hit>, x: real) {
    c.Some? ==> x >= c.value.px
  }
}
