/**
 * The nine ray origins: three on the bottom edge, three on the top edge and
 * three on the leading side edge of the collider's bounding box.
 */
module Corners {
  import opened UnityMath
  import opened Settings
  import opened Rays

  datatype Anchors = Anchors(
    bottomLeft: Vec2, bottomRight: Vec2, bottomCenter: Vec2,
    topLeft: Vec2, topRight: Vec2, topCenter: Vec2,
    sideTop: Vec2, sideBottom: Vec2, sideCenter: Vec2)

  const ORIGIN := Vec2(0.0, 0.0)

  /** The anchors before the first frame: every vector field defaults to zero. */
  const UNSET := Anchors(ORIGIN, ORIGIN, ORIGIN, ORIGIN, ORIGIN, ORIGIN, ORIGIN, ORIGIN, ORIGIN)

  /**
   * UpdateCornerPosition: the anchors for a body at `pos` with bounding-box
   * size `size`. The top row is built with the bottom-row insets, so it is
   * the bottom row mirrored about the body's centre. The side edge is moved
   * only while running; otherwise the previous side anchors are kept.
   */
  function Refresh(cfg: Config, pos: Vec2, size: Vec2, moveX: real, running: bool, previous: Anchors): (a: Anchors)
    // bottom row: one horizontal line, the inset above the bottom edge, centred on the body
    ensures a.bottomLeft.y == a.bottomRight.y == a.bottomCenter.y == pos.y - size.y / 2.0 + cfg.rayBottomOffsetY
    ensures a.bottomCenter.x == pos.x
    ensures a.bottomLeft.x + a.bottomRight.x == 2.0 * pos.x
    ensures a.bottomRight.x - a.bottomLeft.x == size.x + 2.0 * cfg.rayBottomOffsetX
    // top row: straight above the bottom row, mirrored about the centre
    ensures a.topLeft.x == a.bottomLeft.x && a.topRight.x == a.bottomRight.x && a.topCenter.x == a.bottomCenter.x
    ensures a.topLeft.y == a.topRight.y == a.topCenter.y
    ensures a.topCenter.y - pos.y == pos.y - a.bottomCenter.y
    // side edge: a vertical segment on the leading edge, inset inwards
    ensures running ==>
      && a.sideTop.x == a.sideBottom.x == a.sideCenter.x
      && a.sideCenter.y == pos.y
      && a.sideTop.y - pos.y == size.y / 2.0 == pos.y - a.sideBottom.y
    ensures running && moveX >= 0.0 ==> a.sideCenter.x == pos.x + size.x / 2.0 - cfg.raySideOffsetX
    ensures running && moveX < 0.0 ==> a.sideCenter.x == pos.x - size.x / 2.0 + cfg.raySideOffsetX
    ensures !running ==>
      a.sideTop == previous.sideTop && a.sideBottom == previous.sideBottom && a.sideCenter == previous.sideCenter
  {
    var bottomY := pos.y - size.y / 2.0 + cfg.rayBottomOffsetY;
    var topY := pos.y + size.y / 2.0 - cfg.rayBottomOffsetY;
    var leftX := pos.x - size.x / 2.0 - cfg.rayBottomOffsetX;
    var rightX := pos.x + size.x / 2.0 + cfg.rayBottomOffsetX;
    var dir := Sign(moveX);
    var sideX := pos.x + (size.x / 2.0 - cfg.raySideOffsetX) * dir;
    Anchors(
      Vec2(leftX, bottomY), Vec2(rightX, bottomY), Vec2(pos.x, bottomY),
      Vec2(leftX, topY), Vec2(rightX, topY), Vec2(pos.x, topY),
      if running then Vec2(sideX, pos.y + size.y / 2.0) else previous.sideTop,
      if running then Vec2(sideX, pos.y - size.y / 2.0) else previous.sideBottom,
      if running then Vec2(sideX, pos.y) else previous.sideCenter)
  }
}
