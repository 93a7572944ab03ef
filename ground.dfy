/**
 * The downward probe (ProbeDownward): grounded and slope state from the three
 * bottom casts, and the vertical move that puts the bottom edge on the ground.
 */
module Ground {
  import opened Wrappers
  import opened UnityMath
  import opened Settings
  import opened Rays

  /** What one bottom cast says about its point (the centre point has no slope flag of its own). */
  datatype PointFlags = PointFlags(grounded: bool, sloped: bool, nonWalkable: bool)

  /** The flags the downward probe owns; they persist from one frame to the next. */
  datatype GroundState = GroundState(
    left: PointFlags, right: PointFlags, center: PointFlags,
    grounded: bool, onSlope: bool, aboveSlope: bool, onNonWalkable: bool)

  const UNTOUCHED := PointFlags(false, false, false)
  const INITIAL := GroundState(UNTOUCHED, UNTOUCHED, UNTOUCHED, false, false, false, false)

  datatype GroundOutcome = GroundOutcome(state: GroundState, moveY: real)

  /** Where the bottom edge would be after the tentative move (the ray inset taken off the anchor). */
  function NextBottom(cfg: Config, bottomCenterY: real, moveY: real): real {
    bottomCenterY + moveY - cfg.rayBottomOffsetY
  }

  /** Where the bottom edge is after the resolved move. */
  function ResolvedBottom(cfg: Config, bottomCenterY: real, r: GroundOutcome): real {
    bottomCenterY + r.moveY - cfg.rayBottomOffsetY
  }

  /** A point is grounded when its ray hit something the move would reach, or already while on a slope. */
  predicate Touches(cfg: Config, c: Option<Hit>, next: real, wasOnSlope: bool) {
    c.Some? && (c.value.py + cfg.groundOffsetY > next || wasOnSlope)
  }

  /** A hit classifies the point; a miss leaves the previous classification in place. */
  predicate SlopedOr(c: Option<Hit>, stale: bool) {
    if c.Some? then c.value.angle > 0.0 else stale
  }

  predicate NonWalkableOr(cfg: Config, c: Option<Hit>, stale: bool) {
    if c.Some? then c.value.angle > 0.0 && c.value.angle > cfg.maxSlopeAngle else stale
  }

  /** The slope candidate for the next frame: a sloped side wins unless it is below the other side. */
  predicate AboveSlope(slopedL: bool, slopedR: bool, heightL: real, heightR: real) {
    || (slopedL && slopedR)
    || (slopedL && !slopedR && heightL >= heightR)
    || (slopedR && !slopedL && heightR >= heightL)
  }

  /** On a slope the bottom edge follows L or R when that side is sloped and clearly higher than C. */
  function SlopeSnap(cfg: Config, slopedL: bool, slopedR: bool, heightL: real, heightR: real, heightC: real): real {
    if slopedL && heightL - heightC > cfg.groundSlopeOffsetY then heightL
    else if slopedR && heightR - heightC > cfg.groundSlopeOffsetY then heightR
    else heightC
  }

  /**
   * One bottom point: a hit classifies the slope under the point and grounds
   * it when the move reaches the hit (or while on a slope); a miss clears only
   * the grounded flag and leaves the slope classification stale.
   */
  function ClassifyPoint(cfg: Config, c: Option<Hit>, next: real, wasOnSlope: bool, stale: PointFlags): (p: PointFlags)
    ensures c.None? ==> !p.grounded && p.sloped == stale.sloped && p.nonWalkable == stale.nonWalkable
    ensures c.Some? ==>
      && (p.grounded <==> c.value.py + cfg.groundOffsetY > next || wasOnSlope)
      && (p.sloped <==> c.value.angle > 0.0)
      && (p.nonWalkable <==> c.value.angle > 0.0 && c.value.angle > cfg.maxSlopeAngle)
  {
    PointFlags(Touches(cfg, c, next, wasOnSlope), SlopedOr(c, stale.sloped), NonWalkableOr(cfg, c, stale.nonWalkable))
  }

  /** The flags after the three bottom casts, for a tentative bottom edge at `next`. */
  function Classify(cfg: Config, next: real, casts: RowCasts, prev: GroundState): (s: GroundState)
    ensures s.left == ClassifyPoint(cfg, casts.left, next, prev.onSlope, prev.left)
    ensures s.right == ClassifyPoint(cfg, casts.right, next, prev.onSlope, prev.right)
    ensures s.center == ClassifyPoint(cfg, casts.center, next, prev.onSlope, prev.center).(sloped := false)
    // aggregation and the one-frame lag of the slope state
    ensures s.grounded <==> s.left.grounded || s.right.grounded || s.center.grounded
    ensures s.onSlope <==> s.grounded && prev.aboveSlope
    ensures s.onNonWalkable <==> s.left.nonWalkable || s.right.nonWalkable || s.center.nonWalkable
    ensures s.aboveSlope <==>
      AboveSlope(s.left.sloped, s.right.sloped, HeightOr(casts.left, next), HeightOr(casts.right, next))
    ensures RowMisses(casts) ==> !s.grounded && !s.onSlope
  {
    var l := ClassifyPoint(cfg, casts.left, next, prev.onSlope, prev.left);
    var r := ClassifyPoint(cfg, casts.right, next, prev.onSlope, prev.right);
    var c := ClassifyPoint(cfg, casts.center, next, prev.onSlope, prev.center).(sloped := false);
    var grounded := l.grounded || r.grounded || c.grounded;
    GroundState(
      l, r, c, grounded, grounded && prev.aboveSlope,
      AboveSlope(l.sloped, r.sloped, HeightOr(casts.left, next), HeightOr(casts.right, next)),
      l.nonWalkable || r.nonWalkable || c.nonWalkable)
  }


  /** Classify assembled from its three point classifications. */
  lemma ClassifyFromPoints(cfg: Config, next: real, casts: RowCasts, prev: GroundState, l: PointFlags, r: PointFlags, c: PointFlags)
    requires l == ClassifyPoint(cfg, casts.left, next, prev.onSlope, prev.left)
    requires r == ClassifyPoint(cfg, casts.right, next, prev.onSlope, prev.right)
    requires c == ClassifyPoint(cfg, casts.center, next, prev.onSlope, prev.center)
    ensures Classify(cfg, next, casts, prev) == GroundState(
      l, r, c.(sloped := false),
      l.grounded || r.grounded || c.grounded,
      (l.grounded || r.grounded || c.grounded) && prev.aboveSlope,
      AboveSlope(l.sloped, r.sloped, HeightOr(casts.left, next), HeightOr(casts.right, next)),
      l.nonWalkable || r.nonWalkable || c.nonWalkable)
  {
  }

  /**
   * The height the bottom edge is put at. Off a slope it is the highest of the
   * tentative position and the contacts (snap up, never down); on a slope it is
   * L or R when that side is sloped and clearly above C, else C.
   */
  function SnapBottom(cfg: Config, next: real, casts: RowCasts, s: GroundState): (bottom: real)
    ensures !s.onSlope ==>
      && bottom >= next
      && NotBelow(casts.left, bottom) && NotBelow(casts.right, bottom) && NotBelow(casts.center, bottom)
      && (bottom == next || bottom == HeightOr(casts.left, next) ||
          bottom == HeightOr(casts.right, next) || bottom == HeightOr(casts.center, next))
    ensures s.onSlope ==>
      bottom == SlopeSnap(cfg, s.left.sloped, s.right.sloped,
        HeightOr(casts.left, next), HeightOr(casts.right, next), HeightOr(casts.center, next))
    ensures RowMisses(casts) && !s.onSlope ==> bottom == next
  {
    var heightL, heightR, heightC := HeightOr(casts.left, next), HeightOr(casts.right, next), HeightOr(casts.center, next);
    if s.onSlope then SlopeSnap(cfg, s.left.sloped, s.right.sloped, heightL, heightR, heightC)
    else Max4(next, heightL, heightR, heightC)
  }

  function Probe(cfg: Config, bottomCenterY: real, moveY: real, casts: RowCasts, prev: GroundState): (r: GroundOutcome)
    ensures r.state == Classify(cfg, NextBottom(cfg, bottomCenterY, moveY), casts, prev)
    ensures ResolvedBottom(cfg, bottomCenterY, r) == SnapBottom(cfg, NextBottom(cfg, bottomCenterY, moveY), casts, r.state)
    ensures RowMisses(casts) ==> r.moveY == moveY
    ensures !r.state.onSlope ==> r.moveY >= moveY
  {
    var next := NextBottom(cfg, bottomCenterY, moveY);
    var state := Classify(cfg, next, casts, prev);
    GroundOutcome(state, SnapBottom(cfg, next, casts, state) - bottomCenterY + cfg.rayBottomOffsetY)
  }


  /** Probe assembled from its classification and its snapped bottom edge. */
  lemma ProbeFromParts(cfg: Config, bottomCenterY: real, moveY: real, casts: RowCasts, prev: GroundState, state: GroundState, bottom: real)
    requires state == Classify(cfg, NextBottom(cfg, bottomCenterY, moveY), casts, prev)
    requires bottom == SnapBottom(cfg, NextBottom(cfg, bottomCenterY, moveY), casts, state)
    ensures Probe(cfg, bottomCenterY, moveY, casts, prev) == GroundOutcome(state, bottom - bottomCenterY + cfg.rayBottomOffsetY)
  {
  }

  /**
   * Landing on flat ground: when the three rays hit level ground at height
   * `g` that the tentative move reaches, all three points are grounded and
   * the bottom edge ends exactly on `g`, whatever the approach speed, and
   * whether or not a slope was seen last frame (the slope state is then just
   * last frame's candidate).
   */
  lemma LandsExactlyOnFlatGround(cfg: Config, bottomCenterY: real, moveY: real, hL: Hit, hR: Hit, hC: Hit, prev: GroundState)
    requires cfg.groundOffsetY > 0.0 && cfg.groundSlopeOffsetY >= 0.0
    requires hL.py == hR.py == hC.py
    requires NextBottom(cfg, bottomCenterY, moveY) <= hC.py
    ensures var r := Probe(cfg, bottomCenterY, moveY, RowCasts(Some(hL), Some(hR), Some(hC)), prev);
      && r.state.left.grounded && r.state.right.grounded && r.state.center.grounded && r.state.grounded
      && r.state.onSlope == prev.aboveSlope
      && ResolvedBottom(cfg, bottomCenterY, r) == hC.py
  {
  }

  /**
   * Off a slope the probe only ever lifts the body: the bottom edge ends on the
   * highest of the tentative position and the three contacts.
   */
  lemma SnapsToHighestContact(cfg: Config, bottomCenterY: real, moveY: real, casts: RowCasts, prev: GroundState)
    requires !prev.aboveSlope
    ensures var r := Probe(cfg, bottomCenterY, moveY, casts, prev);
      var next := NextBottom(cfg, bottomCenterY, moveY);
      ResolvedBottom(cfg, bottomCenterY, r) == Max4(next, HeightOr(casts.left, next), HeightOr(casts.right, next), HeightOr(casts.center, next))
  {
  }
}
