/**
 * The upward probe (ProbeUpward): bump state from the three top casts, and
 * the vertical move clamped below the ceiling.
 */
module Ceiling {
  import opened Wrappers
  import opened UnityMath
  import opened Settings
  import opened Rays

  datatype CeilingState = CeilingState(bumpedL: bool, bumpedR: bool, bumpedC: bool, bumped: bool)

  const INITIAL := CeilingState(false, false, false, false)

  datatype CeilingOutcome = CeilingOutcome(state: CeilingState, moveY: real, speedY: real)

  /** Where the top edge would be after the tentative move (the ray inset added back to the anchor). */
  function NextTop(cfg: Config, topCenterY: real, moveY: real): real {
    topCenterY + moveY + cfg.rayTopOffsetY
  }

  /** Where the top edge is after the resolved move. */
  function ResolvedTop(cfg: Config, topCenterY: real, r: CeilingOutcome): real {
    topCenterY + r.moveY + cfg.rayTopOffsetY
  }

  /** A top point bumps when the move would reach its hit and the hit is not a one-way platform. */
  predicate Blocks(cfg: Config, c: Option<Hit>, next: real)
    ensures Blocks(cfg, c, next) ==> c.Some? && !c.value.oneWay
  {
    c.Some? && c.value.py - cfg.groundOffsetY < next && !c.value.oneWay
  }

  function Probe(cfg: Config, topCenterY: real, moveY: real, casts: RowCasts, speedY: real): (r: CeilingOutcome)
    // per point: a one-way platform never bumps, anything else bumps when the move reaches it
    ensures r.state.bumpedL <==> (casts.left.Some? && !casts.left.value.oneWay &&
      casts.left.value.py - cfg.groundOffsetY < NextTop(cfg, topCenterY, moveY))
    ensures r.state.bumpedR <==> (casts.right.Some? && !casts.right.value.oneWay &&
      casts.right.value.py - cfg.groundOffsetY < NextTop(cfg, topCenterY, moveY))
    ensures r.state.bumpedC <==> (casts.center.Some? && !casts.center.value.oneWay &&
      casts.center.value.py - cfg.groundOffsetY < NextTop(cfg, topCenterY, moveY))
    ensures r.state.bumped <==> r.state.bumpedL || r.state.bumpedR || r.state.bumpedC
    // the vertical move and speed
    ensures !r.state.bumped ==> r.moveY == moveY && r.speedY == speedY
    ensures r.state.bumped ==>
      && r.speedY == 0.0
      && r.moveY <= moveY
      && NotAbove(casts.left, ResolvedTop(cfg, topCenterY, r))
      && NotAbove(casts.right, ResolvedTop(cfg, topCenterY, r))
      && NotAbove(casts.center, ResolvedTop(cfg, topCenterY, r))
    ensures r.state.bumped ==>
      var next := NextTop(cfg, topCenterY, moveY);
      ResolvedTop(cfg, topCenterY, r) ==
        Min4(next, HeightOr(casts.left, next), HeightOr(casts.right, next), HeightOr(casts.center, next))
  {
    var next := NextTop(cfg, topCenterY, moveY);
    var bumpedL, bumpedR, bumpedC := Blocks(cfg, casts.left, next), Blocks(cfg, casts.right, next), Blocks(cfg, casts.center, next);
    var state := CeilingState(bumpedL, bumpedR, bumpedC, bumpedL || bumpedR || bumpedC);
    if state.bumped then
      var top := Min4(next, HeightOr(casts.left, next), HeightOr(casts.right, next), HeightOr(casts.center, next));
      CeilingOutcome(state, top - topCenterY - cfg.rayTopOffsetY, 0.0)
    else
      CeilingOutcome(state, moveY, speedY)
  }

  /**
   * Jumping up through one-way platforms is never blocked, however close they
   * are: when every top ray misses or hits a one-way platform, nothing bumps
   * and the move and speed are kept.
   */
  lemma OneWayPlatformsNeverBlock(cfg: Config, topCenterY: real, moveY: real, casts: RowCasts, speedY: real)
    requires casts.left.Some? ==> casts.left.value.oneWay
    requires casts.right.Some? ==> casts.right.value.oneWay
    requires casts.center.Some? ==> casts.center.value.oneWay
    ensures var r := Probe(cfg, topCenterY, moveY, casts, speedY);
      !r.state.bumped && r.moveY == moveY && r.speedY == speedY
  {
  }

  /**
   * The clamp takes the heights of all three hits, not only of the bumping
   * ones: when a solid ceiling bumps, a one-way platform hit lower down, which
   * does not bump by itself, still decides where the top edge stops.
   */
  lemma OneWayHitClampsBesideBump(cfg: Config, topCenterY: real, moveY: real, solid: Hit, platform: Hit, speedY: real)
    requires !solid.oneWay && platform.oneWay
    requires solid.py - cfg.groundOffsetY < NextTop(cfg, topCenterY, moveY)
    requires platform.py < solid.py && platform.py < NextTop(cfg, topCenterY, moveY)
    ensures var r := Probe(cfg, topCenterY, moveY, RowCasts(Some(solid), None, Some(platform)), speedY);
      r.state.bumped && r.state.bumpedL && !r.state.bumpedC && ResolvedTop(cfg, topCenterY, r) == platform.py
  {
  }
}
