/**
 * The side probe (ProbeSides): wall-bump state from the three casts along the
 * direction of travel, and the horizontal move clamped before the wall.
 */
module Sides {
  import opened Wrappers
  import opened UnityMath
  import opened Settings
  import opened Rays

  datatype SideState = SideState(bumpedT: bool, bumpedB: bool, bumpedC: bool, bumped: bool)

  const INITIAL := SideState(false, false, false, false)

  datatype SideOutcome = SideOutcome(state: SideState, moveX: real, speedX: real)

  /** An offset `d` turned toward the direction of travel (d * Mathf.Sign(moveX)). */
  function Toward(d: real, moveX: real): (r: real)
    ensures r == (if moveX >= 0.0 then d else -d)
  {
    d * Sign(moveX)
  }

  /** Where the leading edge would be after the tentative move (the ray inset added back to the anchor). */
  function NextSide(cfg: Config, sideCenterX: real, moveX: real): real {
    sideCenterX + moveX + Toward(cfg.raySideOffsetX, moveX)
  }

  /** Where the leading edge is after the resolved move. */
  function ResolvedSide(cfg: Config, sideCenterX: real, moveX: real, r: SideOutcome): real {
    sideCenterX + r.moveX + Toward(cfg.raySideOffsetX, moveX)
  }

  /** The surface angle the side probe compares: the angle to the direction of travel less 90 degrees. */
  function SurfaceAngle(h: Hit): real {
    h.angle - 90.0
  }

  /**
   * The edge crosses the hit point, pulled back by groundOffsetX, in the
   * direction of travel: at or past it moving right, short of it moving left.
   */
  predicate Crosses(cfg: Config, h: Hit, moveX: real, next: real) {
    var check := h.px - Toward(cfg.groundOffsetX, moveX);
    if moveX >= 0.0 then next >= check else next < check
  }

  /**
   * A side point bumps when the move crosses its hit (the source compares
   * Mathf.Sign(next - check) with the direction) and the surface is steeper
   * than maxSlopeAngle.
   */
  predicate Bumps(cfg: Config, c: Option<Hit>, next: real, moveX: real)
    ensures Bumps(cfg, c, next, moveX) <==>
      c.Some? && Crosses(cfg, c.value, moveX, next) && SurfaceAngle(c.value) > cfg.maxSlopeAngle
  {
    c.Some? && Sign(next - (c.value.px - Toward(cfg.groundOffsetX, moveX))) == Sign(moveX) &&
    SurfaceAngle(c.value) > cfg.maxSlopeAngle
  }

  function Classify(cfg: Config, next: real, moveX: real, casts: EdgeCasts): (s: SideState)
    ensures s.bumpedT == Bumps(cfg, casts.top, next, moveX)
    ensures s.bumpedB == Bumps(cfg, casts.bottom, next, moveX)
    ensures s.bumpedC == Bumps(cfg, casts.center, next, moveX)
    ensures s.bumped <==> s.bumpedT || s.bumpedB || s.bumpedC
    ensures EdgeMisses(casts) ==> !s.bumped
  {
    var t, b, c := Bumps(cfg, casts.top, next, moveX), Bumps(cfg, casts.bottom, next, moveX), Bumps(cfg, casts.center, next, moveX);
    SideState(t, b, c, t || b || c)
  }

  /**
   * The leading edge after a bump: on a non-walkable slope it stays where it
   * is; otherwise it is the tightest of the tentative edge and the three hit
   * points in the direction of travel.
   */
  function ClampedEdge(cfg: Config, sideCenterX: real, moveX: real, next: real, casts: EdgeCasts, onNonWalkable: bool): (edge: real)
    ensures onNonWalkable ==> edge == sideCenterX + Toward(cfg.raySideOffsetX, moveX)
    ensures !onNonWalkable && moveX >= 0.0 ==>
      edge <= next && NotRightOf(casts.top, edge) && NotRightOf(casts.bottom, edge) && NotRightOf(casts.center, edge)
    ensures !onNonWalkable && moveX < 0.0 ==>
      edge >= next && NotLeftOf(casts.top, edge) && NotLeftOf(casts.bottom, edge) && NotLeftOf(casts.center, edge)
    ensures !onNonWalkable ==>
      edge == next || edge == ReachOr(casts.top, next) || edge == ReachOr(casts.bottom, next) || edge == ReachOr(casts.center, next)
  {
    var reachT, reachB, reachC := ReachOr(casts.top, next), ReachOr(casts.bottom, next), ReachOr(casts.center, next);
    if onNonWalkable then sideCenterX + Toward(cfg.raySideOffsetX, moveX)
    else if Sign(moveX) > 0.0 then Min4(next, reachT, reachB, reachC)
    else Max4(next, reachT, reachB, reachC)
  }

  function Probe(cfg: Config, sideCenterX: real, moveX: real, casts: EdgeCasts, speedX: real, onNonWalkable: bool): (r: SideOutcome)
    ensures r.state == Classify(cfg, NextSide(cfg, sideCenterX, moveX), moveX, casts)
    ensures !r.state.bumped ==> r.moveX == moveX && r.speedX == speedX
    ensures r.state.bumped ==>
      && r.speedX == 0.0
      && ResolvedSide(cfg, sideCenterX, moveX, r) ==
         ClampedEdge(cfg, sideCenterX, moveX, NextSide(cfg, sideCenterX, moveX), casts, onNonWalkable)
    ensures r.state.bumped && onNonWalkable ==> r.moveX == 0.0
    ensures r.state.bumped && !onNonWalkable && moveX >= 0.0 ==> r.moveX <= moveX
    ensures r.state.bumped && !onNonWalkable && moveX < 0.0 ==> r.moveX >= moveX
  {
    var next := NextSide(cfg, sideCenterX, moveX);
    var state := Classify(cfg, next, moveX, casts);
    var edge := if state.bumped then ClampedEdge(cfg, sideCenterX, moveX, next, casts, onNonWalkable) else next;
    SideOutcome(state, edge - sideCenterX - Toward(cfg.raySideOffsetX, moveX), if state.bumped then 0.0 else speedX)
  }


  /** Probe assembled from its classification and the edge it settles on. */
  lemma ProbeFromParts(cfg: Config, sideCenterX: real, moveX: real, casts: EdgeCasts, speedX: real, onNonWalkable: bool,
                       state: SideState, edge: real)
    requires state == Classify(cfg, NextSide(cfg, sideCenterX, moveX), moveX, casts)
    requires edge == if state.bumped then ClampedEdge(cfg, sideCenterX, moveX, NextSide(cfg, sideCenterX, moveX), casts, onNonWalkable)
                     else NextSide(cfg, sideCenterX, moveX)
    ensures Probe(cfg, sideCenterX, moveX, casts, speedX, onNonWalkable) ==
      SideOutcome(state, edge - sideCenterX - Toward(cfg.raySideOffsetX, moveX), if state.bumped then 0.0 else speedX)
  {
  }

  /**
   * Walking onto an incline no steeper than maxSlopeAngle is never a bump,
   * however close it is: the move and the speed are kept.
   */
  lemma WalkableInclinesNeverBlock(cfg: Config, sideCenterX: real, moveX: real, casts: EdgeCasts, speedX: real, onNonWalkable: bool)
    requires casts.top.Some? ==> SurfaceAngle(casts.top.value) <= cfg.maxSlopeAngle
    requires casts.bottom.Some? ==> SurfaceAngle(casts.bottom.value) <= cfg.maxSlopeAngle
    requires casts.center.Some? ==> SurfaceAngle(casts.center.value) <= cfg.maxSlopeAngle
    ensures var r := Probe(cfg, sideCenterX, moveX, casts, speedX, onNonWalkable);
      !r.state.bumped && r.moveX == moveX && r.speedX == speedX
  {
  }

  /**
   * Walking into a steep wall that the move reaches stops the body in either
   * direction: the speed is zeroed and the leading edge ends exactly on the
   * contact point, whether only the centre ray or also the top and bottom rays
   * see the wall.
   */
  lemma StopsAtWall(cfg: Config, sideCenterX: real, moveX: real, wall: Hit, casts: EdgeCasts, speedX: real)
    requires cfg.groundOffsetX > 0.0
    requires SurfaceAngle(wall) > cfg.maxSlopeAngle
    requires moveX >= 0.0 ==> wall.px <= NextSide(cfg, sideCenterX, moveX)
    requires moveX < 0.0 ==> NextSide(cfg, sideCenterX, moveX) <= wall.px
    requires casts.center == Some(wall)
    requires casts.top == None || casts.top == Some(wall)
    requires casts.bottom == None || casts.bottom == Some(wall)
    ensures var r := Probe(cfg, sideCenterX, moveX, casts, speedX, false);
      r.state.bumped && r.speedX == 0.0 && ResolvedSide(cfg, sideCenterX, moveX, r) == wall.px
  {
  }

  /**
   * The clamp takes the reach of all three hits, not only of the bumping
   * ones: walking right into a steep wall, a walkable incline hit nearer than
   * the wall, which does not bump by itself, still decides where the edge stops.
   */
  lemma ShallowHitClampsBesideBump(cfg: Config, sideCenterX: real, moveX: real, wall: Hit, incline: Hit, speedX: real)
    requires moveX >= 0.0 && cfg.groundOffsetX >= 0.0
    requires SurfaceAngle(wall) > cfg.maxSlopeAngle && SurfaceAngle(incline) <= cfg.maxSlopeAngle
    requires wall.px <= NextSide(cfg, sideCenterX, moveX)
    requires incline.px < wall.px
    ensures var r := Probe(cfg, sideCenterX, moveX, EdgeCasts(Some(incline), None, Some(wall)), speedX, false);
      r.state.bumped && r.state.bumpedC && !r.state.bumpedT && ResolvedSide(cfg, sideCenterX, moveX, r) == incline.px
  {
  }
}
