/**
 * One call of TryToMove before the jump reconciliation: the three probes in
 * their fixed order, each correcting the move the previous one left; and the
 * two ends of one frame of Update around it: the button events, and the commit
 * of the resolved move.
 */
module Movement {
  import opened Settings
  import opened Rays
  import opened Corners
  import Ground
  import Ceiling
  import Sides
  import Speed
  import JumpBudget

  /** The probe flags, the resolved move and the speeds after the three probes. */
  datatype Probed = Probed(
    ground: Ground.GroundState, ceiling: Ceiling.CeilingState, side: Sides.SideState,
    moveX: real, moveY: real, speedX: real, speedY: real)

  /**
   * Down first; then the sides, only while running, told whether the ground
   * probe just found a non-walkable slope; then up, only while ascending.
   * A probe that does not run leaves its flags as they were.
   */
  function ResolveMove(
    cfg: Config, a: Anchors,
    ground: Ground.GroundState, ceiling: Ceiling.CeilingState, side: Sides.SideState,
    speedX: real, speedY: real, running: bool,
    moveX: real, moveY: real,
    down: RowCasts, up: RowCasts, sideCasts: EdgeCasts): (r: Probed)
    ensures var g := Ground.Probe(cfg, a.bottomCenter.y, moveY, down, ground);
      r.ground == g.state &&
      (speedY > 0.0 ==>
        var c := Ceiling.Probe(cfg, a.topCenter.y, g.moveY, up, speedY);
        r.ceiling == c.state && r.moveY == c.moveY && r.speedY == c.speedY) &&
      (speedY <= 0.0 ==> r.ceiling == ceiling && r.moveY == g.moveY && r.speedY == speedY)
    ensures running ==>
      var s := Sides.Probe(cfg, a.sideCenter.x, moveX, sideCasts, speedX, r.ground.onNonWalkable);
      r.side == s.state && r.moveX == s.moveX && r.speedX == s.speedX
    ensures !running ==> r.side == side && r.moveX == moveX && r.speedX == speedX
    // nothing in range on any axis: the tentative move is kept as it is
    ensures RowMisses(down) && RowMisses(up) && EdgeMisses(sideCasts) ==>
      r.moveX == moveX && r.moveY == moveY && r.speedX == speedX && r.speedY == speedY && !r.ground.grounded
  {
    var g := Ground.Probe(cfg, a.bottomCenter.y, moveY, down, ground);
    var s := if running then Sides.Probe(cfg, a.sideCenter.x, moveX, sideCasts, speedX, g.state.onNonWalkable)
             else Sides.SideOutcome(side, moveX, speedX);
    var c := if speedY > 0.0 then Ceiling.Probe(cfg, a.topCenter.y, g.moveY, up, speedY)
             else Ceiling.CeilingOutcome(ceiling, g.moveY, speedY);
    Probed(g.state, c.state, s.state, s.moveX, c.moveY, s.speedX, c.speedY)
  }


  /** ResolveMove assembled from the outcomes of the three probes, in their order. */
  lemma ResolveMoveFromParts(
    cfg: Config, a: Anchors,
    ground: Ground.GroundState, ceiling: Ceiling.CeilingState, side: Sides.SideState,
    speedX: real, speedY: real, running: bool,
    moveX: real, moveY: real,
    down: RowCasts, up: RowCasts, sideCasts: EdgeCasts,
    g: Ground.GroundOutcome, s: Sides.SideOutcome, c: Ceiling.CeilingOutcome)
    requires g == Ground.Probe(cfg, a.bottomCenter.y, moveY, down, ground)
    requires s == if running then Sides.Probe(cfg, a.sideCenter.x, moveX, sideCasts, speedX, g.state.onNonWalkable)
                  else Sides.SideOutcome(side, moveX, speedX)
    requires c == if speedY > 0.0 then Ceiling.Probe(cfg, a.topCenter.y, g.moveY, up, speedY)
                  else Ceiling.CeilingOutcome(ceiling, g.moveY, speedY)
    ensures ResolveMove(cfg, a, ground, ceiling, side, speedX, speedY, running, moveX, moveY, down, up, sideCasts) ==
      Probed(g.state, c.state, s.state, s.moveX, c.moveY, s.speedX, c.speedY)
  {
  }

  /**
   * No sinking into the ground: with anchors refreshed for a body at `pos`,
   * when it is not ascending and not on a slope, its bottom edge after the
   * move is at or above every point the downward rays hit.
   */
  lemma RestsOnContacts(
    cfg: Config, pos: Vec2, size: Vec2, previous: Anchors,
    ground: Ground.GroundState, ceiling: Ceiling.CeilingState, side: Sides.SideState,
    speedX: real, speedY: real, running: bool,
    moveX: real, moveY: real,
    down: RowCasts, up: RowCasts, sideCasts: EdgeCasts)
    requires speedY <= 0.0
    ensures var a := Refresh(cfg, pos, size, moveX, running, previous);
      var r := ResolveMove(cfg, a, ground, ceiling, side, speedX, speedY, running, moveX, moveY, down, up, sideCasts);
      var bottomEdge := pos.y + r.moveY - size.y / 2.0;
      !r.ground.onSlope ==>
        NotBelow(down.left, bottomEdge) && NotBelow(down.center, bottomEdge) && NotBelow(down.right, bottomEdge)
  {
    var a := Refresh(cfg, pos, size, moveX, running, previous);
    var g := Ground.Probe(cfg, a.bottomCenter.y, moveY, down, ground);
    assert Ground.ResolvedBottom(cfg, a.bottomCenter.y, g) == pos.y + g.moveY - size.y / 2.0;
  }

  /**
   * Ascending under one-way platforms only: the upward probe never blocks,
   * so the vertical move and speed are those the downward probe left.
   */
  lemma PassesUpThroughOneWayPlatforms(
    cfg: Config, a: Anchors,
    ground: Ground.GroundState, ceiling: Ceiling.CeilingState, side: Sides.SideState,
    speedX: real, speedY: real, running: bool,
    moveX: real, moveY: real,
    down: RowCasts, up: RowCasts, sideCasts: EdgeCasts)
    requires up.left.Some? ==> up.left.value.oneWay
    requires up.right.Some? ==> up.right.value.oneWay
    requires up.center.Some? ==> up.center.value.oneWay
    ensures var r := ResolveMove(cfg, a, ground, ceiling, side, speedX, speedY, running, moveX, moveY, down, up, sideCasts);
      && r.moveY == Ground.Probe(cfg, a.bottomCenter.y, moveY, down, ground).moveY
      && r.speedY == speedY
      && (speedY > 0.0 ==> !r.ceiling.bumped)
  {
    var g := Ground.Probe(cfg, a.bottomCenter.y, moveY, down, ground);
    if speedY > 0.0 {
      Ceiling.OneWayPlatformsNeverBlock(cfg, a.topCenter.y, g.moveY, up, speedY);
    }
  }

  /** What one frame leaves behind: the jump state, the horizontal speed, the position, anchors and probe flags. */
  datatype FrameOutcome = FrameOutcome(
    jump: JumpBudget.JumpState, speedX: real, pos: Vec2,
    corners: Anchors, ground: Ground.GroundState, ceiling: Ceiling.CeilingState, side: Sides.SideState)

  /** The jump state the button events of one frame leave. */
  function AfterButtons(cfg: Config, k: JumpConstants, jump: JumpBudget.JumpState, jumpPressed: bool, jumpReleased: bool)
    : (j: JumpBudget.JumpState)
    ensures JumpBudget.InBudget(jump.count, cfg.jumpMaxCount) ==> JumpBudget.InBudget(j.count, cfg.jumpMaxCount)
  {
    var pressed := if jumpPressed then JumpBudget.AfterJump(jump, k, cfg.jumpMaxCount) else jump;
    if cfg.allowHoldButtonToJumpHigher && jumpReleased then JumpBudget.AfterStopJump(pressed, k) else pressed
  }

  /**
   * The rest of a frame once the tentative move is known: the running flag,
   * the anchors refreshed at the position before the move, the probes in their
   * order, the reconciliation of the jump budget and the position commit.
   * `j` and `ground` are the jump state and ground flags the frame has reached.
   */
  function Commit(
    cfg: Config, k: JumpConstants, size: Vec2,
    j: JumpBudget.JumpState, speedX: real, speedY: real, moveX: real, moveY: real, pos: Vec2, corners: Anchors,
    ground: Ground.GroundState, ceiling: Ceiling.CeilingState, side: Sides.SideState,
    down: RowCasts, up: RowCasts, sideCasts: EdgeCasts): (f: FrameOutcome)
    ensures f.ground.grounded || f.ground.onSlope ==> f.jump.count == 0 && !f.jump.jumping && f.jump.gravity == k.gravity
    ensures f.ground.onSlope ==> f.ground.grounded
    ensures f.speedX == 0.0 || f.speedX == speedX
    ensures f.corners == Refresh(cfg, pos, size, moveX, moveX != 0.0, corners)
    // nothing in range: the body moves by the tentative move, keeps its speeds and is not grounded
    ensures RowMisses(down) && RowMisses(up) && EdgeMisses(sideCasts) ==>
      && f.pos == Vec2(pos.x + moveX, pos.y + moveY) && !f.ground.grounded
      && f.speedX == speedX && f.jump.speedY == speedY
  {
    var running := moveX != 0.0;
    var a := Refresh(cfg, pos, size, moveX, running, corners);
    var r := ResolveMove(cfg, a, ground, ceiling, side, speedX, speedY, running, moveX, moveY, down, up, sideCasts);
    var probed := j.(speedY := r.speedY, grounded := r.ground.grounded, onSlope := r.ground.onSlope);
    FrameOutcome(
      JumpBudget.AfterProbing(probed, k, cfg.allowDoubleJumpWhenFalling),
      r.speedX, Vec2(pos.x + r.moveX, pos.y + r.moveY), a, r.ground, r.ceiling, r.side)
  }

  /** Commit assembled from the anchors and the outcome of the probes. */
  lemma CommitFromParts(
    cfg: Config, k: JumpConstants, size: Vec2,
    j: JumpBudget.JumpState, speedX: real, speedY: real, moveX: real, moveY: real, pos: Vec2, corners: Anchors,
    ground: Ground.GroundState, ceiling: Ceiling.CeilingState, side: Sides.SideState,
    down: RowCasts, up: RowCasts, sideCasts: EdgeCasts, a: Anchors, r: Probed)
    requires a == Refresh(cfg, pos, size, moveX, moveX != 0.0, corners)
    requires r == ResolveMove(cfg, a, ground, ceiling, side, speedX, speedY, moveX != 0.0, moveX, moveY, down, up, sideCasts)
    ensures Commit(cfg, k, size, j, speedX, speedY, moveX, moveY, pos, corners, ground, ceiling, side, down, up, sideCasts)
      == FrameOutcome(
           JumpBudget.AfterProbing(j.(speedY := r.speedY, grounded := r.ground.grounded, onSlope := r.ground.onSlope),
                                   k, cfg.allowDoubleJumpWhenFalling),
           r.speedX, Vec2(pos.x + r.moveX, pos.y + r.moveY), a, r.ground, r.ceiling, r.side)
  {
  }
}
