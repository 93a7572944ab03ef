/**
 * The PlayerController2D component: the state it keeps between frames and the
 * methods that update it, each proved against the functions of the other
 * modules. Raycasts, input and the frame time are parameters.
 *
 * The component's per-probe flags are kept as one record field per probe:
 * `ground` holds isGroundedL/R/C, isGrounded, isAboveSlopeL/R, isAboveSlope,
 * isOnSlope, isOnNonWalkableSlopeL/R/C and isOnNonWalkableSlope; `ceiling`
 * holds isBumpedTopL/R/C and isBumpedTop; `side` holds isBumpedSideT/B/C and
 * isBumpedSide; `corners` holds the nine ray origins (bottomLeftCorner ...
 * sideCenterCorner).
 */
module Controller {
  import opened Wrappers
  import opened UnityMath
  import opened Settings
  import opened Rays
  import Corners
  import Ground
  import Ceiling
  import Sides
  import Speed
  import JumpBudget
  import Movement

  class PlayerController2D {
    // tuning and the constants Start derives from it; neither changes afterwards
    const cfg: Config
    const colliderSize: Vec2
    const jumpGravity: real
    const jumpFinishGravity: real
    const jumpInitialVelocity: real

    // transform.position (the z coordinate is never touched)
    var posX: real
    var posY: real

    // walk
    var currentSpeedX: real
    var currentSpeedY: real
    var currentMaxSpeedX: real

    // jump
    var jumpCount: int
    var currentGravity: real

    // movement states
    var isRunning: bool
    var isJumpButtonPressed: bool
    var isJumpButtonReleased: bool
    var isJumping: bool
    var movementDir: real

    // ray origins and probe flags
    var corners: Corners.Anchors
    var ground: Ground.GroundState
    var ceiling: Ceiling.CeilingState
    var side: Sides.SideState

    function Constants(): JumpConstants {
      JumpConstants(jumpGravity, jumpFinishGravity, jumpInitialVelocity)
    }

    function JumpView(): JumpBudget.JumpState
      reads this`jumpCount, this`isJumping, this`currentGravity, this`currentSpeedY, this`ground
    {
      JumpBudget.JumpState(jumpCount, isJumping, currentGravity, currentSpeedY, ground.grounded, ground.onSlope)
    }

    /** Start derived the jump constants from the tuning, which needs a non-zero time to apex. */
    ghost predicate ConstantsDerived() {
      && cfg.jumpTimeToMaxHeight != 0.0
      && Constants() == DeriveJumpConstants(cfg)
    }

    /** The jump count is in the budget, gravity is in one of its two regimes, on a slope only when grounded. */
    ghost predicate JumpStateValid()
      reads this`jumpCount, this`currentGravity, this`ground
    {
      && JumpBudget.InBudget(jumpCount, cfg.jumpMaxCount)
      && (currentGravity == jumpGravity || currentGravity == jumpFinishGravity)
      && (ground.onSlope ==> ground.grounded)
    }

    /** For a non-negative tuning, the horizontal speed is within the maximum walk speed. */
    ghost predicate WalkSpeedValid()
      reads this`currentSpeedX
    {
      cfg.maxWalkSpeed >= 0.0 && cfg.walkAcceleration >= 0.0 ==>
        -cfg.maxWalkSpeed <= currentSpeedX <= cfg.maxWalkSpeed
    }

    /** What every method keeps. */
    ghost predicate Valid()
      reads this`jumpCount, this`currentGravity, this`ground, this`currentSpeedX
    {
      ConstantsDerived() && JumpStateValid() && WalkSpeedValid()
    }

    /** Start: read the collider size and derive the jump constants. */
    constructor Start(config: Config, size: Vec2, position: Vec2)
      requires config.jumpTimeToMaxHeight != 0.0
      ensures Valid()
      ensures cfg == config && colliderSize == size && posX == position.x && posY == position.y
      ensures currentGravity == jumpGravity && jumpCount == 0 && !isJumping
      ensures currentSpeedX == 0.0 && currentSpeedY == 0.0 && currentMaxSpeedX == 0.0 && movementDir == 0.0
      ensures !isRunning && !isJumpButtonPressed && !isJumpButtonReleased
      ensures corners == Corners.UNSET
      ensures ground == Ground.INITIAL && ceiling == Ceiling.INITIAL && side == Sides.INITIAL
    {
      // the three formulas of Start live in DeriveJumpConstants
      var k := DeriveJumpConstants(config);
      cfg := config;
      colliderSize := size;
      jumpGravity := k.gravity;
      jumpFinishGravity := k.finishGravity;
      jumpInitialVelocity := k.initialVelocity;
      currentGravity := k.gravity;
      posX, posY := position.x, position.y;
      currentSpeedX, currentSpeedY, currentMaxSpeedX := 0.0, 0.0, 0.0;
      jumpCount := 0;
      isRunning, isJumpButtonPressed, isJumpButtonReleased, isJumping := false, false, false, false;
      movementDir := 0.0;
      corners := Corners.UNSET;
      ground, ceiling, side := Ground.INITIAL, Ceiling.INITIAL, Sides.INITIAL;
    }

    /** One frame: jump events, speed integration, anchors, then the probes. */
    method Update(jumpPressed: bool, jumpReleased: bool, axis: real, dt: real,
                  down: RowCasts, up: RowCasts, sideCasts: EdgeCasts)
      returns (ghost j: JumpBudget.JumpState, ghost moveX: real, ghost moveY: real, ghost f: Movement.FrameOutcome)
      requires Valid()
      requires -1.0 <= axis <= 1.0 && dt >= 0.0
      modifies this
      ensures Valid()
      ensures currentMaxSpeedX == axis * cfg.maxWalkSpeed
      ensures movementDir == Sign(axis * cfg.maxWalkSpeed - old(currentSpeedX))
      ensures isRunning == (moveX != 0.0)
      ensures isJumpButtonPressed == jumpPressed
      ensures isJumpButtonReleased == if cfg.allowHoldButtonToJumpHigher then jumpReleased else old(isJumpButtonReleased)
      ensures currentSpeedX == 0.0 ||
        currentSpeedX == Speed.NextSpeedX(old(currentSpeedX), axis * cfg.maxWalkSpeed, cfg.walkAcceleration, dt)
      // the whole frame: the button events leave the jump state j, then speed integration,
      // the tentative move speed * dt, and Commit
      ensures j == Movement.AfterButtons(cfg, Constants(), old(JumpView()), jumpPressed, jumpReleased)
      ensures var speedX := Speed.NextSpeedX(old(currentSpeedX), axis * cfg.maxWalkSpeed, cfg.walkAcceleration, dt);
        var speedY := Speed.NextSpeedY(j.speedY, j.gravity, j.grounded, dt);
        && moveX == Speed.Displacement(speedX, dt) && moveY == Speed.Displacement(speedY, dt)
        && f == Movement.Commit(cfg, Constants(), colliderSize, j.(speedY := speedY), speedX, speedY, moveX, moveY,
             Vec2(old(posX), old(posY)), old(corners), old(ground).(grounded := j.grounded, onSlope := j.onSlope),
             old(ceiling), old(side), down, up, sideCasts)
      ensures JumpView() == f.jump && posX == f.pos.x && posY == f.pos.y && currentSpeedX == f.speedX
      ensures corners == f.corners && ground == f.ground && ceiling == f.ceiling && side == f.side
      // nothing in range: the body moves by the integrated speeds and is not grounded
      ensures RowMisses(down) && RowMisses(up) && EdgeMisses(sideCasts) ==>
        !ground.grounded && posX == old(posX) + Speed.Displacement(currentSpeedX, dt) && posY == old(posY) + Speed.Displacement(currentSpeedY, dt)
    {
      ReadJumpButton(jumpPressed, jumpReleased);
      j := JumpView();
      assert currentSpeedX == old(currentSpeedX) && posX == old(posX) && posY == old(posY);
      assert corners == old(corners) && ceiling == old(ceiling) && side == old(side);
      assert ground == old(ground).(grounded := j.grounded, onSlope := j.onSlope);
      // the button flags are final here: Move does not touch them
      ghost var pressed, released := isJumpButtonPressed, isJumpButtonReleased;
      moveX, moveY, f := Move(axis, dt, down, up, sideCasts);
    }

    /** The rest of Update once the buttons are read: speed integration, then Advance with the move it gives. */
    method Move(axis: real, dt: real, down: RowCasts, up: RowCasts, sideCasts: EdgeCasts)
      returns (moveX: real, moveY: real, ghost f: Movement.FrameOutcome)
      requires Valid()
      requires -1.0 <= axis <= 1.0 && dt >= 0.0
      modifies this`currentMaxSpeedX, this`movementDir, this`isRunning, this`corners
      modifies this`ground, this`ceiling, this`side, this`currentSpeedX, this`currentSpeedY
      modifies this`jumpCount, this`currentGravity, this`isJumping, this`posX, this`posY
      ensures Valid()
      ensures currentMaxSpeedX == axis * cfg.maxWalkSpeed
      ensures movementDir == Sign(axis * cfg.maxWalkSpeed - old(currentSpeedX))
      ensures isRunning == (moveX != 0.0)
      ensures currentSpeedX == 0.0 ||
        currentSpeedX == Speed.NextSpeedX(old(currentSpeedX), axis * cfg.maxWalkSpeed, cfg.walkAcceleration, dt)
      ensures var j := old(JumpView());
        var speedX := Speed.NextSpeedX(old(currentSpeedX), axis * cfg.maxWalkSpeed, cfg.walkAcceleration, dt);
        var speedY := Speed.NextSpeedY(j.speedY, j.gravity, j.grounded, dt);
        && moveX == Speed.Displacement(speedX, dt) && moveY == Speed.Displacement(speedY, dt)
        && f == Movement.Commit(cfg, Constants(), colliderSize, j.(speedY := speedY), speedX, speedY, moveX, moveY,
             Vec2(old(posX), old(posY)), old(corners), old(ground), old(ceiling), old(side), down, up, sideCasts)
      ensures JumpView() == f.jump && posX == f.pos.x && posY == f.pos.y && currentSpeedX == f.speedX
      ensures corners == f.corners && ground == f.ground && ceiling == f.ceiling && side == f.side
      ensures RowMisses(down) && RowMisses(up) && EdgeMisses(sideCasts) ==>
        !ground.grounded && posX == old(posX) + Speed.Displacement(currentSpeedX, dt) && posY == old(posY) + Speed.Displacement(currentSpeedY, dt)
    {
      moveX, moveY := IntegrateSpeeds(axis, dt);
      ghost var j := old(JumpView());
      assert JumpView() == j.(speedY := currentSpeedY);
      assert moveX == Speed.Displacement(Speed.NextSpeedX(old(currentSpeedX), axis * cfg.maxWalkSpeed, cfg.walkAcceleration, dt), dt);
      assert moveY == Speed.Displacement(Speed.NextSpeedY(j.speedY, j.gravity, j.grounded, dt), dt);
      f := Advance(moveX, moveY, down, up, sideCasts);
    }

    /** The rest of Update once the move is known: running flag, anchors, then the probes and the move. */
    method Advance(moveX: real, moveY: real, down: RowCasts, up: RowCasts, sideCasts: EdgeCasts)
      returns (ghost f: Movement.FrameOutcome)
      requires Valid()
      modifies this`isRunning, this`corners
      modifies this`ground, this`ceiling, this`side, this`currentSpeedX, this`currentSpeedY
      modifies this`jumpCount, this`currentGravity, this`isJumping, this`posX, this`posY
      ensures Valid()
      ensures isRunning == (moveX != 0.0)
      ensures corners == Corners.Refresh(cfg, Vec2(old(posX), old(posY)), colliderSize, moveX, isRunning, old(corners))
      ensures f == Movement.Commit(cfg, Constants(), colliderSize, old(JumpView()), old(currentSpeedX), old(currentSpeedY),
          moveX, moveY, Vec2(old(posX), old(posY)), old(corners), old(ground), old(ceiling), old(side),
          down, up, sideCasts)
      ensures JumpView() == f.jump && posX == f.pos.x && posY == f.pos.y && currentSpeedX == f.speedX
      ensures corners == f.corners && ground == f.ground && ceiling == f.ceiling && side == f.side
      ensures currentSpeedX == old(currentSpeedX) || currentSpeedX == 0.0
      ensures RowMisses(down) && RowMisses(up) && EdgeMisses(sideCasts) ==>
        && !ground.grounded && currentSpeedX == old(currentSpeedX) && currentSpeedY == old(currentSpeedY)
        && posX == old(posX) + moveX && posY == old(posY) + moveY
    {
      isRunning := moveX != 0.0;
      UpdateCornerPosition(moveX);
      TryToMove(moveX, moveY, down, up, sideCasts);
      Movement.CommitFromParts(cfg, Constants(), colliderSize, old(JumpView()), old(currentSpeedX), old(currentSpeedY),
        moveX, moveY, Vec2(old(posX), old(posY)), old(corners), old(ground), old(ceiling), old(side), down, up, sideCasts,
        corners, Movement.ResolveMove(cfg, corners, old(ground), old(ceiling), old(side),
                                      old(currentSpeedX), old(currentSpeedY), isRunning, moveX, moveY, down, up, sideCasts));
      f := Movement.Commit(cfg, Constants(), colliderSize, old(JumpView()), old(currentSpeedX), old(currentSpeedY),
        moveX, moveY, Vec2(old(posX), old(posY)), old(corners), old(ground), old(ceiling), old(side), down, up, sideCasts);
    }

    /** The jump part of Update: a press jumps, a release (with hold-to-jump-higher) ends the rise. */
    method ReadJumpButton(jumpPressed: bool, jumpReleased: bool)
      requires Valid()
      modifies this`isJumpButtonPressed, this`isJumpButtonReleased
      modifies this`isJumping, this`currentGravity, this`ground, this`currentSpeedY, this`jumpCount
      ensures Valid()
      ensures var pressed := if jumpPressed then JumpBudget.AfterJump(old(JumpView()), Constants(), cfg.jumpMaxCount)
                             else old(JumpView());
        JumpView() == if cfg.allowHoldButtonToJumpHigher && jumpReleased then JumpBudget.AfterStopJump(pressed, Constants())
                      else pressed
      ensures ground == old(ground).(grounded := ground.grounded, onSlope := ground.onSlope)
      ensures isJumpButtonPressed == jumpPressed
      ensures isJumpButtonReleased == if cfg.allowHoldButtonToJumpHigher then jumpReleased else old(isJumpButtonReleased)
    {
      isJumpButtonPressed := jumpPressed;
      if isJumpButtonPressed {
        Jump();
      }
      if cfg.allowHoldButtonToJumpHigher {
        isJumpButtonReleased := jumpReleased;
        if isJumpButtonReleased {
          StopJump();
        }
      }
    }

    /** The speed part of Update: target speed, both speed components and the tentative move. */
    method IntegrateSpeeds(axis: real, dt: real) returns (moveX: real, moveY: real)
      requires WalkSpeedValid()
      requires -1.0 <= axis <= 1.0 && dt >= 0.0
      modifies this`currentMaxSpeedX, this`currentSpeedX, this`currentSpeedY, this`movementDir
      ensures WalkSpeedValid()
      ensures currentMaxSpeedX == axis * cfg.maxWalkSpeed
      ensures currentSpeedX == Speed.NextSpeedX(old(currentSpeedX), axis * cfg.maxWalkSpeed, cfg.walkAcceleration, dt)
      ensures movementDir == Sign(axis * cfg.maxWalkSpeed - old(currentSpeedX))
      ensures ground.grounded && old(currentSpeedY) <= 0.0 ==> currentSpeedY == 0.0
      ensures !(ground.grounded && old(currentSpeedY) <= 0.0) ==> currentSpeedY == old(currentSpeedY) - currentGravity * dt
      ensures currentSpeedY == Speed.NextSpeedY(old(currentSpeedY), currentGravity, ground.grounded, dt)
      ensures moveX == Speed.Displacement(currentSpeedX, dt) && moveY == Speed.Displacement(currentSpeedY, dt)
    {
      WalkStep(axis, dt);
      currentSpeedY := GetCurrentSpeedY(currentSpeedY, currentGravity, dt);
      moveX, moveY := currentSpeedX * dt, currentSpeedY * dt;
    }

    /** The target speed from the stick, and one step of the horizontal speed toward it. */
    method WalkStep(axis: real, dt: real)
      requires WalkSpeedValid()
      requires -1.0 <= axis <= 1.0 && dt >= 0.0
      modifies this`currentMaxSpeedX, this`currentSpeedX, this`movementDir
      ensures WalkSpeedValid()
      ensures currentMaxSpeedX == axis * cfg.maxWalkSpeed
      ensures currentSpeedX == Speed.NextSpeedX(old(currentSpeedX), axis * cfg.maxWalkSpeed, cfg.walkAcceleration, dt)
      ensures movementDir == Sign(axis * cfg.maxWalkSpeed - old(currentSpeedX))
    {
      var maxSpeedX := axis * cfg.maxWalkSpeed;
      var speedX := GetCurrentSpeedX(currentSpeedX, maxSpeedX, cfg.walkAcceleration, dt);
      if cfg.maxWalkSpeed >= 0.0 && cfg.walkAcceleration >= 0.0 {
        assert cfg.walkAcceleration * dt >= 0.0;
        Speed.StaysWithinWalkSpeed(currentSpeedX, axis, cfg.maxWalkSpeed, cfg.walkAcceleration, dt);
      }
      currentMaxSpeedX, currentSpeedX := maxSpeedX, speedX;
    }

    method GetCurrentSpeedX(speed: real, maxSpeed: real, acceleration: real, dt: real) returns (r: real)
      modifies this`movementDir
      ensures movementDir == Sign(maxSpeed - speed)
      ensures r == Speed.NextSpeedX(speed, maxSpeed, acceleration, dt)
    {
      movementDir := Sign(maxSpeed - speed);
      r := speed;
      if r != maxSpeed {
        r := r + acceleration * dt * movementDir;
        r := if movementDir == Sign(maxSpeed - r) then r else maxSpeed;
      }
    }

    /**
     * Grounded and not ascending: the vertical speed is zero; otherwise gravity
     * is applied. The test reads the field currentSpeedY, which Update passes
     * in as `speed`.
     */
    method GetCurrentSpeedY(speed: real, gravity: real, dt: real) returns (r: real)
      ensures ground.grounded && currentSpeedY <= 0.0 ==> r == 0.0
      ensures !(ground.grounded && currentSpeedY <= 0.0) ==> r == speed - gravity * dt
    {
      if ground.grounded && currentSpeedY <= 0.0 {
        r := 0.0;
      } else {
        r := speed - gravity * dt;
      }
    }

    method TryToMove(moveX: real, moveY: real, down: RowCasts, up: RowCasts, sideCasts: EdgeCasts)
      requires Valid()
      modifies this`ground, this`ceiling, this`side
      modifies this`currentSpeedX, this`currentSpeedY, this`jumpCount, this`currentGravity, this`isJumping
      modifies this`posX, this`posY
      ensures Valid()
      ensures var r := Movement.ResolveMove(cfg, old(corners), old(ground), old(ceiling), old(side),
                                            old(currentSpeedX), old(currentSpeedY), old(isRunning), moveX, moveY, down, up, sideCasts);
        && ground == r.ground && ceiling == r.ceiling && side == r.side
        && currentSpeedX == r.speedX && currentSpeedY == r.speedY
        && posX == old(posX) + r.moveX && posY == old(posY) + r.moveY
      ensures JumpView() == JumpBudget.AfterProbing(
        old(JumpView()).(speedY := currentSpeedY, grounded := ground.grounded, onSlope := ground.onSlope),
        Constants(), cfg.allowDoubleJumpWhenFalling)
      // a side bump stops the body; otherwise the horizontal speed is kept
      ensures currentSpeedX == old(currentSpeedX) || currentSpeedX == 0.0
      // nothing in range: the tentative move is made as it is
      ensures RowMisses(down) && RowMisses(up) && EdgeMisses(sideCasts) ==>
        && !ground.grounded && currentSpeedX == old(currentSpeedX) && currentSpeedY == old(currentSpeedY)
        && posX == old(posX) + moveX && posY == old(posY) + moveY
    {
      var x, y := ProbeAll(moveX, moveY, down, up, sideCasts);
      assert JumpView() == old(JumpView()).(speedY := currentSpeedY, grounded := ground.grounded, onSlope := ground.onSlope);
      UpdateJumpStatus();
      posX, posY := posX + x, posY + y;
    }

    /** The three probes in their fixed order, each correcting the move the previous one left. */
    method ProbeAll(moveX: real, moveY: real, down: RowCasts, up: RowCasts, sideCasts: EdgeCasts) returns (x: real, y: real)
      modifies this`ground, this`ceiling, this`side, this`currentSpeedX, this`currentSpeedY
      ensures var r := Movement.ResolveMove(cfg, old(corners), old(ground), old(ceiling), old(side),
                                            old(currentSpeedX), old(currentSpeedY), old(isRunning), moveX, moveY, down, up, sideCasts);
        && ground == r.ground && ceiling == r.ceiling && side == r.side
        && currentSpeedX == r.speedX && currentSpeedY == r.speedY
        && x == r.moveX && y == r.moveY
      ensures ground.onSlope ==> ground.grounded
    {
      x, y := moveX, moveY;
      ghost var g := Ground.Probe(cfg, corners.bottomCenter.y, moveY, down, ground);
      x, y := ProbeDownward(x, y, down);
      ghost var s := if isRunning then Sides.Probe(cfg, corners.sideCenter.x, moveX, sideCasts, currentSpeedX, ground.onNonWalkable)
                     else Sides.SideOutcome(side, moveX, currentSpeedX);
      if isRunning {
        x, y := ProbeSides(x, y, sideCasts);
      }
      ghost var c := if currentSpeedY > 0.0 then Ceiling.Probe(cfg, corners.topCenter.y, y, up, currentSpeedY)
                     else Ceiling.CeilingOutcome(ceiling, y, currentSpeedY);
      if currentSpeedY > 0.0 {
        x, y := ProbeUpward(x, y, up);
      }
      Movement.ResolveMoveFromParts(cfg, corners, old(ground), old(ceiling), old(side), old(currentSpeedX), old(currentSpeedY),
        isRunning, moveX, moveY, down, up, sideCasts, g, s, c);
    }

    /** Touching the ground restores the jump budget; falling without jumping uses up the first jump. */
    method UpdateJumpStatus()
      requires JumpBudget.InBudget(jumpCount, cfg.jumpMaxCount)
      modifies this`jumpCount, this`currentGravity, this`isJumping
      ensures JumpView() == JumpBudget.AfterProbing(old(JumpView()), Constants(), cfg.allowDoubleJumpWhenFalling)
      ensures JumpBudget.InBudget(jumpCount, cfg.jumpMaxCount)
    {
      if ground.grounded || ground.onSlope {
        jumpCount := 0;
        currentGravity := jumpGravity;
        isJumping := false;
      } else if currentSpeedY < 0.0 && !isJumping && jumpCount == 0 && !cfg.allowDoubleJumpWhenFalling {
        jumpCount := 1;
      }
    }

    method Jump()
      requires Valid()
      modifies this`isJumping, this`currentGravity, this`ground, this`currentSpeedY, this`jumpCount
      ensures Valid()
      ensures JumpView() == JumpBudget.AfterJump(old(JumpView()), Constants(), cfg.jumpMaxCount)
      ensures ground == old(ground).(grounded := ground.grounded, onSlope := ground.onSlope)
    {
      if jumpCount < cfg.jumpMaxCount {
        isJumping := true;
        currentGravity := jumpGravity;
        ground := ground.(grounded := false, onSlope := false);
        currentSpeedY := jumpInitialVelocity;
        jumpCount := jumpCount + 1;
      } else if ground.grounded {
        jumpCount := 0;
      }
    }

    method StopJump()
      requires Valid()
      modifies this`currentGravity
      ensures Valid()
      ensures JumpView() == JumpBudget.AfterStopJump(old(JumpView()), Constants())
    {
      if isJumping {
        currentGravity := jumpFinishGravity;
      }
    }

    /** One bottom ray, handled as the component handles each of its three. */
    method ProbeBottomPoint(hit: Option<Hit>, nextBottomPosition: real, wasOnSlope: bool, stale: Ground.PointFlags)
      returns (p: Ground.PointFlags, bottomPosition: real)
      ensures p == Ground.ClassifyPoint(cfg, hit, nextBottomPosition, wasOnSlope, stale)
      ensures bottomPosition == HeightOr(hit, nextBottomPosition)
    {
      p, bottomPosition := stale, nextBottomPosition;
      if hit.Some? {
        var h := hit.value;
        if h.angle > 0.0 {
          p := p.(sloped := true);
          if h.angle > cfg.maxSlopeAngle {
            p := p.(nonWalkable := true);
          } else {
            p := p.(nonWalkable := false);
          }
        } else {
          p := p.(sloped := false, nonWalkable := false);
        }
        bottomPosition := h.py;
        if h.py + cfg.groundOffsetY > nextBottomPosition || wasOnSlope {
          p := p.(grounded := true);
        } else {
          p := p.(grounded := false);
        }
      } else {
        p := p.(grounded := false);
      }
    }

    /** The snap at the end of the downward probe, from the three reported heights. */
    method SnapBottomPosition(nextBottomPosition: real, casts: RowCasts,
                              bottomPositionL: real, bottomPositionR: real, bottomPositionC: real,
                              state: Ground.GroundState) returns (bottom: real)
      requires bottomPositionL == HeightOr(casts.left, nextBottomPosition)
      requires bottomPositionR == HeightOr(casts.right, nextBottomPosition)
      requires bottomPositionC == HeightOr(casts.center, nextBottomPosition)
      ensures bottom == Ground.SnapBottom(cfg, nextBottomPosition, casts, state)
    {
      if state.onSlope {
        if state.left.sloped && bottomPositionL - bottomPositionC > cfg.groundSlopeOffsetY {
          bottom := bottomPositionL;
        } else if state.right.sloped && bottomPositionR - bottomPositionC > cfg.groundSlopeOffsetY {
          bottom := bottomPositionR;
        } else {
          bottom := bottomPositionC;
        }
      } else {
        bottom := Max4(nextBottomPosition, bottomPositionL, bottomPositionR, bottomPositionC);
      }
    }

    method ProbeDownward(moveX: real, moveY: real, casts: RowCasts) returns (x: real, y: real)
      modifies this`ground
      ensures var r := Ground.Probe(cfg, corners.bottomCenter.y, moveY, casts, old(ground));
        ground == r.state && x == moveX && y == r.moveY
      ensures ground.onSlope ==> ground.grounded
    {
      var nextBottomPosition := corners.bottomCenter.y + moveY - cfg.rayBottomOffsetY;
      ghost var next := nextBottomPosition;
      assert next == Ground.NextBottom(cfg, corners.bottomCenter.y, moveY);

      // each point reads the slope state of the previous frame
      var left, bottomPositionL := ProbeBottomPoint(casts.left, nextBottomPosition, ground.onSlope, ground.left);
      var right, bottomPositionR := ProbeBottomPoint(casts.right, nextBottomPosition, ground.onSlope, ground.right);
      var center, bottomPositionC := ProbeBottomPoint(casts.center, nextBottomPosition, ground.onSlope, ground.center);

      var isGrounded := left.grounded || right.grounded || center.grounded;
      var isOnSlope := isGrounded && ground.aboveSlope;
      var isAboveSlope := (left.sloped && right.sloped)
        || (left.sloped && !right.sloped && bottomPositionL >= bottomPositionR)
        || (right.sloped && !left.sloped && bottomPositionR >= bottomPositionL);
      var isOnNonWalkableSlope := left.nonWalkable || right.nonWalkable || center.nonWalkable;
      ground := Ground.GroundState(left, right, center.(sloped := false),
                                   isGrounded, isOnSlope, isAboveSlope, isOnNonWalkableSlope);
      Ground.ClassifyFromPoints(cfg, next, casts, old(ground), left, right, center);
      assert ground == Ground.Classify(cfg, next, casts, old(ground));

      nextBottomPosition := SnapBottomPosition(nextBottomPosition, casts, bottomPositionL, bottomPositionR, bottomPositionC, ground);
      assert nextBottomPosition == Ground.SnapBottom(cfg, next, casts, ground);
      Ground.ProbeFromParts(cfg, corners.bottomCenter.y, moveY, casts, old(ground), ground, nextBottomPosition);

      x := moveX;
      y := nextBottomPosition - corners.bottomCenter.y + cfg.rayBottomOffsetY;
    }

    /** One top ray: whether it bumps, and the height it reports. */
    method ProbeTopPoint(hit: Option<Hit>, nextTopPosition: real) returns (bumped: bool, topPosition: real)
      ensures bumped == Ceiling.Blocks(cfg, hit, nextTopPosition)
      ensures topPosition == HeightOr(hit, nextTopPosition)
    {
      bumped, topPosition := false, nextTopPosition;
      if hit.Some? {
        var h := hit.value;
        topPosition := h.py;
        if h.py - cfg.groundOffsetY < nextTopPosition && !h.oneWay {
          bumped := true;
        } else {
          bumped := false;
        }
      }
    }

    /**
     * The heights of the left, right and centre hits land in the variables of
     * the right, centre and left points, exactly as in the component; only
     * their minimum is used, so the result is the same.
     */
    method ProbeUpward(moveX: real, moveY: real, casts: RowCasts) returns (x: real, y: real)
      modifies this`ceiling, this`currentSpeedY
      ensures var r := Ceiling.Probe(cfg, corners.topCenter.y, moveY, casts, old(currentSpeedY));
        ceiling == r.state && currentSpeedY == r.speedY && x == moveX && y == r.moveY
    {
      var nextTopPosition := corners.topCenter.y + moveY + cfg.rayTopOffsetY;
      var isBumpedTopL, topPositionR := ProbeTopPoint(casts.left, nextTopPosition);
      var isBumpedTopR, topPositionC := ProbeTopPoint(casts.right, nextTopPosition);
      var isBumpedTopC, topPositionL := ProbeTopPoint(casts.center, nextTopPosition);
      var isBumpedTop := isBumpedTopL || isBumpedTopR || isBumpedTopC;
      ceiling := Ceiling.CeilingState(isBumpedTopL, isBumpedTopR, isBumpedTopC, isBumpedTop);

      x, y := moveX, moveY;
      if isBumpedTop {
        currentSpeedY := 0.0;
        nextTopPosition := Min4(nextTopPosition, topPositionL, topPositionR, topPositionC);
        y := nextTopPosition - corners.topCenter.y - cfg.rayTopOffsetY;
      }
    }

    /** One side ray: whether it bumps, and the horizontal reach it reports. */
    method ProbeSidePoint(hit: Option<Hit>, nextSidePosition: real, moveX: real) returns (bumped: bool, sidePosition: real)
      ensures bumped == Sides.Bumps(cfg, hit, nextSidePosition, moveX)
      ensures sidePosition == ReachOr(hit, nextSidePosition)
    {
      var dir := Sign(moveX);
      bumped, sidePosition := false, nextSidePosition;
      if hit.Some? {
        var h := hit.value;
        var hitAngle := h.angle - 90.0;
        sidePosition := h.px;
        var sidePositionCheck := h.px - cfg.groundOffsetX * dir;
        assert sidePositionCheck == h.px - Sides.Toward(cfg.groundOffsetX, moveX);
        var moveSign := Sign(nextSidePosition - sidePositionCheck);
        if moveSign == dir && hitAngle > cfg.maxSlopeAngle {
          bumped := true;
        } else {
          bumped := false;
        }
      }
    }

    /**
     * The clamp after a side bump: on a non-walkable slope the edge stays where
     * it is; otherwise it is the tightest of the tentative edge and the three
     * reach points in the direction of travel.
     */
    method ClampSidePosition(nextSidePosition: real, moveX: real, casts: EdgeCasts,
                             sidePositionT: real, sidePositionB: real, sidePositionC: real) returns (edge: real)
      requires sidePositionT == ReachOr(casts.top, nextSidePosition)
      requires sidePositionB == ReachOr(casts.bottom, nextSidePosition)
      requires sidePositionC == ReachOr(casts.center, nextSidePosition)
      ensures edge == Sides.ClampedEdge(cfg, corners.sideCenter.x, moveX, nextSidePosition, casts, ground.onNonWalkable)
    {
      var dir := Sign(moveX);
      if !ground.onNonWalkable {
        if dir > 0.0 {
          edge := Min4(nextSidePosition, sidePositionT, sidePositionB, sidePositionC);
        } else {
          edge := Max4(nextSidePosition, sidePositionT, sidePositionB, sidePositionC);
        }
      } else {
        edge := corners.sideCenter.x + cfg.raySideOffsetX * dir;
      }
    }

    method ProbeSides(moveX: real, moveY: real, casts: EdgeCasts) returns (x: real, y: real)
      modifies this`side, this`currentSpeedX
      ensures var r := Sides.Probe(cfg, corners.sideCenter.x, moveX, casts, old(currentSpeedX), ground.onNonWalkable);
        side == r.state && currentSpeedX == r.speedX && x == r.moveX && y == moveY
    {
      var dir := Sign(moveX);
      var nextSidePosition := corners.sideCenter.x + moveX + cfg.raySideOffsetX * dir;
      ghost var next := nextSidePosition;
      assert next == Sides.NextSide(cfg, corners.sideCenter.x, moveX);
      var isBumpedSideT, sidePositionT := ProbeSidePoint(casts.top, nextSidePosition, moveX);
      var isBumpedSideB, sidePositionB := ProbeSidePoint(casts.bottom, nextSidePosition, moveX);
      var isBumpedSideC, sidePositionC := ProbeSidePoint(casts.center, nextSidePosition, moveX);
      var isBumpedSide := isBumpedSideT || isBumpedSideB || isBumpedSideC;
      side := Sides.SideState(isBumpedSideT, isBumpedSideB, isBumpedSideC, isBumpedSide);

      if isBumpedSide {
        currentSpeedX := 0.0;
        nextSidePosition := ClampSidePosition(nextSidePosition, moveX, casts, sidePositionT, sidePositionB, sidePositionC);
      }
      Sides.ProbeFromParts(cfg, corners.sideCenter.x, moveX, casts, old(currentSpeedX), ground.onNonWalkable, side, nextSidePosition);

      x := nextSidePosition - corners.sideCenter.x - cfg.raySideOffsetX * dir;
      y := moveY;
    }

    method UpdateCornerPosition(moveX: real)
      modifies this`corners
      ensures corners == Corners.Refresh(cfg, Vec2(posX, posY), colliderSize, moveX, isRunning, old(corners))
    {
      var bottomLeftCorner := Vec2(
        posX - colliderSize.x / 2.0 - cfg.rayBottomOffsetX,
        posY - colliderSize.y / 2.0 + cfg.rayBottomOffsetY);
      var bottomRightCorner := Vec2(
        posX + colliderSize.x / 2.0 + cfg.rayBottomOffsetX,
        posY - colliderSize.y / 2.0 + cfg.rayBottomOffsetY);
      var bottomCenterCorner := Vec2(
        posX,
        posY - colliderSize.y / 2.0 + cfg.rayBottomOffsetY);

      var topLeftCorner := Vec2(
        posX - colliderSize.x / 2.0 - cfg.rayBottomOffsetX,
        posY + colliderSize.y / 2.0 - cfg.rayBottomOffsetY);
      var topRightCorner := Vec2(
        posX + colliderSize.x / 2.0 + cfg.rayBottomOffsetX,
        posY + colliderSize.y / 2.0 - cfg.rayBottomOffsetY);
      var topCenterCorner := Vec2(
        posX,
        posY + colliderSize.y / 2.0 - cfg.rayBottomOffsetY);

      var sideTopCorner, sideBottomCorner, sideCenterCorner := corners.sideTop, corners.sideBottom, corners.sideCenter;
      var dir := Sign(moveX);
      if isRunning {
        sideTopCorner := Vec2(
          posX + (colliderSize.x / 2.0 - cfg.raySideOffsetX) * dir,
          posY + colliderSize.y / 2.0);
        sideBottomCorner := Vec2(
          posX + (colliderSize.x / 2.0 - cfg.raySideOffsetX) * dir,
          posY - colliderSize.y / 2.0);
        sideCenterCorner := Vec2(
          posX + (colliderSize.x / 2.0 - cfg.raySideOffsetX) * dir,
          posY);
      }

      corners := Corners.Anchors(
        bottomLeftCorner, bottomRightCorner, bottomCenterCorner,
        topLeftCorner, topRightCorner, topCenterCorner,
        sideTopCorner, sideBottomCorner, sideCenterCorner);
    }
  }
}
