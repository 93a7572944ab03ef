/**
 * The inspector-tunable parameters of the controller and the jump constants
 * derived from them once, when the controller starts.
 */
module Settings {

  datatype Config = Config(
    // walk
    maxWalkSpeed: real,
    walkAcceleration: real,
    maxSlopeAngle: real,
    // jump
    jumpMaxCount: int,
    jumpMaxHeight: real,
    jumpTimeToMaxHeight: real,
    jumpFinishGravityMultiplier: real,
    allowDoubleJumpWhenFalling: bool,
    allowHoldButtonToJumpHigher: bool,
    // probing
    probingMaxDistance: real,
    groundOffsetY: real,
    groundOffsetX: real,
    groundSlopeOffsetY: real,
    rayBottomOffsetX: real,
    rayBottomOffsetY: real,
    rayTopOffsetX: real,
    rayTopOffsetY: real,
    raySideOffsetX: real,
    raySideOffsetY: real)

  /** The values the component ships with. */
  const DEFAULTS := Config(
    8.0, 6.0, 60.0,
    2, 4.0, 0.5, 3.0, false, false,
    5.0, 0.01, 0.01, 0.05, 0.005, 0.3, 0.005, 0.3, 0.05, 0.05)

  datatype JumpConstants = JumpConstants(gravity: real, finishGravity: real, initialVelocity: real)

  /**
   * Projectile kinematics for a jump that peaks at jumpMaxHeight after
   * jumpTimeToMaxHeight: g = 2h/t^2 and v0 = 2h/t; on release of the jump
   * button while jumping (StopJump) gravity is multiplied by
   * jumpFinishGravityMultiplier.
   */
  function DeriveJumpConstants(cfg: Config): (k: JumpConstants)
    requires cfg.jumpTimeToMaxHeight != 0.0
    ensures k.gravity * (cfg.jumpTimeToMaxHeight * cfg.jumpTimeToMaxHeight) == 2.0 * cfg.jumpMaxHeight
    ensures k.initialVelocity * cfg.jumpTimeToMaxHeight == 2.0 * cfg.jumpMaxHeight
    ensures k.finishGravity == k.gravity * cfg.jumpFinishGravityMultiplier
  {
    var h, t := cfg.jumpMaxHeight, cfg.jumpTimeToMaxHeight;
    var g := 2.0 * h / (t * t);
    JumpConstants(g, g * cfg.jumpFinishGravityMultiplier, 2.0 * h / t)
  }

  /**
   * The derived constants do what they are for: launched at v0 under gravity g,
   * the vertical speed v0 - g*t is zero at t = jumpTimeToMaxHeight, and the
   * height v0*t - g*t^2/2 reached then is jumpMaxHeight.
   */
  lemma ApexAtMaxHeight(cfg: Config)
    requires cfg.jumpTimeToMaxHeight != 0.0
    ensures var k, t := DeriveJumpConstants(cfg), cfg.jumpTimeToMaxHeight;
      k.initialVelocity - k.gravity * t == 0.0 &&
      k.initialVelocity * t - k.gravity * t * t / 2.0 == cfg.jumpMaxHeight
  {
    var k, t, h := DeriveJumpConstants(cfg), cfg.jumpTimeToMaxHeight, cfg.jumpMaxHeight;
    assert k.gravity * t * t == 2.0 * h;
    assert k.initialVelocity * t == 2.0 * h;
    calc {
      (k.initialVelocity - k.gravity * t) * t;
      k.initialVelocity * t - k.gravity * t * t;
      0.0;
    }
    assert k.initialVelocity - k.gravity * t == 0.0;
  }

  /** With the shipped height 4 and time 0.5: g = 32, v0 = 16, finishing gravity 96. */
  lemma DefaultConstants()
    ensures DeriveJumpConstants(DEFAULTS) == JumpConstants(32.0, 96.0, 16.0)
  {
  }
}
