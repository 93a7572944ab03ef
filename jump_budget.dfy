/**
 * The jump budget: how many jumps have been used since the character last
 * stood on the ground, the rising or finishing gravity regime, and the three
 * events that change them.
 */
module JumpBudget {
  import opened Settings

  /** The part of the controller's state the jump events read and write. */
  datatype JumpState = JumpState(
    count: int,
    jumping: bool,
    gravity: real,
    speedY: real,
    grounded: bool,
    onSlope: bool)

  /**
   * The jump count stays in the budget: never negative, and never above the
   * cap, except that falling without jumping records one jump even when the
   * cap is below one.
   */
  predicate InBudget(count: int, cap: int) {
    0 <= count && (count <= cap || count <= 1)
  }

  /** The jump button was pressed. */
  function AfterJump(s: JumpState, k: JumpConstants, cap: int): (r: JumpState)
    ensures s.count < cap ==>
      r == JumpState(s.count + 1, true, k.gravity, k.initialVelocity, false, false)
    ensures s.count >= cap ==>
      r.speedY == s.speedY && r.gravity == s.gravity && r.jumping == s.jumping &&
      r.grounded == s.grounded && r.onSlope == s.onSlope
    ensures s.count >= cap ==> r.count == (if s.grounded then 0 else s.count)
  {
    if s.count < cap then
      s.(jumping := true, gravity := k.gravity, grounded := false, onSlope := false,
         speedY := k.initialVelocity, count := s.count + 1)
    else if s.grounded then
      s.(count := 0)
    else
      s
  }

  /** The jump button was released (only reached when hold-to-jump-higher is on). */
  function AfterStopJump(s: JumpState, k: JumpConstants): (r: JumpState)
    ensures r.gravity == (if s.jumping then k.finishGravity else s.gravity)
    ensures r.(gravity := s.gravity) == s
  {
    if s.jumping then s.(gravity := k.finishGravity) else s
  }

  /**
   * The reconciliation after the probes: touching the ground or a slope
   * restores the whole budget and the rising gravity; starting to fall
   * without having jumped uses up the first jump, unless double jumps are
   * allowed while falling.
   */
  function AfterProbing(s: JumpState, k: JumpConstants, allowDoubleJumpWhenFalling: bool): (r: JumpState)
    ensures s.grounded || s.onSlope ==> r == s.(count := 0, gravity := k.gravity, jumping := false)
    ensures !(s.grounded || s.onSlope) ==>
      r == (if s.speedY < 0.0 && !s.jumping && s.count == 0 && !allowDoubleJumpWhenFalling
            then s.(count := 1) else s)
  {
    if s.grounded || s.onSlope then
      s.(count := 0, gravity := k.gravity, jumping := false)
    else if s.speedY < 0.0 && !s.jumping && s.count == 0 && !allowDoubleJumpWhenFalling then
      s.(count := 1)
    else
      s
  }

  /** Each of the three events keeps the count in the budget, whatever the cap. */
  lemma EventsKeepBudget(s: JumpState, k: JumpConstants, cap: int, allowDouble: bool)
    requires InBudget(s.count, cap)
    ensures InBudget(AfterJump(s, k, cap).count, cap)
    ensures InBudget(AfterStopJump(s, k).count, cap)
    ensures InBudget(AfterProbing(s, k, allowDouble).count, cap)
  {
  }

  /** With a cap of at least one the exact bound 0 <= count <= cap is kept. */
  lemma EventsKeepCap(s: JumpState, k: JumpConstants, cap: int, allowDouble: bool)
    requires cap >= 1 && 0 <= s.count <= cap
    ensures 0 <= AfterJump(s, k, cap).count <= cap
    ensures 0 <= AfterStopJump(s, k).count <= cap
    ensures 0 <= AfterProbing(s, k, allowDouble).count <= cap
  {
  }

  /**
   * With a cap of zero the exact bound does not hold: falling off a ledge
   * records one jump.
   */
  lemma ZeroCapFallExceedsCap(k: JumpConstants)
    ensures AfterProbing(JumpState(0, false, k.gravity, -1.0, false, false), k, false).count == 1
  {
  }

  /** `n` presses of the jump button with no frames in between. */
  function Presses(s: JumpState, k: JumpConstants, cap: int, n: nat): JumpState
    decreases n
  {
    if n == 0 then s else Presses(AfterJump(s, k, cap), k, cap, n - 1)
  }

  /**
   * In the air, with count jumps used, the character gets exactly cap - count
   * more jumps: n presses leave the count at min(count + n, cap), and the
   * character is jumping afterwards exactly when it was or one press succeeded.
   */
  lemma {:induction false} AirJumps(s: JumpState, k: JumpConstants, cap: int, n: nat)
    requires !s.grounded && 0 <= s.count <= cap
    ensures var r := Presses(s, k, cap, n);
      && r.count == (if s.count + n <= cap then s.count + n else cap)
      && r.jumping == (s.jumping || (n > 0 && s.count < cap))
      && !r.grounded
    decreases n
  {
    if n > 0 {
      AirJumps(AfterJump(s, k, cap), k, cap, n - 1);
    }
  }

  /**
   * Walking off a ledge without jumping (double jumps while falling not
   * allowed) records one jump as soon as the speed turns negative, so a jump
   * pressed after that succeeds exactly when the cap is at least two.
   */
  lemma FallingOffLedge(k: JumpConstants, cap: int, gravity: real, speedY: real)
    requires speedY < 0.0
    ensures var fallen := AfterProbing(JumpState(0, false, gravity, speedY, false, false), k, false);
      var pressed := AfterJump(fallen, k, cap);
      && fallen.count == 1
      && (pressed.jumping <==> cap >= 2)
      && (pressed.count == 2 <==> cap >= 2)
  {
  }

  /**
   * With the shipped tuning (h = 4, t = 0.5, cap 2), a jump from rest on
   * flat ground launches at 16 and uses one jump.
   */
  lemma JumpFromRest()
    ensures var k := DeriveJumpConstants(DEFAULTS);
      var r := AfterJump(JumpState(0, false, k.gravity, 0.0, true, false), k, DEFAULTS.jumpMaxCount);
      r.speedY == 16.0 && r.count == 1 && r.gravity == 32.0 && r.jumping && !r.grounded
  {
    DefaultConstants();
  }
}
