/**
 * Speed integration: the horizontal speed accelerates toward the
 * input-derived target, the vertical speed falls under gravity.
 */
module Speed {
  import opened UnityMath

  /**
   * One frame of GetCurrentSpeedX: step toward `maxSpeed` by
   * acceleration*dt in the direction Sign(maxSpeed - speed), and land on
   * `maxSpeed` when the step would reach or cross it.
   */
  function NextSpeedX(speed: real, maxSpeed: real, acceleration: real, dt: real): (r: real)
    ensures speed == maxSpeed ==> r == speed
    ensures r == maxSpeed || r == speed + acceleration * dt * Sign(maxSpeed - speed)
    ensures acceleration * dt >= 0.0 ==> Min(speed, maxSpeed) <= r <= Max(speed, maxSpeed)
  {
    var dir := Sign(maxSpeed - speed);
    if speed != maxSpeed then
      var stepped := speed + acceleration * dt * dir;
      if dir == Sign(maxSpeed - stepped) then stepped else maxSpeed
    else
      speed
  }

  /**
   * The new speed lies between the old speed and the target, moves by at
   * most acceleration*dt, is the target once the target is within one step,
   * and is exactly one step further along otherwise.
   */
  lemma ApproachesTarget(speed: real, maxSpeed: real, acceleration: real, dt: real)
    requires acceleration * dt >= 0.0
    ensures var r := NextSpeedX(speed, maxSpeed, acceleration, dt);
      && Min(speed, maxSpeed) <= r <= Max(speed, maxSpeed)
      && Abs(r - speed) <= acceleration * dt
      && (speed == maxSpeed ==> r == speed)
      && (Abs(maxSpeed - speed) <= acceleration * dt ==> r == maxSpeed)
      && (Abs(maxSpeed - speed) > acceleration * dt ==> r == speed + acceleration * dt * Sign(maxSpeed - speed))
  {
    var step := acceleration * dt;
    var dir := Sign(maxSpeed - speed);
    if speed != maxSpeed {
      if dir == 1.0 {
        assert acceleration * dt * dir == step;
      } else {
        assert acceleration * dt * dir == -step;
      }
    }
  }

  /**
   * With the stick in [-1, 1] (so the target is axis*maxWalkSpeed) a speed
   * within [-maxWalkSpeed, maxWalkSpeed] stays there.
   */
  lemma StaysWithinWalkSpeed(speed: real, axis: real, maxWalkSpeed: real, acceleration: real, dt: real)
    requires -maxWalkSpeed <= speed <= maxWalkSpeed
    requires -1.0 <= axis <= 1.0
    requires acceleration * dt >= 0.0
    ensures -maxWalkSpeed <= NextSpeedX(speed, axis * maxWalkSpeed, acceleration, dt) <= maxWalkSpeed
  {
    assert -maxWalkSpeed <= axis * maxWalkSpeed <= maxWalkSpeed by {
      if axis >= 0.0 {
        assert axis * maxWalkSpeed <= 1.0 * maxWalkSpeed;
      } else {
        assert axis * maxWalkSpeed >= -1.0 * maxWalkSpeed;
      }
    }
    ApproachesTarget(speed, axis * maxWalkSpeed, acceleration, dt);
  }

  /** How far a body moving at `speed` travels in `dt`. */
  function Displacement(speed: real, dt: real): real {
    speed * dt
  }

  /**
   * One frame of GetCurrentSpeedY: a body resting on the ground (grounded and
   * not ascending) has no vertical speed; any other body loses gravity*dt.
   */
  function NextSpeedY(speed: real, gravity: real, grounded: bool, dt: real): (r: real)
    ensures grounded && speed <= 0.0 ==> r == 0.0
    ensures !(grounded && speed <= 0.0) ==> r == speed - gravity * dt
    ensures gravity * dt >= 0.0 ==> r <= Max(speed, 0.0)
  {
    if grounded && speed <= 0.0 then 0.0 else speed - gravity * dt
  }
}
