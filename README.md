# PlayerController2D — a Dafny model of the movement-resolution core

`PlayerController2D` is a kinematic 2D platformer controller. Each frame it
integrates the horizontal and vertical speeds into a tentative move, refreshes
nine ray origins on the bounding box of the character, and corrects the move
with three probes in a fixed order: the downward probe (grounded and slope
state, snap onto the ground), the side probe while running (wall bumps), and
the upward probe while ascending (ceiling bumps, one-way platforms exempt).
It then reconciles the jump budget and adds the move to the position.

The model has two layers:

- pure modules, one per component, whose functions state what each step
  computes and whose lemmas state the properties the controller promises:
  `Settings` (tuning and the jump constants derived in `Start`), `Speed`
  (horizontal speed integration), `JumpBudget` (the jump events and the
  reconciliation after probing), `Corners` (the nine ray origins), `Ground`,
  `Ceiling` and `Sides` (the three probes) and `Movement` (the probes in
  their order);
- the class `Controller.PlayerController2D`, which keeps the component's
  fields and updates them in place, method by method as the component does.
  Each probe and jump method is proved to leave exactly the state a function
  of the pure layer computes. `Update`, `Move` and `Advance` state every field
  they change: the target speed, direction, running and button flags
  directly, and the position, speeds, jump state, anchors and probe flags
  through `Movement.AfterButtons` and the frame outcome `Movement.Commit`,
  which they also return as a ghost result.

Raycasts are inputs: each probe point receives an `Option<Hit>`, where a hit
carries its point, the angle `Vector2.Angle` would return for its normal and
whether the collider is a one-way platform. The collider size, the input axis,
the jump button edges and the frame time are parameters. Numbers are `real`.
`Mathf.Sign` is modelled as Unity defines it: 1 for zero.

Behaviours of the code that are easy to misread, reproduced as written:

- A downward ray that misses clears only that point's grounded flag; the
  point's slope and non-walkable-slope flags keep their values from an
  earlier frame (`Ground.ClassifyPoint`).
- The ceiling and side clamps take the minimum (maximum) over the heights
  (reaches) of all three hits, including hits that do not bump by themselves,
  such as a one-way platform or a walkable incline
  (`Ceiling.OneWayHitClampsBesideBump`, `Sides.ShallowHitClampsBesideBump`).
- The side clamp stops the leading edge on the raw hit point, not on the hit
  point less `groundOffsetX` (`Sides.StopsAtWall`).
- Pressing jump with the budget used up is not a no-op: when grounded it
  resets the jump count to 0 (`JumpBudget.AfterJump`).
- The top ray origins are built with the bottom-row insets
  (`rayBottomOffsetX/Y`), while the upward probe adds back `rayTopOffsetY`
  (`Corners.Refresh`, `Ceiling.NextTop`).
- On a non-walkable slope the side clamp only applies after a bump: a side
  probe that does not bump keeps the horizontal move even there (`Sides.Probe`).
- Flags are not all recomputed every frame: the side anchors and side flags
  are kept while not running, the ceiling flags while not ascending.
- With `jumpMaxCount = 0` the count can reach 1 (`JumpBudget.ZeroCapFallExceedsCap`),
  so the bound `0 <= jumpCount <= jumpMaxCount` holds only for a cap of at
  least one (`JumpBudget.EventsKeepCap`); the class keeps the weaker
  `JumpBudget.InBudget` that holds for every cap.

The swapped variable names of `ProbeUpward` (the left hit height is stored in
`topPositionR`, the right in `topPositionC`, the centre in `topPositionL`) are
reproduced in `Controller.PlayerController2D.ProbeUpward`; its proof against
`Ceiling.Probe`, which uses the heights in their own places, shows the swap
does not change the result.

## Model

| member | source | states |
|---|---|---|
| `Settings.DeriveJumpConstants` | Assets/Scripts/PlayerController2D.cs:133-136 | gravity·t² = 2h and v0·t = 2h (projectile formulas g = 2h/t², v0 = 2h/t); the finishing gravity is gravity times the multiplier |
| `Settings.ApexAtMaxHeight` | Assets/Scripts/PlayerController2D.cs:133-136 | launched at v0 under g, the vertical speed is zero at t = jumpTimeToMaxHeight and the height reached then is jumpMaxHeight |
| `Settings.DefaultConstants` | Assets/Scripts/PlayerController2D.cs:22-28 | with the shipped tuning (h = 4, t = 0.5, multiplier 3): g = 32, v0 = 16, finishing gravity 96 |
| `UnityMath.Sign` | Assets/Scripts/PlayerController2D.cs:174 | Mathf.Sign is ±1, and 1 exactly for non-negative arguments (so 1 for zero) |
| `UnityMath.Max4` | Assets/Scripts/PlayerController2D.cs:383 | Mathf.Max of four values is one of them and at least each of them |
| `UnityMath.Min4` | Assets/Scripts/PlayerController2D.cs:458 | Mathf.Min of four values is one of them and at most each of them |
| `Speed.NextSpeedX` | Assets/Scripts/PlayerController2D.cs:172-183 | at the target the speed is unchanged; otherwise the result is the target or exactly one step of acceleration·dt toward it; with a non-negative step it lies between the old speed and the target |
| `Speed.NextSpeedY` | Assets/Scripts/PlayerController2D.cs:185-197 | grounded and not ascending gives 0; otherwise speed − gravity·dt; with non-negative gravity·dt it never exceeds the larger of the old speed and 0 |
| `Speed.ApproachesTarget` | Assets/Scripts/PlayerController2D.cs:172-183 | the new horizontal speed lies between the old speed and the target, changes by at most acceleration·dt, is unchanged when already at the target, lands on the target when it is within one step and is exactly one step further otherwise |
| `Speed.StaysWithinWalkSpeed` | Assets/Scripts/PlayerController2D.cs:156-157 | with the axis in [-1, 1], a speed within ±maxWalkSpeed stays within ±maxWalkSpeed |
| `JumpBudget.AfterJump` | Assets/Scripts/PlayerController2D.cs:232-246 | below the cap: speed v0, rising gravity, count + 1, jumping, not grounded, not on a slope; at or above the cap: speed, gravity and flags unchanged and the count reset to 0 only when grounded |
| `JumpBudget.AfterStopJump` | Assets/Scripts/PlayerController2D.cs:248-253 | only the gravity changes, and only to the finishing gravity while jumping |
| `JumpBudget.AfterProbing` | Assets/Scripts/PlayerController2D.cs:216-225 | grounded or on a slope: count 0, rising gravity, not jumping; otherwise falling without having jumped, with count 0 and no double jump while falling, sets the count to 1; nothing else changes |
| `JumpBudget.EventsKeepBudget` | Assets/Scripts/PlayerController2D.cs:217-245 | jump, release and reconciliation keep the count non-negative and within the cap or at most 1, for every cap |
| `JumpBudget.EventsKeepCap` | Assets/Scripts/PlayerController2D.cs:217-245 | with a cap of at least one, the three events keep 0 ≤ count ≤ cap |
| `JumpBudget.ZeroCapFallExceedsCap` | Assets/Scripts/PlayerController2D.cs:223-224 | with cap 0, falling off a ledge sets the count to 1, above the cap |
| `JumpBudget.AirJumps` | Assets/Scripts/PlayerController2D.cs:235-241 | in the air, n presses leave the count at min(count + n, cap): exactly cap − count more jumps succeed |
| `JumpBudget.FallingOffLedge` | Assets/Scripts/PlayerController2D.cs:223-224 | falling without jumping records one jump, so a later press succeeds exactly when the cap is at least 2 |
| `JumpBudget.JumpFromRest` | Assets/Scripts/PlayerController2D.cs:232-241 | with the shipped tuning a jump from rest on flat ground sets the vertical speed to 16 and the count to 1 |
| `Corners.Refresh` | Assets/Scripts/PlayerController2D.cs:564-611 | bottom origins on one line the bottom inset above the bottom edge, centred on the body; top origins straight above them, mirrored about the centre (built with the bottom insets); side origins on the leading edge, inset inwards, only while running, otherwise the previous ones |
| `Ground.ClassifyPoint` | Assets/Scripts/PlayerController2D.cs:264-296 | a hit grounds the point exactly when hitY + groundOffsetY exceeds the tentative bottom or the body was on a slope, and classifies sloped / non-walkable from the angle; a miss clears only the grounded flag |
| `Ground.Classify` | Assets/Scripts/PlayerController2D.cs:259-368 | grounded is the disjunction of L, R, C; onSlope is grounded and the previous frame's aboveSlope; the new aboveSlope is the L/R tie-break; non-walkable is the disjunction; all rays missing means not grounded |
| `Ground.SnapBottom` | Assets/Scripts/PlayerController2D.cs:370-384 | off a slope the bottom edge is the highest of the tentative bottom and the hits (never below any hit, never below the tentative bottom); on a slope it is L or R when sloped and more than groundSlopeOffsetY above C, else C |
| `Ground.Probe` | Assets/Scripts/PlayerController2D.cs:257-389 | the flags are `Classify`'s, the resolved bottom is `SnapBottom`'s; all rays missing keeps the vertical move; off a slope the vertical move never decreases |
| `Ground.LandsExactlyOnFlatGround` | Assets/Scripts/PlayerController2D.cs:285-386 | reaching level ground grounds all three points and puts the bottom edge exactly on the ground, for any approach speed and whether or not a slope was seen last frame (the slope state is then last frame's candidate) |
| `Ground.SnapsToHighestContact` | Assets/Scripts/PlayerController2D.cs:382-386 | without a slope last frame, the bottom edge ends on the maximum of the tentative bottom and the three hit heights |
| `Ceiling.Blocks` | Assets/Scripts/PlayerController2D.cs:405 | a top point that blocks has a hit, and that hit is not a one-way platform |
| `Ceiling.Probe` | Assets/Scripts/PlayerController2D.cs:391-463 | a point bumps iff it hits a non-one-way surface with hitY − groundOffsetY below the tentative top; no bump keeps move and speed; a bump zeroes the vertical speed, never raises the move and keeps the top edge at or below every hit, at the minimum of the tentative top and the hit heights |
| `Ceiling.OneWayPlatformsNeverBlock` | Assets/Scripts/PlayerController2D.cs:405-462 | with only one-way platforms (or nothing) above, nothing bumps and the move and speed are kept |
| `Ceiling.OneWayHitClampsBesideBump` | Assets/Scripts/PlayerController2D.cs:455-459 | when a solid ceiling bumps, a lower one-way platform hit that does not bump still decides where the top edge stops |
| `Sides.Bumps` | Assets/Scripts/PlayerController2D.cs:477-492 | a side point bumps iff it has a hit that the move crosses (hit less groundOffsetX, in the direction of travel) and whose surface angle (angle − 90) exceeds maxSlopeAngle |
| `Sides.Classify` | Assets/Scripts/PlayerController2D.cs:477-540 | per-point bump flags and their disjunction; all rays missing means no bump |
| `Sides.ClampedEdge` | Assets/Scripts/PlayerController2D.cs:547-556 | on a non-walkable slope the edge stays at the current position; otherwise, moving right, it is at most the tentative edge and no further right than any hit; moving left, symmetric |
| `Sides.Probe` | Assets/Scripts/PlayerController2D.cs:465-562 | no bump keeps the horizontal move and speed; a bump zeroes the speed and clamps the edge; moving right the move never grows, moving left it never shrinks; a bump on a non-walkable slope makes the move exactly 0 |
| `Sides.WalkableInclinesNeverBlock` | Assets/Scripts/PlayerController2D.cs:487 | inclines no steeper than maxSlopeAngle never bump, however close: move and speed kept |
| `Sides.StopsAtWall` | Assets/Scripts/PlayerController2D.cs:543-559 | walking into a steep wall the move reaches, in either direction, seen by the centre ray alone or by the top and bottom rays too, zeroes the speed and stops the leading edge exactly on the contact point |
| `Sides.ShallowHitClampsBesideBump` | Assets/Scripts/PlayerController2D.cs:549 | walking right into a wall, a nearer walkable incline hit that does not bump still decides where the edge stops |
| `Movement.ResolveMove` | Assets/Scripts/PlayerController2D.cs:201-214 | down first; sides only while running, told the ground probe's non-walkable flag; up only while ascending; a probe that does not run leaves its flags; nothing in range keeps the tentative move and speeds and leaves the body ungrounded |
| `Movement.AfterButtons` | Assets/Scripts/PlayerController2D.cs:141-153 | a press applies `AfterJump`, then a release applies `AfterStopJump` only with hold-to-jump-higher; the jump budget is kept |
| `Movement.Commit` | Assets/Scripts/PlayerController2D.cs:164-228 | the rest of a frame once the move is known: the anchors are refreshed, the probes run, the position grows by the resolved move and the jump state is reconciled; grounded implies a fresh jump budget with rising gravity, on a slope implies grounded, the horizontal speed is kept or zeroed, and with nothing in range the body moves by the tentative move with its speeds and is not grounded |
| `Movement.RestsOnContacts` | Assets/Scripts/PlayerController2D.cs:204-214 | not ascending and not on a slope, the bottom edge after the frame is at or above every downward hit |
| `Movement.PassesUpThroughOneWayPlatforms` | Assets/Scripts/PlayerController2D.cs:211-214 | under one-way platforms only, the upward probe never blocks: the vertical move and speed are those the ground probe left |
| `Controller.PlayerController2D.Start` | Assets/Scripts/PlayerController2D.cs:130-137 | the tuning, collider size and position are stored, the jump constants are derived from the tuning, gravity starts in the rising regime, the count at 0, the speeds and direction at 0, the anchors unset, every flag cleared, and the class invariant holds |
| `Controller.PlayerController2D.Update` | Assets/Scripts/PlayerController2D.cs:139-168 | one frame keeps the class invariant, sets the target speed to axis·maxWalkSpeed and the direction to Sign(target − old speed), running to moveX ≠ 0 and the button flags as `ReadJumpButton`; the button events leave the jump state `AfterButtons`, the speeds are integrated by `NextSpeedX`/`NextSpeedY`, the move is speed·dt, and the jump state, position, horizontal speed, anchors and all probe flags become those of `Movement.Commit`; with nothing in range the body moves by the integrated speeds and is not grounded |
| `Controller.PlayerController2D.Move` | Assets/Scripts/PlayerController2D.cs:155-167 | the speed integration and the rest of the frame: the move is the integrated speed·dt, the direction is Sign(target − old speed), running is moveX ≠ 0, and the new state is `Movement.Commit`'s; the horizontal speed is the stepped one or 0; with nothing in range the body moves by the integrated speeds and is not grounded |
| `Controller.PlayerController2D.ReadJumpButton` | Assets/Scripts/PlayerController2D.cs:141-153 | a press applies `AfterJump`, then a release applies `AfterStopJump` only when hold-to-jump-higher is on; the pressed flag records the press, the released flag is read only with hold-to-jump-higher; no other ground flag changes |
| `Controller.PlayerController2D.IntegrateSpeeds` | Assets/Scripts/PlayerController2D.cs:155-162 | both speeds are integrated, the direction is Sign(target − old speed), and the tentative move is speed·dt on each axis |
| `Controller.PlayerController2D.WalkStep` | Assets/Scripts/PlayerController2D.cs:156-157 | the target speed is axis·maxWalkSpeed, the direction is Sign(target − old speed), and the speed steps toward it, staying within ±maxWalkSpeed |
| `Controller.PlayerController2D.Advance` | Assets/Scripts/PlayerController2D.cs:164-167 | running is moveX ≠ 0, the anchors are refreshed from the position before the move, and jump state, position, horizontal speed, anchors and probe flags become those of `Movement.Commit`; the horizontal speed is kept or zeroed; with nothing in range the body moves by the move with its speeds kept and is not grounded |
| `Controller.PlayerController2D.GetCurrentSpeedX` | Assets/Scripts/PlayerController2D.cs:172-183 | writes movementDir = Sign(target − speed) and returns `Speed.NextSpeedX` |
| `Controller.PlayerController2D.GetCurrentSpeedY` | Assets/Scripts/PlayerController2D.cs:185-197 | 0 when grounded and not ascending, speed − gravity·dt otherwise |
| `Controller.PlayerController2D.TryToMove` | Assets/Scripts/PlayerController2D.cs:201-228 | flags, speeds and position follow `Movement.ResolveMove`, the position grows by the resolved move, the jump state follows `AfterProbing`, the invariant is kept, the horizontal speed is kept or zeroed |
| `Controller.PlayerController2D.ProbeAll` | Assets/Scripts/PlayerController2D.cs:203-214 | the three probe methods in their order compute exactly `Movement.ResolveMove`; on a slope implies grounded |
| `Controller.PlayerController2D.UpdateJumpStatus` | Assets/Scripts/PlayerController2D.cs:216-225 | the jump state becomes `AfterProbing` of the old one and stays in the budget |
| `Controller.PlayerController2D.Jump` | Assets/Scripts/PlayerController2D.cs:232-246 | the jump state becomes `AfterJump` of the old one, the invariant is kept and no other ground flag changes |
| `Controller.PlayerController2D.StopJump` | Assets/Scripts/PlayerController2D.cs:248-253 | the jump state becomes `AfterStopJump` of the old one |
| `Controller.PlayerController2D.ProbeBottomPoint` | Assets/Scripts/PlayerController2D.cs:264-296 | one bottom ray updates the point's flags as `Ground.ClassifyPoint` and reports the hit height or the tentative bottom |
| `Controller.PlayerController2D.SnapBottomPosition` | Assets/Scripts/PlayerController2D.cs:370-384 | the snap branches compute `Ground.SnapBottom` |
| `Controller.PlayerController2D.ProbeDownward` | Assets/Scripts/PlayerController2D.cs:257-389 | the ground flags and vertical move become those of `Ground.Probe`; the horizontal move is untouched |
| `Controller.PlayerController2D.ProbeTopPoint` | Assets/Scripts/PlayerController2D.cs:398-414 | one top ray bumps as `Ceiling.Blocks` and reports the hit height or the tentative top |
| `Controller.PlayerController2D.ProbeUpward` | Assets/Scripts/PlayerController2D.cs:391-463 | with the swapped height variables, flags, vertical speed and move become those of `Ceiling.Probe`; the horizontal move is untouched |
| `Controller.PlayerController2D.ProbeSidePoint` | Assets/Scripts/PlayerController2D.cs:477-496 | one side ray bumps as `Sides.Bumps` and reports the hit abscissa or the tentative edge |
| `Controller.PlayerController2D.ClampSidePosition` | Assets/Scripts/PlayerController2D.cs:543-556 | the clamp branches compute `Sides.ClampedEdge` |
| `Controller.PlayerController2D.ProbeSides` | Assets/Scripts/PlayerController2D.cs:465-562 | flags, horizontal speed and move become those of `Sides.Probe`; the vertical move is untouched |
| `Controller.PlayerController2D.UpdateCornerPosition` | Assets/Scripts/PlayerController2D.cs:564-611 | the nine origins become `Corners.Refresh` of the current position, keeping the side ones while not running |

## Left out

- `Physics.Raycast`, `Vector2.Angle`, `GetComponent<OneWayPlatform>()` and `GetComponent<Collider>().bounds` are engine calls: each ray's outcome is an `Option<Hit>` input with its point, its precomputed angle and a one-way flag, and the collider size is a parameter of `Start`. A missing collider (the engine's failure at start-up) is therefore not modelled.
- `Input.GetButtonDown/Up`, `Input.GetAxisRaw` and `Time.deltaTime` are parameters of `Update`.
- `Debug.DrawRay` calls and the debug line lifetime: visualisation only.
- The `MonoBehaviour` lifecycle (when Unity calls `Start` and `Update`) and `transform` as an engine object: the position is two `real` fields and its z coordinate, never changed, is dropped; the unused field `amountTomve` is dropped.
- Single-precision float rounding: all arithmetic is on `real`.
- Controller.PlayerController2D.Start: requires a non-zero `jumpTimeToMaxHeight`, because with zero the float division yields an infinity that `real` cannot represent.
- Controller.PlayerController2D.TryToMove: the class invariant keeps `JumpBudget.InBudget` (count at most the cap, or at most 1) rather than `jumpCount <= jumpMaxCount`, because with `jumpMaxCount = 0` the coyote rule sets the count to 1.
- Assets/Scripts/FollowCamera.cs is not part of this model: a camera that lerps toward the character, with no movement logic.
