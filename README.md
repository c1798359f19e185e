# PlayerMovement3D in Dafny

A model of the discrete control logic of `PlayerMovement3D`, the physics-driven
first-person movement controller of this Unity client. Each frame, `Update`
turns the move input into a world-space direction, classifies the ground under
the body from a sphere cast and sets the body's damping and gravity flag by a
three-phase state machine. Each fixed step, `FixedUpdate` adds the movement
force, the air-drag counter-force and the extra gravity. Input callbacks set the
move input and sprint flag and trigger the jump.

The project has four modules:

- `Vectors` (vectors.dfy): 2D and 3D vectors and the yaw rotation of the move input.
- `Kinematics` (kinematics.dfy): the drag-compensation multiplier and the jump
  launch speed, each with the physical property it was designed for. These are
  stated in exact real arithmetic.
- `Motion` (motion.dfy): every controller method as a function on a value
  `State`, which holds the controller's fields and the rigid body. `Update` and
  `FixedUpdate` compose these functions in the source's order. `Step` and `Run`
  drive them with a trace of host events. `Inv` is proved to hold in every
  reachable state.
- `PlayerMovement` (player_movement_3d.dfy): the component as a class.
  `PlayerMovement3D` has the source's fields and methods. `RigidBody` holds the
  damping, the gravity flag, the velocities and a ghost log of `AddForce` calls.
  Each method ensures `Snapshot() == Motion.X(old(Snapshot()), ...)`. The entry
  points the host calls (`Update`, `FixedUpdate`, `HandleInputAction`) keep
  `Valid()`, which is `world.Valid() && Motion.Inv(cfg, Snapshot())`.

The host supplies the results of the engine's foreign calls as parameters:

- the sphere cast's hit flag;
- `Vector3.Angle(up, normal)`;
- the cosine and sine of the facing yaw;
- whether `ProjectOnPlane(moveDirection, normal)` has a positive y;
- `Mathf.Sqrt`, as a function `real -> real` injected into the component;
- `|Physics.gravity|` and `Time.fixedDeltaTime`.

The engine integrates the body. In the trace model this is the `Integrate`
event, which sets the vertical velocity and the horizontal speed.

The code computes `onSteepSlope` from the hit normal even when the cast misses
(Assets/Scripts/PlayerMovement3D.cs:132). The model takes the angle from the
caller, so with a maximum slope angle of 0 a miss with angle 0 counts as steep.

## Model

| member | source | states |
|---|---|---|
| Vectors.RotateAboutUp | Assets/Scripts/PlayerMovement3D.cs:118-124 | the move direction has zero vertical component and, for a valid yaw, the horizontal length of the input |
| Vectors.RotateAboutUpInverse | Assets/Scripts/PlayerMovement3D.cs:121-123 | rotating the move direction back by the opposite yaw gives (x, 0, y) of the input |
| Kinematics.DragMultiplier | Assets/Scripts/PlayerMovement3D.cs:176-177 | d / ((f - d) / f) divides by zero exactly when d == f; otherwise m * (f - d) == d * f; it is 0 when d is 0 |
| Kinematics.DragCompensationShrinksGap | Assets/Scripts/PlayerMovement3D.cs:175-180 | under the compensated acceleration and damping law v' = (v + a/f)(1 - d/f), the gap to the target speed shrinks by exactly 1 - d/f per step |
| Kinematics.DragCompensationHoldsSpeed | Assets/Scripts/PlayerMovement3D.cs:175-180 | the target speed is a fixed point of the compensated step for every damping d != f |
| Kinematics.LaunchSpeedReachesHeight | Assets/Scripts/PlayerMovement3D.cs:222-224 | a launch speed v with v*v == 2*a*h stops rising at t = v/a at height h, and no time is higher |
| Motion.World.FixedTimestepFrequency | Assets/Scripts/PlayerMovement3D.cs:176 | 1 / fixedDeltaTime is positive and is the reciprocal of the step |
| Motion.ConvertMoveInputDirection | Assets/Scripts/PlayerMovement3D.cs:118-124 | only the move direction changes; it is horizontal and keeps the input's length |
| Motion.PhaseOf | Assets/Scripts/PlayerMovement3D.cs:138-160 | airborne iff not grounded; jump startup iff grounded and in jump startup; stable iff grounded and not in jump startup |
| Motion.Classify | Assets/Scripts/PlayerMovement3D.cs:132-133 | grounded iff hit and angle < max slope; steep iff angle >= max slope; never both |
| Motion.CheckGround | Assets/Scripts/PlayerMovement3D.cs:126-134 | only the two ground flags change; they exclude each other; grounded iff hit and angle < max slope |
| Motion.HandleDamping | Assets/Scripts/PlayerMovement3D.cs:136-162 | per phase: stable gets grounded damping and gravity = steep flag with jump startup kept; jump startup gets damping 0, gravity iff vy > -terminal, flag kept true; airborne gets damping 0, the same gravity rule, flag cleared; nothing else changes and the flag is never set |
| Motion.Update | Assets/Scripts/PlayerMovement3D.cs:72-77 | after a frame tick the move direction is the rotated input; input, sprint flag, effective speed, velocities and forces stay; steep iff angle >= max slope and grounded iff hit and not steep; jump startup survives only while grounded; standing grounded means grounded damping with gravity off, otherwise damping 0 with gravity iff above terminal fall speed |
| Motion.SelectSpeed | Assets/Scripts/PlayerMovement3D.cs:173 | the sprint speed while sprint is held, the base speed otherwise |
| Motion.GroundMoveForce | Assets/Scripts/PlayerMovement3D.cs:176-180 | a ground force at the given speed; non-finite iff the damping equals the fixed-step frequency; otherwise its multiplier solves m(f - d) = d f, and is 0 when d is 0 |
| Motion.ApplyMovementForce | Assets/Scripts/PlayerMovement3D.cs:164-200 | exactly one force is added; a ground force iff grounded, with the sprint or base speed and a multiplier solving m(f - d) = d f, non-finite iff d == f; the slope-redirected force iff airborne, steep and rising; the plain air force otherwise; the effective speed kept when airborne |
| Motion.GroundMoveHoldsEffectiveSpeed | Assets/Scripts/PlayerMovement3D.cs:167-180 | along a projected move direction of length len, the grounded movement force alone keeps a body moving at chosen speed * len at that speed through one damped step |
| Motion.ApplyAirDrag | Assets/Scripts/PlayerMovement3D.cs:202-211 | the counter-force is added iff horizontal speed >= effective speed, otherwise nothing changes |
| Motion.ExtraGravityFor | Assets/Scripts/PlayerMovement3D.cs:216 | with the engine's gravity the net downward acceleration is gravityMultiplier * abs(g) |
| Motion.ApplyGravityMultiplier | Assets/Scripts/PlayerMovement3D.cs:213-217 | no force when gravity is off; otherwise one downward force making the net acceleration gravityMultiplier * abs(g) |
| Motion.FixedUpdate | Assets/Scripts/PlayerMovement3D.cs:79-84 | flags, damping and gravity flag are unchanged; the movement force comes first; the air drag follows iff the horizontal speed reaches the speed the movement step has just chosen; the extra gravity comes last iff gravity is on; nothing else is added |
| Motion.GroundedAtSpeedGetsAirDrag | Assets/Scripts/PlayerMovement3D.cs:79-84 | a grounded body at or above the chosen speed gets the air-drag counter-force right after the ground force in the same fixed tick; for 0 <= d < f and positive speed and air control, the two together take a body at the chosen speed below it through one damped step |
| Kinematics.CounterForceSlowsCompensatedBody | Assets/Scripts/PlayerMovement3D.cs:175-180 | the compensated acceleration minus speed * air loses exactly speed * air / f * (1 - d/f) per step, so a body at the target speed ends below it |
| Motion.Jump | Assets/Scripts/PlayerMovement3D.cs:219-227 | not grounded: nothing changes; grounded: jump startup is set and exactly one upward impulse of the host's square root of 2 * gravityMultiplier * abs(g) * jumpHeight is added, whatever the sign; where that root is a true root, the impulse v has v*v equal to the radicand |
| Motion.JumpReachesJumpHeight | Assets/Scripts/PlayerMovement3D.cs:222-226 | where the host's root is a true root, the impulse a grounded jump adds peaks exactly at jumpHeight under the scaled gravity |
| Motion.HandleInputAction | Assets/Scripts/PlayerMovement3D.cs:94-116 | Move writes only the move input, Sprint only the sprint flag, a performed Jump calls Jump, anything else changes nothing |
| Motion.Step | Assets/Scripts/PlayerMovement3D.cs:62-84 | jump startup is cleared only by a frame tick that ends airborne, and set only by a Jump callback while grounded, which logs its impulse |
| Motion.HandleInputActionPreservesInv | Assets/Scripts/PlayerMovement3D.cs:94-116 | an input callback keeps the reachable-state invariant |
| Motion.UpdatePreservesInv | Assets/Scripts/PlayerMovement3D.cs:72-77 | a frame tick keeps the reachable-state invariant |
| Motion.FixedUpdatePreservesInv | Assets/Scripts/PlayerMovement3D.cs:79-84 | a fixed tick keeps the reachable-state invariant |
| Motion.StepPreservesInv | Assets/Scripts/PlayerMovement3D.cs:62-84 | every host event keeps the reachable-state invariant |
| Motion.RunPreservesInv | Assets/Scripts/PlayerMovement3D.cs:62-84 | every trace of host events keeps the reachable-state invariant |
| Motion.InitialSatisfiesInv | Assets/Scripts/PlayerMovement3D.cs:38-50 | the fields' initial values satisfy the invariant on any body |
| Motion.ReachableStatesAreConsistent | Assets/Scripts/PlayerMovement3D.cs:126-162 | from the initial fields, no trace makes the body grounded and steep at once, or in jump startup while airborne |
| Motion.JumpStartupSuppressesGroundForce | Assets/Scripts/PlayerMovement3D.cs:136-180 | after a frame tick ending grounded in jump startup, the next ground force has drag multiplier 0 |
| PlayerMovement.PlayerMovement3D.constructor | Assets/Scripts/PlayerMovement3D.cs:38-60 | the rigid body, settings, engine globals and square root are injected; the fields take their C# defaults and the invariant holds |
| PlayerMovement.PlayerMovement3D.Update | Assets/Scripts/PlayerMovement3D.cs:72-77 | the new state is Motion.Update of the old one, and the invariant is kept |
| PlayerMovement.PlayerMovement3D.FixedUpdate | Assets/Scripts/PlayerMovement3D.cs:79-84 | the new state is Motion.FixedUpdate of the old one, and the invariant is kept |
| PlayerMovement.PlayerMovement3D.HandleInputAction | Assets/Scripts/PlayerMovement3D.cs:94-116 | the new state is Motion.HandleInputAction of the old one, and the invariant is kept |
| PlayerMovement.PlayerMovement3D.ConvertMoveInputDirection | Assets/Scripts/PlayerMovement3D.cs:118-124 | the new state is Motion.ConvertMoveInputDirection of the old one |
| PlayerMovement.PlayerMovement3D.CheckGround | Assets/Scripts/PlayerMovement3D.cs:126-134 | the new state is Motion.CheckGround of the old one |
| PlayerMovement.PlayerMovement3D.HandleDamping | Assets/Scripts/PlayerMovement3D.cs:136-162 | the new state is Motion.HandleDamping of the old one |
| PlayerMovement.PlayerMovement3D.ApplyMovementForce | Assets/Scripts/PlayerMovement3D.cs:164-200 | the new state is Motion.ApplyMovementForce of the old one |
| PlayerMovement.PlayerMovement3D.ApplyAirDrag | Assets/Scripts/PlayerMovement3D.cs:202-211 | the new state is Motion.ApplyAirDrag of the old one |
| PlayerMovement.PlayerMovement3D.ApplyGravityMultiplier | Assets/Scripts/PlayerMovement3D.cs:213-217 | the new state is Motion.ApplyGravityMultiplier of the old one |
| PlayerMovement.PlayerMovement3D.Jump | Assets/Scripts/PlayerMovement3D.cs:219-227 | the new state is Motion.Jump of the old one |

`Motion.Inv` says three things:

- `isGrounded` and `onSteepSlope` are never both true;
- `inJumpStartup` holds only while grounded, and only after some jump impulse is in the log;
- grounded outside jump startup means the grounded damping with gravity off.

## Left out

- Physics queries and vector math: `Physics.SphereCast`, `Vector3.Angle`, `ProjectOnPlane`, `Vector3.Cross`, `Mathf.Sin` and `Mathf.Sqrt` are foreign. Their results come in as parameters.
- Only the cosine and sine of the yaw come in. The controller's rotation by them is modelled.
- `AddForce` integration, and the resulting motion of the body, belong to the engine. Forces are logged. Velocities change only by the host's `Integrate` event.
- Motion.ApplyMovementForce: records the force's scalar factors and names its direction. The slope-projected vector and the slope-redirected vector of lines 186-188 are not computed. Only the branch condition is kept.
- Motion.ApplyAirDrag: the counter-force's direction (the reversed, normalized horizontal velocity) is named, not computed.
- Kinematics.DragCompensationShrinksGap: assumes the engine damps a step as v(1 - d/f) after adding the acceleration. Float rounding and the engine's clamp of that factor at 0 (d > f) are not modelled.
- Motion.GroundMoveHoldsEffectiveSpeed: the length len of `relativeSlopeMoveDirection` is a parameter. It is not computed from the stick and the ground normal.
- Motion.Jump: for a negative radicand `Mathf.Sqrt` returns NaN. The model logs whatever the host's function returns there, and the jump-height lemma does not apply.
- Floating point generally: all quantities are exact reals. Where the float code would divide by zero, the model logs `NonFiniteGroundMove` instead of an infinite or NaN force.
- The one-tick lag between the frame tick's cast and the fixed tick's use of its normal is not tracked. The fixed tick gets the projected direction's rise as a parameter.
- The `RaycastHit` record and the probe geometry: the probe radius, origin offset and `_groundedDistance` only shape the cast, so the model takes the cast's results instead.
- `GetReferences`, `Reset`, `Awake`, `OnEnable` and `OnDisable` are component lookup and event subscription. The constructor injects only the rigid body (with the settings, the engine globals and the square root). The capsule collider, the player input and the camera orientation become per-call parameters instead: the cast results, the `CallbackContext` and the yaw.
- Assets/Scripts/CanvasGroupController.cs, FirstPersonCamera.cs, Authentication.cs and BodyViewModel.cs are UI fades, camera and network wiring, and service sign-in. They are not part of this model.
- Steady-state convergence over many steps and the jump apex as float simulations are left out. The Kinematics lemmas state one exact step of each force on its own, and Motion.GroundedAtSpeedGetsAirDrag the step with the counter-force that joins the ground force at speed.
