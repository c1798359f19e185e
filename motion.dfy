/** The discrete control logic of the player movement controller, as functions on
    a value view of its state: the controller's own fields and the rigid body it
    drives. Each function is one method of the controller; Update and FixedUpdate
    compose them in the source's order, and Step/Run drive them with a trace of
    host events. A reachable-state invariant is proved over every trace. */
module Motion {
  import opened Vectors
  import opened Kinematics

  /** The controller's serialized settings (the fields at
      Assets/Scripts/PlayerMovement3D.cs:19-36), minus
      _groundedDistance, which only sizes the sphere cast. */
  datatype Config = Config(
    baseMovementSpeed: real,
    sprintMovementSpeed: real,
    groundedLinearDamping: real,
    maxSlopeAngle: real,
    jumpHeight: real,
    airControlMultiplier: real,
    terminalVelocity: real,
    gravityMultiplier: real)

  /** Engine globals the controller reads: |Physics.gravity| and Time.fixedDeltaTime. */
  datatype World = World(gravity: real, fixedDeltaTime: real) {
    predicate Valid() {
      gravity >= 0.0 && fixedDeltaTime > 0.0
    }

    /** 1 / fixedDeltaTime, the number of fixed steps per second. */
    function FixedTimestepFrequency(): (f: real)
      requires Valid()
      ensures f > 0.0 && f * fixedDeltaTime == 1.0
    {
      1.0 / fixedDeltaTime
    }
  }

  /** One AddForce call on the rigid body, with the scalar factors the source
      multiplies; the directions are named, not computed. */
  datatype Force =
    // acceleration: speed * dragMultiplier times the move direction projected on the ground
    | GroundMove(speed: real, dragMultiplier: real)
    // the ground move force when the drag multiplier divides by zero
    | NonFiniteGroundMove(speed: real)
    // acceleration: speed * airControl times the move direction turned along the slope
    | SteepSlopeMove(speed: real, airControl: real)
    // acceleration: speed * airControl times the move direction
    | AirMove(speed: real, airControl: real)
    // acceleration: speed * airControl times the reversed horizontal velocity direction
    | AirDrag(speed: real, airControl: real)
    // acceleration: factor * gravity straight down
    | ExtraGravity(factor: real, gravity: real)
    // velocity change straight up
    | JumpImpulse(upward: real)

  /** The controller's fields. */
  datatype Controller = Controller(
    moveInput: Vec2,
    moveDirection: Vec3,
    effectiveMovementSpeed: real,
    isGrounded: bool,
    onSteepSlope: bool,
    inJumpStartup: bool,
    sprintPressed: bool)

  /** What the controller reads and writes of the rigid body, with the forces
      given to AddForce so far (their integration belongs to the engine). */
  datatype Body = Body(
    linearDamping: real,
    useGravity: bool,
    verticalVelocity: real,
    horizontalSpeed: real,
    forces: seq<Force>)

  datatype State = State(ctl: Controller, body: Body)

  /** The fields as C# initialises them, beside a given body. */
  function Initial(body: Body): State {
    State(Controller(Vec2(0.0, 0.0), Vec3(0.0, 0.0, 0.0), 0.0, false, false, false, false), body)
  }

  /** An input callback's context: the action's name, and the value read from it
      as a 2D vector, as a button, and whether the phase is "performed". */
  datatype CallbackContext = CallbackContext(
    actionName: string, vector: Vec2, button: bool, performed: bool)

  // ---------------------------------------------------------------------------
  // Frame tick: ConvertMoveInputDirection, CheckGround, HandleDamping

  /** ConvertMoveInputDirection: the move direction is the input rotated by the
      facing reference's yaw; nothing else changes. */
  function ConvertMoveInputDirection(s: State, yaw: Yaw): (r: State)
    ensures r == s.(ctl := r.ctl) && r.ctl == s.ctl.(moveDirection := r.ctl.moveDirection)
    ensures r.ctl.moveDirection.y == 0.0
    ensures yaw.Valid() ==>
      HorizontalLengthSquared(r.ctl.moveDirection)
      == s.ctl.moveInput.x * s.ctl.moveInput.x + s.ctl.moveInput.y * s.ctl.moveInput.y
  {
    s.(ctl := s.ctl.(moveDirection := RotateAboutUp(s.ctl.moveInput, yaw)))
  }

  /** The ground classification result. */
  datatype Ground = Ground(onSteepSlope: bool, isGrounded: bool)

  /** Steep when the contact's angle from up reaches the limit (whether or not the
      cast hit); grounded when the cast hit and the contact is not steep. */
  function Classify(castHit: bool, slopeAngle: real, maxSlopeAngle: real): (g: Ground)
    ensures g.isGrounded <==> castHit && slopeAngle < maxSlopeAngle
    ensures !(g.isGrounded && g.onSteepSlope)
    ensures !g.onSteepSlope <==> slopeAngle < maxSlopeAngle
  {
    var steep := slopeAngle >= maxSlopeAngle;
    Ground(steep, castHit && !steep)
  }

  /** CheckGround, given the sphere cast's hit flag and the angle between up and
      the hit normal: only the two flags change, and they exclude each other. */
  function CheckGround(s: State, cfg: Config, castHit: bool, slopeAngle: real): (r: State)
    ensures r.body == s.body
    ensures r.ctl == s.ctl.(isGrounded := r.ctl.isGrounded, onSteepSlope := r.ctl.onSteepSlope)
    ensures !(r.ctl.isGrounded && r.ctl.onSteepSlope)
    ensures r.ctl.isGrounded <==> castHit && slopeAngle < cfg.maxSlopeAngle
    ensures r.ctl.onSteepSlope <==> slopeAngle >= cfg.maxSlopeAngle
  {
    var g := Classify(castHit, slopeAngle, cfg.maxSlopeAngle);
    s.(ctl := s.ctl.(onSteepSlope := g.onSteepSlope, isGrounded := g.isGrounded))
  }

  /** The three cases of the damping state machine. */
  datatype Phase = GroundedStable | GroundedJumpStartup | Airborne

  /** The arm of HandleDamping's switch that a controller's flags select. */
  function PhaseOf(c: Controller): (p: Phase)
    ensures p == Airborne <==> !c.isGrounded
    ensures p == GroundedJumpStartup <==> c.isGrounded && c.inJumpStartup
    ensures p == GroundedStable <==> c.isGrounded && !c.inJumpStartup
  {
    if !c.isGrounded then Airborne
    else if c.inJumpStartup then GroundedJumpStartup
    else GroundedStable
  }

  /** Gravity stays on until the body falls at terminal velocity. */
  predicate BelowTerminal(cfg: Config, b: Body) {
    b.verticalVelocity > -cfg.terminalVelocity
  }

  /** HandleDamping: each phase writes the damping and the gravity flag; only the
      airborne phase clears jump startup, and no phase sets it. */
  function HandleDamping(s: State, cfg: Config): (r: State)
    ensures r.body == s.body.(linearDamping := r.body.linearDamping, useGravity := r.body.useGravity)
    ensures r.ctl == s.ctl.(inJumpStartup := r.ctl.inJumpStartup)
    ensures PhaseOf(s.ctl) == GroundedStable ==>
      r.body.linearDamping == cfg.groundedLinearDamping && r.body.useGravity == s.ctl.onSteepSlope
      && r.ctl.inJumpStartup == s.ctl.inJumpStartup
    ensures PhaseOf(s.ctl) == GroundedJumpStartup ==>
      r.body.linearDamping == 0.0 && (r.body.useGravity <==> BelowTerminal(cfg, s.body))
      && r.ctl.inJumpStartup
    ensures PhaseOf(s.ctl) == Airborne ==>
      r.body.linearDamping == 0.0 && (r.body.useGravity <==> BelowTerminal(cfg, s.body))
      && !r.ctl.inJumpStartup
    ensures r.ctl.inJumpStartup ==> s.ctl.inJumpStartup
  {
    if s.ctl.isGrounded && !s.ctl.inJumpStartup then
      s.(body := s.body.(linearDamping := cfg.groundedLinearDamping, useGravity := s.ctl.onSteepSlope))
    else if s.ctl.isGrounded then
      s.(body := s.body.(linearDamping := 0.0, useGravity := s.body.verticalVelocity > -cfg.terminalVelocity))
    else
      s.(body := s.body.(linearDamping := 0.0, useGravity := s.body.verticalVelocity > -cfg.terminalVelocity),
         ctl := s.ctl.(inJumpStartup := false))
  }

  /** Update: direction, then ground, then damping. After it the move direction
      is the rotated input, the flags are consistent and the body's damping and
      gravity follow the phase; the input, sprint flag and effective speed stay. */
  function Update(s: State, cfg: Config, yaw: Yaw, castHit: bool, slopeAngle: real): (r: State)
    ensures r.body.forces == s.body.forces
    ensures r.body.verticalVelocity == s.body.verticalVelocity && r.body.horizontalSpeed == s.body.horizontalSpeed
    ensures r.ctl.moveInput == s.ctl.moveInput && r.ctl.sprintPressed == s.ctl.sprintPressed
    ensures r.ctl.effectiveMovementSpeed == s.ctl.effectiveMovementSpeed
    ensures r.ctl.moveDirection == RotateAboutUp(s.ctl.moveInput, yaw) && r.ctl.moveDirection.y == 0.0
    ensures !(r.ctl.isGrounded && r.ctl.onSteepSlope)
    ensures r.ctl.onSteepSlope <==> slopeAngle >= cfg.maxSlopeAngle
    ensures r.ctl.isGrounded <==> castHit && slopeAngle < cfg.maxSlopeAngle
    ensures r.ctl.inJumpStartup <==> s.ctl.inJumpStartup && r.ctl.isGrounded
    ensures PhaseOf(r.ctl) == GroundedStable ==>
      r.body.linearDamping == cfg.groundedLinearDamping && !r.body.useGravity
    ensures PhaseOf(r.ctl) != GroundedStable ==>
      r.body.linearDamping == 0.0 && (r.body.useGravity <==> BelowTerminal(cfg, s.body))
  {
    HandleDamping(CheckGround(ConvertMoveInputDirection(s, yaw), cfg, castHit, slopeAngle), cfg)
  }

  // ---------------------------------------------------------------------------
  // Fixed tick: ApplyMovementForce, ApplyAirDrag, ApplyGravityMultiplier

  /** The speed chosen while grounded: the sprint speed exactly while sprint is
      held, the base speed otherwise. */
  function SelectSpeed(sprintPressed: bool, cfg: Config): (speed: real)
    ensures sprintPressed ==> speed == cfg.sprintMovementSpeed
    ensures !sprintPressed ==> speed == cfg.baseMovementSpeed
  {
    if sprintPressed then cfg.sprintMovementSpeed else cfg.baseMovementSpeed
  }

  /** The grounded movement force: the chosen speed times the drag multiplier of
      the body's current damping. */
  function GroundMoveForce(speed: real, d: real, w: World): (f: Force)
    requires w.Valid()
    ensures (f.GroundMove? || f.NonFiniteGroundMove?) && f.speed == speed
    ensures f.NonFiniteGroundMove? <==> d == w.FixedTimestepFrequency()
    ensures f.GroundMove? ==> f.dragMultiplier * (w.FixedTimestepFrequency() - d) == d * w.FixedTimestepFrequency()
    ensures f.GroundMove? && d == 0.0 ==> f.dragMultiplier == 0.0
  {
    match DragMultiplier(d, w.FixedTimestepFrequency())
    case Finite(m) => GroundMove(speed, m)
    case DivisionByZero => NonFiniteGroundMove(speed)
  }

  /** ApplyMovementForce, given whether the move direction projected on the hit
      plane rises (its y is positive). Exactly one force is added; the effective
      speed is re-chosen only when grounded. */
  function ApplyMovementForce(s: State, cfg: Config, w: World, projectedRises: bool): (r: State)
    requires w.Valid()
    ensures r.ctl == s.ctl.(effectiveMovementSpeed := r.ctl.effectiveMovementSpeed)
    ensures r.body.(forces := s.body.forces) == s.body
    ensures |r.body.forces| == |s.body.forces| + 1 && r.body.forces[..|s.body.forces|] == s.body.forces
    ensures s.ctl.isGrounded ==> r.ctl.effectiveMovementSpeed == SelectSpeed(s.ctl.sprintPressed, cfg)
    ensures !s.ctl.isGrounded ==> r.ctl.effectiveMovementSpeed == s.ctl.effectiveMovementSpeed
    ensures var f := r.body.forces[|s.body.forces|];
      && ((f.GroundMove? || f.NonFiniteGroundMove?) <==> s.ctl.isGrounded)
      && (f.NonFiniteGroundMove? <==> s.ctl.isGrounded && s.body.linearDamping == w.FixedTimestepFrequency())
      && (f.GroundMove? || f.NonFiniteGroundMove? ==> f.speed == r.ctl.effectiveMovementSpeed)
      && (f.GroundMove? ==>
            f.dragMultiplier * (w.FixedTimestepFrequency() - s.body.linearDamping)
            == s.body.linearDamping * w.FixedTimestepFrequency())
      && (f.GroundMove? && s.body.linearDamping == 0.0 ==> f.dragMultiplier == 0.0)
      && (f.SteepSlopeMove? <==> !s.ctl.isGrounded && s.ctl.onSteepSlope && projectedRises)
      && (f.AirMove? <==> !s.ctl.isGrounded && !(s.ctl.onSteepSlope && projectedRises))
      && (f.SteepSlopeMove? || f.AirMove? ==>
            f.speed == s.ctl.effectiveMovementSpeed && f.airControl == cfg.airControlMultiplier)
  {
    if s.ctl.isGrounded then
      var speed := SelectSpeed(s.ctl.sprintPressed, cfg);
      var f := GroundMoveForce(speed, s.body.linearDamping, w);
      State(s.ctl.(effectiveMovementSpeed := speed), s.body.(forces := s.body.forces + [f]))
    else if s.ctl.onSteepSlope && projectedRises then
      s.(body := s.body.(forces := s.body.forces
           + [SteepSlopeMove(s.ctl.effectiveMovementSpeed, cfg.airControlMultiplier)]))
    else
      s.(body := s.body.(forces := s.body.forces
           + [AirMove(s.ctl.effectiveMovementSpeed, cfg.airControlMultiplier)]))
  }

  /** On the ground, the force ApplyMovementForce adds is speed * m times the move
      direction projected on the ground, whose length is len. Along that direction
      the acceleration is (speed * len) * m, so under that force alone a body moving
      at speed * len keeps that speed through one damped fixed step, whatever the
      damping (short of the division by zero). The fixed tick adds more than this
      force: see GroundedAtSpeedGetsAirDrag. */
  lemma GroundMoveHoldsEffectiveSpeed(s: State, cfg: Config, w: World, projectedRises: bool, len: real)
    requires w.Valid() && s.ctl.isGrounded && s.body.linearDamping != w.FixedTimestepFrequency()
    ensures var r := ApplyMovementForce(s, cfg, w, projectedRises);
            var f := r.body.forces[|s.body.forces|];
            && f.GroundMove? && f.speed == r.ctl.effectiveMovementSpeed
            && DampedVelocity(f.speed * len, (f.speed * len) * f.dragMultiplier,
                              s.body.linearDamping, w.FixedTimestepFrequency())
               == f.speed * len
  {
    var r := ApplyMovementForce(s, cfg, w, projectedRises);
    DragCompensationHoldsSpeed(r.ctl.effectiveMovementSpeed * len, s.body.linearDamping,
                               w.FixedTimestepFrequency());
  }

  /** ApplyAirDrag: the counter-force is added exactly when the horizontal speed
      reaches the effective movement speed. */
  function ApplyAirDrag(s: State, cfg: Config): (r: State)
    ensures r.ctl == s.ctl && r.body.(forces := s.body.forces) == s.body
    ensures s.body.horizontalSpeed >= s.ctl.effectiveMovementSpeed ==>
      r.body.forces == s.body.forces + [AirDrag(s.ctl.effectiveMovementSpeed, cfg.airControlMultiplier)]
    ensures s.body.horizontalSpeed < s.ctl.effectiveMovementSpeed ==> r == s
  {
    if s.body.horizontalSpeed >= s.ctl.effectiveMovementSpeed then
      s.(body := s.body.(forces := s.body.forces
           + [AirDrag(s.ctl.effectiveMovementSpeed, cfg.airControlMultiplier)]))
    else s
  }

  /** The extra downward acceleration that scales the engine's own gravity. */
  function ExtraGravityFor(cfg: Config, w: World): (f: Force)
    ensures f.ExtraGravity? && f.gravity == w.gravity
    ensures w.gravity + f.factor * f.gravity == cfg.gravityMultiplier * w.gravity
  {
    ExtraGravity(cfg.gravityMultiplier - 1.0, w.gravity)
  }

  /** ApplyGravityMultiplier: a force only while gravity is on; with the engine's
      gravity the net downward acceleration is then gravityMultiplier * |g|. */
  function ApplyGravityMultiplier(s: State, cfg: Config, w: World): (r: State)
    ensures r.ctl == s.ctl && r.body.(forces := s.body.forces) == s.body
    ensures !s.body.useGravity ==> r == s
    ensures s.body.useGravity ==>
      |r.body.forces| == |s.body.forces| + 1 && r.body.forces[..|s.body.forces|] == s.body.forces
      && r.body.forces[|s.body.forces|].ExtraGravity?
      && r.body.forces[|s.body.forces|].gravity == w.gravity
      && w.gravity + r.body.forces[|s.body.forces|].factor * w.gravity == cfg.gravityMultiplier * w.gravity
  {
    if !s.body.useGravity then s
    else
      var r := s.(body := s.body.(forces := s.body.forces + [ExtraGravityFor(cfg, w)]));
      assert r.body.forces[..|s.body.forces|] == s.body.forces;
      r
  }

  /** FixedUpdate: movement force, then air drag, then gravity multiplier. The
      flags, damping and gravity flag stay. The movement force always comes first;
      the air drag follows exactly when the horizontal speed reaches the effective
      speed the movement step has just chosen; the extra gravity comes last exactly
      when gravity is on. So one to three forces are added. */
  function FixedUpdate(s: State, cfg: Config, w: World, projectedRises: bool): (r: State)
    requires w.Valid()
    ensures r.ctl == s.ctl.(effectiveMovementSpeed := r.ctl.effectiveMovementSpeed)
    ensures r.body.(forces := s.body.forces) == s.body
    ensures var n := |s.body.forces|;
            var sp := r.ctl.effectiveMovementSpeed;
            var k := n + 1 + (if s.body.horizontalSpeed >= sp then 1 else 0);
            && |r.body.forces| == k + (if s.body.useGravity then 1 else 0)
            && r.body.forces[..n] == s.body.forces
            && r.body.forces[n] == ApplyMovementForce(s, cfg, w, projectedRises).body.forces[n]
            && (s.body.horizontalSpeed >= sp ==> r.body.forces[n + 1] == AirDrag(sp, cfg.airControlMultiplier))
            && (s.body.useGravity ==> r.body.forces[k] == ExtraGravityFor(cfg, w))
    ensures s.ctl.isGrounded ==> r.ctl.effectiveMovementSpeed == SelectSpeed(s.ctl.sprintPressed, cfg)
    ensures !s.ctl.isGrounded ==> r.ctl.effectiveMovementSpeed == s.ctl.effectiveMovementSpeed
  {
    var m := ApplyMovementForce(s, cfg, w, projectedRises);
    var a := ApplyAirDrag(m, cfg);
    var r := ApplyGravityMultiplier(a, cfg, w);
    assert r.body.forces[..|s.body.forces|] == s.body.forces by {
      assert m.body.forces[..|s.body.forces|] == s.body.forces;
      assert m.body.forces <= a.body.forces <= r.body.forces;
    }
    assert r.body.forces[|s.body.forces|] == m.body.forces[|s.body.forces|] by {
      assert m.body.forces <= a.body.forces <= r.body.forces;
    }
    r
  }

  // ---------------------------------------------------------------------------
  // Jump and input dispatch

  /** What Jump takes the square root of: 2 * gravityMultiplier * |g| * jumpHeight. */
  function JumpRadicand(cfg: Config, w: World): real {
    2.0 * (cfg.gravityMultiplier * w.gravity) * cfg.jumpHeight
  }

  /** The host's square root gives the non-negative root of x, as Mathf.Sqrt does
      for x >= 0 (for x < 0 it gives NaN, which no real satisfies). */
  predicate RootAt(sqrt: real -> real, x: real) {
    sqrt(x) >= 0.0 && sqrt(x) * sqrt(x) == x
  }

  /** v is the launch speed for the configured jump height under the scaled gravity. */
  predicate IsLaunchSpeed(cfg: Config, w: World, v: real) {
    v >= 0.0 && v * v == JumpRadicand(cfg, w)
  }

  /** Jump, given Mathf.Sqrt as the host computes it. Not grounded: nothing
      changes. Grounded: jump startup is set and one upward impulse of the root of
      the radicand is added, whatever the radicand's sign; when the host's root is
      a true root there, the impulse is the launch speed. */
  function Jump(s: State, cfg: Config, w: World, sqrt: real -> real): (r: State)
    ensures !s.ctl.isGrounded ==> r == s
    ensures s.ctl.isGrounded ==>
      r.ctl == s.ctl.(inJumpStartup := true)
      && r.body == s.body.(forces := s.body.forces + [JumpImpulse(sqrt(JumpRadicand(cfg, w)))])
    ensures s.ctl.isGrounded && RootAt(sqrt, JumpRadicand(cfg, w)) ==>
      IsLaunchSpeed(cfg, w, r.body.forces[|s.body.forces|].upward)
  {
    if !s.ctl.isGrounded then s
    else s.(ctl := s.ctl.(inJumpStartup := true),
            body := s.body.(forces := s.body.forces + [JumpImpulse(sqrt(JumpRadicand(cfg, w)))]))
  }

  /** The impulse a grounded Jump adds peaks exactly at the configured jump height
      under the scaled gravity, when the host's square root is a true root there. */
  lemma JumpReachesJumpHeight(s: State, cfg: Config, w: World, sqrt: real -> real)
    requires s.ctl.isGrounded && RootAt(sqrt, JumpRadicand(cfg, w))
    requires cfg.gravityMultiplier * w.gravity > 0.0
    ensures var r := Jump(s, cfg, w, sqrt);
            var v := r.body.forces[|s.body.forces|].upward;
            var a := cfg.gravityMultiplier * w.gravity;
            Height(v, a, v / a) == cfg.jumpHeight && forall t :: Height(v, a, t) <= cfg.jumpHeight
  {
    LaunchSpeedReachesHeight(sqrt(JumpRadicand(cfg, w)), cfg.gravityMultiplier * w.gravity, cfg.jumpHeight);
  }

  /** HandleInputAction: Move writes only the move input, Sprint only the sprint
      flag, a performed Jump calls Jump, anything else changes nothing. */
  function HandleInputAction(s: State, cfg: Config, w: World, ctx: CallbackContext, sqrt: real -> real): (r: State)
    ensures ctx.actionName == "Move" ==> r == s.(ctl := s.ctl.(moveInput := ctx.vector))
    ensures ctx.actionName == "Sprint" ==> r == s.(ctl := s.ctl.(sprintPressed := ctx.button))
    ensures ctx.actionName == "Jump" && ctx.performed ==> r == Jump(s, cfg, w, sqrt)
    ensures ctx.actionName == "Jump" && !ctx.performed ==> r == s
    ensures ctx.actionName !in {"Move", "Sprint", "Jump"} ==> r == s
    ensures r.ctl.inJumpStartup != s.ctl.inJumpStartup || r.body != s.body ==>
      ctx.actionName == "Jump" && ctx.performed && s.ctl.isGrounded
  {
    match ctx.actionName
    case "Move" => s.(ctl := s.ctl.(moveInput := ctx.vector))
    case "Sprint" => s.(ctl := s.ctl.(sprintPressed := ctx.button))
    case "Jump" => if ctx.performed then Jump(s, cfg, w, sqrt) else s
    case _ => s
  }

  // ---------------------------------------------------------------------------
  // Traces of host events and the reachable-state invariant

  /** What the host delivers: an input callback, a frame tick with the physics
      queries' results, a fixed tick with the projected direction's rise, and the
      engine's integration of the body. */
  datatype Event =
    | Action(ctx: CallbackContext)
    | Frame(yaw: Yaw, castHit: bool, slopeAngle: real)
    | Physics(projectedRises: bool)
    | Integrate(verticalVelocity: real, horizontalSpeed: real)

  /** One host event; sqrt is Mathf.Sqrt as the host computes it. */
  function Step(s: State, cfg: Config, w: World, sqrt: real -> real, e: Event): (r: State)
    requires w.Valid()
    ensures s.ctl.inJumpStartup && !r.ctl.inJumpStartup ==> e.Frame? && !r.ctl.isGrounded
    ensures !s.ctl.inJumpStartup && r.ctl.inJumpStartup ==>
      e.Action? && e.ctx.actionName == "Jump" && s.ctl.isGrounded
      && r.body.forces == s.body.forces + [JumpImpulse(sqrt(JumpRadicand(cfg, w)))]
  {
    match e
    case Action(ctx) => HandleInputAction(s, cfg, w, ctx, sqrt)
    case Frame(yaw, hit, angle) => Update(s, cfg, yaw, hit, angle)
    case Physics(rises) => FixedUpdate(s, cfg, w, rises)
    case Integrate(vy, hs) => s.(body := s.body.(verticalVelocity := vy, horizontalSpeed := hs))
  }

  function Run(s: State, cfg: Config, w: World, sqrt: real -> real, events: seq<Event>): State
    requires w.Valid()
    decreases |events|
  {
    if events == [] then s
    else Run(Step(s, cfg, w, sqrt, events[0]), cfg, w, sqrt, events[1..])
  }

  /** Some jump impulse is in the force log. */
  predicate HasJumped(forces: seq<Force>) {
    exists i :: 0 <= i < |forces| && forces[i].JumpImpulse?
  }

  /** Holds in every state the controller reaches: the two ground flags exclude
      each other; jump startup only while grounded and only after some jump
      impulse; standing grounded means grounded damping and no gravity. */
  predicate Inv(cfg: Config, s: State) {
    && !(s.ctl.isGrounded && s.ctl.onSteepSlope)
    && (s.ctl.inJumpStartup ==> s.ctl.isGrounded && HasJumped(s.body.forces))
    && (PhaseOf(s.ctl) == GroundedStable ==>
          s.body.linearDamping == cfg.groundedLinearDamping && !s.body.useGravity)
  }

  lemma InitialSatisfiesInv(cfg: Config, body: Body)
    ensures Inv(cfg, Initial(body))
  {
  }

  /** An input callback keeps the invariant: a Jump sets jump startup only when
      grounded, and logs the impulse that HasJumped asks for. */
  lemma HandleInputActionPreservesInv(s: State, cfg: Config, w: World, ctx: CallbackContext, sqrt: real -> real)
    requires Inv(cfg, s)
    ensures Inv(cfg, HandleInputAction(s, cfg, w, ctx, sqrt))
  {
    var r := HandleInputAction(s, cfg, w, ctx, sqrt);
    if ctx.actionName == "Jump" && ctx.performed && s.ctl.isGrounded {
      assert r.body.forces[|s.body.forces|].JumpImpulse?;
    }
  }

  lemma UpdatePreservesInv(s: State, cfg: Config, yaw: Yaw, castHit: bool, slopeAngle: real)
    requires Inv(cfg, s)
    ensures Inv(cfg, Update(s, cfg, yaw, castHit, slopeAngle))
  {
  }

  lemma FixedUpdatePreservesInv(s: State, cfg: Config, w: World, projectedRises: bool)
    requires w.Valid() && Inv(cfg, s)
    ensures Inv(cfg, FixedUpdate(s, cfg, w, projectedRises))
  {
  }

  lemma StepPreservesInv(s: State, cfg: Config, w: World, sqrt: real -> real, e: Event)
    requires w.Valid() && Inv(cfg, s)
    ensures Inv(cfg, Step(s, cfg, w, sqrt, e))
  {
    match e
    case Action(ctx) => HandleInputActionPreservesInv(s, cfg, w, ctx, sqrt);
    case Frame(yaw, hit, angle) => UpdatePreservesInv(s, cfg, yaw, hit, angle);
    case Physics(rises) => FixedUpdatePreservesInv(s, cfg, w, rises);
    case Integrate(_, _) =>
  }

  /** Every trace of host events keeps the invariant. */
  lemma {:induction false} RunPreservesInv(s: State, cfg: Config, w: World, sqrt: real -> real, events: seq<Event>)
    requires w.Valid() && Inv(cfg, s)
    ensures Inv(cfg, Run(s, cfg, w, sqrt, events))
    decreases |events|
  {
    if events != [] {
      StepPreservesInv(s, cfg, w, sqrt, events[0]);
      RunPreservesInv(Step(s, cfg, w, sqrt, events[0]), cfg, w, sqrt, events[1..]);
    }
  }

  /** From the component's initial fields, on any body, no trace ever makes the
      controller grounded and on a steep slope at once, or in jump startup while
      airborne. */
  lemma ReachableStatesAreConsistent(body: Body, cfg: Config, w: World, sqrt: real -> real, events: seq<Event>)
    requires w.Valid()
    ensures var r := Run(Initial(body), cfg, w, sqrt, events);
            !(r.ctl.isGrounded && r.ctl.onSteepSlope) && (r.ctl.inJumpStartup ==> r.ctl.isGrounded)
  {
    InitialSatisfiesInv(cfg, body);
    RunPreservesInv(Initial(body), cfg, w, sqrt, events);
  }

  /** A frame tick that leaves the controller grounded in jump startup zeroes the
      damping, so the next fixed tick's ground force is zero: jump startup lets the
      impulse act without the movement force pulling along the ground. */
  lemma JumpStartupSuppressesGroundForce(s: State, cfg: Config, w: World, yaw: Yaw,
                                         castHit: bool, slopeAngle: real, rises: bool)
    requires w.Valid()
    requires PhaseOf(Update(s, cfg, yaw, castHit, slopeAngle).ctl) == GroundedJumpStartup
    ensures var u := Update(s, cfg, yaw, castHit, slopeAngle);
            FixedUpdate(u, cfg, w, rises).body.forces[|u.body.forces|]
            == GroundMove(SelectSpeed(u.ctl.sprintPressed, cfg), 0.0)
  {
  }

  /** The air-drag guard does not look at the ground: a grounded body that reaches
      the chosen speed gets the counter-force in the same fixed tick, right after
      the ground force. Along a unit direction with the velocity opposite the
      counter-force, the two together take a body at the chosen speed below it
      through one damped step. Below the speed the counter-force stops, and the
      ground force alone brings the body back toward it (DragCompensationShrinksGap). */
  lemma GroundedAtSpeedGetsAirDrag(s: State, cfg: Config, w: World, rises: bool)
    requires w.Valid() && s.ctl.isGrounded
    requires s.body.horizontalSpeed >= SelectSpeed(s.ctl.sprintPressed, cfg)
    ensures var r := FixedUpdate(s, cfg, w, rises);
            var n := |s.body.forces|;
            r.body.forces[n + 1] == AirDrag(SelectSpeed(s.ctl.sprintPressed, cfg), cfg.airControlMultiplier)
    ensures var r := FixedUpdate(s, cfg, w, rises);
            var n := |s.body.forces|;
            var sp := SelectSpeed(s.ctl.sprintPressed, cfg);
            var d := s.body.linearDamping;
            var f := w.FixedTimestepFrequency();
            0.0 <= d < f && sp > 0.0 && cfg.airControlMultiplier > 0.0 ==>
              && r.body.forces[n].GroundMove?
              && DampedVelocity(sp, sp * r.body.forces[n].dragMultiplier
                                    - sp * r.body.forces[n + 1].airControl, d, f) < sp
  {
    var sp := SelectSpeed(s.ctl.sprintPressed, cfg);
    var d := s.body.linearDamping;
    var f := w.FixedTimestepFrequency();
    if 0.0 <= d < f && sp > 0.0 && cfg.airControlMultiplier > 0.0 {
      CounterForceSlowsCompensatedBody(sp, cfg.airControlMultiplier, d, f);
    }
  }
}
