/** The movement controller as the object it is: a component whose methods update
    its own fields and the rigid body it drives. Every method is proved to move the
    state exactly as the matching function of module Motion does, and the entry
    points the host calls keep Motion.Inv. */
module PlayerMovement {
  import opened Vectors
  import opened Motion

  /** The part of Unity's Rigidbody the controller touches. AddForce is logged,
      not integrated: the engine owns the integration. */
  class RigidBody {
    var linearDamping: real
    var useGravity: bool
    var verticalVelocity: real   // linearVelocity.y
    var horizontalSpeed: real    // magnitude of (linearVelocity.x, 0, linearVelocity.z)
    ghost var forces: seq<Force>

    ghost function View(): Body
      reads this
    {
      Body(linearDamping, useGravity, verticalVelocity, horizontalSpeed, forces)
    }

    /** A fresh body with the engine's defaults: no damping, gravity on, at rest. */
    constructor ()
      ensures View() == Body(0.0, true, 0.0, 0.0, [])
    {
      linearDamping, useGravity := 0.0, true;
      verticalVelocity, horizontalSpeed := 0.0, 0.0;
      forces := [];
    }

    method AddForce(ghost f: Force)
      modifies this
      ensures View() == old(View()).(forces := old(forces) + [f])
    {
      forces := forces + [f];
    }
  }

  class PlayerMovement3D {
    const cfg: Config
    const world: World
    const rigidBody: RigidBody
    /** Mathf.Sqrt as the host computes it. */
    const sqrt: real -> real

    var moveInput: Vec2
    var moveDirection: Vec3
    var effectiveMovementSpeed: real
    var isGrounded: bool
    var onSteepSlope: bool
    var inJumpStartup: bool
    var sprintPressed: bool

    /** The fields and the body as one Motion.State. */
    ghost function Snapshot(): State
      reads this, rigidBody
    {
      State(Controller(moveInput, moveDirection, effectiveMovementSpeed,
                       isGrounded, onSteepSlope, inJumpStartup, sprintPressed),
            rigidBody.View())
    }

    ghost predicate Valid()
      reads this, rigidBody
    {
      world.Valid() && Inv(cfg, Snapshot())
    }

    /** The collaborators are injected instead of looked up by type. */
    constructor (cfg: Config, world: World, rigidBody: RigidBody, sqrt: real -> real)
      requires world.Valid()
      ensures this.cfg == cfg && this.world == world && this.rigidBody == rigidBody && this.sqrt == sqrt
      ensures Snapshot() == Initial(rigidBody.View())
      ensures Valid()
    {
      this.cfg, this.world, this.rigidBody, this.sqrt := cfg, world, rigidBody, sqrt;
      moveInput, moveDirection := Vec2(0.0, 0.0), Vec3(0.0, 0.0, 0.0);
      effectiveMovementSpeed := 0.0;
      isGrounded, onSteepSlope, inJumpStartup, sprintPressed := false, false, false, false;
      new;
      InitialSatisfiesInv(cfg, rigidBody.View());
    }

    /** Frame tick, given the facing yaw, the sphere cast's hit flag and the angle
        between up and the hit normal. */
    method Update(yaw: Yaw, castHit: bool, slopeAngle: real)
      requires Valid()
      modifies this, rigidBody
      ensures Valid()
      ensures Snapshot() == Motion.Update(old(Snapshot()), cfg, yaw, castHit, slopeAngle)
    {
      ghost var s := Snapshot();
      ConvertMoveInputDirection(yaw);
      CheckGround(castHit, slopeAngle);
      HandleDamping();
      UpdatePreservesInv(s, cfg, yaw, castHit, slopeAngle);
    }

    /** Fixed tick, given whether the move direction projected on the hit plane rises. */
    method FixedUpdate(projectedRises: bool)
      requires Valid()
      modifies this, rigidBody
      ensures Valid()
      ensures Snapshot() == Motion.FixedUpdate(old(Snapshot()), cfg, world, projectedRises)
    {
      ghost var s := Snapshot();
      ApplyMovementForce(projectedRises);
      ApplyAirDrag();
      ApplyGravityMultiplier();
      FixedUpdatePreservesInv(s, cfg, world, projectedRises);
    }

    /** The input callback. */
    method HandleInputAction(ctx: CallbackContext)
      requires Valid()
      modifies this, rigidBody
      ensures Valid()
      ensures Snapshot() == Motion.HandleInputAction(old(Snapshot()), cfg, world, ctx, sqrt)
    {
      ghost var s := Snapshot();
      match ctx.actionName {
        case "Move" =>
          moveInput := ctx.vector;
        case "Sprint" =>
          sprintPressed := ctx.button;
        case "Jump" =>
          if ctx.performed {
            Jump();
          }
        case _ =>
      }
      HandleInputActionPreservesInv(s, cfg, world, ctx, sqrt);
    }

    method ConvertMoveInputDirection(yaw: Yaw)
      modifies this
      ensures Snapshot() == Motion.ConvertMoveInputDirection(old(Snapshot()), yaw)
    {
      moveDirection := RotateAboutUp(moveInput, yaw);
    }

    method CheckGround(castHit: bool, slopeAngle: real)
      modifies this
      ensures Snapshot() == Motion.CheckGround(old(Snapshot()), cfg, castHit, slopeAngle)
    {
      onSteepSlope := slopeAngle >= cfg.maxSlopeAngle;
      isGrounded := castHit && !onSteepSlope;
    }

    method HandleDamping()
      modifies this, rigidBody
      ensures Snapshot() == Motion.HandleDamping(old(Snapshot()), cfg)
    {
      if isGrounded && !inJumpStartup {
        rigidBody.linearDamping := cfg.groundedLinearDamping;
        rigidBody.useGravity := onSteepSlope;
      } else if isGrounded {
        rigidBody.linearDamping := 0.0;
        rigidBody.useGravity := rigidBody.verticalVelocity > -cfg.terminalVelocity;
      } else {
        rigidBody.linearDamping := 0.0;
        rigidBody.useGravity := rigidBody.verticalVelocity > -cfg.terminalVelocity;
        inJumpStartup := false;
      }
    }

    method ApplyMovementForce(projectedRises: bool)
      requires world.Valid()
      modifies this, rigidBody
      ensures Snapshot() == Motion.ApplyMovementForce(old(Snapshot()), cfg, world, projectedRises)
    {
      if isGrounded {
        effectiveMovementSpeed := if sprintPressed then cfg.sprintMovementSpeed else cfg.baseMovementSpeed;
        var fixedTimestepFrequency := 1.0 / world.fixedDeltaTime;
        var denominator := (fixedTimestepFrequency - rigidBody.linearDamping) / fixedTimestepFrequency;
        if denominator == 0.0 {
          rigidBody.AddForce(NonFiniteGroundMove(effectiveMovementSpeed));
        } else {
          var dragMultiplier := rigidBody.linearDamping / denominator;
          rigidBody.AddForce(GroundMove(effectiveMovementSpeed, dragMultiplier));
        }
      } else if onSteepSlope && projectedRises {
        rigidBody.AddForce(SteepSlopeMove(effectiveMovementSpeed, cfg.airControlMultiplier));
      } else {
        rigidBody.AddForce(AirMove(effectiveMovementSpeed, cfg.airControlMultiplier));
      }
    }

    method ApplyAirDrag()
      modifies rigidBody
      ensures Snapshot() == Motion.ApplyAirDrag(old(Snapshot()), cfg)
    {
      if rigidBody.horizontalSpeed >= effectiveMovementSpeed {
        rigidBody.AddForce(AirDrag(effectiveMovementSpeed, cfg.airControlMultiplier));
      }
    }

    method ApplyGravityMultiplier()
      modifies rigidBody
      ensures Snapshot() == Motion.ApplyGravityMultiplier(old(Snapshot()), cfg, world)
    {
      if !rigidBody.useGravity {
        return;
      }
      rigidBody.AddForce(ExtraGravity(cfg.gravityMultiplier - 1.0, world.gravity));
    }

    method Jump()
      modifies this, rigidBody
      ensures Snapshot() == Motion.Jump(old(Snapshot()), cfg, world, sqrt)
    {
      if !isGrounded {
        return;
      }
      var gravityForce := cfg.gravityMultiplier * world.gravity;
      var radicand := 2.0 * gravityForce * cfg.jumpHeight;
      assert radicand == JumpRadicand(cfg, world);
      var jumpForce := sqrt(radicand);
      inJumpStartup := true;
      rigidBody.AddForce(JumpImpulse(jumpForce));
    }
  }
}
