/** The two formulas of the movement controller that carry physics: the drag
    compensation multiplier of the ground movement force and the launch speed of
    the jump, each with the property it was designed for, in exact arithmetic. */
module Kinematics {

  /** The drag multiplier is either a number or a division by zero (which the
      source's float arithmetic turns into an infinity or NaN). */
  datatype Multiplier = Finite(value: real) | DivisionByZero

  /** d / ((f - d) / f) for linear damping d and fixed-step frequency f. */
  function DragMultiplier(d: real, f: real): (m: Multiplier)
    requires f != 0.0
    ensures m.DivisionByZero? <==> d == f
    ensures m.Finite? ==> m.value * (f - d) == d * f
    ensures d == 0.0 ==> m == Finite(0.0)
  {
    var denominator := (f - d) / f;
    if denominator == 0.0 then DivisionByZero
    else
      var m := d / denominator;
      assert m * (f - d) == d * f by {
        assert m * denominator == d;
        assert f - d == denominator * f;
      }
      Finite(m)
  }

  /** One fixed step of the engine's velocity update along the move direction:
      the step's acceleration is added, then linear damping scales the velocity
      by 1 - d / f. This is the decay law the multiplier is designed to cancel. */
  function DampedVelocity(v: real, acceleration: real, d: real, f: real): real
    requires f != 0.0
  {
    (v + acceleration / f) * (1.0 - d / f)
  }

  /** Under the drag-compensated force speed * m, the distance to the target speed
      shrinks by exactly the factor 1 - d / f each step: the speed converges to the
      target whenever 0 < d < 2f. */
  lemma DragCompensationShrinksGap(v: real, speed: real, d: real, f: real)
    requires f != 0.0 && d != f
    ensures DampedVelocity(v, speed * DragMultiplier(d, f).value, d, f) - speed
         == (v - speed) * (1.0 - d / f)
  {
  }

  /** The target speed is a fixed point of the compensated update, whatever the
      damping: under the movement force alone, a body moving at the target speed
      keeps it. */
  lemma DragCompensationHoldsSpeed(speed: real, d: real, f: real)
    requires f != 0.0 && d != f
    ensures DampedVelocity(speed, speed * DragMultiplier(d, f).value, d, f) == speed
  {
    DragCompensationShrinksGap(speed, speed, d, f);
  }

  /** A counter-acceleration speed * air opposing the compensated one takes a body
      at the target speed below it: the step loses exactly speed * air / f times the
      damping factor 1 - d / f, which is positive while 0 <= d < f. */
  lemma CounterForceSlowsCompensatedBody(speed: real, air: real, d: real, f: real)
    requires f > 0.0 && 0.0 <= d < f && speed > 0.0 && air > 0.0
    ensures DampedVelocity(speed, speed * DragMultiplier(d, f).value - speed * air, d, f)
         == speed - speed * air / f * (1.0 - d / f)
    ensures DampedVelocity(speed, speed * DragMultiplier(d, f).value - speed * air, d, f) < speed
  {
    var m := DragMultiplier(d, f).value;
    var k := 1.0 - d / f;
    assert k > 0.0 by {
      assert d / f < 1.0;
    }
    calc {
      DampedVelocity(speed, speed * m - speed * air, d, f);
      (speed + (speed * m - speed * air) / f) * k;
      (speed + speed * m / f) * k - speed * air / f * k;
      { DragCompensationHoldsSpeed(speed, d, f); }
      speed - speed * air / f * k;
    }
    assert speed * air / f > 0.0;
    assert speed * air / f * k > 0.0;
  }

  /** Height after time t of a body launched upward at speed v under constant
      downward acceleration a. */
  function Height(v: real, a: real, t: real): real {
    v * t - a * t * t / 2.0
  }

  /** A launch speed v with v * v == 2 * a * h is the one that peaks at height h:
      the vertical velocity reaches zero at t = v / a, the height there is h, and
      no time gives a greater height. */
  lemma LaunchSpeedReachesHeight(v: real, a: real, h: real)
    requires a > 0.0 && v >= 0.0 && v * v == 2.0 * a * h
    ensures v - a * (v / a) == 0.0
    ensures Height(v, a, v / a) == h
    ensures forall t :: Height(v, a, t) <= h
  {
    var apex := v / a;
    assert a * apex == v;
    assert Height(v, a, apex) == h by {
      calc {
        Height(v, a, apex);
        v * apex - (a * apex) * apex / 2.0;
        v * apex - v * apex / 2.0;
        v * apex / 2.0;
        (v * v) / (2.0 * a);
        h;
      }
    }
    forall t ensures Height(v, a, t) <= h {
      var gap := v - a * t;
      assert gap * gap >= 0.0;
      calc {
        h - Height(v, a, t);
        v * v / (2.0 * a) - v * t + a * t * t / 2.0;
        gap * gap / (2.0 * a);
      >= 0.0;
      }
    }
  }
}
