/** Planar and spatial vectors in exact arithmetic, and the yaw rotation that turns
    the 2D move input into a world-space move direction. */
module Vectors {

  /** Unity's Vector2: the raw move input (x = strafe, y = forward). */
  datatype Vec2 = Vec2(x: real, y: real)

  /** Unity's Vector3, with y the world-up axis. */
  datatype Vec3 = Vec3(x: real, y: real, z: real)

  /** A yaw angle about world-up, given by its cosine and sine (the trigonometry
      itself stays with the host). */
  datatype Yaw = Yaw(cos: real, sin: real) {
    /** The pair lies on the unit circle, as the cosine and sine of one angle do. */
    predicate Valid() {
      cos * cos + sin * sin == 1.0
    }

    /** The rotation by the opposite angle. */
    function Inverse(): (inv: Yaw)
      ensures Valid() <==> inv.Valid()
    {
      Yaw(cos, -sin)
    }
  }

  /** Squared length of the horizontal part of a vector. */
  function HorizontalLengthSquared(v: Vec3): real {
    v.x * v.x + v.z * v.z
  }

  /** The input (x, y) mapped into the horizontal plane as (x, 0, y) and rotated
      by the yaw about world-up, as Quaternion.AngleAxis(yaw, up) * v does. */
  function RotateAboutUp(v: Vec2, yaw: Yaw): (d: Vec3)
    ensures d.y == 0.0
    ensures yaw.Valid() ==> HorizontalLengthSquared(d) == v.x * v.x + v.y * v.y
  {
    var d := Vec3(v.x * yaw.cos + v.y * yaw.sin, 0.0, v.y * yaw.cos - v.x * yaw.sin);
    assert HorizontalLengthSquared(d)
        == (v.x * v.x + v.y * v.y) * (yaw.cos * yaw.cos + yaw.sin * yaw.sin);
    d
  }

  /** Rotating back by the opposite yaw recovers the input: the rotation loses
      nothing of the player's intent. */
  lemma RotateAboutUpInverse(v: Vec2, yaw: Yaw)
    requires yaw.Valid()
    ensures var d := RotateAboutUp(v, yaw);
            RotateAboutUp(Vec2(d.x, d.z), yaw.Inverse()) == Vec3(v.x, 0.0, v.y)
  {
  }
}
