/**
 * Unity's small value types as the core uses them. Float components are modelled as reals:
 * the core only moves these values between records, it never computes with them.
 */
module Geometry {

  datatype Vector2 = Vector2(x: real, y: real)
  datatype Vector3 = Vector3(x: real, y: real, z: real)
  datatype Vector4 = Vector4(x: real, y: real, z: real, w: real)
  datatype Color = Color(r: real, g: real, b: real, a: real)

  /** A screen or texture size in pixels. */
  datatype Resolution = Resolution(width: int, height: int)

  const Origin := Vector3(0.0, 0.0, 0.0)

  /** Unity's implicit Vector3 to Vector4 conversion: the w component becomes 0. */
  function Widen(v: Vector3): (r: Vector4)
    ensures r.w == 0.0 && Narrow(r) == v
  {
    Vector4(v.x, v.y, v.z, 0.0)
  }

  /** The first three components of a Vector4. */
  function Narrow(v: Vector4): Vector3 {
    Vector3(v.x, v.y, v.z)
  }

  /** Unity's implicit Color to Vector4 conversion (r, g, b, a in that order). */
  function ColorToVector(c: Color): (r: Vector4)
    ensures VectorToColor(r) == c
  {
    Vector4(c.r, c.g, c.b, c.a)
  }

  function VectorToColor(v: Vector4): Color {
    Color(v.x, v.y, v.z, v.w)
  }

  /** Mathf.Abs. */
  function Abs(x: real): (r: real)
    ensures r >= 0.0 && (r == x || r == -x)
  {
    if x < 0.0 then -x else x
  }
}
