/** The System.Numerics value types the model needs, over the reals.

    `Vector3` and `Quaternion` are value types in .NET as well. Single-precision
    rounding is not modelled: every component is a `real`. */
module Geometry {

  datatype Vector3 = Vector3(X: real, Y: real, Z: real)

  datatype Quaternion = Quaternion(X: real, Y: real, Z: real, W: real)

  /** `Vector3.Zero` */
  const Zero := Vector3(0.0, 0.0, 0.0)

  /** `Quaternion.Identity` */
  const Identity := Quaternion(0.0, 0.0, 0.0, 1.0)

  function Dot(a: Vector3, b: Vector3): real
  {
    a.X * b.X + a.Y * b.Y + a.Z * b.Z
  }

  function SquaredNorm(q: Quaternion): real
  {
    q.X * q.X + q.Y * q.Y + q.Z * q.Z + q.W * q.W
  }

  /** `Vector3.Cross`, the right-handed cross product: orthogonal to both
      of its arguments. */
  function Cross(a: Vector3, b: Vector3): (r: Vector3)
    ensures Dot(r, a) == 0.0 && Dot(r, b) == 0.0
  {
    Vector3(a.Y * b.Z - a.Z * b.Y, a.Z * b.X - a.X * b.Z, a.X * b.Y - a.Y * b.X)
  }

  /** Lagrange's identity: |a x b|^2 == |a|^2 |b|^2 - (a . b)^2. */
  lemma CrossSquaredNorm(a: Vector3, b: Vector3)
    ensures Dot(Cross(a, b), Cross(a, b)) == Dot(a, a) * Dot(b, b) - Dot(a, b) * Dot(a, b)
  {
  }

  /** `Vector3.Lerp`: the component-wise blend `a + (b - a) * t`. */
  function Vector3Lerp(a: Vector3, b: Vector3, t: real): (r: Vector3)
    ensures t == 0.0 ==> r == a
    ensures t == 1.0 ==> r == b
    ensures a == b ==> r == a
  {
    Vector3(a.X + (b.X - a.X) * t, a.Y + (b.Y - a.Y) * t, a.Z + (b.Z - a.Z) * t)
  }

  /** `Math2.QuaternionLookRotation(forward, up)`: square roots and float
      division, so the model takes it as a parameter of this type. */
  type LookRotation = (Vector3, Vector3) -> Quaternion

  /** `Quaternion.Lerp(a, b, t)`: a normalised linear blend, taken as a
      parameter for the same reason. */
  type QuaternionLerp = (Quaternion, Quaternion, real) -> Quaternion
}
