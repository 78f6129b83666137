/**
 * Three-component vectors over the reals. They stand for three.js `Vector3`
 * (positions, velocities) and for the three angles of an `Euler` rotation.
 * Floating-point rounding is not modelled: every operation is exact.
 */
module Vectors {

  datatype Vec3 = Vec3(x: real, y: real, z: real)

  const Zero: Vec3 := Vec3(0.0, 0.0, 0.0)

  /** `Math.PI` as JavaScript prints it. */
  const Pi: real := 3.141592653589793

  function Add(a: Vec3, b: Vec3): (r: Vec3)
  {
    Vec3(a.x + b.x, a.y + b.y, a.z + b.z)
  }

  function Sub(a: Vec3, b: Vec3): (r: Vec3)
  {
    Vec3(a.x - b.x, a.y - b.y, a.z - b.z)
  }

  function Scale(a: Vec3, k: real): (r: Vec3)
  {
    Vec3(a.x * k, a.y * k, a.z * k)
  }

  function Neg(a: Vec3): (r: Vec3)
  {
    Vec3(-a.x, -a.y, -a.z)
  }

  function Dot(a: Vec3, b: Vec3): real
  {
    a.x * b.x + a.y * b.y + a.z * b.z
  }
}
