/**
  The engine's planar and spatial vectors (`Vector2`, `Vec3`, `Position3`),
  over exact reals: the floating point rounding of f64 is not modelled.
*/
module Vectors {

  datatype Vector2 = Vector2(x: real, y: real)

  function Add(a: Vector2, b: Vector2): Vector2 {
    Vector2(a.x + b.x, a.y + b.y)
  }

  function Sub(a: Vector2, b: Vector2): Vector2 {
    Vector2(a.x - b.x, a.y - b.y)
  }

  datatype Vec3 = Vec3(x: real, y: real, z: real)

  const ZERO3: Vec3 := Vec3(0.0, 0.0, 0.0)

  /** A point `p` and the three axes of an object's orientation. */
  datatype Position3 = Position3(p: Vec3, x: Vec3, y: Vec3, z: Vec3)

  /** `Position3::default()`: everything zero. */
  const DEFAULT_POSITION3: Position3 := Position3(ZERO3, ZERO3, ZERO3, ZERO3)
}
