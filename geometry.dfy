/** Value types shared by every demo: points, directions, colours, the
    symbolic matrices handed to the (unmodelled) matrix library, and the
    arguments of a draw call. Coordinates are exact reals: the 32-bit
    floating-point rounding of the GPU and of JavaScript numbers is not
    modelled. */
module Geometry {

  /** A 2D position, as built by the vector library's `vec2`. */
  datatype Vec2 = Vec2(x: real, y: real)

  /** A direction or normal, as built by `vec3`. */
  datatype Vec3 = Vec3(x: real, y: real, z: real)

  /** A homogeneous point or an RGBA colour, as built by `vec4`. */
  datatype Vec4 = Vec4(x: real, y: real, z: real, w: real)

  /** An optional value. */
  datatype Option<T> = None | Some(value: T)

  /** The x, y, z part of a homogeneous point: `vec3(p[0], p[1], p[2])`. */
  function Xyz(p: Vec4): Vec3 {
    Vec3(p.x, p.y, p.z)
  }

  /** The dot product of two directions. */
  function Dot(a: Vec3, b: Vec3): real {
    a.x * b.x + a.y * b.y + a.z * b.z
  }

  /** A vector of length one. */
  predicate IsUnit(v: Vec3) {
    v.x * v.x + v.y * v.y + v.z * v.z == 1.0
  }

  /** The external vector library (`subtract`, `cross`, `normalize`).
      Its code is not part of this model, so its operations are parameters:
      nothing is assumed about them unless a lemma says so. */
  datatype VecLib = VecLib(
    subtract: (Vec3, Vec3) -> Vec3,
    cross: (Vec3, Vec3) -> Vec3,
    normalize: Vec3 -> Vec3)

  /** The matrix library's results kept as unevaluated terms: `mat4()`,
      `rotateX`, `rotateY` and `mult`. Two matrices are equal here only when
      they were built by the same calls, which is all the handlers need. */
  datatype Mat =
    | Identity
    | RotateX(degrees: real)
    | RotateY(degrees: real)
    | Mult(left: Mat, right: Mat)

  /** WebGL primitive modes, with their GL enum values: POINTS (0), LINES (1),
      LINE_STRIP (3), TRIANGLES (4). A shape's `type: 0` initialiser is POINTS. */
  datatype Primitive = Points | Lines | LineStrip | Triangles

  /** The arguments of `gl.drawArrays(mode, first, count)`. */
  datatype DrawCall = DrawCall(mode: Primitive, first: int, count: int)
}
