/**
 * The simd vector and matrix values the renderer computes with. Components are
 * `real`: floating-point rounding is not modelled. Matrices are column-major,
 * as in simd: a `Mat4` is its four columns, the last one being the translation.
 */
module LinearAlgebra {

  datatype Vec2 = Vec2(x: real, y: real)
  datatype Vec3 = Vec3(x: real, y: real, z: real)
  datatype Vec4 = Vec4(x: real, y: real, z: real, w: real)

  /** A 3×3 matrix given by its three columns. */
  datatype Mat3 = Mat3(c0: Vec3, c1: Vec3, c2: Vec3)

  /** A 4×4 matrix given by its four columns; `c3` is the translation column. */
  datatype Mat4 = Mat4(c0: Vec4, c1: Vec4, c2: Vec4, c3: Vec4)

  // Byte sizes of simd's float2 (its stride), float4 and float4x4
  const Vec2Stride: nat := 8
  const Vec4Size: nat := 16
  const Mat4Size: nat := 64

  function Add3(a: Vec3, b: Vec3): Vec3 {
    Vec3(a.x + b.x, a.y + b.y, a.z + b.z)
  }

  function Add4(a: Vec4, b: Vec4): Vec4 {
    Vec4(a.x + b.x, a.y + b.y, a.z + b.z, a.w + b.w)
  }

  function Scale3(v: Vec3, s: real): Vec3 {
    Vec3(v.x * s, v.y * s, v.z * s)
  }

  function Scale4(v: Vec4, s: real): Vec4 {
    Vec4(v.x * s, v.y * s, v.z * s, v.w * s)
  }

  /** The first three components of `v`. */
  function Xyz(v: Vec4): Vec3 {
    Vec3(v.x, v.y, v.z)
  }

  /** `Vec4(vec3:)`: a direction column, with a zero fourth component. */
  function Extend(v: Vec3): Vec4 {
    Vec4(v.x, v.y, v.z, 0.0)
  }

  /** The product `m * v` of a matrix and a column vector. */
  function Apply3(m: Mat3, v: Vec3): Vec3 {
    Add3(Add3(Scale3(m.c0, v.x), Scale3(m.c1, v.y)), Scale3(m.c2, v.z))
  }

  /** The matrix product `a * b`: column j of the result is `a` applied to column j of `b`. */
  function Mul3(a: Mat3, b: Mat3): Mat3 {
    Mat3(Apply3(a, b.c0), Apply3(a, b.c1), Apply3(a, b.c2))
  }

  function Apply4(m: Mat4, v: Vec4): Vec4 {
    Add4(Add4(Scale4(m.c0, v.x), Scale4(m.c1, v.y)), Add4(Scale4(m.c2, v.z), Scale4(m.c3, v.w)))
  }

  function Mul4(a: Mat4, b: Mat4): Mat4 {
    Mat4(Apply4(a, b.c0), Apply4(a, b.c1), Apply4(a, b.c2), Apply4(a, b.c3))
  }

  /** `Mat4.mat3`: the upper-left 3×3 block, which holds rotation and scale. */
  function Upper3(m: Mat4): Mat3 {
    Mat3(Xyz(m.c0), Xyz(m.c1), Xyz(m.c2))
  }

  const Identity3: Mat3 := Mat3(Vec3(1.0, 0.0, 0.0), Vec3(0.0, 1.0, 0.0), Vec3(0.0, 0.0, 1.0))

  /** An affine transform: bottom row (0, 0, 0, 1). */
  predicate Affine(m: Mat4) {
    m.c0.w == 0.0 && m.c1.w == 0.0 && m.c2.w == 0.0 && m.c3.w == 1.0
  }

  /** The 3×3 product is not commutative, so the order of its factors is observable. */
  lemma Mul3NotCommutative() returns (a: Mat3, b: Mat3)
    ensures Mul3(a, b) != Mul3(b, a)
  {
    // a shear, and a scale along x
    a := Mat3(Vec3(1.0, 0.0, 0.0), Vec3(1.0, 1.0, 0.0), Vec3(0.0, 0.0, 1.0));
    b := Mat3(Vec3(2.0, 0.0, 0.0), Vec3(0.0, 1.0, 0.0), Vec3(0.0, 0.0, 1.0));
  }
}
