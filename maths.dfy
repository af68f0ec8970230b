/**
 * The DirectXMath values and operations the renderer uses.
 *
 * Vectors are triples of reals (exact arithmetic stands in for 32-bit
 * floats). The matrix and rotation routines are uninterpreted: each is an
 * arbitrary function of its signature, fixed once for the whole model, so no
 * numeric identity about them can be proved. The only facts assumed about
 * them are three exact ones, written into their types: the identity
 * scale/rotation/translation composes to the identity matrix, the identity
 * matrix is its own inverse-transpose, and the zero rotation leaves a vector
 * unchanged.
 */
module Maths {

  /** XMFLOAT2. */
  datatype Vec2 = Vec2(x: real, y: real)

  /** XMFLOAT3. */
  datatype Vec3 = Vec3(x: real, y: real, z: real)

  /** XMFLOAT4 (colours, matrix rows). */
  datatype Vec4 = Vec4(x: real, y: real, z: real, w: real)

  /** XMFLOAT4X4, row by row. */
  datatype Matrix = Matrix(r0: Vec4, r1: Vec4, r2: Vec4, r3: Vec4)

  const Zero3 := Vec3(0.0, 0.0, 0.0)
  const One3 := Vec3(1.0, 1.0, 1.0)
  const WorldUp := Vec3(0.0, 1.0, 0.0)
  const WorldRight := Vec3(1.0, 0.0, 0.0)
  const WorldForward := Vec3(0.0, 0.0, 1.0)

  /** XMMatrixIdentity(). */
  const Identity := Matrix(Vec4(1.0, 0.0, 0.0, 0.0), Vec4(0.0, 1.0, 0.0, 0.0),
                           Vec4(0.0, 0.0, 1.0, 0.0), Vec4(0.0, 0.0, 0.0, 1.0))

  /** A value-initialised XMFLOAT4X4 (`{}`): all zero. */
  const ZeroMatrix := Matrix(Vec4(0.0, 0.0, 0.0, 0.0), Vec4(0.0, 0.0, 0.0, 0.0),
                             Vec4(0.0, 0.0, 0.0, 0.0), Vec4(0.0, 0.0, 0.0, 0.0))

  /** XM_PI as DirectXMath spells it; M_PI is the same value to this precision. */
  const Pi: real := 3.141592654

  /** Component-wise sum (XMVECTOR +). */
  function Add(a: Vec3, b: Vec3): Vec3 {
    Vec3(a.x + b.x, a.y + b.y, a.z + b.z)
  }

  /** Component-wise product (XMVECTOR *). */
  function Mul(a: Vec3, b: Vec3): Vec3 {
    Vec3(a.x * b.x, a.y * b.y, a.z * b.z)
  }

  /** Every component multiplied by k. */
  function Times(v: Vec3, k: real): Vec3 {
    Vec3(v.x * k, v.y * k, v.z * k)
  }

  /** XMConvertToRadians. */
  function ToRadians(degrees: real): real {
    degrees * (Pi / 180.0)
  }

  /** Scaling * RotationRollPitchYaw * Translation, the world-matrix product. */
  type ComposeFunction = f: (Vec3, Vec3, Vec3) -> Matrix | f(One3, Zero3, Zero3) == Identity
    witness (s: Vec3, r: Vec3, t: Vec3) => Identity
  const ComposeImpl: ComposeFunction

  function Compose(scale: Vec3, rotation: Vec3, translation: Vec3): Matrix {
    ComposeImpl(scale, rotation, translation)
  }

  /** XMMatrixInverse(XMMatrixTranspose(m)). */
  type InverseTransposeFunction = f: Matrix -> Matrix | f(Identity) == Identity
    witness (m: Matrix) => m
  const InverseTransposeImpl: InverseTransposeFunction

  function InverseTranspose(m: Matrix): Matrix {
    InverseTransposeImpl(m)
  }

  /**
   * XMVector3Rotate(v, XMQuaternionRotationRollPitchYaw(rotation.x,
   * rotation.y, rotation.z)): v turned by the orientation the Euler angles
   * give.
   */
  type RotateFunction = f: (Vec3, Vec3) -> Vec3 | forall v :: f(Zero3, v) == v
    witness (r: Vec3, v: Vec3) => v
  const RotateByImpl: RotateFunction

  function RotateBy(rotation: Vec3, v: Vec3): Vec3 {
    RotateByImpl(rotation, v)
  }

  /** XMVector3Normalize. */
  const NormalizeImpl: Vec3 -> Vec3

  function Normalize(v: Vec3): Vec3 {
    NormalizeImpl(v)
  }

  /** XMMatrixLookToLH(eye, direction, up). */
  const LookToImpl: (Vec3, Vec3, Vec3) -> Matrix

  function LookTo(eye: Vec3, direction: Vec3, up: Vec3): Matrix {
    LookToImpl(eye, direction, up)
  }

  /** XMMatrixPerspectiveFovLH(fovY, aspect, near, far). */
  const PerspectiveImpl: (real, real, real, real) -> Matrix

  function PerspectiveFov(fovY: real, aspect: real, near: real, far: real): Matrix {
    PerspectiveImpl(fovY, aspect, near, far)
  }

  /** XMMatrixOrthographicLH(width, height, near, far). */
  const OrthographicImpl: (real, real, real, real) -> Matrix

  function Orthographic(width: real, height: real, near: real, far: real): Matrix {
    OrthographicImpl(width, height, near, far)
  }
}
