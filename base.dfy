// Value types shared by the whole model: optional values, vectors and colours.
// Floating-point components are modelled as reals; only comparisons, negation
// and exact copies matter to the properties proved about them.
module Base {

  datatype Option<T> = None | Some(value: T)

  /** The outcome of an operation that throws: a value, or the exception's message. */
  datatype Result<T> = Success(value: T) | Failure(error: string)

  /** A texture or cube texture, by identity (a non-null pointer); the texture classes are not part of this model. */
  type TextureRef = nat

  datatype Vec2 = Vec2(x: real, y: real)

  datatype Vec3 = Vec3(x: real, y: real, z: real)

  datatype Color3 = Color3(r: real, g: real, b: real)

  datatype Color4 = Color4(r: real, g: real, b: real, a: real)

  const Zero2: Vec2 := Vec2(0.0, 0.0)
  const Zero3: Vec3 := Vec3(0.0, 0.0, 0.0)
  const Black: Color3 := Color3(0.0, 0.0, 0.0)

  /** `PATH_SPLITTER`, the separator between a directory and a file name, taken as on POSIX systems. */
  const PathSplitter: char := '/'

  /** Unary minus on a vector. */
  function Neg(v: Vec3): (r: Vec3)
    ensures r.x == -v.x && r.y == -v.y && r.z == -v.z
  {
    Vec3(-v.x, -v.y, -v.z)
  }

  function Min(a: real, b: real): real { if a <= b then a else b }
  function Max(a: real, b: real): real { if a >= b then a else b }
  function Abs(a: real): real { if a < 0.0 then -a else a }

  /** A `byte`. */
  type Byte = n: int | 0 <= n < 256

  /** Number of values of an unsigned 16-bit integer (`ushort`). */
  const U16Range: nat := 65536

  /** A value of an unsigned 16-bit integer. */
  type U16 = n: nat | n < U16Range

  /** Truncation performed when a wider unsigned value is stored in a `ushort`. */
  function ToU16(n: nat): (r: U16)
    ensures r < U16Range
    ensures n < U16Range ==> r == n
  {
    n % U16Range
  }

  /** Number of values of an unsigned 32-bit integer (`uint`). */
  const U32Range: nat := 0x1_0000_0000

  /** Half of it: a signed 32-bit integer (`int`) lies in `[-I32Half, I32Half)`. */
  const I32Half: nat := 0x8000_0000

  /**
   * The conversion of a signed 32-bit value to `uint` that C++ applies when the
   * two meet in a comparison: negative values wrap to the top of the range.
   */
  function ToU32(n: int): (r: nat)
    requires -(I32Half as int) <= n < I32Half as int
    ensures r < U32Range
    ensures n >= 0 ==> r == n
    ensures n < 0 ==> r >= I32Half
  {
    n % U32Range
  }
}
