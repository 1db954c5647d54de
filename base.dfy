/** Small shared vocabulary: optional values, computations that may abort, and the
    numeric primitives that the robotics code calls but that are not modelled here. */
module Base {

  datatype Option<+T> = None | Some(value: T)

  /** The result of an operation that either returns a value or aborts the program
      (a Rust panic), carrying the panic message. */
  datatype Outcome<+T> = Ok(value: T) | Panic(message: string)

  /** The panic message of a `usize` subtraction that would go below zero. */
  const SUBTRACT_OVERFLOW: string := "attempt to subtract with overflow"

  /** The floating-point primitives the algorithms call (f32 `sqrt`, `cos`, `sin`) and the
      Gaussian density `gauss_likelihood(x, sigma)`. They are uninterpreted: the model says
      where and with which arguments they are called, never what they return. */
  datatype Numerics = Numerics(
    sqrt: real -> real,
    cos: real -> real,
    sin: real -> real,
    gaussLikelihood: (real, real) -> real)

  /** `core::f32::consts::PI`, as a real. */
  const PI: real := 3.14159265358979323846

  /** `f32::to_radians`: degrees times PI / 180. */
  function ToRadians(degrees: real): real
  {
    degrees * (PI / 180.0)
  }
}
