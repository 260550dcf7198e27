/**
 * Value types shared by both serialisers: an optional value, 3-vectors of
 * reals, and the floating-point behaviour of the host language, which the
 * model takes as given functions rather than re-deriving.
 */
module Basics {

  /** Python's `None` or a value. */
  datatype Option<T> = None | Some(value: T)

  /** A position, Euler rotation (degrees) or scale triple. */
  datatype Vec3 = Vec3(x: real, y: real, z: real)

  /**
   * How the host language turns floats into text and rounds them.
   * `fixed6` is `f"{v:.6f}"`, `repr` is `str(v)` as used by f-string
   * interpolation without a format, and `round4` / `round6` are
   * `round(v, 4)` / `round(v, 6)`. The exporters only ever compare
   * rounded values for equality, so the rounding functions are keys.
   */
  datatype FloatFormat = FloatFormat(
    fixed6: real -> string,
    repr: real -> string,
    round4: real -> real,
    round6: real -> real)

  /** Python truthiness of an optional string: `None` and `""` are false. */
  predicate Truthy(s: Option<string>)
  {
    s.Some? && s.value != ""
  }
}
