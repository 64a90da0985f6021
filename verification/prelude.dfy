/** Small shared vocabulary: an optional value, a success-or-error result and
    the `min`/`max`/`abs` built-ins of Python, specialised to reals (every Python
    float of the analysis server is modelled as a Dafny `real`). */
module Prelude {

  /** Python's `Optional[T]`: `None` or a present value. */
  datatype Option<+T> = None | Some(value: T)

  /** A value, or the error that replaced it (an exception in the source). */
  datatype Result<+T, +E> = Success(value: T) | Failure(error: E)

  /** A score on the documented 0-100 scale. */
  predicate InPercent(x: real) {
    0.0 <= x <= 100.0
  }

  /** Python's `min(a, b)`: returns the first argument on a tie, which for
      reals is the same value. */
  function Min(a: real, b: real): (r: real)
    ensures r <= a && r <= b
    ensures r == a || r == b
  {
    if b < a then b else a
  }

  /** Python's `max(a, b)`. */
  function Max(a: real, b: real): (r: real)
    ensures r >= a && r >= b
    ensures r == a || r == b
  {
    if b > a then b else a
  }

  /** Python's `abs(x)` on a float. */
  function Abs(x: real): (r: real)
    ensures r >= 0.0
    ensures r == x || r == -x
  {
    if x < 0.0 then -x else x
  }
}
