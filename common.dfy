/** Small shared definitions: an optional value and the two comparisons the
    pages use as `Math.min` / `Math.max` on time and percent values. */
module Common {

  /** A value that may be absent (`undefined`, `null`, or `NaN` for a media
      duration that is not known yet). */
  datatype Option<+T> = None | Some(value: T)

  /** `Math.min` on two reals. */
  function Min(a: real, b: real): (r: real)
    ensures r <= a && r <= b
    ensures r == a || r == b
  {
    if a <= b then a else b
  }

  /** `Math.max` on two reals. */
  function Max(a: real, b: real): (r: real)
    ensures r >= a && r >= b
    ensures r == a || r == b
  {
    if a >= b then a else b
  }
}
