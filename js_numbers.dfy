/** The JavaScript number behaviour the slider relies on: values that may be
    `undefined`, values that may have become non-finite (NaN or an infinity
    after a division by zero), and the rounding helpers `Math.round`,
    `Math.floor` and `Math.abs`. Arithmetic is exact over `real`; IEEE
    rounding is not modelled. */
module JsNumbers {

  /** A variable that may still hold `undefined`. */
  datatype Option<T> = None | Some(value: T)

  /** A JavaScript number that is either a finite value or has become
      NaN/infinite; once non-finite, no comparison with it is true. */
  datatype Num = Fin(value: real) | NonFinite

  function Abs(v: real): (r: real)
    ensures r >= 0.0
    ensures r == v || r == -v
  {
    if v < 0.0 then -v else v
  }

  /** `Math.floor`: the greatest integer not above `v`. */
  function Floor(v: real): (r: int)
    ensures r as real <= v < r as real + 1.0
  {
    v.Floor
  }

  /** `Math.round`: the nearest integer, halves rounded upwards (towards
      positive infinity, also for negative values). */
  function Round(v: real): (r: int)
    ensures r as real - 0.5 <= v < r as real + 0.5
  {
    (v + 0.5).Floor
  }
}
