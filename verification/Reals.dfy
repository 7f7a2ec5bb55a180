/** The elementwise numeric primitives the control code takes from its array library, over exact reals. */
module Reals {
  function Abs(x: real): real {
    if x < 0.0 then -x else x
  }

  function Min(a: real, b: real): real {
    if a <= b then a else b
  }

  function Max(a: real, b: real): real {
    if a <= b then b else a
  }

  /** `clip(x, lo, hi)`: the lower bound is applied first, as the array library does. */
  function Clip(x: real, lo: real, hi: real): real {
    Min(Max(x, lo), hi)
  }
}
