/** JavaScript numbers as the pricing code uses them.

    Every number the quote calculator handles is an exact decimal, so a
    finite number is modelled by a `real` (no IEEE-754 rounding). The one
    non-finite value the calculator can produce is NaN: looking up a key that
    a rate table does not have yields `undefined`, and `x * undefined` is NaN
    for every number `x`. NaN then propagates through `+` and `*`, and every
    comparison with it is false. */
module JsNumber {

  datatype Num = Finite(value: real) | NaN

  /** JavaScript `x + y` on numbers. */
  function Add(x: Num, y: Num): Num {
    if x.Finite? && y.Finite? then Finite(x.value + y.value) else NaN
  }

  /** JavaScript `x * y` on numbers. */
  function Mul(x: Num, y: Num): Num {
    if x.Finite? && y.Finite? then Finite(x.value * y.value) else NaN
  }

  /** JavaScript `x > 0`, which is false for NaN. */
  predicate Positive(x: Num) {
    x.Finite? && x.value > 0.0
  }
}
