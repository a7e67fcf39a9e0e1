// Integer and real helpers with the source language's own semantics.
module Numbers {

  function MaxInt(a: int, b: int): int {
    if a > b then a else b
  }

  function MinInt(a: int, b: int): int {
    if a < b then a else b
  }

  // Go's integer division truncates toward zero.
  function DivTrunc(a: int, b: int): int
    requires b > 0
  {
    if a >= 0 then a / b else -((-a) / b)
  }

  // Go's conversion of a float to an int drops the fraction.
  function Trunc(x: real): int {
    if x >= 0.0 then x.Floor else -((-x).Floor)
  }

  // math.Round: half away from zero.
  function Round(x: real): int {
    if x >= 0.0 then (x + 0.5).Floor else -((-x + 0.5).Floor)
  }
}

module Wrappers {
  datatype Option<+T> = None | Some(value: T)
}
