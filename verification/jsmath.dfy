/**
 The JavaScript `Math` built-ins the visualizer's arithmetic relies on,
 written out over Dafny's unbounded numbers: `Math.round` and `Math.max`.
 */
module JsMath {

  /** `Math.round`: the nearest integer, halves rounded towards +infinity. */
  function Round(x: real): (r: int)
    ensures x - 0.5 < r as real <= x + 0.5
  {
    (x + 0.5).Floor
  }

  lemma RoundMonotone(x: real, y: real)
    requires x <= y
    ensures Round(x) <= Round(y)
  {
  }

  /** Rounding a whole number gives it back. */
  lemma RoundInt(n: int)
    ensures Round(n as real) == n
  {
  }

  function MaxInt(a: int, b: int): (r: int)
    ensures r >= a && r >= b && (r == a || r == b)
  {
    if a >= b then a else b
  }

  /**
   `Math.max` again, on the real-valued intermediate of the historical
   generator (`Math.max(1, base + variation)` before rounding); Dafny's
   `int` and `real` share no ordered supertype to write one function over.
   */
  function MaxReal(a: real, b: real): (r: real)
    ensures r >= a && r >= b && (r == a || r == b)
  {
    if a >= b then a else b
  }

  lemma MulLe(a: int, b: int, q: int)
    requires a <= b && q >= 0
    ensures a * q <= b * q
  {
  }
}
