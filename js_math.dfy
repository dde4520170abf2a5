/** `Math.max` on integers, the length bound of `slice(0, n)`, and the one fact
    about signs of real products that the exact-division arguments rest on. */
module JsMath {

  /** `Math.max(a, b)`. */
  function Max(a: int, b: int): int {
    if a < b then b else a
  }

  /** The smaller of `a` and `b`: the length `slice(0, n)` keeps of a list of
      length `a` when `n` is `b`. */
  function Min(a: int, b: int): int {
    if a < b then a else b
  }

  /** Multiplying by a positive real keeps the sign of a non-negative one. */
  lemma ProductSign(x: real, y: real)
    requires x >= 0.0 && y > 0.0
    ensures x * y >= 0.0 && (x > 0.0 ==> x * y > 0.0)
  {
  }
}
