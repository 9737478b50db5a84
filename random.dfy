/**
 * Draws of `Math.random()` and the `Math.floor(Math.random() * n)` idiom the
 * program uses to pick an element of a non-empty list. Randomness itself is an
 * oracle: callers pass the draws in.
 */
module Random {
  /** A value `Math.random()` can return: a real in the half-open interval [0, 1). */
  predicate IsUnitDraw(r: real) {
    0.0 <= r < 1.0
  }

  /** `Math.floor(r * n)`: a draw scaled to an index of a list of length `n`. */
  function ScaledIndex(r: real, n: nat): (i: nat)
    requires IsUnitDraw(r) && n > 0
    ensures i < n
    ensures i as real <= r * n as real < i as real + 1.0
  {
    assert r * n as real < n as real by {
      assert (1.0 - r) * n as real > 0.0;
    }
    (r * n as real).Floor
  }
}
