/**
 * The random draws of the seeded generator (rand_alea.js, which is not part of
 * this model): each draw is a number u in [0, 1), and a ranged draw
 * floatBetween(a, b) is a + (b - a) * u on one draw.
 */
module Rand {
  /** True of a draw of the generator. */
  predicate IsDraw(u: real) { 0.0 <= u < 1.0 }

  /** A draw scaled into [a, b). */
  function FloatBetween(a: real, b: real, u: real): (v: real)
    ensures a < b && IsDraw(u) ==> a <= v < b
    ensures a < b && IsDraw(u) && u > 0.0 ==> a < v
  {
    var d := b - a;
    assert d > 0.0 && IsDraw(u) ==> 0.0 <= d * u < d by {
      if d > 0.0 && IsDraw(u) { MulBelow(d, u); }
    }
    a + d * u
  }

  lemma MulBelow(d: real, u: real)
    requires d > 0.0 && 0.0 <= u < 1.0
    ensures 0.0 <= d * u < d
  {
    assert d * (1.0 - u) > 0.0;
  }
}
