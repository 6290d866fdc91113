/** The random helper of the page script: `getRandomInt(max)` is
    `Math.floor(Math.random() * max)`.  The host's random draw is not part of
    the model; it is passed in as the value `u` that `Math.random()` returned,
    which the host guarantees to lie in [0, 1). */
module RandomInt {

  /** A value `Math.random()` may return. */
  predicate IsDraw(u: real) {
    0.0 <= u < 1.0
  }

  /** The integer `getRandomInt(max)` yields when the host's draw was `u`:
      the largest integer not above `u * max`, hence an index below `max`. */
  function GetRandomInt(max: int, u: real): (r: int)
    requires IsDraw(u)
    ensures r as real <= u * max as real < r as real + 1.0
    ensures max > 0 ==> 0 <= r < max
  {
    assert max > 0 ==> u * max as real < max as real by {
      if max > 0 {
        assert max as real - u * max as real == (1.0 - u) * max as real;
      }
    }
    (u * max as real).Floor
  }

  /** Every index below `max` is the result of some draw: the draw `k / max`
      yields `k`, so no grass image is unreachable. */
  lemma GetRandomIntReaches(max: int, k: int)
    requires 0 <= k < max
    ensures IsDraw(k as real / max as real)
    ensures GetRandomInt(max, k as real / max as real) == k
  {
  }
}
