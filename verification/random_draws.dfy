/**
  The three random helpers of the simulator (`getRandomInt`,
  `getRandomArbitrary`, `getRandomCoinFlip`) with the call to
  `Math.random()` made explicit: each helper takes the uniform draw `r` it
  would have obtained as an argument. `Math.random()` returns a value in
  [0, 1), which `IsDraw` names.
*/
module RandomDraws {

  /** A value `Math.random()` can return. */
  predicate IsDraw(r: real) {
    0.0 <= r < 1.0
  }

  /** `Math.ceil` on reals: the least integer not below `x`. */
  function Ceil(x: real): (c: int)
    ensures (c - 1) as real < x <= c as real
  {
    -((-x).Floor)
  }

  /** The number of integers `getRandomInt(min, max)` chooses among:
      `max - min + 1` after `min` is rounded up and `max` rounded down. */
  function IntChoices(min: real, max: real): int {
    max.Floor - Ceil(min) + 1
  }

  /**
    `getRandomInt(min, max)`: rounds `min` up and `max` down, then scales the
    draw over the integers in between. When the rounded range is empty the
    source still returns a value, between `floor(max) + 1` and `ceil(min)`.
  */
  function GetRandomInt(min: real, max: real, r: real): (n: int)
    ensures IsDraw(r) && Ceil(min) <= max.Floor ==> Ceil(min) <= n <= max.Floor
    ensures IsDraw(r) && max.Floor < Ceil(min) ==> max.Floor + 1 <= n <= Ceil(min)
    ensures r == 0.0 ==> n == Ceil(min)
  {
    ScaledDrawFloor(r, IntChoices(min, max));
    (r * IntChoices(min, max) as real).Floor + Ceil(min)
  }

  /** The sign of a product of reals from the signs of its factors. */
  lemma MulSign(a: real, b: real)
    ensures 0.0 < a && 0.0 < b ==> 0.0 < a * b
    ensures 0.0 < a && b < 0.0 ==> a * b < 0.0
    ensures 0.0 <= a && 0.0 <= b ==> 0.0 <= a * b
    ensures 0.0 <= a && b <= 0.0 ==> a * b <= 0.0
  {
  }

  /** Multiplying both sides by a positive factor preserves `<` and `<=`. */
  lemma MulMonotonic(a: real, b: real, c: real)
    requires 0.0 < c
    ensures a < b <==> a * c < b * c
    ensures a <= b <==> a * c <= b * c
  {
    assert (b - a) * c == b * c - a * c;
    MulSign(b - a, c);
    MulSign(a - b, c);
    assert (a - b) * c == a * c - b * c;
  }

  /** Scaling a draw by an integer `n` and rounding down lands in [0, n) for
      positive `n` and in [n, 0] otherwise. */
  lemma ScaledDrawFloor(r: real, n: int)
    ensures IsDraw(r) && 0 < n ==> 0 <= (r * n as real).Floor < n
    ensures IsDraw(r) && n <= 0 ==> n <= (r * n as real).Floor <= 0
  {
    if IsDraw(r) {
      ScaledDrawBounds(r, n as real);
    }
  }

  /** Floor of a product with a positive integer: `floor(r * n) == k` exactly
      when `k / n <= r < (k + 1) / n`. */
  lemma ScaledFloorBucket(r: real, n: int, k: int)
    requires 0 < n
    ensures (r * n as real).Floor == k <==> k as real / n as real <= r < (k + 1) as real / n as real
  {
    var nr := n as real;
    MulMonotonic(k as real / nr, r, nr);
    assert k as real / nr * nr == k as real;
    MulMonotonic(r, (k + 1) as real / nr, nr);
    assert (k + 1) as real / nr * nr == (k + 1) as real;
  }

  /**
    `getRandomInt` is uniform over its range: each integer `lo + k` of the
    `n` choices is returned for exactly the draws in [k/n, (k+1)/n), a
    bucket of width 1/n inside [0, 1).
  */
  lemma GetRandomIntBucket(min: real, max: real, r: real, k: int)
    requires Ceil(min) <= max.Floor
    requires 0 <= k < IntChoices(min, max)
    ensures GetRandomInt(min, max, r) == Ceil(min) + k
            <==> k as real / IntChoices(min, max) as real <= r < (k + 1) as real / IntChoices(min, max) as real
    ensures 0.0 <= k as real / IntChoices(min, max) as real
    ensures (k + 1) as real / IntChoices(min, max) as real <= 1.0
  {
    var n := IntChoices(min, max);
    ScaledFloorBucket(r, n, k);
    assert (k + 1) as real / n as real <= 1.0 by {
      assert (k + 1) as real <= n as real;
    }
  }

  /**
    `getRandomArbitrary(min, max)`: the draw scaled onto the interval from
    `min` towards `max`. For `min < max` the result lies in [min, max).
  */
  function GetRandomArbitrary(min: real, max: real, r: real): (v: real)
    ensures IsDraw(r) && min < max ==> min <= v < max
    ensures IsDraw(r) && max < min ==> max < v <= min
    ensures min == max ==> v == min
  {
    ArbitraryBounds(min, max, r);
    r * (max - min) + min
  }

  /** A draw scaled by `w` stays within [0, w) for positive `w` and within
      (w, 0] for negative `w`. */
  lemma ScaledDrawBounds(r: real, w: real)
    requires IsDraw(r)
    ensures 0.0 < w ==> 0.0 <= r * w < w
    ensures w <= 0.0 ==> w <= r * w <= 0.0
    ensures w < 0.0 ==> w < r * w
  {
    MulSign(r, w);
    MulSign(1.0 - r, w);
    assert (1.0 - r) * w == w - r * w;
  }

  /** A draw in [0, 1) scaled onto the interval between `min` and `max`
      stays on the `min` side of `max`, whichever way round the two are. */
  lemma ArbitraryBounds(min: real, max: real, r: real)
    ensures IsDraw(r) && min < max ==> min <= r * (max - min) + min < max
    ensures IsDraw(r) && max < min ==> max < r * (max - min) + min <= min
    ensures min == max ==> r * (max - min) + min == min
  {
    var w := max - min;
    MulSign(r, w);
    MulSign(1.0 - r, w);
    assert (1.0 - r) * w == w - r * w;
  }

  /** The draw can be recovered from the value `getRandomArbitrary` returns
      whenever the interval is not degenerate: the scaling is invertible. */
  lemma GetRandomArbitraryInverse(min: real, max: real, r: real)
    requires min != max
    ensures (GetRandomArbitrary(min, max, r) - min) / (max - min) == r
  {
    var w := max - min;
    assert GetRandomArbitrary(min, max, r) - min == r * w;
    assert r * w / w == r;
  }

  /** `getRandomArbitrary` is strictly increasing in the draw when
      `min < max`, so distinct draws give distinct values in order. */
  lemma GetRandomArbitraryMonotonic(min: real, max: real, r1: real, r2: real)
    requires min < max
    requires r1 < r2
    ensures GetRandomArbitrary(min, max, r1) < GetRandomArbitrary(min, max, r2)
  {
    MulMonotonic(r1, r2, max - min);
  }

  /**
    `getRandomCoinFlip(probability)` succeeds when the draw is at most the
    probability. The comparison is `<=`, so a probability of 0 still
    succeeds on the draw 0; it is not a saturating flip.
  */
  function GetRandomCoinFlip(probability: real, r: real): (b: bool)
    ensures IsDraw(r) && 1.0 <= probability ==> b
    ensures probability < 0.0 && 0.0 <= r ==> !b
    ensures probability == 0.0 ==> (b <==> r <= 0.0)
    ensures IsDraw(r) && probability == 0.0 ==> (b <==> r == 0.0)
    ensures IsDraw(r) && 0.0 <= probability < 1.0 ==> (b <==> 0.0 <= r <= probability)
  {
    r <= probability
  }

  /** A saturating Bernoulli trial: never succeeds for a probability at most
      0, always for one at least 1, and otherwise on draws below it. */
  function SaturatingCoinFlip(probability: real, r: real): bool {
    if probability <= 0.0 then false
    else if 1.0 <= probability then true
    else r < probability
  }

  /**
    On draws in [0, 1) the source's flip differs from the saturating flip
    exactly when the draw equals the probability: on at most one point, and
    on none at all for a probability below 0 or at least 1. So both succeed
    on sets of draws of the same width, but a probability of 0 is not
    "never".
  */
  lemma CoinFlipVersusSaturating(probability: real, r: real)
    requires IsDraw(r)
    ensures GetRandomCoinFlip(probability, r) != SaturatingCoinFlip(probability, r) <==> r == probability
  {
  }

  /** Raising the probability never turns a success into a failure. */
  lemma CoinFlipMonotonic(p1: real, p2: real, r: real)
    requires p1 <= p2
    ensures GetRandomCoinFlip(p1, r) ==> GetRandomCoinFlip(p2, r)
  {
  }
}
