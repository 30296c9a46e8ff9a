/**
 * `levelProgress` as the source computes it, in double-precision floating
 * point: `Math.floor((xpInCurrentLevel / 100) * 100)`. The division and the
 * multiplication each round to the nearest double, and the two roundings can
 * leave the product just below the whole number it should be.
 * The exact-arithmetic reading is `Helpers.LevelProgress`.
 */
module DoubleProgress {
  import Helpers

  /** 2^52: a double carries 53 significant bits. */
  const Mantissa: real := 4503599627370496.0

  /** The power of two at the bottom of the binade holding `q`, for `q` in [1/128, 128). */
  function Binade(q: real): (low: real)
    requires 1.0 / 128.0 <= q < 128.0
    ensures 0.0 < low <= q < 2.0 * low
  {
    if q < 1.0 / 64.0 then 1.0 / 128.0
    else if q < 1.0 / 32.0 then 1.0 / 64.0
    else if q < 1.0 / 16.0 then 1.0 / 32.0
    else if q < 1.0 / 8.0 then 1.0 / 16.0
    else if q < 1.0 / 4.0 then 1.0 / 8.0
    else if q < 1.0 / 2.0 then 1.0 / 4.0
    else if q < 1.0 then 1.0 / 2.0
    else if q < 2.0 then 1.0
    else if q < 4.0 then 2.0
    else if q < 8.0 then 4.0
    else if q < 16.0 then 8.0
    else if q < 32.0 then 16.0
    else if q < 64.0 then 32.0
    else 64.0
  }

  /** The spacing of doubles next to `q`. */
  function Ulp(q: real): (u: real)
    requires 1.0 / 128.0 <= q < 128.0
    ensures 0.0 < u && u * Mantissa <= q
  {
    Binade(q) / Mantissa
  }

  /** The whole number nearest to `m`, ties to the even one. */
  function RoundHalfEven(m: real): (n: int)
    ensures -0.5 <= n as real - m <= 0.5
  {
    var f := m.Floor;
    if m - f as real < 0.5 then f
    else if m - f as real > 0.5 then f + 1
    else if f % 2 == 0 then f
    else f + 1
  }

  /**
   * The double nearest to `q` (round to nearest, ties to even), for `q` in the
   * normal range the progress computation uses: a whole multiple of the
   * spacing, at most half a spacing away, so within `q / 2^53` of `q`.
   */
  function RoundToDouble(q: real): (r: real)
    requires 1.0 / 128.0 <= q < 128.0
    ensures (r / Ulp(q)).Floor as real == r / Ulp(q)
    ensures -Ulp(q) / 2.0 <= r - q <= Ulp(q) / 2.0
    ensures -q / (2.0 * Mantissa) <= r - q <= q / (2.0 * Mantissa)
  {
    var u := Ulp(q);
    var n := RoundHalfEven(q / u);
    RoundingError(q, u, n);
    assert (n as real * u) / u == n as real;
    n as real * u
  }

  lemma RoundingError(q: real, u: real, n: int)
    requires 0.0 < u && u * Mantissa <= q
    requires -0.5 <= n as real - q / u <= 0.5
    ensures -u / 2.0 <= n as real * u - q <= u / 2.0
    ensures -q / (2.0 * Mantissa) <= n as real * u - q <= q / (2.0 * Mantissa)
  {
    var d := n as real - q / u;
    assert n as real * u - q == d * u;
    NonNegativeRealProduct(0.5 - d, u);
    NonNegativeRealProduct(0.5 + d, u);
    assert (0.5 - d) * u == u / 2.0 - d * u;
    assert (0.5 + d) * u == u / 2.0 + d * u;
    assert u / 2.0 <= q / (2.0 * Mantissa);
  }

  lemma NonNegativeRealProduct(a: real, b: real)
    requires 0.0 <= a && 0.0 <= b
    ensures 0.0 <= a * b
  {
  }

  /**
   * `levelProgress(xp)` as written: the experience earned within the level,
   * divided by the hundred the level spans and multiplied back by a hundred,
   * both in doubles, then floored. The result is the exact percentage or one
   * less.
   */
  function LevelProgressAsWritten(xp: int): (p: int)
    ensures p == xp % 100 || p == xp % 100 - 1
    ensures 0 <= p < 100
  {
    var inLevel := xp - (Helpers.CalculateLevel(xp) - 1) * 100;
    if inLevel == 0 then 0
    else
      var share := RoundToDouble(inLevel as real / 100.0);
      ShareBounds(inLevel, share);
      var scaled := RoundToDouble(share * 100.0);
      ScaledBounds(inLevel, share, scaled);
      scaled.Floor
  }

  lemma ShareBounds(inLevel: int, share: real)
    requires 1 <= inLevel < 100
    requires -(inLevel as real / 100.0) / (2.0 * Mantissa) <= share - inLevel as real / 100.0
                                                           <= (inLevel as real / 100.0) / (2.0 * Mantissa)
    ensures 1.0 / 128.0 <= share * 100.0 < 128.0
    ensures -(inLevel as real) / (2.0 * Mantissa) <= share * 100.0 - inLevel as real
                                                  <= inLevel as real / (2.0 * Mantissa)
  {
  }

  lemma ScaledBounds(inLevel: int, share: real, scaled: real)
    requires 1 <= inLevel < 100
    requires -(inLevel as real) / (2.0 * Mantissa) <= share * 100.0 - inLevel as real
                                                  <= inLevel as real / (2.0 * Mantissa)
    requires 1.0 / 128.0 <= share * 100.0 < 128.0
    requires -(share * 100.0) / (2.0 * Mantissa) <= scaled - share * 100.0 <= (share * 100.0) / (2.0 * Mantissa)
    ensures inLevel as real - 1.0 < scaled < inLevel as real + 1.0
  {
  }

  /** 29 points into a level show as 28 percent, where the exact share is 29. */
  lemma TwentyNineShowsAsTwentyEight()
    ensures LevelProgressAsWritten(29) == 28
    ensures Helpers.LevelProgress(29) == 29
  {
    var q := 29.0 / 100.0;
    assert Binade(q) == 1.0 / 4.0;
    var u := Ulp(q);
    assert q / u == 130604389193744384.0 / 25.0;
    assert (q / u).Floor == 5224175567749775;
    var share := RoundToDouble(q);
    assert share == 5224175567749775.0 * u;
    var x := share * 100.0;
    assert Binade(x) == 16.0;
    assert x / Ulp(x) == 130604389193744375.0 / 16.0;
    assert (x / Ulp(x)).Floor == 8162774324609023;
    var scaled := RoundToDouble(x);
    assert scaled == 8162774324609023.0 * Ulp(x);
    assert scaled.Floor == 28;
  }
}
