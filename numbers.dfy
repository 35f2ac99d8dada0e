/** JavaScript's Math.round, Math.min and Math.max over exact reals. */
module Numbers {

  function Min(a: real, b: real): real { if a <= b then a else b }

  function Max(a: real, b: real): real { if a >= b then a else b }

  /** Math.round: the nearest integer, halves rounded towards +infinity. */
  function Round(x: real): (r: int)
    ensures r as real - 0.5 <= x < r as real + 0.5
  {
    (x + 0.5).Floor
  }

  /** Round is monotone, so bounds on x carry over to Round(x). */
  lemma RoundMonotone(x: real, y: real)
    requires x <= y
    ensures Round(x) <= Round(y)
  {
  }

  /** Rounding an integral value gives it back. */
  lemma RoundInt(n: int)
    ensures Round(n as real) == n
  {
  }

  /** Percentages: a value in [0, 1] rounds to a percentage in [0, 100]. */
  lemma RoundPercent(x: real)
    requires 0.0 <= x <= 1.0
    ensures 0 <= Round(x * 100.0) <= 100
  {
    RoundMonotone(0.0, x * 100.0);
    RoundMonotone(x * 100.0, 100.0);
    RoundInt(0);
    RoundInt(100);
  }

  /** Two values that add up to 100 round to two integers that add up to 100 or 101. */
  lemma RoundComplement(a: real)
    ensures 100 <= Round(a) + Round(100.0 - a) <= 101
  {
  }

  /** Two parts of a positive whole, as fractions of it, add up to one. */
  lemma FractionsAddUp(a: real, b: real, n: real)
    requires n > 0.0 && a + b == n
    ensures a / n + b / n == 1.0
  {
    assert a / n + b / n == (a + b) / n;
  }
}
