/** Rounding a length ratio to a commensurate supercell order: a positive
    whole number n (n film cells on one substrate cell) or its reciprocal 1/n.
    The same helper appears under the names round_ratio and ratio_cal in every
    matcher variant. */
module Commensurate {

  /** x has no fractional part. */
  predicate IsWhole(x: real)
  {
    x == x.Floor as real
  }

  /** A positive whole number or the reciprocal of one. */
  predicate IsCommensurate(q: real)
  {
    q > 0.0 && ((IsWhole(q) && q >= 1.0) || (q <= 1.0 && IsWhole(1.0 / q)))
  }

  /** The host `round` of Python 2: nearest integer, halves away from zero. */
  function Round(x: real): (n: int)
    ensures -0.5 <= n as real - x <= 0.5
    ensures x >= 0.0 ==> n as real - x > -0.5
    ensures x < 0.0 ==> n as real - x < 0.5
  {
    if x >= 0.0 then (x + 0.5).Floor else -((-x + 0.5).Floor)
  }

  /** Everything from one half up to one and a half rounds to one. */
  lemma RoundOne(x: real)
    requires 0.5 <= x < 1.5
    ensures Round(x) == 1
  {
  }

  /** round_ratio: ratios below one are inverted, rounded and inverted back;
      the others are rounded. */
  function RoundRatio(ratio: real): real
    requires ratio > 0.0
  {
    if ratio < 1.0 then
      var inv := 1.0 / ratio;
      assert inv > 1.0 by { assert inv * ratio == 1.0; }
      1.0 / Round(inv) as real
    else
      Round(ratio) as real
  }

  /** The rounded ratio is a supercell order: the nearest whole number to a
      ratio of at least one, and the reciprocal of the nearest whole number to
      the inverse of a smaller ratio, ties going to the larger order. */
  lemma RoundRatioNearest(ratio: real)
    requires ratio > 0.0
    ensures IsCommensurate(RoundRatio(ratio))
    ensures var q := RoundRatio(ratio);
            ratio >= 1.0 ==> IsWhole(q) && q >= 1.0 && -0.5 < q - ratio <= 0.5
    ensures var q := RoundRatio(ratio);
            ratio < 1.0 ==> 0.0 < q <= 1.0 && IsWhole(1.0 / q) && -0.5 < 1.0 / q - 1.0 / ratio <= 0.5
  {
    if ratio < 1.0 {
      var inv := 1.0 / ratio;
      assert inv > 1.0 by { assert inv * ratio == 1.0; }
      var n := Round(inv);
      ReciprocalOfWhole(n);
    } else {
      var n := Round(ratio);
      assert (n as real).Floor == n;
    }
  }

  /** 1/n for a whole n >= 1 lies in (0,1] and inverts back to n. */
  lemma ReciprocalOfWhole(n: int)
    requires n >= 1
    ensures 0.0 < 1.0 / n as real <= 1.0
    ensures 1.0 / (1.0 / n as real) == n as real
    ensures IsWhole(1.0 / (1.0 / n as real))
  {
    assert (n as real).Floor == n;
  }

  /** Whole numbers and their reciprocals are left as they are. */
  lemma FixesCommensurate(n: int)
    requires n >= 1
    ensures RoundRatio(n as real) == n as real
    ensures RoundRatio(1.0 / n as real) == 1.0 / n as real
  {
    assert Round(n as real) == n;
    if n > 1 {
      var q := 1.0 / n as real;
      assert q < 1.0;
      assert 1.0 / q == n as real;
      assert Round(1.0 / q) == n;
    }
  }

  /** Rounding an already rounded ratio changes nothing. */
  lemma RoundRatioIdempotent(ratio: real)
    requires ratio > 0.0
    ensures RoundRatio(RoundRatio(ratio)) == RoundRatio(ratio)
  {
    var q := RoundRatio(ratio);
    RoundRatioNearest(ratio);
    if IsWhole(q) && q >= 1.0 {
      FixesCommensurate(q.Floor);
    } else {
      var n := (1.0 / q).Floor;
      assert n as real == 1.0 / q;
      assert q == 1.0 / n as real;
      FixesCommensurate(n);
    }
  }

  /** The worked values: 1.0 and 2.9 round to 1 and 3, 0.33 to 1/3. */
  lemma RoundRatioExamples()
    ensures RoundRatio(1.0) == 1.0
    ensures RoundRatio(2.9) == 3.0
    ensures RoundRatio(0.33) == 1.0 / 3.0
  {
    assert Round(1.0 / 0.33) == 3;
  }
}
