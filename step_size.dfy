/**
 * The exchange client's `round_step_size` helper, whose body is not part of this model.
 * Its behaviour is an ASSUMPTION stated here: `x - x % step`, where `%` is the decimal
 * remainder that carries the sign of `x`, i.e. `x` truncated toward zero onto the grid
 * of multiples of `step`. A zero step has no grid; callers treat it as an error.
 */
module StepSize {
  import opened Arith

  function Abs(x: real): real {
    if x < 0.0 then -x else x
  }

  /** The integer part of `q`, truncated toward zero. */
  function Trunc(q: real): (t: int)
    ensures 0.0 <= q ==> 0 <= t && t as real <= q < t as real + 1.0
    ensures q < 0.0 ==> t <= 0 && t as real - 1.0 < q <= t as real
  {
    if 0.0 <= q then q.Floor else -((-q).Floor)
  }

  /** The remainder of `x` by `step`, with the sign of `x`. */
  function Remainder(x: real, step: real): real
    requires step != 0.0
  {
    x - step * (Trunc(x / step) as real)
  }

  /** `round_step_size(x, step)` under the assumption above. */
  function Rounded(x: real, step: real): real
    requires step != 0.0
  {
    x - Remainder(x, step)
  }

  /** Truncation is odd: it commutes with negation. */
  lemma TruncOdd(q: real)
    ensures Trunc(-q) == -Trunc(q)
  {
  }

  /** Rounding depends only on the size of the step and is odd in the value. */
  lemma RoundedSymmetric(x: real, step: real)
    requires step != 0.0
    ensures Rounded(x, -step) == Rounded(x, step)
    ensures Rounded(-x, step) == -Rounded(x, step)
  {
    assert x / -step == -(x / step);
    assert -x / step == -(x / step);
    TruncOdd(x / step);
  }

  /** The case of a non-negative value and a positive step. */
  lemma RoundedTruncatesPositive(x: real, step: real)
    requires 0.0 <= x && 0.0 < step
    ensures 0.0 <= Rounded(x, step) <= x && x - Rounded(x, step) < step
  {
    var q := x / step;
    var t := Trunc(q) as real;
    assert Rounded(x, step) == t * step;
    assert q * step == x;
    MulMonotone(0.0, t, step);
    MulMonotone(t, q, step);
    MulStrict(q, t + 1.0, step);
    calc {
      x;
      == q * step;
      < (t + 1.0) * step;
      == t * step + step;
    }
  }

  /** Rounding truncates: it moves `x` toward zero, by less than one step, never past zero. */
  lemma RoundedTruncates(x: real, step: real)
    requires step != 0.0
    ensures 0.0 <= x ==> 0.0 <= Rounded(x, step) <= x && x - Rounded(x, step) < Abs(step)
    ensures x < 0.0 ==> x <= Rounded(x, step) <= 0.0 && Rounded(x, step) - x < Abs(step)
  {
    RoundedSymmetric(x, step);
    RoundedSymmetric(x, Abs(step));
    RoundedSymmetric(-x, Abs(step));
    if 0.0 <= x {
      RoundedTruncatesPositive(x, Abs(step));
    } else {
      RoundedTruncatesPositive(-x, Abs(step));
    }
  }

  /** The rounded value is a whole number of steps: the quotient truncated, times the step. */
  lemma RoundedOnGrid(x: real, step: real)
    requires step != 0.0
    ensures Rounded(x, step) == Trunc(x / step) as real * step
  {
  }

  /** A value on the grid, `k` whole steps, is left where it is. */
  lemma GridValueFixed(k: int, step: real)
    requires step != 0.0
    ensures Rounded(k as real * step, step) == k as real * step
  {
    assert k as real * step / step == k as real;
    assert Trunc(k as real) == k;
  }

  /** Rounding is idempotent: rounding a rounded value changes nothing. */
  lemma RoundedIdempotent(x: real, step: real)
    requires step != 0.0
    ensures Rounded(Rounded(x, step), step) == Rounded(x, step)
  {
    var t := Trunc(x / step);
    var r := Rounded(x, step);
    assert r == step * (t as real);
    assert r / step == t as real;
    assert Trunc(t as real) == t;
  }
}
