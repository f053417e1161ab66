/** Python's `round(x, d)` for d = 0 and d = 2, taken over exact reals:
    round to the nearest multiple of 10^-d, ties to the even neighbour. */
module Rounding {

  /** The integer nearest to y; on a tie, the even one. */
  function HalfEven(y: real): int {
    var f := y.Floor;
    var frac := y - f as real;
    if frac < 0.5 then f
    else if frac > 0.5 then f + 1
    else if f % 2 == 0 then f
    else f + 1
  }

  lemma HalfEvenClose(y: real)
    ensures -0.5 <= HalfEven(y) as real - y <= 0.5
  {
  }

  lemma HalfEvenOfInt(k: int)
    ensures HalfEven(k as real) == k
  {
  }

  lemma {:induction false} HalfEvenMonotone(x: real, y: real)
    requires x <= y
    ensures HalfEven(x) <= HalfEven(y)
  {
    var fx, fy := x.Floor, y.Floor;
    assert fx <= fy;
    if fx < fy {
      assert HalfEven(x) <= fx + 1 <= fy <= HalfEven(y);
    } else {
      assert x - fx as real <= y - fy as real;
    }
  }

  /** `round(x, 2)` */
  function Round2(x: real): real {
    HalfEven(x * 100.0) as real / 100.0
  }

  /** `round(x, 0)` */
  function Round0(x: real): real {
    HalfEven(x) as real
  }

  lemma Round2Close(x: real)
    ensures -0.005 <= Round2(x) - x <= 0.005
  {
    HalfEvenClose(x * 100.0);
  }

  lemma Round0Close(x: real)
    ensures -0.5 <= Round0(x) - x <= 0.5
  {
    HalfEvenClose(x);
  }

  lemma Round2Monotone(x: real, y: real)
    requires x <= y
    ensures Round2(x) <= Round2(y)
  {
    HalfEvenMonotone(x * 100.0, y * 100.0);
  }

  lemma Round0Monotone(x: real, y: real)
    requires x <= y
    ensures Round0(x) <= Round0(y)
  {
    HalfEvenMonotone(x, y);
  }

  lemma Round2Idempotent(x: real)
    ensures Round2(Round2(x)) == Round2(x)
  {
    var n := HalfEven(x * 100.0);
    assert Round2(x) * 100.0 == n as real;
    HalfEvenOfInt(n);
  }

  lemma Round2OfZero()
    ensures Round2(0.0) == 0.0
  {
    HalfEvenOfInt(0);
  }

  /** Rounding keeps the sign: a non-negative value rounds to a
      non-negative one. */
  lemma Round2NonNegative(x: real)
    requires x >= 0.0
    ensures Round2(x) >= 0.0
  {
    Round2OfZero();
    Round2Monotone(0.0, x);
  }
}
