/**
 The three Python built-ins the maintenance formula relies on, over exact reals:
 `max` of two numbers, `**` with an integer exponent and `round(x, 2)`.
 */
module PythonNumeric {

  /** `max(a, b)`: the larger of the two (Python returns `a` on a tie; the value is the same). */
  function Max(a: real, b: real): (m: real)
    ensures m >= a && m >= b
    ensures m == a || m == b
  {
    if b > a then b else a
  }

  /** `r ** k` for a natural exponent, by repeated multiplication. */
  function Pow(r: real, k: nat): (p: real)
    ensures r != 0.0 ==> p != 0.0
    ensures 0.0 < r ==> 0.0 < p
    ensures 0.0 < r <= 1.0 ==> p <= 1.0
    ensures 0.0 < r < 1.0 && k > 0 ==> p < 1.0
  {
    if k == 0 then 1.0 else r * Pow(r, k - 1)
  }

  /** A larger exponent never gives a larger power of a base in (0, 1]. */
  lemma {:induction false} PowAntitone(r: real, j: nat, k: nat)
    requires 0.0 < r <= 1.0
    requires j <= k
    ensures Pow(r, k) <= Pow(r, j)
  {
    if j < k {
      PowAntitone(r, j, k - 1);
      PowStepDown(r, k);
    }
  }

  /** One more factor in (0, 1] does not increase the power. */
  lemma PowStepDown(r: real, k: nat)
    requires 0.0 < r <= 1.0 && k > 0
    ensures Pow(r, k) <= Pow(r, k - 1)
  {
    var q := Pow(r, k - 1);
    assert q - r * q == (1.0 - r) * q;
  }

  /** `r ** e` for any integer exponent: a negative exponent gives the reciprocal power. */
  function IntPow(r: real, e: int): (p: real)
    requires r != 0.0
    ensures p != 0.0
    ensures 0.0 < r ==> 0.0 < p
    ensures 0.0 < r < 1.0 ==> (p == 1.0 <==> e == 0) && (p < 1.0 <==> e > 0)
  {
    if e >= 0 then Pow(r, e)
    else
      var q := Pow(r, -e);
      assert 0.0 < r < 1.0 ==> 1.0 / q > 1.0 by {
        if 0.0 < r < 1.0 { assert 0.0 < q < 1.0; assert (1.0 / q) * q == 1.0; }
      }
      1.0 / q
  }

  /** Raising the exponent by one multiplies the power by the base, for every integer exponent. */
  lemma IntPowStep(r: real, e: int)
    requires r != 0.0
    ensures IntPow(r, e + 1) == r * IntPow(r, e)
  {
    if e < -1 {
      var q := Pow(r, -e - 1);
      assert Pow(r, -e) == r * q;
      calc {
        r * IntPow(r, e);
        r * (1.0 / (r * q));
        1.0 / q;
      }
    } else if e == -1 {
      assert Pow(r, 1) == r * Pow(r, 0);
    }
  }

  /** The integer nearest to `y`, ties going to the even neighbour (Python's rounding rule). */
  function RoundHalfEven(y: real): (k: int)
    ensures k as real - y <= 0.5 && y - k as real <= 0.5
    ensures y.Floor as real == y ==> k == y.Floor
    ensures y - y.Floor as real == 0.5 ==> k % 2 == 0
  {
    var f := y.Floor;
    var frac := y - f as real;
    if frac < 0.5 then f
    else if frac > 0.5 then f + 1
    else if f % 2 == 0 then f
    else f + 1
  }

  /** `x` is a whole number of hundredths. */
  predicate HasTwoDecimals(x: real) {
    (x * 100.0).Floor as real == x * 100.0
  }

  /** `round(x, 2)`: the nearest multiple of 0.01, ties to the even multiple. */
  function Round2(x: real): (r: real)
    ensures HasTwoDecimals(r)
    ensures -0.005 <= r - x <= 0.005
    ensures x * 100.0 - (x * 100.0).Floor as real == 0.5 ==> (r * 100.0).Floor % 2 == 0
  {
    var k := RoundHalfEven(x * 100.0);
    var r := k as real / 100.0;
    assert r * 100.0 == k as real;
    assert (k as real).Floor == k;
    r
  }

  /** Rounding to the nearest integer is monotone. */
  lemma RoundHalfEvenMonotone(x: real, y: real)
    requires x <= y
    ensures RoundHalfEven(x) <= RoundHalfEven(y)
  {
    var fx, fy := x.Floor, y.Floor;
    assert fx <= fy;
    if fx == fy {
      assert x - fx as real <= y - fy as real;
    }
  }

  /** `round(·, 2)` is monotone: it never reverses the order of two amounts. */
  lemma Round2Monotone(x: real, y: real)
    requires x <= y
    ensures Round2(x) <= Round2(y)
  {
    RoundHalfEvenMonotone(x * 100.0, y * 100.0);
  }

  /** `round(·, 2)` leaves an amount that already has two decimals unchanged. */
  lemma Round2Fixes(x: real)
    requires HasTwoDecimals(x)
    ensures Round2(x) == x
  {
    assert RoundHalfEven(x * 100.0) as real == x * 100.0;
  }

  /** Every whole number of units has two decimals. */
  lemma WholeHasTwoDecimals(n: int)
    ensures HasTwoDecimals(n as real)
  {
    assert (n as real) * 100.0 == (n * 100) as real;
  }
}
