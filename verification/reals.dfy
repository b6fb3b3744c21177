/** Natural-number powers of reals, used for the geometric schedules of the
    fractal octave loop and of the camera easing, the range of a
    Math.random() result, and small facts about products and quotients. */
module Reals {

  /** A Math.random() result: a real in [0, 1). */
  predicate UnitInterval(r: real)
  {
    0.0 <= r < 1.0
  }

  /** Small facts about real products and quotients that the solver does not
      find on its own inside larger proofs. */
  lemma MulNonNeg(a: real, b: real)
    requires a >= 0.0 && b >= 0.0
    ensures a * b >= 0.0
  {
  }

  lemma MulMono(a: real, b: real, c: real)
    requires a <= b && c >= 0.0
    ensures a * c <= b * c
  {
  }

  lemma DivNonPos(n: real, d: real)
    requires n <= 0.0 && d > 0.0
    ensures n / d <= 0.0
  {
  }

  lemma DivAtLeastOne(n: real, d: real)
    requires n >= d && d > 0.0
    ensures n / d >= 1.0
  {
  }

  lemma SquareMono(a: real, b: real)
    requires 0.0 <= a <= b
    ensures a * a <= b * b
  {
    MulMono(a, b, a);
    MulMono(a, b, b);
  }

  lemma MulStrict(a: real, b: real, c: real)
    requires a < b && c > 0.0
    ensures a * c < b * c
  {
  }

  /** Dividing by a positive number keeps the order of the dividends, in both
      directions, and multiplying back recovers the dividend. */
  lemma DivMono(a: real, b: real, w: real)
    requires w > 0.0
    ensures a <= b <==> a / w <= b / w
    ensures a / w * w == a && b / w * w == b
  {
    var ua, ub := a / w, b / w;
    assert a == ua * w && b == ub * w;
    if ua <= ub {
      MulMono(ua, ub, w);
    } else {
      MulStrict(ub, ua, w);
    }
  }

  lemma MulAssoc(a: real, b: real, c: real)
    ensures (a * b) * c == a * (b * c)
  {
  }

  lemma MulPos(a: real, b: real)
    requires a > 0.0 && b > 0.0
    ensures a * b > 0.0
  {
  }

  /** Squaring is strictly monotone on the non-negative reals:
      hi^2 - k^2 = (hi - k)(hi + k) > 0. */
  lemma SquareStrict(k: real, hi: real)
    requires 0.0 <= k < hi
    ensures k * k < hi * hi
  {
    MulPos(hi - k, hi + k);
    assert (hi - k) * (hi + k) == hi * hi - k * k;
  }

  /** A value in [lo, hi) has its square in [lo^2, hi^2). */
  lemma SquareBounds(lo: real, k: real, hi: real)
    requires 0.0 <= lo <= k < hi
    ensures lo * lo <= k * k < hi * hi
  {
    SquareMono(lo, k);
    SquareStrict(k, hi);
  }

  lemma DivDiv(a: real, q: real, l: real)
    requires q != 0.0 && l != 0.0
    ensures (a / q) / l == a / (l * q)
  {
  }

  /** b raised to the natural power k. */
  function Power(b: real, k: nat): real
  {
    if k == 0 then 1.0 else b * Power(b, k - 1)
  }

  /** A positive base has positive powers. */
  lemma {:induction false} PowerPositive(b: real, k: nat)
    requires b > 0.0
    ensures Power(b, k) > 0.0
  {
    if k > 0 {
      PowerPositive(b, k - 1);
      assert Power(b, k) == b * Power(b, k - 1);
    }
  }

  /** A non-negative base has non-negative powers. */
  lemma {:induction false} PowerNonNeg(b: real, k: nat)
    requires b >= 0.0
    ensures Power(b, k) >= 0.0
  {
    if k > 0 {
      PowerNonNeg(b, k - 1);
      MulNonNeg(b, Power(b, k - 1));
    }
  }

  /** A non-zero base has non-zero powers. */
  lemma {:induction false} PowerNonZero(b: real, k: nat)
    requires b != 0.0
    ensures Power(b, k) != 0.0
  {
    if k > 0 {
      PowerNonZero(b, k - 1);
    }
  }
}
