// C integer arithmetic as the library uses it: `/` and `%` truncate
// toward zero (Dafny's own operators are Euclidean). Every divisor the
// library uses is a positive multiplier or count, so only positive
// divisors are modelled.

module CInt {

  function Abs(x: int): nat { if x < 0 then -x else x }

  /** C's integer `/` by a positive divisor: the quotient truncated toward
    * zero, so q * b lies between 0 and a, less than b away from a. */
  function Div(a: int, b: int): int
    requires b > 0
  {
    if a >= 0 then a / b else -((-a) / b)
  }

  /** The quotient truncated toward zero: q * b lies between 0 and a, less
    * than b away from a. */
  lemma DivBounds(a: int, b: int)
    requires b > 0
    ensures var q := Div(a, b);
            && (a >= 0 ==> q * b <= a < q * b + b)
            && (a < 0 ==> q * b - b < a <= q * b)
  {
  }

  /** C's integer `%` by a positive divisor: the remainder of the
    * truncating division, carrying the sign of the dividend. */
  function Mod(a: int, b: int): int
    requires b > 0
  {
    a - Div(a, b) * b
  }

  lemma ModBounds(a: int, b: int)
    requires b > 0
    ensures a == Div(a, b) * b + Mod(a, b)
    ensures a >= 0 ==> 0 <= Mod(a, b) < b
    ensures a < 0 ==> -b < Mod(a, b) <= 0
  {
    DivBounds(a, b);
  }

  lemma MulStep(x: int, y: int, b: int)
    requires b > 0 && x < y
    ensures x * b + b <= y * b
  {
    var d := y - x - 1;
    assert y * b == x * b + b + d * b;
    MulNonneg(d, b);
  }

  lemma MulNonneg(u: int, v: int)
    requires u >= 0 && v >= 0
    ensures u * v >= 0
  {
  }

  /** A non-negative number times a positive one is at least itself. */
  lemma MulGe(u: int, v: int)
    requires u >= 0 && v >= 1
    ensures u * v >= u
  {
    MulNonneg(u, v - 1);
    assert u * v == u + u * (v - 1);
  }

  /** Multiplying by a non-negative number is monotone. */
  lemma MulMono(u: int, v: int, v': int)
    requires u >= 0 && v <= v'
    ensures u * v <= u * v'
  {
    MulNonneg(u, v' - v);
    assert u * v' == u * v + u * (v' - v);
  }

  /** The quotient by a positive divisor has the sign of the dividend and
    * is no larger in magnitude. */
  lemma DivSign(a: int, b: int)
    requires b > 0
    ensures a >= 0 ==> 0 <= Div(a, b) <= a
    ensures a <= 0 ==> a <= Div(a, b) <= 0
  {
    var q := Div(a, b);
    DivBounds(a, b);
    if a >= 0 {
      if q < 0 {
        MulStep(q, 0, b);
      } else {
        MulGe(q, b);
      }
    } else {
      if q > 0 {
        MulStep(0, q, b);
      } else {
        MulGe(-q, b);
        assert (-q) * b == -(q * b);
      }
    }
  }

  /** C division by a positive divisor is monotone in the dividend. */
  lemma DivMonotone(a: int, a': int, b: int)
    requires b > 0 && a <= a'
    ensures Div(a, b) <= Div(a', b)
  {
    var q, q' := Div(a, b), Div(a', b);
    DivBounds(a, b);
    DivBounds(a', b);
    if q > q' {
      MulStep(q', q, b);
      DivSign(a, b);
      DivSign(a', b);
    }
  }

  /** A multiple of the divisor divides exactly. */
  lemma DivExact(k: int, b: int)
    requires b > 0
    ensures Div(k * b, b) == k
  {
    var q := Div(k * b, b);
    DivBounds(k * b, b);
    if q < k { MulStep(q, k, b); }
    if q > k { MulStep(k, q, b); }
  }

  /** Scaling by a factor alp/mux between 0 and 1 keeps the sign and never
    * increases the magnitude: the step of a one-pole filter cannot
    * overshoot its target. */
  lemma ScaleBetween(d: int, alp: int, mux: int)
    requires mux > 0 && 0 <= alp <= mux
    ensures d >= 0 ==> 0 <= Div(d * alp, mux) <= d
    ensures d <= 0 ==> d <= Div(d * alp, mux) <= 0
  {
    DivExact(d, mux);
    if d >= 0 {
      assert d * alp <= d * mux by { assert d * mux - d * alp == d * (mux - alp); MulNonneg(d, mux - alp); }
      MulNonneg(d, alp);
      DivSign(d * alp, mux);
      DivMonotone(d * alp, d * mux, mux);
    } else {
      assert d * mux <= d * alp by { assert d * alp - d * mux == (-d) * (mux - alp); MulNonneg(-d, mux - alp); }
      assert d * alp <= 0 by { assert d * alp == -((-d) * alp); MulNonneg(-d, alp); }
      DivSign(d * alp, mux);
      DivMonotone(d * mux, d * alp, mux);
    }
  }

  /** Dividing a non-negative value by a larger divisor gives no larger a
    * quotient. */
  lemma DivAntitone(a: int, b: int, b': int)
    requires a >= 0 && 0 < b <= b'
    ensures Div(a, b') <= Div(a, b)
  {
    var q, q' := Div(a, b), Div(a, b');
    DivBounds(a, b);
    DivBounds(a, b');
    if q' > q {
      MulStep(q, q', b);
      DivSign(a, b');
      MulMono(q', b, b');
    }
  }
}
