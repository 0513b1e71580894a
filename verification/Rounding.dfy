/** Python's `round`: to the nearest integer, ties to the even one. */
module Rounding {

  function RoundHalfEven(num: int, den: int): (q: int)
    requires den > 0
    ensures 2 * num - den <= 2 * (den * q) <= 2 * num + den
  {
    var floor, rest := num / den, num % den;
    assert num == den * floor + rest;
    assert den * (floor + 1) == den * floor + den;
    if 2 * rest < den || (2 * rest == den && floor % 2 == 0) then floor else floor + 1
  }

  lemma {:induction false} ProductNonneg(a: int, b: int)
    requires a >= 0 && b >= 0
    ensures a * b >= 0
  {
  }

  lemma {:induction false} MulStep(den: int, a: int, b: int)
    requires den > 0 && a < b
    ensures den * a + den <= den * b
  {
    var m := b - a - 1;
    ProductNonneg(den, m);
    assert den * (a + 1 + m) == den * a + den + den * m;
  }

  lemma {:induction false} RoundMonotone(a: int, b: int, den: int)
    requires den > 0 && a <= b
    ensures RoundHalfEven(a, den) <= RoundHalfEven(b, den)
  {
    var fa, fb := a / den, b / den;
    assert a == den * fa + a % den && b == den * fb + b % den;
    if fa > fb {
      MulStep(den, fb, fa);
    }
  }

  /** A multiple of the denominator is rounded to itself. */
  lemma {:induction false} RoundExact(k: int, den: int)
    requires den > 0
    ensures RoundHalfEven(k * den, den) == k
  {
    var q := RoundHalfEven(k * den, den);
    assert den * k == k * den;
    if q > k {
      MulStep(den, k, q);
    } else if q < k {
      MulStep(den, q, k);
    }
  }

  /** Rounding keeps integer bounds. */
  lemma {:induction false} RoundBetween(lo: int, num: int, hi: int, den: int)
    requires den > 0 && lo * den <= num <= hi * den
    ensures lo <= RoundHalfEven(num, den) <= hi
  {
    RoundMonotone(lo * den, num, den);
    RoundMonotone(num, hi * den, den);
    RoundExact(lo, den);
    RoundExact(hi, den);
  }
}
