/**
 * Python's built-in `round(x, ndigits)`, which both core files apply to the
 * values they report. On an exact real it gives the multiple of 10^-ndigits
 * nearest to x, and on a tie the multiple whose numerator is even
 * ("round half to even"). The source rounds to 4 places
 * (backend/app/recommendations.py:36, backend/app/features.py:71) and to 2
 * places (backend/app/features.py:75); the lemmas below are stated for those
 * two precisions.
 */
module Rounding {

  function Abs(x: real): real {
    if x < 0.0 then -x else x
  }

  /** 10^d, the scale of `ndigits = d` decimal places. */
  function Pow10(d: nat): (r: nat)
    ensures r >= 1
  {
    if d == 0 then 1 else 10 * Pow10(d - 1)
  }

  /** The integer nearest to y; of two equally near, the even one. */
  function NearestEven(y: real): (k: int)
    ensures Abs(k as real - y) <= 0.5
    ensures Abs(k as real - y) == 0.5 ==> k % 2 == 0
  {
    var n := y.Floor;
    var frac := y - n as real;
    if frac < 0.5 then n
    else if frac > 0.5 then n + 1
    else if n % 2 == 0 then n
    else n + 1
  }

  /** `round(x, ndigits)` on an exact number. */
  function Round(x: real, ndigits: nat): real {
    var scale := Pow10(ndigits) as real;
    NearestEven(x * scale) as real / scale
  }

  /** The precisions the source rounds to. */
  predicate SourcePrecision(ndigits: nat) {
    ndigits == 2 || ndigits == 4
  }

  /** No integer is nearer to y than NearestEven(y). */
  lemma NearestEvenIsNearest(y: real, j: int)
    ensures Abs(NearestEven(y) as real - y) <= Abs(j as real - y)
  {
    var k := NearestEven(y);
    if j != k {
      // Two distinct integers are at least 1 apart, and k is within 1/2 of y.
      assert Abs(j as real - k as real) >= 1.0;
    }
  }

  /** An integer rounds to itself. */
  lemma NearestEvenOfInteger(n: int)
    ensures NearestEven(n as real) == n
  {
  }

  /** Rounding to the nearest integer never reverses an order. */
  lemma NearestEvenMonotone(y1: real, y2: real)
    requires y1 <= y2
    ensures NearestEven(y1) <= NearestEven(y2)
  {
    // Were NearestEven(y1) > NearestEven(y2), then y1 and y2 would both be
    // ties between the same two integers, each resolved to a different one.
  }

  lemma SameProduct(r: real, a: real, b: real)
    requires a == b
    ensures r * a == r * b
  {
  }

  /** The rounded value lies within half a unit of the last kept digit of x. */
  lemma RoundError(x: real, ndigits: nat)
    requires SourcePrecision(ndigits)
    ensures Abs(Round(x, ndigits) - x) * Pow10(ndigits) as real <= 0.5
  {
  }

  lemma RoundIdempotentAt(x: real, ndigits: nat, scale: real)
    requires SourcePrecision(ndigits)
    requires scale == Pow10(ndigits) as real
    requires scale == 100.0 || scale == 10000.0
    ensures Round(Round(x, ndigits), ndigits) == Round(x, ndigits)
  {
    var k := NearestEven(x * scale);
    var r := k as real / scale;
    assert Round(x, ndigits) == r;
    assert r * scale == k as real;
    NearestEvenOfInteger(k);
    assert NearestEven(r * scale) == k;
    SameProduct(r, Pow10(ndigits) as real, scale);
  }

  /** Rounding an already rounded value changes nothing. */
  lemma RoundIdempotent(x: real, ndigits: nat)
    requires SourcePrecision(ndigits)
    ensures Round(Round(x, ndigits), ndigits) == Round(x, ndigits)
  {
    assert Pow10(2) == 100 && Pow10(4) == 10000;
    if ndigits == 2 {
      RoundIdempotentAt(x, ndigits, 100.0);
    } else {
      RoundIdempotentAt(x, ndigits, 10000.0);
    }
  }

  /** Rounding never reverses an order. */
  lemma RoundMonotone(x: real, y: real, ndigits: nat)
    requires x <= y
    requires SourcePrecision(ndigits)
    ensures Round(x, ndigits) <= Round(y, ndigits)
  {
    assert Pow10(2) == 100 && Pow10(4) == 10000;
    if ndigits == 2 {
      NearestEvenMonotone(x * 100.0, y * 100.0);
    } else {
      NearestEvenMonotone(x * 10000.0, y * 10000.0);
    }
  }

  /** Zero rounds to zero. */
  lemma RoundZero(ndigits: nat)
    ensures Round(0.0, ndigits) == 0.0
  {
  }

  /** A non-negative number rounds to a non-negative number. */
  lemma RoundNonNegative(x: real, ndigits: nat)
    requires SourcePrecision(ndigits)
    ensures x >= 0.0 ==> Round(x, ndigits) >= 0.0
  {
    if x >= 0.0 {
      RoundMonotone(0.0, x, ndigits);
      RoundZero(ndigits);
    }
  }
}
