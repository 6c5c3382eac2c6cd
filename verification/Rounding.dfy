/** Rounding half away from zero, in exact arithmetic. */
module Rounding {

  function Round(x: real): int {
    if x >= 0.0 then (x + 0.5).Floor else -((-x + 0.5).Floor)
  }

  /** Rounds to one decimal. */
  function Tenths(x: real): real {
    Round(x * 10.0) as real / 10.0
  }

  /** Rounds to four decimals. */
  function Dollars(x: real): real {
    Round(x * 10000.0) as real / 10000.0
  }

  function Share(part: int, whole: int): real
    requires whole > 0
  {
    part as real / whole as real
  }

  /** A share as a percentage to one decimal. */
  function Percent(share: real): real {
    Round(share * 1000.0) as real / 10.0
  }

  /** Integer division that truncates toward zero. */
  function TruncDiv(a: int, b: int): int
    requires b > 0
  {
    if a >= 0 then a / b else -((-a) / b)
  }

  lemma RoundIsNear(x: real)
    ensures x - 0.5 <= Round(x) as real <= x + 0.5
  {
  }

  /** The nearest integer, and of two equally near ones the one farther from zero. */
  lemma RoundIsNearest(x: real, n: int)
    ensures Round(x) == n <==> if x >= 0.0 then n as real - 0.5 <= x < n as real + 0.5 else n as real - 0.5 < x <= n as real + 0.5
  {
  }

  /** Whole tenths and whole hundredths of a cent, and no other amounts, are shown as they are, and every
      amount is shown at most half a unit off. */
  lemma ShownAmounts(x: real)
    ensures -0.05 <= Tenths(x) - x <= 0.05 && -0.00005 <= Dollars(x) - x <= 0.00005
    ensures Tenths(x) == x <==> (x * 10.0).Floor as real == x * 10.0
    ensures Dollars(x) == x <==> (x * 10000.0).Floor as real == x * 10000.0
  {
    RoundIsNear(x * 10.0);
    RoundIsNear(x * 10000.0);
    RoundFixesIntegers((x * 10.0).Floor);
    RoundFixesIntegers((x * 10000.0).Floor);
    assert Tenths(x) * 10.0 == Round(x * 10.0) as real && Dollars(x) * 10000.0 == Round(x * 10000.0) as real;
  }

  lemma RoundFixesIntegers(n: int)
    ensures Round(n as real) == n
  {
  }

  lemma RoundMonotone(x: real, y: real)
    requires x <= y
    ensures Round(x) <= Round(y)
  {
    if x < 0.0 <= y {
      assert Round(x) <= 0 <= Round(y);
    }
  }

  lemma TenthsMonotone(x: real, y: real)
    requires x <= y
    ensures Tenths(x) <= Tenths(y)
  {
    RoundMonotone(x * 10.0, y * 10.0);
  }

  lemma DollarsMonotone(x: real, y: real)
    requires x <= y
    ensures Dollars(x) <= Dollars(y)
  {
    RoundMonotone(x * 10000.0, y * 10000.0);
  }

  /** A mean between two integers stays between them after rounding. */
  lemma TenthsStaysBetween(lo: int, x: real, hi: int)
    requires lo as real <= x <= hi as real
    ensures lo as real <= Tenths(x) <= hi as real
  {
    RoundFixesIntegers(10 * lo);
    RoundFixesIntegers(10 * hi);
    RoundMonotone((10 * lo) as real, x * 10.0);
    RoundMonotone(x * 10.0, (10 * hi) as real);
  }

  /** Rounding moves an amount by at most half a unit. */
  lemma DollarsIsNear(x: real)
    ensures -0.5 <= (Dollars(x) - x) * 10000.0 <= 0.5
  {
    RoundIsNear(x * 10000.0);
  }

  lemma RoundOfSum(x: real, y: real)
    ensures -1 <= Round(x + y) - Round(x) - Round(y) <= 1
  {
    RoundIsNear(x);
    RoundIsNear(y);
    RoundIsNear(x + y);
    var units := Round(x + y) - Round(x) - Round(y);
    assert -1.5 <= units as real <= 1.5;
  }

  /** A rounded sum differs from the sum of the rounded parts by at most one unit. */
  lemma DollarsOfSum(a: real, b: real)
    ensures -0.0001 <= Dollars(a + b) - (Dollars(a) + Dollars(b)) <= 0.0001
  {
    RoundOfSum(a * 10000.0, b * 10000.0);
    assert (a + b) * 10000.0 == a * 10000.0 + b * 10000.0;
  }

  lemma PercentBounds(share: real)
    requires 0.0 <= share <= 1.0
    ensures 0.0 <= Percent(share) <= 100.0
    ensures Percent(share) == 100.0 <==> share >= 0.9995
  {
  }

  lemma AtLeast(share: real, c: real, part: real, whole: real)
    requires whole > 0.0 && share * whole == part
    ensures share >= c <==> part >= c * whole
  {
    if share >= c {
      assert (share - c) * whole >= 0.0;
    } else {
      assert (c - share) * whole > 0.0;
    }
  }

  lemma ShareBounds(part: int, whole: int)
    requires 0 <= part <= whole && whole > 0
    ensures 0.0 <= Share(part, whole) <= 1.0
    ensures Share(part, whole) >= 0.9995 <==> 2000 * (whole - part) <= whole
  {
    var share := Share(part, whole);
    ShareTimesWhole(part, whole);
    AtLeast(share, 0.0, part as real, whole as real);
    AtLeast(share, 0.9995, part as real, whole as real);
    AtLeast(1.0 - share, 0.0, (whole - part) as real, whole as real);
  }

  lemma ShareTimesWhole(part: int, whole: int)
    requires whole > 0
    ensures Share(part, whole) * whole as real == part as real
    ensures (1.0 - Share(part, whole)) * whole as real == (whole - part) as real
  {
  }
}
