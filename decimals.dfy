/**
 * C# `decimal` amounts, as exact rationals, and the explicit `(int)` conversion the
 * service applies to them: it drops the fractional part (truncation toward zero) and
 * throws `OverflowException` when the result does not fit in an `int`.
 */
module Decimals {
  import opened Text

  /** `(int)x`'s value: the integer part of `x`, rounded toward zero. */
  function Truncate(x: real): (n: int)
    ensures x >= 0.0 ==> 0 <= n && n as real <= x < n as real + 1.0
    ensures x < 0.0 ==> n <= 0 && n as real - 1.0 < x <= n as real
  {
    if x >= 0.0 then x.Floor else -((-x).Floor)
  }

  /** The conversion `(int)x` does not throw. */
  predicate FitsInt32(x: real) {
    MinInt32 <= Truncate(x) <= MaxInt32
  }

  /** An amount in minor units (cents): `(int)(amount * 100)`. */
  function ToMinorUnits(amount: real): int {
    Truncate(amount * 100.0)
  }

  /** The conversion never rounds up: a fraction of a cent is dropped. */
  lemma ToMinorUnitsTruncates(amount: real)
    requires amount >= 0.0
    ensures ToMinorUnits(amount) as real <= amount * 100.0 < ToMinorUnits(amount) as real + 1.0
  {
  }

  /** An amount with whole cents converts exactly. */
  lemma WholeCentsExact(cents: int)
    ensures ToMinorUnits(cents as real / 100.0) == cents
  {
    assert cents as real / 100.0 * 100.0 == cents as real;
  }

  /** Examples: 19.99 becomes 1999, and 10.999 becomes 1099 rather than 1100. */
  lemma ToMinorUnitsExamples()
    ensures ToMinorUnits(19.99) == 1999
    ensures ToMinorUnits(10.999) == 1099
  {
    assert 19.99 * 100.0 == 1999.0;
    assert 10.999 * 100.0 == 1099.9;
  }
}
