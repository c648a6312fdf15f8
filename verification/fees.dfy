/**
 * The platform's fee split (the commission constant and calculateFees of
 * the Stripe configuration), over exact reals: floating point is not
 * modelled, and Math.round(y) is floor(y + 0.5), rounding halves up.
 */
module Fees {

  /** The platform commission in percent (the configured default). */
  const PlatformCommission: real := 15.0

  datatype Split = Split(platformFee: real, providerEarning: real)

  /** Math.round(x * 100): the amount in cents, halves rounded up. */
  function Cents(x: real): int {
    (x * 100.0 + 0.5).Floor
  }

  /** A whole number of cents. */
  predicate WholeCents(x: real) {
    (x * 100.0).Floor as real == x * 100.0
  }

  /** Math.round(x * 100) / 100: the nearest whole cent, halves rounded up. */
  function Round2(x: real): (r: real)
    ensures WholeCents(r)
    ensures -0.005 < r - x <= 0.005
  {
    var c := Cents(x);
    assert (c as real / 100.0) * 100.0 == c as real;
    c as real / 100.0
  }

  /**
   * calculateFees: the fee is the commission share of the total rounded to
   * a cent, the earning is the total minus the UNROUNDED fee, rounded to a
   * cent.
   */
  function CalculateFees(total: real, commission: real): (s: Split)
    ensures WholeCents(s.platformFee) && WholeCents(s.providerEarning)
    ensures -0.005 < s.platformFee - total * commission / 100.0 <= 0.005
    ensures -0.005 < s.providerEarning - (total - total * commission / 100.0) <= 0.005
  {
    var fee := total * commission / 100.0;
    Split(Round2(fee), Round2(total - fee))
  }

  /** Fee and earning together differ from the total by at most one cent. */
  lemma SplitWithinOneCent(total: real, commission: real)
    ensures var s := CalculateFees(total, commission);
      -0.01 < s.platformFee + s.providerEarning - total <= 0.01
  {
    var s := CalculateFees(total, commission);
    var fee := total * commission / 100.0;
    assert -0.005 < s.platformFee - fee <= 0.005;
    assert -0.005 < s.providerEarning - (total - fee) <= 0.005;
  }

  /** A whole number of cents above -1/2 cent is not negative. */
  lemma WholeCentsNotNegative(x: real)
    requires WholeCents(x) && x > -0.005
    ensures x >= 0.0
  {
    var k := (x * 100.0).Floor;
    assert k as real == x * 100.0;
    assert k as real > -0.5;
  }

  /** For a commission between 0 and 100 percent, neither part of a non-negative total is negative. */
  lemma SplitNotNegative(total: real, commission: real)
    requires 0.0 <= commission <= 100.0 && total >= 0.0
    ensures CalculateFees(total, commission).platformFee >= 0.0
    ensures CalculateFees(total, commission).providerEarning >= 0.0
  {
    var s := CalculateFees(total, commission);
    var fee := total * commission / 100.0;
    assert 0.0 <= fee <= total by {
      assert total * commission <= total * 100.0;
    }
    WholeCentsNotNegative(s.platformFee);
    WholeCentsNotNegative(s.providerEarning);
  }

  /** With the default commission, a price of 50 splits into 7.5 for the platform and 42.5 for the provider. */
  lemma DefaultSplitOfFifty()
    ensures CalculateFees(50.0, PlatformCommission) == Split(7.5, 42.5)
  {
    assert Cents(7.5) == 750 by { assert 7.5 * 100.0 + 0.5 == 750.5; }
    assert Cents(42.5) == 4250 by { assert 42.5 * 100.0 + 0.5 == 4250.5; }
  }

  /**
   * The one-cent gap is reached: with the default commission a price of
   * 1.10 splits into 0.17 and 0.94, one cent more than the price, because
   * the earning is rounded from the unrounded fee 0.165.
   */
  lemma SplitCanExceedPrice()
    ensures CalculateFees(1.1, PlatformCommission) == Split(0.17, 0.94)
    ensures 0.17 + 0.94 == 1.1 + 0.01
  {
    assert Cents(0.165) == 17 by { assert 0.165 * 100.0 + 0.5 == 17.0; }
    assert Cents(0.935) == 94 by { assert 0.935 * 100.0 + 0.5 == 94.0; }
  }
}
