/**
 * Amounts and rates of the deposit/withdrawal orchestrations.
 * Shillings (KES) and dollars (USD) are exact reals; the only rounding the
 * source performs is PHP's `round($x, 2)`, modelled by Round2.
 */
module Money {

  /** The smallest deposit or withdrawal accepted, in US dollars. */
  const MinimumUsd: real := 2.5

  /** A rate snapshot: `kes` shillings per dollar quoted to the customer,
      and `boughtAt`, the shillings per dollar the agent's float cost. */
  datatype Rate = Rate(kes: real, boughtAt: real)

  /** x is a whole number of cents. */
  predicate IsCents(x: real) {
    (x * 100.0).Floor as real == x * 100.0
  }

  /** Rounding of a non-negative amount to cents, halves going up. */
  function HalfUpCents(x: real): (r: real)
    requires x >= 0.0
    ensures IsCents(r) && r >= 0.0
    ensures x - 0.005 < r <= x + 0.005
  {
    (x * 100.0 + 0.5).Floor as real / 100.0
  }

  /** PHP's `round($x, 2)`: to the nearest cent, halves away from zero. */
  function Round2(x: real): (r: real)
    ensures IsCents(r)
    ensures x >= 0.0 ==> r >= 0.0 && x - 0.005 < r <= x + 0.005
    ensures x < 0.0 ==> r <= 0.0 && x - 0.005 <= r < x + 0.005
  {
    if x >= 0.0 then HalfUpCents(x)
    else
      var h := HalfUpCents(-x);
      NegatedCents(h);
      -h
  }

  lemma NegatedCents(x: real)
    requires IsCents(x)
    ensures IsCents(-x)
  {
    var n := (x * 100.0).Floor;
    assert -x * 100.0 == (-n) as real;
  }

  /** Two different whole-cent amounts are at least a cent apart. */
  lemma CentsApart(a: real, b: real)
    requires IsCents(a) && IsCents(b) && a < b
    ensures b - a >= 0.01
  {
    var n, m := (a * 100.0).Floor, (b * 100.0).Floor;
    assert n as real == a * 100.0 && m as real == b * 100.0;
    assert n < m;
  }

  /** Round2 picks a cent amount that is at least as close to x as any other. */
  lemma Round2Nearest(x: real, c: real)
    requires IsCents(c)
    ensures Abs(Round2(x) - x) <= Abs(c - x)
  {
    var r := Round2(x);
    if c < r {
      CentsApart(c, r);
    } else if r < c {
      CentsApart(r, c);
    }
  }

  /** Rounding an amount that is already in cents leaves it unchanged. */
  lemma Round2OfCents(x: real)
    requires IsCents(x)
    ensures Round2(x) == x
  {
    Round2Nearest(x, x);
  }

  /** Round2 is monotone. */
  lemma Round2Monotone(x: real, y: real)
    requires x <= y
    ensures Round2(x) <= Round2(y)
  {
    if 0.0 <= x {
      assert (x * 100.0 + 0.5).Floor <= (y * 100.0 + 0.5).Floor;
    } else if y < 0.0 {
      assert (-y * 100.0 + 0.5).Floor <= (-x * 100.0 + 0.5).Floor;
    }
  }

  /** Halves round away from zero, so rounding commutes with negation. */
  lemma Round2Odd(x: real)
    ensures Round2(-x) == -Round2(x)
  {
    if x == 0.0 {
      assert -x == 0.0;
    }
  }

  function Abs(x: real): real {
    if x < 0.0 then -x else x
  }

  /** `round($amount / $rate, 2)`: a shilling amount in dollars, to the cent. */
  function ToUsd(amountKes: real, kes: real): (usd: real)
    requires kes > 0.0
    ensures IsCents(usd)
    ensures Abs(usd * kes - amountKes) <= 0.005 * kes
  {
    ToUsdWithinHalfCent(amountKes, kes);
    Round2(amountKes / kes)
  }

  lemma ToUsdWithinHalfCent(amountKes: real, kes: real)
    requires kes > 0.0
    ensures Abs(Round2(amountKes / kes) * kes - amountKes) <= 0.005 * kes
  {
    var q := amountKes / kes;
    var r := Round2(q);
    assert Abs(r - q) <= 0.005;
    assert q * kes == amountKes;
    ScaledError(q, r, kes, amountKes);
  }

  /** An error of at most half a cent in dollars is at most half a cent's
      worth of shillings once scaled back by the rate. */
  lemma ScaledError(q: real, r: real, kes: real, amountKes: real)
    requires kes > 0.0 && q * kes == amountKes && Abs(r - q) <= 0.005
    ensures Abs(r * kes - amountKes) <= 0.005 * kes
  {
    var d := r - q;
    var e := d * kes;
    assert r * kes - amountKes == e;
    AbsScale(d, kes, 0.005);
    assert Abs(r * kes - amountKes) == Abs(e);
  }

  lemma AbsScale(d: real, k: real, e: real)
    requires k > 0.0 && Abs(d) <= e
    ensures Abs(d * k) <= e * k
  {
    if d < 0.0 {
      assert -d <= e;
      assert (-d) * k <= e * k;
    } else {
      assert d * k <= e * k;
    }
  }

  /** `$amount * $rate`: a dollar amount in shillings. A whole-cent dollar
      amount converted to shillings and back is unchanged. */
  function ToKes(amountUsd: real, kes: real): (amountKes: real)
    ensures kes > 0.0 && IsCents(amountUsd) ==> ToUsd(amountKes, kes) == amountUsd
  {
    if kes > 0.0 && IsCents(amountUsd) then
      assert amountUsd * kes / kes == amountUsd;
      Round2OfCents(amountUsd);
      amountUsd * kes
    else
      amountUsd * kes
  }

  /** The deposit charge `(kes - bought_at) * amount_usd`: on a positive
      amount the house gains exactly when it sells dollars above their cost. */
  function DepositCharge(buy: Rate, amountUsd: real): (charge: real)
    ensures amountUsd > 0.0 ==> (charge > 0.0 <==> buy.kes > buy.boughtAt)
  {
    SignOfProduct(buy.kes - buy.boughtAt, amountUsd);
    (buy.kes - buy.boughtAt) * amountUsd
  }

  /** The withdrawal charge `(bought_at - kes) * amount`: on a positive
      amount the house gains exactly when it buys dollars below their cost. */
  function WithdrawalCharge(sell: Rate, amountUsd: real): (charge: real)
    ensures amountUsd > 0.0 ==> (charge > 0.0 <==> sell.boughtAt > sell.kes)
  {
    SignOfProduct(sell.boughtAt - sell.kes, amountUsd);
    (sell.boughtAt - sell.kes) * amountUsd
  }

  lemma SignOfProduct(m: real, a: real)
    ensures a > 0.0 ==> (m * a > 0.0 <==> m > 0.0)
  {
    if a > 0.0 {
      if m > 0.0 {
        assert m * a > 0.0 * a;
      } else {
        assert m * a <= 0.0 * a;
      }
    }
  }

  /** On a deposit the customer pays `amountKes` shillings for
      `ToUsd(amountKes, kes)` dollars that cost the float `boughtAt` each. The
      charge is what the house keeps of the payment, up to the half cent's
      worth of shillings that the rounding to cents moves. */
  lemma DepositChargeIsMargin(amountKes: real, buy: Rate)
    requires buy.kes > 0.0
    ensures var usd := ToUsd(amountKes, buy.kes);
            Abs((amountKes - ToKes(usd, buy.boughtAt)) - DepositCharge(buy, usd)) <= 0.005 * buy.kes
  {
    var usd := ToUsd(amountKes, buy.kes);
    var paid := usd * buy.kes;
    assert DepositCharge(buy, usd) == paid - usd * buy.boughtAt;
    assert (amountKes - ToKes(usd, buy.boughtAt)) - DepositCharge(buy, usd) == amountKes - paid;
    assert Abs(amountKes - paid) == Abs(paid - amountKes);
  }

  /** The minimum-deposit check on the rounded dollar amount rejects exactly the
      shilling amounts below 2.495 dollars' worth. */
  lemma MinimumDepositThreshold(amountKes: real, kes: real)
    requires kes > 0.0
    ensures ToUsd(amountKes, kes) < MinimumUsd <==> amountKes < 2.495 * kes
  {
    var q := amountKes / kes;
    assert q * kes == amountKes;
    if q >= 0.0 {
      var f := (q * 100.0 + 0.5).Floor;
      assert Round2(q) == f as real / 100.0;
      if q < 2.495 {
        assert q * 100.0 + 0.5 < 250.0;
        assert f < 250;
        assert amountKes < 2.495 * kes by { LessScaled(q, 2.495, kes); }
      } else {
        assert f >= 250;
        assert amountKes >= 2.495 * kes by { LessScaled(2.495, q, kes); }
      }
    } else {
      assert amountKes < 0.0 by { LessScaled(q, 0.0, kes); }
    }
  }

  lemma LessScaled(a: real, b: real, k: real)
    requires k > 0.0
    ensures a < b ==> a * k < b * k
    ensures a >= b ==> a * k >= b * k
  {
  }

  /** `round(1000/100, 2)` is 10.00 and `round(333/100, 2)` is 3.33. */
  lemma ConversionExamples()
    ensures ToUsd(1000.0, 100.0) == 10.0
    ensures ToUsd(333.0, 100.0) == 3.33
  {
  }
}
