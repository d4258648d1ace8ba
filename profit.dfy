/**
 * The profit figures the dashboard endpoints and pages share: the gross
 * profit rate `profit / amount * 100` (0 when there is no positive amount)
 * and the green/yellow/red banding at 30 and 20 percent.
 */
module Profit {

  /** `(profit / amount * 100) if amount > 0 else 0`, as an exact rational. */
  function ProfitRate(profit: int, amount: int): (rate: real)
    ensures amount <= 0 ==> rate == 0.0
    ensures amount > 0 ==> rate * amount as real == 100.0 * profit as real
  {
    if amount > 0 then profit as real / amount as real * 100.0 else 0.0
  }

  /** A rate reaches `pct` percent exactly when `100 * profit >= pct * amount`. */
  lemma RateAtLeast(profit: int, amount: int, pct: int)
    requires amount > 0
    ensures ProfitRate(profit, amount) >= pct as real <==> 100 * profit >= pct * amount
  {
    var rate, a := ProfitRate(profit, amount), amount as real;
    assert rate * a == 100.0 * profit as real;
    if rate >= pct as real {
      assert rate * a >= pct as real * a;
    } else {
      assert rate * a < pct as real * a;
    }
  }

  datatype Band = Green | Yellow | Red

  /** `rate >= 30 ? green : rate >= 20 ? yellow : red`. */
  function RateBand(rate: real): (b: Band)
    ensures b == Green <==> rate >= 30.0
    ensures b == Red <==> rate < 20.0
  {
    if rate >= 30.0 then Green else if rate >= 20.0 then Yellow else Red
  }

  /** Green before yellow before red. */
  function Rank(b: Band): nat
  {
    match b
    case Green => 0
    case Yellow => 1
    case Red => 2
  }

  /** A higher rate never gets a worse colour. */
  lemma RateBandMonotone(low: real, high: real)
    requires low <= high
    ensures Rank(RateBand(high)) <= Rank(RateBand(low))
  {
  }

  /**
   * The band of a profit and an amount, decided on integers: green from
   * 30 %, yellow from 20 %, red below, and red when the amount is not positive.
   */
  lemma BandOfProfit(profit: int, amount: int)
    ensures RateBand(ProfitRate(profit, amount)) ==
      if amount <= 0 then Red
      else if 10 * profit >= 3 * amount then Green
      else if 5 * profit >= amount then Yellow
      else Red
  {
    if amount > 0 {
      RateAtLeast(profit, amount, 30);
      RateAtLeast(profit, amount, 20);
    }
  }

  /** Multiplying by a positive number keeps the order of reals. */
  lemma CancelPositive(x: real, y: real, a: real)
    requires a > 0.0
    ensures x * a <= y * a <==> x <= y
  {
  }

  /** A cost within the amount gives a rate between 0 and 100. */
  lemma RateWithinPercent(amount: int, cost: int)
    requires amount > 0 && 0 <= cost <= amount
    ensures 0.0 <= ProfitRate(amount - cost, amount) <= 100.0
  {
    RateAtLeast(amount - cost, amount, 0);
    var rate, a := ProfitRate(amount - cost, amount), amount as real;
    assert rate * a == 100.0 * (amount - cost) as real <= 100.0 * a;
    CancelPositive(rate, 100.0, a);
  }
}
