/**
 * The portfolio aggregator: reduces a list of positions to portfolio-wide
 * totals, guarded percentages and a value-weighted annualized gain.
 */
module Summary {
  import opened Types

  // Totals over a list of positions, accumulated front to back.

  function SumValue(hs: seq<Holding>): real
  {
    if hs == [] then 0.0 else SumValue(hs[..|hs| - 1]) + hs[|hs| - 1].currentValue
  }

  function SumBookCost(hs: seq<Holding>): real
  {
    if hs == [] then 0.0 else SumBookCost(hs[..|hs| - 1]) + hs[|hs| - 1].bookCost
  }

  function SumGain(hs: seq<Holding>): real
  {
    if hs == [] then 0.0 else SumGain(hs[..|hs| - 1]) + hs[|hs| - 1].gain
  }

  function SumDayGain(hs: seq<Holding>): real
  {
    if hs == [] then 0.0 else SumDayGain(hs[..|hs| - 1]) + hs[|hs| - 1].dayGain
  }

  /** Sum of each position's annualized gain times its current value. */
  function SumValueTimesAnnualized(hs: seq<Holding>): real
  {
    if hs == [] then 0.0
    else SumValueTimesAnnualized(hs[..|hs| - 1]) + hs[|hs| - 1].annualizedGainPercent * hs[|hs| - 1].currentValue
  }

  /**
   * The weighted sum the aggregator accumulates: each position's annualized
   * gain weighted by its share of `totalValue`.
   */
  function WeightedAnnualized(hs: seq<Holding>, totalValue: real): real
    requires hs != [] ==> totalValue != 0.0
  {
    if hs == [] then 0.0
    else
      WeightedAnnualized(hs[..|hs| - 1], totalValue)
        + hs[|hs| - 1].annualizedGainPercent * (hs[|hs| - 1].currentValue / totalValue)
  }

  /**
   * The weighted sum is the value-weighted mean: the sum of annualized gain
   * times value, divided by the total value.
   */
  lemma {:induction false} WeightedAnnualizedIsMean(hs: seq<Holding>, totalValue: real)
    requires totalValue != 0.0
    ensures WeightedAnnualized(hs, totalValue) == SumValueTimesAnnualized(hs) / totalValue
  {
    if hs != [] {
      var init, last := hs[..|hs| - 1], hs[|hs| - 1];
      WeightedAnnualizedIsMean(init, totalValue);
      var a, v := last.annualizedGainPercent, last.currentValue;
      assert a * (v / totalValue) == (a * v) / totalValue;
      assert SumValueTimesAnnualized(init) / totalValue + (a * v) / totalValue
          == (SumValueTimesAnnualized(init) + a * v) / totalValue;
    }
  }

  /**
   * Two positions of equal, positive current value contribute equally: the
   * portfolio's annualized gain is the plain average of theirs.
   */
  lemma TwoEqualPositions(h1: Holding, h2: Holding)
    requires h1.currentValue == h2.currentValue && h1.currentValue > 0.0
    ensures SumValue([h1, h2]) > 0.0
    ensures WeightedAnnualized([h1, h2], SumValue([h1, h2]))
         == (h1.annualizedGainPercent + h2.annualizedGainPercent) / 2.0
  {
    var hs := [h1, h2];
    var v := h1.currentValue;
    assert hs[..1] == [h1];
    assert [h1][..0] == [];
    assert SumValue([h1]) == v;
    assert SumValue(hs) == v + v;
    var w := v / (v + v);
    assert w == 0.5 by {
      var t := v + v;
      assert t == 2.0 * v && t != 0.0;
      assert v / t == v / (2.0 * v);
      assert v / (2.0 * v) == (1.0 / 2.0) * (v / v);
    }
    assert WeightedAnnualized([h1], v + v) == h1.annualizedGainPercent * w;
    assert WeightedAnnualized(hs, v + v) == h1.annualizedGainPercent * w + h2.annualizedGainPercent * w;
  }

  /**
   * When every position has a non-negative value and the total is
   * positive, the weighted annualized gain lies between the smallest and
   * the largest annualized gain of the positions.
   */
  lemma {:induction false} WeightedAnnualizedBounded(hs: seq<Holding>, lo: real, hi: real)
    requires forall i :: 0 <= i < |hs| ==> hs[i].currentValue >= 0.0
    requires forall i :: 0 <= i < |hs| ==> lo <= hs[i].annualizedGainPercent <= hi
    ensures lo * SumValue(hs) <= SumValueTimesAnnualized(hs) <= hi * SumValue(hs)
  {
    if hs != [] {
      var init, last := hs[..|hs| - 1], hs[|hs| - 1];
      assert forall i :: 0 <= i < |init| ==> init[i] == hs[i];
      WeightedAnnualizedBounded(init, lo, hi);
      var a, v := last.annualizedGainPercent, last.currentValue;
      assert (a - lo) * v >= 0.0 && (hi - a) * v >= 0.0;
      assert lo * SumValue(hs) == lo * SumValue(init) + lo * v;
      assert hi * SumValue(hs) == hi * SumValue(init) + hi * v;
    }
  }

  /**
   * With non-negative position values and a positive total, the
   * value-weighted mean annualized gain lies between any lower and upper
   * bound of the positions' own annualized gains.
   */
  lemma WeightedMeanBetween(hs: seq<Holding>, lo: real, hi: real)
    requires forall i :: 0 <= i < |hs| ==> hs[i].currentValue >= 0.0
    requires forall i :: 0 <= i < |hs| ==> lo <= hs[i].annualizedGainPercent <= hi
    requires SumValue(hs) > 0.0
    ensures lo <= SumValueTimesAnnualized(hs) / SumValue(hs) <= hi
  {
    WeightedAnnualizedBounded(hs, lo, hi);
    QuotientBetween(SumValueTimesAnnualized(hs), SumValue(hs), lo, hi);
  }

  /** Dividing bounds `lo * t <= x <= hi * t` by a positive `t`. */
  lemma QuotientBetween(x: real, t: real, lo: real, hi: real)
    requires t > 0.0 && lo * t <= x <= hi * t
    ensures lo <= x / t <= hi
  {
    var m := x / t;
    assert m * t == x;
    assert (m - lo) * t >= 0.0;
    assert (hi - m) * t >= 0.0;
  }

  /**
   * The aggregator's second loop: accumulates each position's annualized
   * gain weighted by its share of the total value, which is the
   * value-weighted mean of the annualized gains.
   */
  method WeightedSum(holdings: seq<Holding>, totalValue: real) returns (weightedSum: real)
    requires holdings != [] ==> totalValue != 0.0
    ensures weightedSum == WeightedAnnualized(holdings, totalValue)
    ensures totalValue != 0.0 ==> weightedSum == SumValueTimesAnnualized(holdings) / totalValue
  {
    weightedSum := 0.0;
    for i := 0 to |holdings|
      invariant weightedSum == WeightedAnnualized(holdings[..i], totalValue)
    {
      var holding := holdings[i];
      assert holdings[..i + 1][..i] == holdings[..i];
      var weight := holding.currentValue / totalValue;
      weightedSum := weightedSum + holding.annualizedGainPercent * weight;
    }
    assert holdings[..|holdings|] == holdings;
    if totalValue != 0.0 {
      WeightedAnnualizedIsMean(holdings, totalValue);
    }
  }

  /** The summary of an empty portfolio, and the starting point of the sums. */
  const ZeroSummary: PortfolioSummary := PortfolioSummary(0.0, 0.0, 0.0, 0.0, 0.0, 0.0, 0.0)

  /**
   * Sums value, book cost, gain and day gain over the positions; the gain
   * percent is guarded by a positive book cost, the day gain percent by a
   * positive total value, and the annualized gain is the value-weighted
   * mean of the positions' annualized gains.
   */
  method CalculatePortfolioSummary(holdings: seq<Holding>) returns (summary: PortfolioSummary)
    requires holdings != [] ==> SumValue(holdings) != 0.0
    requires SumValue(holdings) > 0.0 ==> SumValue(holdings) - SumDayGain(holdings) != 0.0
    ensures summary.totalValue == SumValue(holdings)
    ensures summary.totalBookCost == SumBookCost(holdings)
    ensures summary.totalGain == SumGain(holdings)
    ensures summary.totalDayGain == SumDayGain(holdings)
    ensures summary.totalBookCost <= 0.0 ==> summary.totalGainPercent == 0.0
    ensures summary.totalBookCost > 0.0 ==>
      summary.totalGainPercent == summary.totalGain / summary.totalBookCost * 100.0
    ensures summary.totalValue <= 0.0 ==> summary.totalDayGainPercent == 0.0
    ensures summary.totalValue > 0.0 ==>
      summary.totalDayGainPercent
        == summary.totalDayGain / (summary.totalValue - summary.totalDayGain) * 100.0
    ensures summary.totalValue != 0.0 ==>
      summary.annualizedGainPercent == SumValueTimesAnnualized(holdings) / summary.totalValue
    ensures holdings == [] ==> summary == ZeroSummary
  {
    summary := ZeroSummary;

    for i := 0 to |holdings|
      invariant summary.totalValue == SumValue(holdings[..i])
      invariant summary.totalBookCost == SumBookCost(holdings[..i])
      invariant summary.totalGain == SumGain(holdings[..i])
      invariant summary.totalDayGain == SumDayGain(holdings[..i])
    {
      var holding := holdings[i];
      assert holdings[..i + 1][..i] == holdings[..i];
      summary := summary.(
        totalValue := summary.totalValue + holding.currentValue,
        totalBookCost := summary.totalBookCost + holding.bookCost,
        totalGain := summary.totalGain + holding.gain,
        totalDayGain := summary.totalDayGain + holding.dayGain);
    }
    assert holdings[..|holdings|] == holdings;

    summary := summary.(totalGainPercent :=
      if summary.totalBookCost > 0.0 then summary.totalGain / summary.totalBookCost * 100.0 else 0.0);

    summary := summary.(totalDayGainPercent :=
      if summary.totalValue > 0.0
      then summary.totalDayGain / (summary.totalValue - summary.totalDayGain) * 100.0
      else 0.0);

    // Weighted average of the annualized gains.
    var weightedSum := WeightedSum(holdings, summary.totalValue);
    summary := summary.(annualizedGainPercent := weightedSum);
  }
}
