/**
 * Shared helpers of the accounting engine: elapsed days between two dates,
 * the compound annual growth rate of a two-point return, and the sign
 * classifier used to colour gains.
 */
module Metrics {
  import opened Types

  /** Days in an average year, as the annualization divides by. */
  const DaysPerYear: real := 365.25

  /** Whole days between two day numbers, in either order. */
  function DaysBetween(date1: int, date2: int): (d: nat)
    ensures d == 0 <==> date1 == date2
    ensures date1 <= date2 ==> date1 + d == date2
    ensures date2 <= date1 ==> date2 + d == date1
  {
    if date2 >= date1 then date2 - date1 else date1 - date2
  }

  /**
   * Annualized gain, in percent, of a value that moved from initialValue to
   * currentValue over the given number of days. Zero elapsed days or a zero
   * initial value yield 0; otherwise the total growth factor is raised to
   * the power 1/years by the supplied `pow`.
   */
  function CalculateAnnualizedGain(initialValue: real, currentValue: real, days: int, pow: Pow): (r: real)
    ensures days == 0 || initialValue == 0.0 ==> r == 0.0
    ensures days != 0 && initialValue != 0.0 ==>
      r == (pow(currentValue / initialValue, DaysPerYear / days as real) - 1.0) * 100.0
  {
    if days == 0 || initialValue == 0.0 then 0.0
    else
      var years := days as real / DaysPerYear;
      var totalReturn := (currentValue - initialValue) / initialValue;
      GrowthFactor(initialValue, currentValue);
      InverseYears(days);
      (pow(1.0 + totalReturn, 1.0 / years) - 1.0) * 100.0
  }

  /** One plus the total return is the ratio of the two values. */
  lemma GrowthFactor(initialValue: real, currentValue: real)
    requires initialValue != 0.0
    ensures 1.0 + (currentValue - initialValue) / initialValue == currentValue / initialValue
  {
    assert (currentValue - initialValue) / initialValue == currentValue / initialValue - initialValue / initialValue;
  }

  /** The exponent 1/years equals DaysPerYear/days. */
  lemma InverseYears(days: int)
    requires days != 0
    ensures 1.0 / (days as real / DaysPerYear) == DaysPerYear / days as real
  {
    var d := days as real;
    assert d / DaysPerYear * (DaysPerYear / d) == 1.0;
  }

  /** A ratio of positive values is above, or below, one as its numerator is above, or below, its denominator. */
  lemma RatioAgainstOne(initialValue: real, currentValue: real)
    requires initialValue > 0.0
    ensures currentValue / initialValue > 1.0 <==> currentValue > initialValue
    ensures currentValue / initialValue < 1.0 <==> currentValue < initialValue
  {
    var b := currentValue / initialValue;
    assert b * initialValue == currentValue;
    if b < 1.0 {
      assert b * initialValue < 1.0 * initialValue;
    } else if b > 1.0 {
      assert b * initialValue > 1.0 * initialValue;
    }
  }

  /** A power function for which one to any power is one. */
  ghost predicate FixesOne(pow: Pow)
  {
    forall e :: pow(1.0, e) == 1.0
  }

  /**
   * A power function that, for a positive base and a positive exponent,
   * stays on the same side of one as its base.
   */
  ghost predicate KeepsSideOfOne(pow: Pow)
  {
    forall b, e :: b > 0.0 && e > 0.0 ==>
      (pow(b, e) > 1.0 <==> b > 1.0) && (pow(b, e) < 1.0 <==> b < 1.0)
  }

  /** A position whose value did not move has an annualized gain of zero. */
  lemma AnnualizedGainOfNoChange(value: real, days: int, pow: Pow)
    requires FixesOne(pow)
    ensures CalculateAnnualizedGain(value, value, days, pow) == 0.0
  {
    if days != 0 && value != 0.0 {
      assert value / value == 1.0;
      assert pow(1.0, DaysPerYear / days as real) == 1.0;
    }
  }

  /**
   * Over a positive number of days and between positive values, the
   * annualized gain has the sign of the total gain.
   */
  lemma AnnualizedGainHasSignOfGain(initialValue: real, currentValue: real, days: int, pow: Pow)
    requires KeepsSideOfOne(pow)
    requires initialValue > 0.0 && currentValue > 0.0 && days > 0
    ensures var r := CalculateAnnualizedGain(initialValue, currentValue, days, pow);
      && (r > 0.0 <==> currentValue > initialValue)
      && (r < 0.0 <==> currentValue < initialValue)
  {
    var b := currentValue / initialValue;
    var e := DaysPerYear / days as real;
    assert b > 0.0;
    assert e > 0.0;
    RatioAgainstOne(initialValue, currentValue);
    assert (pow(b, e) > 1.0 <==> b > 1.0) && (pow(b, e) < 1.0 <==> b < 1.0);
  }

  /** CSS class name for a gain: its sign, as a word. */
  function GetGainColorClass(value: real): (c: string)
    ensures c == "positive" <==> value > 0.0
    ensures c == "negative" <==> value < 0.0
    ensures c == "neutral" <==> value == 0.0
  {
    if value > 0.0 then "positive"
    else if value < 0.0 then "negative"
    else "neutral"
  }
}
