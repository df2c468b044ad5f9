/**
 * The earnings engine of the affiliate calculator component: the forward
 * calculation (earnings from price, commission and volume), the inverse
 * calculation (sales needed for a target income), the `|| default` rule
 * applied to parsed inputs, and the "visitors per sale" insight.
 *
 * Numbers are modelled as `real`: the engine's formulas are exact here,
 * and the IEEE-754 rounding of the component's doubles is not modelled.
 */
module Earnings {
  import opened Wrappers

  /** One projection, as held in the component's `results` state. */
  datatype CalculationResult = CalculationResult(
    singleItemEarning: real,
    totalEarnings: real,
    itemsNeeded: int,
    monthlyEarnings: real,
    yearlyEarnings: real,
    conversionRate: real)

  // ---------------------------------------------------------------------
  // Defaults and validation of parsed inputs
  // ---------------------------------------------------------------------

  /**
   * `parseInt(s) || fallback`: JavaScript treats NaN and 0 as false, so
   * exactly those two are replaced; every other integer, negative ones
   * included, is kept as it was parsed.
   */
  function OrInt(parsed: Option<int>, fallback: int): (v: int)
    ensures parsed.Some? && parsed.value != 0 ==> v == parsed.value
    ensures parsed.None? || parsed.value == 0 ==> v == fallback
    ensures v == fallback || parsed == Some(v)
    ensures fallback != 0 ==> v != 0
  {
    match parsed
    case Some(n) => if n != 0 then n else fallback
    case None => fallback
  }

  /** `parseFloat(s) || fallback`, with the same rule as `OrInt`. */
  function OrReal(parsed: Option<real>, fallback: real): (v: real)
    ensures parsed.Some? && parsed.value != 0.0 ==> v == parsed.value
    ensures parsed.None? || parsed.value == 0.0 ==> v == fallback
    ensures v == fallback || parsed == Some(v)
    ensures fallback != 0.0 ==> v != 0.0
  {
    match parsed
    case Some(x) => if x != 0.0 then x else fallback
    case None => fallback
  }

  /** Quantity of the forward calculation: `parseInt(quantity) || 1`. */
  function EffectiveQuantity(parsed: Option<int>): (v: int)
    ensures v != 0
    ensures parsed.None? || parsed.value == 0 ==> v == 1
    ensures parsed.Some? && parsed.value != 0 ==> v == parsed.value
  {
    OrInt(parsed, 1)
  }

  /** Monthly sales of the forward calculation: `parseInt(monthlySales) || 0`. */
  function EffectiveMonthlySales(parsed: Option<int>): (v: int)
    ensures v == 0 <==> parsed.None? || parsed.value == 0
    ensures parsed.Some? ==> v == parsed.value
  {
    OrInt(parsed, 0)
  }

  /** Conversion rate stored with every result: `parseFloat(conversionRate) || 2`. */
  function EffectiveConversionRate(parsed: Option<real>): (v: real)
    ensures v != 0.0
    ensures parsed.None? || parsed.value == 0.0 ==> v == 2.0
    ensures parsed.Some? && parsed.value != 0.0 ==> v == parsed.value
  {
    OrReal(parsed, 2.0)
  }

  /** A defaulted quantity or conversion rate is never zero, and a usable parse is kept. */
  lemma DefaultsNeverZero(quantity: Option<int>, monthlySales: Option<int>, conversionRate: Option<real>)
    ensures EffectiveQuantity(quantity) != 0
    ensures EffectiveConversionRate(conversionRate) != 0.0
    ensures EffectiveQuantity(quantity) == 1 <==> quantity.None? || quantity.value in {0, 1}
    ensures EffectiveMonthlySales(monthlySales) == 0 <==> monthlySales.None? || monthlySales.value == 0
    ensures EffectiveConversionRate(conversionRate) == 2.0
            <==> conversionRate.None? || conversionRate.value == 0.0 || conversionRate.value == 2.0
  {
  }

  /**
   * An input that passes the component's check: it is not NaN and it is
   * above zero (the rejecting test is `isNaN(x) || x <= 0`).
   */
  predicate IsPositive(parsed: Option<real>)
    ensures IsPositive(parsed) <==> !(parsed.None? || parsed.value <= 0.0)
    ensures IsPositive(parsed) ==> forall fallback :: OrReal(parsed, fallback) == parsed.value
  {
    parsed.Some? && parsed.value > 0.0
  }

  // ---------------------------------------------------------------------
  // Arithmetic helpers
  // ---------------------------------------------------------------------

  /** `Math.ceil` on a finite number: the least integer that is not below `x`. */
  function Ceil(x: real): (n: int)
    ensures x <= n as real < x + 1.0
  {
    -((-x).Floor)
  }

  /** No integer below `Ceil(x)` reaches `x`. */
  lemma CeilIsLeast(x: real, m: int)
    ensures x <= m as real <==> Ceil(x) <= m
  {
  }

  /** Multiplying both sides by the same positive `c` keeps `<=`. */
  lemma MulRightMono(a: real, b: real, c: real)
    requires a <= b && c > 0.0
    ensures a * c <= b * c
  {
  }

  /** Multiplying both sides by the same positive `c` keeps `<`. */
  lemma MulRightStrict(a: real, b: real, c: real)
    requires a < b && c > 0.0
    ensures a * c < b * c
  {
  }

  /** Dividing by a positive `s` and rounding up gives the least multiple count of `s` reaching `t`. */
  lemma CeilOfQuotient(t: real, s: real)
    ensures s > 0.0 ==>
              Ceil(t / s) as real * s >= t && (Ceil(t / s) - 1) as real * s < t
  {
    if s > 0.0 {
      var q := t / s;
      var n := Ceil(q);
      assert q * s == t;
      MulRightMono(q, n as real, s);
      MulRightStrict((n - 1) as real, q, s);
      assert (n - 1) as real * s < q * s;
      assert (n - 1) as real * s < t;
    }
  }

  /** Commission earned on one sale: `percentage` percent of `price`. */
  function SingleItemEarning(price: real, percentage: real): (e: real)
    ensures e * 100.0 == price * percentage
    ensures price > 0.0 && percentage > 0.0 ==> e > 0.0
  {
    (price * percentage) / 100.0
  }

  /** `count` sales, each earning `single`, add up to at least `target`. */
  predicate ReachesTarget(count: int, single: real, target: real) {
    count as real * single >= target
  }

  /**
   * `Math.ceil(target / single)`: the least number of sales whose
   * earnings reach `target`.
   */
  function SalesNeeded(target: real, single: real): (n: int)
    requires target > 0.0 && single > 0.0
    ensures n >= 1
    ensures ReachesTarget(n, single, target)
    ensures !ReachesTarget(n - 1, single, target)
  {
    CeilOfQuotient(target, single);
    Ceil(target / single)
  }

  /** Reaching the target takes `SalesNeeded` sales or more, and any number that large reaches it. */
  lemma {:induction false} SalesNeededIsLeast(target: real, single: real, count: int)
    requires target > 0.0 && single > 0.0
    ensures ReachesTarget(count, single, target) <==> count >= SalesNeeded(target, single)
  {
    var n := SalesNeeded(target, single);
    if count >= n {
      MulRightMono(n as real, count as real, single);
    } else {
      MulRightMono(count as real, (n - 1) as real, single);
    }
  }

  // ---------------------------------------------------------------------
  // The two calculations
  // ---------------------------------------------------------------------

  /**
   * Every result the component stores: it earns something per sale, its
   * conversion rate can be divided by, and its item count is not negative.
   */
  predicate WellFormed(r: CalculationResult)
    ensures WellFormed(r) ==> r.singleItemEarning > 0.0 && r.conversionRate != 0.0
    ensures WellFormed(r) ==> ShowsInsights(r)
  {
    r.singleItemEarning > 0.0 && r.conversionRate != 0.0 && r.itemsNeeded >= 0
  }

  /**
   * `calculateEarnings`: `None` is the early return that leaves `results`
   * as it was; otherwise the new projection.
   */
  function Forward(price: Option<real>, percentage: Option<real>, quantity: Option<int>,
                   monthlySales: Option<int>, conversionRate: Option<real>): (r: Option<CalculationResult>)
    ensures r.None? <==> !IsPositive(price) || !IsPositive(percentage)
    ensures r.Some? ==> WellFormed(r.value)
    ensures r.Some? ==>
      var res := r.value;
      && res.singleItemEarning * 100.0 == price.value * percentage.value
      && res.totalEarnings == res.singleItemEarning * EffectiveQuantity(quantity) as real
      && res.monthlyEarnings == res.singleItemEarning * EffectiveMonthlySales(monthlySales) as real
      && res.yearlyEarnings == 12.0 * res.monthlyEarnings
      && res.itemsNeeded == 0
      && res.conversionRate == EffectiveConversionRate(conversionRate)
  {
    var qty := EffectiveQuantity(quantity);
    var monthly := EffectiveMonthlySales(monthlySales);
    var conversion := EffectiveConversionRate(conversionRate);
    if !IsPositive(price) || !IsPositive(percentage) then None
    else
      var single := SingleItemEarning(price.value, percentage.value);
      var monthlyEarnings := single * monthly as real;
      DefaultsNeverZero(quantity, monthlySales, conversionRate);
      Some(CalculationResult(
        single, single * qty as real, 0, monthlyEarnings, monthlyEarnings * 12.0, conversion))
  }

  /**
   * `calculateItemsNeeded`: `None` is the early return; otherwise the
   * least number of sales that reaches the target income.
   */
  function Inverse(targetIncome: Option<real>, percentage: Option<real>, price: Option<real>,
                   conversionRate: Option<real>): (r: Option<CalculationResult>)
    ensures r.None? <==> !IsPositive(targetIncome) || !IsPositive(percentage) || !IsPositive(price)
    ensures r.Some? ==> WellFormed(r.value)
    ensures r.Some? ==>
      var res := r.value;
      && res.singleItemEarning * 100.0 == price.value * percentage.value
      && res.itemsNeeded >= 1
      && ReachesTarget(res.itemsNeeded, res.singleItemEarning, targetIncome.value)
      && !ReachesTarget(res.itemsNeeded - 1, res.singleItemEarning, targetIncome.value)
      && res.totalEarnings == targetIncome.value
      && res.monthlyEarnings == 0.0 && res.yearlyEarnings == 0.0
      && res.conversionRate == EffectiveConversionRate(conversionRate)
  {
    if !IsPositive(targetIncome) || !IsPositive(percentage) || !IsPositive(price) then None
    else
      var single := SingleItemEarning(price.value, percentage.value);
      var itemsNeeded := SalesNeeded(targetIncome.value, single);
      DefaultsNeverZero(None, None, conversionRate);
      Some(CalculationResult(
        single, targetIncome.value, itemsNeeded, 0.0, 0.0, EffectiveConversionRate(conversionRate)))
  }

  /**
   * Round trip between the two calculations: feeding the inverse answer
   * back as the forward quantity earns at least the target, and one sale
   * fewer (when that is still a quantity the forward path keeps) does not.
   */
  lemma {:induction false} InverseThenForward(targetIncome: Option<real>, percentage: Option<real>,
                                              price: Option<real>, monthlySales: Option<int>,
                                              conversionRate: Option<real>)
    requires Inverse(targetIncome, percentage, price, conversionRate).Some?
    ensures
      var n := Inverse(targetIncome, percentage, price, conversionRate).value.itemsNeeded;
      && Forward(price, percentage, Some(n), monthlySales, conversionRate).Some?
      && Forward(price, percentage, Some(n), monthlySales, conversionRate).value.totalEarnings
         >= targetIncome.value
      && (n > 1 ==>
            Forward(price, percentage, Some(n - 1), monthlySales, conversionRate).value.totalEarnings
            < targetIncome.value)
  {
    // Forward's total is n times the same per-sale earning; Inverse's contract bounds that product.
  }

  /** A quantity of 0 is falsy and becomes 1, so entering 0, 1 or nothing gives the same projection. */
  lemma ZeroQuantityCountsAsOne(price: Option<real>, percentage: Option<real>,
                                monthlySales: Option<int>, conversionRate: Option<real>)
    ensures Forward(price, percentage, Some(0), monthlySales, conversionRate)
         == Forward(price, percentage, Some(1), monthlySales, conversionRate)
         == Forward(price, percentage, None, monthlySales, conversionRate)
  {
  }

  /** A negative quantity is truthy and kept, so an accepted projection then has negative total earnings. */
  lemma NegativeQuantityIsKept(price: Option<real>, percentage: Option<real>,
                               monthlySales: Option<int>, conversionRate: Option<real>, q: int)
    requires q < 0
    ensures Forward(price, percentage, Some(q), monthlySales, conversionRate).Some? ==>
            Forward(price, percentage, Some(q), monthlySales, conversionRate).value.totalEarnings < 0.0
  {
  }

  // ---------------------------------------------------------------------
  // The insight figure
  // ---------------------------------------------------------------------

  /**
   * `Math.ceil(100 / conversionRate)`: for a positive rate, the least
   * number of visitors that yields one sale at that rate.
   */
  function VisitorsPerSale(conversionRate: real): (v: int)
    requires conversionRate != 0.0
    ensures conversionRate > 0.0 ==> v == SalesNeeded(100.0, conversionRate)
    ensures conversionRate < 0.0 ==> v <= 0
  {
    Ceil(100.0 / conversionRate)
  }

  /** The insight block is rendered when the result earns something per sale. */
  predicate ShowsInsights(r: CalculationResult) {
    r.singleItemEarning > 0.0
  }

  /** The visitors-per-sale line of the insight block, `None` when the block is hidden. */
  function InsightVisitors(r: CalculationResult): (v: Option<int>)
    requires ShowsInsights(r) ==> r.conversionRate != 0.0
    ensures v.Some? <==> ShowsInsights(r)
    ensures v.Some? ==> v.value == VisitorsPerSale(r.conversionRate)
  {
    if ShowsInsights(r) then Some(VisitorsPerSale(r.conversionRate)) else None
  }

  /**
   * Every accepted result shows the insight block, and with the default
   * rate of 2 (an absent, unparsable or zero input) it reads 50 visitors.
   */
  lemma AcceptedResultsShowInsights(r: CalculationResult, conversionRate: Option<real>)
    requires WellFormed(r)
    ensures InsightVisitors(r).Some?
    ensures r.conversionRate == EffectiveConversionRate(conversionRate) &&
            (conversionRate.None? || conversionRate.value == 0.0 || conversionRate.value == 2.0)
            ==> InsightVisitors(r) == Some(50)
  {
  }
}
