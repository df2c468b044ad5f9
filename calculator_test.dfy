/**
 * The reference formulas of the calculator's test script, which repeat the
 * component's arithmetic without its validation, and the script's five
 * scenarios, stated for the reference formulas and for the engine.
 */
module CalculatorTest {
  import opened Wrappers
  import opened Earnings

  datatype ReferenceEarnings = ReferenceEarnings(singleItemEarning: real, totalEarnings: real)

  /**
   * `itemsNeeded` is `None` where the script divides by a zero per-item
   * earning, which JavaScript answers with Infinity or NaN.
   */
  datatype ReferenceItems = ReferenceItems(singleItemEarning: real, itemsNeeded: Option<int>)

  /** The script's `calculateEarnings`; an omitted quantity is 1. */
  function ReferenceCalculateEarnings(price: real, percentage: real, quantity: real := 1.0)
    : (r: ReferenceEarnings)
    ensures r.singleItemEarning * 100.0 == price * percentage
    ensures r.totalEarnings * 100.0 == price * percentage * quantity
    ensures price > 0.0 && percentage > 0.0 ==> (r.totalEarnings > 0.0 <==> quantity > 0.0)
  {
    var single := (price * percentage) / 100.0;
    ReferenceEarnings(single, single * quantity)
  }

  /** The script's `calculateItemsNeeded`. */
  function ReferenceCalculateItemsNeeded(targetIncome: real, price: real, percentage: real)
    : (r: ReferenceItems)
    ensures r.singleItemEarning * 100.0 == price * percentage
    ensures r.itemsNeeded.None? <==> price * percentage == 0.0
    ensures r.itemsNeeded.Some? && r.singleItemEarning > 0.0 ==>
              r.itemsNeeded.value as real * r.singleItemEarning >= targetIncome
              && (r.itemsNeeded.value - 1) as real * r.singleItemEarning < targetIncome
  {
    var single := (price * percentage) / 100.0;
    if single == 0.0 then ReferenceItems(single, None)
    else
      CeilOfQuotient(targetIncome, single);
      ReferenceItems(single, Some(Ceil(targetIncome / single)))
  }

  /**
   * On inputs the component accepts, its forward calculation agrees with
   * the script's, the component's defaulted quantity standing in for the
   * script's argument; an omitted quantity means 1 in both.
   */
  lemma {:induction false} ForwardAgreesWithReference(price: real, percentage: real, quantity: Option<int>,
                                                      monthlySales: Option<int>, conversionRate: Option<real>)
    requires price > 0.0 && percentage > 0.0
    ensures
      var r := Forward(Some(price), Some(percentage), quantity, monthlySales, conversionRate);
      var ref := ReferenceCalculateEarnings(price, percentage, EffectiveQuantity(quantity) as real);
      && r.Some?
      && r.value.singleItemEarning == ref.singleItemEarning
      && r.value.totalEarnings == ref.totalEarnings
    ensures Forward(Some(price), Some(percentage), None, monthlySales, conversionRate).value.totalEarnings
            == ReferenceCalculateEarnings(price, percentage).totalEarnings
  {
    // Both compute price * percentage / 100 and multiply it by the same quantity.
  }

  /**
   * On inputs the component accepts, its inverse calculation finds the
   * same per-item earning and the same number of items as the script.
   */
  lemma {:induction false} InverseAgreesWithReference(targetIncome: real, price: real, percentage: real,
                                                      conversionRate: Option<real>)
    requires targetIncome > 0.0 && price > 0.0 && percentage > 0.0
    ensures
      var r := Inverse(Some(targetIncome), Some(percentage), Some(price), conversionRate);
      var ref := ReferenceCalculateItemsNeeded(targetIncome, price, percentage);
      && r.Some? && ref.itemsNeeded.Some?
      && r.value.singleItemEarning == ref.singleItemEarning
      && r.value.itemsNeeded == ref.itemsNeeded.value
  {
    // A positive per-sale earning keeps the reference off its division by zero; both take the same ceiling.
  }

  /** Test 1: $100 item, 10% commission, 5 sales. */
  lemma BasicEarnings()
    ensures ReferenceCalculateEarnings(100.0, 10.0, 5.0) == ReferenceEarnings(10.0, 50.0)
    ensures Forward(Some(100.0), Some(10.0), Some(5), None, None)
            == Some(CalculationResult(10.0, 50.0, 0, 0.0, 0.0, 2.0))
  {
  }

  /** Test 2: $1000 target, $50 item, 20% commission. */
  lemma ItemsNeeded()
    ensures ReferenceCalculateItemsNeeded(1000.0, 50.0, 20.0) == ReferenceItems(10.0, Some(100))
    ensures Inverse(Some(1000.0), Some(20.0), Some(50.0), None)
            == Some(CalculationResult(10.0, 1000.0, 100, 0.0, 0.0, 2.0))
  {
  }

  /** Test 3: $99.99 item, 15.5% commission, 3 sales; exact over the reals, within 0.01 as checked. */
  lemma DecimalCalculations()
    ensures ReferenceCalculateEarnings(99.99, 15.5, 3.0) == ReferenceEarnings(15.49845, 46.49535)
    ensures Forward(Some(99.99), Some(15.5), Some(3), None, None).value.totalEarnings == 46.49535
  {
  }

  /** Test 4: $1000 item, 0.1% commission, 1 sale. */
  lemma SmallCommission()
    ensures ReferenceCalculateEarnings(1000.0, 0.1, 1.0) == ReferenceEarnings(1.0, 1.0)
    ensures Forward(Some(1000.0), Some(0.1), Some(1), None, None).value.totalEarnings == 1.0
  {
  }

  /** Test 5: $100 item, 50% commission, 2 sales. */
  lemma HighCommission()
    ensures ReferenceCalculateEarnings(100.0, 50.0, 2.0) == ReferenceEarnings(50.0, 100.0)
    ensures Forward(Some(100.0), Some(50.0), Some(2), None, None).value.totalEarnings == 100.0
  {
  }
}
