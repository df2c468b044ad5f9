/**
 * The calculator component's state: the six text inputs the user edits,
 * and the `results` value that the two calculations either replace or
 * leave as they were.
 */
module Component {
  import opened Wrappers
  import opened Earnings

  /**
   * The runtime's `parseFloat` and `parseInt`, which are not part of this
   * model; `None` stands for NaN. `parseInt` yields an integer (it stops
   * at the first character that is not a digit).
   */
  datatype NumberParser = NumberParser(parseFloat: string -> Option<real>, parseInt: string -> Option<int>)

  /** Both built-in parsers answer NaN for the empty string. */
  predicate EmptyIsNaN(p: NumberParser)
    ensures EmptyIsNaN(p) ==> !IsPositive(p.parseFloat(""))
  {
    p.parseFloat("") == None && p.parseInt("") == None
  }

  /** The text inputs of the component. */
  datatype Field = ItemPrice | AffiliatePercentage | Quantity | TargetIncome | MonthlySales | ConversionRate

  /** The inputs listed in the auto-calculation effect's dependencies: all but the target income. */
  predicate IsEffectDependency(f: Field)
    ensures IsEffectDependency(f) <==> f in {ItemPrice, AffiliatePercentage, Quantity, MonthlySales, ConversionRate}
  {
    f != TargetIncome
  }

  /** The effect's guard: both strings are truthy, that is non-empty. */
  predicate AutoCalculateGate(itemPrice: string, affiliatePercentage: string)
    ensures AutoCalculateGate(itemPrice, affiliatePercentage) <==> |itemPrice| > 0 && |affiliatePercentage| > 0
    ensures !AutoCalculateGate(itemPrice, affiliatePercentage) ==>
              forall p :: EmptyIsNaN(p) ==>
                !IsPositive(p.parseFloat(itemPrice)) || !IsPositive(p.parseFloat(affiliatePercentage))
  {
    itemPrice != "" && affiliatePercentage != ""
  }

  /** What `calculateEarnings` computes from the current text inputs. */
  function EarningsFromInputs(p: NumberParser, itemPrice: string, affiliatePercentage: string,
                              quantity: string, monthlySales: string, conversionRate: string)
    : (r: Option<CalculationResult>)
    ensures r.None? <==> !IsPositive(p.parseFloat(itemPrice)) || !IsPositive(p.parseFloat(affiliatePercentage))
    ensures r.Some? ==> WellFormed(r.value) && r.value.itemsNeeded == 0
    ensures r.Some? ==> r.value.conversionRate == EffectiveConversionRate(p.parseFloat(conversionRate))
  {
    Forward(p.parseFloat(itemPrice), p.parseFloat(affiliatePercentage), p.parseInt(quantity),
            p.parseInt(monthlySales), p.parseFloat(conversionRate))
  }

  /** What `calculateItemsNeeded` computes from the current text inputs. */
  function ItemsNeededFromInputs(p: NumberParser, targetIncome: string, affiliatePercentage: string,
                                 itemPrice: string, conversionRate: string)
    : (r: Option<CalculationResult>)
    ensures r.None? <==> !IsPositive(p.parseFloat(targetIncome)) || !IsPositive(p.parseFloat(affiliatePercentage))
                         || !IsPositive(p.parseFloat(itemPrice))
    ensures r.Some? ==> WellFormed(r.value) && r.value.totalEarnings == p.parseFloat(targetIncome).value
    ensures r.Some? ==> r.value.conversionRate == EffectiveConversionRate(p.parseFloat(conversionRate))
  {
    Inverse(p.parseFloat(targetIncome), p.parseFloat(affiliatePercentage), p.parseFloat(itemPrice),
            p.parseFloat(conversionRate))
  }

  /**
   * The guard never suppresses a calculation that would have been
   * accepted: an empty price or percentage parses to NaN, which the
   * forward calculation rejects anyway.
   */
  lemma GateNeverBlocksAcceptedInput(p: NumberParser, itemPrice: string, affiliatePercentage: string,
                                     quantity: string, monthlySales: string, conversionRate: string)
    requires EmptyIsNaN(p)
    ensures EarningsFromInputs(p, itemPrice, affiliatePercentage, quantity, monthlySales, conversionRate).Some?
            ==> AutoCalculateGate(itemPrice, affiliatePercentage)
  {
  }

  class AdvancedCalculator {
    var itemPrice: string
    var affiliatePercentage: string
    var quantity: string
    var targetIncome: string
    var monthlySales: string
    var conversionRate: string
    var results: Option<CalculationResult>

    /** Whatever `results` holds came from one of the two calculations. */
    ghost predicate Valid()
      reads this
    {
      results.Some? ==> WellFormed(results.value)
    }

    /** The initial state: empty inputs, a conversion rate of "2", no results. */
    constructor ()
      ensures Valid()
      ensures itemPrice == "" && affiliatePercentage == "" && quantity == ""
      ensures targetIncome == "" && monthlySales == "" && conversionRate == "2"
      ensures results == None
    {
      itemPrice := "";
      affiliatePercentage := "";
      quantity := "";
      targetIncome := "";
      monthlySales := "";
      conversionRate := "2";
      results := None;
    }

    /** The current text of one input. */
    function Input(f: Field): string
      reads this
    {
      match f
      case ItemPrice => itemPrice
      case AffiliatePercentage => affiliatePercentage
      case Quantity => quantity
      case TargetIncome => targetIncome
      case MonthlySales => monthlySales
      case ConversionRate => conversionRate
    }

    function CurrentEarnings(p: NumberParser): Option<CalculationResult>
      reads this
    {
      EarningsFromInputs(p, itemPrice, affiliatePercentage, quantity, monthlySales, conversionRate)
    }

    function CurrentItemsNeeded(p: NumberParser): Option<CalculationResult>
      reads this
    {
      ItemsNeededFromInputs(p, targetIncome, affiliatePercentage, itemPrice, conversionRate)
    }

    /** `calculateEarnings`: replace `results` with the projection, or return early. */
    method CalculateEarnings(p: NumberParser)
      requires Valid()
      modifies this`results
      ensures Valid()
      ensures old(CurrentEarnings(p)).None? ==> results == old(results)
      ensures old(CurrentEarnings(p)).Some? ==> results == old(CurrentEarnings(p))
    {
      var price := p.parseFloat(itemPrice);
      var percentage := p.parseFloat(affiliatePercentage);
      var qty := p.parseInt(quantity);
      var monthly := p.parseInt(monthlySales);
      var conversion := p.parseFloat(conversionRate);
      if !IsPositive(price) || !IsPositive(percentage) {
        return;
      }
      var newResults := Forward(price, percentage, qty, monthly, conversion);
      results := newResults;
    }

    /** `calculateItemsNeeded`, the button's handler: replace `results`, or return early. */
    method CalculateItemsNeeded(p: NumberParser)
      requires Valid()
      modifies this`results
      ensures Valid()
      ensures old(CurrentItemsNeeded(p)).None? ==> results == old(results)
      ensures old(CurrentItemsNeeded(p)).Some? ==> results == old(CurrentItemsNeeded(p))
    {
      var income := p.parseFloat(targetIncome);
      var percentage := p.parseFloat(affiliatePercentage);
      var price := p.parseFloat(itemPrice);
      if !IsPositive(income) || !IsPositive(percentage) || !IsPositive(price) {
        return;
      }
      var newResults := Inverse(income, percentage, price, p.parseFloat(conversionRate));
      results := newResults;
    }

    /** The auto-calculation effect: run `calculateEarnings` when price and percentage are non-empty. */
    method AutoCalculate(p: NumberParser)
      requires Valid()
      modifies this`results
      ensures Valid()
      ensures !AutoCalculateGate(itemPrice, affiliatePercentage) ==> results == old(results)
      ensures AutoCalculateGate(itemPrice, affiliatePercentage) ==>
                results == if old(CurrentEarnings(p)).Some? then old(CurrentEarnings(p)) else old(results)
    {
      if AutoCalculateGate(itemPrice, affiliatePercentage) {
        CalculateEarnings(p);
      }
    }

    /**
     * An input's change handler followed by the effect: the effect runs
     * again only when the edited input is one of its dependencies and its
     * text actually changed.
     */
    method Edit(f: Field, value: string, p: NumberParser)
      requires Valid()
      modifies this
      ensures Valid()
      ensures Input(f) == value
      ensures forall g :: g != f ==> Input(g) == old(Input(g))
      ensures f != ItemPrice ==> itemPrice == old(itemPrice)
      ensures f != AffiliatePercentage ==> affiliatePercentage == old(affiliatePercentage)
      ensures f != Quantity ==> quantity == old(quantity)
      ensures f != TargetIncome ==> targetIncome == old(targetIncome)
      ensures f != MonthlySales ==> monthlySales == old(monthlySales)
      ensures f != ConversionRate ==> conversionRate == old(conversionRate)
      ensures var reruns := IsEffectDependency(f) && value != old(Input(f))
                            && AutoCalculateGate(itemPrice, affiliatePercentage)
                            && CurrentEarnings(p).Some?;
              results == if reruns then CurrentEarnings(p) else old(results)
    {
      var changed := value != Input(f);
      match f {
        case ItemPrice => itemPrice := value;
        case AffiliatePercentage => affiliatePercentage := value;
        case Quantity => quantity := value;
        case TargetIncome => targetIncome := value;
        case MonthlySales => monthlySales := value;
        case ConversionRate => conversionRate := value;
      }
      if IsEffectDependency(f) && changed {
        AutoCalculate(p);
      }
    }

    /** The visitors-per-sale figure on screen: shown exactly when there are results. */
    function VisitorsShown(): (v: Option<int>)
      reads this
      requires Valid()
      ensures v.Some? <==> results.Some?
      ensures v.Some? ==> v.value == VisitorsPerSale(results.value.conversionRate)
      ensures v.Some? ==> results.value.conversionRate > 0.0 ==> v.value >= 1
    {
      match results
      case None => None
      case Some(r) => InsightVisitors(r)
    }
  }

  /**
   * A fresh component whose only edit is a price still shows nothing: the
   * effect's gate waits for the percentage as well.
   */
  method PriceAloneShowsNothing(p: NumberParser, price: string) returns (shown: Option<CalculationResult>)
    ensures shown == None
  {
    var c := new AdvancedCalculator();
    c.Edit(ItemPrice, price, p);
    shown := c.results;
  }
}
