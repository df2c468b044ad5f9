# Affiliate marketing calculator: the earnings engine

This project models the calculator component of an embedded affiliate-marketing
web app. The component takes an item price, a commission percentage, a quantity,
monthly sales, a target income and a conversion rate, all as text. It computes one
of two projections:

- the **forward calculation** (`calculateEarnings`): per-sale earning, total
  earnings for the quantity, and monthly and yearly projections;
- the **inverse calculation** (`calculateItemsNeeded`): the number of sales needed
  to reach a target income.

The component keeps the latest projection in its `results` state. Each calculation
either replaces it or, when its inputs fail validation, returns early and leaves it
unchanged. An effect re-runs the forward calculation after a change to price,
percentage, quantity, monthly sales or conversion rate, and then only when price and
percentage are both filled in. Editing the target income never triggers it. Under
the results, an insight line shows `ceil(100 / conversionRate)` visitors per sale.

Files:

- `wrappers.dfy`: `Option`. A parsed number that JavaScript reports as NaN is `None`.
- `earnings.dfy` (module `Earnings`): the pure arithmetic. It holds the `|| default`
  rule, validation, the two calculations, the ceiling lemmas and the insight figure.
- `advanced_calculator.dfy` (module `Component`): the class `AdvancedCalculator`. Its
  fields are the six input strings and `results`. Its methods are the two calculations,
  the auto-calculation effect and an input edit.
- `calculator_test.dfy` (module `CalculatorTest`): the test script's reference
  formulas, lemmas that they agree with the engine, and the script's five scenarios.

Defaulting follows JavaScript's `||` on numbers (components/AdvancedCalculator.tsx:36-38, 80):

- Quantity, monthly sales and conversion rate are replaced only when they parse to NaN
  or 0, JavaScript's falsy numbers.
- A negative value is kept. So a negative quantity gives negative total earnings
  (`Earnings.NegativeQuantityIsKept`). A negative conversion rate gives a visitors
  figure of at most 0.
- An input of 0 counts as 1 for quantity (`Earnings.ZeroQuantityCountsAsOne`) and as 2
  for conversion rate.

The runtime's `parseFloat` and `parseInt` are a parameter of the component's methods:
`Component.NumberParser`, two total functions from strings to optional numbers.

## Model

| member | source | states |
|---|---|---|
| `Earnings.OrInt` | components/AdvancedCalculator.tsx:36-37 | `parseInt(..) \|\| d` is always either the fallback or the parsed integer; a non-zero fallback makes it non-zero; NaN and 0 become the fallback and every other integer, negative ones included, is kept |
| `Earnings.OrReal` | components/AdvancedCalculator.tsx:38 | `parseFloat(..) \|\| d` is always either the fallback or the parsed number; a non-zero fallback makes it non-zero; NaN and 0 become the fallback and every other number is kept |
| `Earnings.DefaultsNeverZero` | components/AdvancedCalculator.tsx:36-38 | the defaulted quantity and conversion rate are never 0; quantity is 1, monthly sales 0 and conversion rate 2 exactly when the input was NaN, 0 or already that value |
| `Earnings.EffectiveQuantity` | components/AdvancedCalculator.tsx:36 | the forward quantity is never 0: NaN and 0 give 1, and every other parsed integer is kept |
| `Earnings.EffectiveMonthlySales` | components/AdvancedCalculator.tsx:37 | monthly sales are 0 exactly when the input is NaN or 0; any parsed integer is kept |
| `Earnings.EffectiveConversionRate` | components/AdvancedCalculator.tsx:38 | the stored rate is never 0: NaN and 0 give 2, and every other parsed number is kept |
| `Earnings.IsPositive` | components/AdvancedCalculator.tsx:40 | an input passes exactly when the rejecting test `isNaN(x) \|\| x <= 0` fails, and an input that passes is never replaced by a `\|\|` default |
| `Earnings.Ceil` | components/AdvancedCalculator.tsx:72 | `Math.ceil` on a finite number: an integer `n` with `x <= n < x + 1` |
| `Earnings.CeilIsLeast` | components/AdvancedCalculator.tsx:72 | an integer is at least `x` if and only if it is at least `Ceil(x)` |
| `Earnings.CeilOfQuotient` | components/AdvancedCalculator.tsx:72 | for `s > 0`, `Ceil(t / s)` copies of `s` reach `t` and one copy fewer does not |
| `Earnings.SingleItemEarning` | components/AdvancedCalculator.tsx:44 | the per-sale earning is `percentage` percent of `price`, and it is positive when both are |
| `Earnings.SalesNeeded` | components/AdvancedCalculator.tsx:71-72 | for a positive target and per-sale earning, the sale count is at least 1, reaches the target, and one sale fewer does not |
| `Earnings.SalesNeededIsLeast` | components/AdvancedCalculator.tsx:72 | a number of sales reaches the target if and only if it is at least `SalesNeeded`: the ceiling is the least sufficient count |
| `Earnings.WellFormed` | components/AdvancedCalculator.tsx:44-81 | a stored result earns something per sale and has a non-zero rate, so it shows the insight block |
| `Earnings.Forward` | components/AdvancedCalculator.tsx:33-60 | no result exactly when price or percentage is NaN or at most 0; otherwise per-sale = price·pct/100, total = per-sale·quantity, monthly = per-sale·monthly sales, yearly = 12·monthly, items needed 0, and the defaulted rate; every result is well formed |
| `Earnings.Inverse` | components/AdvancedCalculator.tsx:62-85 | no result exactly when income, percentage or price is NaN or at most 0; otherwise items needed ≥ 1, it reaches the target, one fewer does not, total = income, monthly = yearly = 0, and the defaulted rate |
| `Earnings.InverseThenForward` | components/AdvancedCalculator.tsx:33-85 | feeding the inverse answer back as the forward quantity earns at least the target; one sale fewer (when more than 1) earns less |
| `Earnings.ZeroQuantityCountsAsOne` | components/AdvancedCalculator.tsx:36-45 | quantity 0, 1 and NaN give the same forward result |
| `Earnings.NegativeQuantityIsKept` | components/AdvancedCalculator.tsx:36-45 | a negative quantity is kept, so an accepted forward result has negative total earnings |
| `Earnings.VisitorsPerSale` | components/AdvancedCalculator.tsx:262 | for a positive rate, `ceil(100 / rate)` is the least visitor count that yields one sale at that rate; for a negative rate it is at most 0 |
| `Earnings.InsightVisitors` | components/AdvancedCalculator.tsx:257-262 | the visitors line is present exactly when the per-sale earning is positive, and it then shows `VisitorsPerSale` of the result's rate |
| `Earnings.AcceptedResultsShowInsights` | components/AdvancedCalculator.tsx:257-262 | every stored result shows the insight line; with the default rate of 2 it reads 50 |
| `Component.EmptyIsNaN` | components/AdvancedCalculator.tsx:34-35 | the one assumption about the parsers: the empty string parses to NaN, which never passes validation |
| `Component.IsEffectDependency` | components/AdvancedCalculator.tsx:31 | the effect depends exactly on price, percentage, quantity, monthly sales and conversion rate |
| `Component.AutoCalculateGate` | components/AdvancedCalculator.tsx:28 | the gate passes exactly when price and percentage text are both non-empty; when it fails, every parser that reads the empty string as NaN makes the forward calculation reject |
| `Component.EarningsFromInputs` | components/AdvancedCalculator.tsx:34-42 | parsing the five texts gives no result exactly when price or percentage fails validation; otherwise a well-formed result with 0 items needed and the defaulted rate |
| `Component.ItemsNeededFromInputs` | components/AdvancedCalculator.tsx:63-80 | parsing the four texts gives no result exactly when income, percentage or price fails validation; otherwise a well-formed result with total = income and the defaulted rate |
| `Component.GateNeverBlocksAcceptedInput` | components/AdvancedCalculator.tsx:27-31 | when the empty string parses to NaN, any input the forward calculation accepts also passes the effect's non-empty gate |
| `Component.AdvancedCalculator.constructor` | components/AdvancedCalculator.tsx:18-24 | initial state: empty inputs, conversion rate "2", no results |
| `Component.AdvancedCalculator.CalculateEarnings` | components/AdvancedCalculator.tsx:33-60 | `results` is replaced by the forward result, or left unchanged when the inputs are rejected; it stays well formed |
| `Component.AdvancedCalculator.CalculateItemsNeeded` | components/AdvancedCalculator.tsx:62-85 | `results` is replaced by the inverse result, or left unchanged when the inputs are rejected; it stays well formed |
| `Component.AdvancedCalculator.AutoCalculate` | components/AdvancedCalculator.tsx:27-31 | the forward calculation runs only when price and percentage text are both non-empty; otherwise `results` is unchanged |
| `Component.AdvancedCalculator.Edit` | components/AdvancedCalculator.tsx:27-31 | an edit sets one field and each of the other five keeps its text; the effect re-runs only if the field is a dependency (not target income) and its text changed |
| `Component.AdvancedCalculator.VisitorsShown` | components/AdvancedCalculator.tsx:206-262 | with a well-formed state, the visitors figure is shown exactly when there are results; it is `VisitorsPerSale` of the stored rate, at least 1 for a positive rate |
| `Component.PriceAloneShowsNothing` | components/AdvancedCalculator.tsx:18-31 | a fresh component whose only edit is the price keeps no results, because the effect's gate also needs the percentage |
| `CalculatorTest.ReferenceCalculateEarnings` | test/calculator.test.js:5-9 | per-sale is price·pct/100 and total is price·pct·quantity/100 (quantity defaults to 1); for a positive price and percentage the total is positive exactly when the quantity is |
| `CalculatorTest.ReferenceCalculateItemsNeeded` | test/calculator.test.js:11-15 | no finite answer exactly when price·pct is 0; for a positive per-sale earning, the count reaches the target and one fewer does not |
| `CalculatorTest.ForwardAgreesWithReference` | test/calculator.test.js:5-9 | on accepted inputs the component's per-sale and total equal the reference's with the defaulted quantity; an omitted quantity agrees too |
| `CalculatorTest.InverseAgreesWithReference` | test/calculator.test.js:11-15 | on inputs the component accepts, its per-sale earning and items needed equal the reference's |
| `CalculatorTest.BasicEarnings` | test/calculator.test.js:21-27 | price 100, 10%, quantity 5: per item 10, total 50, for the reference and for the engine |
| `CalculatorTest.ItemsNeeded` | test/calculator.test.js:29-35 | target 1000, price 50, 20%: per item 10, 100 items needed |
| `CalculatorTest.DecimalCalculations` | test/calculator.test.js:37-43 | price 99.99, 15.5%, quantity 3: per item 15.49845, total 46.49535 exactly |
| `CalculatorTest.SmallCommission` | test/calculator.test.js:45-51 | price 1000, 0.1%, quantity 1: per item 1, total 1 |
| `CalculatorTest.HighCommission` | test/calculator.test.js:53-59 | price 100, 50%, quantity 2: per item 50, total 100 |

## Left out

- JSX rendering, CSS classes, icons and the other conditional result tiles (components/AdvancedCalculator.tsx:94-275): presentation only. Only the insight line's gate and figure are modelled.
- `formatCurrency` (components/AdvancedCalculator.tsx:87-92): currency formatting through the runtime's `Intl.NumberFormat`.
- The `onResultsChange` callback and React's scheduling of renders and effects. The source passes the callback the same value it stores in `results`; the callback is not modelled. The effect's initial run on mount does nothing, because the price starts empty.
- IEEE-754 doubles: numbers are `real`, with no rounding, no infinities and no signed zero. An input such as `Infinity`, which `parseFloat` accepts, is not modelled.
- The string grammar of `parseFloat` and `parseInt`: it is a parameter (`Component.NumberParser`). Only `EmptyIsNaN` is assumed, and only where a lemma needs it.
- `CalculatorTest.ReferenceCalculateItemsNeeded`: when the per-sale earning is 0, the script's result is ±Infinity or NaN. This is modelled as `None`, not as those values.
- `Earnings.VisitorsPerSale`: requires a non-zero rate. JavaScript would show Infinity for 0, but no stored result has a rate of 0.
- pages/index.tsx: the access gate, with its asynchronous platform calls and its fail-open grant of access when they fail. It is not part of the engine.
- lib/whop-integration.ts, config/whop.config.ts and next.config.js: wrappers over an external SDK, logging, and static configuration.
