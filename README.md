# protoplan cost and repurchase engine, in Dafny

This project models the engine in `src/calculateCosts.ts` of protoplan.
A protocol is a list of rows. Each row combines a dosing schedule (dose, doses per day, days per month, package amount, conversion factor) with a listing in a shop (price, currency, tax, delivery, discounts, basket limit, bundle membership, quantity, priority).

For every row the engine works out:

- the product consumed per month;
- the listings to buy per month, driven by the row's bundle;
- the listing price after discounts, tax, sales tax and currency conversion;
- the monthly cost;
- how many listings fit in one order, the orders per month and the per-order fees per month;
- the number of days between repurchases.

Rows whose bundle flag is off get `undefined` for their monthly cost, fees, listings per month and repurchase interval. The engine also sums the monthly costs and fees of a protocol, and sorts rows by priority.

The source is a pure TypeScript file, so the model is pure Dafny: datatypes, functions and lemmas, one module per stage.

- `Wrappers` holds `Option`. It models `undefined`.
- `Rows` holds the partial input row `Dosing` and the validated row `Listed`. It also holds JavaScript truthiness (`Truthy`, `Or`, `OptOr`) and row validation.
- `Folds` holds a generic fold. It is used to show that the order of the discounts does not matter.
- `Reals` names real multiplication (`Mul`) and holds facts about products of non-negative reals.
- `Discounts` applies the discount list.
- `Pricing` computes products per month, the listing cost, the cost per month and the repurchase interval.
- `Fees` computes the per-order fees.
- `Costs` computes one row's derived fields (`calculateCostAndRepurchase`).
- `Bundles` is the batch entry point `calculateCostsAndRepurchases`: bundles, listings per month, and the priority flag.
- `Totals` is `calculateTotalCosts`.
- `Sorting` is `sortDosings`.

Numbers are modelled as exact `real`s and ids as `int`s. Three collaborators become parameters:

- the exchange-rate lookup is `rate(listingCurrency, userCurrency)`;
- the first element of the priority list after JavaScript's default `.sort()` is `firstAfterSort`;
- the awaited promises are plain function calls.

Where the comments in `src/calculateCosts.ts` and its code disagree, the model follows the code:

- Listings per month are not the same for every row of a bundle. With non-negative consumption and positive quantities, each row divides its own consumption by the smallest `quantity || 1` in its bundle (`Bundles.ListingsUseSmallestQuantity`, `Bundles.SiblingsShareBundleRows`).
- The comments at src/calculateCosts.ts:50 and :134 say that cost is shown only for the highest-priority row of a bundle. The flag computed at src/calculateCosts.ts:53 only asks whether some row of the bundle has the priority that sorts first. So when every row has a priority, every valid row shows its cost (`Bundles.AllPrioritisedRowsShown`). A lone row without a priority shows none (`Bundles.UnprioritisedLoneRowHidden`).
- `maxListingsPerOrder` is never 0. It is at least 1 when the price with tax is positive and the basket limit non-negative. `Math.floor(limit / price) || 1` lets a negative quotient through otherwise.
- There is no `amountProportion`, no cost apportionment across bundle rows, no fee brackets and no unit conversion in the code. These are not modelled.

## Model

| member | source | states |
|---|---|---|
| Rows.GetDosingWithListing | src/calculateCosts.ts:67-106 | a row is rejected exactly when an id, the factor, the amount, the amount unit, the basket limit or a currency code is absent or zero/empty, or a dose field or the price is absent; an accepted row keeps every field, and its amount, factor and basket limit are non-zero |
| Rows.ListedRoundTrip | src/calculateCosts.ts:67-106 | every fully populated row with non-zero ids and limits passes validation unchanged |
| Rows.ZeroDoseAndPriceAccepted | src/calculateCosts.ts:72-79 | a zero dose and a zero price pass validation; only their absence rejects the row |
| Discounts.Applied | src/calculateCosts.ts:218-219 | a discount is kept exactly when it is in the list and applied, as many times as it occurs there, and the list never grows |
| Discounts.Reduce | src/calculateCosts.ts:220 | folding discounts left to right over a start value multiplies it by the product of their multipliers `(100 - saving) / 100` |
| Discounts.AppliedProductIsFactor | src/calculateCosts.ts:218-220 | the product over the applied discounts equals the product over the whole list in which an unapplied discount weighs 1 |
| Discounts.DiscountedPrice | src/calculateCosts.ts:218-220 | without a discount list the price is unchanged; with one, it is the price times that whole-list factor |
| Discounts.FactorIsOrderFree | src/calculateCosts.ts:218-220 | any reordering of the discount list gives the same product |
| Discounts.DiscountOrderIrrelevant | src/calculateCosts.ts:218-220 | the discounted price does not depend on the order of the discounts |
| Discounts.UnappliedIgnored | src/calculateCosts.ts:218-220 | discounts that are not applied leave the factor at 1 and the price unchanged |
| Discounts.FactorInUnitRange | src/calculateCosts.ts:218-220 | with every saving between 0 and 100 percent the product of the multipliers lies between 0 and 1 |
| Discounts.DiscountedPriceBounded | src/calculateCosts.ts:218-220 | with savings between 0 and 100 percent a non-negative price is discounted to a value between 0 and the price |
| Pricing.ProductsPerMonth | src/calculateCosts.ts:141-149 | consumption times the package amount is dose times doses per day times days per month times the factor, a zero factor counting as 1 |
| Pricing.ProductsPerMonthExample | src/calculateCosts.ts:141-149 | one dose twice a day for 30 days from a package of 60 is one package a month |
| Pricing.ZeroFactorIsOne | src/calculateCosts.ts:147 | a zero conversion factor counts as a factor of 1 |
| Pricing.ProductsPerMonthProportional | src/calculateCosts.ts:141-149 | consumption scales with the dose and inversely with the package amount |
| Pricing.ProductsPerMonthNonNegative | src/calculateCosts.ts:141-149 | non-negative schedules and a positive package give non-negative consumption |
| Pricing.ExchangeRate | src/calculateCosts.ts:211 | the row's own non-zero rate, else the rate looked up from the listing currency to the user currency |
| Pricing.SalesTax | src/calculateCosts.ts:212-216 | on a US-to-US sale in dollars the row's own sales tax applies; a non-zero sales tax arises only there; an absent sales tax gives 0 |
| Pricing.ListingCost | src/calculateCosts.ts:199-229 | the exchange rate is the row's own non-zero rate, else the looked-up rate; the discounted price is the price times the order-free discount factor; the price with tax is that discounted price plus delivery, raised by tax and sales tax, plus base tax only when asked for, converted at the row's rate |
| Pricing.PriceWithTaxExample | src/calculateCosts.ts:224-226 | price 10 with 20 percent tax and rate 1 costs 12 |
| Pricing.SameCurrencyNotConverted | src/calculateCosts.ts:211 | without its own rate, a listing in the user's currency is converted at 1 when the lookup maps a currency to itself at 1 |
| Pricing.SalesTaxOnlyUsDomestic | src/calculateCosts.ts:212-216 | outside a US-to-US sale in dollars the row's sales tax changes no price |
| Pricing.BaseTaxConverted | src/calculateCosts.ts:224-226 | base tax enters the price with tax as itself times the exchange rate |
| Pricing.PriceWithTaxNonNegative | src/calculateCosts.ts:224-226 | non-negative prices, delivery, base tax and rate with tax and sales tax above -100 percent give a non-negative price with tax |
| Pricing.BaseTaxAddedBeforeConversion | src/calculateCosts.ts:224-226 | including base tax adds exactly the base tax converted at the row's rate |
| Pricing.ListingCostIgnoresDiscountOrder | src/calculateCosts.ts:218-228 | reordering a row's discounts changes none of its prices |
| Pricing.CostPerMonth | src/calculateCosts.ts:187-197 | the row's prices are those of the listing cost without base tax; the monthly cost is the price with tax, taken from the order-free discount factor, delivery, taxes and rate with no base tax, times the listings per month |
| Pricing.CostIgnoresDiscountOrder | src/calculateCosts.ts:187-197 | reordering a row's discounts does not change its monthly cost |
| Pricing.NoListingsNoCost | src/calculateCosts.ts:194 | buying no listings costs nothing |
| Pricing.CostNonNegative | src/calculateCosts.ts:187-229 | a non-negative price, savings between 0 and 100 percent, non-negative delivery, tax and sales tax above -100 percent, a non-negative rate and non-negative listings give a non-negative monthly cost |
| Pricing.Repurchase | src/calculateCosts.ts:151-156 | the repurchase interval times the listings per month is the mean month of 365.24 / 12 days |
| Pricing.RepurchaseOneListing | src/calculateCosts.ts:151-156 | one listing a month is bought again about every 30.4367 days |
| Pricing.RepurchaseHalves | src/calculateCosts.ts:151-156 | buying twice as many listings halves the interval |
| Fees.MaxListingsPerOrder | src/calculateCosts.ts:251 | never 0; 1 without a basket limit; for a positive price with tax, 1 when the limit is non-negative and not even one listing fits, and otherwise the floor of limit over price (n with n times the price at most the limit and n + 1 times it above), negative limits included |
| Fees.PerOrderFee | src/calculateCosts.ts:249-263 | orders per month times listings per order is the listings per month; the fees per month are delivery (converted) plus base tax per order, times orders, times quantity, over the bundle's product count; no delivery and no base tax means no fees |
| Fees.NoBasketLimitOneListingPerOrder | src/calculateCosts.ts:251-252 | without a basket limit each listing is its own order |
| Fees.BasketExample | src/calculateCosts.ts:251 | a limit of 25 at a price of 10 holds 2 listings per order |
| Costs.EffectiveListingsPerMonth | src/calculateCosts.ts:118 | the row's own non-zero listings per month when set, otherwise its consumption |
| Costs.CostAndRepurchase | src/calculateCosts.ts:108-139 | consumption, exchange rate, discounted price, price with tax and listings per order (the basket-limit floor for that price) are always set from the listing cost and the fee rule; monthly cost, fees, listings per month and repurchase are set exactly when the flag is on, and then they are the row's listings per month (or its consumption), the monthly cost, the fees and the interval for those listings |
| Costs.ListingsFallBackToConsumption | src/calculateCosts.ts:118 | a row without its own listings per month buys what it consumes |
| Costs.HidingKeepsPrices | src/calculateCosts.ts:131-138 | turning the flag off blanks exactly the four cost fields and changes nothing else |
| Bundles.ValidRows | src/calculateCosts.ts:14-22 | the kept rows are input rows that pass validation, each kept as validation returns it |
| Bundles.ValidRowsComplete | src/calculateCosts.ts:14-22 | every input row that passes validation is kept |
| Bundles.BundleFilter | src/calculateCosts.ts:46-48 | the bundle rows are exactly the valid rows carrying the bundle id |
| Bundles.BundleRows | src/calculateCosts.ts:46-51 | a row is always among its own bundle rows |
| Bundles.MaxListings | src/calculateCosts.ts:56 | the listings per month are the largest of the row's consumption over each bundle row's quantity, and one of them |
| Bundles.MinDivisor | src/calculateCosts.ts:56 | the smallest quantity (1 when absent or zero) among the bundle rows, and one of them |
| Bundles.MaxListingsIsSmallestQuantity | src/calculateCosts.ts:56 | for non-negative consumption and positive quantities, the largest quotient is the consumption over the smallest quantity |
| Bundles.Priorities | src/calculateCosts.ts:52 | each bundle row contributes its priority when it has one and 0 otherwise |
| Bundles.HasPriorityRow | src/calculateCosts.ts:52-53 | when the flag holds, the bundle is non-empty and the priority that sorts first is one of its priorities |
| Bundles.PrioritisedRowsFlagged | src/calculateCosts.ts:52-53 | when every bundle row has a priority the flag is on, whichever priority sorts first |
| Bundles.UnprioritisedLoneRowNotFlagged | src/calculateCosts.ts:51-53 | a lone row without a priority is not flagged |
| Bundles.MaxListingsCoversRow | src/calculateCosts.ts:56 | the largest quotient is at least the quotient of each bundle row |
| Bundles.BundleListingsPerMonth | src/calculateCosts.ts:56 | a row never buys fewer listings than its own consumption over its own quantity, and buys exactly its consumption over the quantity of some row of its bundle |
| Bundles.BundleFlag | src/calculateCosts.ts:50-53 | when the flag is on, some row of the bundle has a priority and the first sorted priority is one of the bundle's |
| Bundles.CostRow | src/calculateCosts.ts:24-62 | an invalid row gets every derived field undefined; a valid row gets its consumption, and the derived fields of the row with its bundle's non-zero listings per month under its bundle flag |
| Bundles.CostsAndRepurchases | src/calculateCosts.ts:9-65 | one output per input row, in order, with the input row kept; exactly the invalid rows get every derived field undefined; every valid row has its consumption |
| Bundles.ShownExactlyWhenFlagged | src/calculateCosts.ts:58-61 | a valid row shows cost, fees, listings per month and repurchase exactly when its bundle flag holds, and then the bundle's listings per month and the repurchase interval for them |
| Bundles.LoneRowListings | src/calculateCosts.ts:51-56 | a row without a bundle buys its consumption over its own quantity |
| Bundles.ListingsUseSmallestQuantity | src/calculateCosts.ts:46-56 | a row buys its own consumption over the smallest quantity in its bundle |
| Bundles.SiblingsShareBundleRows | src/calculateCosts.ts:46-48 | rows with the same non-zero bundle id see the same bundle rows |
| Bundles.BundleRowsFromInput | src/calculateCosts.ts:46-51 | every bundle row comes from an input row |
| Bundles.AllPrioritisedRowsShown | src/calculateCosts.ts:50-61 | when every input row has a priority, every valid row shows its monthly cost |
| Bundles.UnprioritisedLoneRowHidden | src/calculateCosts.ts:50-61 | a valid row with no bundle and no priority never shows its monthly cost |
| Totals.Accumulate | src/calculateCosts.ts:279-280 | the running `reduce` from a start value is the start value plus the sum of the present values, an undefined value counting as 0 |
| Totals.CalculateTotalCosts | src/calculateCosts.ts:277-283 | the totals are the sums of the monthly costs and of the monthly fees, an undefined value counting as 0 |
| Totals.SumOfConcat | src/calculateCosts.ts:279-280 | the sum over two joined lists is the sum of the sums |
| Totals.TotalsOfConcat | src/calculateCosts.ts:277-283 | totals add up over joined row lists |
| Totals.HiddenRowsDoNotCount | src/calculateCosts.ts:277-283 | rows with undefined cost and fees change neither total, wherever they are inserted |
| Totals.BlankRowsDoNotCount | src/calculateCosts.ts:277-283 | a row that failed validation changes neither total |
| Sorting.Insert | src/calculateCosts.ts:267 | inserting into a sorted list adds exactly that row and keeps ascending priority |
| Sorting.SortDosings | src/calculateCosts.ts:265-268 | the result is a permutation of the rows in ascending order of priority |
| Sorting.SortedUnchanged | src/calculateCosts.ts:265-268 | rows already in order are returned unchanged |

## Left out

- The exchange-rate service in `src/currency.ts` and the network call behind it are not part of this model. The lookup is the parameter `rate`.
- Promises and `Promise.all`: each `await` is a plain call, and the batch is a map over the rows in order.
- Floating point. Numbers are exact reals, so `NaN` and `Infinity` do not arise. The `|| 0` that turns a `NaN` monthly cost into 0 (src/calculateCosts.ts:194) is therefore not modelled.
- JavaScript's default `.sort()` compares priorities as strings. The model does not define it: the first priority after sorting is the parameter `firstAfterSort`, and lemmas assume only that it returns one of the priorities.
- Priorities are modelled as `int`s. The source's `number` could also hold a fractional priority, which the model does not cover.
- Pricing.ProductsPerMonth: requires a non-zero amount. Validation already rejects a zero amount.
- Fees.MaxListingsPerOrder: requires a non-zero price with tax when there is a basket limit. The source divides by it and can yield `Infinity`.
- Pricing.Repurchase: requires non-zero listings per month. The source returns `Infinity` for 0. The model computes the interval only when the bundle flag is on, because an unflagged row discards it.
- Costs.CostAndRepurchase: requires the divisions above to be defined for the row (`Costs.Priceable`).
- Bundles.CostsAndRepurchases: requires every valid row to have non-zero consumption and a non-zero price with tax (`Bundles.RowPriceable`). The source also accepts rows where these are zero, and produces `Infinity` for them.
- Sorting.SortDosings: sorts by priority but does not state the stability of JavaScript's sort. The copies `{ ...r }` are the rows themselves, because rows are values.
- `Number(...)` and `String(...)` coercions and `src/enforceTypes.ts`: inputs are already typed numbers and strings.
- `src/types.ts` and `src/index.ts` are not part of this model. `src/index.ts` re-exports names that the core does not define.
