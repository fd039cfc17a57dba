/**
 * Monthly consumption, listing price, monthly cost and repurchase interval
 * of one validated row (src/calculateCosts.ts:141-229).
 */
module Pricing {
  import opened Wrappers
  import opened Rows
  import opened Discounts
  import opened Reals

  /** `calculateProductsPerMonth`: the amount of product one row consumes in a
      month; a zero conversion factor counts as 1. */
  function ProductsPerMonth(l: Listed): (r: real)
    requires l.amount != 0.0
    ensures r * l.amount
      == l.dose * l.dosesPerDay * l.daysPerMonth * (if l.factor != 0.0 then l.factor else 1.0)
  {
    l.dose * l.dosesPerDay * l.daysPerMonth * Or(l.factor, 0.0, 1.0) / l.amount
  }

  /** One dose twice a day for 30 days from a package of 60 lasts one month. */
  lemma ProductsPerMonthExample(l: Listed)
    requires l.dose == 1.0 && l.dosesPerDay == 2.0 && l.daysPerMonth == 30.0
    requires l.factor == 1.0 && l.amount == 60.0
    ensures ProductsPerMonth(l) == 1.0
  {
  }

  /** A zero factor behaves exactly like a factor of 1. */
  lemma ZeroFactorIsOne(l: Listed)
    requires l.amount != 0.0
    ensures ProductsPerMonth(l.(factor := 0.0)) == ProductsPerMonth(l.(factor := 1.0))
  {
  }

  /** Consumption is proportional to the dose and inversely so to the package size. */
  lemma ProductsPerMonthProportional(l: Listed, k: real)
    requires l.amount != 0.0 && k != 0.0
    ensures ProductsPerMonth(l.(dose := k * l.dose)) == k * ProductsPerMonth(l)
    ensures ProductsPerMonth(l.(amount := k * l.amount)) * k == ProductsPerMonth(l)
  {
    var c := l.dosesPerDay * l.daysPerMonth * Or(l.factor, 0.0, 1.0);
    assert ProductsPerMonth(l) == l.dose * c / l.amount;
    assert ProductsPerMonth(l.(dose := k * l.dose)) == (k * l.dose) * c / l.amount;
    assert ProductsPerMonth(l.(amount := k * l.amount)) == l.dose * c / (k * l.amount);
  }

  /** Non-negative schedules and a positive package give non-negative consumption. */
  lemma ProductsPerMonthNonNegative(l: Listed)
    requires l.dose >= 0.0 && l.dosesPerDay >= 0.0 && l.daysPerMonth >= 0.0
    requires l.factor >= 0.0 && l.amount > 0.0
    ensures ProductsPerMonth(l) >= 0.0
  {
    var a := l.dose * l.dosesPerDay;
    var b := a * l.daysPerMonth;
    var c := b * Or(l.factor, 0.0, 1.0);
    assert a >= 0.0 && b >= 0.0 && c >= 0.0;
  }

  /** The prices `calculateListingCost` adds to a row. */
  datatype ListingPrice = ListingPrice(exchangeRate: real, discountedPrice: real, priceWithTax: real)

  /** The row's own non-zero rate, else the looked-up rate from the listing's
      currency to the user's. */
  function ExchangeRate(l: Listed, rate: (string, string) -> real): (r: real)
    ensures l.terms.exchangeRate.Some? && l.terms.exchangeRate.value != 0.0 ==> r == l.terms.exchangeRate.value
    ensures l.terms.exchangeRate.None? || l.terms.exchangeRate.value == 0.0 ==>
      r == rate(l.listingCurrencyCode, l.userCurrencyCode)
  {
    OptOr(l.terms.exchangeRate, 0.0, rate(l.listingCurrencyCode, l.userCurrencyCode))
  }

  /** US sales tax counts exactly for a US vendor selling to a US user in
      dollars: then it is the row's own sales tax, otherwise 0. */
  function SalesTax(l: Listed): (r: real)
    ensures r != 0.0 ==> l.vendorCountryId == 2 && l.userCountryId == 2 && l.listingCurrencyCode == "USD"
    ensures r != 0.0 ==> l.terms.salesTax == Some(r)
    ensures l.vendorCountryId == 2 && l.userCountryId == 2 && l.listingCurrencyCode == "USD" && l.terms.salesTax.Some? ==>
      r == l.terms.salesTax.value
    ensures l.terms.salesTax.None? ==> r == 0.0
  {
    if l.vendorCountryId == 2 && l.userCountryId == 2 && l.listingCurrencyCode == "USD"
    then OptOr(l.terms.salesTax, 0.0, 0.0)
    else 0.0
  }

  /** The discounts of a row as a list; an absent list is empty. */
  function DiscountList(l: Listed): seq<Discount> {
    if l.terms.discounts.Some? then l.terms.discounts.value else []
  }

  /** The price with tax of src/calculateCosts.ts:224-226: the discounted
      price plus delivery per listing, raised by the tax percentage and the
      sales-tax percentage, plus the base tax, converted at `exchangeRate`. */
  function PriceWithTax(discountedPrice: real, deliveryPerListing: real, taxPercent: real,
                        salesTax: real, baseTax: real, exchangeRate: real): real
  {
    ((discountedPrice + deliveryPerListing) * (1.0 + taxPercent / 100.0) * (1.0 + salesTax / 100.0)
      + baseTax) * exchangeRate
  }

  /** `calculateListingCost`: exchange rate, discounted price, and the price
      with delivery per listing, tax, sales tax and optional base tax,
      converted to the user's currency. */
  function ListingCost(l: Listed, rate: (string, string) -> real, includeBaseTax: bool): (r: ListingPrice)
    ensures Truthy(l.terms.exchangeRate, 0.0) ==> r.exchangeRate == l.terms.exchangeRate.value
    ensures !Truthy(l.terms.exchangeRate, 0.0) ==>
      r.exchangeRate == rate(l.listingCurrencyCode, l.userCurrencyCode)
    ensures r.discountedPrice == Mul(l.price, Factor(DiscountList(l)))
    ensures r.priceWithTax == PriceWithTax(
      Mul(l.price, Factor(DiscountList(l))),
      OptOr(l.terms.deliveryPerListing, 0.0, 0.0),
      OptOr(l.terms.taxPercent, 0.0, 0.0),
      SalesTax(l),
      if includeBaseTax then OptOr(l.terms.baseTax, 0.0, 0.0) else 0.0,
      ExchangeRate(l, rate))
  {
    var exchangeRate := ExchangeRate(l, rate);
    var discountedPrice := DiscountedPrice(l.price, l.terms.discounts);
    var priceWithTax := PriceWithTax(
      discountedPrice,
      OptOr(l.terms.deliveryPerListing, 0.0, 0.0),
      OptOr(l.terms.taxPercent, 0.0, 0.0),
      SalesTax(l),
      if includeBaseTax then OptOr(l.terms.baseTax, 0.0, 0.0) else 0.0,
      exchangeRate);
    ListingPrice(exchangeRate, discountedPrice, priceWithTax)
  }

  /** Price 10 with 20% tax and rate 1 costs 12. */
  lemma PriceWithTaxExample(l: Listed, rate: (string, string) -> real)
    requires l.price == 10.0 && l.terms.taxPercent == Some(20.0) && l.terms.exchangeRate == Some(1.0)
    requires l.terms.discounts == None && l.terms.deliveryPerListing == None
    requires SalesTax(l) == 0.0
    ensures ListingCost(l, rate, false).priceWithTax == 12.0
  {
  }

  /** The rate lookup the engine is given maps a currency to itself at 1. */
  ghost predicate IdentityOnSameCurrency(rate: (string, string) -> real) {
    forall c :: rate(c, c) == 1.0
  }

  /** Without a supplied rate, a listing priced in the user's currency is not converted. */
  lemma SameCurrencyNotConverted(l: Listed, rate: (string, string) -> real, includeBaseTax: bool)
    requires IdentityOnSameCurrency(rate)
    requires !Truthy(l.terms.exchangeRate, 0.0) && l.listingCurrencyCode == l.userCurrencyCode
    ensures ListingCost(l, rate, includeBaseTax).exchangeRate == 1.0
  {
  }

  /** Outside a US-to-US dollar sale the row's sales tax has no effect. */
  lemma SalesTaxOnlyUsDomestic(l: Listed, rate: (string, string) -> real, includeBaseTax: bool, salesTax: Option<real>)
    requires !(l.vendorCountryId == 2 && l.userCountryId == 2 && l.listingCurrencyCode == "USD")
    ensures ListingCost(l.(terms := l.terms.(salesTax := salesTax)), rate, includeBaseTax)
      == ListingCost(l, rate, includeBaseTax)
  {
  }

  /** Base tax is added before conversion: it adds itself times the rate. */
  lemma BaseTaxConverted(d: real, delivery: real, tax: real, salesTax: real, baseTax: real, exchangeRate: real)
    ensures PriceWithTax(d, delivery, tax, salesTax, baseTax, exchangeRate)
      == PriceWithTax(d, delivery, tax, salesTax, 0.0, exchangeRate) + Mul(baseTax, exchangeRate)
  {
    var taxed := (d + delivery) * (1.0 + tax / 100.0) * (1.0 + salesTax / 100.0);
    assert (taxed + baseTax) * exchangeRate == taxed * exchangeRate + baseTax * exchangeRate;
    assert (taxed + 0.0) * exchangeRate == taxed * exchangeRate;
  }

  /** Opting into base tax adds the base tax, converted at the same rate. */
  lemma BaseTaxAddedBeforeConversion(l: Listed, rate: (string, string) -> real)
    ensures ListingCost(l, rate, true).priceWithTax
      == ListingCost(l, rate, false).priceWithTax + Mul(OptOr(l.terms.baseTax, 0.0, 0.0), ExchangeRate(l, rate))
  {
    BaseTaxConverted(Mul(l.price, Factor(DiscountList(l))), OptOr(l.terms.deliveryPerListing, 0.0, 0.0),
      OptOr(l.terms.taxPercent, 0.0, 0.0), SalesTax(l), OptOr(l.terms.baseTax, 0.0, 0.0), ExchangeRate(l, rate));
  }

  /** Non-negative inputs, with tax and sales-tax percentages above -100,
      give a non-negative price with tax. */
  lemma PriceWithTaxNonNegative(d: real, delivery: real, tax: real, salesTax: real, baseTax: real, exchangeRate: real)
    requires d >= 0.0 && delivery >= 0.0 && tax >= -100.0 && salesTax >= -100.0
    requires baseTax >= 0.0 && exchangeRate >= 0.0
    ensures PriceWithTax(d, delivery, tax, salesTax, baseTax, exchangeRate) >= 0.0
  {
    var a, t, s := d + delivery, 1.0 + tax / 100.0, 1.0 + salesTax / 100.0;
    assert a >= 0.0 && t >= 0.0 && s >= 0.0;
    MulNonNegative(a, t);
    MulNonNegative(a * t, s);
    MulNonNegative(a * t * s + baseTax, exchangeRate);
  }

  /** Reordering the discounts of a row does not change any of its prices. */
  lemma ListingCostIgnoresDiscountOrder(l: Listed, rate: (string, string) -> real, includeBaseTax: bool, ds: seq<Discount>)
    requires l.terms.discounts.Some? && multiset(ds) == multiset(l.terms.discounts.value)
    ensures ListingCost(l.(terms := l.terms.(discounts := Some(ds))), rate, includeBaseTax)
      == ListingCost(l, rate, includeBaseTax)
  {
    FactorIsOrderFree(ds, l.terms.discounts.value);
  }

  /** The cost of a month of listings: `calculateCostPerMonth`. */
  datatype MonthlyCost = MonthlyCost(listing: ListingPrice, costPerMonth: real)

  /** The monthly cost: the price with tax, from the discounted price, the
      delivery per listing and the taxes but without base tax, converted to
      the user's currency, times the listings bought per month. */
  function CostPerMonth(l: Listed, listingsPerMonth: real, rate: (string, string) -> real): (r: MonthlyCost)
    ensures r.listing == ListingCost(l, rate, false)
    ensures r.costPerMonth == Mul(
      PriceWithTax(
        Mul(l.price, Factor(DiscountList(l))),
        OptOr(l.terms.deliveryPerListing, 0.0, 0.0),
        OptOr(l.terms.taxPercent, 0.0, 0.0),
        SalesTax(l),
        0.0,
        ExchangeRate(l, rate)),
      listingsPerMonth)
  {
    var listing := ListingCost(l, rate, false);
    MonthlyCost(listing, Mul(listing.priceWithTax, listingsPerMonth))
  }

  /** Reordering a row's discounts does not change its monthly cost. */
  lemma CostIgnoresDiscountOrder(l: Listed, listingsPerMonth: real, rate: (string, string) -> real, ds: seq<Discount>)
    requires l.terms.discounts.Some? && multiset(ds) == multiset(l.terms.discounts.value)
    ensures CostPerMonth(l.(terms := l.terms.(discounts := Some(ds))), listingsPerMonth, rate).costPerMonth
      == CostPerMonth(l, listingsPerMonth, rate).costPerMonth
  {
    FactorIsOrderFree(ds, l.terms.discounts.value);
  }

  /** Buying no listings costs nothing. */
  lemma NoListingsNoCost(l: Listed, rate: (string, string) -> real)
    ensures CostPerMonth(l, 0.0, rate).costPerMonth == 0.0
  {
  }

  /** A non-negative price with savings between 0 and 100 percent,
      non-negative delivery, taxes above -100 percent, a non-negative rate
      and non-negative listings give a non-negative monthly cost. */
  lemma CostNonNegative(l: Listed, listingsPerMonth: real, rate: (string, string) -> real)
    requires l.price >= 0.0 && SavingsInRange(DiscountList(l))
    requires OptOr(l.terms.deliveryPerListing, 0.0, 0.0) >= 0.0
    requires OptOr(l.terms.taxPercent, 0.0, 0.0) >= -100.0 && SalesTax(l) >= -100.0
    requires ExchangeRate(l, rate) >= 0.0 && listingsPerMonth >= 0.0
    ensures CostPerMonth(l, listingsPerMonth, rate).costPerMonth >= 0.0
  {
    var f := Factor(DiscountList(l));
    FactorInUnitRange(DiscountList(l));
    MulNonNegative(l.price, f);
    var p := PriceWithTax(Mul(l.price, f), OptOr(l.terms.deliveryPerListing, 0.0, 0.0),
      OptOr(l.terms.taxPercent, 0.0, 0.0), SalesTax(l), 0.0, ExchangeRate(l, rate));
    PriceWithTaxNonNegative(Mul(l.price, f), OptOr(l.terms.deliveryPerListing, 0.0, 0.0),
      OptOr(l.terms.taxPercent, 0.0, 0.0), SalesTax(l), 0.0, ExchangeRate(l, rate));
    MulNonNegative(p, listingsPerMonth);
  }

  /** The mean number of days in a month. */
  const AvgDaysPerMonth: real := 365.24 / 12.0

  /** `calculateRepurchase`: days between two purchases of the listing. */
  function Repurchase(listingsPerMonth: real): (r: real)
    requires listingsPerMonth != 0.0
    ensures Mul(r, listingsPerMonth) == AvgDaysPerMonth
  {
    AvgDaysPerMonth / listingsPerMonth
  }

  /** One listing a month is bought again about every 30.4367 days. */
  lemma RepurchaseOneListing()
    ensures 30.4366 < Repurchase(1.0) < 30.4367
  {
  }

  /** Buying twice as many listings halves the repurchase interval. */
  lemma RepurchaseHalves(listingsPerMonth: real)
    requires listingsPerMonth != 0.0
    ensures Repurchase(2.0 * listingsPerMonth) * 2.0 == Repurchase(listingsPerMonth)
  {
  }
}
