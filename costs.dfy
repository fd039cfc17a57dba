/**
 * One row's derived fields (`calculateCostAndRepurchase`,
 * src/calculateCosts.ts:108-139): consumption, listing price, monthly cost,
 * per-order fees and repurchase interval, with the cost fields blanked on
 * rows that do not display the bundle's cost.
 */
module Costs {
  import opened Wrappers
  import opened Rows
  import opened Pricing
  import opened Fees
  import opened Reals

  /** The ten fields the engine adds to every row; `None` is `undefined`. */
  datatype Derived = Derived(
    productsPerMonth: Option<real>,
    listingsPerMonth: Option<real>,
    repurchase: Option<real>,
    costPerMonth: Option<real>,
    maxListingsPerOrder: Option<int>,
    ordersPerMonth: Option<real>,
    feesPerMonth: Option<real>,
    exchangeRate: Option<real>,
    priceWithTax: Option<real>,
    discountedPrice: Option<real>)

  /** The derived fields of a row that could not be priced. */
  const Blank: Derived := Derived(None, None, None, None, None, None, None, None, None, None)

  /** `dosing.listingsPerMonth || productsPerMonth`: the row's own listings
      per month when set and non-zero, otherwise its consumption. */
  function EffectiveListingsPerMonth(l: Listed): (r: real)
    requires l.amount != 0.0
    ensures Truthy(l.terms.listingsPerMonth, 0.0) ==> r == l.terms.listingsPerMonth.value && r != 0.0
    ensures !Truthy(l.terms.listingsPerMonth, 0.0) ==> r == ProductsPerMonth(l)
  {
    OptOr(l.terms.listingsPerMonth, 0.0, ProductsPerMonth(l))
  }

  /** The per-order fee input built from a priced row. */
  function FeeData(l: Listed, listing: ListingPrice, listingsPerMonth: real): OrderFeeData {
    OrderFeeData(listing.exchangeRate, l.terms.quantity, l.terms.nBundleProducts,
      l.terms.deliveryPrice, Some(l.basketLimit), listing.priceWithTax, l.terms.baseTax,
      listingsPerMonth)
  }

  /** The divisions a row's pricing performs are defined. */
  predicate Priceable(l: Listed, rate: (string, string) -> real, bundlePriorityProduct: bool) {
    && l.amount != 0.0
    && (l.basketLimit != 0.0 ==> ListingCost(l, rate, false).priceWithTax != 0.0)
    && (bundlePriorityProduct ==> EffectiveListingsPerMonth(l) != 0.0)
  }

  /** `calculateCostAndRepurchase`. Consumption and prices are always set;
      monthly cost, fees, listings per month and repurchase are set exactly
      when the row is its bundle's priority row. */
  function CostAndRepurchase(l: Listed, rate: (string, string) -> real, bundlePriorityProduct: bool): (r: Derived)
    requires Priceable(l, rate, bundlePriorityProduct)
    ensures r.productsPerMonth == Some(ProductsPerMonth(l))
    ensures r.costPerMonth.None? <==> !bundlePriorityProduct
    ensures r.feesPerMonth.None? <==> !bundlePriorityProduct
    ensures r.listingsPerMonth.None? <==> !bundlePriorityProduct
    ensures r.repurchase.None? <==> !bundlePriorityProduct
    ensures r.exchangeRate == Some(ExchangeRate(l, rate))
    ensures r.discountedPrice.Some? && r.maxListingsPerOrder.Some? && r.ordersPerMonth.Some?
    ensures r.priceWithTax == Some(ListingCost(l, rate, false).priceWithTax)
    ensures r.maxListingsPerOrder.value != 0
    ensures r.discountedPrice == Some(ListingCost(l, rate, false).discountedPrice)
    ensures r.maxListingsPerOrder
      == Some(MaxListingsPerOrder(Some(l.basketLimit), ListingCost(l, rate, false).priceWithTax))
    ensures Mul(r.ordersPerMonth.value, r.maxListingsPerOrder.value as real) == EffectiveListingsPerMonth(l)
    ensures bundlePriorityProduct ==>
      && r.listingsPerMonth == Some(EffectiveListingsPerMonth(l))
      && r.costPerMonth == Some(CostPerMonth(l, EffectiveListingsPerMonth(l), rate).costPerMonth)
      && r.feesPerMonth == Some(PerOrderFee(FeeData(l, ListingCost(l, rate, false), EffectiveListingsPerMonth(l))).feesPerMonth)
      && r.repurchase == Some(Repurchase(EffectiveListingsPerMonth(l)))
      && Mul(r.repurchase.value, EffectiveListingsPerMonth(l)) == AvgDaysPerMonth
  {
    var productsPerMonth := ProductsPerMonth(l);
    var listingsPerMonth := EffectiveListingsPerMonth(l);
    var monthly := CostPerMonth(l, listingsPerMonth, rate);
    var fees := PerOrderFee(FeeData(l, monthly.listing, listingsPerMonth));
    Derived(
      Some(productsPerMonth),
      if bundlePriorityProduct then Some(listingsPerMonth) else None,
      if bundlePriorityProduct then Some(Repurchase(listingsPerMonth)) else None,
      if bundlePriorityProduct then Some(monthly.costPerMonth) else None,
      Some(fees.maxListingsPerOrder),
      Some(fees.ordersPerMonth),
      if bundlePriorityProduct then Some(fees.feesPerMonth) else None,
      Some(monthly.listing.exchangeRate),
      Some(monthly.listing.priceWithTax),
      Some(monthly.listing.discountedPrice))
  }

  /** A row without its own listings per month buys what it consumes. */
  lemma ListingsFallBackToConsumption(l: Listed, rate: (string, string) -> real)
    requires !Truthy(l.terms.listingsPerMonth, 0.0)
    requires Priceable(l, rate, true)
    ensures CostAndRepurchase(l, rate, true).listingsPerMonth == Some(ProductsPerMonth(l))
  {
  }

  /** Hiding a row's cost changes nothing but the four cost fields. */
  lemma HidingKeepsPrices(l: Listed, rate: (string, string) -> real)
    requires Priceable(l, rate, true)
    ensures CostAndRepurchase(l, rate, false)
      == CostAndRepurchase(l, rate, true).(costPerMonth := None, feesPerMonth := None,
           listingsPerMonth := None, repurchase := None)
  {
  }
}
