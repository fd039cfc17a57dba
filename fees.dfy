/**
 * Per-order fees (src/calculateCosts.ts:238-263): how many listings fit in
 * one basket, how many orders a month that takes, and the delivery and base
 * tax those orders cost per month.
 */
module Fees {
  import opened Wrappers
  import opened Rows
  import opened Reals

  /** The fields `calculatePerOrderFeePerMonth` reads. */
  datatype OrderFeeData = OrderFeeData(
    exchangeRate: real,
    quantity: Option<real>,
    nBundleProducts: Option<real>,
    deliveryPrice: Option<real>,
    basketLimit: Option<real>,
    priceWithTax: real,
    baseTax: Option<real>,
    listingsPerMonth: real)

  /** The fields it adds. */
  datatype OrderFees = OrderFees(maxListingsPerOrder: int, ordersPerMonth: real, feesPerMonth: real)

  lemma FloorBounds(x: real)
    ensures x.Floor as real <= x < x.Floor as real + 1.0
  {
  }

  lemma ScaleBelow(n: real, q: real, p: real)
    requires p > 0.0 && n <= q / p
    ensures n * p <= q
  {
    assert n * p <= (q / p) * p;
  }

  lemma ScaleAbove(n: real, q: real, p: real)
    requires p > 0.0 && q / p < n
    ensures q < n * p
  {
    assert (q / p) * p < n * p;
  }

  /** What the floor of `b / p` says about how many listings of price `p`
      fit under the basket limit `b`. */
  lemma FloorFits(b: real, p: real)
    requires p != 0.0
    ensures 0.0 < p <= b ==> (b / p).Floor >= 1
    ensures 0.0 < p ==> (b / p).Floor as real * p <= b < ((b / p).Floor + 1) as real * p
    ensures 0.0 <= b < p ==> (b / p).Floor == 0
    ensures 0.0 < p && b < 0.0 ==> (b / p).Floor < 0
  {
    if p < 0.0 {
      return;
    }
    var q := b / p;
    FloorBounds(q);
    ScaleBelow(q.Floor as real, b, p);
    ScaleAbove(q.Floor as real + 1.0, b, p);
    assert q * p == b;
    if b >= p {
      assert q >= 1.0;
    }
    if 0.0 <= b < p {
      assert 0.0 <= q < 1.0;
    }
    if b < 0.0 {
      assert q < 0.0;
    }
  }

  /** The number of listings one order holds: as many whole listings as the
      basket limit pays for, and 1 when there is no limit or not even one fits. */
  function MaxListingsPerOrder(basketLimit: Option<real>, priceWithTax: real): (n: int)
    requires Truthy(basketLimit, 0.0) ==> priceWithTax != 0.0
    ensures n != 0
    ensures !Truthy(basketLimit, 0.0) ==> n == 1
    ensures Truthy(basketLimit, 0.0) && priceWithTax > 0.0 && !(0.0 <= basketLimit.value < priceWithTax) ==>
      n as real * priceWithTax <= basketLimit.value < (n + 1) as real * priceWithTax
    ensures Truthy(basketLimit, 0.0) && priceWithTax > 0.0 && 0.0 <= basketLimit.value < priceWithTax ==>
      n == 1
    ensures priceWithTax > 0.0 && (basketLimit.Some? ==> basketLimit.value >= 0.0) ==> n >= 1
  {
    if Truthy(basketLimit, 0.0) then
      FloorFits(basketLimit.value, priceWithTax);
      Or((basketLimit.value / priceWithTax).Floor, 0, 1)
    else
      1
  }

  /** `calculatePerOrderFeePerMonth`. */
  function PerOrderFee(data: OrderFeeData): (r: OrderFees)
    requires Truthy(data.basketLimit, 0.0) ==> data.priceWithTax != 0.0
    ensures r.maxListingsPerOrder == MaxListingsPerOrder(data.basketLimit, data.priceWithTax)
    ensures Mul(r.ordersPerMonth, r.maxListingsPerOrder as real) == data.listingsPerMonth
    ensures r.feesPerMonth * OptOr(data.nBundleProducts, 0.0, 1.0)
      == (OptOr(data.deliveryPrice, 0.0, 0.0) * data.exchangeRate + OptOr(data.baseTax, 0.0, 0.0))
         * r.ordersPerMonth * OptOr(data.quantity, 0.0, 1.0)
    ensures !Truthy(data.deliveryPrice, 0.0) && !Truthy(data.baseTax, 0.0) ==> r.feesPerMonth == 0.0
  {
    var maxListingsPerOrder := MaxListingsPerOrder(data.basketLimit, data.priceWithTax);
    var ordersPerMonth := data.listingsPerMonth / maxListingsPerOrder as real;
    var feesPerMonth :=
      (OptOr(data.deliveryPrice, 0.0, 0.0) * data.exchangeRate + OptOr(data.baseTax, 0.0, 0.0))
        * ordersPerMonth * OptOr(data.quantity, 0.0, 1.0)
        / OptOr(data.nBundleProducts, 0.0, 1.0);
    OrderFees(maxListingsPerOrder, ordersPerMonth, feesPerMonth)
  }

  /** Without a basket limit every listing is its own order. */
  lemma NoBasketLimitOneListingPerOrder(data: OrderFeeData)
    requires !Truthy(data.basketLimit, 0.0)
    ensures PerOrderFee(data).ordersPerMonth == data.listingsPerMonth
  {
  }

  /** A basket limit of 25 at a price of 10 fits 2 listings per order. */
  lemma BasketExample()
    ensures MaxListingsPerOrder(Some(25.0), 10.0) == 2
  {
  }
}
