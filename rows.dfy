/**
 * Protocol rows as the cost engine receives them, and the validation step
 * that decides whether a row carries enough fields to be priced
 * (`getDosingWithListing` in src/calculateCosts.ts).
 *
 * Fields are assumed to arrive already typed: the `Number(...)` and
 * `String(...)` coercions of the source are the identity here.
 */
module Rows {
  import opened Wrappers

  /** One discount of a listing; only `applied` discounts change the price. */
  datatype Discount = Discount(applied: bool, savingPercent: real)

  /** The optional attributes of a row, which validation never demands. */
  datatype Terms = Terms(
    bundleId: Option<int>,
    priority: Option<int>,
    quantity: Option<real>,
    nBundleProducts: Option<real>,
    deliveryPrice: Option<real>,
    deliveryPerListing: Option<real>,
    baseTax: Option<real>,
    taxPercent: Option<real>,
    salesTax: Option<real>,
    exchangeRate: Option<real>,
    discounts: Option<seq<Discount>>,
    listingsPerMonth: Option<real>)

  /** A partial protocol row: dosing schedule plus candidate listing. */
  datatype Dosing = Dosing(
    listingId: Option<int>,
    productId: Option<int>,
    dose: Option<real>,
    doseUnitId: Option<int>,
    dosesPerDay: Option<real>,
    daysPerMonth: Option<real>,
    factor: Option<real>,
    amount: Option<real>,
    amountUnitId: Option<int>,
    price: Option<real>,
    basketLimit: Option<real>,
    userCurrencyCode: Option<string>,
    listingCurrencyCode: Option<string>,
    vendorCountryId: Option<int>,
    userCountryId: Option<int>,
    terms: Terms)

  /** A row that passed validation: every required field is present. */
  datatype Listed = Listed(
    listingId: int,
    productId: int,
    dose: real,
    doseUnitId: int,
    dosesPerDay: real,
    daysPerMonth: real,
    factor: real,
    amount: real,
    amountUnitId: int,
    price: real,
    basketLimit: real,
    userCurrencyCode: string,
    listingCurrencyCode: string,
    vendorCountryId: int,
    userCountryId: int,
    terms: Terms)

  /** JavaScript truthiness of an optional field whose falsy value is `falsy`
      (0 for numbers, "" for strings). */
  predicate Truthy<T(==)>(o: Option<T>, falsy: T) {
    o.Some? && o.value != falsy
  }

  /** `x || fallback` for a plain value. */
  function Or<T(==)>(x: T, falsy: T, fallback: T): T {
    if x != falsy then x else fallback
  }

  /** `x || fallback` for an optional field. */
  function OptOr<T(==)>(o: Option<T>, falsy: T, fallback: T): T {
    if Truthy(o, falsy) then o.value else fallback
  }

  /** The test of src/calculateCosts.ts:69-84. */
  predicate HasListing(d: Dosing) {
    && Truthy(d.listingId, 0)
    && Truthy(d.productId, 0)
    && d.dose.Some?
    && d.doseUnitId.Some?
    && d.dosesPerDay.Some?
    && d.daysPerMonth.Some?
    && Truthy(d.factor, 0.0)
    && Truthy(d.amount, 0.0)
    && Truthy(d.amountUnitId, 0)
    && d.price.Some?
    && Truthy(d.basketLimit, 0.0)
    && Truthy(d.userCurrencyCode, "")
    && Truthy(d.listingCurrencyCode, "")
    && Truthy(d.vendorCountryId, 0)
    && Truthy(d.userCountryId, 0)
  }

  /** The partial row a validated row came from. */
  function Unlisted(l: Listed): Dosing {
    Dosing(Some(l.listingId), Some(l.productId), Some(l.dose), Some(l.doseUnitId),
      Some(l.dosesPerDay), Some(l.daysPerMonth), Some(l.factor), Some(l.amount),
      Some(l.amountUnitId), Some(l.price), Some(l.basketLimit),
      Some(l.userCurrencyCode), Some(l.listingCurrencyCode),
      Some(l.vendorCountryId), Some(l.userCountryId), l.terms)
  }

  /** Validates a partial row. Absent or zero ids, factor, amount and basket
      limit, absent or empty currency codes, and absent dose fields or price
      reject the row; a zero dose or a zero price is accepted. */
  function GetDosingWithListing(d: Dosing): (r: Option<Listed>)
    ensures r.None? <==>
      || d.listingId in {None, Some(0)}
      || d.productId in {None, Some(0)}
      || d.dose == None
      || d.doseUnitId == None
      || d.dosesPerDay == None
      || d.daysPerMonth == None
      || d.factor in {None, Some(0.0)}
      || d.amount in {None, Some(0.0)}
      || d.amountUnitId in {None, Some(0)}
      || d.price == None
      || d.basketLimit in {None, Some(0.0)}
      || d.userCurrencyCode in {None, Some("")}
      || d.listingCurrencyCode in {None, Some("")}
      || d.vendorCountryId in {None, Some(0)}
      || d.userCountryId in {None, Some(0)}
    ensures r.Some? ==> Unlisted(r.value) == d
    ensures r.Some? ==> r.value.amount != 0.0 && r.value.factor != 0.0 && r.value.basketLimit != 0.0
  {
    if HasListing(d) then
      Some(Listed(d.listingId.value, d.productId.value, d.dose.value, d.doseUnitId.value,
        d.dosesPerDay.value, d.daysPerMonth.value, d.factor.value, d.amount.value,
        d.amountUnitId.value, d.price.value, d.basketLimit.value,
        d.userCurrencyCode.value, d.listingCurrencyCode.value,
        d.vendorCountryId.value, d.userCountryId.value, d.terms))
    else
      None
  }

  /** Validation gives back every fully populated row unchanged. */
  lemma ListedRoundTrip(l: Listed)
    requires l.listingId != 0 && l.productId != 0 && l.factor != 0.0 && l.amount != 0.0
    requires l.amountUnitId != 0 && l.basketLimit != 0.0
    requires l.userCurrencyCode != "" && l.listingCurrencyCode != ""
    requires l.vendorCountryId != 0 && l.userCountryId != 0
    ensures GetDosingWithListing(Unlisted(l)) == Some(l)
  {
  }

  /** A zero dose and a zero price pass validation: only their absence rejects. */
  lemma ZeroDoseAndPriceAccepted(l: Listed)
    requires l.listingId != 0 && l.productId != 0 && l.factor != 0.0 && l.amount != 0.0
    requires l.amountUnitId != 0 && l.basketLimit != 0.0
    requires l.userCurrencyCode != "" && l.listingCurrencyCode != ""
    requires l.vendorCountryId != 0 && l.userCountryId != 0
    ensures GetDosingWithListing(Unlisted(l.(dose := 0.0, price := 0.0))).Some?
    ensures GetDosingWithListing(Unlisted(l).(dose := None)).None?
    ensures GetDosingWithListing(Unlisted(l).(price := None)).None?
  {
  }
}
