/**
 * The batch entry point `calculateCostsAndRepurchases`
 * (src/calculateCosts.ts:9-65): every input row is validated, its bundle
 * rows are gathered, its listings per month are driven by the bundle row
 * with the smallest quantity, and its cost fields are shown or blanked by
 * the bundle's priority flag.
 *
 * The rate lookup and the order of the priorities after the source's
 * default `.sort()` are parameters: `rate` maps a listing currency and a
 * user currency to a rate, and `firstAfterSort` gives the first element of
 * the sorted priority list.
 */
module Bundles {
  import opened Wrappers
  import opened Rows
  import opened Pricing
  import opened Costs

  /** An output row: the input row with the derived fields added. */
  datatype Costed = Costed(dosing: Dosing, derived: Derived)

  /** The rows that pass validation, in input order (src/calculateCosts.ts:14-22). */
  function ValidRows(ds: seq<Dosing>): (r: seq<Listed>)
    ensures |r| <= |ds|
    ensures forall l :: l in r ==> Unlisted(l) in ds && GetDosingWithListing(Unlisted(l)) == Some(l)
  {
    if ds == [] then []
    else
      match GetDosingWithListing(ds[0])
      case None => ValidRows(ds[1..])
      case Some(l) => [l] + ValidRows(ds[1..])
  }

  /** Every row that passes validation is among the valid rows. */
  lemma {:induction false} ValidRowsComplete(ds: seq<Dosing>, i: nat)
    requires i < |ds| && GetDosingWithListing(ds[i]).Some?
    ensures GetDosingWithListing(ds[i]).value in ValidRows(ds)
  {
    if i > 0 {
      ValidRowsComplete(ds[1..], i - 1);
    }
  }

  /** The attributes of the valid rows carrying bundle id `b`
      (src/calculateCosts.ts:46-48). */
  function BundleFilter(ls: seq<Listed>, b: int): (r: seq<Terms>)
    ensures forall t :: t in r ==> t.bundleId == Some(b)
    ensures forall l :: l in ls && l.terms.bundleId == Some(b) ==> l.terms in r
    ensures forall t :: t in r ==> exists l :: l in ls && l.terms == t
  {
    if ls == [] then []
    else if ls[0].terms.bundleId == Some(b) then [ls[0].terms] + BundleFilter(ls[1..], b)
    else BundleFilter(ls[1..], b)
  }

  /** The rows that share row `i`'s bundle, or row `i` alone when it has no
      bundle (src/calculateCosts.ts:46-51). */
  function BundleRows(ds: seq<Dosing>, i: nat): (r: seq<Terms>)
    requires i < |ds| && GetDosingWithListing(ds[i]).Some?
    ensures ds[i].terms in r
  {
    var l := GetDosingWithListing(ds[i]).value;
    if Truthy(l.terms.bundleId, 0) then
      ValidRowsComplete(ds, i);
      BundleFilter(ValidRows(ds), l.terms.bundleId.value)
    else
      [ds[i].terms]
  }

  /** `r.quantity || 1` */
  function Divisor(t: Terms): real {
    OptOr(t.quantity, 0.0, 1.0)
  }

  /** `Math.max(...rows.map(r => productsPerMonth / (r.quantity || 1)))` */
  function MaxListings(productsPerMonth: real, rows: seq<Terms>): (m: real)
    requires |rows| > 0
    ensures forall j :: 0 <= j < |rows| ==> productsPerMonth / Divisor(rows[j]) <= m
    ensures exists j :: 0 <= j < |rows| && m == productsPerMonth / Divisor(rows[j])
  {
    var here := productsPerMonth / Divisor(rows[0]);
    if |rows| == 1 then here
    else
      var rest := MaxListings(productsPerMonth, rows[1..]);
      if here >= rest then here else rest
  }

  /** The smallest `quantity || 1` among the rows. */
  function MinDivisor(rows: seq<Terms>): (m: real)
    requires |rows| > 0
    ensures forall j :: 0 <= j < |rows| ==> m <= Divisor(rows[j])
    ensures exists j :: 0 <= j < |rows| && m == Divisor(rows[j])
  {
    if |rows| == 1 then Divisor(rows[0])
    else
      var rest := MinDivisor(rows[1..]);
      if Divisor(rows[0]) <= rest then Divisor(rows[0]) else rest
  }

  lemma DivAntitone(p: real, a: real, b: real)
    requires p >= 0.0 && 0.0 < a <= b
    ensures p / b <= p / a
  {
    assert p / b * b == p;
    assert p / a * a == p;
    assert p / b * a <= p / b * b;
  }

  /** With non-negative consumption and positive quantities, the bundle's
      listings per month are the consumption divided by the smallest quantity. */
  lemma {:induction false} MaxListingsIsSmallestQuantity(productsPerMonth: real, rows: seq<Terms>)
    requires |rows| > 0 && productsPerMonth >= 0.0
    requires forall j :: 0 <= j < |rows| ==> Divisor(rows[j]) > 0.0
    ensures MaxListings(productsPerMonth, rows) == productsPerMonth / MinDivisor(rows)
  {
    if |rows| > 1 {
      MaxListingsIsSmallestQuantity(productsPerMonth, rows[1..]);
      var a, m := Divisor(rows[0]), MinDivisor(rows[1..]);
      if a <= m {
        DivAntitone(productsPerMonth, a, m);
      } else {
        DivAntitone(productsPerMonth, m, a);
      }
    }
  }

  /** `rows.map(r => r.priority || 0)` */
  function Priorities(rows: seq<Terms>): (ps: seq<int>)
    ensures |ps| == |rows|
    ensures forall j :: 0 <= j < |rows| ==> ps[j] == if rows[j].priority.Some? then rows[j].priority.value else 0
  {
    seq(|rows|, j requires 0 <= j < |rows| => OptOr(rows[j].priority, 0, 0))
  }

  /** Whether `firstAfterSort` picks one of the priorities it is given. */
  ghost predicate PicksMember(firstAfterSort: seq<int> -> int) {
    forall ps :: |ps| > 0 ==> firstAfterSort(ps) in ps
  }

  /** The flag of src/calculateCosts.ts:52-53: some row of the bundle has a
      priority equal to the first sorted priority. It does not ask whether
      that row is the current one. */
  predicate HasPriorityRow(rows: seq<Terms>, firstAfterSort: seq<int> -> int): (b: bool)
    ensures b ==> |rows| > 0 && firstAfterSort(Priorities(rows)) in Priorities(rows)
  {
    exists j :: 0 <= j < |rows| && rows[j].priority == Some(firstAfterSort(Priorities(rows)))
  }

  /** When every row has a priority, the flag holds whatever the sort picks. */
  lemma PrioritisedRowsFlagged(rows: seq<Terms>, firstAfterSort: seq<int> -> int)
    requires PicksMember(firstAfterSort) && |rows| > 0
    requires forall j :: 0 <= j < |rows| ==> rows[j].priority.Some?
    ensures HasPriorityRow(rows, firstAfterSort)
  {
    var ps := Priorities(rows);
    var h := firstAfterSort(ps);
    assert h in ps;
    var j :| 0 <= j < |ps| && ps[j] == h;
    assert rows[j].priority == Some(h);
  }

  /** A lone row without a priority maps to 0 and finds no row with priority 0. */
  lemma UnprioritisedLoneRowNotFlagged(t: Terms, firstAfterSort: seq<int> -> int)
    requires PicksMember(firstAfterSort) && t.priority.None?
    ensures !HasPriorityRow([t], firstAfterSort)
  {
    assert Priorities([t]) == [0];
    assert firstAfterSort([0]) in [0];
  }

  /** The largest quotient is at least the quotient of any one row. */
  lemma MaxListingsCoversRow(productsPerMonth: real, rows: seq<Terms>, t: Terms)
    requires t in rows
    ensures MaxListings(productsPerMonth, rows) >= productsPerMonth / Divisor(t)
  {
    var j :| 0 <= j < |rows| && rows[j] == t;
  }

  /** The listings per month of row `i` (src/calculateCosts.ts:56): never
      less than its own consumption over its own quantity, and equal to its
      consumption over the quantity of some row of its bundle. */
  function BundleListingsPerMonth(ds: seq<Dosing>, i: nat): (r: real)
    requires i < |ds| && GetDosingWithListing(ds[i]).Some?
    ensures r >= ProductsPerMonth(GetDosingWithListing(ds[i]).value) / Divisor(ds[i].terms)
    ensures exists t :: t in BundleRows(ds, i) && r == ProductsPerMonth(GetDosingWithListing(ds[i]).value) / Divisor(t)
  {
    var p := ProductsPerMonth(GetDosingWithListing(ds[i]).value);
    MaxListingsCoversRow(p, BundleRows(ds, i), ds[i].terms);
    MaxListings(p, BundleRows(ds, i))
  }

  /** `bundlePriorityProduct` of row `i`: when it holds, some row of the
      bundle has a priority and the picked priority is one of the bundle's. */
  predicate BundleFlag(ds: seq<Dosing>, i: nat, firstAfterSort: seq<int> -> int): (b: bool)
    requires i < |ds| && GetDosingWithListing(ds[i]).Some?
    ensures b ==> exists t :: t in BundleRows(ds, i) && t.priority.Some?
    ensures b ==> firstAfterSort(Priorities(BundleRows(ds, i))) in Priorities(BundleRows(ds, i))
  {
    HasPriorityRow(BundleRows(ds, i), firstAfterSort)
  }

  /** The divisions of the batch are defined: every valid row consumes
      something and has a non-zero price with tax. */
  predicate RowPriceable(d: Dosing, rate: (string, string) -> real) {
    match GetDosingWithListing(d)
    case None => true
    case Some(l) => ProductsPerMonth(l) != 0.0 && ListingCost(l, rate, false).priceWithTax != 0.0
  }

  /** The validated row with the bundle's listings per month set on it. */
  function WithListings(l: Listed, listingsPerMonth: real): Listed {
    l.(terms := l.terms.(listingsPerMonth := Some(listingsPerMonth)))
  }

  lemma QuotientNonZero(p: real, q: real)
    requires p != 0.0 && q != 0.0
    ensures p / q != 0.0
  {
    assert p / q * q == p;
  }

  /** Non-zero consumption gives non-zero listings per month. */
  lemma MaxListingsNonZero(productsPerMonth: real, rows: seq<Terms>)
    requires |rows| > 0 && productsPerMonth != 0.0
    ensures MaxListings(productsPerMonth, rows) != 0.0
  {
    var j :| 0 <= j < |rows| && MaxListings(productsPerMonth, rows) == productsPerMonth / Divisor(rows[j]);
    QuotientNonZero(productsPerMonth, Divisor(rows[j]));
  }

  /** Setting listings per month on a row changes neither its consumption nor its prices. */
  lemma ListingsNotPriced(l: Listed, listingsPerMonth: real, rate: (string, string) -> real)
    requires l.amount != 0.0
    ensures ProductsPerMonth(WithListings(l, listingsPerMonth)) == ProductsPerMonth(l)
    ensures ListingCost(WithListings(l, listingsPerMonth), rate, false) == ListingCost(l, rate, false)
  {
    var l' := WithListings(l, listingsPerMonth);
    assert l'.terms.exchangeRate == l.terms.exchangeRate && l'.terms.discounts == l.terms.discounts;
    assert ExchangeRate(l', rate) == ExchangeRate(l, rate);
    assert SalesTax(l') == SalesTax(l);
    assert DiscountList(l') == DiscountList(l);
  }

  /** The output for row `i`. */
  function CostRow(ds: seq<Dosing>, i: nat, rate: (string, string) -> real, firstAfterSort: seq<int> -> int): (r: Costed)
    requires i < |ds| && RowPriceable(ds[i], rate)
    ensures r.dosing == ds[i]
    ensures r.derived == Blank <==> GetDosingWithListing(ds[i]).None?
    ensures GetDosingWithListing(ds[i]).Some? ==>
      r.derived.productsPerMonth == Some(ProductsPerMonth(GetDosingWithListing(ds[i]).value))
    ensures GetDosingWithListing(ds[i]).Some? ==>
      var l := GetDosingWithListing(ds[i]).value;
      var lpm := BundleListingsPerMonth(ds, i);
      && lpm != 0.0
      && r.derived == CostAndRepurchase(WithListings(l, lpm), rate, BundleFlag(ds, i, firstAfterSort))
  {
    match GetDosingWithListing(ds[i])
    case None => Costed(ds[i], Blank)
    case Some(l) =>
      var lpm := BundleListingsPerMonth(ds, i);
      var l' := WithListings(l, lpm);
      MaxListingsNonZero(ProductsPerMonth(l), BundleRows(ds, i));
      ListingsNotPriced(l, lpm, rate);
      assert ProductsPerMonth(l') == ProductsPerMonth(l);
      Costed(ds[i], CostAndRepurchase(l', rate, BundleFlag(ds, i, firstAfterSort)))
  }

  /** `calculateCostsAndRepurchases`: one output per input row, in order;
      rows that fail validation get every derived field undefined, the
      others always get their consumption. */
  function CostsAndRepurchases(ds: seq<Dosing>, rate: (string, string) -> real, firstAfterSort: seq<int> -> int): (r: seq<Costed>)
    requires forall i :: 0 <= i < |ds| ==> RowPriceable(ds[i], rate)
    ensures |r| == |ds|
    ensures forall i :: 0 <= i < |ds| ==> r[i].dosing == ds[i]
    ensures forall i :: 0 <= i < |ds| ==> (r[i].derived == Blank <==> GetDosingWithListing(ds[i]).None?)
    ensures forall i :: 0 <= i < |ds| && GetDosingWithListing(ds[i]).Some? ==>
      r[i].derived.productsPerMonth == Some(ProductsPerMonth(GetDosingWithListing(ds[i]).value))
  {
    seq(|ds|, i requires 0 <= i < |ds| => CostRow(ds, i, rate, firstAfterSort))
  }

  /** A valid row shows its monthly cost, fees, listings per month and
      repurchase interval exactly when its bundle flag holds; when shown, the
      listings per month are the bundle's and the repurchase interval is
      computed from them. */
  lemma ShownExactlyWhenFlagged(ds: seq<Dosing>, rate: (string, string) -> real, firstAfterSort: seq<int> -> int, i: nat)
    requires forall k :: 0 <= k < |ds| ==> RowPriceable(ds[k], rate)
    requires i < |ds| && GetDosingWithListing(ds[i]).Some?
    ensures var r := CostsAndRepurchases(ds, rate, firstAfterSort)[i].derived;
      && (r.costPerMonth.Some? <==> BundleFlag(ds, i, firstAfterSort))
      && (r.feesPerMonth.Some? <==> BundleFlag(ds, i, firstAfterSort))
      && (r.listingsPerMonth.Some? <==> BundleFlag(ds, i, firstAfterSort))
      && (r.repurchase.Some? <==> BundleFlag(ds, i, firstAfterSort))
    ensures var r := CostsAndRepurchases(ds, rate, firstAfterSort)[i].derived;
      BundleFlag(ds, i, firstAfterSort) ==>
        && r.listingsPerMonth == Some(BundleListingsPerMonth(ds, i))
        && r.repurchase == Some(Repurchase(BundleListingsPerMonth(ds, i)))
  {
    var l := GetDosingWithListing(ds[i]).value;
    var lpm := BundleListingsPerMonth(ds, i);
    var flag := BundleFlag(ds, i, firstAfterSort);
    var c := CostRow(ds, i, rate, firstAfterSort);
    assert CostsAndRepurchases(ds, rate, firstAfterSort)[i] == c;
    assert lpm != 0.0 && c.derived == CostAndRepurchase(WithListings(l, lpm), rate, flag);
    EffectiveListingsAreSet(l, lpm);
  }

  lemma EffectiveListingsAreSet(l: Listed, listingsPerMonth: real)
    requires l.amount != 0.0 && listingsPerMonth != 0.0
    ensures EffectiveListingsPerMonth(WithListings(l, listingsPerMonth)) == listingsPerMonth
  {
  }

  /** A row without a bundle buys its consumption over its own quantity. */
  lemma LoneRowListings(ds: seq<Dosing>, i: nat)
    requires i < |ds| && GetDosingWithListing(ds[i]).Some?
    requires !Truthy(ds[i].terms.bundleId, 0)
    ensures BundleListingsPerMonth(ds, i)
      == ProductsPerMonth(GetDosingWithListing(ds[i]).value) / Divisor(ds[i].terms)
  {
  }

  /** With non-negative consumption and positive quantities, a row buys its
      own consumption divided by the smallest quantity in its bundle. */
  lemma ListingsUseSmallestQuantity(ds: seq<Dosing>, i: nat)
    requires i < |ds| && GetDosingWithListing(ds[i]).Some?
    requires ProductsPerMonth(GetDosingWithListing(ds[i]).value) >= 0.0
    requires forall t :: t in BundleRows(ds, i) ==> Divisor(t) > 0.0
    ensures BundleListingsPerMonth(ds, i)
      == ProductsPerMonth(GetDosingWithListing(ds[i]).value) / MinDivisor(BundleRows(ds, i))
  {
    MaxListingsIsSmallestQuantity(ProductsPerMonth(GetDosingWithListing(ds[i]).value), BundleRows(ds, i));
  }

  /** Two valid rows with the same non-zero bundle id see the same bundle
      rows; each still divides its own consumption, so their listings per
      month differ when their consumptions do. */
  lemma SiblingsShareBundleRows(ds: seq<Dosing>, i: nat, j: nat)
    requires i < |ds| && GetDosingWithListing(ds[i]).Some?
    requires j < |ds| && GetDosingWithListing(ds[j]).Some?
    requires Truthy(ds[i].terms.bundleId, 0) && ds[j].terms.bundleId == ds[i].terms.bundleId
    ensures BundleRows(ds, i) == BundleRows(ds, j)
  {
  }

  /** Every bundle row is the attribute set of some input row. */
  lemma BundleRowsFromInput(ds: seq<Dosing>, i: nat, t: Terms)
    requires i < |ds| && GetDosingWithListing(ds[i]).Some?
    requires t in BundleRows(ds, i)
    ensures exists k :: 0 <= k < |ds| && ds[k].terms == t
  {
    if Truthy(ds[i].terms.bundleId, 0) {
      var l :| l in ValidRows(ds) && l.terms == t;
      var k :| 0 <= k < |ds| && ds[k] == Unlisted(l);
    } else {
      assert t == ds[i].terms;
    }
  }

  /** When every input row has a priority, every valid row shows its cost:
      the flag tests that some row of the bundle has the picked priority,
      which then always holds, not that the current row is that row. */
  lemma AllPrioritisedRowsShown(ds: seq<Dosing>, rate: (string, string) -> real, firstAfterSort: seq<int> -> int, i: nat)
    requires forall k :: 0 <= k < |ds| ==> RowPriceable(ds[k], rate)
    requires PicksMember(firstAfterSort)
    requires forall k :: 0 <= k < |ds| ==> ds[k].terms.priority.Some?
    requires i < |ds| && GetDosingWithListing(ds[i]).Some?
    ensures CostsAndRepurchases(ds, rate, firstAfterSort)[i].derived.costPerMonth.Some?
  {
    var rows := BundleRows(ds, i);
    forall j | 0 <= j < |rows| ensures rows[j].priority.Some? {
      BundleRowsFromInput(ds, i, rows[j]);
    }
    PrioritisedRowsFlagged(rows, firstAfterSort);
    ShownExactlyWhenFlagged(ds, rate, firstAfterSort, i);
  }

  /** A valid row with neither a bundle nor a priority never shows its cost. */
  lemma UnprioritisedLoneRowHidden(ds: seq<Dosing>, rate: (string, string) -> real, firstAfterSort: seq<int> -> int, i: nat)
    requires forall k :: 0 <= k < |ds| ==> RowPriceable(ds[k], rate)
    requires PicksMember(firstAfterSort)
    requires i < |ds| && GetDosingWithListing(ds[i]).Some?
    requires !Truthy(ds[i].terms.bundleId, 0) && ds[i].terms.priority.None?
    ensures CostsAndRepurchases(ds, rate, firstAfterSort)[i].derived.costPerMonth.None?
  {
    UnprioritisedLoneRowNotFlagged(ds[i].terms, firstAfterSort);
    assert BundleRows(ds, i) == [ds[i].terms];
    ShownExactlyWhenFlagged(ds, rate, firstAfterSort, i);
  }
}
