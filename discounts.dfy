/**
 * Discounts on a listing price (src/calculateCosts.ts:218-220): the applied
 * discounts are folded over the price, left to right, each multiplying it by
 * `(100 - savingPercent) / 100`.
 */
module Discounts {
  import opened Wrappers
  import opened Rows
  import opened Folds
  import opened Reals

  /** `discounts.filter(d => d.applied)`: exactly the applied discounts, in order. */
  function Applied(ds: seq<Discount>): (r: seq<Discount>)
    ensures |r| <= |ds|
    ensures forall d :: d in r <==> d in ds && d.applied
    ensures forall d :: multiset(r)[d] == if d.applied then multiset(ds)[d] else 0
  {
    if ds == [] then []
    else
      assert ds == [ds[0]] + ds[1..];
      if ds[0].applied then [ds[0]] + Applied(ds[1..])
      else Applied(ds[1..])
  }

  /** The multiplier one discount applies to the running price. */
  function Multiplier(d: Discount): real {
    (100.0 - d.savingPercent) / 100.0
  }

  /** Reference definition: the product of the multipliers of a list of discounts. */
  function Product(ds: seq<Discount>): real {
    FoldMap(Mul, 1.0, Multiplier, ds)
  }

  lemma StepIsMultiplier(dp: real, d: Discount)
    ensures dp * (100.0 - d.savingPercent) / 100.0 == dp * Multiplier(d)
  {
  }

  lemma ScaleStep(dp: real, m: real, p: real, x: real, r: real, prod: real)
    requires x == dp * m && r == x * p && prod == m * p
    ensures r == dp * prod
  {
    assert r == (dp * m) * p;
  }

  /** `.reduce((dp, d) => dp * (100 - d.savingPercent) / 100, dp)`: folding
      the discounts left to right multiplies the start value by the product
      of their multipliers. */
  function Reduce(dp: real, ds: seq<Discount>): (r: real)
    ensures r == Mul(dp, Product(ds))
    decreases |ds|
  {
    if ds == [] then dp
    else
      var x := dp * (100.0 - ds[0].savingPercent) / 100.0;
      var r := Reduce(x, ds[1..]);
      StepIsMultiplier(dp, ds[0]);
      ScaleStep(dp, Multiplier(ds[0]), Product(ds[1..]), x, r, Product(ds));
      r
  }

  /** What one discount contributes to the price: its multiplier when applied. */
  function Weight(d: Discount): real {
    if d.applied then Multiplier(d) else 1.0
  }

  /** Reference definition: the product of the weights of all discounts,
      independent of any order of application. */
  function Factor(ds: seq<Discount>): real {
    FoldMap(Mul, 1.0, Weight, ds)
  }

  /** The product of the applied discounts' multipliers is the factor. */
  lemma {:induction false} AppliedProductIsFactor(ds: seq<Discount>)
    ensures Product(Applied(ds)) == Factor(ds)
    decreases |ds|
  {
    if ds != [] {
      AppliedProductIsFactor(ds[1..]);
      if ds[0].applied {
        var a := Applied(ds);
        assert a == [ds[0]] + Applied(ds[1..]);
        assert a[0] == ds[0] && a[1..] == Applied(ds[1..]);
      } else {
        assert Applied(ds) == Applied(ds[1..]);
      }
    }
  }

  lemma ScaleEq(a: real, p: real, q: real)
    requires p == q
    ensures a * p == a * q
  {
  }

  /** The price after the discounts of a listing: the price times the factor
      of the discount list, and the price itself without a list. */
  function DiscountedPrice(price: real, discounts: Option<seq<Discount>>): (r: real)
    ensures discounts.None? ==> r == price
    ensures discounts.Some? ==> r == Mul(price, Factor(discounts.value))
  {
    match discounts
    case None => price
    case Some(ds) =>
      AppliedProductIsFactor(ds);
      ScaleEq(price, Product(Applied(ds)), Factor(ds));
      Reduce(price, Applied(ds))
  }

  lemma MulIsLeftCommutative()
    ensures LeftCommutative(Mul)
  {
    forall a: real, b: real, c: real
      ensures Mul(a, Mul(b, c)) == Mul(b, Mul(a, c))
    {
      assert a * (b * c) == b * (a * c);
    }
  }

  /** Reordering the discount list does not change the factor. */
  lemma FactorIsOrderFree(a: seq<Discount>, b: seq<Discount>)
    requires multiset(a) == multiset(b)
    ensures Factor(a) == Factor(b)
  {
    MulIsLeftCommutative();
    FoldMapOrderFree(Mul, 1.0, Weight, a, b);
  }

  /** The discounted price does not depend on the order of the discounts. */
  lemma DiscountOrderIrrelevant(price: real, a: seq<Discount>, b: seq<Discount>)
    requires multiset(a) == multiset(b)
    ensures DiscountedPrice(price, Some(a)) == DiscountedPrice(price, Some(b))
  {
    FactorIsOrderFree(a, b);
  }

  /** Discounts that are not applied leave the factor at 1 and the price unchanged. */
  lemma {:induction false} UnappliedIgnored(price: real, ds: seq<Discount>)
    requires forall i :: 0 <= i < |ds| ==> !ds[i].applied
    ensures Factor(ds) == 1.0
    ensures DiscountedPrice(price, Some(ds)) == price
    decreases |ds|
  {
    if ds != [] {
      UnappliedIgnored(price, ds[1..]);
    }
  }

  predicate SavingsInRange(ds: seq<Discount>) {
    forall i :: 0 <= i < |ds| ==> 0.0 <= ds[i].savingPercent <= 100.0
  }

  /** With every saving between 0 and 100 percent the factor lies between 0 and 1. */
  lemma {:induction false} FactorInUnitRange(ds: seq<Discount>)
    requires SavingsInRange(ds)
    ensures 0.0 <= Factor(ds) <= 1.0
    decreases |ds|
  {
    if ds != [] {
      assert SavingsInRange(ds[1..]);
      FactorInUnitRange(ds[1..]);
      assert Factor(ds) == Weight(ds[0]) * Factor(ds[1..]);
      assert 0.0 <= Weight(ds[0]) <= 1.0;
      ProductOfUnits(Weight(ds[0]), Factor(ds[1..]));
    }
  }

  lemma ScaledDown(price: real, f: real)
    requires price >= 0.0 && 0.0 <= f <= 1.0
    ensures 0.0 <= Mul(price, f) <= price
  {
    MulNonNegative(price, f);
    MulMonotone(f, 1.0, price);
    assert f * price == price * f;
    assert price * f <= price;
  }

  /** With savings between 0 and 100 percent, the discounted price lies
      between 0 and the original price. */
  lemma DiscountedPriceBounded(price: real, ds: seq<Discount>)
    requires price >= 0.0
    requires SavingsInRange(ds)
    ensures 0.0 <= DiscountedPrice(price, Some(ds)) <= price
  {
    FactorInUnitRange(ds);
    ScaledDown(price, Factor(ds));
  }
}
