/**
 * Protocol totals (`calculateTotalCosts`, src/calculateCosts.ts:277-283):
 * the monthly cost and the monthly fees summed over the rows, an undefined
 * field counting as 0.
 */
module Totals {
  import opened Wrappers
  import opened Rows
  import opened Costs

  datatype Totals = Totals(costPerMonth: real, feesPerMonth: real)

  function CostOf(r: Derived): Option<real> {
    r.costPerMonth
  }

  function FeesOf(r: Derived): Option<real> {
    r.feesPerMonth
  }

  /** Reference definition: the sum of the present values of one field. */
  function Sum(rows: seq<Derived>, field: Derived -> Option<real>): real {
    if rows == [] then 0.0 else OptOr(field(rows[0]), 0.0, 0.0) + Sum(rows[1..], field)
  }

  /** `rows.reduce((acc, row) => acc += field(row) || 0, acc)`: the start
      value plus the sum of the field over the rows. */
  function Accumulate(acc: real, rows: seq<Derived>, field: Derived -> Option<real>): (r: real)
    ensures r == acc + Sum(rows, field)
    decreases |rows|
  {
    if rows == [] then acc
    else Accumulate(acc + OptOr(field(rows[0]), 0.0, 0.0), rows[1..], field)
  }

  lemma {:induction false} SumOfConcat(a: seq<Derived>, b: seq<Derived>, field: Derived -> Option<real>)
    ensures Sum(a + b, field) == Sum(a, field) + Sum(b, field)
    decreases |a|
  {
    if a == [] {
      assert a + b == b;
    } else {
      assert (a + b)[0] == a[0] && (a + b)[1..] == a[1..] + b;
      SumOfConcat(a[1..], b, field);
    }
  }

  lemma {:induction false} SumOfAbsent(rows: seq<Derived>, field: Derived -> Option<real>)
    requires forall j :: 0 <= j < |rows| ==> field(rows[j]).None?
    ensures Sum(rows, field) == 0.0
    decreases |rows|
  {
    if rows != [] {
      SumOfAbsent(rows[1..], field);
    }
  }

  /** `calculateTotalCosts`: the sums of the monthly costs and of the
      monthly fees over all rows. */
  function CalculateTotalCosts(rows: seq<Derived>): (r: Totals)
    ensures r.costPerMonth == Sum(rows, CostOf)
    ensures r.feesPerMonth == Sum(rows, FeesOf)
  {
    Totals(Accumulate(0.0, rows, CostOf), Accumulate(0.0, rows, FeesOf))
  }

  /** Totals add up over a concatenation of row lists. */
  lemma TotalsOfConcat(a: seq<Derived>, b: seq<Derived>)
    ensures CalculateTotalCosts(a + b).costPerMonth
      == CalculateTotalCosts(a).costPerMonth + CalculateTotalCosts(b).costPerMonth
    ensures CalculateTotalCosts(a + b).feesPerMonth
      == CalculateTotalCosts(a).feesPerMonth + CalculateTotalCosts(b).feesPerMonth
  {
    SumOfConcat(a, b, CostOf);
    SumOfConcat(a, b, FeesOf);
  }

  /** Rows whose cost fields are undefined, such as secondary bundle rows or
      rows that failed validation, leave the totals unchanged wherever they
      are inserted. */
  lemma HiddenRowsDoNotCount(before: seq<Derived>, hidden: seq<Derived>, after: seq<Derived>)
    requires forall j :: 0 <= j < |hidden| ==> hidden[j].costPerMonth.None? && hidden[j].feesPerMonth.None?
    ensures CalculateTotalCosts(before + hidden + after) == CalculateTotalCosts(before + after)
  {
    SumOfConcat(before + hidden, after, CostOf);
    SumOfConcat(before, hidden, CostOf);
    SumOfConcat(before, after, CostOf);
    SumOfConcat(before + hidden, after, FeesOf);
    SumOfConcat(before, hidden, FeesOf);
    SumOfConcat(before, after, FeesOf);
    SumOfAbsent(hidden, CostOf);
    SumOfAbsent(hidden, FeesOf);
  }

  /** The derived fields of a row that failed validation count for nothing. */
  lemma BlankRowsDoNotCount(before: seq<Derived>, after: seq<Derived>)
    ensures CalculateTotalCosts(before + [Blank] + after) == CalculateTotalCosts(before + after)
  {
    HiddenRowsDoNotCount(before, [Blank], after);
  }
}
