/**
 * The period statistics panel (components/PeriodStats.tsx). Its count,
 * total, average, minimum, maximum and median are the figures of
 * `SalesStats.Summarize`, computed by a copy of the same code; what it adds
 * is the per-date sum `salesByDate` and the number of days it shows.
 */
module PeriodStats {
  import opened Sales
  import opened Sorting
  import opened Grouping
  import SalesStats

  /** `m` holds, for each date that some sale carries and for no other, the sum of the prices of that date's sales. */
  ghost predicate IsDayTotals(m: map<string, int>, sales: seq<Sale>)
  {
    && m.Keys == KeySet(sales, DateOf)
    && forall d :: d in m ==> m[d] == Total(Group(sales, DateOf, d))
  }

  /**
   * `salesByDate`: a reduce over the sales whose accumulator record is
   * updated in place, each sale adding its price to the entry of its date
   * (the entry starts at 0 the first time the date is seen).
   */
  method SalesByDate(sales: seq<Sale>) returns (acc: map<string, int>)
    ensures acc.Keys == KeySet(sales, DateOf)
    ensures forall d :: d in acc ==> acc[d] == Total(Group(sales, DateOf, d))
  {
    acc := map[];
    for i := 0 to |sales|
      invariant IsDayTotals(acc, sales[..i])
    {
      var sale := sales[i];
      TakeSnoc(sales, i);
      ghost var before := acc;
      if sale.date !in acc {
        acc := acc[sale.date := 0];
      }
      acc := acc[sale.date := acc[sale.date] + sale.price];
      DayTotalsStep(before, sales[..i], sale);
    }
    assert sales[..|sales|] == sales;
  }

  /** Adding one sale's price to the entry of its date keeps the map the per-date sums. */
  lemma {:induction false} DayTotalsStep(m: map<string, int>, xs: seq<Sale>, sale: Sale)
    requires IsDayTotals(m, xs)
    ensures IsDayTotals(m[sale.date := (if sale.date in m then m[sale.date] else 0) + sale.price], xs + [sale])
  {
    var m' := m[sale.date := (if sale.date in m then m[sale.date] else 0) + sale.price];
    KeySetSnoc(xs, sale, DateOf);
    UpdateKeys(m, sale.date, (if sale.date in m then m[sale.date] else 0) + sale.price);
    if sale.date !in m {
      GroupOfAbsentKey(xs, DateOf, sale.date);
    }
    forall d | d in m'
      ensures m'[d] == Total(Group(xs + [sale], DateOf, d))
    {
      GroupSumSnoc(xs, sale, DateOf, d, PriceOf);
    }
  }

  /** The number of days shown, `Object.keys(salesByDate).length`, is at most the number of sales, and 0 exactly when there are none. */
  lemma {:induction false} DayCountBounds(m: map<string, int>, sales: seq<Sale>)
    requires IsDayTotals(m, sales)
    ensures |m| <= |sales|
    ensures |m| == 0 <==> |sales| == 0
  {
    var ks := KeysInOrder(sales, DateOf);
    DistinctCardinality(ks);
    assert m.Keys == set k | k in ks;
    assert |m| == |m.Keys|;
  }

  /** The sum of the values of `m` in the order `ks` visits its keys. */
  function SumValues(m: map<string, int>, ks: seq<string>): int
    requires forall i :: 0 <= i < |ks| ==> ks[i] in m
  {
    if |ks| == 0 then 0 else SumValues(m, ks[..|ks| - 1]) + m[ks[|ks| - 1]]
  }

  /** The per-date sums add up to the panel's total amount, whatever order the dates are visited in. */
  lemma {:induction false} DayTotalsSumToTotal(m: map<string, int>, sales: seq<Sale>, ks: seq<string>)
    requires IsDayTotals(m, sales)
    requires Distinct(ks)
    requires forall i :: 0 <= i < |ks| ==> ks[i] in m
    requires forall d :: d in m ==> d in ks
    ensures SumValues(m, ks) == SalesStats.Summarize(sales).totalAmount
  {
    SumValuesAreGroupSums(m, sales, ks);
    Partition(ks, sales, DateOf, PriceOf);
  }

  lemma {:induction false} SumValuesAreGroupSums(m: map<string, int>, sales: seq<Sale>, ks: seq<string>)
    requires IsDayTotals(m, sales)
    requires forall i :: 0 <= i < |ks| ==> ks[i] in m
    ensures SumValues(m, ks) == SumOverKeys(ks, sales, DateOf, PriceOf)
  {
    if |ks| > 0 {
      SumValuesAreGroupSums(m, sales, ks[..|ks| - 1]);
    }
  }
}
