/**
 * The chart data of components/SalesCharts.tsx: a per-date trend, a
 * histogram of sales over price ranges and a 24-slot histogram over the
 * hour of day, computed only when there is at least one sale.
 *
 * Prices, and so the bounds of the price ranges, are in cents; the range
 * width is chosen in whole currency units, as the component does.
 */
module SalesCharts {
  import opened Sales
  import opened Sorting
  import opened Lex
  import opened Decimal
  import opened Grouping
  import opened SalesStats

  // ---------------------------------------------------------------- trend

  /** A point of the trend chart: a date, its total, its number of sales and the mean sale. */
  datatype TrendPoint = TrendPoint(date: string, total: int, count: nat, average: real)

  /** A point whose mean times its count gives its total, over at least one sale. */
  predicate MeanOfCount(p: TrendPoint)
  {
    p.count >= 1 && p.average * (p.count as real) == p.total as real
  }

  /** The point of a date's record: `{date, total, count, average: total / count}`. */
  function ToPoint(date: string, t: Tally): (p: TrendPoint)
    requires t.count > 0
    ensures p.date == date && p.total == t.total && p.count == t.count
    ensures MeanOfCount(p)
  {
    QuotientTimesDivisor(t.total as real, t.count as real);
    TrendPoint(date, t.total, t.count, t.total as real / t.count as real)
  }

  /** The point of a date some sale carries. */
  function PointAt(sales: seq<Sale>, d: string): (p: TrendPoint)
    requires d in KeySet(sales, DateOf)
    ensures p.date == d && MeanOfCount(p)
    ensures p.count == |Group(sales, DateOf, d)| && p.total == Total(Group(sales, DateOf, d))
  {
    GroupNonEmpty(sales, DateOf, d);
    ToPoint(d, TallyOf(sales, DateOf, d))
  }

  /** The points of the dates `ds`, in that order. */
  function Points(sales: seq<Sale>, ds: seq<string>): (ps: seq<TrendPoint>)
    requires forall i :: 0 <= i < |ds| ==> ds[i] in KeySet(sales, DateOf)
    ensures |ps| == |ds|
    ensures forall i :: 0 <= i < |ds| ==> ps[i] == PointAt(sales, ds[i])
  {
    seq(|ds|, i requires 0 <= i < |ds| => PointAt(sales, ds[i]))
  }

  /** The dates of trend points, in order. */
  function PointDates(points: seq<TrendPoint>): (ds: seq<string>)
    ensures |ds| == |points| && forall i :: 0 <= i < |points| ==> ds[i] == points[i].date
  {
    seq(|points|, i requires 0 <= i < |points| => points[i].date)
  }

  /** The trend chart: one point per date of the sales, dates ascending. */
  function TrendData(sales: seq<Sale>): (points: seq<TrendPoint>)
    ensures PointDates(points) == SortedDates(sales)
    ensures forall i, j :: 0 <= i < j < |points| ==> Less(points[i].date, points[j].date)
    ensures forall i :: 0 <= i < |points| ==> MeanOfCount(points[i])
    ensures forall i :: 0 <= i < |points| ==> points[i].date in KeySet(sales, DateOf)
    ensures forall k :: 0 <= k < |sales| ==> sales[k].date in PointDates(points)
  {
    var ds := SortedDates(sales);
    var points := Points(sales, ds);
    assert PointDates(points) == ds;
    points
  }

  /** The number of sales of a trend point. */
  function PointCount(p: TrendPoint): int { p.count }

  /** The total of a trend point. */
  function PointTotal(p: TrendPoint): int { p.total }

  lemma {:induction false} PointsSums(sales: seq<Sale>, ds: seq<string>)
    requires forall i :: 0 <= i < |ds| ==> ds[i] in KeySet(sales, DateOf)
    ensures SumBy(Points(sales, ds), PointCount) == SumOverKeys(ds, sales, DateOf, One)
    ensures SumBy(Points(sales, ds), PointTotal) == SumOverKeys(ds, sales, DateOf, PriceOf)
  {
    if |ds| > 0 {
      var p := ds[..|ds| - 1];
      var d := ds[|ds| - 1];
      PointsSums(sales, p);
      assert Points(sales, ds)[..|ds| - 1] == Points(sales, p);
      SumByOneIsLength(Group(sales, DateOf, d));
    }
  }

  /** The trend's counts add up to the number of sales and its totals to their total. */
  lemma {:induction false} TrendSums(sales: seq<Sale>)
    ensures SumBy(TrendData(sales), PointCount) == |sales|
    ensures SumBy(TrendData(sales), PointTotal) == Total(sales)
  {
    var ds := SortedDates(sales);
    PointsSums(sales, ds);
    TallyPartition(ds, sales, DateOf);
  }

  /** The points of the records of the dates `ds`: `.map(day => ({...day, average: day.total / day.count}))`. */
  function RecordPoints(m: map<string, Tally>, ds: seq<string>): (ps: seq<TrendPoint>)
    requires forall i :: 0 <= i < |ds| ==> ds[i] in m && m[ds[i]].count >= 1
    ensures |ps| == |ds| && forall i :: 0 <= i < |ds| ==> ps[i] == ToPoint(ds[i], m[ds[i]])
  {
    seq(|ds|, i requires 0 <= i < |ds| => ToPoint(ds[i], m[ds[i]]))
  }

  /** The points made from the records of the dates `ds` are the points of those dates. */
  lemma {:induction false} RecordsArePoints(sales: seq<Sale>, m: map<string, Tally>, ds: seq<string>)
    requires forall i :: 0 <= i < |ds| ==>
      ds[i] in KeySet(sales, DateOf) && ds[i] in m && m[ds[i]] == TallyOf(sales, DateOf, ds[i]) && m[ds[i]].count >= 1
    ensures RecordPoints(m, ds) == Points(sales, ds)
  {
    var ps, points := RecordPoints(m, ds), Points(sales, ds);
    forall i | 0 <= i < |ds|
      ensures ps[i] == points[i]
    {
      assert points[i] == PointAt(sales, ds[i]);
    }
  }

  /**
   * `prepareTrendData`: a reduce fills a record per date, created at zero
   * the first time the date is seen; its values are then sorted by date and
   * turned into points.
   */
  method PrepareTrendData(sales: seq<Sale>) returns (trendData: seq<TrendPoint>)
    ensures trendData == TrendData(sales)
  {
    var salesByDate, keys := TallyDates(sales);
    trendData := SortTrendPoints(sales, salesByDate, keys);
  }

  /** The reduce of `prepareTrendData`: each sale counts in the record of its date. */
  method TallyDates(sales: seq<Sale>) returns (salesByDate: map<string, Tally>, keys: seq<string>)
    ensures IsTally(salesByDate, keys, sales, DateOf)
  {
    salesByDate := map[];
    keys := [];
    for i := 0 to |sales|
      invariant IsTally(salesByDate, keys, sales[..i], DateOf)
    {
      TallyStepAt(sales, salesByDate, keys, i, DateOf);
      var sale := sales[i];
      if sale.date !in salesByDate {
        keys := keys + [sale.date];
      }
      salesByDate := Bump(salesByDate, sale.date, sale.price);
    }
    assert sales[..|sales|] == sales;
  }

  /** Sorting the recorded dates gives the sorted dates, each with its record over at least one sale. */
  lemma {:induction false} SortedRecordDates(sales: seq<Sale>, m: map<string, Tally>, keys: seq<string>)
    requires IsTally(m, keys, sales, DateOf)
    ensures IsTotalPreorder(LessEq)
    ensures Sort(keys, LessEq) == SortedDates(sales)
    ensures var ds := SortedDates(sales);
      forall i :: 0 <= i < |ds| ==>
        ds[i] in KeySet(sales, DateOf) && ds[i] in m && m[ds[i]] == TallyOf(sales, DateOf, ds[i]) && m[ds[i]].count >= 1
  {
    SortStrings(keys);
    TallyLookup(m, keys, sales, DateOf, Sort(keys, LessEq));
  }

  /** `Object.values(salesByDate).sort(...).map(...)`: the records as points, by ascending date. */
  method SortTrendPoints(sales: seq<Sale>, salesByDate: map<string, Tally>, keys: seq<string>)
    returns (trendData: seq<TrendPoint>)
    requires IsTally(salesByDate, keys, sales, DateOf)
    ensures trendData == Points(sales, SortedDates(sales))
  {
    SortedRecordDates(sales, salesByDate, keys);
    var dates := Sort(keys, LessEq);
    RecordsArePoints(sales, salesByDate, dates);
    trendData := RecordPoints(salesByDate, dates);
  }

  // --------------------------------------------------------- distribution

  /** A bar of the price histogram: prices from `rangeStart` up to, not including, `rangeEnd`. */
  datatype Bucket = Bucket(rangeStart: int, rangeEnd: int, count: nat, total: int)

  /**
   * `rangeSize`, in whole currency units, from the least and greatest price
   * in cents: a fifth of the spread rounded up to a multiple of 1000, and
   * never below 1000.
   */
  function RangeSize(minPrice: int, maxPrice: int): (size: int)
    requires minPrice <= maxPrice
    ensures size >= 1000 && size % 1000 == 0
    ensures 5 * 100 * size >= maxPrice - minPrice
    ensures size == 1000 || 5 * 100 * (size - 1000) < maxPrice - minPrice
  {
    // Math.ceil((maxPrice - minPrice) / 5 / 1000) with the spread in cents
    var steps := (maxPrice - minPrice + 499999) / 500000;
    if 1000 >= steps * 1000 then 1000 else steps * 1000
  }

  /** A whole multiple of a positive number leaves no remainder. */
  lemma {:induction false} MultipleMod(q: int, size: int)
    requires size > 0
    ensures (q * size) % size == 0
  {
    var x := q * size;
    var r := x % size;
    var d := x / size;
    assert x == d * size + r;
    var k := q - d;
    assert k * size == q * size - d * size;
    assert k * size == r;
  }

  /** Two different multiples of a positive number are at least that number apart. */
  lemma {:induction false} MultiplesApart(a: int, b: int, size: int)
    requires size > 0 && a % size == 0 && b % size == 0 && a < b
    ensures a + size <= b
  {
    var qa, qb := a / size, b / size;
    assert a == qa * size;
    assert b == qb * size;
    var k := qb - qa;
    assert k * size == b - a;
    assert (k - 1) * size >= 0;
  }

  /** `Math.floor(price / size) * size`; Dafny's `/` rounds down for a positive divisor, as `Math.floor` does. */
  function RangeStart(price: int, size: int): (start: int)
    requires size > 0
    ensures start % size == 0 && start <= price < start + size
  {
    MultipleMod(price / size, size);
    price / size * size
  }

  /** The range a sale falls in, as a key to group by. */
  function StartOf(size: int): Sale -> int
    requires size > 0
  {
    (s: Sale) => RangeStart(s.price, size)
  }

  /** The width of the ranges in cents for non-empty sales. */
  function Width(sales: seq<Sale>): (w: int)
    requires |sales| > 0
    ensures w >= 100000 && w % 100000 == 0
  {
    var prices := Prices(sales);
    MinBelowMax(prices);
    var size := RangeSize(MinOf(prices), MaxOf(prices));
    CentsWidth(size);
    size * 100
  }

  /** A range size in whole units of 1000, taken in cents, is a whole multiple of 100000. */
  lemma {:induction false} CentsWidth(size: int)
    requires size >= 1000 && size % 1000 == 0
    ensures size * 100 >= 100000 && (size * 100) % 100000 == 0
  {
    var q := size / 1000;
    assert size == q * 1000;
    assert size * 100 == q * 100000;
    MultipleMod(q, 100000);
  }

  /** The bar of a range's record. */
  function ToBucket(start: int, size: int, t: Tally): Bucket
  {
    Bucket(start, start + size, t.count, t.total)
  }

  /** Distinct integers in ascending order, as `(a, b) => a - b` sorts them. */
  lemma {:induction false} SortInts(keys: seq<int>)
    requires Distinct(keys)
    ensures IsTotalPreorder(NumericLe)
    ensures forall i, j :: 0 <= i < j < |Sort(keys, NumericLe)| ==> Sort(keys, NumericLe)[i] < Sort(keys, NumericLe)[j]
    ensures Distinct(Sort(keys, NumericLe)) && |Sort(keys, NumericLe)| == |keys|
    ensures forall i :: 0 <= i < |Sort(keys, NumericLe)| ==> Sort(keys, NumericLe)[i] in keys
    ensures forall i :: 0 <= i < |keys| ==> keys[i] in Sort(keys, NumericLe)
  {
    assert IsAntisymmetric(NumericLe);
    SortDistinct(keys, NumericLe);
  }

  /** The range starts the sales fall in, each once, ascending. */
  function SortedStarts(sales: seq<Sale>, size: int): (starts: seq<int>)
    requires size > 0
    ensures forall i, j :: 0 <= i < j < |starts| ==> starts[i] < starts[j]
    ensures forall i :: 0 <= i < |starts| ==> starts[i] in KeySet(sales, StartOf(size))
    ensures forall k :: 0 <= k < |sales| ==> RangeStart(sales[k].price, size) in starts
  {
    var keys := KeysInOrder(sales, StartOf(size));
    SortInts(keys);
    var starts := Sort(keys, NumericLe);
    forall k | 0 <= k < |sales|
      ensures RangeStart(sales[k].price, size) in starts
    {
      assert StartOf(size)(sales[k]) in keys;
    }
    starts
  }

  /** The bars of the range starts `starts`, in that order. */
  function Bars(sales: seq<Sale>, size: int, starts: seq<int>): (bs: seq<Bucket>)
    requires size > 0
    ensures |bs| == |starts|
    ensures forall i :: 0 <= i < |bs| ==> bs[i].rangeStart == starts[i] && bs[i].rangeEnd == starts[i] + size
    ensures forall i :: 0 <= i < |bs| ==> bs[i].count == |Group(sales, StartOf(size), starts[i])|
  {
    seq(|starts|, i requires 0 <= i < |starts| => ToBucket(starts[i], size, TallyOf(sales, StartOf(size), starts[i])))
  }

  /** The price histogram of non-empty sales: one bar per range that holds a sale, ranges ascending. */
  function Distribution(sales: seq<Sale>): (bs: seq<Bucket>)
    requires |sales| > 0
  {
    var w := Width(sales);
    Bars(sales, w, SortedStarts(sales, w))
  }

  /** Range starts that sales fall in are multiples of the width, and each holds a sale. */
  lemma {:induction false} StartsOfSales(sales: seq<Sale>, w: int, starts: seq<int>)
    requires w > 0
    requires forall i :: 0 <= i < |starts| ==> starts[i] in KeySet(sales, StartOf(w))
    ensures forall i :: 0 <= i < |starts| ==> starts[i] % w == 0 && |Group(sales, StartOf(w), starts[i])| >= 1
  {
    forall i | 0 <= i < |starts|
      ensures starts[i] % w == 0 && |Group(sales, StartOf(w), starts[i])| >= 1
    {
      var x :| x in sales && StartOf(w)(x) == starts[i];
      GroupNonEmpty(sales, StartOf(w), starts[i]);
    }
  }

  /** Ascending multiples of the width leave a full width between one and the next. */
  lemma {:induction false} StartsApart(w: int, starts: seq<int>)
    requires w > 0
    requires forall i :: 0 <= i < |starts| ==> starts[i] % w == 0
    requires forall i, j :: 0 <= i < j < |starts| ==> starts[i] < starts[j]
    ensures forall i, j :: 0 <= i < j < |starts| ==> starts[i] + w <= starts[j]
  {
    forall i, j | 0 <= i < j < |starts|
      ensures starts[i] + w <= starts[j]
    {
      MultiplesApart(starts[i], starts[j], w);
    }
  }

  /** The width is the range size of the least and greatest price, in cents. */
  lemma {:induction false} WidthOfSpread(sales: seq<Sale>)
    requires |sales| > 0
    ensures MinOf(Prices(sales)) <= MaxOf(Prices(sales))
    ensures Width(sales) == RangeSize(MinOf(Prices(sales)), MaxOf(Prices(sales))) * 100
  {
    MinBelowMax(Prices(sales));
  }

  lemma {:induction false} DistributionOfWidth(sales: seq<Sale>, w: int)
    requires |sales| > 0 && w == Width(sales)
    ensures Distribution(sales) == Bars(sales, w, SortedStarts(sales, w))
  {
  }

  /** Every bar is a range of the chosen width starting at a multiple of it and holding a sale; the bars ascend without overlapping. */
  lemma {:induction false} DistributionShape(sales: seq<Sale>)
    requires |sales| > 0
    ensures var bs, w := Distribution(sales), Width(sales);
      && (forall i :: 0 <= i < |bs| ==>
            bs[i].rangeStart % w == 0 && bs[i].rangeEnd == bs[i].rangeStart + w && bs[i].count >= 1)
      && (forall i, j :: 0 <= i < j < |bs| ==> bs[i].rangeEnd <= bs[j].rangeStart)
  {
    var w := Width(sales);
    var starts := SortedStarts(sales, w);
    StartsOfSales(sales, w, starts);
    StartsApart(w, starts);
    BarsShape(sales, w, starts);
  }

  lemma {:induction false} BarsShape(sales: seq<Sale>, w: int, starts: seq<int>)
    requires w > 0
    requires forall i :: 0 <= i < |starts| ==> starts[i] % w == 0 && |Group(sales, StartOf(w), starts[i])| >= 1
    requires forall i, j :: 0 <= i < j < |starts| ==> starts[i] + w <= starts[j]
    ensures var bs := Bars(sales, w, starts);
      && (forall i :: 0 <= i < |bs| ==>
            bs[i].rangeStart % w == 0 && bs[i].rangeEnd == bs[i].rangeStart + w && bs[i].count >= 1)
      && (forall i, j :: 0 <= i < j < |bs| ==> bs[i].rangeEnd <= bs[j].rangeStart)
  {
  }

  /** Each range start lies within one width below the least price and at most the greatest. */
  lemma {:induction false} StartsWithin(sales: seq<Sale>, w: int, starts: seq<int>)
    requires |sales| > 0 && w > 0
    requires forall i :: 0 <= i < |starts| ==> starts[i] in KeySet(sales, StartOf(w))
    ensures forall i :: 0 <= i < |starts| ==>
      MinOf(Prices(sales)) - w < starts[i] <= MaxOf(Prices(sales))
  {
    var prices := Prices(sales);
    forall i | 0 <= i < |starts|
      ensures MinOf(prices) - w < starts[i] <= MaxOf(prices)
    {
      assert starts[i] in KeySet(sales, StartOf(w));
      var x :| x in sales && StartOf(w)(x) == starts[i];
      var k :| 0 <= k < |sales| && sales[k] == x;
      assert prices[k] == x.price;
    }
  }

  /** Ranges at least a width apart: the `j`-th lies `j` widths or more above the first. */
  lemma {:induction false} AscendingSpan(w: int, starts: seq<int>, j: nat)
    requires w > 0 && j < |starts|
    requires forall a, b :: 0 <= a < b < |starts| ==> starts[a] + w <= starts[b]
    ensures starts[j] >= starts[0] + j * w
  {
    if j > 0 {
      AscendingSpan(w, starts, j - 1);
      assert j * w == (j - 1) * w + w;
    }
  }

  /** Starts a width apart within six widths of each other number at most six. */
  lemma {:induction false} FewStarts(w: int, starts: seq<int>, lo: int, hi: int)
    requires w > 0 && hi - lo <= 5 * w
    requires forall i :: 0 <= i < |starts| ==> lo - w < starts[i] <= hi
    requires forall a, b :: 0 <= a < b < |starts| ==> starts[a] + w <= starts[b]
    ensures |starts| <= 6
  {
    if |starts| > 0 {
      var k := |starts| - 1;
      AscendingSpan(w, starts, k);
      assert k * w < 6 * w;
      assert (k - 6) * w < 0;
    }
  }

  /** A width of at least a fifth of the spread leaves at most six bars. */
  lemma {:induction false} AtMostSixBuckets(sales: seq<Sale>)
    requires |sales| > 0
    ensures |Distribution(sales)| <= 6
  {
    var w := Width(sales);
    var starts := SortedStarts(sales, w);
    WidthOfSpread(sales);
    StartsWithin(sales, w, starts);
    StartsOfSales(sales, w, starts);
    StartsApart(w, starts);
    DistributionOfWidth(sales, w);
    FewStarts(w, starts, MinOf(Prices(sales)), MaxOf(Prices(sales)));
  }

  /** Prices from `b.rangeStart` up to, not including, `b.rangeEnd`. */
  predicate InRange(b: Bucket, price: int)
  {
    b.rangeStart <= price < b.rangeEnd
  }

  /** Each sale's price lies in exactly one bar. */
  lemma {:induction false} SaleInOneBucket(sales: seq<Sale>, k: nat)
    requires k < |sales|
    ensures var bs := Distribution(sales);
      && (exists i :: 0 <= i < |bs| && InRange(bs[i], sales[k].price))
      && (forall i, j :: 0 <= i < |bs| && 0 <= j < |bs| && InRange(bs[i], sales[k].price) && InRange(bs[j], sales[k].price) ==> i == j)
  {
    DistributionShape(sales);
    var w := Width(sales);
    var starts := SortedStarts(sales, w);
    DistributionOfWidth(sales, w);
    var bs := Distribution(sales);
    var price := sales[k].price;
    var i :| 0 <= i < |starts| && starts[i] == RangeStart(price, w);
    assert bs[i].rangeStart == starts[i] && bs[i].rangeEnd == starts[i] + w;
    OnlyBucket(bs, price, i);
  }

  /** In bars that ascend without overlapping, a bar holding a price is the only one holding it. */
  lemma {:induction false} OnlyBucket(bs: seq<Bucket>, price: int, i: nat)
    requires i < |bs| && InRange(bs[i], price)
    requires forall a, b :: 0 <= a < b < |bs| ==> bs[a].rangeEnd <= bs[b].rangeStart
    ensures exists a :: 0 <= a < |bs| && InRange(bs[a], price)
    ensures forall a, b :: 0 <= a < |bs| && 0 <= b < |bs| && InRange(bs[a], price) && InRange(bs[b], price) ==> a == b
  {
    forall a, b | 0 <= a < b < |bs|
      ensures !(InRange(bs[a], price) && InRange(bs[b], price))
    {
      assert bs[a].rangeEnd <= bs[b].rangeStart;
    }
  }

  /** The number of sales of a bar. */
  function BarCount(b: Bucket): int { b.count }

  /** The total of a bar. */
  function BarTotal(b: Bucket): int { b.total }

  lemma {:induction false} BarsSums(sales: seq<Sale>, size: int, starts: seq<int>)
    requires size > 0
    ensures SumBy(Bars(sales, size, starts), BarCount) == SumOverKeys(starts, sales, StartOf(size), One)
    ensures SumBy(Bars(sales, size, starts), BarTotal) == SumOverKeys(starts, sales, StartOf(size), PriceOf)
  {
    if |starts| > 0 {
      var p := starts[..|starts| - 1];
      BarsSums(sales, size, p);
      assert Bars(sales, size, starts)[..|starts| - 1] == Bars(sales, size, p);
      SumByOneIsLength(Group(sales, StartOf(size), starts[|starts| - 1]));
    }
  }

  /** The bars' counts add up to the number of sales and their totals to the sales' total. */
  lemma {:induction false} DistributionSums(sales: seq<Sale>)
    requires |sales| > 0
    ensures SumBy(Distribution(sales), BarCount) == |sales|
    ensures SumBy(Distribution(sales), BarTotal) == Total(sales)
  {
    var w := Width(sales);
    var starts := SortedStarts(sales, w);
    BarsSums(sales, w, starts);
    assert forall i :: 0 <= i < |sales| ==> StartOf(w)(sales[i]) in starts;
    TallyPartition(starts, sales, StartOf(w));
  }

  /**
   * `prepareDistributionData`: the width comes from the least and greatest
   * price; the sales are tallied per range; the records are then sorted by
   * the start of their range.
   */
  method PrepareDistributionData(sales: seq<Sale>) returns (distribution: seq<Bucket>)
    requires |sales| > 0
    ensures distribution == Distribution(sales)
  {
    var prices := Prices(sales);
    var minPrice := MinOf(prices);
    var maxPrice := MaxOf(prices);
    WidthOfSpread(sales);
    var rangeSize := RangeSize(minPrice, maxPrice);
    var width := rangeSize * 100;
    DistributionOfWidth(sales, width);
    var priceRanges, keys := TallyPriceRanges(sales, width);
    distribution := SortPriceRanges(sales, width, priceRanges, keys);
  }

  /** The bars of the records of the range starts `starts`. */
  function RecordBars(m: map<int, Tally>, width: int, starts: seq<int>): (bs: seq<Bucket>)
    requires forall i :: 0 <= i < |starts| ==> starts[i] in m
    ensures |bs| == |starts| && forall i :: 0 <= i < |starts| ==> bs[i] == ToBucket(starts[i], width, m[starts[i]])
  {
    seq(|starts|, i requires 0 <= i < |starts| => ToBucket(starts[i], width, m[starts[i]]))
  }

  /** The bars made from the records of the range starts `starts` are the bars of those starts. */
  lemma {:induction false} RecordsAreBars(sales: seq<Sale>, width: int, m: map<int, Tally>, starts: seq<int>)
    requires width > 0
    requires forall i :: 0 <= i < |starts| ==> starts[i] in m && m[starts[i]] == TallyOf(sales, StartOf(width), starts[i])
    ensures RecordBars(m, width, starts) == Bars(sales, width, starts)
  {
    var bs, bars := RecordBars(m, width, starts), Bars(sales, width, starts);
    forall i | 0 <= i < |starts|
      ensures bs[i] == bars[i]
    {
    }
  }

  /** Sorting the recorded range starts gives the sorted starts, each with its record. */
  lemma {:induction false} SortedRanges(sales: seq<Sale>, width: int, m: map<int, Tally>, keys: seq<int>)
    requires width > 0 && IsTally(m, keys, sales, StartOf(width))
    ensures IsTotalPreorder(NumericLe)
    ensures Sort(keys, NumericLe) == SortedStarts(sales, width)
    ensures var starts := SortedStarts(sales, width);
      forall i :: 0 <= i < |starts| ==> starts[i] in m && m[starts[i]] == TallyOf(sales, StartOf(width), starts[i])
  {
    SortInts(keys);
    TallyLookup(m, keys, sales, StartOf(width), Sort(keys, NumericLe));
  }

  /** `Object.values(priceRanges).sort(...)`: the records as bars, by ascending start of range. */
  method SortPriceRanges(sales: seq<Sale>, width: int, priceRanges: map<int, Tally>, keys: seq<int>)
    returns (distribution: seq<Bucket>)
    requires width > 0 && IsTally(priceRanges, keys, sales, StartOf(width))
    ensures distribution == Bars(sales, width, SortedStarts(sales, width))
  {
    SortedRanges(sales, width, priceRanges, keys);
    var starts := Sort(keys, NumericLe);
    RecordsAreBars(sales, width, priceRanges, starts);
    distribution := RecordBars(priceRanges, width, starts);
  }

  /**
   * The `forEach` of `prepareDistributionData`: each sale counts in the
   * record of its range, created at zero the first time the range is seen.
   */
  method TallyPriceRanges(sales: seq<Sale>, width: int) returns (priceRanges: map<int, Tally>, keys: seq<int>)
    requires width > 0
    ensures IsTally(priceRanges, keys, sales, StartOf(width))
  {
    priceRanges := map[];
    keys := [];
    for i := 0 to |sales|
      invariant IsTally(priceRanges, keys, sales[..i], StartOf(width))
    {
      TallyStepAt(sales, priceRanges, keys, i, StartOf(width));
      var sale := sales[i];
      var rangeStart := RangeStart(sale.price, width);
      if rangeStart !in priceRanges {
        keys := keys + [rangeStart];
      }
      priceRanges := Bump(priceRanges, rangeStart, sale.price);
    }
    assert sales[..|sales|] == sales;
  }

  // --------------------------------------------------------------- hourly

  /** An hour of the day, as `getHours` gives it. */
  type Hour = h: int | 0 <= h < 24

  /** A slot of the hour chart: `{hour, sales, total, label}` (`label` is a keyword here). */
  datatype HourSlot = HourSlot(hour: int, sales: nat, total: int, hourLabel: string)

  /** `${i}:00`. */
  function HourLabel(i: nat): string
  {
    NatToString(i) + ":00"
  }

  /** The slot a sale counts in: the hour of its timestamp, or -1 (no slot) when `created_at` is empty. */
  function HourKey(hourOf: string -> Hour): Sale -> int
  {
    (s: Sale) => if s.createdAt == "" then -1 else hourOf(s.createdAt) as int
  }

  /** Slot `i` once the sales `xs` have been counted. */
  function SlotOf(xs: seq<Sale>, hourOf: string -> Hour, i: nat): HourSlot
  {
    var t := TallyOf(xs, HourKey(hourOf), i);
    HourSlot(i, t.count, t.total, HourLabel(i))
  }

  /** The hour chart: always 24 slots, slot `i` for hour `i` labelled `i:00`, counting the timed sales of that hour. */
  function HourlyData(sales: seq<Sale>, hourOf: string -> Hour): (slots: seq<HourSlot>)
    ensures |slots| == 24
    ensures forall i :: 0 <= i < 24 ==> slots[i].hour == i && slots[i].hourLabel == HourLabel(i)
  {
    seq(24, i requires 0 <= i < 24 => SlotOf(sales, hourOf, i))
  }

  /** A slot with one more sale of the given price. */
  function Bumped(slot: HourSlot, price: int): HourSlot
  {
    slot.(sales := slot.sales + 1, total := slot.total + price)
  }

  /** One more sale changes slot `i` only if the sale is timed in hour `i`. */
  lemma {:induction false} SlotStep(xs: seq<Sale>, x: Sale, hourOf: string -> Hour, i: nat)
    ensures SlotOf(xs + [x], hourOf, i)
         == if HourKey(hourOf)(x) == i then Bumped(SlotOf(xs, hourOf, i), x.price) else SlotOf(xs, hourOf, i)
  {
    TallyOfSnoc(xs, x, HourKey(hourOf), i);
  }

  /** Hour charts that agree slot by slot are equal. */
  lemma {:induction false} SameSlots(a: seq<HourSlot>, b: seq<HourSlot>)
    requires |a| == |b| && forall i :: 0 <= i < |a| ==> a[i] == b[i]
    ensures a == b
  {
  }

  /**
   * One more sale with a timestamp adds one sale and its price to the slot
   * of its hour and changes no other slot; one without changes nothing.
   */
  lemma {:induction false} HourlyStep(xs: seq<Sale>, x: Sale, hourOf: string -> Hour)
    ensures HourlyData(xs + [x], hourOf)
         == if x.createdAt == "" then HourlyData(xs, hourOf)
            else
              var h := hourOf(x.createdAt) as int;
              HourlyData(xs, hourOf)[h := Bumped(HourlyData(xs, hourOf)[h], x.price)]
  {
    var before, after := HourlyData(xs, hourOf), HourlyData(xs + [x], hourOf);
    var expected :=
      if x.createdAt == "" then before
      else
        var h := hourOf(x.createdAt) as int;
        before[h := Bumped(before[h], x.price)];
    forall i | 0 <= i < 24
      ensures after[i] == expected[i]
    {
      SlotStep(xs, x, hourOf, i);
    }
    SameSlots(after, expected);
  }

  /** The zeroed chart the count starts from. */
  function EmptySlots(): (slots: seq<HourSlot>)
    ensures |slots| == 24
  {
    seq(24, i requires 0 <= i < 24 => HourSlot(i, 0, 0, HourLabel(i)))
  }

  /** Counting one sale into a chart: the slot of its hour gains it, when it has a timestamp. */
  function CountSale(slots: seq<HourSlot>, x: Sale, hourOf: string -> Hour): (r: seq<HourSlot>)
    requires |slots| == 24
    ensures |r| == 24
  {
    if x.createdAt == "" then slots
    else
      var h := hourOf(x.createdAt) as int;
      slots[h := Bumped(slots[h], x.price)]
  }

  /** The chart after counting the sales `xs` one at a time, in order. */
  function CountSales(xs: seq<Sale>, hourOf: string -> Hour): (r: seq<HourSlot>)
    ensures |r| == 24
  {
    if |xs| == 0 then EmptySlots()
    else CountSale(CountSales(xs[..|xs| - 1], hourOf), xs[|xs| - 1], hourOf)
  }

  /** Counting sale by sale gives the chart of per-hour groups. */
  lemma {:induction false} CountSalesIsHourly(xs: seq<Sale>, hourOf: string -> Hour)
    ensures CountSales(xs, hourOf) == HourlyData(xs, hourOf)
  {
    if |xs| == 0 {
      var e, h := EmptySlots(), HourlyData(xs, hourOf);
      forall i | 0 <= i < 24
        ensures e[i] == h[i]
      {
        assert h[i] == SlotOf(xs, hourOf, i);
      }
      SameSlots(e, h);
    } else {
      var p, x := xs[..|xs| - 1], xs[|xs| - 1];
      CountSalesIsHourly(p, hourOf);
      HourlyStep(p, x, hourOf);
      assert xs == p + [x];
    }
  }

  /**
   * `prepareHourlyData`: 24 zeroed slots, then each sale with a timestamp
   * adds one sale and its price to the slot of its hour, in place.
   */
  method PrepareHourlyData(sales: seq<Sale>, hourOf: string -> Hour) returns (hourlyData: array<HourSlot>)
    ensures fresh(hourlyData)
    ensures hourlyData[..] == HourlyData(sales, hourOf)
  {
    hourlyData := new HourSlot[24](i => HourSlot(i, 0, 0, HourLabel(i)));
    assert hourlyData[..] == CountSales(sales[..0], hourOf);
    for k := 0 to |sales|
      invariant hourlyData[..] == CountSales(sales[..k], hourOf)
    {
      assert sales[..k + 1][..k] == sales[..k];
      var sale := sales[k];
      if sale.createdAt != "" {
        var hour := hourOf(sale.createdAt);
        hourlyData[hour] := hourlyData[hour].(sales := hourlyData[hour].sales + 1);
        hourlyData[hour] := hourlyData[hour].(total := hourlyData[hour].total + sale.price);
      }
    }
    assert sales[..|sales|] == sales;
    CountSalesIsHourly(sales, hourOf);
  }

  /** The number of sales of an hour slot. */
  function SlotSales(s: HourSlot): int { s.sales }

  /** The total of an hour slot. */
  function SlotAmount(s: HourSlot): int { s.total }

  /** The hours `0 .. n-1`. */
  function Hours(n: nat): (hs: seq<int>)
    ensures |hs| == n && forall i :: 0 <= i < n ==> hs[i] == i
  {
    seq(n, i => i)
  }

  lemma {:induction false} SlotsSums(sales: seq<Sale>, hourOf: string -> Hour, n: nat)
    requires n <= 24
    ensures SumBy(HourlyData(sales, hourOf)[..n], SlotSales) == SumOverKeys(Hours(n), sales, HourKey(hourOf), One)
    ensures SumBy(HourlyData(sales, hourOf)[..n], SlotAmount) == SumOverKeys(Hours(n), sales, HourKey(hourOf), PriceOf)
  {
    if n > 0 {
      SlotsSums(sales, hourOf, n - 1);
      var slots := HourlyData(sales, hourOf);
      assert slots[..n][..n - 1] == slots[..n - 1];
      assert Hours(n)[..n - 1] == Hours(n - 1);
      SumByOneIsLength(Group(sales, HourKey(hourOf), n - 1));
    }
  }

  /** The slots count every sale with a timestamp once: with the untimed ones they make up all sales and their total. */
  lemma {:induction false} HourlySums(sales: seq<Sale>, hourOf: string -> Hour)
    ensures SumBy(HourlyData(sales, hourOf), SlotSales) + |Group(sales, HourKey(hourOf), -1)| == |sales|
    ensures SumBy(HourlyData(sales, hourOf), SlotAmount) + Total(Group(sales, HourKey(hourOf), -1)) == Total(sales)
  {
    var key := HourKey(hourOf);
    var slots := HourlyData(sales, hourOf);
    SlotsSums(sales, hourOf, 24);
    assert slots[..24] == slots;
    var ks := Hours(24) + [-1];
    assert ks[..24] == Hours(24);
    forall i | 0 <= i < |sales|
      ensures key(sales[i]) in ks
    {
      if sales[i].createdAt != "" {
        assert ks[key(sales[i])] == key(sales[i]);
      }
    }
    TallyPartition(ks, sales, key);
    SumByOneIsLength(Group(sales, key, -1));
  }

  /** When every sale has a timestamp, the slots count all of them and add up to their total. */
  lemma {:induction false} HourlyCoversTimedSales(sales: seq<Sale>, hourOf: string -> Hour)
    requires forall i :: 0 <= i < |sales| ==> sales[i].createdAt != ""
    ensures SumBy(HourlyData(sales, hourOf), SlotSales) == |sales|
    ensures SumBy(HourlyData(sales, hourOf), SlotAmount) == Total(sales)
  {
    HourlySums(sales, hourOf);
    assert -1 !in KeySet(sales, HourKey(hourOf));
    GroupOfAbsentKey(sales, HourKey(hourOf), -1);
  }

  // ------------------------------------------------------------ component

  /** What the component draws from. */
  datatype Charts = Charts(trend: seq<TrendPoint>, distribution: seq<Bucket>, hourly: seq<HourSlot>)

  /**
   * The component body: no chart data at all for an empty list (which is
   * also what keeps `Math.min`/`Math.max` off an empty list), else the three
   * charts.
   */
  method ChartData(sales: seq<Sale>, hourOf: string -> Hour) returns (charts: Option<Charts>)
    ensures charts.None? <==> |sales| == 0
    ensures charts.Some? ==>
              |sales| > 0 && charts.value == Charts(TrendData(sales), Distribution(sales), HourlyData(sales, hourOf))
  {
    if |sales| == 0 {
      return None;
    }
    var trendData := PrepareTrendData(sales);
    var distributionData := PrepareDistributionData(sales);
    var hourlyData := PrepareHourlyData(sales, hourOf);
    charts := Some(Charts(trendData, distributionData, hourlyData[..]));
  }
}
