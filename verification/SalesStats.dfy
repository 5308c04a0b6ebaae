/**
 * The summary figures of the daily statistics panel (components/SalesStats.tsx);
 * the period statistics panel (components/PeriodStats.tsx) computes the very
 * same figures with the same code.
 */
module SalesStats {
  import opened Sales
  import opened Sorting

  /** The six figures the panel shows. Amounts are in cents. */
  datatype Stats = Stats(
    totalSales: nat,
    totalAmount: int,
    averageCheck: real,
    minValue: int,
    maxValue: int,
    medianValue: real)

  /** `sales.map(sale => sale.price)` */
  function Prices(sales: seq<Sale>): seq<int>
  {
    seq(|sales|, i requires 0 <= i < |sales| => sales[i].price)
  }

  /** The comparator `(a, b) => a - b` read as "a sorts no later than b". */
  function NumericLe(a: int, b: int): bool
  {
    a <= b
  }

  /** `Math.min(...xs)` on a non-empty list. */
  function MinOf(xs: seq<int>): (m: int)
    requires |xs| > 0
    ensures m in xs
    ensures forall i :: 0 <= i < |xs| ==> m <= xs[i]
  {
    if |xs| == 1 then xs[0]
    else
      var m := MinOf(xs[1..]);
      assert forall i :: 1 <= i < |xs| ==> xs[i] == xs[1..][i - 1];
      if xs[0] <= m then xs[0] else m
  }

  /** `Math.max(...xs)` on a non-empty list. */
  function MaxOf(xs: seq<int>): (m: int)
    requires |xs| > 0
    ensures m in xs
    ensures forall i :: 0 <= i < |xs| ==> xs[i] <= m
  {
    if |xs| == 1 then xs[0]
    else
      var m := MaxOf(xs[1..]);
      assert forall i :: 1 <= i < |xs| ==> xs[i] == xs[1..][i - 1];
      if m <= xs[0] then xs[0] else m
  }

  /** The least element is no greater than the greatest. */
  lemma {:induction false} MinBelowMax(xs: seq<int>)
    requires |xs| > 0
    ensures MinOf(xs) <= MaxOf(xs)
  {
    assert MinOf(xs) <= xs[0];
  }

  /** `[...prices].sort((a, b) => a - b)`: an ascending copy of the prices. */
  function SortedPrices(sales: seq<Sale>): (s: seq<int>)
    ensures Sorted(s, NumericLe) && multiset(s) == multiset(Prices(sales))
  {
    Sort(Prices(sales), NumericLe)
  }

  /** The middle element of an odd-length ascending list, the mean of the two middle ones of an even-length list. */
  function MiddleOf(s: seq<int>): real
    requires |s| > 0
  {
    var n := |s|;
    if n % 2 == 0 then (s[n / 2 - 1] + s[n / 2]) as real / 2.0 else s[n / 2] as real
  }

  /** `totalSales > 0 ? totalAmount / totalSales : 0`: the mean, or 0 when there is nothing to average. */
  function Average(total: int, n: nat): (a: real)
    ensures n > 0 ==> a * (n as real) == total as real
    ensures n == 0 ==> a == 0.0
  {
    if n > 0 then
      QuotientTimesDivisor(total as real, n as real);
      total as real / n as real
    else 0.0
  }

  /** The figures of the panel; every one of them is 0 when there are no sales. */
  function Summarize(sales: seq<Sale>): (st: Stats)
    ensures st.totalSales == |sales| && st.totalAmount == Total(sales)
    ensures |sales| == 0 ==> st == Stats(0, 0, 0.0, 0, 0, 0.0)
    ensures st.averageCheck == Average(st.totalAmount, st.totalSales)
  {
    var n := |sales|;
    var total := Total(sales);
    Stats(n, total, Average(total, n), LeastPrice(sales), GreatestPrice(sales), MedianPrice(sales))
  }

  /** `minValue`: `Math.min(...prices)`, or 0 when there are no sales. */
  function LeastPrice(sales: seq<Sale>): int
  {
    if |sales| == 0 then 0 else MinOf(Prices(sales))
  }

  /** `maxValue`: `Math.max(...prices)`, or 0 when there are no sales. */
  function GreatestPrice(sales: seq<Sale>): int
  {
    if |sales| == 0 then 0 else MaxOf(Prices(sales))
  }

  /** `medianValue`: the middle of the sorted copy, or 0 when there are no sales. */
  function MedianPrice(sales: seq<Sale>): real
  {
    if |sales| == 0 then 0.0 else MiddleOf(SortedPrices(sales))
  }

  /** On a non-empty list the minimum and the maximum are prices of the list, and every price lies between them. */
  lemma {:induction false} MinMaxAreExtremes(sales: seq<Sale>)
    requires |sales| > 0
    ensures Summarize(sales).minValue in Prices(sales) && Summarize(sales).maxValue in Prices(sales)
    ensures forall i :: 0 <= i < |sales| ==> Summarize(sales).minValue <= sales[i].price <= Summarize(sales).maxValue
  {
    var prices := Prices(sales);
    assert forall i :: 0 <= i < |sales| ==> prices[i] == sales[i].price;
  }

  /** The median lies between the minimum and the maximum; all three are 0 on an empty list. */
  lemma {:induction false} MedianWithinMinMax(sales: seq<Sale>)
    ensures Summarize(sales).minValue as real <= Summarize(sales).medianValue <= Summarize(sales).maxValue as real
  {
    if |sales| > 0 {
      MiddleWithin(SortedPrices(sales), Prices(sales));
    }
  }

  /**
   * The median is the middle of every ascending permutation of the prices,
   * so it does not depend on how the sorted copy was produced.
   */
  lemma {:induction false} MedianOfAnySort(sales: seq<Sale>, s: seq<int>)
    requires |sales| > 0
    requires Sorted(s, NumericLe) && multiset(s) == multiset(Prices(sales))
    ensures |s| == |sales|
    ensures Summarize(sales).medianValue == MiddleOf(s)
  {
    SortedPermutationUnique(SortedPrices(sales), s);
  }

  /** Three prices in any order have the middle one as median: 10, 30, 20 (or 10, 20, 30) give 20. */
  lemma {:induction false} MedianOfThree(sales: seq<Sale>, lo: int, mid: int, hi: int)
    requires lo <= mid <= hi
    requires multiset(Prices(sales)) == multiset([lo, mid, hi])
    ensures Summarize(sales).medianValue == mid as real
  {
    var s := [lo, mid, hi];
    AscendingThree(lo, mid, hi);
    MedianOfAnySort(sales, s);
    MiddleOfThree(s);
  }

  /** Two prices in either order have their mean as median: 30, 10 give 20. */
  lemma {:induction false} MedianOfTwo(sales: seq<Sale>, lo: int, hi: int)
    requires lo <= hi
    requires multiset(Prices(sales)) == multiset([lo, hi])
    ensures Summarize(sales).medianValue == (lo + hi) as real / 2.0
  {
    var s := [lo, hi];
    AscendingTwo(lo, hi);
    MedianOfAnySort(sales, s);
    MiddleOfTwo(s);
  }

  /** Four prices in any order have the mean of the two middle ones as median: 10, 20, 30, 40 give 25. */
  lemma {:induction false} MedianOfFour(sales: seq<Sale>, a: int, b: int, c: int, d: int)
    requires a <= b <= c <= d
    requires multiset(Prices(sales)) == multiset([a, b, c, d])
    ensures Summarize(sales).medianValue == (b + c) as real / 2.0
  {
    var s := [a, b, c, d];
    AscendingFour(a, b, c, d);
    MedianOfAnySort(sales, s);
    MiddleOfFour(s);
  }

  lemma AscendingThree(lo: int, mid: int, hi: int)
    requires lo <= mid <= hi
    ensures Sorted([lo, mid, hi], NumericLe)
  {
  }

  lemma AscendingFour(a: int, b: int, c: int, d: int)
    requires a <= b <= c <= d
    ensures Sorted([a, b, c, d], NumericLe)
  {
  }

  lemma AscendingTwo(lo: int, hi: int)
    requires lo <= hi
    ensures Sorted([lo, hi], NumericLe)
  {
  }

  lemma MiddleOfThree(s: seq<int>)
    requires |s| == 3
    ensures MiddleOf(s) == s[1] as real
  {
  }

  lemma MiddleOfFour(s: seq<int>)
    requires |s| == 4
    ensures MiddleOf(s) == (s[1] + s[2]) as real / 2.0
  {
  }

  lemma MiddleOfTwo(s: seq<int>)
    requires |s| == 2
    ensures MiddleOf(s) == (s[0] + s[1]) as real / 2.0
  {
  }

  /** Two ascending lists with the same elements are the same list. */
  lemma {:induction false} SortedPermutationUnique(a: seq<int>, b: seq<int>)
    requires Sorted(a, NumericLe) && Sorted(b, NumericLe) && multiset(a) == multiset(b)
    ensures a == b
    decreases |a|
  {
    assert |a| == |b| by { assert |multiset(a)| == |multiset(b)|; }
    if |a| > 0 {
      var n := |a|;
      LastAgree(a, b);
      MultisetDropLast(a);
      MultisetDropLast(b);
      SortedPermutationUnique(a[..n - 1], b[..n - 1]);
      assert a == a[..n - 1] + [a[n - 1]] && b == b[..n - 1] + [b[n - 1]];
    }
  }

  /** Two ascending lists with the same elements end with the same element. */
  lemma {:induction false} LastAgree(a: seq<int>, b: seq<int>)
    requires Sorted(a, NumericLe) && Sorted(b, NumericLe) && multiset(a) == multiset(b)
    requires |a| == |b| > 0
    ensures a[|a| - 1] == b[|b| - 1]
  {
    var n := |a|;
    assert a == a[..n - 1] + [a[n - 1]] && b == b[..n - 1] + [b[n - 1]];
    LastIsGreatest(a[..n - 1], a[n - 1], b);
    LastIsGreatest(b[..n - 1], b[n - 1], a);
  }

  lemma {:induction false} MultisetDropLast(a: seq<int>)
    requires |a| > 0
    ensures multiset(a[..|a| - 1]) == multiset(a) - multiset{a[|a| - 1]}
  {
    assert a == a[..|a| - 1] + [a[|a| - 1]];
  }

  /** The last element of an ascending list is at least every element of a list with the same elements. */
  lemma {:induction false} LastIsGreatest(s': seq<int>, last: int, other: seq<int>)
    requires Sorted(s' + [last], NumericLe) && multiset(s' + [last]) == multiset(other)
    requires |other| > 0
    ensures other[|other| - 1] <= last
  {
    var s := s' + [last];
    var v := other[|other| - 1];
    assert v in multiset(s) by { assert v in multiset(other); }
    var i :| 0 <= i < |s| && s[i] == v;
    if i < |s| - 1 {
      assert NumericLe(s[i], s[|s| - 1]);
    }
  }

  lemma {:induction false} QuotientTimesDivisor(t: real, n: real)
    requires n != 0.0
    ensures (t / n) * n == t
  {
  }

  /** The middle of an ascending permutation of `xs` lies between the least and the greatest element of `xs`. */
  lemma {:induction false} MiddleWithin(s: seq<int>, xs: seq<int>)
    requires |xs| > 0 && Sorted(s, NumericLe) && multiset(s) == multiset(xs)
    ensures MinOf(xs) as real <= MiddleOf(s) <= MaxOf(xs) as real
  {
    assert |s| == |xs| by { assert |multiset(s)| == |multiset(xs)|; }
    forall k | 0 <= k < |s| ensures MinOf(xs) <= s[k] <= MaxOf(xs) {
      assert s[k] in multiset(xs);
    }
  }

  /** How many of `xs` satisfy `p`. */
  function Count(xs: seq<int>, p: int -> bool): (c: nat)
    ensures c <= |xs|
  {
    if |xs| == 0 then 0 else Count(xs[..|xs| - 1], p) + (if p(xs[|xs| - 1]) then 1 else 0)
  }

  function Below(m: real): int -> bool
  {
    x => x as real < m
  }

  function Above(m: real): int -> bool
  {
    x => x as real > m
  }

  lemma {:induction false} CountAppend(xs: seq<int>, ys: seq<int>, p: int -> bool)
    ensures Count(xs + ys, p) == Count(xs, p) + Count(ys, p)
    decreases |ys|
  {
    if |ys| == 0 {
      assert xs + ys == xs;
    } else {
      var ys' := ys[..|ys| - 1];
      assert (xs + ys)[..|xs + ys| - 1] == xs + ys';
      CountAppend(xs, ys', p);
    }
  }

  /** Counting does not depend on the order of the list. */
  lemma {:induction false} CountPermutation(xs: seq<int>, ys: seq<int>, p: int -> bool)
    requires multiset(xs) == multiset(ys)
    ensures Count(xs, p) == Count(ys, p)
    decreases |xs|
  {
    if |xs| == 0 {
      assert |multiset(ys)| == 0;
    } else {
      var x := xs[|xs| - 1];
      var xs' := xs[..|xs| - 1];
      assert xs == xs' + [x];
      assert multiset(xs') == multiset(xs) - multiset{x};
      assert x in multiset(ys);
      var j :| 0 <= j < |ys| && ys[j] == x;
      RemoveAt(ys, j);
      CountPermutation(xs', ys[..j] + ys[j + 1..], p);
      CountRemoveAt(ys, j, p);
    }
  }

  lemma {:induction false} RemoveAt(ys: seq<int>, j: nat)
    requires j < |ys|
    ensures multiset(ys[..j] + ys[j + 1..]) == multiset(ys) - multiset{ys[j]}
  {
    assert ys == ys[..j] + [ys[j]] + ys[j + 1..];
  }

  lemma {:induction false} CountRemoveAt(ys: seq<int>, j: nat, p: int -> bool)
    requires j < |ys|
    ensures Count(ys, p) == Count(ys[..j] + ys[j + 1..], p) + (if p(ys[j]) then 1 else 0)
  {
    var a, b := ys[..j], ys[j + 1..];
    assert ys[..j + 1] + b == ys;
    assert ys[..j + 1][..j] == a;
    CountAppend(ys[..j + 1], b, p);
    CountAppend(a, b, p);
  }

  /** If no element from index `k` on satisfies `p`, at most `k` elements do. */
  lemma {:induction false} CountNoneAfter(s: seq<int>, k: nat, p: int -> bool)
    requires k <= |s|
    requires forall i :: k <= i < |s| ==> !p(s[i])
    ensures Count(s, p) <= k
  {
    assert s == s[..k] + s[k..];
    CountAppend(s[..k], s[k..], p);
    CountNone(s[k..], p);
  }

  /** If no element before index `k` satisfies `p`, at most `|s| - k` elements do. */
  lemma {:induction false} CountNoneBefore(s: seq<int>, k: nat, p: int -> bool)
    requires k <= |s|
    requires forall i :: 0 <= i < k ==> !p(s[i])
    ensures Count(s, p) <= |s| - k
  {
    assert s == s[..k] + s[k..];
    CountAppend(s[..k], s[k..], p);
    CountNone(s[..k], p);
  }

  lemma {:induction false} CountNone(s: seq<int>, p: int -> bool)
    requires forall i :: 0 <= i < |s| ==> !p(s[i])
    ensures Count(s, p) == 0
  {
    if |s| > 0 {
      CountNone(s[..|s| - 1], p);
    }
  }

  /**
   * The median splits the prices in half: at most half of them (rounded
   * down) lie strictly below it, and at most half strictly above it. This is
   * what makes the middle of the sorted copy a median, whatever sorting
   * routine produced that copy.
   */
  lemma {:induction false} MedianSplits(sales: seq<Sale>)
    requires |sales| > 0
    ensures Count(Prices(sales), Below(Summarize(sales).medianValue)) <= |sales| / 2
    ensures Count(Prices(sales), Above(Summarize(sales).medianValue)) <= |sales| / 2
  {
    var s := SortedPrices(sales);
    var m := Summarize(sales).medianValue;
    assert |s| == |sales| by { assert |multiset(s)| == |multiset(Prices(sales))|; }
    assert m == MiddleOf(s);
    CountPermutation(Prices(sales), s, Below(m));
    CountPermutation(Prices(sales), s, Above(m));
    MiddleSplits(s);
  }

  /** The middle of an ascending list has at most half the list strictly on either side. */
  lemma {:induction false} MiddleSplits(s: seq<int>)
    requires |s| > 0 && Sorted(s, NumericLe)
    ensures Count(s, Below(MiddleOf(s))) <= |s| / 2
    ensures Count(s, Above(MiddleOf(s))) <= |s| / 2
  {
    var n, m := |s|, MiddleOf(s);
    var h := n / 2;
    if n % 2 == 0 {
      assert NumericLe(s[h - 1], s[h]);
      forall i | h <= i < n ensures !Below(m)(s[i]) {
        assert NumericLe(s[h], s[i]);
      }
      forall i | 0 <= i < h ensures !Above(m)(s[i]) {
        assert NumericLe(s[i], s[h - 1]);
      }
      CountNoneAfter(s, h, Below(m));
      CountNoneBefore(s, h, Above(m));
    } else {
      forall i | h <= i < n ensures !Below(m)(s[i]) {
        assert NumericLe(s[h], s[i]);
      }
      forall i | 0 <= i <= h ensures !Above(m)(s[i]) {
        assert NumericLe(s[i], s[h]);
      }
      CountNoneAfter(s, h, Below(m));
      CountNoneBefore(s, h + 1, Above(m));
    }
  }
}
