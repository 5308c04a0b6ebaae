/**
 * The sale record (lib/types.ts) and the sums that every report in the
 * application takes over a list of sales.
 *
 * Prices are whole numbers of cents: the application reads them as
 * two-decimal amounts, and with cents every sum, average and comparison
 * below is exact.
 */
module Sales {

  datatype Option<+T> = None | Some(value: T)

  /** One recorded sale. `orderId` and `comment` may be absent (null or undefined). */
  datatype Sale = Sale(
    orderId: Option<string>,
    id: string,
    price: int,
    comment: Option<string>,
    date: string,
    createdAt: string)

  function PriceOf(s: Sale): int { s.price }

  function DateOf(s: Sale): string { s.date }

  /** The weight that turns a sum into a count. */
  function One(s: Sale): int { 1 }

  /** `xs.reduce((sum, x) => sum + w(x), 0)`: the left-to-right sum of `w` over `xs`. */
  function SumBy<T>(xs: seq<T>, w: T -> int): int
  {
    if |xs| == 0 then 0 else SumBy(xs[..|xs| - 1], w) + w(xs[|xs| - 1])
  }

  /** The total amount of a list of sales. */
  function Total(xs: seq<Sale>): int
  {
    SumBy(xs, PriceOf)
  }

  /** A sum over two lists laid end to end is the sum of the two sums. */
  lemma {:induction false} SumByAppend<T>(xs: seq<T>, ys: seq<T>, w: T -> int)
    ensures SumBy(xs + ys, w) == SumBy(xs, w) + SumBy(ys, w)
    decreases |ys|
  {
    if |ys| > 0 {
      var ys' := ys[..|ys| - 1];
      assert (xs + ys)[..|xs + ys| - 1] == xs + ys';
      SumByAppend(xs, ys', w);
    } else {
      assert xs + ys == xs;
    }
  }

  /** The first `i + 1` elements are the first `i` followed by element `i`. */
  lemma TakeSnoc<T>(xs: seq<T>, i: nat)
    requires i < |xs|
    ensures xs[..i + 1] == xs[..i] + [xs[i]]
  {
  }

  /** Counting with weight one gives the length. */
  lemma {:induction false} SumByOneIsLength(xs: seq<Sale>)
    ensures SumBy(xs, One) == |xs|
  {
    if |xs| > 0 {
      SumByOneIsLength(xs[..|xs| - 1]);
    }
  }
}
