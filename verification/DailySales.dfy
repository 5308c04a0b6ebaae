/**
 * The daily sales list (components/DailySales.tsx). Its only logic is the
 * deletion handler: when a sale has been deleted from the store, the list
 * held in the component's state is replaced by the list without it.
 */
module DailySales {
  import opened Sales

  /** `sales.filter(sale => sale.id !== deletedId)` */
  function WithoutId(sales: seq<Sale>, deletedId: string): (r: seq<Sale>)
    ensures forall i :: 0 <= i < |r| ==> r[i].id != deletedId
    ensures |r| <= |sales|
  {
    if |sales| == 0 then []
    else WithoutId(sales[..|sales| - 1], deletedId) + (if sales[|sales| - 1].id != deletedId then [sales[|sales| - 1]] else [])
  }

  /** The filter keeps input order: it maps a concatenation to the concatenation of the filtered parts. */
  lemma {:induction false} WithoutIdAppend(a: seq<Sale>, b: seq<Sale>, deletedId: string)
    ensures WithoutId(a + b, deletedId) == WithoutId(a, deletedId) + WithoutId(b, deletedId)
    decreases |b|
  {
    if |b| == 0 {
      assert a + b == a;
    } else {
      var b' := b[..|b| - 1];
      assert (a + b)[..|a + b| - 1] == a + b';
      WithoutIdAppend(a, b', deletedId);
    }
  }

  /** Every sale with another id is kept, as many times as it occurs; a sale with the deleted id is gone. */
  lemma {:induction false} WithoutIdMultiplicity(sales: seq<Sale>, deletedId: string, s: Sale)
    ensures multiset(WithoutId(sales, deletedId))[s] == if s.id == deletedId then 0 else multiset(sales)[s]
  {
    if |sales| > 0 {
      var p := sales[..|sales| - 1];
      assert sales == p + [sales[|sales| - 1]];
      WithoutIdMultiplicity(p, deletedId, s);
    }
  }

  /** Deleting an id that no sale has leaves the list unchanged. */
  lemma {:induction false} WithoutAbsentId(sales: seq<Sale>, deletedId: string)
    requires forall i :: 0 <= i < |sales| ==> sales[i].id != deletedId
    ensures WithoutId(sales, deletedId) == sales
  {
    if |sales| > 0 {
      WithoutAbsentId(sales[..|sales| - 1], deletedId);
      assert sales == sales[..|sales| - 1] + [sales[|sales| - 1]];
    }
  }

  /** Deleting the same id twice gives the same list as deleting it once. */
  lemma {:induction false} WithoutIdIdempotent(sales: seq<Sale>, deletedId: string)
    ensures WithoutId(WithoutId(sales, deletedId), deletedId) == WithoutId(sales, deletedId)
  {
    WithoutAbsentId(WithoutId(sales, deletedId), deletedId);
  }

  /** The component's list of sales. */
  class DailySales {
    var sales: seq<Sale>

    constructor ()
      ensures sales == []
    {
      sales := [];
    }

    /** `handleSaleDeleted`: the list becomes the old list without the sales of that id. */
    method HandleSaleDeleted(deletedId: string)
      modifies this
      ensures sales == WithoutId(old(sales), deletedId)
      ensures forall i :: 0 <= i < |sales| ==> sales[i].id != deletedId
    {
      sales := WithoutId(sales, deletedId);
    }
  }
}
