/**
 * Grouping sales by a key, the pattern every report uses: a record keyed by
 * date (or price range, or hour) is filled in one pass over the sales, each
 * sale landing in the entry of its own key.
 */
module Grouping {
  import opened Sales
  import opened Sorting
  import opened Lex

  /** The set of keys the sales carry. */
  ghost function KeySet<K>(xs: seq<Sale>, key: Sale -> K): set<K>
  {
    set x | x in xs :: key(x)
  }

  /**
   * The keys in order of first appearance: what `Object.keys` returns for a
   * record filled in input order when no key is integer-like. ISO dates and
   * `start-end` range keys are not; `Object.keys` would list integer-like
   * keys first, in ascending order.
   */
  function KeysInOrder<K(==)>(xs: seq<Sale>, key: Sale -> K): (ks: seq<K>)
    ensures Distinct(ks)
    ensures forall i :: 0 <= i < |ks| ==> ks[i] in KeySet(xs, key)
    ensures forall i :: 0 <= i < |xs| ==> key(xs[i]) in ks
    ensures |ks| <= |xs|
    ensures |ks| == 0 <==> |xs| == 0
  {
    if |xs| == 0 then []
    else
      var p := xs[..|xs| - 1];
      var ks := KeysInOrder(p, key);
      assert xs == p + [xs[|xs| - 1]];
      assert KeySet(xs, key) == KeySet(p, key) + {key(xs[|xs| - 1])};
      if key(xs[|xs| - 1]) in ks then ks else ks + [key(xs[|xs| - 1])]
  }

  /** The sales whose key is `k`, in input order: the list the record holds under `k`. */
  function Group<K(==)>(xs: seq<Sale>, key: Sale -> K, k: K): (g: seq<Sale>)
    ensures |g| <= |xs|
    ensures forall i :: 0 <= i < |g| ==> key(g[i]) == k
  {
    if |xs| == 0 then []
    else Group(xs[..|xs| - 1], key, k) + (if key(xs[|xs| - 1]) == k then [xs[|xs| - 1]] else [])
  }

  /** One more sale joins the group of its own key and no other. */
  lemma {:induction false} GroupSnoc<K>(xs: seq<Sale>, x: Sale, key: Sale -> K, k: K)
    ensures Group(xs + [x], key, k) == Group(xs, key, k) + (if key(x) == k then [x] else [])
  {
    assert (xs + [x])[..|xs + [x]| - 1] == xs;
  }

  /** One more sale adds its weight to the sum of its own key's group and leaves the others alone. */
  lemma {:induction false} GroupSumSnoc<K>(xs: seq<Sale>, x: Sale, key: Sale -> K, k: K, w: Sale -> int)
    ensures SumBy(Group(xs + [x], key, k), w) == SumBy(Group(xs, key, k), w) + (if key(x) == k then w(x) else 0)
  {
    GroupSnoc(xs, x, key, k);
    var g := Group(xs, key, k);
    if key(x) == k {
      assert (g + [x])[..|g + [x]| - 1] == g;
    } else {
      assert g + [] == g;
    }
  }

  /** One more sale appends its key to the keys in order, unless the key was already seen. */
  lemma {:induction false} KeysInOrderSnoc<K>(xs: seq<Sale>, x: Sale, key: Sale -> K)
    ensures KeysInOrder(xs + [x], key) == if key(x) in KeysInOrder(xs, key) then KeysInOrder(xs, key) else KeysInOrder(xs, key) + [key(x)]
  {
    assert (xs + [x])[..|xs + [x]| - 1] == xs;
  }

  /** A key is among the keys in order exactly when some sale carries it. */
  lemma {:induction false} KeysInOrderMembership<K>(xs: seq<Sale>, key: Sale -> K, k: K)
    ensures k in KeysInOrder(xs, key) <==> k in KeySet(xs, key)
  {
    var ks := KeysInOrder(xs, key);
    if k in KeySet(xs, key) {
      var x :| x in xs && key(x) == k;
      var i :| 0 <= i < |xs| && xs[i] == x;
    }
  }

  /** A key that no sale carries has an empty group. */
  lemma {:induction false} GroupOfAbsentKey<K>(xs: seq<Sale>, key: Sale -> K, k: K)
    requires k !in KeySet(xs, key)
    ensures Group(xs, key, k) == []
  {
    if |xs| > 0 {
      var p := xs[..|xs| - 1];
      assert xs == p + [xs[|xs| - 1]];
      KeySetSnoc(p, xs[|xs| - 1], key);
      GroupOfAbsentKey(p, key, k);
    }
  }

  /** One more sale adds its key to the key set. */
  lemma {:induction false} KeySetSnoc<K>(xs: seq<Sale>, x: Sale, key: Sale -> K)
    ensures KeySet(xs + [x], key) == KeySet(xs, key) + {key(x)}
  {
  }

  /** Grouping keeps input order: the group of a concatenation is the concatenation of the groups. */
  lemma {:induction false} GroupAppend<K>(xs: seq<Sale>, ys: seq<Sale>, key: Sale -> K, k: K)
    ensures Group(xs + ys, key, k) == Group(xs, key, k) + Group(ys, key, k)
    decreases |ys|
  {
    if |ys| == 0 {
      assert xs + ys == xs;
    } else {
      var ys' := ys[..|ys| - 1];
      assert (xs + ys)[..|xs + ys| - 1] == xs + ys';
      GroupAppend(xs, ys', key, k);
    }
  }

  /** A group holds every sale of its key as often as the input does, and nothing else. */
  lemma {:induction false} GroupMultiplicity<K>(xs: seq<Sale>, key: Sale -> K, k: K, x: Sale)
    ensures multiset(Group(xs, key, k))[x] == if key(x) == k then multiset(xs)[x] else 0
  {
    if |xs| > 0 {
      var p := xs[..|xs| - 1];
      assert xs == p + [xs[|xs| - 1]];
      GroupMultiplicity(p, key, k, x);
    }
  }

  /** A key that some sale carries has a non-empty group. */
  lemma {:induction false} GroupNonEmpty<K>(xs: seq<Sale>, key: Sale -> K, k: K)
    requires k in KeySet(xs, key)
    ensures |Group(xs, key, k)| >= 1
  {
    var x :| x in xs && key(x) == k;
    GroupMultiplicity(xs, key, k, x);
    assert x in multiset(Group(xs, key, k));
  }

  /** The sum of `w` over each key's group, added up over the keys `ks`. */
  function SumOverKeys<K(==)>(ks: seq<K>, xs: seq<Sale>, key: Sale -> K, w: Sale -> int): int
  {
    if |ks| == 0 then 0
    else SumOverKeys(ks[..|ks| - 1], xs, key, w) + SumBy(Group(xs, key, ks[|ks| - 1]), w)
  }

  /** One more sale adds its weight to exactly one key's sum, if its key is among `ks`. */
  lemma {:induction false} SumOverKeysSnoc<K>(ks: seq<K>, xs: seq<Sale>, x: Sale, key: Sale -> K, w: Sale -> int)
    requires Distinct(ks)
    ensures SumOverKeys(ks, xs + [x], key, w) == SumOverKeys(ks, xs, key, w) + (if key(x) in ks then w(x) else 0)
  {
    if |ks| > 0 {
      var p := ks[..|ks| - 1];
      var k := ks[|ks| - 1];
      assert ks == p + [k];
      assert (xs + [x])[..|xs + [x]| - 1] == xs;
      assert Distinct(p);
      SumOverKeysSnoc(p, xs, x, key, w);
      var g := Group(xs, key, k);
      assert Group(xs + [x], key, k) == g + (if key(x) == k then [x] else []);
      if key(x) == k {
        assert (g + [x])[..|g + [x]| - 1] == g;
        assert SumBy(g + [x], w) == SumBy(g, w) + w(x);
      } else {
        assert g + [] == g;
      }
      assert key(x) in ks <==> key(x) in p || key(x) == k;
      assert key(x) == k ==> key(x) !in p by {
        forall i | 0 <= i < |p| ensures p[i] != k {
          assert p[i] == ks[i];
        }
      }
    }
  }

  /**
   * Partition: when the keys `ks` are distinct and cover every sale, the
   * per-key sums add up to the sum over all the sales. Each sale is counted
   * in exactly one group.
   */
  lemma {:induction false} Partition<K>(ks: seq<K>, xs: seq<Sale>, key: Sale -> K, w: Sale -> int)
    requires Distinct(ks)
    requires forall i :: 0 <= i < |xs| ==> key(xs[i]) in ks
    ensures SumOverKeys(ks, xs, key, w) == SumBy(xs, w)
    decreases |xs|
  {
    if |xs| == 0 {
      EmptyGroups(ks, key, w);
    } else {
      var p := xs[..|xs| - 1];
      assert xs == p + [xs[|xs| - 1]];
      Partition(ks, p, key, w);
      SumOverKeysSnoc(ks, p, xs[|xs| - 1], key, w);
    }
  }

  lemma {:induction false} EmptyGroups<K>(ks: seq<K>, key: Sale -> K, w: Sale -> int)
    ensures SumOverKeys(ks, [], key, w) == 0
  {
    if |ks| > 0 {
      EmptyGroups(ks[..|ks| - 1], key, w);
    }
  }

  /** A permutation of distinct keys gives the same total, so the order the keys are visited in does not matter. */
  lemma {:induction false} SumOverKeysPermutation<K>(ks: seq<K>, ks': seq<K>, xs: seq<Sale>, key: Sale -> K, w: Sale -> int)
    requires Distinct(ks) && Distinct(ks')
    requires forall k :: k in ks <==> k in ks'
    requires forall i :: 0 <= i < |xs| ==> key(xs[i]) in ks
    ensures SumOverKeys(ks, xs, key, w) == SumOverKeys(ks', xs, key, w)
  {
    Partition(ks, xs, key, w);
    Partition(ks', xs, key, w);
  }

  /** The keys of a list without repeats, as a set, have as many elements as the list. */
  lemma {:induction false} DistinctCardinality<K>(ks: seq<K>)
    requires Distinct(ks)
    ensures |set k | k in ks| == |ks|
  {
    if |ks| > 0 {
      var p := ks[..|ks| - 1];
      DistinctCardinality(p);
      forall i | 0 <= i < |p| ensures p[i] != ks[|ks| - 1] {
        assert p[i] == ks[i];
      }
      assert (set k | k in ks) == (set k | k in p) + {ks[|ks| - 1]} by {
        assert ks == p + [ks[|ks| - 1]];
      }
    }
  }

  /** A key's running record in a one-pass report: how many sales it has seen and the sum of their prices. */
  datatype Tally = Tally(count: nat, total: int)

  /** The record of key `k` once the sales `xs` have been seen. */
  function TallyOf<K(==)>(xs: seq<Sale>, key: Sale -> K, k: K): Tally
  {
    var g := Group(xs, key, k);
    Tally(|g|, Total(g))
  }

  /**
   * `m` holds, under each key some sale of `xs` carries, that key's record;
   * `keys` lists the keys in order of first appearance (`Object.values` order).
   */
  ghost predicate IsTally<K(!new)>(m: map<K, Tally>, keys: seq<K>, xs: seq<Sale>, key: Sale -> K)
  {
    && keys == KeysInOrder(xs, key)
    && m.Keys == KeySet(xs, key)
    && forall k :: k in m ==> m[k] == TallyOf(xs, key, k)
  }

  /** The record update of one sale: an absent key starts at zero, then its count grows by one and its total by the price. */
  function Bump<K>(m: map<K, Tally>, k: K, price: int): map<K, Tally>
  {
    var t := if k in m then m[k] else Tally(0, 0);
    m[k := Tally(t.count + 1, t.total + price)]
  }

  /** One more sale changes the record of its own key only: one more sale, its price more. */
  lemma {:induction false} TallyOfSnoc<K>(xs: seq<Sale>, x: Sale, key: Sale -> K, k: K)
    ensures TallyOf(xs + [x], key, k)
         == if key(x) == k then Tally(TallyOf(xs, key, k).count + 1, TallyOf(xs, key, k).total + x.price)
            else TallyOf(xs, key, k)
  {
    GroupSnoc(xs, x, key, k);
    GroupSumSnoc(xs, x, key, k, PriceOf);
  }

  /** Recording one more sale keeps `m` the record of the longer input. */
  lemma {:induction false} TallyStep<K(!new)>(m: map<K, Tally>, keys: seq<K>, xs: seq<Sale>, x: Sale, key: Sale -> K)
    requires IsTally(m, keys, xs, key)
    ensures IsTally(Bump(m, key(x), x.price), if key(x) in m then keys else keys + [key(x)], xs + [x], key)
  {
    BumpKeys(m, keys, xs, x, key);
    BumpEntries(m, xs, x, key);
  }

  /** The keys of the bumped record, in first-seen order and as a set, are those of the longer input; a new key had no sales. */
  lemma {:induction false} BumpKeys<K(!new)>(m: map<K, Tally>, keys: seq<K>, xs: seq<Sale>, x: Sale, key: Sale -> K)
    requires keys == KeysInOrder(xs, key) && m.Keys == KeySet(xs, key)
    ensures (if key(x) in m then keys else keys + [key(x)]) == KeysInOrder(xs + [x], key)
    ensures Bump(m, key(x), x.price).Keys == KeySet(xs + [x], key)
    ensures key(x) !in m ==> TallyOf(xs, key, key(x)) == Tally(0, 0)
  {
    KeysInOrderSnoc(xs, x, key);
    KeysInOrderMembership(xs, key, key(x));
    KeySetSnoc(xs, x, key);
    if key(x) !in m {
      GroupOfAbsentKey(xs, key, key(x));
    }
    BumpKeySet(m, key(x), x.price);
  }

  /** Storing under a key adds that key to the map's keys and no other. */
  lemma UpdateKeys<K, V>(m: map<K, V>, k: K, v: V)
    ensures m[k := v].Keys == m.Keys + {k}
  {
  }

  /** Bumping a key adds it to the record's keys and no other. */
  lemma BumpKeySet<K>(m: map<K, Tally>, k: K, price: int)
    ensures Bump(m, k, price).Keys == m.Keys + {k}
  {
  }

  /** The entries of the bumped record are the records of the longer input. */
  lemma {:induction false} BumpEntries<K(!new)>(m: map<K, Tally>, xs: seq<Sale>, x: Sale, key: Sale -> K)
    requires forall k :: k in m ==> m[k] == TallyOf(xs, key, k)
    requires key(x) !in m ==> TallyOf(xs, key, key(x)) == Tally(0, 0)
    ensures forall k :: k in Bump(m, key(x), x.price) ==> Bump(m, key(x), x.price)[k] == TallyOf(xs + [x], key, k)
  {
    var m' := Bump(m, key(x), x.price);
    forall k | k in m'
      ensures m'[k] == TallyOf(xs + [x], key, k)
    {
      TallyOfSnoc(xs, x, key, k);
    }
  }

  /** The loop form of `TallyStep`: recording `xs[i]` after `xs[..i]`. */
  lemma {:induction false} TallyStepAt<K(!new)>(xs: seq<Sale>, m: map<K, Tally>, keys: seq<K>, i: nat, key: Sale -> K)
    requires i < |xs|
    requires IsTally(m, keys, xs[..i], key)
    ensures IsTally(Bump(m, key(xs[i]), xs[i].price), if key(xs[i]) in m then keys else keys + [key(xs[i])], xs[..i + 1], key)
  {
    TakeSnoc(xs, i);
    TallyStep(m, keys, xs[..i], xs[i], key);
  }

  /** Every key listed in the record has an entry there, over at least one sale. */
  lemma {:induction false} TallyLookup<K(!new)>(m: map<K, Tally>, keys: seq<K>, xs: seq<Sale>, key: Sale -> K, ks: seq<K>)
    requires IsTally(m, keys, xs, key)
    requires forall i :: 0 <= i < |ks| ==> ks[i] in keys
    ensures forall i :: 0 <= i < |ks| ==> ks[i] in KeySet(xs, key)
    ensures forall i :: 0 <= i < |ks| ==> ks[i] in m && m[ks[i]] == TallyOf(xs, key, ks[i]) && m[ks[i]].count >= 1
  {
    forall i | 0 <= i < |ks|
      ensures ks[i] in KeySet(xs, key)
    {
      KeysInOrderMembership(xs, key, ks[i]);
    }
    forall i | 0 <= i < |ks|
      ensures m[ks[i]].count >= 1
    {
      GroupNonEmpty(xs, key, ks[i]);
    }
  }

  /** Counts and totals over distinct keys that cover every sale add up to the number of sales and their total. */
  lemma {:induction false} TallyPartition<K>(ks: seq<K>, xs: seq<Sale>, key: Sale -> K)
    requires Distinct(ks)
    requires forall i :: 0 <= i < |xs| ==> key(xs[i]) in ks
    ensures SumOverKeys(ks, xs, key, One) == |xs|
    ensures SumOverKeys(ks, xs, key, PriceOf) == Total(xs)
  {
    Partition(ks, xs, key, One);
    Partition(ks, xs, key, PriceOf);
    SumByOneIsLength(xs);
  }

  /** The dates of the sales, each once, in ascending string order: `Object.keys(byDate).sort()` on a record keyed by date. */
  function SortedDates(sales: seq<Sale>): (ds: seq<string>)
    ensures forall i, j :: 0 <= i < j < |ds| ==> Less(ds[i], ds[j])
    ensures Distinct(ds)
    ensures forall i :: 0 <= i < |ds| ==> ds[i] in KeySet(sales, DateOf)
    ensures forall i :: 0 <= i < |sales| ==> sales[i].date in ds
    ensures |ds| <= |sales| && (|ds| == 0 <==> |sales| == 0)
  {
    var keys := KeysInOrder(sales, DateOf);
    SortStrings(keys);
    Sort(keys, LessEq)
  }
}
