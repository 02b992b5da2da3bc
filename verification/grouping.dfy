/** Group-by-and-sum (`df.groupby(keys)[amount].sum()`), generic in the key.

    Rows are entries (key, amount). Grouping yields one entry per distinct
    key whose amount is the sum of every input amount with that key:
    duplicates are summed, never dropped. The order of the groups is left
    open (the data frame library sorts them; nothing downstream depends on it).
 */
module Grouping {
  import opened Tables

  datatype Entry<K> = Entry(key: K, amount: int)

  /** The sum of all amounts. */
  function Total<K>(es: seq<Entry<K>>): int
  {
    if es == [] then 0 else es[0].amount + Total(es[1..])
  }

  /** The sum of the amounts of the entries whose key is `k`. */
  function SumFor<K(==)>(es: seq<Entry<K>>, k: K): int
  {
    if es == [] then 0 else (if es[0].key == k then es[0].amount else 0) + SumFor(es[1..], k)
  }

  /** The keys that occur in `es`. */
  function Keys<K>(es: seq<Entry<K>>): set<K>
  {
    if es == [] then {} else {es[0].key} + Keys(es[1..])
  }

  /** No key occurs twice. */
  predicate DistinctKeys<K(==)>(es: seq<Entry<K>>)
  {
    es == [] || (es[0].key !in Keys(es[1..]) && DistinctKeys(es[1..]))
  }

  lemma {:induction false} KeysAt<K>(es: seq<Entry<K>>, k: K)
    ensures k in Keys(es) <==> exists i :: 0 <= i < |es| && es[i].key == k
  {
    if es != [] {
      KeysAt(es[1..], k);
      if exists i :: 0 <= i < |es[1..]| && es[1..][i].key == k {
        var i :| 0 <= i < |es[1..]| && es[1..][i].key == k;
        assert es[i + 1].key == k;
      }
      if exists i :: 0 <= i < |es| && es[i].key == k {
        var i :| 0 <= i < |es| && es[i].key == k;
        if i > 0 {
          assert es[1..][i - 1].key == k;
        }
      }
    }
  }

  lemma {:induction false} SumForAbsent<K>(es: seq<Entry<K>>, k: K)
    requires k !in Keys(es)
    ensures SumFor(es, k) == 0
  {
    if es != [] {
      SumForAbsent(es[1..], k);
    }
  }

  /** Folds one more entry into a grouped table. */
  function Add<K(==)>(g: seq<Entry<K>>, e: Entry<K>): (r: seq<Entry<K>>)
  {
    if g == [] then [e]
    else if g[0].key == e.key then [Entry(e.key, g[0].amount + e.amount)] + g[1..]
    else [g[0]] + Add(g[1..], e)
  }

  /** Adding an entry keeps the keys distinct, adds its key, and adds its
      amount to that key and to the total. */
  lemma {:induction false} AddSpec<K>(g: seq<Entry<K>>, e: Entry<K>)
    requires DistinctKeys(g)
    ensures DistinctKeys(Add(g, e))
    ensures Keys(Add(g, e)) == Keys(g) + {e.key}
    ensures Total(Add(g, e)) == Total(g) + e.amount
    ensures forall k :: SumFor(Add(g, e), k) == SumFor(g, k) + (if k == e.key then e.amount else 0)
  {
    var r := Add(g, e);
    if g == [] {
    } else if g[0].key == e.key {
      assert r[1..] == g[1..];
    } else {
      AddSpec(g[1..], e);
      assert r[1..] == Add(g[1..], e);
    }
  }

  /** One entry per distinct key, each holding the sum of that key's amounts. */
  function GroupSum<K(==,!new)>(es: seq<Entry<K>>): (r: seq<Entry<K>>)
    ensures DistinctKeys(r)
    ensures Keys(r) == Keys(es)
    ensures Total(r) == Total(es)
    ensures forall k :: SumFor(r, k) == SumFor(es, k)
  {
    if es == [] then []
    else
      AddSpec(GroupSum(es[1..]), es[0]);
      Add(GroupSum(es[1..]), es[0])
  }

  /** In a table with distinct keys, an entry's amount is everything filed under its key. */
  lemma {:induction false} DistinctEntryAmount<K>(g: seq<Entry<K>>, i: nat)
    requires DistinctKeys(g) && i < |g|
    ensures g[i].amount == SumFor(g, g[i].key)
  {
    if i == 0 {
      SumForAbsent(g[1..], g[0].key);
    } else {
      DistinctEntryAmount(g[1..], i - 1);
      KeysAt(g[1..], g[i].key);
      assert g[0].key != g[i].key;
    }
  }

  /** A table with distinct keys has exactly as many entries as keys. */
  lemma {:induction false} DistinctKeysCount<K>(g: seq<Entry<K>>)
    requires DistinctKeys(g)
    ensures |Keys(g)| == |g|
  {
    if g != [] {
      DistinctKeysCount(g[1..]);
    }
  }

  /** The grouped table: exactly one row per distinct input key, each row the
      sum of all input amounts with that key, and nothing gained or lost overall. */
  lemma GroupSumSpec<K(!new)>(es: seq<Entry<K>>)
    ensures |GroupSum(es)| == |Keys(es)|
    ensures forall k :: k in Keys(es) <==> exists i :: 0 <= i < |GroupSum(es)| && GroupSum(es)[i].key == k
    ensures forall i :: 0 <= i < |GroupSum(es)| ==> GroupSum(es)[i].amount == SumFor(es, GroupSum(es)[i].key)
    ensures Total(GroupSum(es)) == Total(es)
  {
    var g := GroupSum(es);
    DistinctKeysCount(g);
    forall i | 0 <= i < |g|
      ensures g[i].amount == SumFor(es, g[i].key)
    {
      DistinctEntryAmount(g, i);
    }
    forall k
      ensures k in Keys(es) <==> exists i :: 0 <= i < |g| && g[i].key == k
    {
      KeysAt(g, k);
    }
  }

  /** The total of entries carrying the amounts `xs` is the sum of `xs`. */
  lemma {:induction false} TotalOfAmounts<K>(es: seq<Entry<K>>, xs: seq<int>)
    requires |es| == |xs|
    requires forall j :: 0 <= j < |es| ==> es[j].amount == xs[j]
    ensures Total(es) == Sum(xs)
  {
    if es != [] {
      TotalOfAmounts(es[1..], xs[1..]);
    }
  }
}
