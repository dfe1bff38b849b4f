/** The `groupby(key)[amount].sum()`, `sort_values` and `head` building blocks of the
    reporting layer, over (key, amount) pairs. */
module Grouping {

  /** One (key, amount) pair fed to a group-by, or one row of its result. */
  datatype Entry<K> = Entry(key: K, amount: real)

  /** `.sum()` of the amount column: 0 for no rows, and never negative when no amount is. */
  function Total<K>(es: seq<Entry<K>>): (t: real)
    ensures es == [] ==> t == 0.0
    ensures (forall e :: e in es ==> e.amount >= 0.0) ==> t >= 0.0
  {
    if es == [] then 0.0
    else
      assert forall e :: e in es[1..] ==> e in es;
      es[0].amount + Total(es[1..])
  }

  /** The group total of key `k`: the sum of the amounts whose key is `k`. */
  function TotalFor<K(==)>(es: seq<Entry<K>>, k: K): real
  {
    if es == [] then 0.0
    else (if es[0].key == k then es[0].amount else 0.0) + TotalFor(es[1..], k)
  }

  /** The keys that occur in `es`. */
  function KeySet<K(==)>(es: seq<Entry<K>>): (ks: set<K>)
    ensures forall i :: 0 <= i < |es| ==> es[i].key in ks
    ensures forall k :: k in ks ==> exists i :: 0 <= i < |es| && es[i].key == k
  {
    if es == [] then {}
    else
      var rest := KeySet(es[1..]);
      assert forall i :: 1 <= i < |es| ==> es[i] == es[1..][i - 1];
      {es[0].key} + rest
  }

  predicate Distinct<K(==)>(ks: seq<K>) {
    forall i, j :: 0 <= i < j < |ks| ==> ks[i] != ks[j]
  }

  /** The group keys of a `groupby` whose order is left open: each key of `es` exactly once. */
  function DistinctKeys<K(==)>(es: seq<Entry<K>>): (ks: seq<K>)
    ensures Distinct(ks)
    ensures forall k :: k in ks ==> k in KeySet(es)
    ensures forall k :: k in KeySet(es) ==> k in ks
  {
    if es == [] then []
    else
      var rest := DistinctKeys(es[1..]);
      if es[0].key in rest then rest else [es[0].key] + rest
  }

  predicate StrictlyAscending(ks: seq<int>) {
    forall i, j :: 0 <= i < j < |ks| ==> ks[i] < ks[j]
  }

  /** Inserts `k` into an ascending key list unless it is already there. */
  function InsertKey(k: int, ks: seq<int>): (r: seq<int>)
    requires StrictlyAscending(ks)
    ensures StrictlyAscending(r)
    ensures forall x :: x in r <==> x == k || x in ks
  {
    if ks == [] then [k]
    else if k < ks[0] then [k] + ks
    else if k == ks[0] then ks
    else
      var rest := InsertKey(k, ks[1..]);
      assert forall x :: x in ks[1..] ==> ks[0] < x;
      assert forall j :: 0 <= j < |rest| ==> ks[0] < rest[j] by {
        forall j | 0 <= j < |rest| ensures ks[0] < rest[j] {
          assert rest[j] in rest;
        }
      }
      [ks[0]] + rest
  }

  /** The group keys of a `groupby` on integer keys with pandas' default `sort=True`. */
  function AscendingKeys(es: seq<Entry<int>>): (ks: seq<int>)
    ensures StrictlyAscending(ks)
    ensures forall k :: k in ks ==> k in KeySet(es)
    ensures forall k :: k in KeySet(es) ==> k in ks
  {
    if es == [] then [] else InsertKey(es[0].key, AscendingKeys(es[1..]))
  }

  /** The result of a group-by sum: one row per key of `ks`, in the order of `ks`. */
  function GroupTotals<K(==)>(es: seq<Entry<K>>, ks: seq<K>): (g: seq<Entry<K>>)
    ensures |g| == |ks|
    ensures forall i :: 0 <= i < |ks| ==> g[i] == Entry(ks[i], TotalFor(es, ks[i]))
  {
    if ks == [] then [] else [Entry(ks[0], TotalFor(es, ks[0]))] + GroupTotals(es, ks[1..])
  }

  /** The amount of `e`, counted once for every occurrence of its key in `ks`. */
  function Hits<K(==)>(ks: seq<K>, e: Entry<K>): real
  {
    if ks == [] then 0.0 else (if ks[0] == e.key then e.amount else 0.0) + Hits(ks[1..], e)
  }

  lemma {:induction false} HitsAbsent<K>(ks: seq<K>, e: Entry<K>)
    requires e.key !in ks
    ensures Hits(ks, e) == 0.0
  {
    if ks != [] {
      HitsAbsent(ks[1..], e);
    }
  }

  lemma {:induction false} HitsOnce<K>(ks: seq<K>, e: Entry<K>)
    requires Distinct(ks) && e.key in ks
    ensures Hits(ks, e) == e.amount
  {
    if ks[0] == e.key {
      assert e.key !in ks[1..] by {
        forall j | 0 <= j < |ks[1..]| ensures ks[1..][j] != e.key {
          assert ks[1..][j] == ks[j + 1];
        }
      }
      HitsAbsent(ks[1..], e);
    } else {
      HitsOnce(ks[1..], e);
    }
  }

  /** Peeling the first entry off the input of a group-by sum. */
  lemma {:induction false} GroupTotalsHead<K>(es: seq<Entry<K>>, ks: seq<K>)
    requires es != []
    ensures Total(GroupTotals(es, ks)) == Hits(ks, es[0]) + Total(GroupTotals(es[1..], ks))
  {
    if ks != [] {
      GroupTotalsHead(es, ks[1..]);
    }
  }

  /** Partition identity: the group totals over keys that cover every entry once add up to the
      total of the ungrouped column. */
  lemma {:induction false} GroupTotalsSum<K>(es: seq<Entry<K>>, ks: seq<K>)
    requires Distinct(ks)
    requires forall i :: 0 <= i < |es| ==> es[i].key in ks
    ensures Total(GroupTotals(es, ks)) == Total(es)
  {
    if es == [] {
      GroupTotalsEmpty(ks);
    } else {
      GroupTotalsHead(es, ks);
      HitsOnce(ks, es[0]);
      assert forall i :: 0 <= i < |es[1..]| ==> es[1..][i] == es[i + 1];
      GroupTotalsSum(es[1..], ks);
    }
  }

  lemma {:induction false} GroupTotalsEmpty<K>(ks: seq<K>)
    ensures Total(GroupTotals([], ks)) == 0.0
  {
    if ks != [] {
      GroupTotalsEmpty(ks[1..]);
    }
  }

  predicate NonIncreasing<K>(g: seq<Entry<K>>) {
    forall i, j :: 0 <= i < j < |g| ==> g[i].amount >= g[j].amount
  }

  /** Every row of a permutation of `g[1..]` plus a smaller `e` is bounded by `g[0]`. */
  lemma BelowHead<K>(e: Entry<K>, g: seq<Entry<K>>, rest: seq<Entry<K>>)
    requires g != [] && NonIncreasing(g) && e.amount < g[0].amount
    requires multiset(rest) == multiset(g[1..]) + multiset{e}
    ensures forall j :: 0 <= j < |rest| ==> rest[j].amount <= g[0].amount
  {
    forall j | 0 <= j < |rest| ensures rest[j].amount <= g[0].amount {
      assert rest[j] in multiset(rest);
      if rest[j] != e {
        assert rest[j] in multiset(g[1..]);
        var i :| 0 <= i < |g[1..]| && g[1..][i] == rest[j];
        assert g[i + 1] == rest[j];
      }
    }
  }

  /** Inserts `e` into a list ordered by non-increasing amount. */
  function InsertByAmount<K(==)>(e: Entry<K>, g: seq<Entry<K>>): (r: seq<Entry<K>>)
    requires NonIncreasing(g)
    ensures NonIncreasing(r)
    ensures multiset(r) == multiset(g) + multiset{e}
  {
    if g == [] then [e]
    else if e.amount >= g[0].amount then [e] + g
    else
      var rest := InsertByAmount(e, g[1..]);
      BelowHead(e, g, rest);
      assert multiset(g) == multiset{g[0]} + multiset(g[1..]) by {
        assert g == [g[0]] + g[1..];
      }
      assert multiset([g[0]] + rest) == multiset{g[0]} + multiset(rest);
      [g[0]] + rest
  }

  /** `sort_values(amount, ascending=False)`: a permutation in non-increasing amount order
      (the order among equal amounts is not specified by pandas and is not promised here). */
  function SortByAmountDesc<K(==)>(g: seq<Entry<K>>): (r: seq<Entry<K>>)
    ensures NonIncreasing(r)
    ensures multiset(r) == multiset(g)
  {
    if g == [] then []
    else
      assert g == [g[0]] + g[1..];
      InsertByAmount(g[0], SortByAmountDesc(g[1..]))
  }

  /** `head(n)`: the first `n` rows, or all of them when there are fewer. */
  function Head<K>(g: seq<Entry<K>>, n: nat): (r: seq<Entry<K>>)
    ensures |r| == if |g| <= n then |g| else n
    ensures r == g[..|r|]
  {
    if |g| <= n then g else g[..n]
  }

  /** `g` is the group-by sum of `es`: one row per key of `es`, each holding its group's total. */
  predicate GroupSumOf<K(==)>(g: seq<Entry<K>>, es: seq<Entry<K>>) {
    && (forall i, j :: 0 <= i < j < |g| ==> g[i].key != g[j].key)
    && (forall i :: 0 <= i < |g| ==> g[i].key in KeySet(es) && g[i].amount == TotalFor(es, g[i].key))
    && (forall k :: k in KeySet(es) ==> exists i :: 0 <= i < |g| && g[i].key == k)
  }

  /** `groupby(key)[amount].sum()` with its rows in the order of `ks`, a list of the keys of
      `es`, each once. */
  function GroupBy<K(==)>(es: seq<Entry<K>>, ks: seq<K>): (g: seq<Entry<K>>)
    requires Distinct(ks)
    requires forall k :: k in ks ==> k in KeySet(es)
    requires forall k :: k in KeySet(es) ==> k in ks
    ensures GroupSumOf(g, es)
    ensures Total(g) == Total(es)
    ensures |g| == |ks| && forall i :: 0 <= i < |g| ==> g[i].key == ks[i]
  {
    var g := GroupTotals(es, ks);
    GroupTotalsCover(es, ks, g);
    GroupTotalsSum(es, ks);
    g
  }

  /** Every key of `ks` has its row among the group totals `g`. */
  lemma GroupTotalsCover<K>(es: seq<Entry<K>>, ks: seq<K>, g: seq<Entry<K>>)
    requires g == GroupTotals(es, ks)
    ensures forall k :: k in ks ==> exists i :: 0 <= i < |g| && g[i].key == k
  {
    forall k | k in ks ensures exists i :: 0 <= i < |g| && g[i].key == k {
      var i :| 0 <= i < |ks| && ks[i] == k;
      assert g[i].key == k;
    }
  }

  /** A permutation has the same members. */
  lemma SameMembers<K>(a: seq<Entry<K>>, b: seq<Entry<K>>)
    requires multiset(a) == multiset(b)
    ensures forall e :: e in a ==> e in b
  {
    forall e | e in a ensures e in b {
      assert e in multiset(a);
    }
  }

  /** In a non-increasing list, a row outside the first `n` is no larger than any row inside. */
  lemma {:induction false} PrefixDominates<K>(sorted: seq<Entry<K>>, n: nat, x: Entry<K>, e: Entry<K>)
    requires NonIncreasing(sorted)
    requires x in sorted && x !in Head(sorted, n) && e in Head(sorted, n)
    ensures x.amount <= e.amount
  {
    var top := Head(sorted, n);
    var j :| 0 <= j < |sorted| && sorted[j] == x;
    var i :| 0 <= i < |top| && top[i] == e;
    assert forall k :: 0 <= k < |top| ==> top[k] == sorted[k];
    assert j >= |top|;
    assert sorted[i] == e;
  }

  /** `head(n)` takes each row at most as often as the list holds it. */
  lemma HeadSubMultiset<K>(sorted: seq<Entry<K>>, n: nat)
    ensures multiset(Head(sorted, n)) <= multiset(sorted)
    ensures forall e :: e in Head(sorted, n) ==> e in sorted
  {
    var top := Head(sorted, n);
    assert sorted == top + sorted[|top|..];
    assert multiset(sorted) == multiset(top) + multiset(sorted[|top|..]);
  }

  /** The head of a non-increasing permutation of `g` dominates every row of `g` it leaves out. */
  lemma HeadDominates<K>(g: seq<Entry<K>>, sorted: seq<Entry<K>>, n: nat)
    requires NonIncreasing(sorted) && multiset(sorted) == multiset(g)
    ensures forall x, e :: x in g && x !in Head(sorted, n) && e in Head(sorted, n) ==> x.amount <= e.amount
  {
    SameMembers(g, sorted);
    forall x, e | x in g && x !in Head(sorted, n) && e in Head(sorted, n) ensures x.amount <= e.amount {
      PrefixDominates(sorted, n, x, e);
    }
  }

  /** `sort_values(amount, ascending=False).head(n)`: at most `n` rows taken from `g`
      (each row of `g` at most once), in non-increasing amount order, and every row of `g`
      left out has an amount no larger than any row kept. */
  function TopByAmount<K(==)>(g: seq<Entry<K>>, n: nat): (top: seq<Entry<K>>)
    ensures |top| == if |g| <= n then |g| else n
    ensures NonIncreasing(top)
    ensures multiset(top) <= multiset(g)
    ensures forall e :: e in top ==> e in g
    ensures forall x :: x in g && x !in top ==> forall e :: e in top ==> x.amount <= e.amount
  {
    var sorted := SortByAmountDesc(g);
    var top := Head(sorted, n);
    HeadSubMultiset(sorted, n);
    HeadDominates(g, sorted, n);
    SameMembers(sorted, g);
    assert |sorted| == |multiset(sorted)| == |multiset(g)| == |g|;
    top
  }
}
