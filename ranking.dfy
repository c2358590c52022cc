/**
 * The reductions and the ranking both log analysers apply to a dictionary of
 * results: `min` of each cost list, `sorted(d.items(), key=lambda t: t[1])`,
 * and `max`/`min` of `d.values()`.
 */
module Ranking {
  import opened Wrappers
  import Multisets

  /** A dictionary item: key and score. */
  type Item = (string, real)

  /** `min(s)` of a non-empty list */
  function Min(s: seq<real>): (m: real)
    requires |s| > 0
    ensures m in s
    ensures forall i :: 0 <= i < |s| ==> m <= s[i]
  {
    if |s| == 1 then s[0]
    else
      var rest := Min(s[1..]);
      assert forall i :: 1 <= i < |s| ==> s[1..][i - 1] == s[i];
      if s[0] <= rest then s[0] else rest
  }

  /** `max(s)` of a non-empty list */
  function Max(s: seq<real>): (m: real)
    requires |s| > 0
    ensures m in s
    ensures forall i :: 0 <= i < |s| ==> s[i] <= m
  {
    if |s| == 1 then s[0]
    else
      var rest := Max(s[1..]);
      assert forall i :: 1 <= i < |s| ==> s[1..][i - 1] == s[i];
      if s[0] >= rest then s[0] else rest
  }

  predicate SortedByScore(items: seq<Item>) {
    forall i, j :: 0 <= i < j < |items| ==> items[i].1 <= items[j].1
  }

  function Scores(items: seq<Item>): (r: seq<real>)
    ensures |r| == |items| && forall i :: 0 <= i < |items| ==> r[i] == items[i].1
  {
    seq(|items|, i requires 0 <= i < |items| => items[i].1)
  }

  /** Inserts `x` after every item that does not score more than it (a stable insertion). */
  function Insert(items: seq<Item>, x: Item): (r: seq<Item>)
    requires SortedByScore(items)
    ensures SortedByScore(r)
    ensures multiset(r) == multiset(items) + multiset{x}
  {
    if items == [] || x.1 < items[0].1 then
      ConsSorted(x, items);
      [x] + items
    else
      TailSorted(items);
      var rest := Insert(items[1..], x);
      assert items == [items[0]] + items[1..];
      RestAbove(items, x, rest);
      ConsSorted(items[0], rest);
      [items[0]] + rest
  }

  lemma TailSorted(items: seq<Item>)
    requires SortedByScore(items) && items != []
    ensures SortedByScore(items[1..])
  {
    assert forall i :: 0 <= i < |items| - 1 ==> items[1..][i] == items[i + 1];
  }

  /** An item scoring no more than every item of a sorted list can go in front of it. */
  lemma ConsSorted(x: Item, items: seq<Item>)
    requires SortedByScore(items)
    requires items == [] || x.1 <= items[0].1
    ensures SortedByScore([x] + items)
  {
    assert forall i :: 0 <= i < |items| ==> ([x] + items)[i + 1] == items[i];
  }

  /** What the insertion into the tail of a sorted list holds scores no less than its head. */
  lemma RestAbove(items: seq<Item>, x: Item, rest: seq<Item>)
    requires SortedByScore(items) && items != [] && items[0].1 <= x.1
    requires multiset(rest) == multiset(items[1..]) + multiset{x}
    ensures rest == [] || items[0].1 <= rest[0].1
  {
    if rest != [] {
      assert rest[0] in multiset(rest);
      if rest[0] != x {
        assert rest[0] in multiset(items[1..]);
        var j :| 0 <= j < |items[1..]| && items[1..][j] == rest[0];
        assert items[j + 1] == rest[0];
      }
    }
  }

  /** `sorted(d.items(), key=lambda t: t[1])`: the items, in non-decreasing order of score. */
  method SortedItems(d: map<string, real>) returns (items: seq<Item>)
    ensures SortedByScore(items)
    ensures multiset(items) == multiset(d.Items)
  {
    items := [];
    var todo := d.Keys;
    ghost var done: set<string> := {};
    while todo != {}
      invariant todo !! done && todo + done == d.Keys
      invariant SortedByScore(items)
      invariant multiset(items) == multiset(ItemsOf(d, done))
      decreases todo
    {
      var k :| k in todo;
      ItemsOfAdd(d, done, k);
      items := Insert(items, (k, d[k]));
      todo, done := todo - {k}, done + {k};
    }
    ItemsOfAll(d);
  }

  /** The items of `d` under the keys `ks`. */
  ghost function ItemsOf(d: map<string, real>, ks: set<string>): set<Item> {
    set k | k in ks && k in d :: (k, d[k])
  }

  lemma ItemsOfAdd(d: map<string, real>, ks: set<string>, k: string)
    requires k in d && k !in ks
    ensures multiset(ItemsOf(d, ks + {k})) == multiset(ItemsOf(d, ks)) + multiset{(k, d[k])}
  {
    assert ItemsOf(d, ks + {k}) == ItemsOf(d, ks) + {(k, d[k])};
    assert (k, d[k]) !in ItemsOf(d, ks);
  }

  lemma ItemsOfAll(d: map<string, real>)
    ensures ItemsOf(d, d.Keys) == d.Items
  {
    forall p | p in d.Items ensures p in ItemsOf(d, d.Keys) {
      assert p == (p.0, d[p.0]);
    }
  }

  /** What a permutation of the items of `d` says item by item. */
  lemma PermutationOfItems(d: map<string, real>, items: seq<Item>)
    requires multiset(items) == multiset(d.Items)
    ensures |items| == |d|
    ensures forall i :: 0 <= i < |items| ==> items[i].0 in d && d[items[i].0] == items[i].1
    ensures forall k :: k in d ==> exists i :: 0 <= i < |items| && items[i] == (k, d[k])
    ensures forall i, j :: 0 <= i < j < |items| ==> items[i].0 != items[j].0
  {
    assert |multiset(items)| == |items|;
    assert |multiset(d.Items)| == |d.Items| == |d|;
    forall i | 0 <= i < |items| ensures items[i] in d.Items {
      assert items[i] in multiset(items);
    }
    forall k | k in d ensures exists i :: 0 <= i < |items| && items[i] == (k, d[k]) {
      assert (k, d[k]) in d.Items;
      assert (k, d[k]) in multiset(items);
    }
    Multisets.DistinctOfSet(items, d.Items);
  }

  /** `top` lists `n` items of `d` in ascending order, none scoring above an item left out. */
  predicate IsTop(d: map<string, real>, top: seq<Item>, n: nat) {
    && |top| == n
    && SortedByScore(top)
    && (forall k :: 0 <= k < n ==> top[k].0 in d && d[top[k].0] == top[k].1)
    && (forall k, k' :: 0 <= k < k' < n ==> top[k].0 != top[k'].0)
    && (forall m, k :: m in d && 0 <= k < n && (forall k' :: 0 <= k' < n ==> top[k'].0 != m) ==> top[k].1 <= d[m])
  }

  /** The first `n` entries of the sorted items are the `n` best of the dictionary. */
  lemma TopOfRanking(d: map<string, real>, items: seq<Item>, n: nat)
    requires SortedByScore(items) && multiset(items) == multiset(d.Items) && n <= |items|
    ensures IsTop(d, items[..n], n)
  {
    PermutationOfItems(d, items);
    var top := items[..n];
    assert forall k :: 0 <= k < n ==> top[k] == items[k];
    forall m, k | m in d && 0 <= k < n && (forall k' :: 0 <= k' < n ==> top[k'].0 != m)
      ensures top[k].1 <= d[m]
    {
      var i :| 0 <= i < |items| && items[i] == (m, d[m]);
      assert forall k' :: 0 <= k' < n ==> items[k'].0 != m;
      assert n <= i;
      assert items[k].1 <= items[i].1;
    }
  }

  /** What the analysers print for one dictionary: the sorted items, `max` and `min`. */
  datatype Summary = Summary(items: seq<Item>, max: real, min: real)

  predicate Summarises(d: map<string, real>, s: Summary) {
    && SortedByScore(s.items)
    && multiset(s.items) == multiset(d.Items)
    && |s.items| > 0
    && s.min == s.items[0].1
    && s.max == s.items[|s.items| - 1].1
    && (forall k :: k in d ==> s.min <= d[k] <= s.max)
  }

  /**
   * `sorted(d.items(), ...)`, then `max(d.values())` and `min(d.values())`;
   * `max` of an empty dictionary's values raises ValueError.
   */
  method Summarise(d: map<string, real>) returns (r: Result<Summary>)
    ensures r.Err? <==> d == map[]
    ensures r.Err? ==> r.error == ValueError
    ensures r.Ok? ==> Summarises(d, r.value)
  {
    var items := SortedItems(d);
    assert |items| == |d| by {
      PermutationOfItems(d, items);
    }
    var values := Scores(items);
    if |values| == 0 {
      return Err(ValueError);
    }
    var hi, lo := Max(values), Min(values);
    SummaryOfSorted(d, items);
    r := Ok(Summary(items, hi, lo));
  }

  /** A sorted permutation of the items of a non-empty dictionary, with its greatest and least score, summarises it. */
  lemma SummaryOfSorted(d: map<string, real>, items: seq<Item>)
    requires SortedByScore(items) && multiset(items) == multiset(d.Items) && items != []
    ensures Summarises(d, Summary(items, Max(Scores(items)), Min(Scores(items))))
  {
    PermutationOfItems(d, items);
    SortedEnds(items);
    var values := Scores(items);
    forall k | k in d ensures Min(values) <= d[k] <= Max(values) {
      var i :| 0 <= i < |items| && items[i] == (k, d[k]);
      assert values[i] == d[k];
    }
  }

  /** In a sorted list the first score is the least and the last the greatest. */
  lemma SortedEnds(items: seq<Item>)
    requires SortedByScore(items) && items != []
    ensures Min(Scores(items)) == items[0].1 && Max(Scores(items)) == items[|items| - 1].1
  {
    var values := Scores(items);
    var lo, hi := Min(values), Max(values);
    var i :| 0 <= i < |values| && values[i] == lo;
    var j :| 0 <= j < |values| && values[j] == hi;
    assert values[0] <= values[i] && values[j] <= values[|values| - 1];
  }

  /** Every list of a dictionary replaced by its minimum, under the same keys. */
  function MinEach(d: map<string, seq<real>>): map<string, real>
    requires forall k :: k in d ==> |d[k]| > 0
  {
    map k | k in d :: Min(d[k])
  }

  /** The loop `for k in d.keys(): d[k] = min(d[k])`, building the new dictionary beside the old one. */
  method MinOfEach(d: map<string, seq<real>>) returns (m: map<string, real>)
    requires forall k :: k in d ==> |d[k]| > 0
    ensures m.Keys == d.Keys
    ensures forall k :: k in m ==> m[k] == Min(d[k])
  {
    m := map[];
    var todo := d.Keys;
    while todo != {}
      invariant todo <= d.Keys
      invariant m.Keys == d.Keys - todo
      invariant forall k :: k in m ==> m[k] == Min(d[k])
      decreases todo
    {
      var k :| k in todo;
      m := m[k := Min(d[k])];
      todo := todo - {k};
    }
  }
}
