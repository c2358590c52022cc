/**
 * utils/constraint_sampling.py: the label and index bookkeeping behind the
 * sampling of similarity constraints for metric learning. A data matrix is a
 * sequence of rows; the column vector of labels is the sequence of its single
 * column.
 */
module ConstraintSampling {
  import opened Wrappers
  import opened Multisets

  /** One row of the data matrix. */
  type Row = seq<real>

  // ---------------------------------------------------------------------------
  // extract_one_class

  /** `np.nonzero(labels[:,0] == y)[0]`: the positions holding label `y`, ascending. */
  function ClassIndices(labels: seq<int>, y: int): seq<nat>
    decreases |labels|
  {
    if labels == [] then []
    else
      var init, i := labels[..|labels| - 1], |labels| - 1;
      ClassIndices(init, y) + (if labels[i] == y then [i] else [])
  }

  /** The positions are exactly those holding `y`, each once and in ascending order. */
  lemma {:induction false} ClassIndicesSpec(labels: seq<int>, y: int)
    ensures forall k :: 0 <= k < |ClassIndices(labels, y)| ==>
      ClassIndices(labels, y)[k] < |labels| && labels[ClassIndices(labels, y)[k]] == y
    ensures forall k, k' :: 0 <= k < k' < |ClassIndices(labels, y)| ==>
      ClassIndices(labels, y)[k] < ClassIndices(labels, y)[k']
    ensures forall i :: 0 <= i < |labels| && labels[i] == y ==> i in ClassIndices(labels, y)
    decreases |labels|
  {
    if labels != [] {
      var init, i := labels[..|labels| - 1], |labels| - 1;
      ClassIndicesSpec(init, y);
      var r0 := ClassIndices(init, y);
      assert forall k :: 0 <= k < |r0| ==> init[r0[k]] == labels[r0[k]];
    }
  }

  /** There are as many positions as occurrences of the label. */
  lemma {:induction false} ClassIndicesCount(labels: seq<int>, y: int)
    ensures |ClassIndices(labels, y)| == multiset(labels)[y]
    decreases |labels|
  {
    if labels != [] {
      var init := labels[..|labels| - 1];
      ClassIndicesCount(init, y);
      assert labels == init + [labels[|labels| - 1]];
    }
  }

  /** The rows of `X` whose label is `y`, in their original order: the meaning of the filter. */
  function RowsWithLabel(X: seq<Row>, labels: seq<int>, y: int): seq<Row>
    decreases |labels|
  {
    if labels == [] then []
    else
      var i := |labels| - 1;
      RowsWithLabel(X, labels[..i], y) + (if labels[i] == y && i < |X| then [X[i]] else [])
  }

  /** `X[idx, :]`: the rows of `X` at the positions `idx`, in the order of `idx`. */
  function Take(X: seq<Row>, idx: seq<nat>): (r: seq<Row>)
    requires forall k :: 0 <= k < |idx| ==> idx[k] < |X|
    ensures |r| == |idx| && forall k :: 0 <= k < |idx| ==> r[k] == X[idx[k]]
  {
    if idx == [] then [] else [X[idx[0]]] + Take(X, idx[1..])
  }

  lemma {:induction false} TakeAppend(X: seq<Row>, a: seq<nat>, b: seq<nat>)
    requires forall k :: 0 <= k < |a| ==> a[k] < |X|
    requires forall k :: 0 <= k < |b| ==> b[k] < |X|
    ensures forall k :: 0 <= k < |a + b| ==> (a + b)[k] < |X|
    ensures Take(X, a + b) == Take(X, a) + Take(X, b)
  {
    assert forall k :: 0 <= k < |a + b| ==> (a + b)[k] == if k < |a| then a[k] else b[k - |a|];
  }

  /** Taking the rows at the positions of `y` selects the rows of `RowsWithLabel`. */
  lemma {:induction false} SelectedRows(X: seq<Row>, labels: seq<int>, y: int)
    requires forall k :: 0 <= k < |ClassIndices(labels, y)| ==> ClassIndices(labels, y)[k] < |X|
    ensures Take(X, ClassIndices(labels, y)) == RowsWithLabel(X, labels, y)
    decreases |labels|
  {
    if labels != [] {
      var i := |labels| - 1;
      var init := labels[..i];
      var tail := if labels[i] == y && i < |X| then [X[i]] else [];
      assert RowsWithLabel(X, labels, y) == RowsWithLabel(X, init, y) + tail;
      assert Take(X, ClassIndices(labels, y)) == RowsWithLabel(X, init, y) + tail by {
        var idx, idx0 := ClassIndices(labels, y), ClassIndices(init, y);
        var last: seq<nat> := if labels[i] == y then [i] else [];
        assert idx == idx0 + last;
        assert forall k :: 0 <= k < |idx0| ==> idx0[k] < |X| by {
          assert forall k :: 0 <= k < |idx0| ==> idx0[k] == idx[k];
        }
        assert forall k :: 0 <= k < |last| ==> last[k] < |X| by {
          assert forall k :: 0 <= k < |last| ==> last[k] == idx[|idx0| + k];
        }
        assert Take(X, idx0) == RowsWithLabel(X, init, y) by {
          SelectedRows(X, init, y);
        }
        assert Take(X, idx) == Take(X, idx0) + Take(X, last) by {
          TakeAppend(X, idx0, last);
        }
        assert Take(X, last) == tail;
      }
    }
  }

  /**
   * `X[np.nonzero(labels[:,0] == y)[0], :]`: numpy raises IndexError when a
   * position holding `y` has no row in `X`; otherwise the result is exactly
   * the rows labelled `y`, in their original order.
   */
  function ExtractOneClass(X: seq<Row>, labels: seq<int>, y: int): (r: Result<seq<Row>>)
    ensures r.Err? <==> exists i :: |X| <= i < |labels| && labels[i] == y
    ensures r.Err? ==> r.error == IndexError
    ensures r.Ok? ==> r.value == RowsWithLabel(X, labels, y)
  {
    var idx := ClassIndices(labels, y);
    ClassIndicesSpec(labels, y);
    if forall k :: 0 <= k < |idx| ==> idx[k] < |X| then
      SelectedRows(X, labels, y);
      Ok(Take(X, idx))
    else
      Err(IndexError)
  }

  // ---------------------------------------------------------------------------
  // estimate_class_sizes

  predicate StrictlyIncreasing(u: seq<int>) {
    forall i, j :: 0 <= i < j < |u| ==> u[i] < u[j]
  }

  /** `x` put into its place in an ascending sequence of distinct labels. */
  function InsertSorted(u: seq<int>, x: int): (r: seq<int>)
    requires StrictlyIncreasing(u)
    ensures StrictlyIncreasing(r)
    ensures forall z :: z in r <==> z in u || z == x
  {
    if u == [] then [x]
    else if x < u[0] then [x] + u
    else if x == u[0] then u
    else
      TailIncreasing(u);
      var rest := InsertSorted(u[1..], x);
      assert forall k :: 0 <= k < |rest| ==> u[0] < rest[k] by {
        forall k | 0 <= k < |rest| ensures u[0] < rest[k] {
          assert rest[k] in rest;
        }
      }
      [u[0]] + rest
  }

  lemma TailIncreasing(u: seq<int>)
    requires StrictlyIncreasing(u) && u != []
    ensures StrictlyIncreasing(u[1..])
    ensures forall x :: x in u[1..] ==> u[0] < x
  {
    assert forall i :: 0 <= i < |u| - 1 ==> u[1..][i] == u[i + 1];
  }

  /** Two ascending sequences with the same labels start with the least of them. */
  lemma SameHead(u: seq<int>, w: seq<int>)
    requires StrictlyIncreasing(u) && StrictlyIncreasing(w) && u != [] && w != []
    requires forall x :: x in u <==> x in w
    ensures u[0] == w[0]
  {
    assert u[0] in u && w[0] in w;
    var k :| 0 <= k < |w| && w[k] == u[0];
    assert w[0] <= w[k];
    var m :| 0 <= m < |u| && u[m] == w[0];
    assert u[0] <= u[m];
  }

  /** ... and continue with the same labels. */
  lemma SameTail(u: seq<int>, w: seq<int>)
    requires StrictlyIncreasing(u) && StrictlyIncreasing(w) && u != [] && w != []
    requires forall x :: x in u <==> x in w
    requires u[0] == w[0]
    ensures forall x :: x in u[1..] <==> x in w[1..]
  {
    TailIncreasing(u);
    TailIncreasing(w);
    forall x ensures x in u[1..] <==> x in w[1..] {
      if x in u[1..] {
        assert x in u;
        var m :| 0 <= m < |w| && w[m] == x;
        assert m != 0 && w[1..][m - 1] == x;
      }
      if x in w[1..] {
        assert x in w;
        var m :| 0 <= m < |u| && u[m] == x;
        assert m != 0 && u[1..][m - 1] == x;
      }
    }
  }

  /** Sequences holding the same labels are empty together. */
  lemma EmptyTogether(u: seq<int>, w: seq<int>)
    requires forall x :: x in u <==> x in w
    ensures u == [] <==> w == []
  {
    if u != [] {
      var x := u[0];
      assert x in u;
      assert x in w;
    }
    if w != [] {
      var x := w[0];
      assert x in w;
      assert x in u;
    }
  }

  /** An ascending sequence of distinct labels is fixed by the labels it holds. */
  lemma {:induction false} IncreasingUnique(u: seq<int>, w: seq<int>)
    requires StrictlyIncreasing(u) && StrictlyIncreasing(w)
    requires forall x :: x in u <==> x in w
    ensures u == w
    decreases |u|
  {
    EmptyTogether(u, w);
    if u != [] {
      SameHead(u, w);
      SameTail(u, w);
      TailIncreasing(u);
      TailIncreasing(w);
      IncreasingUnique(u[1..], w[1..]);
      assert u == [u[0]] + u[1..];
      assert w == [w[0]] + w[1..];
    }
  }

  /** `np.unique(labels)`: the distinct labels, ascending. */
  function Unique(labels: seq<int>): (u: seq<int>)
    ensures StrictlyIncreasing(u)
    ensures forall x :: x in u <==> x in labels
    decreases |labels|
  {
    if labels == [] then []
    else
      var init := labels[..|labels| - 1];
      assert forall x :: x in labels <==> x in init || x == labels[|labels| - 1];
      InsertSorted(Unique(init), labels[|labels| - 1])
  }

  /** `max(labels.shape)` for an N x 1 column of labels: N, or 1 when there is no label. */
  function NSamples(labels: seq<int>): nat {
    if |labels| > 1 then |labels| else 1
  }

  /** The share of `n` samples that each label of `u` has, in the order of `u`. */
  function Shares(labels: seq<int>, u: seq<int>, n: real): (r: seq<real>)
    requires n > 0.0
    ensures |r| == |u|
    ensures forall p :: 0 <= p < |u| ==> r[p] == multiset(labels)[u[p]] as real / n
  {
    if u == [] then [] else [multiset(labels)[u[0]] as real / n] + Shares(labels, u[1..], n)
  }

  /** What `estimate_class_sizes` returns: for each distinct label, ascending, its share of the samples. */
  function Proportions(labels: seq<int>): seq<real> {
    Shares(labels, Unique(labels), NSamples(labels) as real)
  }

  /**
   * The loop of lines 39-41: the 1 x k array of zeros, one column per distinct
   * label, each filled with the label's count over the number of samples.
   */
  method EstimateClassSizes(labels: seq<int>) returns (proportions: array2<real>)
    ensures fresh(proportions)
    ensures proportions.Length0 == 1 && proportions.Length1 == |Unique(labels)|
    ensures forall p :: 0 <= p < proportions.Length1 ==> proportions[0, p] == Proportions(labels)[p]
  {
    var alphabet := Unique(labels);
    var nSamples := NSamples(labels) as real;
    proportions := new real[1, |alphabet|]((_, _) => 0.0);
    for position := 0 to |alphabet|
      invariant forall p :: 0 <= p < position ==> proportions[0, p] == Proportions(labels)[p]
    {
      var elem := alphabet[position];
      var sizeSet := ClassIndices(labels, elem);
      ClassIndicesCount(labels, elem);
      proportions[0, position] := |sizeSet| as real / nSamples;
    }
  }

  /** A count between 1 and `n` is a share in (0, 1]. */
  lemma ShareBounded(c: int, n: int)
    requires 1 <= c <= n
    ensures 0.0 < c as real / n as real <= 1.0
  {
    assert c as real / n as real * n as real == c as real;
  }

  /** Every proportion is a share of a class that occurs: it lies in (0, 1]. */
  lemma ProportionsBounded(labels: seq<int>)
    ensures |Proportions(labels)| == |Unique(labels)|
    ensures forall p :: 0 <= p < |Proportions(labels)| ==> 0.0 < Proportions(labels)[p] <= 1.0
  {
    var u := Unique(labels);
    forall p | 0 <= p < |u| ensures 0.0 < Proportions(labels)[p] <= 1.0 {
      assert u[p] in labels;
      assert multiset(labels)[u[p]] <= |multiset(labels)| == |labels|;
      ShareBounded(multiset(labels)[u[p]], NSamples(labels));
    }
  }

  function SumReals(s: seq<real>): real {
    if s == [] then 0.0 else s[0] + SumReals(s[1..])
  }

  /** The number of samples whose label is one of `u`. */
  function CountsOf(labels: seq<int>, u: seq<int>): int {
    if u == [] then 0 else multiset(labels)[u[0]] + CountsOf(labels, u[1..])
  }

  predicate Distinct(u: seq<int>) {
    forall i, j :: 0 <= i < j < |u| ==> u[i] != u[j]
  }

  /** One more sample adds one to the count of the distinct labels it is among. */
  lemma {:induction false} CountsOfSnoc(labels: seq<int>, x: int, u: seq<int>)
    requires Distinct(u)
    ensures CountsOf(labels + [x], u) == CountsOf(labels, u) + (if x in u then 1 else 0)
    decreases |u|
  {
    if u != [] {
      assert Distinct(u[1..]) by {
        assert forall i :: 0 <= i < |u| - 1 ==> u[1..][i] == u[i + 1];
      }
      CountsOfSnoc(labels, x, u[1..]);
      assert multiset(labels + [x]) == multiset(labels) + multiset{x};
      assert x in u <==> x == u[0] || x in u[1..];
      if x == u[0] {
        assert x !in u[1..];
      }
    }
  }

  /** Distinct labels that cover every sample count every sample once. */
  lemma {:induction false} CountsCover(labels: seq<int>, u: seq<int>)
    requires Distinct(u)
    requires forall x :: x in labels ==> x in u
    ensures CountsOf(labels, u) == |labels|
    decreases |labels|
  {
    if labels == [] {
      CountsOfEmpty(u);
    } else {
      var init, x := labels[..|labels| - 1], labels[|labels| - 1];
      assert labels == init + [x];
      CountsCover(init, u);
      CountsOfSnoc(init, x, u);
    }
  }

  lemma {:induction false} CountsOfEmpty(u: seq<int>)
    ensures CountsOf([], u) == 0
    decreases |u|
  {
    if u != [] {
      CountsOfEmpty(u[1..]);
    }
  }

  /** The shares of the labels `u` add up to their counts over the number of samples. */
  lemma {:induction false} SumOfShares(labels: seq<int>, u: seq<int>, n: real)
    requires n > 0.0
    ensures SumReals(Shares(labels, u, n)) == CountsOf(labels, u) as real / n
    decreases |u|
  {
    if u != [] {
      var a, rest := multiset(labels)[u[0]] as real, Shares(labels, u[1..], n);
      assert ([a / n] + rest)[1..] == rest;
      SumOfShares(labels, u[1..], n);
      AddShares(a, CountsOf(labels, u[1..]) as real, n);
    }
  }

  lemma AddShares(a: real, c: real, n: real)
    requires n > 0.0
    ensures a / n + c / n == (a + c) / n
  {
  }

  /** For a non-empty column of labels, the proportions add up to 1. */
  lemma ProportionsSumToOne(labels: seq<int>)
    requires |labels| > 0
    ensures SumReals(Proportions(labels)) == 1.0
  {
    var u := Unique(labels);
    var n := |labels| as real;
    assert Proportions(labels) == Shares(labels, u, n);
    assert CountsOf(labels, u) == |labels| by {
      assert Distinct(u);
      CountsCover(labels, u);
    }
    assert SumReals(Shares(labels, u, n)) == n / n by {
      SumOfShares(labels, u, n);
    }
    WholeShare(n);
  }

  lemma WholeShare(n: real)
    requires n > 0.0
    ensures n / n == 1.0
  {
  }

  /** The proportions are the shares of any ascending list of exactly the labels present. */
  lemma ProportionsOver(labels: seq<int>, u: seq<int>)
    requires StrictlyIncreasing(u)
    requires forall x :: x in u <==> x in labels
    ensures Proportions(labels) == Shares(labels, u, NSamples(labels) as real)
  {
    IncreasingUnique(Unique(labels), u);
  }

  /** The test column `[1, 1, 2, 2, 2, 1, 1]` gives 4/7 and 3/7. */
  lemma UnevenClasses(labels: seq<int>)
    requires labels == [1, 1, 2, 2, 2, 1, 1]
    ensures Proportions(labels) == [4.0 / 7.0, 3.0 / 7.0]
  {
    UnevenCounts(labels);
    ProportionsOver(labels, [1, 2]);
    var r, n := Proportions(labels), NSamples(labels) as real;
    assert n == 7.0;
    assert r[0] == multiset(labels)[1] as real / n && r[1] == multiset(labels)[2] as real / n;
  }

  lemma UnevenCounts(labels: seq<int>)
    requires labels == [1, 1, 2, 2, 2, 1, 1]
    ensures multiset(labels)[1] == 4 && multiset(labels)[2] == 3
    ensures forall x :: x in [1, 2] <==> x in labels
  {
  }

  /** A column of distinct ascending labels gives every label the same share. */
  lemma DistinctLabelsShareEqually(labels: seq<int>)
    requires StrictlyIncreasing(labels)
    ensures |Proportions(labels)| == |labels|
    ensures forall p :: 0 <= p < |labels| ==> Proportions(labels)[p] == 1.0 / NSamples(labels) as real
  {
    ProportionsOver(labels, labels);
    forall p | 0 <= p < |labels| ensures multiset(labels)[labels[p]] == 1 {
      CountOnce(labels, labels[p]);
      assert labels[p] in multiset(labels);
    }
  }

  /** The test column `[1, 2, 3]` gives a third to each label. */
  lemma OneOfEach(labels: seq<int>)
    requires labels == [1, 2, 3]
    ensures Proportions(labels) == [1.0 / 3.0, 1.0 / 3.0, 1.0 / 3.0]
  {
    DistinctLabelsShareEqually(labels);
    assert NSamples(labels) == 3;
    var r := Proportions(labels);
    assert |r| == 3 && r[0] == 1.0 / 3.0 && r[1] == 1.0 / 3.0 && r[2] == 1.0 / 3.0;
  }

  // ---------------------------------------------------------------------------
  // draw_pairs

  /**
   * `np.random.shuffle`: the elements of `a` rearranged in place. The swap
   * partner of each position is an arbitrary choice, so every permutation
   * is a possible outcome.
   */
  method Shuffle(a: array<int>)
    modifies a
    ensures multiset(a[..]) == multiset(old(a[..]))
  {
    var i := a.Length;
    while i > 1
      invariant 0 <= i <= a.Length
      invariant multiset(a[..]) == multiset(old(a[..]))
    {
      var j :| 0 <= j < i;
      a[i - 1], a[j] := a[j], a[i - 1];
      i := i - 1;
    }
  }

  /** The indices `lo`, ..., `hi - 1`: `np.arange(lo, hi)`. */
  function Range(lo: int, hi: int): (r: seq<int>)
    requires lo <= hi
    ensures |r| == hi - lo && forall i :: 0 <= i < |r| ==> r[i] == lo + i
  {
    seq(hi - lo, i => lo + i)
  }

  /** Range(lo, hi) holds each of its indices once. */
  lemma RangeDistinct(lo: int, hi: int)
    requires lo <= hi
    ensures Distinct(Range(lo, hi))
    ensures forall x :: x in Range(lo, hi) <==> lo <= x < hi
  {
    forall x | lo <= x < hi ensures x in Range(lo, hi) {
      assert Range(lo, hi)[x - lo] == x;
    }
  }

  /** Column `c` of an array of pairs. */
  function Column(a: array2<int>, c: nat): seq<int>
    requires c < a.Length1
    reads a
  {
    seq(a.Length0, r requires 0 <= r < a.Length0 reads a => a[r, c])
  }

  /** What the pairs of indices `np.hstack` returns are: the shuffled halves, side by side. */
  predicate PairsOfHalves(pairs: array2<int>, n: nat)
    reads pairs
  {
    && pairs.Length0 == n / 2 && pairs.Length1 == 2
    && multiset(Column(pairs, 0)) == multiset(Range(0, n / 2))
    && multiset(Column(pairs, 1)) == multiset(Range(n / 2, 2 * (n / 2)))
  }

  /**
   * Lines 47-52: `np.arange(n)` split at `n div 2`, both parts truncated to
   * the smaller size. The parts are the first `n div 2` indices and the next
   * `n div 2`; for an odd `n` the truncation drops the last index.
   */
  function Halves(n: nat): (r: (seq<int>, seq<int>))
    ensures r.0 == Range(0, n / 2) && r.1 == Range(n / 2, 2 * (n / 2))
  {
    var pts := Range(0, n);
    var half := n / 2;
    var firstPts, secondPts := pts[..half], pts[half..];
    var commonSize := if |firstPts| < |secondPts| then |firstPts| else |secondPts|;
    (firstPts[..commonSize], secondPts[..commonSize])
  }

  /** Lines 53-54: a sequence of indices as a fresh array. */
  method ToArray(s: seq<int>) returns (a: array<int>)
    ensures fresh(a) && a[..] == s
  {
    a := new int[|s|](i requires 0 <= i < |s| => s[i]);
  }

  /** `np.hstack` of two columns of the same height: the array of their rows side by side. */
  method Hstack(first: array<int>, second: array<int>) returns (pairs: array2<int>)
    requires first.Length == second.Length
    ensures fresh(pairs)
    ensures pairs.Length0 == first.Length && pairs.Length1 == 2
    ensures Column(pairs, 0) == first[..] && Column(pairs, 1) == second[..]
  {
    pairs := new int[first.Length, 2]((_, _) => 0);
    for r := 0 to first.Length
      modifies pairs
      invariant forall r' :: 0 <= r' < r ==> pairs[r', 0] == first[r'] && pairs[r', 1] == second[r']
    {
      pairs[r, 0] := first[r];
      pairs[r, 1] := second[r];
    }
    assert Column(pairs, 0) == first[..];
    assert Column(pairs, 1) == second[..];
  }

  /**
   * `draw_pairs` on `n` rows: the first `n div 2` indices against the next
   * `n div 2`, each half shuffled; for an odd `n` the last index is dropped
   * by the truncation to the common size.
   */
  method DrawPairs(data: seq<Row>) returns (pairs: array2<int>)
    ensures fresh(pairs)
    ensures PairsOfHalves(pairs, |data|)
  {
    var n := |data|;
    var firstPts, secondPts := Halves(n).0, Halves(n).1;
    var first := ToArray(firstPts);
    var second := ToArray(secondPts);
    Shuffle(first);
    Shuffle(second);
    pairs := Hstack(first, second);
  }

  /**
   * Every pair holds an index of the first half and one of the second; each
   * column is a permutation of its half, so no index repeats, and for an odd
   * number of rows the last index never appears.
   */
  lemma HalvesPaired(pairs: array2<int>, n: nat)
    requires PairsOfHalves(pairs, n)
    ensures forall r :: 0 <= r < pairs.Length0 ==> 0 <= pairs[r, 0] < n / 2 <= pairs[r, 1] < 2 * (n / 2) <= n
    ensures forall r, r' :: 0 <= r < r' < pairs.Length0 ==> pairs[r, 0] != pairs[r', 0] && pairs[r, 1] != pairs[r', 1]
    ensures n % 2 == 1 ==> forall r, c :: 0 <= r < pairs.Length0 && 0 <= c < 2 ==> pairs[r, c] != n - 1
  {
    var c0, c1 := Column(pairs, 0), Column(pairs, 1);
    RangeDistinct(0, n / 2);
    RangeDistinct(n / 2, 2 * (n / 2));
    forall r | 0 <= r < pairs.Length0 ensures 0 <= pairs[r, 0] < n / 2 <= pairs[r, 1] < 2 * (n / 2) {
      assert c0[r] in multiset(c0);
      assert c1[r] in multiset(c1);
    }
    DistinctOfPermutation(c0, Range(0, n / 2));
    DistinctOfPermutation(c1, Range(n / 2, 2 * (n / 2)));
    assert forall r :: 0 <= r < pairs.Length0 ==> c0[r] == pairs[r, 0] && c1[r] == pairs[r, 1];
  }
}
