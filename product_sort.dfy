/**
 * The four sort orders of the search page and the stable sort that applies
 * them. `Array.prototype.sort` is stable (ECMA-262, 2019 edition onwards), so
 * the result is the unique stable ordering by the comparator; the model
 * computes it with an insertion sort, in place on an array.
 */
module ProductSort {
  import opened Wrappers
  import opened Catalog

  /** The `sortBy` values that reorder. */
  datatype SortKey = PriceLow | PriceHigh | ByRating | Popularity

  /** `sortBy` as a sort key; any other value (`relevance`, `newest`, ...) is none. */
  function ParseSortBy(sortBy: string): (k: Option<SortKey>)
    ensures k == Some(PriceLow) <==> sortBy == "price-low"
    ensures k == Some(PriceHigh) <==> sortBy == "price-high"
    ensures k == Some(ByRating) <==> sortBy == "rating"
    ensures k == Some(Popularity) <==> sortBy == "popularity"
  {
    if sortBy == "price-low" then Some(PriceLow)
    else if sortBy == "price-high" then Some(PriceHigh)
    else if sortBy == "rating" then Some(ByRating)
    else if sortBy == "popularity" then Some(Popularity)
    else None
  }

  /** The position a product earns under `k`: smaller ranks come first. */
  function Rank(k: SortKey, p: Product): real {
    match k
    case PriceLow => p.price
    case PriceHigh => -p.price
    case ByRating => -p.rating
    case Popularity => -(p.reviewCount as real)
  }

  /**
   * The comparator passed to `sort` for each order (negative: `a` first):
   * the difference of the two products' ranks.
   */
  function Comparator(k: SortKey, a: Product, b: Product): (c: real)
    ensures c == Rank(k, a) - Rank(k, b)
    ensures c < 0.0 <==> Rank(k, a) < Rank(k, b)
  {
    match k
    case PriceLow => a.price - b.price
    case PriceHigh => b.price - a.price
    case ByRating => b.rating - a.rating
    case Popularity => (b.reviewCount - a.reviewCount) as real
  }

  /**
   * Each comparator is consistent in the sense `Array.prototype.sort`
   * requires: a product ties with itself, swapping the arguments flips the
   * sign, and "not after" is transitive.
   */
  lemma ComparatorConsistent(k: SortKey, a: Product, b: Product, c: Product)
    ensures Comparator(k, a, a) == 0.0
    ensures Comparator(k, a, b) == -Comparator(k, b, a)
    ensures Comparator(k, a, b) <= 0.0 && Comparator(k, b, c) <= 0.0 ==> Comparator(k, a, c) <= 0.0
  {
  }

  /** `a` must be placed before `b`: the comparator is negative. */
  predicate Before(k: SortKey, a: Product, b: Product) {
    Rank(k, a) < Rank(k, b)
  }

  /** No later element must be placed before an earlier one. */
  predicate Sorted(k: SortKey, s: seq<Product>) {
    forall i, j :: 0 <= i < j < |s| ==> Rank(k, s[i]) <= Rank(k, s[j])
  }

  /**
   * `x` inserted into `t` after every element it need not precede: the step
   * of a stable insertion sort.
   */
  function Insert(k: SortKey, x: Product, t: seq<Product>): (r: seq<Product>)
    ensures |r| == |t| + 1
  {
    if t == [] then [x]
    else if Before(k, x, t[|t| - 1]) then Insert(k, x, t[..|t| - 1]) + [t[|t| - 1]]
      else t + [x]
  }

  /** The stable sort of `s` by `k`. */
  function SortSpec(k: SortKey, s: seq<Product>): (r: seq<Product>)
    ensures |r| == |s|
  {
    if s == [] then [] else Insert(k, s[|s| - 1], SortSpec(k, s[..|s| - 1]))
  }

  // ---------------------------------------------------------------------
  // Permutation

  lemma {:induction false} InsertPerm(k: SortKey, x: Product, t: seq<Product>)
    ensures multiset(Insert(k, x, t)) == multiset(t) + multiset{x}
  {
    if t != [] {
      var init, last := t[..|t| - 1], t[|t| - 1];
      assert t == init + [last];
      if Before(k, x, last) {
        InsertPerm(k, x, init);
      }
    }
  }

  /** Sorting neither adds, drops nor duplicates a product. */
  lemma {:induction false} SortSpecPerm(k: SortKey, s: seq<Product>)
    ensures multiset(SortSpec(k, s)) == multiset(s)
  {
    if s != [] {
      var init := s[..|s| - 1];
      SortSpecPerm(k, init);
      InsertPerm(k, s[|s| - 1], SortSpec(k, init));
      assert s == init + [s[|s| - 1]];
    }
  }

  // ---------------------------------------------------------------------
  // Sortedness

  /** Every element of `s` ranks at most `v`. */
  predicate AllAtMost(k: SortKey, s: seq<Product>, v: real) {
    forall i :: 0 <= i < |s| ==> Rank(k, s[i]) <= v
  }

  lemma {:induction false} InsertAtMost(k: SortKey, x: Product, t: seq<Product>, v: real)
    requires AllAtMost(k, t, v) && Rank(k, x) <= v
    ensures AllAtMost(k, Insert(k, x, t), v)
  {
    if t != [] && Before(k, x, t[|t| - 1]) {
      InsertAtMost(k, x, t[..|t| - 1], v);
    }
  }

  lemma {:induction false} InsertSorted(k: SortKey, x: Product, t: seq<Product>)
    requires Sorted(k, t)
    ensures Sorted(k, Insert(k, x, t))
  {
    if t == [] {
    } else {
      var init, last := t[..|t| - 1], t[|t| - 1];
      assert AllAtMost(k, init, Rank(k, last));
      if Before(k, x, last) {
        InsertSorted(k, x, init);
        InsertPerm(k, x, init);
        InsertAtMost(k, x, init, Rank(k, last));
        var u := Insert(k, x, init);
        assert Sorted(k, u) && AllAtMost(k, u, Rank(k, last));
        assert Sorted(k, u + [last]);
      } else {
        assert AllAtMost(k, t, Rank(k, x));
        assert Sorted(k, t + [x]);
      }
    }
  }

  /** The result is ordered by the comparator. */
  lemma {:induction false} SortSpecSorted(k: SortKey, s: seq<Product>)
    ensures Sorted(k, SortSpec(k, s))
  {
    if s != [] {
      SortSpecSorted(k, s[..|s| - 1]);
      InsertSorted(k, s[|s| - 1], SortSpec(k, s[..|s| - 1]));
    }
  }

  /** What `Sorted` says for each order of the page. */
  lemma SortedMeans(k: SortKey, s: seq<Product>, i: int, j: int)
    requires Sorted(k, s) && 0 <= i < j < |s|
    ensures k == PriceLow ==> s[i].price <= s[j].price
    ensures k == PriceHigh ==> s[i].price >= s[j].price
    ensures k == ByRating ==> s[i].rating >= s[j].rating
    ensures k == Popularity ==> s[i].reviewCount >= s[j].reviewCount
  {
  }

  // ---------------------------------------------------------------------
  // Stability

  /** The elements of `s` whose rank is `v`, in the order of `s`. */
  function WithRank(k: SortKey, v: real, s: seq<Product>): seq<Product> {
    if s == [] then []
    else WithRank(k, v, s[..|s| - 1]) + (if Rank(k, s[|s| - 1]) == v then [s[|s| - 1]] else [])
  }

  lemma {:induction false} WithRankAppend(k: SortKey, v: real, a: seq<Product>, b: seq<Product>)
    ensures WithRank(k, v, a + b) == WithRank(k, v, a) + WithRank(k, v, b)
  {
    if b == [] {
      assert a + b == a;
    } else {
      var init := b[..|b| - 1];
      WithRankAppend(k, v, a, init);
      assert (a + b)[..|a + b| - 1] == a + init;
    }
  }

  /** The one-element part of `WithRank`. */
  function RankPart(k: SortKey, v: real, x: Product): seq<Product> {
    if Rank(k, x) == v then [x] else []
  }

  lemma WithRankSingle(k: SortKey, v: real, x: Product)
    ensures WithRank(k, v, [x]) == RankPart(k, v, x)
  {
    assert [x][..0] == [];
  }

  lemma {:induction false} InsertStable(k: SortKey, v: real, x: Product, t: seq<Product>)
    ensures WithRank(k, v, Insert(k, x, t)) == WithRank(k, v, t) + RankPart(k, v, x)
  {
    if t == [] {
      WithRankSingle(k, v, x);
    } else if Before(k, x, t[|t| - 1]) {
      var init, last := t[..|t| - 1], t[|t| - 1];
      var u := Insert(k, x, init);
      calc {
        WithRank(k, v, Insert(k, x, t));
        WithRank(k, v, u + [last]);
        { WithRankAppend(k, v, u, [last]); WithRankSingle(k, v, last); }
        WithRank(k, v, u) + RankPart(k, v, last);
        { InsertStable(k, v, x, init); }
        WithRank(k, v, init) + RankPart(k, v, x) + RankPart(k, v, last);
        // `x` ranks strictly below `last`, so at most one of the two parts is non-empty
        WithRank(k, v, init) + RankPart(k, v, last) + RankPart(k, v, x);
        WithRank(k, v, t) + RankPart(k, v, x);
      }
    } else {
      calc {
        WithRank(k, v, Insert(k, x, t));
        WithRank(k, v, t + [x]);
        { WithRankAppend(k, v, t, [x]); WithRankSingle(k, v, x); }
        WithRank(k, v, t) + RankPart(k, v, x);
      }
    }
  }

  /** Products that compare equal keep their input order. */
  lemma {:induction false} SortSpecStable(k: SortKey, v: real, s: seq<Product>)
    ensures WithRank(k, v, SortSpec(k, s)) == WithRank(k, v, s)
  {
    if s != [] {
      var init := s[..|s| - 1];
      SortSpecStable(k, v, init);
      InsertStable(k, v, s[|s| - 1], SortSpec(k, init));
      assert WithRank(k, v, s) == WithRank(k, v, init) + RankPart(k, v, s[|s| - 1]);
    }
  }

  // ---------------------------------------------------------------------
  // Sorting sorted input

  lemma {:induction false} SortSpecOfSorted(k: SortKey, s: seq<Product>)
    requires Sorted(k, s)
    ensures SortSpec(k, s) == s
  {
    if s != [] {
      var init := s[..|s| - 1];
      assert Sorted(k, init);
      SortSpecOfSorted(k, init);
      assert init + [s[|s| - 1]] == s;
    }
  }

  /** Sorting twice gives what sorting once gave. */
  lemma SortSpecIdempotent(k: SortKey, s: seq<Product>)
    ensures SortSpec(k, SortSpec(k, s)) == SortSpec(k, s)
  {
    SortSpecSorted(k, s);
    SortSpecOfSorted(k, SortSpec(k, s));
  }

  // ---------------------------------------------------------------------
  // In place

  /**
   * Where `Insert` puts `x`: after the prefix it need not precede, before
   * the suffix it must precede.
   */
  lemma {:induction false} InsertSplit(k: SortKey, x: Product, t: seq<Product>, j: int)
    requires 0 <= j <= |t|
    requires j == 0 || !Before(k, x, t[j - 1])
    requires forall m :: j <= m < |t| ==> Before(k, x, t[m])
    ensures Insert(k, x, t) == t[..j] + [x] + t[j..]
    decreases |t|
  {
    if j < |t| {
      var init := t[..|t| - 1];
      assert init[..j] == t[..j];
      InsertSplit(k, x, init, j);
      assert init[j..] + [t[|t| - 1]] == t[j..];
    } else if t != [] {
      assert t[..j] == t;
    }
  }

  /**
   * The array once the inner loop stops: `t` with `x` placed after the prefix
   * it need not precede and before the suffix it must precede, then `r`.
   */
  lemma Settled(k: SortKey, s: seq<Product>, t: seq<Product>, x: Product, j: int, r: seq<Product>)
    requires 0 <= j <= |t| && |s| == |t| + 1 + |r|
    requires forall m :: 0 <= m < j ==> s[m] == t[m]
    requires s[j] == x
    requires forall m :: j < m <= |t| ==> s[m] == t[m - 1] && Before(k, x, s[m])
    requires forall m :: |t| < m < |s| ==> s[m] == r[m - |t| - 1]
    requires j == 0 || !Before(k, x, s[j - 1])
    ensures s == Insert(k, x, t) + r
  {
    forall m | j <= m < |t| ensures Before(k, x, t[m]) {
      assert s[m + 1] == t[m];
    }
    InsertSplit(k, x, t, j);
    assert s == t[..j] + [x] + t[j..] + r;
  }

  /**
   * Moves `a[i]` leftwards past the elements it must precede: `a[..i + 1]`
   * becomes the insertion of the old `a[i]` into the old `a[..i]`.
   */
  method InsertAt(a: array<Product>, i: int, k: SortKey)
    requires 0 <= i < a.Length
    modifies a
    ensures a[..] == Insert(k, old(a[i]), old(a[..i])) + old(a[i + 1..])
  {
    ghost var t, r := a[..i], a[i + 1..];
    var x := a[i];
    var j := i;
    while j > 0 && Before(k, x, a[j - 1])
      invariant 0 <= j <= i
      invariant forall m :: 0 <= m < j ==> a[m] == t[m]
      invariant a[j] == x
      invariant forall m :: j < m <= i ==> a[m] == t[m - 1] && Before(k, x, a[m])
      invariant forall m :: i < m < a.Length ==> a[m] == r[m - i - 1]
    {
      a[j - 1], a[j] := a[j], a[j - 1];
      j := j - 1;
    }
    Settled(k, a[..], t, x, j, r);
  }

  /** The parts of an array that is sorted up to `i`. */
  lemma SplitAt(s: seq<Product>, sorted: seq<Product>, input: seq<Product>, i: int)
    requires 0 <= i < |input| && |sorted| == i && s == sorted + input[i..]
    ensures s[..i] == sorted && s[i] == input[i] && s[i + 1..] == input[i + 1..]
  {
  }

  /** One more element of the input, sorted in. */
  lemma SortSpecStep(k: SortKey, input: seq<Product>, i: int)
    requires 0 <= i < |input|
    ensures SortSpec(k, input[..i + 1]) == Insert(k, input[i], SortSpec(k, input[..i]))
  {
    assert input[..i + 1][..i] == input[..i];
  }

  /** `filtered.sort(comparator)`: a stable insertion sort, in place. */
  method InsertionSort(a: array<Product>, k: SortKey)
    modifies a
    ensures a[..] == SortSpec(k, old(a[..]))
  {
    ghost var input := a[..];
    var i := 0;
    assert input[..0] == [] && input[0..] == input;
    while i < a.Length
      invariant 0 <= i <= a.Length
      invariant a[..] == SortSpec(k, input[..i]) + input[i..]
    {
      SplitAt(a[..], SortSpec(k, input[..i]), input, i);
      InsertAt(a, i, k);
      SortSpecStep(k, input, i);
      i := i + 1;
    }
    assert input[..a.Length] == input;
  }
}
