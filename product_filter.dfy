/**
 * `applyFilters`: keep the products that pass the category, store, price
 * and rating predicates, then sort them by the selected order (any other
 * `sortBy` value leaves them in input order).
 */
module ProductFilter {
  import opened Wrappers
  import opened Catalog
  import opened ProductSort

  const AllCategories := "All Categories"
  const AllStores := "All Stores"

  /** The filter and sort settings of the search page. */
  datatype FilterState = FilterState(
    category: string,
    store: string,
    minPrice: real,
    maxPrice: real,
    minRating: real,
    sortBy: string)

  /**
   * The four predicates of the filter callback, AND-ed. An inverted price
   * range admits nothing, and under "All Categories" and "All Stores" only
   * the price range and the rating decide.
   */
  predicate Matches(f: FilterState, p: Product)
    ensures Matches(f, p) ==> f.minPrice <= f.maxPrice
    ensures f.category == AllCategories && f.store == AllStores ==>
      (Matches(f, p) <==> f.minPrice <= p.price <= f.maxPrice && p.rating >= f.minRating)
  {
    && (f.category == AllCategories || p.category == f.category)
    && (f.store == AllStores || p.store == f.store)
    && f.minPrice <= p.price <= f.maxPrice
    && p.rating >= f.minRating
  }

  /** `productList.filter(...)`: every product kept passes the filter. */
  function Filtered(f: FilterState, ps: seq<Product>): (r: seq<Product>)
    ensures |r| <= |ps|
    ensures forall i :: 0 <= i < |r| ==> Matches(f, r[i])
  {
    if ps == [] then []
    else Filtered(f, ps[..|ps| - 1]) + (if Matches(f, ps[|ps| - 1]) then [ps[|ps| - 1]] else [])
  }

  /**
   * The list `applyFilters` stores as the visible products: sorting only
   * reorders the filtered products, never adding or dropping one.
   */
  function Apply(f: FilterState, ps: seq<Product>): (r: seq<Product>)
    ensures |r| <= |ps|
    ensures multiset(r) == multiset(Filtered(f, ps))
  {
    match ParseSortBy(f.sortBy)
    case None => Filtered(f, ps)
    case Some(k) => SortSpecPerm(k, Filtered(f, ps)); SortSpec(k, Filtered(f, ps))
  }

  // ---------------------------------------------------------------------
  // What the filter keeps

  /** Each product is kept as often as it occurs in the input if it passes, never otherwise. */
  lemma {:induction false} FilteredCount(f: FilterState, ps: seq<Product>, q: Product)
    ensures multiset(Filtered(f, ps))[q] == if Matches(f, q) then multiset(ps)[q] else 0
  {
    if ps != [] {
      var init := ps[..|ps| - 1];
      FilteredCount(f, init, q);
      assert ps == init + [ps[|ps| - 1]];
    }
  }

  /** `a` occurs in `b` in the same order, possibly with gaps. */
  predicate SubseqOf(a: seq<Product>, b: seq<Product>) {
    || a == []
    || (b != [] && ((a != [] && a[|a| - 1] == b[|b| - 1] && SubseqOf(a[..|a| - 1], b[..|b| - 1]))
                   || SubseqOf(a, b[..|b| - 1])))
  }

  /** Filtering keeps the input order. */
  lemma {:induction false} FilteredSubseq(f: FilterState, ps: seq<Product>)
    ensures SubseqOf(Filtered(f, ps), ps)
  {
    if ps != [] {
      var init := ps[..|ps| - 1];
      FilteredSubseq(f, init);
      var kept := Filtered(f, init);
      if Matches(f, ps[|ps| - 1]) {
        assert (kept + [ps[|ps| - 1]])[..|kept|] == kept;
      } else {
        assert Filtered(f, ps) == kept;
      }
    }
  }

  // ---------------------------------------------------------------------
  // Properties of applyFilters

  /**
   * The result holds exactly the products that pass the filter, each as
   * often as in the input: nothing is added, dropped or duplicated.
   */
  lemma ApplyExact(f: FilterState, ps: seq<Product>)
    ensures forall q :: multiset(Apply(f, ps))[q] == if Matches(f, q) then multiset(ps)[q] else 0
    ensures forall q :: q in Apply(f, ps) <==> q in ps && Matches(f, q)
  {
    var kept := Filtered(f, ps);
    if k :| ParseSortBy(f.sortBy) == Some(k) {
      SortSpecPerm(k, kept);
    }
    assert multiset(Apply(f, ps)) == multiset(kept);
    forall q ensures multiset(Apply(f, ps))[q] == if Matches(f, q) then multiset(ps)[q] else 0 {
      FilteredCount(f, ps, q);
    }
    forall q ensures q in Apply(f, ps) <==> q in ps && Matches(f, q) {
      FilteredCount(f, ps, q);
      assert q in Apply(f, ps) <==> q in multiset(Apply(f, ps));
      assert q in ps <==> q in multiset(ps);
    }
  }

  /**
   * Under a sort order the result is ordered by the comparator, and products
   * that compare equal keep the order they had after filtering.
   */
  lemma ApplySorted(f: FilterState, ps: seq<Product>, k: SortKey)
    requires ParseSortBy(f.sortBy) == Some(k)
    ensures Sorted(k, Apply(f, ps))
    ensures forall v :: WithRank(k, v, Apply(f, ps)) == WithRank(k, v, Filtered(f, ps))
  {
    SortSpecSorted(k, Filtered(f, ps));
    forall v ensures WithRank(k, v, Apply(f, ps)) == WithRank(k, v, Filtered(f, ps)) {
      SortSpecStable(k, v, Filtered(f, ps));
    }
  }

  /** Price-low ascends by price; the other three orders descend by their key. */
  lemma ApplyOrders(f: FilterState, ps: seq<Product>, i: int, j: int)
    requires 0 <= i < j < |Apply(f, ps)|
    ensures f.sortBy == "price-low" ==> Apply(f, ps)[i].price <= Apply(f, ps)[j].price
    ensures f.sortBy == "price-high" ==> Apply(f, ps)[i].price >= Apply(f, ps)[j].price
    ensures f.sortBy == "rating" ==> Apply(f, ps)[i].rating >= Apply(f, ps)[j].rating
    ensures f.sortBy == "popularity" ==> Apply(f, ps)[i].reviewCount >= Apply(f, ps)[j].reviewCount
  {
    if k :| ParseSortBy(f.sortBy) == Some(k) {
      ApplySorted(f, ps, k);
      SortedMeans(k, Apply(f, ps), i, j);
    }
  }

  /** Any other `sortBy` (`relevance`, `newest`, ...) keeps the input order. */
  lemma ApplyUnsorted(f: FilterState, ps: seq<Product>)
    requires ParseSortBy(f.sortBy).None?
    ensures Apply(f, ps) == Filtered(f, ps)
    ensures SubseqOf(Apply(f, ps), ps)
  {
    FilteredSubseq(f, ps);
  }

  /** Filtering a list whose products all pass changes nothing. */
  lemma {:induction false} FilteredAllPass(f: FilterState, ps: seq<Product>)
    requires forall i :: 0 <= i < |ps| ==> Matches(f, ps[i])
    ensures Filtered(f, ps) == ps
  {
    if ps != [] {
      FilteredAllPass(f, ps[..|ps| - 1]);
      assert ps[..|ps| - 1] + [ps[|ps| - 1]] == ps;
    }
  }

  /** Applying the same settings twice gives what applying them once gave. */
  lemma ApplyIdempotent(f: FilterState, ps: seq<Product>)
    ensures Apply(f, Apply(f, ps)) == Apply(f, ps)
  {
    var once := Apply(f, ps);
    ApplyExact(f, ps);
    forall i | 0 <= i < |once| ensures Matches(f, once[i]) {
      assert once[i] in once;
    }
    FilteredAllPass(f, once);
    if k :| ParseSortBy(f.sortBy) == Some(k) {
      SortSpecIdempotent(k, Filtered(f, ps));
    }
  }

  /** `g` admits no product that `f` rejects. */
  predicate Narrower(g: FilterState, f: FilterState) {
    && (g.category == f.category || f.category == AllCategories)
    && (g.store == f.store || f.store == AllStores)
    && f.minPrice <= g.minPrice && g.maxPrice <= f.maxPrice
    && f.minRating <= g.minRating
  }

  /** Every product the narrower settings keep, the wider ones keep too, as often. */
  lemma {:induction false} FilteredMonotone(g: FilterState, f: FilterState, ps: seq<Product>)
    requires Narrower(g, f)
    ensures multiset(Filtered(g, ps)) <= multiset(Filtered(f, ps))
    ensures |Filtered(g, ps)| <= |Filtered(f, ps)|
  {
    if ps != [] {
      FilteredMonotone(g, f, ps[..|ps| - 1]);
    }
    assert |multiset(Filtered(g, ps))| <= |multiset(Filtered(f, ps))|;
  }

  /** Narrowing any filter bound only removes products from the visible list. */
  lemma ApplyMonotone(g: FilterState, f: FilterState, ps: seq<Product>)
    requires Narrower(g, f)
    ensures multiset(Apply(g, ps)) <= multiset(Apply(f, ps))
    ensures |Apply(g, ps)| <= |Apply(f, ps)|
  {
    FilteredMonotone(g, f, ps);
    assert |multiset(Apply(g, ps))| <= |multiset(Apply(f, ps))|;
  }
}
