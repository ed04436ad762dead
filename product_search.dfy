/**
 * The product search page's session state: the candidate list chosen by
 * `fetchProducts`, the visible list computed by `applyFilters`, the filter
 * settings, and the page's own wishlist set.
 */
module ProductSearch {
  import opened Wrappers
  import opened Text
  import opened Catalog
  import opened ProductSort
  import opened ProductFilter
  import opened Wishlist

  /**
   * The shape of `response.data` as far as `fetchProducts` looks at it.
   * `Falsy` is undefined, null, "", 0 or false; `Scalar` any other
   * primitive; an array holds items that may be null; an object matters
   * only through its `products` field.
   */
  datatype Body =
    | Falsy
    | Scalar
    | List(items: seq<Option<RawItem>>)
    | Object(products: Body)

  datatype FetchOutcome = NetworkError | Response(data: Body)

  predicate Truthy(b: Body) {
    !b.Falsy?
  }

  /** `response.data?.products || response.data || []`. */
  function Fetched(data: Body): (r: Body)
    ensures data.Object? && Truthy(data.products) ==> r == data.products
    ensures data.Object? && !Truthy(data.products) ==> r == data
    ensures data.List? || data.Scalar? ==> r == data
    ensures data.Falsy? ==> r == List([])
  {
    var products := if data.Object? then data.products else Falsy;
    if Truthy(products) then products
    else if Truthy(data) then data
    else List([])
  }

  /**
   * The normalising `map`: `None` when an item is null (reading its `id`
   * throws); otherwise every item normalised in order, item `i` drawing
   * `freshId(i)` when it has no usable id.
   */
  function NormalizeAll(items: seq<Option<RawItem>>, freshId: nat -> string): (r: Option<seq<Product>>)
    ensures r.Some? <==> forall i :: 0 <= i < |items| ==> items[i].Some?
    ensures r.Some? ==> |r.value| == |items|
    ensures r.Some? ==> forall i :: 0 <= i < |items| ==> r.value[i] == Normalize(items[i].value, freshId(i))
  {
    if forall i :: 0 <= i < |items| ==> items[i].Some? then
      Some(seq(|items|, i requires 0 <= i < |items| => Normalize(items[i].value, freshId(i))))
    else None
  }

  /**
   * The list `fetchProducts` stores, for the query and the request's
   * outcome: the mock catalogue, or one product per item of the reply.
   */
  function Candidates(query: string, outcome: FetchOutcome, mock: seq<Product>, freshId: nat -> string): (r: seq<Product>)
    ensures r == mock || (!Blank(query) && outcome.Response? && Fetched(outcome.data).List?
                          && |r| == |Fetched(outcome.data).items|)
  {
    if Blank(query) then mock
    else match outcome
      case NetworkError => mock
      case Response(data) =>
        match Fetched(data)
        case List(items) => NormalizeAll(items, freshId).GetOr(mock)
        case _ => mock
  }

  /** A blank query, or a failed request, leaves the mock catalogue. */
  lemma CandidatesFallBack(query: string, outcome: FetchOutcome, mock: seq<Product>, freshId: nat -> string)
    requires Blank(query) || outcome.NetworkError?
    ensures Candidates(query, outcome, mock, freshId) == mock
  {
  }

  /**
   * A body whose list is `data.products`, or `data` itself, gives that list
   * normalised when no item is null; a body with no list makes `.map`
   * throw and falls back to the mock catalogue.
   */
  lemma CandidatesFromBody(query: string, data: Body, mock: seq<Product>, freshId: nat -> string)
    requires !Blank(query)
    ensures Fetched(data).List? && NormalizeAll(Fetched(data).items, freshId).Some? ==>
      Candidates(query, Response(data), mock, freshId) == NormalizeAll(Fetched(data).items, freshId).value
    ensures !Fetched(data).List? || NormalizeAll(Fetched(data).items, freshId).None? ==>
      Candidates(query, Response(data), mock, freshId) == mock
    ensures data.Falsy? ==> Candidates(query, Response(data), mock, freshId) == []
  {
  }

  /** Every fetched product is well formed whenever the fresh ids are non-empty and no title is "". */
  lemma CandidatesCanonical(query: string, outcome: FetchOutcome, mock: seq<Product>, freshId: nat -> string, i: int)
    requires forall n: nat :: freshId(n) != ""
    requires outcome.Response? && Fetched(outcome.data).List?
    requires forall j :: 0 <= j < |Fetched(outcome.data).items| ==>
      Fetched(outcome.data).items[j].Some? ==> Fetched(outcome.data).items[j].value.title != Some("")
    requires 0 <= i < |Candidates(query, outcome, mock, freshId)|
    ensures Canonical(Candidates(query, outcome, mock, freshId)[i]) || Candidates(query, outcome, mock, freshId) == mock
  {
    var items := Fetched(outcome.data).items;
    var r := NormalizeAll(items, freshId);
    if !Blank(query) && r.Some? {
      NormalizeIsCanonical(items[i].value, freshId(i));
    }
  }

  const MaxPriceDefault: real := 2000.0

  /** The search page's state. */
  class SearchSession {
    const mockProducts: seq<Product>
    var products: seq<Product>
    var filteredProducts: seq<Product>
    var searchQuery: string
    var selectedCategory: string
    var selectedStore: string
    var priceLow: real
    var priceHigh: real
    var minRating: real
    var sortBy: string
    var wishlist: set<string>

    /** The initial state, from the `q` and `category` URL parameters. */
    constructor(mock: seq<Product>, qParam: Option<string>, categoryParam: Option<string>)
      ensures mockProducts == mock && products == mock && filteredProducts == mock
      ensures searchQuery == (if qParam.Some? && qParam.value != "" then qParam.value else "")
      ensures selectedCategory == (if categoryParam.Some? && categoryParam.value != "" then categoryParam.value else AllCategories)
      ensures selectedStore == AllStores && priceLow == 0.0 && priceHigh == MaxPriceDefault
      ensures minRating == 0.0 && sortBy == "relevance" && wishlist == {}
    {
      mockProducts := mock;
      products := mock;
      filteredProducts := mock;
      searchQuery := if qParam.Some? && qParam.value != "" then qParam.value else "";
      selectedCategory := if categoryParam.Some? && categoryParam.value != "" then categoryParam.value else AllCategories;
      selectedStore := AllStores;
      priceLow, priceHigh := 0.0, MaxPriceDefault;
      minRating := 0.0;
      sortBy := "relevance";
      wishlist := {};
    }

    /**
     * The current filter and sort settings: a product passes them exactly
     * when it meets the page's category, store, price-range and rating
     * conditions, and the order is the page's `sortBy`.
     */
    function Filters(): (f: FilterState)
      reads this
      ensures forall p :: Matches(f, p) <==>
        && (selectedCategory == AllCategories || p.category == selectedCategory)
        && (selectedStore == AllStores || p.store == selectedStore)
        && priceLow <= p.price <= priceHigh
        && p.rating >= minRating
      ensures f.sortBy == sortBy
    {
      FilterState(selectedCategory, selectedStore, priceLow, priceHigh, minRating, sortBy)
    }

    /**
     * `fetchProducts`: `requested` is whether a request is issued, and
     * `outcome` stands for what it returned.
     */
    method FetchProducts(outcome: FetchOutcome, freshId: nat -> string) returns (requested: bool)
      modifies this`products
      ensures requested <==> !Blank(searchQuery)
      ensures products == Candidates(searchQuery, outcome, mockProducts, freshId)
    {
      requested := !Blank(searchQuery);
      if !requested {
        products := mockProducts;
        return;
      }
      if outcome.NetworkError? {
        products := mockProducts;
        return;
      }
      var fetched := Fetched(outcome.data);
      if !fetched.List? {
        products := mockProducts;
        return;
      }
      var normalized := NormalizeAll(fetched.items, freshId);
      if normalized.None? {
        products := mockProducts;
      } else {
        products := normalized.value;
      }
    }

    /**
     * `applyFilters`: filter, sort the filtered array in place, store it.
     * The stored list holds exactly the passing products, ordered as the
     * sort order demands (see the lemmas of `ProductFilter`).
     */
    method ApplyFilters(productList: seq<Product>)
      modifies this`filteredProducts
      ensures filteredProducts == Apply(Filters(), productList)
    {
      var filtered := Filtered(Filters(), productList);
      var key := ParseSortBy(sortBy);
      if key.Some? {
        var a := new Product[|filtered|](i requires 0 <= i < |filtered| => filtered[i]);
        assert a[..] == filtered;
        InsertionSort(a, key.value);
        filtered := a[..];
      }
      filteredProducts := filtered;
    }

    /** The page's own `toggleWishlist`: flip one id. */
    method ToggleWishlist(productId: string)
      modifies this`wishlist
      ensures wishlist == Flip(old(wishlist), productId)
    {
      var newWishlist := wishlist;
      if productId in newWishlist {
        newWishlist := newWishlist - {productId};
      } else {
        newWishlist := newWishlist + {productId};
      }
      wishlist := newWishlist;
    }

    /** The "Clear Filters" button: everything but the sort order back to its default. */
    method ClearFilters()
      modifies this`searchQuery, this`selectedCategory, this`selectedStore, this`priceLow, this`priceHigh, this`minRating
      ensures searchQuery == "" && selectedCategory == AllCategories && selectedStore == AllStores
      ensures priceLow == 0.0 && priceHigh == MaxPriceDefault && minRating == 0.0
      ensures sortBy == old(sortBy)
    {
      searchQuery := "";
      selectedCategory := AllCategories;
      selectedStore := AllStores;
      priceLow, priceHigh := 0.0, MaxPriceDefault;
      minRating := 0.0;
    }
  }

  /** After Clear Filters every product passes whenever its price lies in [0, 2000] and its rating is not negative. */
  lemma ClearedFilterAdmits(sortBy: string, p: Product)
    requires 0.0 <= p.price <= MaxPriceDefault && p.rating >= 0.0
    ensures Matches(FilterState(AllCategories, AllStores, 0.0, MaxPriceDefault, 0.0, sortBy), p)
  {
  }

  /** After Clear Filters the query is blank, so the next fetch restores the mock catalogue. */
  lemma ClearedQueryUsesMock(outcome: FetchOutcome, mock: seq<Product>, freshId: nat -> string)
    ensures Candidates("", outcome, mock, freshId) == mock
  {
  }
}
