/**
 * The product record and the normaliser that turns one raw catalogue item,
 * as the search endpoint returns it, into a product, filling defaults.
 */
module Catalog {
  import opened Wrappers
  import opened Text

  /**
   * A product. Prices and ratings are only ever compared, so they are reals;
   * `name`, `url` and `features` are optional because a normalised item can
   * lack them (the normaliser never sets `url` or `features`).
   */
  datatype Product = Product(
    id: string,
    name: Option<string>,
    brand: string,
    price: real,
    originalPrice: Option<real>,
    rating: real,
    reviewCount: int,
    image: string,
    category: string,
    store: string,
    inStock: bool,
    description: string,
    features: Option<seq<string>>,
    tags: seq<string>,
    url: Option<string>)

  /**
   * One raw item of the response. `None` is a missing (or null) key; `id`
   * holds the result of `toString()` on the raw id.
   */
  datatype RawItem = RawItem(
    id: Option<string>,
    name: Option<string>,
    title: Option<string>,
    brand: Option<string>,
    category: Option<string>,
    store: Option<string>,
    price: Option<real>,
    originalPrice: Option<real>,
    rating: Option<real>,
    reviewCount: Option<int>,
    description: Option<string>,
    imageUrl: Option<string>,
    image: Option<string>,
    tags: Option<seq<string>>,
    inStock: Option<bool>)

  const DefaultBrand := "Akira"
  const DefaultCategory := "Other"
  const DefaultStore := "Usman Store"
  const PlaceholderImage := "https://via.placeholder.com/150"

  /** A number is truthy when present and non-zero. */
  predicate TruthyNum(v: Option<real>) {
    v.Some? && v.value != 0.0
  }

  /**
   * `v || 0` on a number: the result is 0 or the given value, and it is
   * non-zero exactly when the given value is truthy.
   */
  function NumOr0(v: Option<real>): (r: real)
    ensures r == 0.0 || v == Some(r)
    ensures TruthyNum(v) <==> r != 0.0
  {
    if TruthyNum(v) then v.value else 0.0
  }

  /**
   * The normalising `map` callback. `fallbackId` stands for the random id
   * used when the raw id is missing or empty.
   */
  function Normalize(p: RawItem, fallbackId: string): (r: Product)
    // every `||` default replaces a missing or falsy value
    ensures r.id == StrOr(p.id, fallbackId)
    ensures r.brand == StrOr(p.brand, DefaultBrand) && r.brand != ""
    ensures r.category == StrOr(p.category, DefaultCategory) && r.category != ""
    ensures r.store == StrOr(p.store, DefaultStore) && r.store != ""
    ensures r.price == NumOr0(p.price) && r.rating == NumOr0(p.rating)
    ensures r.reviewCount == (if p.reviewCount.Some? && p.reviewCount.value != 0 then p.reviewCount.value else 0)
    ensures r.originalPrice == (if TruthyNum(p.originalPrice) then p.originalPrice else None)
    ensures r.description == StrOr(p.description, "")
    ensures r.tags == p.tags.GetOr([])
    // the image prefers `imageUrl`, then `image`, then the placeholder
    ensures r.image == StrOr(p.imageUrl, StrOr(p.image, PlaceholderImage)) && r.image != ""
    // `name || title`, with no default of its own
    ensures TruthyStr(p.name) ==> r.name == p.name
    ensures !TruthyStr(p.name) ==> r.name == p.title
    // `??` keeps an explicit false
    ensures r.inStock <==> p.inStock != Some(false)
    ensures r.url.None? && r.features.None?
  {
    Product(
      id := StrOr(p.id, fallbackId),
      name := if TruthyStr(p.name) then p.name else p.title,
      brand := StrOr(p.brand, DefaultBrand),
      price := NumOr0(p.price),
      originalPrice := if TruthyNum(p.originalPrice) then p.originalPrice else None,
      rating := NumOr0(p.rating),
      reviewCount := if p.reviewCount.Some? && p.reviewCount.value != 0 then p.reviewCount.value else 0,
      image := StrOr(p.imageUrl, StrOr(p.image, PlaceholderImage)),
      category := StrOr(p.category, DefaultCategory),
      store := StrOr(p.store, DefaultStore),
      inStock := p.inStock.GetOr(true),
      description := StrOr(p.description, ""),
      features := None,
      tags := p.tags.GetOr([]),
      url := None)
  }

  /** A product read back as a raw item, every present field as its own key. */
  function AsRaw(q: Product): RawItem {
    RawItem(
      id := Some(q.id), name := q.name, title := None,
      brand := Some(q.brand), category := Some(q.category), store := Some(q.store),
      price := Some(q.price), originalPrice := q.originalPrice, rating := Some(q.rating),
      reviewCount := Some(q.reviewCount), description := Some(q.description),
      imageUrl := None, image := Some(q.image), tags := Some(q.tags),
      inStock := Some(q.inStock))
  }

  /**
   * The products the normaliser leaves alone: no field holds a value that
   * `||` would replace, and the fields it never sets are absent.
   */
  predicate Canonical(q: Product) {
    && q.id != "" && q.brand != "" && q.category != "" && q.store != "" && q.image != ""
    && q.name != Some("") && q.originalPrice != Some(0.0)
    && q.url.None? && q.features.None?
  }

  /** Normalising the raw form of a canonical product gives it back. */
  lemma NormalizeFixesCanonical(q: Product, fallbackId: string)
    requires Canonical(q)
    ensures Normalize(AsRaw(q), fallbackId) == q
  {
  }

  /**
   * A normalised product is canonical, except when the raw item has a falsy
   * name and an empty title, or the fallback id is empty.
   */
  lemma NormalizeIsCanonical(p: RawItem, fallbackId: string)
    requires fallbackId != "" && p.title != Some("")
    ensures Canonical(Normalize(p, fallbackId))
  {
  }
}
