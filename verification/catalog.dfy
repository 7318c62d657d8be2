/** The mock catalog API (src/utils/api.ts): the filtered, sorted and paged
    product query, lookup by id, related products, featured collections and
    the best-seller, new-arrival and featured-product lists. The network delay
    is dropped, so every call is synchronous. Prices are integer cents,
    ratings integers and `createdAt` a timestamp. */
module Catalog {
  import opened Options
  import opened Seqs
  import opened Sorting
  import opened Text

  datatype Product = Product(
    id: string,
    name: string,
    description: string,
    price: int,
    compareAtPrice: Option<int>,
    images: seq<string>,
    category: string,
    collections: seq<string>,
    tags: seq<string>,
    colors: Option<seq<string>>,
    sizes: Option<seq<string>>,
    rating: int,
    reviewCount: int,
    stock: int,
    isNew: bool,
    isFeatured: bool,
    createdAt: int)

  datatype SortKey = PriceAsc | PriceDesc | Newest | Popular

  /** The options of `getFilteredProducts`; `None` is an option left out. */
  datatype Query = Query(
    category: Option<string>,
    collection: Option<string>,
    minPrice: Option<int>,
    maxPrice: Option<int>,
    colors: Option<seq<string>>,
    sizes: Option<seq<string>>,
    sort: Option<SortKey>,
    search: Option<string>,
    page: Option<int>,
    limit: Option<int>)

  /** One page of the query's result. */
  datatype Listing = Listing(products: seq<Product>, total: nat, page: int, limit: int, totalPages: int)

  /** The seven filters of the query, in the order they are applied. */
  datatype Criterion = ByCategory | ByCollection | ByMinPrice | ByMaxPrice | ByColors | BySizes | BySearch

  const AllCriteria: seq<Criterion> := [ByCategory, ByCollection, ByMinPrice, ByMaxPrice, ByColors, BySizes, BySearch]

  /** `have` is present and shares at least one entry with `wanted`. */
  predicate SharesOne(have: Option<seq<string>>, wanted: seq<string>)
  {
    have.Some? && exists c :: c in have.value && c in wanted
  }

  /** Whether product `p` passes filter `c` of query `q`. A filter whose option
      is missing, or falsy in JavaScript's sense (an empty string, an empty
      list, a zero maximum price), lets every product pass. */
  predicate Passes(q: Query, c: Criterion, p: Product)
  {
    match c
    case ByCategory => q.category.None? || q.category.value == "" || p.category == q.category.value
    case ByCollection => q.collection.None? || q.collection.value == "" || q.collection.value in p.collections
    // `options.minPrice || 0`: a zero minimum is its own default
    case ByMinPrice => q.minPrice.None? || p.price >= q.minPrice.value
    // `options.maxPrice || Infinity`: a zero maximum is no bound at all
    case ByMaxPrice => q.maxPrice.None? || q.maxPrice.value == 0 || p.price <= q.maxPrice.value
    case ByColors => q.colors.None? || q.colors.value == [] || SharesOne(p.colors, q.colors.value)
    case BySizes => q.sizes.None? || q.sizes.value == [] || SharesOne(p.sizes, q.sizes.value)
    case BySearch =>
      q.search.None? || q.search.value == ""
      || ContainsIgnoringCase(p.name, q.search.value)
      || ContainsIgnoringCase(p.description, q.search.value)
  }

  /** `p` passes every filter of `q`. */
  ghost predicate Matches(q: Query, p: Product)
  {
    forall c: Criterion :: Passes(q, c, p)
  }

  /** The products of `catalog` that pass every filter, in catalog order. */
  ghost function Matching(catalog: seq<Product>, q: Query): seq<Product>
  {
    Filter(catalog, (p: Product) => Matches(q, p))
  }

  /** The ascending sort key of each sort option; the comparators of the
      descending options are the ascending ones with the operands swapped. */
  function KeyFor(k: SortKey): Product -> int
  {
    match k
    case PriceAsc => (p: Product) => p.price
    case PriceDesc => (p: Product) => -p.price
    case Newest => (p: Product) => -p.createdAt
    case Popular => (p: Product) => -p.rating
  }

  /** The result list of the query before paging: the matching products,
      sorted when a sort option is given. */
  ghost function Selected(catalog: seq<Product>, q: Query): seq<Product>
  {
    var m := Matching(catalog, q);
    if q.sort.None? then m else SortBy(m, KeyFor(q.sort.value))
  }

  /** `Math.ceil(a / b)`. */
  function CeilDiv(a: nat, b: int): (r: int)
    requires b != 0
    ensures b > 0 ==> (r - 1) * b < a <= r * b
  {
    if b > 0 then
      var d := a / b;
      if d * b == a then d else d + 1
    else -(a / -b)
  }

  /** Keeps the products of `s` that pass filter `c`. */
  function Narrow(s: seq<Product>, q: Query, c: Criterion): seq<Product>
  {
    Filter(s, (p: Product) => Passes(q, c, p))
  }

  /** Whether the query switches filter `c` on: the guard in front of each
      filter of the source. */
  predicate Active(q: Query, c: Criterion)
  {
    match c
    case ByCategory => q.category.Some? && q.category.value != ""
    case ByCollection => q.collection.Some? && q.collection.value != ""
    case ByMinPrice => q.minPrice.Some?
    case ByMaxPrice => q.maxPrice.Some?
    case ByColors => q.colors.Some? && |q.colors.value| > 0
    case BySizes => q.sizes.Some? && |q.sizes.value| > 0
    case BySearch => q.search.Some? && q.search.value != ""
  }

  /** One guarded filter step of `getFilteredProducts`: when the filter is
      switched on, `filtered` is narrowed by it, otherwise it is kept. Either
      way the products left are those that pass the filters so far. */
  method NarrowIfActive(catalog: seq<Product>, q: Query, filtered: seq<Product>, ghost done: seq<Criterion>, c: Criterion)
    returns (f: seq<Product>)
    requires filtered == Survivors(catalog, q, done)
    ensures f == Survivors(catalog, q, done + [c])
    ensures !Active(q, c) ==> f == filtered
  {
    if Active(q, c) {
      NarrowStep(catalog, q, done, c);
      f := Narrow(filtered, q, c);
    } else {
      SkipStep(catalog, q, done, c);
      f := filtered;
    }
  }

  /** The filter stage of `getFilteredProducts`: category, collection,
      minimum and maximum price, colors, sizes and search, in this order.
      What is left is exactly the catalog's matching products, in catalog
      order. */
  method FilterCatalog(catalog: seq<Product>, q: Query) returns (filtered: seq<Product>)
    ensures filtered == Matching(catalog, q)
  {
    filtered := catalog;
    ghost var done: seq<Criterion> := [];
    FilterAll(catalog, (p: Product) => PassesAll(q, done, p));
    filtered := NarrowIfActive(catalog, q, filtered, done, ByCategory);
    done := done + [ByCategory];
    filtered := NarrowIfActive(catalog, q, filtered, done, ByCollection);
    done := done + [ByCollection];
    filtered := NarrowIfActive(catalog, q, filtered, done, ByMinPrice);
    done := done + [ByMinPrice];
    filtered := NarrowIfActive(catalog, q, filtered, done, ByMaxPrice);
    done := done + [ByMaxPrice];
    filtered := NarrowIfActive(catalog, q, filtered, done, ByColors);
    done := done + [ByColors];
    filtered := NarrowIfActive(catalog, q, filtered, done, BySizes);
    done := done + [BySizes];
    filtered := NarrowIfActive(catalog, q, filtered, done, BySearch);
    done := done + [BySearch];
    SurvivorsOfAll(catalog, q, done);
  }

  /** `getFilteredProducts`: filters a copy of the catalog, sorts it when a
      sort option is given, and returns the requested page together with the
      total count and the number of pages. */
  method GetFilteredProducts(catalog: seq<Product>, q: Query) returns (r: Listing)
    ensures q.page.None? || q.page == Some(0) ==> r.page == 1
    ensures q.page.Some? && q.page.value != 0 ==> r.page == q.page.value
    ensures q.limit.None? || q.limit == Some(0) ==> r.limit == 12
    ensures q.limit.Some? && q.limit.value != 0 ==> r.limit == q.limit.value
    ensures r.total == |Selected(catalog, q)|
    ensures r.products == JsSlice(Selected(catalog, q), (r.page - 1) * r.limit, (r.page - 1) * r.limit + r.limit)
    ensures r.page >= 1 && r.limit >= 1 ==> |r.products| <= r.limit
    ensures r.limit != 0 && r.totalPages == CeilDiv(r.total, r.limit)
  {
    var filtered := FilterCatalog(catalog, q);
    if q.sort.Some? {
      filtered := SortBy(filtered, KeyFor(q.sort.value));
    }
    assert filtered == Selected(catalog, q);
    r := Paginate(filtered, q.page, q.limit);
  }

  /** The page of the filtered and sorted list that the options ask for:
      `page` defaults to 1 and `limit` to 12 when missing or 0. */
  method Paginate(filtered: seq<Product>, pageOption: Option<int>, limitOption: Option<int>) returns (r: Listing)
    ensures pageOption.None? || pageOption == Some(0) ==> r.page == 1
    ensures pageOption.Some? && pageOption.value != 0 ==> r.page == pageOption.value
    ensures limitOption.None? || limitOption == Some(0) ==> r.limit == 12
    ensures limitOption.Some? && limitOption.value != 0 ==> r.limit == limitOption.value
    ensures r.total == |filtered|
    ensures r.products == JsSlice(filtered, (r.page - 1) * r.limit, (r.page - 1) * r.limit + r.limit)
    ensures r.page >= 1 && r.limit >= 1 ==> |r.products| <= r.limit
    ensures r.limit != 0 && r.totalPages == CeilDiv(r.total, r.limit)
  {
    var page := if pageOption.None? || pageOption.value == 0 then 1 else pageOption.value;
    var limit := if limitOption.None? || limitOption.value == 0 then 12 else limitOption.value;
    var startIndex := (page - 1) * limit;
    var endIndex := startIndex + limit;
    if page >= 1 && limit >= 1 {
      MulNonNegative(page - 1, limit);
    }
    r := Listing(JsSlice(filtered, startIndex, endIndex), |filtered|, page, limit, CeilDiv(|filtered|, limit));
  }

  lemma MulNonNegative(a: int, b: int)
    requires a >= 0 && b >= 0
    ensures a * b >= 0
  {
  }

  // ----- The filter chain equals the one-pass conjunction -----

  /** `p` passes every filter listed in `done`. */
  ghost predicate PassesAll(q: Query, done: seq<Criterion>, p: Product)
  {
    forall c :: c in done ==> Passes(q, c, p)
  }

  /** What is left of the catalog after the filters in `done`. */
  ghost function Survivors(catalog: seq<Product>, q: Query, done: seq<Criterion>): seq<Product>
  {
    Filter(catalog, (p: Product) => PassesAll(q, done, p))
  }

  lemma NarrowStep(catalog: seq<Product>, q: Query, done: seq<Criterion>, c: Criterion)
    ensures Narrow(Survivors(catalog, q, done), q, c) == Survivors(catalog, q, done + [c])
  {
    FilterTwice(catalog, p => PassesAll(q, done, p), p => Passes(q, c, p), p => PassesAll(q, done + [c], p));
  }

  /** A filter that the query does not switch on keeps every product. */
  lemma SkipStep(catalog: seq<Product>, q: Query, done: seq<Criterion>, c: Criterion)
    requires !Active(q, c)
    ensures Survivors(catalog, q, done) == Survivors(catalog, q, done + [c])
  {
    FilterCongruent(catalog, p => PassesAll(q, done, p), p => PassesAll(q, done + [c], p));
  }

  lemma SurvivorsOfAll(catalog: seq<Product>, q: Query, done: seq<Criterion>)
    requires done == AllCriteria
    ensures Survivors(catalog, q, done) == Matching(catalog, q)
  {
    forall p | p in catalog
      ensures PassesAll(q, done, p) == Matches(q, p)
    {
      if PassesAll(q, done, p) {
        forall c: Criterion
          ensures Passes(q, c, p)
        {
          match c
          case ByCategory => assert done[0] == c;
          case ByCollection => assert done[1] == c;
          case ByMinPrice => assert done[2] == c;
          case ByMaxPrice => assert done[3] == c;
          case ByColors => assert done[4] == c;
          case BySizes => assert done[5] == c;
          case BySearch => assert done[6] == c;
        }
      }
    }
    FilterCongruent(catalog, p => PassesAll(q, done, p), p => Matches(q, p));
  }

  // ----- Properties of the query -----

  /** Every product of the result comes from the catalog and satisfies every
      filter given: the category, the collection, the price bounds, at least
      one listed color and one listed size, and the case-insensitive search in
      name or description; every such catalog product is in the result. A
      product without colors (sizes) never survives a non-empty color (size)
      filter. */
  lemma SelectedMatches(catalog: seq<Product>, q: Query, p: Product)
    ensures p in Selected(catalog, q) <==> p in catalog && Matches(q, p)
    ensures p in Selected(catalog, q) ==>
      && (q.category.Some? && q.category.value != "" ==> p.category == q.category.value)
      && (q.collection.Some? && q.collection.value != "" ==> q.collection.value in p.collections)
      && (q.minPrice.Some? ==> p.price >= q.minPrice.value)
      && (q.maxPrice.Some? && q.maxPrice.value != 0 ==> p.price <= q.maxPrice.value)
      && (q.colors.Some? && q.colors.value != [] ==> p.colors.Some? && exists c :: c in p.colors.value && c in q.colors.value)
      && (q.sizes.Some? && q.sizes.value != [] ==> p.sizes.Some? && exists s :: s in p.sizes.value && s in q.sizes.value)
      && (q.search.Some? && q.search.value != "" ==>
            ContainsIgnoringCase(p.name, q.search.value) || ContainsIgnoringCase(p.description, q.search.value))
  {
    var m := Matching(catalog, q);
    if q.sort.Some? {
      assert multiset(Selected(catalog, q)) == multiset(m);
      assert p in Selected(catalog, q) <==> p in multiset(m);
    }
    if p in Selected(catalog, q) {
      assert p in m;
      assert Matches(q, p);
      assert Passes(q, ByCategory, p) && Passes(q, ByCollection, p) && Passes(q, ByMinPrice, p);
      assert Passes(q, ByMaxPrice, p) && Passes(q, ByColors, p) && Passes(q, BySizes, p) && Passes(q, BySearch, p);
    }
  }

  /** Without a sort option the result keeps catalog order; with one it is a
      rearrangement of the matching products, ordered by the option: price
      up, price down, newest first, or best rated first. */
  lemma SelectedOrder(catalog: seq<Product>, q: Query)
    ensures q.sort.None? ==> Selected(catalog, q) == Matching(catalog, q) && IsSubsequence(Selected(catalog, q), catalog)
    ensures multiset(Selected(catalog, q)) == multiset(Matching(catalog, q))
    ensures var s := Selected(catalog, q);
      && (q.sort == Some(PriceAsc) ==> forall i, j :: 0 <= i < j < |s| ==> s[i].price <= s[j].price)
      && (q.sort == Some(PriceDesc) ==> forall i, j :: 0 <= i < j < |s| ==> s[i].price >= s[j].price)
      && (q.sort == Some(Newest) ==> forall i, j :: 0 <= i < j < |s| ==> s[i].createdAt >= s[j].createdAt)
      && (q.sort == Some(Popular) ==> forall i, j :: 0 <= i < j < |s| ==> s[i].rating >= s[j].rating)
  {
    var s := Selected(catalog, q);
    if q.sort.Some? {
      var key := KeyFor(q.sort.value);
      assert SortedBy(s, key);
      forall i, j | 0 <= i < j < |s|
        ensures key(s[i]) <= key(s[j])
      {
      }
    }
  }

  /** `maxPrice: 0` is the same as no maximum: `0 || Infinity` is `Infinity`. */
  lemma ZeroMaxPriceIsNoBound(catalog: seq<Product>, q: Query)
    requires q.maxPrice == Some(0)
    ensures Selected(catalog, q) == Selected(catalog, q.(maxPrice := None))
  {
    var unbounded := q.(maxPrice := None);
    forall p | p in catalog
      ensures Matches(q, p) == Matches(unbounded, p)
    {
      forall c: Criterion
        ensures Passes(q, c, p) == Passes(unbounded, c, p)
      {
      }
    }
    FilterCongruent(catalog, p => Matches(q, p), p => Matches(unbounded, p));
  }

  /** Paging with a page of at least 1 and a positive limit: the page is the
      slice `[(page - 1) * limit, page * limit)` of the result, cut at its end,
      and `totalPages` is the number of pages needed to hold all of it. */
  lemma PageIsSlice(s: seq<Product>, page: int, limit: int)
    requires page >= 1 && limit >= 1
    ensures var start := (page - 1) * limit;
      && 0 <= start
      && (start <= |s| ==> JsSlice(s, start, start + limit) == s[start..if start + limit <= |s| then start + limit else |s|])
      && (start > |s| ==> JsSlice(s, start, start + limit) == [])
      && |JsSlice(s, start, start + limit)| <= limit
      && (CeilDiv(|s|, limit) - 1) * limit < |s| <= CeilDiv(|s|, limit) * limit
  {
    MulNonNegative(page - 1, limit);
  }

  // ----- Lookup and the other lists -----

  /** `products.find(p => p.id === id)`. */
  function FindById(catalog: seq<Product>, id: string): (r: Option<Product>)
    ensures r.Some? ==> r.value in catalog && r.value.id == id
    ensures r.None? <==> forall p :: p in catalog ==> p.id != id
    ensures r.Some? ==> exists k :: 0 <= k < |catalog| && catalog[k] == r.value && forall j :: 0 <= j < k ==> catalog[j].id != id
  {
    if catalog == [] then None
    else if catalog[0].id == id then Some(catalog[0])
    else
      var r := FindById(catalog[1..], id);
      assert forall k :: 1 <= k < |catalog| ==> catalog[1..][k - 1] == catalog[k];
      assert forall p :: p in catalog ==> p == catalog[0] || p in catalog[1..];
      r
  }

  /** The number given for an optional `limit` parameter, or its default. */
  function LimitOr(limit: Option<int>, default: int): int
  {
    if limit.None? then default else limit.value
  }

  /** `tags.some(tag => others.includes(tag))`. */
  predicate SharesTag(tags: seq<string>, others: seq<string>)
  {
    exists t :: t in tags && t in others
  }

  /** The products related to the one with id `productId`, before shuffling:
      none if that id is unknown, otherwise every other product with the same
      category or a shared tag. */
  function RelatedCandidates(catalog: seq<Product>, productId: string): seq<Product>
  {
    match FindById(catalog, productId)
    case None => []
    case Some(product) =>
      Filter(catalog, (p: Product) => p.id != productId && (p.category == product.category || SharesTag(p.tags, product.tags)))
  }

  /** `getRelatedProducts(productId, limit = 4)`; `order` is the outcome of the
      random shuffle. */
  function GetRelatedProducts(catalog: seq<Product>, productId: string, limit: Option<int>, order: seq<nat>): (r: seq<Product>)
    requires IsPermutation(order, |RelatedCandidates(catalog, productId)|)
    ensures FindById(catalog, productId).None? ==> r == []
    ensures forall p :: p in r ==> p in catalog && p.id != productId
    ensures FindById(catalog, productId).Some? ==>
      var product := FindById(catalog, productId).value;
      forall p :: p in r ==> p.category == product.category || SharesTag(p.tags, product.tags)
    ensures multiset(r) <= multiset(RelatedCandidates(catalog, productId))
    ensures LimitOr(limit, 4) >= 0 ==> |r| <= LimitOr(limit, 4)
  {
    var candidates := RelatedCandidates(catalog, productId);
    var shuffled := Permute(candidates, order);
    var r := JsSlice(shuffled, 0, LimitOr(limit, 4));
    JsSliceMultiset(shuffled, 0, LimitOr(limit, 4));
    forall p | p in r
      ensures p in catalog && p.id != productId
      ensures FindById(catalog, productId).Some? ==>
        p.category == FindById(catalog, productId).value.category || SharesTag(p.tags, FindById(catalog, productId).value.tags)
    {
      assert p in multiset(candidates);
      RelatedCandidate(catalog, productId, p);
    }
    r
  }

  /** What makes a product a related candidate. */
  lemma RelatedCandidate(catalog: seq<Product>, productId: string, p: Product)
    requires p in RelatedCandidates(catalog, productId)
    ensures FindById(catalog, productId).Some?
    ensures p in catalog && p.id != productId
    ensures var product := FindById(catalog, productId).value;
      p.category == product.category || SharesTag(p.tags, product.tags)
  {
  }

  /** A featured collection as the data lists it: product ids. */
  datatype FeaturedCollection = FeaturedCollection(id: string, name: string, slug: string, image: string, productIds: seq<string>)

  /** A featured collection as the API returns it: the products themselves. */
  datatype ResolvedCollection = ResolvedCollection(id: string, name: string, slug: string, image: string, products: seq<Product>)

  /** `ids.map(id => products.find(...)).filter(Boolean)`. */
  function ResolveIds(catalog: seq<Product>, ids: seq<string>): (r: seq<Product>)
    ensures |r| <= |ids|
    ensures forall p :: p in r ==> p in catalog && p.id in ids
  {
    if ids == [] then []
    else
      var rest := ResolveIds(catalog, ids[1..]);
      match FindById(catalog, ids[0])
      case None => rest
      case Some(p) => [p] + rest
  }

  /** Resolving follows the id list: the products of a concatenation of id
      lists are the concatenated products, an unknown id contributes nothing
      and a known id exactly its product. */
  lemma {:induction false} ResolveIdsAppend(catalog: seq<Product>, ids: seq<string>, more: seq<string>)
    ensures ResolveIds(catalog, ids + more) == ResolveIds(catalog, ids) + ResolveIds(catalog, more)
  {
    if ids == [] {
      assert ids + more == more;
    } else {
      assert (ids + more)[1..] == ids[1..] + more;
      ResolveIdsAppend(catalog, ids[1..], more);
    }
  }

  /** When every id is known, the i-th product is the one with the i-th id. */
  lemma {:induction false} ResolveKnownIds(catalog: seq<Product>, ids: seq<string>)
    requires forall k :: 0 <= k < |ids| ==> FindById(catalog, ids[k]).Some?
    ensures |ResolveIds(catalog, ids)| == |ids|
    ensures forall k :: 0 <= k < |ids| ==> ResolveIds(catalog, ids)[k].id == ids[k]
  {
    if ids != [] {
      ResolveKnownIds(catalog, ids[1..]);
      var r := ResolveIds(catalog, ids);
      assert r == [FindById(catalog, ids[0]).value] + ResolveIds(catalog, ids[1..]);
      forall k | 0 <= k < |ids|
        ensures r[k].id == ids[k]
      {
        if k > 0 {
          assert ids[1..][k - 1] == ids[k];
        }
      }
    }
  }

  /** `getFeaturedCollections`: each featured collection with its ids
      replaced by the products they name. */
  function GetFeaturedCollections(featured: seq<FeaturedCollection>, catalog: seq<Product>): (r: seq<ResolvedCollection>)
    ensures |r| == |featured|
    ensures forall k :: 0 <= k < |r| ==>
      && r[k].id == featured[k].id && r[k].name == featured[k].name
      && r[k].slug == featured[k].slug && r[k].image == featured[k].image
      && r[k].products == ResolveIds(catalog, featured[k].productIds)
  {
    Map(featured, (c: FeaturedCollection) => ResolvedCollection(c.id, c.name, c.slug, c.image, ResolveIds(catalog, c.productIds)))
  }

  /** The products listed in the "best-sellers" collection. */
  function BestSellerMembers(catalog: seq<Product>): seq<Product>
  {
    Filter(catalog, (p: Product) => "best-sellers" in p.collections)
  }

  /** `getBestSellers(limit = 8)`: the best-selling products, highest rated
      first, cut after `limit`: the result is the top-rated part of the
      collection, each product taken as often as it is listed. */
  function GetBestSellers(catalog: seq<Product>, limit: Option<int>): (r: seq<Product>)
    ensures forall p :: p in r ==> p in catalog && "best-sellers" in p.collections
    ensures multiset(r) <= multiset(BestSellerMembers(catalog))
    ensures forall i, j :: 0 <= i < j < |r| ==> r[i].rating >= r[j].rating
    ensures forall p, q :: p in BestSellerMembers(catalog) && p !in r && q in r ==> q.rating >= p.rating
    ensures LimitOr(limit, 8) >= 0 ==> |r| == if LimitOr(limit, 8) < |BestSellerMembers(catalog)| then LimitOr(limit, 8) else |BestSellerMembers(catalog)|
  {
    var members := BestSellerMembers(catalog);
    var sorted := SortBy(members, (p: Product) => -p.rating);
    var r := JsSlice(sorted, 0, LimitOr(limit, 8));
    assert forall i, j :: 0 <= i < j < |sorted| ==> sorted[i].rating >= sorted[j].rating by {
      forall i, j | 0 <= i < j < |sorted|
        ensures sorted[i].rating >= sorted[j].rating
      {
        assert SortedBy(sorted, (p: Product) => -p.rating);
      }
    }
    RankedPrefix(members, sorted, r);
    r
  }

  /** A prefix of a list ranked by rating, highest first, holds only listed
      products, is itself ranked, and every product it leaves out is rated no
      higher than any it keeps. */
  lemma RankedPrefix(members: seq<Product>, sorted: seq<Product>, r: seq<Product>)
    requires multiset(sorted) == multiset(members)
    requires forall i, j :: 0 <= i < j < |sorted| ==> sorted[i].rating >= sorted[j].rating
    requires |r| <= |sorted| && forall k :: 0 <= k < |r| ==> r[k] == sorted[k]
    ensures forall p :: p in r ==> p in members
    ensures multiset(r) <= multiset(members)
    ensures forall i, j :: 0 <= i < j < |r| ==> r[i].rating >= r[j].rating
    ensures forall p, q :: p in members && p !in r && q in r ==> q.rating >= p.rating
  {
    assert sorted == r + sorted[|r|..] by {
      assert r == sorted[..|r|];
    }
    assert multiset(sorted) == multiset(r) + multiset(sorted[|r|..]);
    forall p | p in r
      ensures p in members
    {
      assert p in multiset(sorted);
    }
    forall p, q | p in members && p !in r && q in r
      ensures q.rating >= p.rating
    {
      assert p in multiset(members);
      LeftOutRanksLower(sorted, r, p, q);
    }
  }

  /** A product of a ranked list that its prefix leaves out comes after every
      product the prefix keeps. */
  lemma LeftOutRanksLower(sorted: seq<Product>, r: seq<Product>, p: Product, q: Product)
    requires forall i, j :: 0 <= i < j < |sorted| ==> sorted[i].rating >= sorted[j].rating
    requires |r| <= |sorted| && forall k :: 0 <= k < |r| ==> r[k] == sorted[k]
    requires p in sorted && p !in r && q in r
    ensures q.rating >= p.rating
  {
    var j :| 0 <= j < |sorted| && sorted[j] == p;
    var i :| 0 <= i < |r| && r[i] == q;
    assert forall k :: 0 <= k < |r| ==> r[k] in r;
    assert j >= |r|;
    assert sorted[i] == q;
  }

  /** The products flagged new. */
  function NewProducts(catalog: seq<Product>): seq<Product>
  {
    Filter(catalog, (p: Product) => p.isNew)
  }

  /** `getNewArrivals(limit = 8)`; `order` is the outcome of the shuffle. */
  function GetNewArrivals(catalog: seq<Product>, limit: Option<int>, order: seq<nat>): (r: seq<Product>)
    requires IsPermutation(order, |NewProducts(catalog)|)
    ensures forall p :: p in r ==> p in catalog && p.isNew
    ensures multiset(r) <= multiset(NewProducts(catalog))
    ensures LimitOr(limit, 8) >= 0 ==> |r| == if LimitOr(limit, 8) < |NewProducts(catalog)| then LimitOr(limit, 8) else |NewProducts(catalog)|
  {
    var shuffled := Permute(NewProducts(catalog), order);
    var r := JsSlice(shuffled, 0, LimitOr(limit, 8));
    JsSliceMultiset(shuffled, 0, LimitOr(limit, 8));
    assert forall k :: 0 <= k < |r| ==> r[k] == shuffled[k];
    r
  }

  /** The products flagged featured. */
  function FeaturedProducts(catalog: seq<Product>): seq<Product>
  {
    Filter(catalog, (p: Product) => p.isFeatured)
  }

  /** `getFeaturedProducts(limit = 4)`; `order` is the outcome of the shuffle. */
  function GetFeaturedProducts(catalog: seq<Product>, limit: Option<int>, order: seq<nat>): (r: seq<Product>)
    requires IsPermutation(order, |FeaturedProducts(catalog)|)
    ensures forall p :: p in r ==> p in catalog && p.isFeatured
    ensures multiset(r) <= multiset(FeaturedProducts(catalog))
    ensures LimitOr(limit, 4) >= 0 ==> |r| == if LimitOr(limit, 4) < |FeaturedProducts(catalog)| then LimitOr(limit, 4) else |FeaturedProducts(catalog)|
  {
    var shuffled := Permute(FeaturedProducts(catalog), order);
    var r := JsSlice(shuffled, 0, LimitOr(limit, 4));
    JsSliceMultiset(shuffled, 0, LimitOr(limit, 4));
    assert forall k :: 0 <= k < |r| ==> r[k] == shuffled[k];
    r
  }
}
