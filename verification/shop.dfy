/** The shop page (src/pages/ShopPage.tsx): the products flattened out of the
    collections, the `type` URL parameter, the filter toggle that keeps that
    parameter in step, the filter-and-sort effect and the per-filter product
    counts. Prices are integer cents; the random shuffles are given as
    permutations. */
module Shop {
  import opened Options
  import opened Seqs
  import opened Sorting
  import opened Collections

  /** A collection as the shop page lists it. */
  datatype ShopCollection = ShopCollection(id: int, name: string, items: seq<CollectionItem>)

  /** A collection item tagged with the name of its collection. */
  datatype ShopProduct = ShopProduct(item: CollectionItem, collection: string)

  // ----- Flattening -----

  /** `collection.items.map(item => ({...item, collection: collection.name}))`. */
  function Tag(c: ShopCollection): (r: seq<ShopProduct>)
    ensures |r| == |c.items|
    ensures forall i :: 0 <= i < |r| ==> r[i] == ShopProduct(c.items[i], c.name)
  {
    Map(c.items, (it: CollectionItem) => ShopProduct(it, c.name))
  }

  /** `collections.flatMap(...)`. */
  function Flatten(cs: seq<ShopCollection>): seq<ShopProduct>
  {
    if cs == [] then [] else Tag(cs[0]) + Flatten(cs[1..])
  }

  /** The number of items over all collections. */
  function ItemCount(cs: seq<ShopCollection>): nat
  {
    if cs == [] then 0 else |cs[0].items| + ItemCount(cs[1..])
  }

  /** Flattening lists the collections one after the other: a later
      collection's products come after every product of the earlier ones. */
  lemma {:induction false} FlattenAppend(cs: seq<ShopCollection>, c: ShopCollection)
    ensures Flatten(cs + [c]) == Flatten(cs) + Tag(c)
  {
    if cs == [] {
      assert cs + [c] == [c];
    } else {
      assert (cs + [c])[1..] == cs[1..] + [c];
      FlattenAppend(cs[1..], c);
    }
  }

  /** One product per item: the products are exactly the items, each tagged
      with the name of its collection. */
  lemma {:induction false} FlattenContents(cs: seq<ShopCollection>)
    ensures |Flatten(cs)| == ItemCount(cs)
    ensures forall p :: p in Flatten(cs) <==> exists c :: c in cs && p.item in c.items && p.collection == c.name
  {
    if cs != [] {
      FlattenContents(cs[1..]);
      var t := Tag(cs[0]);
      forall p | p in t
        ensures p.item in cs[0].items && p.collection == cs[0].name
      {
        var i :| 0 <= i < |t| && t[i] == p;
      }
      forall c, it | c in cs && it in c.items
        ensures ShopProduct(it, c.name) in Flatten(cs)
      {
        if c == cs[0] {
          var i :| 0 <= i < |c.items| && c.items[i] == it;
          assert t[i] == ShopProduct(it, c.name);
        } else {
          assert c in cs[1..];
        }
      }
      forall p | p in Flatten(cs[1..])
        ensures exists c :: c in cs && p.item in c.items && p.collection == c.name
      {
        var c :| c in cs[1..] && p.item in c.items && p.collection == c.name;
        assert c in cs;
      }
    }
  }

  // ----- The `type` URL parameter -----

  /** The URL effect: a `type` parameter naming a product type is added to
      the active filters unless it is already there; anything else is
      ignored. */
  function WithTypeParam(active: seq<string>, typeParam: Option<string>): (r: seq<string>)
    ensures typeParam.Some? && typeParam.value in TypeNames && typeParam.value !in active ==> r == active + [typeParam.value]
    ensures !(typeParam.Some? && typeParam.value in TypeNames && typeParam.value !in active) ==> r == active
  {
    if typeParam.Some? && typeParam.value != "" && typeParam.value in TypeNames then
      if typeParam.value !in active then active + [typeParam.value] else active
    else active
  }

  /** Reading the same URL twice adds nothing the second time. */
  lemma WithTypeParamIdempotent(active: seq<string>, typeParam: Option<string>)
    ensures WithTypeParam(WithTypeParam(active, typeParam), typeParam) == WithTypeParam(active, typeParam)
  {
  }

  /** `newFilters.find(f => ['tshirts', 'hoodies', 'accessories'].includes(f))`. */
  function FirstTypeName(filters: seq<string>): (r: Option<string>)
    ensures r.None? <==> forall f :: f in filters ==> f !in TypeNames
    ensures r.Some? ==> exists k :: 0 <= k < |filters| && filters[k] == r.value && r.value in TypeNames
                                   && forall j :: 0 <= j < k ==> filters[j] !in TypeNames
  {
    if filters == [] then None
    else if filters[0] in TypeNames then Some(filters[0])
    else
      var r := FirstTypeName(filters[1..]);
      assert forall f :: f in filters ==> f == filters[0] || f in filters[1..];
      if r.Some? then
        var k :| 0 <= k < |filters[1..]| && filters[1..][k] == r.value && r.value in TypeNames
                 && forall j :: 0 <= j < k ==> filters[1..][j] !in TypeNames;
        assert forall j :: 1 <= j < k + 1 ==> filters[j] == filters[1..][j - 1];
        r
      else r
  }

  // ----- The filter and sort effect -----

  /** The options of the sort select. */
  datatype ShopSort = Random | Ordered(order: SortOrder)

  /** A product's key under an item sort option. */
  function ProductKey(order: SortOrder): ShopProduct -> int
  {
    (p: ShopProduct) => ItemKey(order)(p.item)
  }

  /** The products the active filters select, in their current order. */
  function Selected(all: seq<ShopProduct>, active: seq<string>): seq<ShopProduct>
  {
    Filter(all, (p: ShopProduct) => ItemPasses(TypeFilters(active), StatusFilters(active), p.item))
  }

  /** Every product passes the type test when no type is selected. */
  lemma SkipType(all: seq<ShopProduct>, tf: seq<string>)
    requires |tf| == 0
    ensures Filter(all, (p: ShopProduct) => TypePasses(tf, p.item)) == all
  {
    FilterAll(all, (p: ShopProduct) => TypePasses(tf, p.item));
  }

  lemma TwoStages(all: seq<ShopProduct>, tf: seq<string>, sf: seq<string>)
    ensures Filter(Filter(all, (p: ShopProduct) => TypePasses(tf, p.item)), (p: ShopProduct) => StatusPasses(sf, p.item))
         == Filter(all, (p: ShopProduct) => ItemPasses(tf, sf, p.item))
  {
    FilterTwice(all, (p: ShopProduct) => TypePasses(tf, p.item), (p: ShopProduct) => StatusPasses(sf, p.item),
                (p: ShopProduct) => ItemPasses(tf, sf, p.item));
  }

  lemma SkipStatus(s: seq<ShopProduct>, sf: seq<string>)
    requires |sf| == 0
    ensures Filter(s, (p: ShopProduct) => StatusPasses(sf, p.item)) == s
  {
    FilterAll(s, (p: ShopProduct) => StatusPasses(sf, p.item));
  }

  /** The filter stage of the effect: the type filter when a product type is
      active, then the status filter when "new" or "bestsellers" is. */
  method FilterProducts(all: seq<ShopProduct>, active: seq<string>) returns (filtered: seq<ShopProduct>)
    ensures filtered == Selected(all, active)
  {
    filtered := all;
    var typeFilters := TypeFilters(active);
    if |typeFilters| > 0 {
      filtered := Filter(filtered, (p: ShopProduct) => TypePasses(typeFilters, p.item));
    } else {
      SkipType(all, typeFilters);
    }
    var statusFilters := StatusFilters(active);
    TwoStages(all, typeFilters, statusFilters);
    if |statusFilters| > 0 {
      filtered := Filter(filtered, (p: ShopProduct) => StatusPasses(statusFilters, p.item));
    } else {
      SkipStatus(filtered, statusFilters);
    }
  }

  /** The selected products are the products whose item the active filter
      names show. */
  lemma SelectedMeaning(all: seq<ShopProduct>, active: seq<string>, p: ShopProduct)
    ensures p in Selected(all, active) <==> p in all && Shown(active, p.item)
  {
    ItemPassesMeaning(active, p.item);
  }

  /** The filter-and-sort effect over a non-empty product list: the
      selected products, sorted by the chosen option, or shuffled by `order`
      for "random". */
  method FilterAndSort(all: seq<ShopProduct>, active: seq<string>, sort: ShopSort, order: seq<nat>)
    returns (filtered: seq<ShopProduct>)
    requires IsPermutation(order, |Selected(all, active)|)
    ensures |filtered| == |Selected(all, active)|
    ensures forall p :: p in filtered ==> p in Selected(all, active)
    ensures multiset(filtered) == multiset(Selected(all, active))
    ensures sort.Ordered? ==> SortedBy(filtered, ProductKey(sort.order))
  {
    filtered := FilterProducts(all, active);
    if sort.Ordered? {
      filtered := SortBy(filtered, ProductKey(sort.order));
      assert forall p :: p in filtered ==> p in multiset(Selected(all, active));
    } else {
      filtered := Permute(filtered, order);
    }
  }

  /** Sorting keeps every selected product. */
  lemma SortKeepsSelected(all: seq<ShopProduct>, active: seq<string>, order: SortOrder, p: ShopProduct)
    requires p in all && Shown(active, p.item)
    ensures p in SortBy(Selected(all, active), ProductKey(order))
  {
    SelectedMeaning(all, active, p);
    assert p in multiset(SortBy(Selected(all, active), ProductKey(order)));
  }

  /** "price-low" gives non-decreasing prices, "price-high" non-increasing
      prices, and "newest" every new product before every other one. */
  lemma SortOrders(s: seq<ShopProduct>)
    ensures var r := SortBy(s, ProductKey(PriceLow));
      forall i, j :: 0 <= i < j < |r| ==> r[i].item.price <= r[j].item.price
    ensures var r := SortBy(s, ProductKey(PriceHigh));
      forall i, j :: 0 <= i < j < |r| ==> r[i].item.price >= r[j].item.price
    ensures var r := SortBy(s, ProductKey(Newest));
      forall i, j :: 0 <= i < j < |r| && r[j].item.isNew ==> r[i].item.isNew
  {
    var lo := SortBy(s, ProductKey(PriceLow));
    var hi := SortBy(s, ProductKey(PriceHigh));
    var nw := SortBy(s, ProductKey(Newest));
    forall i, j | 0 <= i < j < |lo|
      ensures lo[i].item.price <= lo[j].item.price
    {
      assert ProductKey(PriceLow)(lo[i]) <= ProductKey(PriceLow)(lo[j]);
      assert ItemKey(PriceLow)(lo[i].item) == lo[i].item.price && ItemKey(PriceLow)(lo[j].item) == lo[j].item.price;
    }
    forall i, j | 0 <= i < j < |hi|
      ensures hi[i].item.price >= hi[j].item.price
    {
      assert ProductKey(PriceHigh)(hi[i]) <= ProductKey(PriceHigh)(hi[j]);
      assert ItemKey(PriceHigh)(hi[i].item) == -hi[i].item.price && ItemKey(PriceHigh)(hi[j].item) == -hi[j].item.price;
    }
    forall i, j | 0 <= i < j < |nw| && nw[j].item.isNew
      ensures nw[i].item.isNew
    {
      assert ProductKey(Newest)(nw[i]) <= ProductKey(Newest)(nw[j]);
      assert ItemKey(Newest)(nw[j].item) == 0;
    }
  }

  // ----- Product counts -----

  /** The count shown next to each filter checkbox. */
  datatype Counts = Counts(tshirts: nat, hoodies: nat, accessories: nat, newArrivals: nat, bestsellers: nat)

  /** `allProducts.filter(p => p.type === kind).length`. */
  function KindCount(all: seq<ShopProduct>, kind: ItemType): (n: nat)
    ensures n <= |all|
    ensures n == 0 <==> forall p :: p in all ==> p.item.kind != kind
  {
    Count(all, (p: ShopProduct) => p.item.kind == kind)
  }

  function ProductCounts(all: seq<ShopProduct>): (c: Counts)
    ensures c.tshirts == KindCount(all, TShirts) && c.hoodies == KindCount(all, Hoodies) && c.accessories == KindCount(all, Accessories)
    ensures c.newArrivals <= |all| && (c.newArrivals == 0 <==> forall p :: p in all ==> !p.item.isNew)
    ensures c.bestsellers <= |all| && (c.bestsellers == 0 <==> forall p :: p in all ==> !p.item.isBestseller)
  {
    Counts(
      KindCount(all, TShirts), KindCount(all, Hoodies), KindCount(all, Accessories),
      Count(all, (p: ShopProduct) => p.item.isNew),
      Count(all, (p: ShopProduct) => p.item.isBestseller))
  }

  lemma KindCountCons(all: seq<ShopProduct>, kind: ItemType)
    requires all != []
    ensures KindCount(all, kind) == (if all[0].item.kind == kind then 1 else 0) + KindCount(all[1..], kind)
  {
    CountCons(all, (p: ShopProduct) => p.item.kind == kind);
  }

  /** Every product has exactly one of the three types, so the three type
      counts add up to the number of products. */
  lemma {:induction false} TypeCountsSum(all: seq<ShopProduct>)
    ensures var c := ProductCounts(all); c.tshirts + c.hoodies + c.accessories == |all|
  {
    if all != [] {
      KindCountCons(all, TShirts);
      KindCountCons(all, Hoodies);
      KindCountCons(all, Accessories);
      TypeCountsSum(all[1..]);
    }
  }

  // ----- Page state -----

  /** The page's state. `typeFilters` is `activeFilters.type`, which holds
      the product-type and status filter names alike; `collectionFilters` is
      `activeFilters.collection`, which only the clear buttons touch;
      `typeParam` is the `type` parameter of the page URL. */
  class ShopPage {
    var allProducts: seq<ShopProduct>
    var filteredProducts: seq<ShopProduct>
    var typeFilters: seq<string>
    var collectionFilters: seq<string>
    var sortOrder: ShopSort
    var typeParam: Option<string>

    /** The page as mounted: the flattened products in the shuffled order
        `order`, both as all products and as those on display. */
    constructor(cs: seq<ShopCollection>, order: seq<nat>, typeParam: Option<string>)
      requires IsPermutation(order, |Flatten(cs)|)
      ensures allProducts == filteredProducts == Permute(Flatten(cs), order)
      ensures multiset(allProducts) == multiset(Flatten(cs))
      ensures typeFilters == [] && collectionFilters == [] && sortOrder == Random
      ensures this.typeParam == typeParam
    {
      allProducts := Permute(Flatten(cs), order);
      filteredProducts := allProducts;
      typeFilters := [];
      collectionFilters := [];
      sortOrder := Random;
      this.typeParam := typeParam;
    }

    /** The URL effect. */
    method ReadTypeParam()
      modifies this`typeFilters
      ensures typeFilters == WithTypeParam(old(typeFilters), typeParam)
    {
      typeFilters := WithTypeParam(typeFilters, typeParam);
    }

    /** `toggleFilter(filter)`: flips the filter's membership and, when the
        filter names a product type, points the URL's `type` parameter at the
        first product type still active, or removes it. */
    method ToggleFilter(filter: string)
      modifies this`typeFilters, this`typeParam
      ensures typeFilters == Toggle(old(typeFilters), filter)
      ensures filter !in TypeNames ==> typeParam == old(typeParam)
      ensures filter in TypeNames ==> typeParam == FirstTypeName(typeFilters)
    {
      var newFilters := Toggle(typeFilters, filter);
      typeFilters := newFilters;
      if filter in TypeNames {
        if exists f :: f in newFilters && f in TypeNames {
          var typeFilter := FirstTypeName(newFilters);
          if typeFilter.Some? {
            typeParam := typeFilter;
          }
        } else {
          typeParam := None;
        }
      }
    }

    /** The "clear filters" buttons: no active filter, and back to `/shop`
        without any parameter. */
    method ClearFilters()
      modifies this`typeFilters, this`collectionFilters, this`typeParam
      ensures typeFilters == [] && collectionFilters == [] && typeParam == None
    {
      typeFilters := [];
      collectionFilters := [];
      typeParam := None;
    }

    method SetSortOrder(sort: ShopSort)
      modifies this`sortOrder
      ensures sortOrder == sort
    {
      sortOrder := sort;
    }

    /** The filter-and-sort effect; it does nothing while there are no
        products. */
    method ApplyFiltersAndSort(order: seq<nat>)
      requires IsPermutation(order, |Selected(allProducts, typeFilters)|)
      modifies this`filteredProducts
      ensures allProducts == [] ==> filteredProducts == old(filteredProducts)
      ensures allProducts != [] ==> |filteredProducts| == |Selected(allProducts, typeFilters)|
      ensures allProducts != [] ==> multiset(filteredProducts) == multiset(Selected(allProducts, typeFilters))
      ensures allProducts != [] && sortOrder.Ordered? ==> SortedBy(filteredProducts, ProductKey(sortOrder.order))
    {
      if |allProducts| == 0 {
        return;
      }
      filteredProducts := FilterAndSort(allProducts, typeFilters, sortOrder, order);
    }
  }
}
