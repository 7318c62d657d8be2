/** The collections page (src/pages/CollectionsPage.tsx): the list of active
    filter names with its toggle, the filter that keeps, in every collection,
    the items of the selected types and statuses and drops the collections
    left empty, and the per-collection item sort. Prices are integer cents. */
module Collections {
  import opened Seqs
  import opened Sorting

  datatype ItemType = TShirts | Hoodies | Accessories

  /** The filter name of each item type. */
  function TypeName(t: ItemType): (name: string)
    ensures name in TypeNames
  {
    match t
    case TShirts => "tshirts"
    case Hoodies => "hoodies"
    case Accessories => "accessories"
  }

  const TypeNames: seq<string> := ["tshirts", "hoodies", "accessories"]
  const StatusNames: seq<string> := ["new", "bestsellers"]

  /** A missing `isNew` or `isBestseller` flag is `false`. */
  datatype CollectionItem = CollectionItem(id: int, name: string, price: int, image: string, isNew: bool, isBestseller: bool, kind: ItemType)

  datatype Collection = Collection(id: int, name: string, description: string, image: string, items: seq<CollectionItem>)

  // ----- toggleFilter -----

  /** `toggleFilter(filter)`: removes the filter when it is active, appends it
      otherwise. */
  function Toggle(active: seq<string>, filter: string): (r: seq<string>)
    ensures filter in r <==> filter !in active
    ensures forall g :: g != filter ==> (g in r <==> g in active)
    ensures filter !in active ==> r == active + [filter]
    ensures filter in active ==> IsSubsequence(r, active)
  {
    if filter in active then Filter(active, (f: string) => f != filter) else active + [filter]
  }

  /** Toggling the same filter twice restores its membership and that of
      every other filter name. */
  lemma ToggleTwice(active: seq<string>, filter: string, g: string)
    ensures g in Toggle(Toggle(active, filter), filter) <==> g in active
  {
  }

  // ----- The filter effect -----

  /** `['tshirts', 'hoodies', 'accessories'].filter(type => activeFilters.includes(type))`. */
  function TypeFilters(active: seq<string>): seq<string>
  {
    Filter(TypeNames, (t: string) => t in active)
  }

  /** `['new', 'bestsellers'].filter(status => activeFilters.includes(status))`. */
  function StatusFilters(active: seq<string>): seq<string>
  {
    Filter(StatusNames, (s: string) => s in active)
  }

  /** `matchesType`: no type is selected, or the item's type is. */
  predicate TypePasses(typeFilters: seq<string>, item: CollectionItem)
  {
    |typeFilters| == 0 || TypeName(item.kind) in typeFilters
  }

  /** `matchesStatus`: no status is selected, or the item is new with "new"
      selected, or a bestseller with "bestsellers" selected. */
  predicate StatusPasses(statusFilters: seq<string>, item: CollectionItem)
  {
    |statusFilters| == 0 || ("new" in statusFilters && item.isNew) || ("bestsellers" in statusFilters && item.isBestseller)
  }

  /** The item test of the filter effect, on the selected type and status
      names. */
  predicate ItemPasses(typeFilters: seq<string>, statusFilters: seq<string>, item: CollectionItem)
  {
    TypePasses(typeFilters, item) && StatusPasses(statusFilters, item)
  }

  /** A collection with only its items that pass the test. */
  function NarrowCollection(typeFilters: seq<string>, statusFilters: seq<string>, c: Collection): (r: Collection)
    ensures r == c.(items := r.items)
    ensures IsSubsequence(r.items, c.items)
    ensures forall it :: it in r.items <==> it in c.items && ItemPasses(typeFilters, statusFilters, it)
  {
    c.(items := Filter(c.items, (it: CollectionItem) => ItemPasses(typeFilters, statusFilters, it)))
  }

  /** Every collection narrowed, in the original order (the `map` step). */
  function NarrowAll(typeFilters: seq<string>, statusFilters: seq<string>, data: seq<Collection>): (r: seq<Collection>)
    ensures |r| == |data|
    ensures forall k :: 0 <= k < |data| ==> r[k] == NarrowCollection(typeFilters, statusFilters, data[k])
  {
    Map(data, (c: Collection) => NarrowCollection(typeFilters, statusFilters, c))
  }

  /** The collections shown for the active filters: all of them when no
      filter is active; otherwise every collection narrowed to its passing
      items, without the collections left with none. */
  function FilterCollections(data: seq<Collection>, active: seq<string>): (r: seq<Collection>)
    ensures active == [] ==> r == data
    ensures active != [] ==> forall c :: c in r ==> |c.items| > 0
  {
    if |active| == 0 then data
    else
      Filter(NarrowAll(TypeFilters(active), StatusFilters(active), data), (c: Collection) => |c.items| > 0)
  }

  /** What the item test means for the active filter list: the item's type is
      active or no type name is, and the item is new with "new" active or a
      bestseller with "bestsellers" active, or no status name is active. */
  ghost predicate Shown(active: seq<string>, item: CollectionItem)
  {
    && ((forall t :: t in TypeNames ==> t !in active) || TypeName(item.kind) in active)
    && ((forall s :: s in StatusNames ==> s !in active)
        || ("new" in active && item.isNew) || ("bestsellers" in active && item.isBestseller))
  }

  lemma ItemPassesMeaning(active: seq<string>, item: CollectionItem)
    ensures ItemPasses(TypeFilters(active), StatusFilters(active), item) <==> Shown(active, item)
  {
    var tf, sf := TypeFilters(active), StatusFilters(active);
    assert |tf| == 0 <==> forall t :: t in TypeNames ==> t !in active by {
      if |tf| > 0 {
        assert tf[0] in tf;
      }
    }
    assert |sf| == 0 <==> forall s :: s in StatusNames ==> s !in active by {
      if |sf| > 0 {
        assert sf[0] in sf;
      }
    }
    assert "new" in StatusNames && "bestsellers" in StatusNames;
  }

  /** Every shown collection is a collection of the data with the same id,
      name, description and image, holding a non-empty subsequence of its
      items, each of which is shown by the active filters. */
  lemma FilterCollectionsSound(data: seq<Collection>, active: seq<string>, c: Collection)
    requires active != [] && c in FilterCollections(data, active)
    ensures |c.items| > 0
    ensures exists d :: d in data && c == d.(items := c.items) && IsSubsequence(c.items, d.items)
    ensures forall it :: it in c.items ==> Shown(active, it)
  {
    var narrowed := NarrowAll(TypeFilters(active), StatusFilters(active), data);
    assert c in narrowed;
    var k :| 0 <= k < |narrowed| && narrowed[k] == c;
    assert data[k] in data;
    forall it | it in c.items
      ensures Shown(active, it)
    {
      ItemPassesMeaning(active, it);
    }
  }

  /** Every collection of the data with at least one shown item is shown,
      with exactly its shown items. */
  lemma FilterCollectionsComplete(data: seq<Collection>, active: seq<string>, d: Collection, item: CollectionItem)
    requires active != [] && d in data && item in d.items && Shown(active, item)
    ensures NarrowCollection(TypeFilters(active), StatusFilters(active), d) in FilterCollections(data, active)
    ensures forall it :: it in NarrowCollection(TypeFilters(active), StatusFilters(active), d).items <==> it in d.items && Shown(active, it)
  {
    var tf, sf := TypeFilters(active), StatusFilters(active);
    var c := NarrowCollection(tf, sf, d);
    ItemPassesMeaning(active, item);
    forall it | it in d.items
      ensures it in c.items <==> Shown(active, it)
    {
      ItemPassesMeaning(active, it);
    }
    assert item in c.items;
    var k :| 0 <= k < |data| && data[k] == d;
    assert NarrowAll(tf, sf, data)[k] == c;
  }

  /** The shown collections keep the order of the data. */
  lemma FilterCollectionsOrder(data: seq<Collection>, active: seq<string>)
    requires active != []
    ensures IsSubsequence(FilterCollections(data, active), NarrowAll(TypeFilters(active), StatusFilters(active), data))
  {
  }

  /** Filter names other than the five known ones change nothing: two
      non-empty filter lists with the same known names show the same
      collections. */
  lemma UnknownFiltersIgnored(data: seq<Collection>, a: seq<string>, b: seq<string>)
    requires a != [] && b != []
    requires forall n :: n in TypeNames || n in StatusNames ==> (n in a <==> n in b)
    ensures FilterCollections(data, a) == FilterCollections(data, b)
  {
    FilterCongruent(TypeNames, (t: string) => t in a, (t: string) => t in b);
    FilterCongruent(StatusNames, (s: string) => s in a, (s: string) => s in b);
  }

  /** A non-empty filter list holding none of the five known names keeps
      every item, but still drops the collections that have no items. */
  lemma OnlyUnknownFilters(data: seq<Collection>, active: seq<string>)
    requires active != []
    requires forall n :: n in TypeNames || n in StatusNames ==> n !in active
    ensures FilterCollections(data, active) == Filter(data, (c: Collection) => |c.items| > 0)
  {
    var tf, sf := TypeFilters(active), StatusFilters(active);
    assert tf == [] && sf == [];
    var narrowed := NarrowAll(tf, sf, data);
    forall k | 0 <= k < |data|
      ensures narrowed[k] == data[k]
    {
      FilterAll(data[k].items, (it: CollectionItem) => ItemPasses(tf, sf, it));
    }
    assert narrowed == data;
  }

  // ----- The sort effect -----

  /** The options of the sort select; any other value sorts as "featured". */
  datatype SortOrder = Featured | PriceLow | PriceHigh | Newest

  /** The ascending key each comparator compares: `a - b` on prices for
      "price-low", `b - a` for "price-high", new items first for "newest",
      and always 0 for "featured". */
  function ItemKey(order: SortOrder): CollectionItem -> int
  {
    match order
    case Featured => (it: CollectionItem) => 0
    case PriceLow => (it: CollectionItem) => it.price
    case PriceHigh => (it: CollectionItem) => -it.price
    case Newest => (it: CollectionItem) => if it.isNew then 0 else 1
  }

  /** Each collection with its items sorted; nothing else changes. */
  function SortCollections(cs: seq<Collection>, order: SortOrder): (r: seq<Collection>)
    ensures |r| == |cs|
    ensures forall k :: 0 <= k < |cs| ==> r[k] == cs[k].(items := r[k].items)
    ensures forall k :: 0 <= k < |cs| ==> multiset(r[k].items) == multiset(cs[k].items)
    ensures forall k :: 0 <= k < |cs| ==> SortedBy(r[k].items, ItemKey(order))
  {
    Map(cs, (c: Collection) => c.(items := SortBy(c.items, ItemKey(order))))
  }

  /** "featured" leaves every collection as it is. */
  lemma FeaturedKeepsOrder(cs: seq<Collection>)
    ensures SortCollections(cs, Featured) == cs
  {
    var r := SortCollections(cs, Featured);
    forall k | 0 <= k < |cs|
      ensures r[k] == cs[k]
    {
      SortByConstant(cs[k].items, ItemKey(Featured), 0);
    }
  }

  /** "price-low" and "price-high" order each collection's items by price. */
  lemma PriceOrders(cs: seq<Collection>, k: int)
    requires 0 <= k < |cs|
    ensures var s := SortCollections(cs, PriceLow)[k].items;
      forall i, j :: 0 <= i < j < |s| ==> s[i].price <= s[j].price
    ensures var s := SortCollections(cs, PriceHigh)[k].items;
      forall i, j :: 0 <= i < j < |s| ==> s[i].price >= s[j].price
  {
    var lo := SortCollections(cs, PriceLow)[k].items;
    var hi := SortCollections(cs, PriceHigh)[k].items;
    assert SortedBy(lo, ItemKey(PriceLow)) && SortedBy(hi, ItemKey(PriceHigh));
  }

  /** "newest" puts each collection's new items first and keeps the original
      order among the new ones and among the others. */
  lemma NewestIsStable(cs: seq<Collection>, k: int)
    requires 0 <= k < |cs|
    ensures SortCollections(cs, Newest)[k].items
         == Filter(cs[k].items, (it: CollectionItem) => it.isNew) + Filter(cs[k].items, (it: CollectionItem) => !it.isNew)
  {
    var items := cs[k].items;
    var key := ItemKey(Newest);
    assert SortCollections(cs, Newest)[k].items == SortBy(items, key);
    assert forall y :: y in items ==> key(y) == 0 || key(y) == 1;
    SortByTwoValued(items, key);
    WithKeyIsFilter(items, key, 0, (it: CollectionItem) => it.isNew);
    WithKeyIsFilter(items, key, 1, (it: CollectionItem) => !it.isNew);
  }

  /** Sorting neither adds nor removes collections or items: each sorted
      collection holds the same items as before. */
  lemma SortKeepsItems(cs: seq<Collection>, order: SortOrder, k: int, it: CollectionItem)
    requires 0 <= k < |cs|
    ensures it in SortCollections(cs, order)[k].items <==> it in cs[k].items
  {
    var r := SortCollections(cs, order);
    assert it in multiset(r[k].items) <==> it in multiset(cs[k].items);
  }

  // ----- Page state -----

  /** The page's state: the active filter names, the sort option and the
      collections on display, over the fixed collection data. */
  class CollectionsPage {
    const data: seq<Collection>
    var activeFilters: seq<string>
    var sortOrder: SortOrder
    var filteredCollections: seq<Collection>

    /** The initial state: no filters, "featured", and every collection on
        display. */
    constructor(data: seq<Collection>)
      ensures this.data == data
      ensures activeFilters == [] && sortOrder == Featured && filteredCollections == data
    {
      this.data := data;
      activeFilters := [];
      sortOrder := Featured;
      filteredCollections := data;
    }

    method ToggleFilter(filter: string)
      modifies this`activeFilters
      ensures activeFilters == Toggle(old(activeFilters), filter)
      ensures filter in activeFilters <==> filter !in old(activeFilters)
    {
      activeFilters := Toggle(activeFilters, filter);
    }

    /** The "clear filters" button. */
    method ClearFilters()
      modifies this`activeFilters
      ensures activeFilters == []
    {
      activeFilters := [];
    }

    method SetSortOrder(order: SortOrder)
      modifies this`sortOrder
      ensures sortOrder == order
    {
      sortOrder := order;
    }

    /** The filter effect, run after the active filters change. */
    method ApplyFilters()
      modifies this`filteredCollections
      ensures filteredCollections == FilterCollections(data, activeFilters)
      ensures activeFilters == [] ==> filteredCollections == data
    {
      filteredCollections := FilterCollections(data, activeFilters);
    }

    /** The sort effect, run after the sort option changes: it sorts the
        collections currently on display. */
    method ApplySort()
      modifies this`filteredCollections
      ensures filteredCollections == SortCollections(old(filteredCollections), sortOrder)
      ensures |filteredCollections| == |old(filteredCollections)|
    {
      filteredCollections := SortCollections(filteredCollections, sortOrder);
    }
  }
}
