# Storefront core in Dafny

This project models the logic of a client-side clothing storefront, a React application, and proves its properties. The model covers:

- **Cart.** The cart store (`CartProvider`) holds line items that are unique by product id. It offers add, remove, update-quantity, clear and toggle, and it derives item and price totals. The cart sidebar's controls and display conditions sit on top of it.
- **Catalog queries.** These are the mock API functions: the filtered, sorted and paginated product listing, lookup by id, related products, featured collections, best sellers, new arrivals and featured products.
- **Shopping pages.** The collections page and the shop page toggle filters, filter items by type and status, sort items, read and write the URL `type` parameter, count products per type, and flatten collections into products.
- **Admin pages.** The orders page updates statuses, derives the status badge and searches orders. The settings page updates fields and handles toggle clicks. The products page adds, deletes and searches products. The customers page searches customers.
- **Auth and admin gate.** The mock auth store has a user, a loading flag and an error. The admin layout decides among spinner, redirects and layout, and it highlights the current navigation entry.

The modules are:

- `Options`, `Seqs`, `Text` and `Sorting` hold the JavaScript builtins the pages use:
  - `filter`, `map`, `slice` and a stable `sort` by an integer key;
  - ASCII `toLowerCase`, `includes` and first-letter capitalisation;
  - permutations standing for `Math.random` shuffles.
- `Cart`, `CartSidebar`, `Catalog`, `Collections`, `Shop`, `Orders`, `Settings`, `AdminProducts`, `Customers`, `Auth` and `AdminLayout` each model one source file.

State that the source keeps in React state becomes the fields of a class. Each method replaces a field by the value of a pure function, and lemmas state what those functions mean.

`getFilteredProducts` reassigns a local list filter by filter. It is modelled as a method that applies each active filter in turn. The method is proved equal to a specification that applies every filter at once.

Prices are integer cents. A shuffle is given as a permutation of indices, passed as a parameter.

## Model

| member | source | states |
|---|---|---|
| Cart.FindIndex | src/contexts/CartContext.tsx:42 | -1 exactly when no line has the id, otherwise the first line with it |
| Cart.AddItemTo | src/contexts/CartContext.tsx:39-57 | an id already present: same length, that line's quantity grows by the item's, its other fields and position kept, all other lines kept; a new id: appended at the end |
| Cart.RemoveItemFrom | src/contexts/CartContext.tsx:59-61 | no line with the id remains; the rest are kept in order (a subsequence) |
| Cart.RemoveItemAbsent | src/contexts/CartContext.tsx:59-61 | removing an absent id changes nothing |
| Cart.SetQuantity | src/contexts/CartContext.tsx:63-69 | lines with the id get exactly the new quantity (a set, not a delta, no floor); every other line and the length unchanged |
| Cart.SetQuantityAbsent | src/contexts/CartContext.tsx:63-69 | updating an absent id changes nothing |
| Cart.SumQuantityAppend | src/contexts/CartContext.tsx:36 | `totalItems` of a concatenation is the sum of the parts' totals |
| Cart.SumPriceAppend | src/contexts/CartContext.tsx:37 | `totalPrice` of a concatenation is the sum of the parts' totals |
| Cart.SumsAfterLineUpdate | src/contexts/CartContext.tsx:36-37 | changing one line's quantity changes `totalItems` by the difference and `totalPrice` by price times the difference |
| Cart.QuantityOfAbsent | src/contexts/CartContext.tsx:36-37 | an id no line carries contributes nothing to either total |
| Cart.QuantityOfUnique | src/contexts/CartContext.tsx:36-37 | in a cart unique by id, the quantity held for a line's id is that line's quantity |
| Cart.QuantityOfAfterLineUpdate | src/contexts/CartContext.tsx:46-50 | changing one line's quantity changes only the quantity held for that line's id |
| Cart.QuantityOfAppend | src/contexts/CartContext.tsx:55 | the quantity held for an id in a concatenation is the sum over the parts |
| Cart.AddItemEffect | src/contexts/CartContext.tsx:39-57 | adding keeps the cart unique by id and raises `totalItems` by exactly the item's quantity |
| Cart.AddItemQuantities | src/contexts/CartContext.tsx:39-57 | after an add, the quantity held for the item's id grows by its quantity and every other id's is unchanged |
| Cart.RepeatedAdds | src/contexts/CartContext.tsx:39-57 | several adds of one product keep the cart unique and hold the sum of their quantities |
| Cart.RemoveItemEffect | src/contexts/CartContext.tsx:59-61 | removing drops exactly that id's quantity and price from the totals and keeps uniqueness |
| Cart.SetQuantityEffect | src/contexts/CartContext.tsx:63-69 | in a unique cart the id then holds exactly the new quantity, the totals move by the difference, uniqueness is kept |
| Cart.CartStore.constructor | src/contexts/CartContext.tsx:32-33 | the cart starts empty and closed |
| Cart.CartStore.TotalItems | src/contexts/CartContext.tsx:36 | the empty cart has `totalItems` 0 |
| Cart.CartStore.TotalPrice | src/contexts/CartContext.tsx:37 | the empty cart has `totalPrice` 0 |
| Cart.CartStore.AddItem | src/contexts/CartContext.tsx:39-57 | the lines become the merged list, uniqueness is preserved and `totalItems` grows by the item's quantity; the open flag is untouched |
| Cart.CartStore.RemoveItem | src/contexts/CartContext.tsx:59-61 | the lines lose that id and both totals drop by its share; uniqueness preserved |
| Cart.CartStore.UpdateQuantity | src/contexts/CartContext.tsx:63-69 | the id now holds exactly the given quantity; an absent id leaves the lines as they were |
| Cart.CartStore.ClearCart | src/contexts/CartContext.tsx:71-73 | the lines are empty, both totals 0, the open flag untouched |
| Cart.CartStore.ToggleCart | src/contexts/CartContext.tsx:75-77 | the open flag is negated and the lines untouched |
| Cart.ToggleCartTwice | src/contexts/CartContext.tsx:75-77 | two toggles restore the flag and leave the lines as they were |
| CartSidebar.Render | src/components/cart/CartSidebar.tsx:10-125 | nothing is shown when closed; the empty message shows iff there are no lines; the footer shows iff there are lines, with subtotal `totalPrice` |
| CartSidebar.Decremented | src/components/cart/CartSidebar.tsx:91 | the "−" argument is at least 1 and is q−1 whenever q > 1 |
| CartSidebar.ButtonEffects | src/components/cart/CartSidebar.tsx:91-98 | "−" sets the line to the clamped decrement and "+" to exactly q+1, keeping uniqueness |
| CartSidebar.ClickKeepsPositive | src/components/cart/CartSidebar.tsx:91-107 | one "−", "+" or remove click keeps every quantity at least 1 |
| CartSidebar.ClicksKeepPositive | src/components/cart/CartSidebar.tsx:91-107 | any sequence of such clicks keeps every quantity at least 1 |
| Catalog.CeilDiv | src/utils/api.ts:107 | `Math.ceil(total / limit)`: the least r with total ≤ r·limit |
| Catalog.NarrowIfActive | src/utils/api.ts:26-73 | one filter step: an active filter narrows the list, an inactive one leaves it as it is |
| Catalog.FilterCatalog | src/utils/api.ts:23-73 | the list after all filters is exactly the catalog's products satisfying every supplied filter, in catalog order |
| Catalog.GetFilteredProducts | src/utils/api.ts:9-109 | page defaults to 1 and limit to 12 when 0 or missing; `products` is the slice of the selected list at `(page−1)·limit`, at most `limit` long; `total` is its length; `totalPages` is the ceiling of total/limit |
| Catalog.Paginate | src/utils/api.ts:96-108 | the `page || 1` and `limit || 12` defaults, the slice of the given list starting at `(page−1)·limit`, at most `limit` long, its total and the ceiling of total/limit |
| Catalog.MulNonNegative | src/utils/api.ts:98 | the slice start `(page−1)·limit` is non-negative for page ≥ 1 and limit ≥ 1 |
| Catalog.NarrowStep | src/utils/api.ts:26-73 | applying one more filter to the survivors equals filtering the catalog by all of them |
| Catalog.SkipStep | src/utils/api.ts:26-73 | an inactive filter (absent, empty list, empty string, maxPrice 0) admits every product |
| Catalog.SurvivorsOfAll | src/utils/api.ts:26-73 | after the seven filter steps the survivors are exactly the products matching the query |
| Catalog.SelectedMatches | src/utils/api.ts:26-73 | a product is listed iff it is in the catalog and passes category, collection, price bounds, colour, size and search; without colours or sizes it fails a non-empty colour or size filter |
| Catalog.SelectedOrder | src/utils/api.ts:23-93 | without sort the list is a subsequence in catalog order; with price_asc non-decreasing price, price_desc non-increasing, newest non-increasing createdAt, popular non-increasing rating; always a permutation of the filtered set |
| Catalog.ZeroMaxPriceIsNoBound | src/utils/api.ts:46-49 | `maxPrice` 0 selects the same products as no upper bound |
| Catalog.PageIsSlice | src/utils/api.ts:96-100 | for page, limit ≥ 1 the page is the sub-list `[(page−1)·limit, page·limit)` clipped to the list |
| Catalog.FindById | src/utils/api.ts:112-115 | the first product with the id, or none exactly when no product has it |
| Catalog.GetRelatedProducts | src/utils/api.ts:118-134 | unknown id gives []; the product itself never appears; each result shares its category or a tag; no candidate more often than it is a candidate; at most `limit` (default 4) |
| Catalog.ResolveIds | src/utils/api.ts:153-155 | at most one product per id, each from the catalog and with a listed id |
| Catalog.ResolveIdsAppend | src/utils/api.ts:153-155 | resolving concatenated id lists concatenates the results, so id-list order is kept |
| Catalog.ResolveKnownIds | src/utils/api.ts:153-155 | when every id is known, the k-th product has the k-th id |
| Catalog.GetFeaturedCollections | src/utils/api.ts:149-162 | one entry per collection, keeping its fields, with products resolved from its id list |
| Catalog.GetBestSellers | src/utils/api.ts:181-188 | the top-rated "best-sellers" members: a sub-multiset of them, in non-increasing rating, every member left out rated no higher than any kept, exactly min(limit, members) of them (default 8) |
| Catalog.RankedPrefix | src/utils/api.ts:184-187 | a prefix of a list ranked by rating holds only listed products, each at most as often as listed, keeps the ranking, and leaves out only products rated no higher than those it keeps |
| Catalog.GetNewArrivals | src/utils/api.ts:171-178 | only new products, each at most as often as it is listed, exactly min(limit, new products) of them (default 8) |
| Catalog.GetFeaturedProducts | src/utils/api.ts:191-198 | only featured products, each at most as often as it is listed, exactly min(limit, featured products) of them (default 4) |
| Collections.TypeName | src/pages/CollectionsPage.tsx:10-27 | each item type's name is one of the three type filter names |
| Collections.Toggle | src/pages/CollectionsPage.tsx:89-95 | membership of the filter flips and every other filter is unchanged; an absent filter is appended |
| Collections.ToggleTwice | src/pages/CollectionsPage.tsx:89-95 | toggling twice restores membership of every filter |
| Collections.NarrowCollection | src/pages/CollectionsPage.tsx:114-124 | a collection keeps its other fields and exactly its items passing both checks, in order |
| Collections.NarrowAll | src/pages/CollectionsPage.tsx:114-128 | every collection is narrowed, in order |
| Collections.FilterCollections | src/pages/CollectionsPage.tsx:98-134 | no active filters gives the list unchanged; otherwise every shown collection is non-empty |
| Collections.ItemPassesMeaning | src/pages/CollectionsPage.tsx:105-124 | an item passes iff its type is an active type filter (or none is active) and it is new or a bestseller per the active status filters (or none is active) |
| Collections.FilterCollectionsSound | src/pages/CollectionsPage.tsx:98-134 | every shown collection comes from the data with a non-empty subsequence of its items, all passing |
| Collections.FilterCollectionsComplete | src/pages/CollectionsPage.tsx:98-134 | a collection with a passing item is shown, with exactly its passing items |
| Collections.FilterCollectionsOrder | src/pages/CollectionsPage.tsx:114-131 | collection order is preserved |
| Collections.UnknownFiltersIgnored | src/pages/CollectionsPage.tsx:105-111 | filter names outside the five known ones do not change the result |
| Collections.OnlyUnknownFilters | src/pages/CollectionsPage.tsx:99-131 | with only unknown filters active, the result is the data minus its empty collections |
| Collections.SortCollections | src/pages/CollectionsPage.tsx:137-159 | each collection keeps its fields and the multiset of its items, now ordered by the sort key |
| Collections.FeaturedKeepsOrder | src/pages/CollectionsPage.tsx:147-148 | 'featured' leaves every collection as it is |
| Collections.PriceOrders | src/pages/CollectionsPage.tsx:141-144 | 'price-low' gives non-decreasing prices, 'price-high' non-increasing |
| Collections.NewestIsStable | src/pages/CollectionsPage.tsx:145-146 | 'newest' gives the new items, in their order, followed by the others, in their order |
| Collections.SortKeepsItems | src/pages/CollectionsPage.tsx:137-159 | sorting never adds or drops an item |
| Collections.CollectionsPage.constructor | src/pages/CollectionsPage.tsx:162-164 | no filters, 'featured', and every collection shown |
| Collections.CollectionsPage.ToggleFilter | src/pages/CollectionsPage.tsx:89-95 | the active filters are toggled |
| Collections.CollectionsPage.ClearFilters | src/pages/CollectionsPage.tsx:434 | no filter is active |
| Collections.CollectionsPage.SetSortOrder | src/pages/CollectionsPage.tsx:412 | the chosen order is stored |
| Collections.CollectionsPage.ApplyFilters | src/pages/CollectionsPage.tsx:98-134 | the shown collections are the filtered data; with no filters, all of it |
| Collections.CollectionsPage.ApplySort | src/pages/CollectionsPage.tsx:137-159 | the shown collections are sorted in place, same count |
| Shop.Tag | src/pages/ShopPage.tsx:100-105 | one product per item of a collection, in item order, tagged with the collection's name |
| Shop.FlattenAppend | src/pages/ShopPage.tsx:99-105 | flattening is in collection-then-item order |
| Shop.FlattenContents | src/pages/ShopPage.tsx:99-105 | one product per collection item, and a product is there iff its item is in the collection it is tagged with |
| Shop.WithTypeParam | src/pages/ShopPage.tsx:37-50 | the URL type is added only if it is a product type and not already active |
| Shop.WithTypeParamIdempotent | src/pages/ShopPage.tsx:37-50 | reading the URL type a second time changes nothing |
| Shop.FirstTypeName | src/pages/ShopPage.tsx:134-136 | the first product-type entry of the filters, or none when there is none |
| Shop.SkipType | src/pages/ShopPage.tsx:153-159 | with no active type filter the type stage keeps every product |
| Shop.TwoStages | src/pages/ShopPage.tsx:153-171 | the type stage followed by the status stage is one filter by both checks |
| Shop.SkipStatus | src/pages/ShopPage.tsx:162-171 | with no active status filter the status stage keeps every product |
| Shop.FilterProducts | src/pages/ShopPage.tsx:150-171 | the products after both stages are those selected by the active filters |
| Shop.SelectedMeaning | src/pages/ShopPage.tsx:150-171 | a product is selected iff it is one of the products and passes the type check and the new-or-bestseller check |
| Shop.FilterAndSort | src/pages/ShopPage.tsx:147-191 | the result is a permutation of the selected products, for the shuffle as for a chosen order; a chosen order also sorts it by that order's key |
| Shop.SortKeepsSelected | src/pages/ShopPage.tsx:174-186 | sorting keeps every selected product |
| Shop.SortOrders | src/pages/ShopPage.tsx:174-186 | 'price-low' non-decreasing price, 'price-high' non-increasing, 'newest' puts new products first |
| Shop.KindCount | src/pages/ShopPage.tsx:197-199 | a type count is at most the number of products and 0 iff none has that type |
| Shop.ProductCounts | src/pages/ShopPage.tsx:196-202 | each entry counts its type or flag; the flag counts are 0 iff no product has the flag |
| Shop.KindCountCons | src/pages/ShopPage.tsx:197-199 | the count of a list is the first product's contribution plus the count of the rest |
| Shop.TypeCountsSum | src/pages/ShopPage.tsx:196-202 | the three type counts sum to the number of products |
| Shop.ShopPage.constructor | src/pages/ShopPage.tsx:23-33 | all products are a permutation of the flattening, shown unfiltered, with no filters and random order |
| Shop.ShopPage.ReadTypeParam | src/pages/ShopPage.tsx:37-50 | the URL type is merged into the type filters |
| Shop.ShopPage.ToggleFilter | src/pages/ShopPage.tsx:114-143 | the filter is toggled; after a product-type toggle the URL type is the first product-type filter or is deleted; a status toggle leaves it |
| Shop.ShopPage.ClearFilters | src/pages/ShopPage.tsx:403-409 | no filters and no URL type |
| Shop.ShopPage.SetSortOrder | src/pages/ShopPage.tsx:381 | the chosen order is stored |
| Shop.ShopPage.ApplyFiltersAndSort | src/pages/ShopPage.tsx:147-193 | no products: nothing changes; otherwise the shown products are a permutation of the selected ones, sorted when an order is chosen |
| Orders.UpdateStatus | src/components/admin/OrdersPage.tsx:41-43 | orders with the id get the status; every other order and every other field unchanged; length and order kept |
| Orders.UpdateUnknownId | src/components/admin/OrdersPage.tsx:41-43 | an unknown id leaves the list unchanged |
| Orders.UpdateTwice | src/components/admin/OrdersPage.tsx:38-56 | the last status set wins |
| Orders.StatusColorsDistinct | src/components/admin/OrdersPage.tsx:58-73 | the five statuses have five different colour classes |
| Orders.StatusIconsShared | src/components/admin/OrdersPage.tsx:75-90 | processing and shipped share the package icon; otherwise statuses have different icons |
| Orders.StatusLabel | src/components/admin/OrdersPage.tsx:152 | the badge is the status with only its first letter upper-cased; lower-casing it gives the status back |
| Orders.SearchOrders | src/components/admin/OrdersPage.tsx:92-95 | the subsequence of orders whose customer name or id contains the query, ignoring case |
| Orders.EmptySearchShowsAll | src/components/admin/OrdersPage.tsx:92-95 | an empty query shows every order |
| Orders.OrdersPage.constructor | src/components/admin/OrdersPage.tsx:36 | no orders and an empty search |
| Orders.OrdersPage.HandleUpdateStatus | src/components/admin/OrdersPage.tsx:38-56 | the orders become the updated list |
| Orders.OrdersPage.FilteredOrders | src/components/admin/OrdersPage.tsx:92-95 | the search result: the order-preserving subsequence of the stored orders whose customer name or id contains the search text, ignoring case; all of them for an empty search |
| Settings.UpdateFields | src/components/admin/SettingsPage.tsx:131-137 | fields with the id get the value; all else unchanged |
| Settings.FieldChange | src/components/admin/SettingsPage.tsx:126-141 | the value is written only to that field in that section; same-named fields elsewhere, all other fields, counts and order unchanged |
| Settings.FieldChangeUnknown | src/components/admin/SettingsPage.tsx:128-139 | unknown section or field ids leave the settings unchanged |
| Settings.Not | src/components/admin/SettingsPage.tsx:191 | JavaScript `!`: a boolean is negated, a string gives true iff empty |
| Settings.ToggleTwiceRestores | src/components/admin/SettingsPage.tsx:191 | two clicks on a boolean toggle restore the original settings |
| Settings.InitialTogglesAreBooleans | src/components/admin/SettingsPage.tsx:29-115 | every toggle field the page starts with holds a boolean |
| Settings.SettingsPage.constructor | src/components/admin/SettingsPage.tsx:27-115 | the initial settings and the store section |
| Settings.SettingsPage.HandleFieldChange | src/components/admin/SettingsPage.tsx:126-141 | the settings become the changed list |
| Settings.SettingsPage.SelectSection | src/components/admin/SettingsPage.tsx:27 | the chosen section is stored |
| AdminProducts.FromDraft | src/components/admin/ProductsPage.tsx:39-42 | the form's fields plus the new id |
| AdminProducts.DeleteProduct | src/components/admin/ProductsPage.tsx:72 | every product with the id is removed; the rest kept in order |
| AdminProducts.DeleteUnknownId | src/components/admin/ProductsPage.tsx:72 | an unknown id is a no-op |
| AdminProducts.DeleteCount | src/components/admin/ProductsPage.tsx:72 | the list shrinks by exactly the number of products with the id |
| AdminProducts.DeleteCountOf | src/components/admin/ProductsPage.tsx:72 | the kept and the dropped products together are the whole list |
| AdminProducts.SearchProducts | src/components/admin/ProductsPage.tsx:87-90 | the subsequence of products whose name or category contains the query, ignoring case |
| AdminProducts.EmptySearchListsAll | src/components/admin/ProductsPage.tsx:87-90 | an empty query lists every product |
| AdminProducts.ProductsPage.constructor | src/components/admin/ProductsPage.tsx:20-32 | no products, default form, modal closed |
| AdminProducts.ProductsPage.HandleAddProduct | src/components/admin/ProductsPage.tsx:34-67 | exactly one product appended at the end, the others untouched; modal closed; form reset |
| AdminProducts.ProductsPage.HandleDeleteProduct | src/components/admin/ProductsPage.tsx:69-85 | the products become the list without the id |
| AdminProducts.ProductsPage.SetAddModalOpen | src/components/admin/ProductsPage.tsx:98 | the modal is opened or closed |
| AdminProducts.ProductsPage.EditName | src/components/admin/ProductsPage.tsx:200 | only the form's name changes |
| AdminProducts.ProductsPage.EditPrice | src/components/admin/ProductsPage.tsx:214 | only the form's price changes |
| AdminProducts.ProductsPage.EditStock | src/components/admin/ProductsPage.tsx:226 | only the form's stock changes |
| AdminProducts.ProductsPage.EditCategory | src/components/admin/ProductsPage.tsx:240 | only the form's category changes |
| AdminProducts.ProductsPage.EditDescription | src/components/admin/ProductsPage.tsx:252 | only the form's description changes |
| AdminProducts.AddThenDelete | src/components/admin/ProductsPage.tsx:34-85 | adding a product and deleting its id is the same as deleting the id |
| Customers.SearchCustomers | src/components/admin/CustomersPage.tsx:37-40 | the subsequence of customers whose name or email contains the query, ignoring case |
| Customers.EmptySearchListsAll | src/components/admin/CustomersPage.tsx:37-40 | an empty query returns every customer |
| Customers.CustomersPage.constructor | src/components/admin/CustomersPage.tsx:21-35 | the fixed customer list and an empty search |
| Customers.CustomersPage.SetSearchQuery | src/components/admin/CustomersPage.tsx:37-40 | only the search text changes; the list is a constant |
| Customers.CustomersPage.FilteredCustomers | src/components/admin/CustomersPage.tsx:37-40 | the search result: the order-preserving subsequence holding exactly the customers whose name or email contains the search text, ignoring case; all of them for an empty search |
| Auth.AuthStore.constructor | src/contexts/AuthContext.tsx:35-37 | no user, not loading, no error |
| Auth.AuthStore.IsAuthenticated | src/contexts/AuthContext.tsx:91 | holds iff there is a user |
| Auth.AuthStore.Login | src/contexts/AuthContext.tsx:40-59 | succeeds iff demo@example.com/password: then the mock user and no error; otherwise the user is unchanged and the error is "Invalid credentials"; loading ends false |
| Auth.AuthStore.Register | src/contexts/AuthContext.tsx:62-81 | the user becomes id "2" with the given name and email; no error, not loading |
| Auth.AuthStore.Logout | src/contexts/AuthContext.tsx:84-86 | no user |
| Auth.FailedLoginThenLogout | src/contexts/AuthContext.tsx:40-86 | from a signed-in session, any credentials but the demo pair fail and keep the user signed in; a logout then signs out and leaves the login's error in place |
| AdminLayout.Navigation | src/components/admin/AdminLayout.tsx:56-81 | Dashboard is current iff the path is exactly /admin; the others iff the path starts with their href |
| AdminLayout.AtMostOneCurrent | src/components/admin/AdminLayout.tsx:56-81 | no two navigation entries are current at once |
| AdminLayout.Gate | src/components/admin/AdminLayout.tsx:24-81 | spinner iff not loaded; login redirect iff loaded and signed out; home redirect iff signed in but not admin; the layout only for an admin |
| AdminLayout.ToastExactlyOnHomeRedirect | src/components/admin/AdminLayout.tsx:26-54 | the access-denied toast fires exactly when the gate redirects home |
| Seqs.Filter | src/utils/api.ts:26-73 | `Array.filter`: a subsequence holding exactly the elements that pass |
| Seqs.Count | src/pages/ShopPage.tsx:196-202 | `filter(...).length`: at most the length, 0 iff none passes |
| Seqs.Map | src/components/admin/OrdersPage.tsx:41-43 | `Array.map`: same length, each element transformed |
| Seqs.FilterAll | src/components/admin/OrdersPage.tsx:92-95 | a filter every element passes keeps the list |
| Seqs.FilterCongruent | src/utils/api.ts:26-73 | filters that agree on the list give the same result |
| Seqs.FilterTwice | src/utils/api.ts:26-73 | filtering twice is filtering by the conjunction |
| Seqs.FilterAppend | src/components/admin/ProductsPage.tsx:44-72 | filtering distributes over concatenation |
| Seqs.FilterMultiset | src/utils/api.ts:76-93 | how often an element occurs after filtering |
| Seqs.ClampIndex | src/utils/api.ts:100 | `slice` index clamping, including negative indices |
| Seqs.JsSlice | src/utils/api.ts:100 | `Array.slice`: the clamped sub-list |
| Seqs.JsSliceMultiset | src/utils/api.ts:176-177 | a slice holds no element more often than the list it is cut from |
| Seqs.Permute | src/pages/ShopPage.tsx:108 | a shuffle: a permutation, every element as often as in the input |
| Seqs.RearrangedMultiset | src/pages/ShopPage.tsx:108 | rearranging by a permutation of positions keeps the multiset of elements |
| Sorting.Insert | src/utils/api.ts:76-93 | one insertion step of the stable sort: one element more, same multiset |
| Sorting.InsertSorted | src/utils/api.ts:76-93 | inserting into a sorted list keeps it sorted |
| Sorting.SortBy | src/utils/api.ts:76-93 | `Array.sort` by a key: a permutation, sorted by the key |
| Sorting.SortByConstant | src/pages/CollectionsPage.tsx:147-148 | a comparator that always returns 0 keeps the order |
| Sorting.InsertBetween | src/pages/CollectionsPage.tsx:145-146 | inserting an element between smaller and larger keys places it there |
| Sorting.WithKey | src/pages/CollectionsPage.tsx:145-146 | the elements with a given key, in order |
| Sorting.WithKeyIsFilter | src/pages/CollectionsPage.tsx:145-146 | selecting by key is a filter by any equivalent predicate |
| Sorting.WithKeyCons | src/pages/CollectionsPage.tsx:145-146 | selecting by key unfolds one element at a time |
| Sorting.InsertIntoSplit | src/pages/CollectionsPage.tsx:145-146 | inserting into a two-key list goes to the front of its group |
| Sorting.SortByTwoValued | src/pages/CollectionsPage.tsx:145-146 | a stable sort by a 0/1 key puts the 0s then the 1s, each in order |
| Text.LowerChar | src/components/admin/OrdersPage.tsx:92-95 | `toLowerCase` of one character (ASCII) |
| Text.UpperChar | src/components/admin/OrdersPage.tsx:152 | `toUpperCase` of one character (ASCII) |
| Text.ToLower | src/components/admin/OrdersPage.tsx:92-95 | a string with no upper-case letters, equal to the input up to case |
| Text.ToLowerIdempotent | src/components/admin/OrdersPage.tsx:92-95 | lower-casing twice is lower-casing once |
| Text.IncludesIff | src/utils/api.ts:67-73 | `includes` holds iff the needle occurs at some position |
| Text.EmptyQueryMatches | src/components/admin/CustomersPage.tsx:37-40 | the empty search text occurs in every string |
| Text.Capitalize | src/components/admin/OrdersPage.tsx:152 | `charAt(0).toUpperCase() + slice(1)`: same length, only the first letter changed |
| Text.CapitalizeLowersBack | src/components/admin/OrdersPage.tsx:152 | a lower-case word capitalised and lower-cased again is itself |

## Left out

- Rendering, animation and styling: the JSX markup, framer-motion and the Tailwind classes. The display conditions of the cart sidebar are the one exception, kept as `CartSidebar.Render`.
- Floating-point prices and ratings: prices are integer cents, so `parseFloat`, `toFixed` and rounding are not modelled, and neither is float rounding in `totalPrice`.
- Case mapping: `toLowerCase` and `toUpperCase` are modelled for ASCII letters only, not the full Unicode mapping.
- Randomness: the `Math.random` shuffles (src/pages/ShopPage.tsx:108,189; src/utils/api.ts:132,176,196) are a permutation given as a parameter. The result is proved to be a permutation, but the order the shuffle produces is not modelled.
- Catalog.GetRelatedProducts: states membership, the sub-multiset and the length bound, not which candidates the shuffle puts first, because the order is random.
- Catalog.GetNewArrivals: states membership, the sub-multiset and the exact length, not which new products the shuffle puts first, because the order is random.
- Catalog.GetFeaturedProducts: states membership, the sub-multiset and the exact length, not which featured products the shuffle puts first, because the order is random.
- Timers and asynchrony:
  - `delay()` in the API and the `setTimeout` in the auth store are dropped, and every operation is synchronous.
  - The intermediate `loading = true` state of login and register is not observable in the model.
- Clock: the `Date.now()` product id is a parameter, and `createdAt` dates are integer timestamps, so date parsing is left out.
- The Clerk identity provider: `isLoaded`, `isSignedIn` and the role are inputs to `AdminLayout.Gate`.
- Router, navigation and toasts: `navigate` is represented by the gate's outcome and the toast by `AdminLayout.ShowsAccessDenied`. The URL `type` parameter is a plain value.
- Effect scheduling: the filter and sort of the collections page are separate methods, and the order in which React reruns its effects is not modelled.
- The shop page's URL effect tests the type filters of the last render but appends to the pending state. The model has no pending state, so both readings are the same list.
- Window size, scroll state and the static content pages have no logic to model.
- src/data/products.ts is constant data. The catalog is a parameter of every catalog function.
- `getCategories`, `getCollections` and `getTestimonials` only return constant arrays after a delay. They are not modelled.
- The order and product detail dialogs are presentation only and are not modelled.
- The orders and admin products pages start with empty lists, and no source code loads any, so no initial data is modelled for them.
- The cart store does not enforce quantity ≥ 1; only the sidebar's controls keep it. `Cart.CartStore.UpdateQuantity` accepts any quantity, as the source does.
- Where the documented behaviour and the code differ, the model follows the code:
  - `maxPrice` 0 imposes no upper bound (`Catalog.ZeroMaxPriceIsNoBound`).
  - When only unknown filters are active, collections with no items are still dropped (`Collections.OnlyUnknownFilters`).
  - Clicking a toggle on a string value writes a boolean (`Settings.Not`).
