/** The admin products page (src/components/admin/ProductsPage.tsx): the
    product list with its add and delete handlers, the new-product form, and
    the search over names and categories. Prices are integer cents; the id
    that the source derives from the clock is a parameter. */
module AdminProducts {
  import opened Options
  import opened Seqs
  import opened Text

  datatype AdminProduct = AdminProduct(
    id: string,
    name: string,
    price: int,
    description: string,
    images: seq<string>,
    category: string,
    stock: int,
    isNew: bool,
    compareAtPrice: Option<int>)

  /** The new-product form. */
  datatype Draft = Draft(name: string, price: int, description: string, images: seq<string>, category: string, stock: int, isNew: bool)

  /** The form as it opens and as it is reset after an add. */
  const DefaultDraft: Draft := Draft("", 0, "", [], "", 0, true)

  /** `{...newProduct, id}`: the form's fields and the new id; the form has no
      compare-at price. */
  function FromDraft(d: Draft, id: string): (p: AdminProduct)
    ensures p.id == id && p.compareAtPrice.None?
    ensures p.name == d.name && p.price == d.price && p.description == d.description && p.images == d.images
    ensures p.category == d.category && p.stock == d.stock && p.isNew == d.isNew
  {
    AdminProduct(id, d.name, d.price, d.description, d.images, d.category, d.stock, d.isNew, None)
  }

  /** `products.filter(p => p.id !== id)`. */
  function DeleteProduct(products: seq<AdminProduct>, id: string): (r: seq<AdminProduct>)
    ensures forall p :: p in r ==> p.id != id
    ensures forall p :: p in r <==> p in products && p.id != id
    ensures IsSubsequence(r, products)
  {
    Filter(products, (p: AdminProduct) => p.id != id)
  }

  /** Deleting an id that no product has changes nothing. */
  lemma DeleteUnknownId(products: seq<AdminProduct>, id: string)
    requires forall p :: p in products ==> p.id != id
    ensures DeleteProduct(products, id) == products
  {
    FilterAll(products, (p: AdminProduct) => p.id != id);
  }

  /** Deleting an id removes exactly the products with it: the count drops by
      the number of such products. */
  lemma DeleteCount(products: seq<AdminProduct>, id: string)
    ensures |DeleteProduct(products, id)| + Count(products, (p: AdminProduct) => p.id == id) == |products|
  {
    DeleteCountOf(products, id);
  }

  lemma {:induction false} DeleteCountOf(products: seq<AdminProduct>, id: string)
    ensures |Filter(products, (p: AdminProduct) => p.id != id)| + |Filter(products, (p: AdminProduct) => p.id == id)| == |products|
  {
    if products != [] {
      DeleteCountOf(products[1..], id);
    }
  }

  /** A product is found when the search text occurs, ignoring case, in its
      name or its category. */
  predicate ProductMatches(p: AdminProduct, query: string)
  {
    ContainsIgnoringCase(p.name, query) || ContainsIgnoringCase(p.category, query)
  }

  /** `filteredProducts`. */
  function SearchProducts(products: seq<AdminProduct>, query: string): (r: seq<AdminProduct>)
    ensures IsSubsequence(r, products)
    ensures forall p :: p in r <==> p in products && ProductMatches(p, query)
  {
    Filter(products, (p: AdminProduct) => ProductMatches(p, query))
  }

  /** An empty search lists every product. */
  lemma EmptySearchListsAll(products: seq<AdminProduct>)
    ensures SearchProducts(products, "") == products
  {
    forall p | p in products
      ensures ProductMatches(p, "")
    {
      EmptyQueryMatches(p.name);
    }
    FilterAll(products, (p: AdminProduct) => ProductMatches(p, ""));
  }

  /** The page's state. It starts with no products. */
  class ProductsPage {
    var products: seq<AdminProduct>
    var newProduct: Draft
    var isAddModalOpen: bool
    var searchQuery: string

    constructor()
      ensures products == [] && newProduct == DefaultDraft && !isAddModalOpen && searchQuery == ""
    {
      products := [];
      newProduct := DefaultDraft;
      isAddModalOpen := false;
      searchQuery := "";
    }

    /** `handleAddProduct`, with `id` standing for `Date.now().toString()`:
        the form becomes one new product at the end of the list, the modal
        closes and the form is reset. */
    method HandleAddProduct(id: string)
      modifies this`products, this`isAddModalOpen, this`newProduct
      ensures products == old(products) + [FromDraft(old(newProduct), id)]
      ensures !isAddModalOpen && newProduct == DefaultDraft
    {
      var product := FromDraft(newProduct, id);
      products := products + [product];
      isAddModalOpen := false;
      newProduct := DefaultDraft;
    }

    /** `handleDeleteProduct`. */
    method HandleDeleteProduct(id: string)
      modifies this`products
      ensures products == DeleteProduct(old(products), id)
    {
      products := DeleteProduct(products, id);
    }

    /** The "Add Product" button and the modal's cancel button. */
    method SetAddModalOpen(open: bool)
      modifies this`isAddModalOpen
      ensures isAddModalOpen == open
    {
      isAddModalOpen := open;
    }

    /** The form inputs: each replaces one field of the form. */
    method EditName(name: string)
      modifies this`newProduct
      ensures newProduct == old(newProduct).(name := name)
    {
      newProduct := newProduct.(name := name);
    }

    method EditPrice(price: int)
      modifies this`newProduct
      ensures newProduct == old(newProduct).(price := price)
    {
      newProduct := newProduct.(price := price);
    }

    method EditStock(stock: int)
      modifies this`newProduct
      ensures newProduct == old(newProduct).(stock := stock)
    {
      newProduct := newProduct.(stock := stock);
    }

    method EditCategory(category: string)
      modifies this`newProduct
      ensures newProduct == old(newProduct).(category := category)
    {
      newProduct := newProduct.(category := category);
    }

    method EditDescription(description: string)
      modifies this`newProduct
      ensures newProduct == old(newProduct).(description := description)
    {
      newProduct := newProduct.(description := description);
    }
  }

  /** Adding a product and then deleting its id removes it again, along with
      any older product that had the same id. */
  method AddThenDelete(page: ProductsPage, id: string)
    modifies page
    ensures page.products == DeleteProduct(old(page.products), id)
  {
    ghost var before := page.products;
    page.HandleAddProduct(id);
    page.HandleDeleteProduct(id);
    FilterAppend(before, [FromDraft(old(page.newProduct), id)], (p: AdminProduct) => p.id != id);
  }
}
