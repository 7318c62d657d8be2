/** The cart store of the storefront (CartProvider): an ordered list of line
    items that is unique by product id, and whether the cart panel is open.
    Every updater replaces the list by an edited copy; the totals are sums
    recomputed from the list. Prices are integer cents. */
module Cart {
  import opened Options
  import opened Seqs

  /** One line of the cart. `quantity` is a plain number: the store itself
      does not keep it positive. */
  datatype CartItem = CartItem(
    id: string,
    name: string,
    price: int,
    quantity: int,
    image: string,
    size: Option<string>,
    color: Option<string>)

  /** No two lines share a product id. */
  ghost predicate UniqueIds(items: seq<CartItem>)
  {
    forall i, j :: 0 <= i < j < |items| ==> items[i].id != items[j].id
  }

  /** Some line has product id `id`. */
  ghost predicate HasId(items: seq<CartItem>, id: string)
  {
    exists k :: 0 <= k < |items| && items[k].id == id
  }

  /** `totalItems`: the sum of the quantities of all lines. */
  function SumQuantity(items: seq<CartItem>): int
  {
    if items == [] then 0 else items[0].quantity + SumQuantity(items[1..])
  }

  /** `totalPrice`: the sum of price times quantity over all lines. */
  function SumPrice(items: seq<CartItem>): int
  {
    if items == [] then 0 else items[0].price * items[0].quantity + SumPrice(items[1..])
  }

  /** The quantity held for product `id`: the sum over the lines with that id. */
  function QuantityOf(items: seq<CartItem>, id: string): int
  {
    if items == [] then 0
    else (if items[0].id == id then items[0].quantity else 0) + QuantityOf(items[1..], id)
  }

  /** What the lines with product `id` contribute to `totalPrice`. */
  function PriceOf(items: seq<CartItem>, id: string): int
  {
    if items == [] then 0
    else (if items[0].id == id then items[0].price * items[0].quantity else 0) + PriceOf(items[1..], id)
  }

  /** `findIndex(i => i.id === id)`: the first line with that id, or -1. */
  function FindIndex(items: seq<CartItem>, id: string): (k: int)
    ensures -1 <= k < |items|
    ensures k == -1 <==> !HasId(items, id)
    ensures k >= 0 ==> items[k].id == id && forall j :: 0 <= j < k ==> items[j].id != id
  {
    if items == [] then -1
    else if items[0].id == id then 0
    else
      var k := FindIndex(items[1..], id);
      assert forall j :: 1 <= j < |items| ==> items[1..][j - 1] == items[j];
      if k == -1 then -1 else k + 1
  }

  /** `addItem`: merges into the existing line of the same id by adding the
      quantities (that line keeps its other fields and its place), or appends
      the item as a new last line. */
  function AddItemTo(items: seq<CartItem>, item: CartItem): (r: seq<CartItem>)
    ensures HasId(items, item.id) ==>
      var k := FindIndex(items, item.id);
      && |r| == |items|
      && r[k] == items[k].(quantity := items[k].quantity + item.quantity)
      && forall j :: 0 <= j < |items| && j != k ==> r[j] == items[j]
    ensures !HasId(items, item.id) ==> r == items + [item]
    ensures HasId(r, item.id)
  {
    var k := FindIndex(items, item.id);
    if k > -1 then
      items[k := items[k].(quantity := items[k].quantity + item.quantity)]
    else
      assert (items + [item])[|items|] == item;
      items + [item]
  }

  /** `removeItem`: keeps the lines whose id differs, in order. */
  function RemoveItemFrom(items: seq<CartItem>, id: string): (r: seq<CartItem>)
    ensures !HasId(r, id)
    ensures IsSubsequence(r, items)
    ensures forall x :: x in r ==> x in items
    ensures forall x :: x in items && x.id != id ==> x in r
  {
    var r := Filter(items, (x: CartItem) => x.id != id);
    assert forall k :: 0 <= k < |r| ==> r[k] in r;
    r
  }

  /** Removing a product the cart does not hold changes nothing. */
  lemma RemoveItemAbsent(items: seq<CartItem>, id: string)
    requires !HasId(items, id)
    ensures RemoveItemFrom(items, id) == items
  {
    FilterAll(items, (x: CartItem) => x.id != id);
  }

  /** `updateQuantity`: overwrites the quantity of the lines with that id. */
  function SetQuantity(items: seq<CartItem>, id: string, quantity: int): (r: seq<CartItem>)
    ensures |r| == |items|
    ensures forall j :: 0 <= j < |items| ==> r[j].id == items[j].id
    ensures forall j :: 0 <= j < |items| && items[j].id == id ==> r[j] == items[j].(quantity := quantity)
    ensures forall j :: 0 <= j < |items| && items[j].id != id ==> r[j] == items[j]
  {
    Map(items, (x: CartItem) => if x.id == id then x.(quantity := quantity) else x)
  }

  // ----- Lemmas about the totals -----

  lemma {:induction false} SumQuantityAppend(s: seq<CartItem>, t: seq<CartItem>)
    ensures SumQuantity(s + t) == SumQuantity(s) + SumQuantity(t)
  {
    if s == [] {
      assert s + t == t;
    } else {
      assert (s + t)[1..] == s[1..] + t;
      SumQuantityAppend(s[1..], t);
    }
  }

  lemma {:induction false} SumPriceAppend(s: seq<CartItem>, t: seq<CartItem>)
    ensures SumPrice(s + t) == SumPrice(s) + SumPrice(t)
  {
    if s == [] {
      assert s + t == t;
    } else {
      assert (s + t)[1..] == s[1..] + t;
      SumPriceAppend(s[1..], t);
    }
  }

  /** Changing the quantity of line `k` by `delta` changes `totalItems` by
      `delta` and `totalPrice` by that line's price times `delta`. */
  lemma {:induction false} SumsAfterLineUpdate(items: seq<CartItem>, k: nat, q: int)
    requires k < |items|
    ensures SumQuantity(items[k := items[k].(quantity := q)]) == SumQuantity(items) - items[k].quantity + q
    ensures SumPrice(items[k := items[k].(quantity := q)]) == SumPrice(items) + items[k].price * (q - items[k].quantity)
  {
    var r := items[k := items[k].(quantity := q)];
    if k > 0 {
      assert r[1..] == items[1..][k - 1 := items[k].(quantity := q)];
      SumsAfterLineUpdate(items[1..], k - 1, q);
    } else {
      assert r[1..] == items[1..];
    }
  }

  /** A product id that no line carries holds nothing. */
  lemma {:induction false} QuantityOfAbsent(items: seq<CartItem>, id: string)
    requires !HasId(items, id)
    ensures QuantityOf(items, id) == 0 && PriceOf(items, id) == 0
  {
    if items != [] {
      assert !HasId(items[1..], id);
      QuantityOfAbsent(items[1..], id);
    }
  }

  /** In a cart unique by id, the quantity held for the id of line `k` is that
      line's quantity. */
  lemma {:induction false} QuantityOfUnique(items: seq<CartItem>, k: nat)
    requires UniqueIds(items) && k < |items|
    ensures QuantityOf(items, items[k].id) == items[k].quantity
    ensures PriceOf(items, items[k].id) == items[k].price * items[k].quantity
  {
    var id := items[k].id;
    if k == 0 {
      assert !HasId(items[1..], id);
      QuantityOfAbsent(items[1..], id);
    } else {
      assert items[1..][k - 1] == items[k];
      QuantityOfUnique(items[1..], k - 1);
    }
  }

  // ----- Lemmas about the operations -----

  /** Adding an item keeps the lines unique by id, raises `totalItems` by the
      item's quantity, and raises `totalPrice` by that quantity at the price of
      the line that absorbed it: the existing line's price on a merge, the
      item's own price on an append. */
  lemma AddItemEffect(items: seq<CartItem>, item: CartItem)
    requires UniqueIds(items)
    ensures UniqueIds(AddItemTo(items, item))
    ensures SumQuantity(AddItemTo(items, item)) == SumQuantity(items) + item.quantity
    ensures HasId(items, item.id) ==>
      SumPrice(AddItemTo(items, item)) == SumPrice(items) + items[FindIndex(items, item.id)].price * item.quantity
    ensures !HasId(items, item.id) ==>
      SumPrice(AddItemTo(items, item)) == SumPrice(items) + item.price * item.quantity
  {
    var r := AddItemTo(items, item);
    var k := FindIndex(items, item.id);
    if k >= 0 {
      SumsAfterLineUpdate(items, k, items[k].quantity + item.quantity);
      assert r == items[k := items[k].(quantity := items[k].quantity + item.quantity)];
    } else {
      SumQuantityAppend(items, [item]);
      SumPriceAppend(items, [item]);
      assert [item][1..] == [];
    }
  }

  /** Changing the quantity of line `k` to `q` changes the quantity held for
      product `id` only when line `k` is a line of that product. */
  lemma {:induction false} QuantityOfAfterLineUpdate(items: seq<CartItem>, k: nat, q: int, id: string)
    requires k < |items|
    ensures QuantityOf(items[k := items[k].(quantity := q)], id) ==
      QuantityOf(items, id) + (if items[k].id == id then q - items[k].quantity else 0)
  {
    var r := items[k := items[k].(quantity := q)];
    if k > 0 {
      assert r[1..] == items[1..][k - 1 := items[k].(quantity := q)];
      QuantityOfAfterLineUpdate(items[1..], k - 1, q, id);
    } else {
      assert r[1..] == items[1..];
    }
  }

  lemma {:induction false} QuantityOfAppend(s: seq<CartItem>, t: seq<CartItem>, id: string)
    ensures QuantityOf(s + t, id) == QuantityOf(s, id) + QuantityOf(t, id)
  {
    if s == [] {
      assert s + t == t;
    } else {
      assert (s + t)[1..] == s[1..] + t;
      QuantityOfAppend(s[1..], t, id);
    }
  }

  /** The quantity held for every product after adding an item: the item's
      product gains exactly the item's quantity, every other product keeps its
      quantity. */
  lemma AddItemQuantities(items: seq<CartItem>, item: CartItem, id: string)
    ensures QuantityOf(AddItemTo(items, item), id) ==
      QuantityOf(items, id) + (if id == item.id then item.quantity else 0)
  {
    var k := FindIndex(items, item.id);
    if k >= 0 {
      QuantityOfAfterLineUpdate(items, k, items[k].quantity + item.quantity, id);
      assert AddItemTo(items, item) == items[k := items[k].(quantity := items[k].quantity + item.quantity)];
    } else {
      QuantityOfAppend(items, [item], id);
      assert [item][1..] == [];
    }
  }

  /** Several additions of the same product, starting from a cart unique by
      id, leave exactly one line for it, holding the sum of the added
      quantities on top of what was there. */
  function AddAll(items: seq<CartItem>, adds: seq<CartItem>): seq<CartItem>
    decreases adds
  {
    if adds == [] then items else AddAll(AddItemTo(items, adds[0]), adds[1..])
  }

  lemma {:induction false} RepeatedAdds(items: seq<CartItem>, adds: seq<CartItem>, id: string)
    requires UniqueIds(items)
    requires forall k :: 0 <= k < |adds| ==> adds[k].id == id
    ensures UniqueIds(AddAll(items, adds))
    ensures QuantityOf(AddAll(items, adds), id) == QuantityOf(items, id) + SumQuantity(adds)
    ensures adds != [] ==> HasId(AddAll(items, adds), id)
    decreases adds
  {
    if adds != [] {
      var next := AddItemTo(items, adds[0]);
      AddItemEffect(items, adds[0]);
      AddItemQuantities(items, adds[0], id);
      RepeatedAdds(next, adds[1..], id);
      if adds[1..] == [] {
        assert AddAll(next, adds[1..]) == next;
      } else {
        assert HasId(AddAll(next, adds[1..]), id);
      }
    }
  }

  /** Removing a product drops exactly its lines: `totalItems` and
      `totalPrice` fall by what those lines contributed, and the cart stays
      unique by id. */
  lemma {:induction false} RemoveItemEffect(items: seq<CartItem>, id: string)
    ensures SumQuantity(RemoveItemFrom(items, id)) == SumQuantity(items) - QuantityOf(items, id)
    ensures SumPrice(RemoveItemFrom(items, id)) == SumPrice(items) - PriceOf(items, id)
    ensures UniqueIds(items) ==> UniqueIds(RemoveItemFrom(items, id))
  {
    if items != [] {
      RemoveItemEffect(items[1..], id);
      var rest := RemoveItemFrom(items[1..], id);
      assert RemoveItemFrom(items, id) == if items[0].id != id then [items[0]] + rest else rest;
      if UniqueIds(items) && items[0].id != id {
        forall j | 0 <= j < |rest|
          ensures rest[j].id != items[0].id
        {
          assert rest[j] in items[1..];
        }
        assert ([items[0]] + rest)[1..] == rest;
      }
    }
  }

  /** Setting a quantity keeps the cart unique by id; in such a cart the
      product then holds exactly the quantity given (a set, not an addition)
      and the totals move by the difference. */
  lemma SetQuantityEffect(items: seq<CartItem>, k: nat, quantity: int)
    requires UniqueIds(items) && k < |items|
    ensures var r := SetQuantity(items, items[k].id, quantity);
      && UniqueIds(r)
      && r == items[k := items[k].(quantity := quantity)]
      && QuantityOf(r, items[k].id) == quantity
      && SumQuantity(r) == SumQuantity(items) - items[k].quantity + quantity
      && SumPrice(r) == SumPrice(items) + items[k].price * (quantity - items[k].quantity)
  {
    var r := SetQuantity(items, items[k].id, quantity);
    assert r == items[k := items[k].(quantity := quantity)];
    SumsAfterLineUpdate(items, k, quantity);
    QuantityOfUnique(r, k);
  }

  /** Setting the quantity of a product the cart does not hold changes nothing. */
  lemma SetQuantityAbsent(items: seq<CartItem>, id: string, quantity: int)
    requires !HasId(items, id)
    ensures SetQuantity(items, id, quantity) == items
  {
  }

  /** The cart store. `items` and `isCartOpen` are the provider's state. */
  class CartStore {
    var items: seq<CartItem>
    var isCartOpen: bool

    ghost predicate Valid()
      reads this
    {
      UniqueIds(items)
    }

    constructor ()
      ensures Valid()
      ensures items == [] && !isCartOpen
    {
      items := [];
      isCartOpen := false;
    }

    function TotalItems(): (n: int)
      reads this
      ensures items == [] ==> n == 0
    {
      SumQuantity(items)
    }

    function TotalPrice(): (n: int)
      reads this
      ensures items == [] ==> n == 0
    {
      SumPrice(items)
    }

    method AddItem(item: CartItem)
      requires Valid()
      modifies this`items
      ensures Valid()
      ensures items == AddItemTo(old(items), item)
      ensures TotalItems() == old(TotalItems()) + item.quantity
    {
      AddItemEffect(items, item);
      items := AddItemTo(items, item);
    }

    method RemoveItem(id: string)
      requires Valid()
      modifies this`items
      ensures Valid()
      ensures items == RemoveItemFrom(old(items), id)
      ensures TotalItems() == old(TotalItems()) - QuantityOf(old(items), id)
      ensures TotalPrice() == old(TotalPrice()) - PriceOf(old(items), id)
    {
      RemoveItemEffect(items, id);
      items := RemoveItemFrom(items, id);
    }

    method UpdateQuantity(id: string, quantity: int)
      requires Valid()
      modifies this`items
      ensures Valid()
      ensures items == SetQuantity(old(items), id, quantity)
      ensures HasId(old(items), id) ==> QuantityOf(items, id) == quantity
      ensures !HasId(old(items), id) ==> items == old(items)
    {
      var k := FindIndex(items, id);
      if k >= 0 {
        SetQuantityEffect(items, k, quantity);
      }
      items := SetQuantity(items, id, quantity);
    }

    method ClearCart()
      modifies this`items
      ensures Valid()
      ensures items == [] && TotalItems() == 0 && TotalPrice() == 0
    {
      items := [];
    }

    method ToggleCart()
      modifies this`isCartOpen
      ensures isCartOpen == !old(isCartOpen)
    {
      isCartOpen := !isCartOpen;
    }
  }

  /** Two toggles give the panel its original visibility and leave the lines alone. */
  method ToggleCartTwice(cart: CartStore)
    modifies cart
    ensures cart.isCartOpen == old(cart.isCartOpen) && cart.items == old(cart.items)
  {
    cart.ToggleCart();
    cart.ToggleCart();
  }
}
