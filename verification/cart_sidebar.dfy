/** The cart slide-over panel (CartSidebar): what it shows for a given cart
    state, and the quantity and remove buttons of each rendered line. These
    buttons are the only places that change a quantity, and the "−" button's
    clamp at 1 is what keeps every quantity positive. */
module CartSidebar {
  import opened Options
  import opened Cart

  /** What the panel renders. */
  datatype View =
    | Nothing
    | Panel(emptyMessage: bool, lines: seq<CartItem>, subtotal: Option<int>)

  /** The panel renders nothing while the cart is closed; when open it shows
      the empty-cart message exactly when there are no lines, and the footer
      with the subtotal exactly when there are some. */
  function Render(items: seq<CartItem>, isCartOpen: bool): (v: View)
    ensures !isCartOpen <==> v == Nothing
    ensures v.Panel? ==> v.lines == items
    ensures v.Panel? ==> (v.emptyMessage <==> items == [])
    ensures v.Panel? ==> (v.subtotal.Some? <==> items != [])
    ensures v.Panel? && v.subtotal.Some? ==> v.subtotal.value == SumPrice(items)
  {
    if !isCartOpen then Nothing
    else Panel(|items| == 0, items, if |items| > 0 then Some(SumPrice(items)) else None)
  }

  /** The quantity the "−" button asks for: `Math.max(1, quantity - 1)`. */
  function Decremented(quantity: int): (q: int)
    ensures q >= 1
    ensures quantity > 1 ==> q == quantity - 1
    ensures quantity <= 1 ==> q == 1
  {
    if 1 >= quantity - 1 then 1 else quantity - 1
  }

  /** A click on one of the buttons of the rendered line at position `row`. */
  datatype Click = Minus(row: nat) | Plus(row: nat) | Trash(row: nat)

  /** The cart after a click: the handlers call `updateQuantity` or
      `removeItem` with the id and quantity of the line they were rendered
      for. A click names a rendered line, so a row past the end changes
      nothing. */
  function Apply(items: seq<CartItem>, click: Click): seq<CartItem>
  {
    match click
    case Minus(k) => if k < |items| then SetQuantity(items, items[k].id, Decremented(items[k].quantity)) else items
    case Plus(k) => if k < |items| then SetQuantity(items, items[k].id, items[k].quantity + 1) else items
    case Trash(k) => if k < |items| then RemoveItemFrom(items, items[k].id) else items
  }

  /** The cart after a series of clicks. */
  function ApplyAll(items: seq<CartItem>, clicks: seq<Click>): seq<CartItem>
    decreases clicks
  {
    if clicks == [] then items else ApplyAll(Apply(items, clicks[0]), clicks[1..])
  }

  /** The "−" button on line `k` leaves that line at `max(1, q - 1)` and every
      other line as it was; the "+" button leaves it at exactly `q + 1`. */
  lemma ButtonEffects(items: seq<CartItem>, k: nat)
    requires UniqueIds(items) && k < |items|
    ensures Apply(items, Minus(k)) == items[k := items[k].(quantity := Decremented(items[k].quantity))]
    ensures Apply(items, Plus(k)) == items[k := items[k].(quantity := items[k].quantity + 1)]
    ensures UniqueIds(Apply(items, Minus(k))) && UniqueIds(Apply(items, Plus(k)))
  {
    SetQuantityEffect(items, k, Decremented(items[k].quantity));
    SetQuantityEffect(items, k, items[k].quantity + 1);
  }

  /** Every line holds at least one unit. */
  ghost predicate AllPositive(items: seq<CartItem>)
  {
    forall k :: 0 <= k < |items| ==> items[k].quantity >= 1
  }

  /** One click keeps every quantity at least 1. */
  lemma ClickKeepsPositive(items: seq<CartItem>, click: Click)
    requires AllPositive(items)
    ensures AllPositive(Apply(items, click))
  {
    var r := Apply(items, click);
    match click
    case Minus(k) =>
    case Plus(k) =>
    case Trash(k) =>
      if k < |items| {
        forall j | 0 <= j < |r|
          ensures r[j].quantity >= 1
        {
          assert r[j] in items;
        }
      }
  }

  /** Starting from a cart whose quantities are all at least 1, any series of
      "−", "+" and remove clicks keeps them all at least 1. */
  lemma {:induction false} ClicksKeepPositive(items: seq<CartItem>, clicks: seq<Click>)
    requires AllPositive(items)
    ensures AllPositive(ApplyAll(items, clicks))
    decreases clicks
  {
    if clicks != [] {
      ClickKeepsPositive(items, clicks[0]);
      ClicksKeepPositive(Apply(items, clicks[0]), clicks[1..]);
    }
  }
}
