/** The admin orders page (src/components/admin/OrdersPage.tsx): the status
    update, the status badge's colour, icon and label, and the search over
    customer names and order ids. Amounts are integer cents. */
module Orders {
  import opened Options
  import opened Seqs
  import opened Text

  datatype OrderStatus = Pending | Processing | Shipped | Delivered | Cancelled

  datatype OrderItem = OrderItem(id: string, productId: string, name: string, price: int, quantity: int, image: string)

  datatype Address = Address(street: string, city: string, state: string, zip: string, country: string)

  datatype Order = Order(
    id: string,
    customerId: string,
    customerName: string,
    customerEmail: string,
    items: seq<OrderItem>,
    total: int,
    status: OrderStatus,
    createdAt: string,
    shippingAddress: Address)

  /** The status as the order data spells it. */
  function StatusName(s: OrderStatus): string
  {
    match s
    case Pending => "pending"
    case Processing => "processing"
    case Shipped => "shipped"
    case Delivered => "delivered"
    case Cancelled => "cancelled"
  }

  // ----- handleUpdateStatus -----

  /** `orders.map(order => order.id === orderId ? {...order, status} : order)`:
      every order with the id gets the new status; nothing else changes. */
  function UpdateStatus(orders: seq<Order>, orderId: string, status: OrderStatus): (r: seq<Order>)
    ensures |r| == |orders|
    ensures forall k :: 0 <= k < |orders| ==> r[k] == orders[k].(status := r[k].status)
    ensures forall k :: 0 <= k < |orders| ==> r[k].status == if orders[k].id == orderId then status else orders[k].status
  {
    Map(orders, (o: Order) => if o.id == orderId then o.(status := status) else o)
  }

  /** An id that no order has leaves the list as it is. */
  lemma UpdateUnknownId(orders: seq<Order>, orderId: string, status: OrderStatus)
    requires forall o :: o in orders ==> o.id != orderId
    ensures UpdateStatus(orders, orderId, status) == orders
  {
    var r := UpdateStatus(orders, orderId, status);
    forall k | 0 <= k < |orders|
      ensures r[k] == orders[k]
    {
      assert orders[k] in orders;
    }
  }

  /** The last update of an order's status is the one that counts. */
  lemma UpdateTwice(orders: seq<Order>, orderId: string, first: OrderStatus, second: OrderStatus)
    ensures UpdateStatus(UpdateStatus(orders, orderId, first), orderId, second) == UpdateStatus(orders, orderId, second)
  {
    var a := UpdateStatus(UpdateStatus(orders, orderId, first), orderId, second);
    var b := UpdateStatus(orders, orderId, second);
    forall k | 0 <= k < |orders|
      ensures a[k] == b[k]
    {
    }
  }

  // ----- Status badge -----

  /** `getStatusColor`. */
  function StatusColor(s: OrderStatus): string
  {
    match s
    case Pending => "text-yellow-400 bg-yellow-400/20"
    case Processing => "text-blue-400 bg-blue-400/20"
    case Shipped => "text-purple-400 bg-purple-400/20"
    case Delivered => "text-green-400 bg-green-400/20"
    case Cancelled => "text-red-400 bg-red-400/20"
  }

  /** The five statuses have five different colours. */
  lemma StatusColorsDistinct(s: OrderStatus, t: OrderStatus)
    ensures StatusColor(s) == StatusColor(t) <==> s == t
  {
    if s != t {
      assert StatusColor(s)[5] != StatusColor(t)[5] || StatusColor(s)[6] != StatusColor(t)[6];
    }
  }

  datatype Icon = Clock | Package | CheckCircle | XCircle

  /** `getStatusIcon`. */
  function StatusIcon(s: OrderStatus): Icon
  {
    match s
    case Pending => Clock
    case Processing => Package
    case Shipped => Package
    case Delivered => CheckCircle
    case Cancelled => XCircle
  }

  /** Processing and shipped share the package icon; otherwise different
      statuses have different icons. */
  lemma StatusIconsShared(s: OrderStatus, t: OrderStatus)
    ensures StatusIcon(s) == Package <==> s == Processing || s == Shipped
    ensures StatusIcon(s) == StatusIcon(t) <==> s == t || ({s, t} == {Processing, Shipped})
  {
    if {s, t} == {Processing, Shipped} {
      assert s in {Processing, Shipped} && t in {Processing, Shipped};
    }
  }

  /** The badge text: the status with its first letter upper-cased. */
  function StatusLabel(s: OrderStatus): (badge: string)
    ensures |badge| == |StatusName(s)| && |badge| > 0
    ensures IsUpper(badge[0]) && badge[1..] == StatusName(s)[1..]
    ensures ToLower(badge) == StatusName(s)
  {
    var name := StatusName(s);
    CapitalizeLowersBack(name);
    Capitalize(name)
  }

  // ----- Search -----

  /** An order is found when the search text occurs, ignoring case, in its
      customer's name or in its id. */
  predicate OrderMatches(o: Order, query: string)
  {
    ContainsIgnoringCase(o.customerName, query) || ContainsIgnoringCase(o.id, query)
  }

  /** `filteredOrders`. */
  function SearchOrders(orders: seq<Order>, query: string): (r: seq<Order>)
    ensures IsSubsequence(r, orders)
    ensures forall o :: o in r <==> o in orders && OrderMatches(o, query)
  {
    Filter(orders, (o: Order) => OrderMatches(o, query))
  }

  /** An empty search shows every order. */
  lemma EmptySearchShowsAll(orders: seq<Order>)
    ensures SearchOrders(orders, "") == orders
  {
    forall o | o in orders
      ensures OrderMatches(o, "")
    {
      EmptyQueryMatches(o.customerName);
    }
    FilterAll(orders, (o: Order) => OrderMatches(o, ""));
  }

  // ----- Page state -----

  /** The page's state. The page starts with no orders and nothing on it
      loads any; the search text is set directly by the search box. */
  class OrdersPage {
    var orders: seq<Order>
    var searchQuery: string

    constructor()
      ensures orders == [] && searchQuery == ""
    {
      orders := [];
      searchQuery := "";
    }

    /** `handleUpdateStatus`. */
    method HandleUpdateStatus(orderId: string, status: OrderStatus)
      modifies this`orders
      ensures orders == UpdateStatus(old(orders), orderId, status)
    {
      orders := UpdateStatus(orders, orderId, status);
    }

    /** The orders listed for the current search text. */
    function FilteredOrders(): (r: seq<Order>)
      reads this
      ensures r == SearchOrders(orders, searchQuery)
      ensures IsSubsequence(r, orders)
      ensures forall o :: o in r <==> o in orders && OrderMatches(o, searchQuery)
      ensures searchQuery == "" ==> r == orders
    {
      EmptySearchShowsAll(orders);
      SearchOrders(orders, searchQuery)
    }
  }
}
