/** The admin customers page (src/components/admin/CustomersPage.tsx): a fixed
    customer list and the search over names and e-mail addresses. Amounts
    are integer cents. */
module Customers {
  import opened Seqs
  import opened Text

  datatype CustomerStatus = Active | Inactive

  datatype Customer = Customer(
    id: string,
    name: string,
    email: string,
    phone: string,
    location: string,
    totalOrders: int,
    totalSpent: int,
    joinDate: string,
    lastOrder: string,
    status: CustomerStatus)

  /** The customers the page holds. */
  const InitialCustomers: seq<Customer> := [
    Customer("1", "John Doe", "john@example.com", "+1 234 567 890", "New York, USA", 12, 123456, "2024-01-15", "2024-03-10", Active)
  ]

  /** A customer is found when the search text occurs, ignoring case, in the
      name or the e-mail address. */
  predicate CustomerMatches(c: Customer, query: string)
  {
    ContainsIgnoringCase(c.name, query) || ContainsIgnoringCase(c.email, query)
  }

  /** `filteredCustomers`. */
  function SearchCustomers(customers: seq<Customer>, query: string): (r: seq<Customer>)
    ensures IsSubsequence(r, customers)
    ensures forall c :: c in r <==> c in customers && CustomerMatches(c, query)
  {
    Filter(customers, (c: Customer) => CustomerMatches(c, query))
  }

  /** An empty search lists every customer. */
  lemma EmptySearchListsAll(customers: seq<Customer>)
    ensures SearchCustomers(customers, "") == customers
  {
    forall c | c in customers
      ensures CustomerMatches(c, "")
    {
      EmptyQueryMatches(c.name);
    }
    FilterAll(customers, (c: Customer) => CustomerMatches(c, ""));
  }

  /** The page's state. The customer list has no setter, so it is a constant
      of the page; only the search text changes. */
  class CustomersPage {
    const customers: seq<Customer>
    var searchQuery: string

    constructor()
      ensures customers == InitialCustomers && searchQuery == ""
    {
      customers := InitialCustomers;
      searchQuery := "";
    }

    method SetSearchQuery(query: string)
      modifies this`searchQuery
      ensures searchQuery == query
    {
      searchQuery := query;
    }

    /** The customers listed for the current search text. */
    function FilteredCustomers(): (r: seq<Customer>)
      reads this
      ensures r == SearchCustomers(customers, searchQuery)
      ensures IsSubsequence(r, customers)
      ensures forall c :: c in r <==> c in customers && CustomerMatches(c, searchQuery)
      ensures searchQuery == "" ==> r == customers
    {
      EmptySearchListsAll(customers);
      SearchCustomers(customers, searchQuery)
    }
  }
}
