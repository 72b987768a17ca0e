/** The read-only manager page (frontend/manager.js): its customer list, the
    search over it, and the transaction history of one customer. */
module ManagerPage {
  import opened Values
  import opened Folds
  import opened Client

  /** One drawn customer: the name, the phone or 'No phone', `balance || 0`,
      and whether the balance is drawn in the danger colour. */
  datatype CustomerRow = CustomerRow(id: string, name: string, phone: string, balance: int, owes: bool)

  /** What the list shows: its empty state, or one row per customer. */
  datatype CustomerList = NoCustomers | Rows(rows: seq<CustomerRow>)

  /** The row `renderCustomers` draws for one customer. */
  function RowOf(c: ClientCustomer): (r: CustomerRow)
    ensures r.owes <==> BalanceOrZero(c) > 0
    ensures r.balance == BalanceOrZero(c) && r.id == c.id && r.name == c.name
    ensures r.phone == (if c.phone == "" then "No phone" else c.phone)
  {
    var balance := BalanceOrZero(c);
    CustomerRow(c.id, c.name, if c.phone == "" then "No phone" else c.phone, balance, balance > 0)
  }

  /** `renderCustomers(customers)`: the empty state for no customers, otherwise
      one row per customer in the given order. */
  function RenderCustomers(customers: seq<ClientCustomer>): (r: CustomerList)
    ensures r == NoCustomers <==> customers == []
    ensures r.Rows? ==> |r.rows| == |customers| &&
                        forall i :: 0 <= i < |customers| ==> r.rows[i].id == customers[i].id &&
                                                              (r.rows[i].owes <==> BalanceOrZero(customers[i]) > 0)
  {
    if customers == [] then NoCustomers else Rows(Map(customers, RowOf))
  }

  /** `(c.name && lower(name).includes(q)) || (c.phone && c.phone.includes(q))`
      with `q` the lower-cased query; the phone itself is not lower-cased. */
  predicate ManagerMatches(c: ClientCustomer, lowerQuery: string)
  {
    (c.name != "" && Contains(Lower(c.name), lowerQuery)) || (c.phone != "" && Contains(c.phone, lowerQuery))
  }

  /** `filterCustomers(query)`: the customers the lower-cased query matches. */
  function ManagerFilter(all: seq<ClientCustomer>, query: string): seq<ClientCustomer>
  {
    Filter(all, (c: ClientCustomer) => ManagerMatches(c, Lower(query)))
  }

  /** The filter keeps, in order, exactly the customers the query matches. */
  lemma ManagerFilterMembers(all: seq<ClientCustomer>, query: string)
    ensures forall c :: c in ManagerFilter(all, query) <==> c in all && ManagerMatches(c, Lower(query))
    ensures |ManagerFilter(all, query)| <= |all|
  {
    FilterMembers(all, (c: ClientCustomer) => ManagerMatches(c, Lower(query)));
  }

  /** An empty query keeps exactly the customers with a name or a phone: a
      customer with neither drops out of the list once the search box is
      cleared, while the other pages show everyone for an empty query. */
  lemma EmptyQueryKeepsNamedOrPhoned(all: seq<ClientCustomer>)
    ensures forall c :: c in ManagerFilter(all, "") <==> c in all && (c.name != "" || c.phone != "")
    ensures forall c :: c in all && c.name == "" && c.phone == "" ==>
              c !in ManagerFilter(all, "") && c in SearchResults(all, "")
  {
    assert Lower("") == "";
    forall c: ClientCustomer ensures ManagerMatches(c, "") <==> c.name != "" || c.phone != "" {
      ContainsEmpty(Lower(c.name));
      ContainsEmpty(c.phone);
    }
    ManagerFilterMembers(all, "");
    EmptySearchTerm();
  }

  /** The phone is searched as typed against the lower-cased query, so a phone
      holding an upper-case letter is not found by that letter. */
  lemma PhoneSearchIsCaseSensitive(c: ClientCustomer)
    requires c.name == "" && c.phone == "X"
    ensures !ManagerMatches(c, Lower("X"))
    ensures Contains(Lower(c.phone), Lower("X"))
  {
    LowerEq("X", "x");
    assert "X"[1..] == "";
    assert IsPrefix("x", "x");
  }

  /** The page's state: the fetched customers and what the list shows,
      `None` until the first load draws it. */
  class ManagerPage {
    var allCustomers: seq<ClientCustomer>
    var shown: Option<CustomerList>

    constructor ()
      ensures allCustomers == [] && shown.None?
    {
      allCustomers := [];
      shown := None;
    }

    /** `loadCustomers` after a successful fetch. */
    method LoadCustomers(customers: seq<ClientCustomer>)
      modifies this
      ensures allCustomers == customers && shown == Some(RenderCustomers(customers))
    {
      allCustomers := customers;
      shown := Some(RenderCustomers(customers));
    }

    /** The search box's input handler. */
    method FilterCustomers(query: string)
      modifies this
      ensures allCustomers == old(allCustomers)
      ensures shown == Some(RenderCustomers(ManagerFilter(allCustomers, query)))
    {
      shown := Some(RenderCustomers(ManagerFilter(allCustomers, query)));
    }
  }
}
