/** The single-page app (js/app.js): its sorting of the customer list, the
    search over the cached list, the close-balance decision, the amount
    checks of the debt and payment forms, the pending-delete selection, and
    the trailing-slash normalisation of the backend address. The page state
    the handlers update is a class. */
module AppClient {
  import opened Values
  import opened Records
  import opened Folds
  import opened Ledger
  import opened CustomerDetail
  import opened Client
  import opened Store

  /** `balance !== undefined ? balance : (totalDebt || 0) - (totalPaid || 0)` */
  function BalanceOf(c: ClientCustomer): (b: int)
    ensures c.balance.Num? ==> b == c.balance.cents
    ensures c.balance.NoAmount? ==> b == OrZero(c.totalDebt) - OrZero(c.totalPaid)
  {
    match c.balance
    case Num(v) => v
    case NoAmount => OrZero(c.totalDebt) - OrZero(c.totalPaid)
  }

  /** `(name || '').toLowerCase()` */
  function SortName(c: ClientCustomer): string
  {
    Lower(c.name)
  }

  // The four comparators, each read as "`a` may stay before `b`".

  predicate NameAsc(a: ClientCustomer, b: ClientCustomer) { StrLe(SortName(a), SortName(b)) }
  predicate NameDesc(a: ClientCustomer, b: ClientCustomer) { StrLe(SortName(b), SortName(a)) }
  predicate BalanceDesc(a: ClientCustomer, b: ClientCustomer) { BalanceOf(a) >= BalanceOf(b) }
  predicate BalanceAsc(a: ClientCustomer, b: ClientCustomer) { BalanceOf(a) <= BalanceOf(b) }

  lemma ComparatorsTotal()
    ensures Total(NameAsc) && Total(NameDesc) && Total(BalanceDesc) && Total(BalanceAsc)
  {
    forall a: ClientCustomer, b: ClientCustomer ensures NameAsc(a, b) || NameAsc(b, a) {
      StrLeTotal(SortName(a), SortName(b));
    }
    forall a: ClientCustomer, b: ClientCustomer ensures NameDesc(a, b) || NameDesc(b, a) {
      StrLeTotal(SortName(a), SortName(b));
    }
  }

  /** The comparator a sort key selects, if it is one of the four. */
  function ComparatorFor(key: string): Option<(ClientCustomer, ClientCustomer) -> bool>
  {
    if key == "name_asc" then Some(NameAsc)
    else if key == "name_desc" then Some(NameDesc)
    else if key == "balance_desc" then Some(BalanceDesc)
    else if key == "balance_asc" then Some(BalanceAsc)
    else None
  }

  /** `sorting.applySort`: an empty list as it is; otherwise a sorted copy, or
      an unsorted copy for an unknown key. */
  function ApplySort(cs: seq<ClientCustomer>, key: string): (r: seq<ClientCustomer>)
    ensures multiset(r) == multiset(cs)
    ensures ComparatorFor(key).None? || cs == [] ==> r == cs
  {
    if cs == [] then cs
    else match ComparatorFor(key)
      case None => cs
      case Some(le) => SortBy(cs, le)
  }

  /** For a known key the result is ordered by that key; for 'balance_desc'
      the balances never increase along the list, and for 'name_asc' the
      lower-cased names never decrease. */
  lemma ApplySortOrders(cs: seq<ClientCustomer>, key: string)
    requires ComparatorFor(key).Some?
    ensures SortedBy(ApplySort(cs, key), ComparatorFor(key).value)
    ensures key == "balance_desc" ==>
              forall i :: 0 < i < |ApplySort(cs, key)| ==>
                BalanceOf(ApplySort(cs, key)[i - 1]) >= BalanceOf(ApplySort(cs, key)[i])
    ensures key == "name_asc" ==>
              forall i :: 0 < i < |ApplySort(cs, key)| ==>
                StrLe(SortName(ApplySort(cs, key)[i - 1]), SortName(ApplySort(cs, key)[i]))
  {
    ComparatorsTotal();
    SortBySorted(cs, ComparatorFor(key).value);
  }

  /** `customerActions.closeBalance`: nothing without a selected customer and
      its details, nothing when the balance is not positive or the user does
      not confirm; otherwise a payment of exactly the balance. */
  function CloseBalanceRequest(selectedId: Option<string>, current: Option<ClientCustomer>, confirmed: bool)
    : (r: Option<PaymentRequest>)
    ensures r.Some? <==> selectedId.Some? && selectedId.value != "" && current.Some? &&
                         BalanceOf(current.value) > 0 && confirmed
    ensures r.Some? ==> r.value.customerId == selectedId.value && r.value.amount == BalanceOf(current.value)
    ensures r.Some? ==> AmountInputAccepted(Some(r.value.amount))
  {
    if selectedId.None? || selectedId.value == "" || current.None? then None
    else
      var balance := BalanceOf(current.value);
      if balance <= 0 || !confirmed then None
      else Some(PaymentRequest(selectedId.value, balance, "Auto Close Balance"))
  }

  /** When the page's balance is the one the detail reports, the payment
      `closeBalance` posts, once recorded, brings that balance to zero. */
  lemma CloseBalanceSettles(selectedId: Option<string>, current: Option<ClientCustomer>, confirmed: bool,
                            cs: seq<Customer>, ts: seq<Transaction>, newId: string, now: int,
                            r: Reply<Ack>, ts': seq<Transaction>)
    requires CloseBalanceRequest(selectedId, current, confirmed).Some?
    requires var req := CloseBalanceRequest(selectedId, current, confirmed).value;
             BalanceOf(current.value) == ApiBalance(ts, req.customerId) &&
             AddPaymentOutcome(cs, ts, req.customerId, JNumber(req.amount), req.note, newId, now, r, ts') && r.Ok?
    ensures ApiBalance(ts', selectedId.value) == 0
  {
    var req := CloseBalanceRequest(selectedId, current, confirmed).value;
    PaymentLowersBalance(cs, ts, req.customerId, JNumber(req.amount), req.note, newId, now, r, ts', req.customerId);
  }

  /** One entry of the app's transaction list: debt or payment by
      `type === 'DEBT' || type === 'debit'`, the amount as received, the note
      when it is not blank, the invoice link, and the id its delete button
      carries. */
  datatype TransactionItem = TransactionItem(
    id: string, isDebt: bool, amount: int, note: Option<string>, invoiceImageUrl: Option<string>, date: int)

  datatype TransactionList = NoTransactionItems | Items(items: seq<TransactionItem>)

  function ItemOf(v: TransactionView): TransactionItem
  {
    TransactionItem(v.id, DebitLabelled(v.kind), v.amount, if Trim(v.note) == "" then None else Some(v.note),
                    v.invoiceImageUrl, v.date)
  }

  /** `ui.renderTransactions`: the empty message for no entries, otherwise one
      item per entry in the order the detail reply lists them. */
  function RenderTransactions(vs: seq<TransactionView>): (r: TransactionList)
    ensures r == NoTransactionItems <==> vs == []
    ensures r.Items? ==> |r.items| == |vs| &&
                         forall i :: 0 <= i < |vs| ==> r.items[i].id == vs[i].id && r.items[i].amount == vs[i].amount
  {
    if vs == [] then NoTransactionItems else Items(Map(vs, ItemOf))
  }

  /** On entries of either detail reply the app draws a debt exactly where the
      handler labelled one: for the serverless reply that is the exact rule's
      debit class, for the express reply the listed debt tags. */
  lemma ItemsFollowDetailLabels(t: Transaction, now: int)
    ensures ItemOf(ApiView(t, now)).isDebt <==> ExactKind(t.kind) == Debit
    ensures ItemOf(BackendView(t, now)).isDebt <==> DebtTagListed(t.kind)
    ensures WrittenRecord(t) ==> (ItemOf(BackendView(t, now)).isDebt <==> t.kind == "debit")
  {
    ApiViewMatchesExactRule(t, now);
  }

  /** `CONFIG.BASE_URL.slice(0, -1)` when it ends with '/'. */
  function StripTrailingSlash(url: string): (r: string)
    ensures |url| > 0 && url[|url| - 1] == '/' ==> r + "/" == url
    ensures !(|url| > 0 && url[|url| - 1] == '/') ==> r == url
  {
    if |url| > 0 && url[|url| - 1] == '/' then url[..|url| - 1] else url
  }

  /** The page state the handlers read and write. */
  class AppState {
    var selectedCustomerId: Option<string>
    var cachedCustomers: seq<ClientCustomer>
    var filteredCustomers: seq<ClientCustomer>
    var currentSort: string
    var currentCustomerData: Option<ClientCustomer>
    var pendingDeleteTransactionId: Option<string>

    /** The initial `state` object. */
    constructor ()
      ensures selectedCustomerId.None? && cachedCustomers == [] && filteredCustomers == []
      ensures currentSort == "name_asc" && currentCustomerData.None? && pendingDeleteTransactionId.None?
    {
      selectedCustomerId := None;
      cachedCustomers := [];
      filteredCustomers := [];
      currentSort := "name_asc";
      currentCustomerData := None;
      pendingDeleteTransactionId := None;
    }

    /** The shown list is the cached list searched by `raw` and sorted by the
        current key. */
    ghost predicate ShowsSearch(raw: string)
      reads this
    {
      filteredCustomers == ApplySort(SearchResults(cachedCustomers, raw), currentSort)
    }

    /** `loadCustomers` after a successful fetch. */
    method LoadCustomers(customers: seq<ClientCustomer>)
      modifies this
      ensures cachedCustomers == customers && ShowsSearch("")
      ensures currentSort == old(currentSort) && pendingDeleteTransactionId == old(pendingDeleteTransactionId)
      ensures selectedCustomerId == old(selectedCustomerId) && currentCustomerData == old(currentCustomerData)
    {
      cachedCustomers := customers;
      filteredCustomers := ApplySort(customers, currentSort);
      EmptySearchTerm();
    }

    /** `loadCustomerDetails`: the fetched detail becomes the current
        customer's data; a failed fetch (`None`) leaves it as it was. */
    method LoadCustomerDetails(fetched: Option<ClientCustomer>)
      modifies this
      ensures fetched.Some? ==> currentCustomerData == fetched
      ensures fetched.None? ==> currentCustomerData == old(currentCustomerData)
      ensures cachedCustomers == old(cachedCustomers) && filteredCustomers == old(filteredCustomers)
      ensures currentSort == old(currentSort) && pendingDeleteTransactionId == old(pendingDeleteTransactionId)
      ensures selectedCustomerId == old(selectedCustomerId)
    {
      if fetched.Some? {
        currentCustomerData := fetched;
      }
    }

    /** `sorting.filterCustomers`. */
    method FilterCustomers(searchTerm: string)
      modifies this
      ensures ShowsSearch(searchTerm)
      ensures cachedCustomers == old(cachedCustomers) && currentSort == old(currentSort)
      ensures pendingDeleteTransactionId == old(pendingDeleteTransactionId)
      ensures selectedCustomerId == old(selectedCustomerId) && currentCustomerData == old(currentCustomerData)
    {
      var term := Trim(Lower(searchTerm));
      if term == "" {
        filteredCustomers := ApplySort(cachedCustomers, currentSort);
        return;
      }
      var filtered := Filter(cachedCustomers, (c: ClientCustomer) => MatchesTerm(c, term));
      filteredCustomers := ApplySort(filtered, currentSort);
    }

    /** The sort selector's change handler: a new key, then a fresh search. */
    method ChangeSort(key: string, searchValue: string)
      modifies this
      ensures currentSort == key && ShowsSearch(searchValue)
      ensures cachedCustomers == old(cachedCustomers)
      ensures pendingDeleteTransactionId == old(pendingDeleteTransactionId)
      ensures selectedCustomerId == old(selectedCustomerId) && currentCustomerData == old(currentCustomerData)
    {
      currentSort := key;
      FilterCustomers(searchValue);
    }

    /** `transactionActions.addDebt`: no request without a selected customer or
        with an amount that is NaN, zero or negative; otherwise the trimmed
        note and the uploaded link go with it. */
    method AddDebt(parsed: Option<int>, noteInput: string, invoiceImageUrl: Option<string>) returns (sent: Option<DebtRequest>)
      ensures sent.Some? <==> selectedCustomerId.Some? && selectedCustomerId.value != "" && AmountInputAccepted(parsed)
      ensures sent.Some? ==> sent.value == DebtRequest(selectedCustomerId.value, parsed.value, Trim(noteInput), invoiceImageUrl)
    {
      if selectedCustomerId.None? || selectedCustomerId.value == "" {
        return None;
      }
      if parsed.None? || parsed.value <= 0 {
        return None;
      }
      sent := Some(DebtRequest(selectedCustomerId.value, parsed.value, Trim(noteInput), invoiceImageUrl));
    }

    /** `transactionActions.addPayment`: the same checks, no invoice. */
    method AddPayment(parsed: Option<int>, noteInput: string) returns (sent: Option<PaymentRequest>)
      ensures sent.Some? <==> selectedCustomerId.Some? && selectedCustomerId.value != "" && AmountInputAccepted(parsed)
      ensures sent.Some? ==> sent.value == PaymentRequest(selectedCustomerId.value, parsed.value, Trim(noteInput))
    {
      if selectedCustomerId.None? || selectedCustomerId.value == "" {
        return None;
      }
      if parsed.None? || parsed.value <= 0 {
        return None;
      }
      sent := Some(PaymentRequest(selectedCustomerId.value, parsed.value, Trim(noteInput)));
    }

    /** `modalActions.openDeleteTransactionModal`. */
    method OpenDeleteTransaction(transactionId: string)
      modifies this
      ensures pendingDeleteTransactionId == Some(transactionId)
      ensures filteredCustomers == old(filteredCustomers) && cachedCustomers == old(cachedCustomers)
      ensures currentSort == old(currentSort) && selectedCustomerId == old(selectedCustomerId)
      ensures currentCustomerData == old(currentCustomerData)
    {
      pendingDeleteTransactionId := Some(transactionId);
    }

    /** `modalActions.closeDeleteTransactionModal`. */
    method CloseDeleteTransaction()
      modifies this
      ensures pendingDeleteTransactionId.None?
      ensures filteredCustomers == old(filteredCustomers) && cachedCustomers == old(cachedCustomers)
      ensures currentSort == old(currentSort) && selectedCustomerId == old(selectedCustomerId)
      ensures currentCustomerData == old(currentCustomerData)
    {
      pendingDeleteTransactionId := None;
    }

    /** The confirm button: a delete request goes out only for a pending,
        non-empty id; when the request succeeds the modal closes, the
        pending delete is cleared, the selected customer's details are reloaded
        (`reloadedDetail`, `None` when that fetch fails) and then the list
        (`reloaded`); otherwise nothing changes. */
    method ConfirmDeleteTransaction(succeeded: bool, reloadedDetail: Option<ClientCustomer>, reloaded: seq<ClientCustomer>)
      returns (sent: Option<string>)
      modifies this
      ensures old(pendingDeleteTransactionId).Some? && old(pendingDeleteTransactionId).value != ""
              ==> sent == old(pendingDeleteTransactionId)
      ensures !(old(pendingDeleteTransactionId).Some? && old(pendingDeleteTransactionId).value != "")
              ==> sent.None? && pendingDeleteTransactionId == old(pendingDeleteTransactionId)
      ensures sent.Some? && succeeded ==> pendingDeleteTransactionId.None?
      ensures sent.Some? && succeeded ==> cachedCustomers == reloaded && ShowsSearch("")
      ensures sent.Some? && !succeeded ==> pendingDeleteTransactionId == old(pendingDeleteTransactionId)
      ensures sent.Some? && succeeded && reloadedDetail.Some? ==> currentCustomerData == reloadedDetail
      ensures !(sent.Some? && succeeded && reloadedDetail.Some?) ==> currentCustomerData == old(currentCustomerData)
      ensures !(sent.Some? && succeeded) ==>
                filteredCustomers == old(filteredCustomers) && cachedCustomers == old(cachedCustomers)
      ensures currentSort == old(currentSort) && selectedCustomerId == old(selectedCustomerId)
    {
      sent := None;
      if pendingDeleteTransactionId.Some? && pendingDeleteTransactionId.value != "" {
        sent := pendingDeleteTransactionId;
        if succeeded {
          CloseDeleteTransaction();
          LoadCustomerDetails(reloadedDetail);
          LoadCustomers(reloaded);
        }
      }
    }
  }
}
