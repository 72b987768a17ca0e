/** The owner page (frontend/script.js): its transaction history, search and
    sort of the customer list, the header total, the close-balance decision,
    the form checks, and the page globals (`allCustomers`,
    `currentCustomerId`, `selectedInvoiceUrl`, `window.totalDebtValue`). */
module OwnerPage {
  import opened Values
  import opened Records
  import opened Folds
  import opened Ledger
  import opened CustomerDetail
  import opened Client
  import opened Store
  import AppClient

  /** The history line as written: a debt when `type === 'debt' || amount < 0`. */
  function AsWrittenLine(v: TransactionView): HistoryLine
  {
    LineWith(v, ScriptShowsDebt(v.kind, Num(v.amount)))
  }

  /** The history as written. */
  function AsWrittenHistory(vs: seq<TransactionView>): History
  {
    Render(vs, AsWrittenLine)
  }

  /** A debt recorded through addDebt reaches this page as a 'debit' entry of
      positive amount and is drawn as a PAYMENT, while every server total
      counts it as a debt. */
  lemma RecordedDebtDrawnAsPayment(t: Transaction, now: int)
    requires WrittenRecord(t) && t.kind == "debit"
    ensures ExactDebt(t) == LowerDebt(t) == FallbackDebt(t) == t.amount.cents > 0
    ensures BackendView(t, now).kind == "debit"
    ensures !AsWrittenLine(BackendView(t, now)).isDebt
    ensures AsWrittenHistory([BackendView(t, now)]) == Lines([AsWrittenLine(BackendView(t, now))])
  {
    WrittenRecordRulesAgree(t);
    var v := BackendView(t, now);
    assert ByNewest([v]) == [v];
  }

  /** `filterCustomers(query)`: a missing or blank query shows everyone;
      otherwise the lower-cased, trimmed query is searched in the lower-cased
      name and phone. */
  function Search(all: seq<ClientCustomer>, query: string): seq<ClientCustomer>
  {
    if query == "" || Trim(query) == "" then all
    else
      var term := Trim(Lower(query));
      Filter(all, (c: ClientCustomer) => MatchesTerm(c, term))
  }

  lemma {:induction false} LowerKeepsSpaces(s: string)
    ensures AllSpaces(Lower(s)) <==> AllSpaces(s)
  {
    forall i | 0 <= i < |s| ensures IsSpace(Lower(s)[i]) <==> IsSpace(s[i]) {
      assert Lower(s)[i] == LowerChar(s[i]);
    }
  }

  /** This page searches exactly as the single-page app does, though it tests
      for a blank query before lower-casing it. */
  lemma SearchAgreesWithApp(all: seq<ClientCustomer>, query: string)
    ensures Search(all, query) == SearchResults(all, query)
  {
    LowerKeepsSpaces(query);
    TrimEmptyIffAllSpaces(query);
    TrimEmptyIffAllSpaces(Lower(query));
    EmptySearchTerm();
  }

  // `sortCustomers` compares the raw names (no lower-casing) and `balance || 0`.

  predicate RawNameAsc(a: ClientCustomer, b: ClientCustomer) { StrLe(a.name, b.name) }
  predicate RawNameDesc(a: ClientCustomer, b: ClientCustomer) { StrLe(b.name, a.name) }
  predicate BalanceOrZeroDesc(a: ClientCustomer, b: ClientCustomer) { BalanceOrZero(a) >= BalanceOrZero(b) }
  predicate BalanceOrZeroAsc(a: ClientCustomer, b: ClientCustomer) { BalanceOrZero(a) <= BalanceOrZero(b) }

  function OwnerComparator(option: string): Option<(ClientCustomer, ClientCustomer) -> bool>
  {
    if option == "name_asc" then Some(RawNameAsc)
    else if option == "name_desc" then Some(RawNameDesc)
    else if option == "balance_desc" then Some(BalanceOrZeroDesc)
    else if option == "balance_asc" then Some(BalanceOrZeroAsc)
    else None
  }

  /** `sortCustomers(option)`: a sorted copy; an unknown option keeps the order. */
  function SortCustomers(all: seq<ClientCustomer>, option: string): (r: seq<ClientCustomer>)
    ensures multiset(r) == multiset(all)
    ensures OwnerComparator(option).None? ==> r == all
  {
    match OwnerComparator(option)
    case None => all
    case Some(le) => SortBy(all, le)
  }

  /** For a known option the copy is ordered by it. */
  lemma SortCustomersOrders(all: seq<ClientCustomer>, option: string)
    requires OwnerComparator(option).Some?
    ensures SortedBy(SortCustomers(all, option), OwnerComparator(option).value)
  {
    forall a: ClientCustomer, b: ClientCustomer ensures RawNameAsc(a, b) || RawNameAsc(b, a) {
      StrLeTotal(a.name, b.name);
    }
    forall a: ClientCustomer, b: ClientCustomer ensures RawNameDesc(a, b) || RawNameDesc(b, a) {
      StrLeTotal(a.name, b.name);
    }
    assert Total(BalanceOrZeroDesc) && Total(BalanceOrZeroAsc);
    SortBySorted(all, OwnerComparator(option).value);
  }

  /** Two names that differ only in case: the single-page app lower-cases
      before comparing, so they tie and a stable sort keeps them in the order
      they came in; this page compares the names themselves, which are
      distinct, so one of them always goes first whatever the input order. */
  lemma CaseOnlyNamesDiverge(a: ClientCustomer, b: ClientCustomer)
    requires a.name == "A" && b.name == "a"
    ensures AppClient.NameAsc(a, b) && AppClient.NameAsc(b, a)
    ensures SortBy([a, b], AppClient.NameAsc) == [a, b] && SortBy([b, a], AppClient.NameAsc) == [b, a]
    ensures RawNameAsc(a, b) != RawNameAsc(b, a)
    ensures SortCustomers([a, b], "name_asc") == SortCustomers([b, a], "name_asc")
  {
    LowerEq("A", "a");
    LowerEq("a", "a");
    assert AppClient.SortName(a) == "a" == AppClient.SortName(b);
    SortByPair(a, b, AppClient.NameAsc);
    SortByPair(b, a, AppClient.NameAsc);
    assert StrLe("A", "a");
    assert !StrLe("a", "A");
    SortByPair(a, b, RawNameAsc);
    SortByPair(b, a, RawNameAsc);
  }

  /** `allCustomers.find(c => c.id === customerId)` */
  function FindById(all: seq<ClientCustomer>, id: string): (r: Option<ClientCustomer>)
    ensures r.Some? ==> r.value in all && r.value.id == id
    ensures r.None? ==> forall i :: 0 <= i < |all| ==> all[i].id != id
  {
    if all == [] then None
    else if all[0].id == id then Some(all[0])
    else FindById(all[1..], id)
  }

  /** `closeBalance(customerId)`: nothing for an unknown customer, a balance
      (`balance || 0`) that is not positive, or no confirmation; otherwise a
      payment of the full balance. */
  function CloseBalanceRequest(all: seq<ClientCustomer>, customerId: string, confirmed: bool): (r: Option<PaymentRequest>)
    ensures r.Some? <==> FindById(all, customerId).Some? && BalanceOrZero(FindById(all, customerId).value) > 0 && confirmed
    ensures r.Some? ==> r.value.customerId == customerId && r.value.amount == BalanceOrZero(FindById(all, customerId).value)
    ensures r.Some? ==> AmountInputAccepted(Some(r.value.amount))
  {
    match FindById(all, customerId)
    case None => None
    case Some(c) =>
      var balance := BalanceOrZero(c);
      if balance <= 0 || !confirmed then None
      else Some(PaymentRequest(customerId, balance, "Balance closed via \"Close Balance\""))
  }

  /** The add and edit customer forms: both the trimmed name and the trimmed
      phone must be non-empty. */
  predicate CustomerFormAccepted(nameInput: string, phoneInput: string)
  {
    Trim(nameInput) != "" && Trim(phoneInput) != ""
  }

  /** A name the form lets through (sent trimmed) passes the server's check. */
  lemma FormNamePassesServer(nameInput: string, phoneInput: string)
    requires CustomerFormAccepted(nameInput, phoneInput)
    ensures NameAccepted(JText(Trim(nameInput)))
  {
    var t := Trim(nameInput);
    assert !IsSpace(t[0]);
    assert !AllSpaces(t);
    TrimEmptyIffAllSpaces(t);
  }

  /** The page globals the handlers below update. */
  class OwnerPage {
    var allCustomers: seq<ClientCustomer>
    var currentCustomerId: Option<string>
    var selectedInvoiceUrl: Option<string>
    var totalDebtValue: int

    constructor ()
      ensures allCustomers == [] && currentCustomerId.None? && selectedInvoiceUrl.None? && totalDebtValue == 0
    {
      allCustomers := [];
      currentCustomerId := None;
      selectedInvoiceUrl := None;
      totalDebtValue := 0;
    }

    /** `updateTotalDebt`: the header total is the sum of `balance || 0`. */
    method UpdateTotalDebt()
      modifies this
      ensures totalDebtValue == TotalBalance(allCustomers)
      ensures allCustomers == old(allCustomers) && currentCustomerId == old(currentCustomerId)
      ensures selectedInvoiceUrl == old(selectedInvoiceUrl)
    {
      totalDebtValue := TotalBalance(allCustomers);
    }

    /** `loadCustomers` after a successful fetch. */
    method LoadCustomers(customers: seq<ClientCustomer>)
      modifies this
      ensures allCustomers == customers && totalDebtValue == TotalBalance(customers)
      ensures currentCustomerId == old(currentCustomerId) && selectedInvoiceUrl == old(selectedInvoiceUrl)
    {
      allCustomers := customers;
      UpdateTotalDebt();
    }

    /** The Drive picker's callback records the chosen file's link. */
    method PickInvoice(fileId: string)
      modifies this
      ensures selectedInvoiceUrl == Some("https://drive.google.com/uc?id=" + fileId)
      ensures allCustomers == old(allCustomers) && currentCustomerId == old(currentCustomerId)
      ensures totalDebtValue == old(totalDebtValue)
    {
      selectedInvoiceUrl := Some("https://drive.google.com/uc?id=" + fileId);
    }

    /** The add-debt form: no request without a selected customer or with an
        amount that is NaN or not positive; the request carries the picked
        link. Once it succeeds the customer list is reloaded (`reloaded` is
        what the next fetch returns), which redraws the header total, and the
        picked link is cleared; otherwise nothing changes. */
    method SubmitDebt(parsed: Option<int>, noteInput: string, succeeded: bool, reloaded: seq<ClientCustomer>)
      returns (sent: Option<DebtRequest>)
      modifies this
      ensures sent.Some? <==> old(currentCustomerId).Some? && old(currentCustomerId).value != "" && AmountInputAccepted(parsed)
      ensures sent.Some? ==> sent.value == DebtRequest(old(currentCustomerId).value, parsed.value, Trim(noteInput),
                                                       old(selectedInvoiceUrl))
      ensures sent.Some? && succeeded ==>
                selectedInvoiceUrl.None? && allCustomers == reloaded && totalDebtValue == TotalBalance(reloaded)
      ensures !(sent.Some? && succeeded) ==>
                selectedInvoiceUrl == old(selectedInvoiceUrl) && allCustomers == old(allCustomers) &&
                totalDebtValue == old(totalDebtValue)
      ensures currentCustomerId == old(currentCustomerId)
    {
      if currentCustomerId.None? || currentCustomerId.value == "" {
        return None;
      }
      if parsed.None? || parsed.value <= 0 {
        return None;
      }
      sent := Some(DebtRequest(currentCustomerId.value, parsed.value, Trim(noteInput), selectedInvoiceUrl));
      if succeeded {
        LoadCustomers(reloaded);
        selectedInvoiceUrl := None;
      }
    }

    /** The add-payment form: the same checks as the debt form, no invoice. */
    method SubmitPayment(parsed: Option<int>, noteInput: string) returns (sent: Option<PaymentRequest>)
      ensures sent.Some? <==> currentCustomerId.Some? && currentCustomerId.value != "" && AmountInputAccepted(parsed)
      ensures sent.Some? ==> sent.value == PaymentRequest(currentCustomerId.value, parsed.value, Trim(noteInput))
    {
      if currentCustomerId.None? || currentCustomerId.value == "" {
        return None;
      }
      if parsed.None? || parsed.value <= 0 {
        return None;
      }
      sent := Some(PaymentRequest(currentCustomerId.value, parsed.value, Trim(noteInput)));
    }
  }
}
