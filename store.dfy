/** The write-side handlers (add a customer, a debt or a payment; update a
    customer; delete a customer with its transactions; delete one transaction)
    over an in-memory store holding the two collections. Every handler runs
    its checks in the source's order, answers 400/404 without touching the
    store, and on success changes exactly the documents it names. Each
    handler's outcome is stated once as a predicate over the old and the new
    collections; the lemmas below connect those outcomes to the totals the
    read side reports. */
module Store {
  import opened Values
  import opened Records
  import opened Folds
  import opened Ledger

  /** The body of a successful write: its message and the id it echoes, if any. */
  datatype Ack = Ack(message: string, id: Option<string>)

  /** The amount check `!amount || typeof amount !== 'number' || amount <= 0`
      lets through exactly a positive number. */
  predicate AmountAccepted(amount: Json)
  {
    amount.JNumber? && amount.cents > 0
  }

  /** The name check `!name || typeof name !== 'string' || name.trim().length === 0`
      lets through exactly a string that is not blank. */
  predicate NameAccepted(name: Json)
  {
    name.JText? && name.text != "" && Trim(name.text) != ""
  }

  /** A name passes exactly when it is a string with a character that is not
      white space; the name then stored (trimmed) is never empty. */
  lemma NameAcceptedIffNotBlank(name: Json)
    ensures NameAccepted(name) <==> name.JText? && !AllSpaces(name.text)
    ensures NameAccepted(name) ==> |Trim(name.text)| > 0
  {
    if name.JText? {
      TrimEmptyIffAllSpaces(name.text);
    }
  }

  /** `invoiceImageUrl || null` */
  function UrlOrNull(url: string): (r: Option<string>)
    ensures r.None? <==> url == ""
    ensures r.Some? ==> r.value == url
  {
    if url == "" then None else Some(url)
  }

  /** The document addDebt inserts: the given id string as `customerId`, type
      'debit', the amount, `note || ''`, `invoiceImageUrl || null`, and the
      request time as both `date` and `createdAt`. */
  function DebtDocument(id: string, customerId: string, cents: int, note: string, invoiceImageUrl: string, now: int): (t: Transaction)
    ensures t.id == id && MatchesString(t, customerId)
    ensures ExactKind(t.kind) == Debit && ExactDebt(t) == cents && ExactPaid(t) == 0
    ensures cents > 0 ==> WrittenRecord(t)
    ensures t.invoiceImageUrl == UrlOrNull(invoiceImageUrl) && t.date == t.createdAt == Some(now)
  {
    Transaction(id, Str(customerId), "debit", Num(cents), note, UrlOrNull(invoiceImageUrl), None, Some(now), Some(now))
  }

  /** The document addPayment inserts: like a debt, typed 'credit', with no
      invoice link. */
  function PaymentDocument(id: string, customerId: string, cents: int, note: string, now: int): (t: Transaction)
    ensures t.id == id && MatchesString(t, customerId)
    ensures ExactKind(t.kind) == Credit && ExactPaid(t) == cents && ExactDebt(t) == 0
    ensures cents > 0 ==> WrittenRecord(t)
    ensures t.invoiceImageUrl.None? && t.invoiceUrl.None? && t.date == t.createdAt == Some(now)
  {
    Transaction(id, Str(customerId), "credit", Num(cents), note, None, None, Some(now), Some(now))
  }

  /** `deleteMany({ customerId: customerId })`: every row stored under that very
      string goes, nothing else. */
  function WithoutStringRows(ts: seq<Transaction>, q: string): (r: seq<Transaction>)
    ensures forall t :: t in r ==> t in ts && !MatchesString(t, q)
  {
    Filter(ts, (t: Transaction) => !MatchesString(t, q))
  }

  // Outcomes: the reply and the new contents of a collection, in the order
  // the handler runs its checks. A failing check leaves the collection as it was.

  /** addCustomer (both handlers, after the method check). */
  predicate AddCustomerOutcome(cs: seq<Customer>, name: Json, phone: string, note: string, newId: string, now: int,
                               r: Reply<Ack>, cs': seq<Customer>)
  {
    if !NameAccepted(name) then
      r == Fail(400, "Customer name is required.") && cs' == cs
    else
      r == Ok(Ack("Customer added successfully", Some(newId))) &&
      cs' == cs + [Customer(newId, Trim(name.text), phone, note, Some(now), None)]
  }

  /** The checks addDebt and addPayment share: a customerId that is present
      and parses, a positive amount, and a stored customer with that id. */
  function TransactionChecks(cs: seq<Customer>, customerId: string, amount: Json): (r: Option<Reply<Ack>>)
    ensures r.None? <==> ParseObjectId(customerId).Some? && AmountAccepted(amount) &&
                         FindCustomer(cs, ParseObjectId(customerId).value).Some?
    ensures r.Some? ==> r.value.Fail? && r.value.status in {400, 404}
  {
    if customerId == "" then Some(Fail(400, "Invalid input"))
    else match ParseObjectId(customerId)
      case None => Some(Fail(400, "Invalid input"))
      case Some(oid) =>
        if !AmountAccepted(amount) then Some(Fail(400, "Invalid input"))
        else if FindCustomer(cs, oid).None? then Some(Fail(404, "Customer not found"))
        else None
  }

  /** addDebt (both handlers, after the method check). */
  predicate AddDebtOutcome(cs: seq<Customer>, ts: seq<Transaction>, customerId: string, amount: Json, note: string,
                           invoiceImageUrl: string, newId: string, now: int, r: Reply<Ack>, ts': seq<Transaction>)
  {
    match TransactionChecks(cs, customerId, amount)
    case Some(failure) => r == failure && ts' == ts
    case None =>
      r == Ok(Ack("Debt added successfully", Some(newId))) &&
      ts' == ts + [DebtDocument(newId, customerId, amount.cents, note, invoiceImageUrl, now)]
  }

  /** addPayment (both handlers, after the method check). */
  predicate AddPaymentOutcome(cs: seq<Customer>, ts: seq<Transaction>, customerId: string, amount: Json, note: string,
                              newId: string, now: int, r: Reply<Ack>, ts': seq<Transaction>)
  {
    match TransactionChecks(cs, customerId, amount)
    case Some(failure) => r == failure && ts' == ts
    case None =>
      r == Ok(Ack("Payment added successfully", Some(newId))) &&
      ts' == ts + [PaymentDocument(newId, customerId, amount.cents, note, now)]
  }

  /** updateCustomer: `$set` of the trimmed name, phone, note and `updatedAt` on
      the customer with that `_id`; its other fields stay. */
  predicate UpdateCustomerOutcome(cs: seq<Customer>, customerId: string, name: Json, phone: string, note: string, now: int,
                                  r: Reply<Ack>, cs': seq<Customer>)
  {
    if customerId == "" then r == Fail(400, "Customer ID is required") && cs' == cs
    else if ParseObjectId(customerId).None? then r == Fail(400, "Invalid customer ID format") && cs' == cs
    else if !NameAccepted(name) then r == Fail(400, "Customer name is required") && cs' == cs
    else match IndexOfId(cs, CustomerKey, ParseObjectId(customerId).value)
      case None => r == Fail(404, "Customer not found") && cs' == cs
      case Some(i) =>
        r == Ok(Ack("Customer updated successfully", Some(customerId))) &&
        cs' == cs[i := cs[i].(name := Trim(name.text), phone := phone, note := note, updatedAt := Some(now))]
  }

  /** deleteCustomer (both handlers, after the method check): the rows stored
      under the given string, then the customer document. */
  predicate DeleteCustomerOutcome(cs: seq<Customer>, ts: seq<Transaction>, customerId: string,
                                  r: Reply<Ack>, cs': seq<Customer>, ts': seq<Transaction>)
  {
    if customerId == "" then r == Fail(400, "Customer ID is required") && cs' == cs && ts' == ts
    else if ParseObjectId(customerId).None? then r == Fail(400, "Invalid customer ID format") && cs' == cs && ts' == ts
    else match IndexOfId(cs, CustomerKey, ParseObjectId(customerId).value)
      case None => r == Fail(404, "Customer not found") && cs' == cs && ts' == ts
      case Some(i) =>
        r == Ok(Ack("Customer deleted successfully", None)) &&
        ts' == WithoutStringRows(ts, customerId) && cs' == RemoveAt(cs, i)
  }

  /** deleteTransaction (both handlers, after the method check). */
  predicate DeleteTransactionOutcome(ts: seq<Transaction>, transactionId: string, r: Reply<Ack>, ts': seq<Transaction>)
  {
    if transactionId == "" then r == Fail(400, "Invalid transactionId") && ts' == ts
    else if ParseObjectId(transactionId).None? then r == Fail(400, "Invalid transactionId") && ts' == ts
    else match IndexOfId(ts, TransactionKey, ParseObjectId(transactionId).value)
      case None => r == Fail(404, "Transaction not found") && ts' == ts
      case Some(i) => r == Ok(Ack("Transaction deleted successfully", None)) && ts' == RemoveAt(ts, i)
  }

  /** The two collections. `_id` is unique within each; fresh ids come from
      the caller (the driver's generator), as does the request time. */
  class Store {
    var customers: seq<Customer>
    var transactions: seq<Transaction>

    ghost predicate Valid()
      reads this
    {
      DistinctBy(customers, CustomerKey) && DistinctBy(transactions, TransactionKey)
    }

    constructor ()
      ensures Valid() && customers == [] && transactions == []
    {
      customers := [];
      transactions := [];
    }

    /** backend/routes/addCustomer.js */
    method AddCustomer(name: Json, phone: string, note: string, newId: string, now: int) returns (r: Reply<Ack>)
      requires Valid()
      requires forall i :: 0 <= i < |customers| ==> customers[i].id != newId
      modifies this
      ensures Valid()
      ensures AddCustomerOutcome(old(customers), name, phone, note, newId, now, r, customers)
      ensures transactions == old(transactions)
    {
      if !NameAccepted(name) {
        return Fail(400, "Customer name is required.");
      }
      var doc := Customer(newId, Trim(name.text), phone, note, Some(now), None);
      customers := customers + [doc];
      r := Ok(Ack("Customer added successfully", Some(newId)));
    }

    /** api/addCustomer.js: the OPTIONS preflight and the POST-only check first. */
    method ApiAddCustomer(verb: string, name: Json, phone: string, note: string, newId: string, now: int) returns (r: Reply<Ack>)
      requires Valid()
      requires forall i :: 0 <= i < |customers| ==> customers[i].id != newId
      modifies this
      ensures Valid()
      ensures verb == "OPTIONS" ==> r == Preflight && customers == old(customers)
      ensures verb != "OPTIONS" && verb != "POST" ==> r == Fail(405, "Method not allowed") && customers == old(customers)
      ensures verb == "POST" ==> AddCustomerOutcome(old(customers), name, phone, note, newId, now, r, customers)
      ensures transactions == old(transactions)
    {
      if verb == "OPTIONS" {
        return Preflight;
      }
      if verb != "POST" {
        return Fail(405, "Method not allowed");
      }
      r := AddCustomer(name, phone, note, newId, now);
    }

    /** backend/routes/addDebt.js */
    method AddDebt(customerId: string, amount: Json, note: string, invoiceImageUrl: string, newId: string, now: int)
      returns (r: Reply<Ack>)
      requires Valid()
      requires forall i :: 0 <= i < |transactions| ==> transactions[i].id != newId
      modifies this
      ensures Valid()
      ensures AddDebtOutcome(old(customers), old(transactions), customerId, amount, note, invoiceImageUrl, newId, now, r, transactions)
      ensures customers == old(customers)
      ensures AllWritten(old(transactions)) ==> AllWritten(transactions)
    {
      var failure := TransactionChecks(customers, customerId, amount);
      if failure.Some? {
        return failure.value;
      }
      var doc := DebtDocument(newId, customerId, amount.cents, note, invoiceImageUrl, now);
      transactions := transactions + [doc];
      r := Ok(Ack("Debt added successfully", Some(newId)));
    }

    /** api/addDebt.js */
    method ApiAddDebt(verb: string, customerId: string, amount: Json, note: string, invoiceImageUrl: string, newId: string, now: int)
      returns (r: Reply<Ack>)
      requires Valid()
      requires forall i :: 0 <= i < |transactions| ==> transactions[i].id != newId
      modifies this
      ensures Valid()
      ensures verb == "OPTIONS" ==> r == Preflight && transactions == old(transactions)
      ensures verb != "OPTIONS" && verb != "POST" ==> r == Fail(405, "Method not allowed") && transactions == old(transactions)
      ensures verb == "POST" ==>
                AddDebtOutcome(old(customers), old(transactions), customerId, amount, note, invoiceImageUrl, newId, now, r, transactions)
      ensures customers == old(customers)
      ensures AllWritten(old(transactions)) ==> AllWritten(transactions)
    {
      if verb == "OPTIONS" {
        return Preflight;
      }
      if verb != "POST" {
        return Fail(405, "Method not allowed");
      }
      r := AddDebt(customerId, amount, note, invoiceImageUrl, newId, now);
    }

    /** backend/routes/addPayment.js */
    method AddPayment(customerId: string, amount: Json, note: string, newId: string, now: int) returns (r: Reply<Ack>)
      requires Valid()
      requires forall i :: 0 <= i < |transactions| ==> transactions[i].id != newId
      modifies this
      ensures Valid()
      ensures AddPaymentOutcome(old(customers), old(transactions), customerId, amount, note, newId, now, r, transactions)
      ensures customers == old(customers)
      ensures AllWritten(old(transactions)) ==> AllWritten(transactions)
    {
      var failure := TransactionChecks(customers, customerId, amount);
      if failure.Some? {
        return failure.value;
      }
      var doc := PaymentDocument(newId, customerId, amount.cents, note, now);
      transactions := transactions + [doc];
      r := Ok(Ack("Payment added successfully", Some(newId)));
    }

    /** api/addPayment.js */
    method ApiAddPayment(verb: string, customerId: string, amount: Json, note: string, newId: string, now: int)
      returns (r: Reply<Ack>)
      requires Valid()
      requires forall i :: 0 <= i < |transactions| ==> transactions[i].id != newId
      modifies this
      ensures Valid()
      ensures verb == "OPTIONS" ==> r == Preflight && transactions == old(transactions)
      ensures verb != "OPTIONS" && verb != "POST" ==> r == Fail(405, "Method not allowed") && transactions == old(transactions)
      ensures verb == "POST" ==>
                AddPaymentOutcome(old(customers), old(transactions), customerId, amount, note, newId, now, r, transactions)
      ensures customers == old(customers)
      ensures AllWritten(old(transactions)) ==> AllWritten(transactions)
    {
      if verb == "OPTIONS" {
        return Preflight;
      }
      if verb != "POST" {
        return Fail(405, "Method not allowed");
      }
      r := AddPayment(customerId, amount, note, newId, now);
    }

    /** api/updateCustomer.js (there is no express counterpart). */
    method ApiUpdateCustomer(verb: string, customerId: string, name: Json, phone: string, note: string, now: int)
      returns (r: Reply<Ack>)
      requires Valid()
      modifies this
      ensures Valid()
      ensures verb == "OPTIONS" ==> r == Preflight && customers == old(customers)
      ensures verb != "OPTIONS" && verb != "POST" ==> r == Fail(405, "Method not allowed") && customers == old(customers)
      ensures verb == "POST" ==> UpdateCustomerOutcome(old(customers), customerId, name, phone, note, now, r, customers)
      ensures transactions == old(transactions)
    {
      if verb == "OPTIONS" {
        return Preflight;
      }
      if verb != "POST" {
        return Fail(405, "Method not allowed");
      }
      if customerId == "" {
        return Fail(400, "Customer ID is required");
      }
      var parsed := ParseObjectId(customerId);
      if parsed.None? {
        return Fail(400, "Invalid customer ID format");
      }
      if !NameAccepted(name) {
        return Fail(400, "Customer name is required");
      }
      var found := IndexOfId(customers, CustomerKey, parsed.value);
      if found.None? {
        return Fail(404, "Customer not found");
      }
      var i := found.value;
      customers := customers[i := customers[i].(name := Trim(name.text), phone := phone, note := note, updatedAt := Some(now))];
      forall a, b | 0 <= a < b < |customers| ensures customers[a].id != customers[b].id {
        assert customers[a].id == old(customers)[a].id && customers[b].id == old(customers)[b].id;
      }
      r := Ok(Ack("Customer updated successfully", Some(customerId)));
    }

    /** backend/routes/deleteCustomer.js */
    method DeleteCustomer(customerId: string) returns (r: Reply<Ack>)
      requires Valid()
      modifies this
      ensures Valid()
      ensures DeleteCustomerOutcome(old(customers), old(transactions), customerId, r, customers, transactions)
      ensures AllWritten(old(transactions)) ==> AllWritten(transactions)
    {
      if customerId == "" {
        return Fail(400, "Customer ID is required");
      }
      var parsed := ParseObjectId(customerId);
      if parsed.None? {
        return Fail(400, "Invalid customer ID format");
      }
      var found := IndexOfId(customers, CustomerKey, parsed.value);
      if found.None? {
        return Fail(404, "Customer not found");
      }
      FilterDistinctBy(transactions, (t: Transaction) => !MatchesString(t, customerId), TransactionKey);
      RemoveAtDistinctBy(customers, found.value, CustomerKey);
      transactions := WithoutStringRows(transactions, customerId);
      customers := RemoveAt(customers, found.value);
      r := Ok(Ack("Customer deleted successfully", None));
    }

    /** api/deleteCustomer.js */
    method ApiDeleteCustomer(verb: string, customerId: string) returns (r: Reply<Ack>)
      requires Valid()
      modifies this
      ensures Valid()
      ensures verb == "OPTIONS" ==> r == Preflight && customers == old(customers) && transactions == old(transactions)
      ensures verb != "OPTIONS" && verb != "POST" ==>
                r == Fail(405, "Method not allowed") && customers == old(customers) && transactions == old(transactions)
      ensures verb == "POST" ==> DeleteCustomerOutcome(old(customers), old(transactions), customerId, r, customers, transactions)
      ensures AllWritten(old(transactions)) ==> AllWritten(transactions)
    {
      if verb == "OPTIONS" {
        return Preflight;
      }
      if verb != "POST" {
        return Fail(405, "Method not allowed");
      }
      r := DeleteCustomer(customerId);
    }

    /** backend/routes/deleteTransaction.js */
    method DeleteTransaction(transactionId: string) returns (r: Reply<Ack>)
      requires Valid()
      modifies this
      ensures Valid()
      ensures DeleteTransactionOutcome(old(transactions), transactionId, r, transactions)
      ensures customers == old(customers)
      ensures AllWritten(old(transactions)) ==> AllWritten(transactions)
    {
      if transactionId == "" {
        return Fail(400, "Invalid transactionId");
      }
      var parsed := ParseObjectId(transactionId);
      if parsed.None? {
        return Fail(400, "Invalid transactionId");
      }
      var found := IndexOfId(transactions, TransactionKey, parsed.value);
      if found.None? {
        return Fail(404, "Transaction not found");
      }
      RemoveAtDistinctBy(transactions, found.value, TransactionKey);
      transactions := RemoveAt(transactions, found.value);
      r := Ok(Ack("Transaction deleted successfully", None));
    }

    /** api/deleteTransaction.js */
    method ApiDeleteTransaction(verb: string, transactionId: string) returns (r: Reply<Ack>)
      requires Valid()
      modifies this
      ensures Valid()
      ensures verb == "OPTIONS" ==> r == Preflight && transactions == old(transactions)
      ensures verb != "OPTIONS" && verb != "POST" ==> r == Fail(405, "Method not allowed") && transactions == old(transactions)
      ensures verb == "POST" ==> DeleteTransactionOutcome(old(transactions), transactionId, r, transactions)
      ensures customers == old(customers)
      ensures AllWritten(old(transactions)) ==> AllWritten(transactions)
    {
      if verb == "OPTIONS" {
        return Preflight;
      }
      if verb != "POST" {
        return Fail(405, "Method not allowed");
      }
      r := DeleteTransaction(transactionId);
    }
  }

  // What the outcomes mean for the read side.

  /** The balance the serverless customer detail reports for the id string `q`. */
  function ApiBalance(ts: seq<Transaction>, q: string): int
  {
    ExactTotalDebt(StringMatches(ts, q)) - ExactTotalPaid(StringMatches(ts, q))
  }

  /** A failed write changes no collection. */
  lemma FailedWritesChangeNothing(cs: seq<Customer>, ts: seq<Transaction>, customerId: string, amount: Json, note: string,
                                  url: string, newId: string, now: int, r: Reply<Ack>, ts': seq<Transaction>)
    requires AddDebtOutcome(cs, ts, customerId, amount, note, url, newId, now, r, ts') ||
             AddPaymentOutcome(cs, ts, customerId, amount, note, newId, now, r, ts')
    ensures r.Fail? <==> ts' == ts
    ensures r.Ok? ==> |ts'| == |ts| + 1 && ts'[..|ts|] == ts && ts'[|ts|].id == newId
    ensures r.Fail? ==> r.status in {400, 404}
  {
    if TransactionChecks(cs, customerId, amount).None? {
      assert |ts'| == |ts| + 1;
    }
  }

  /** A recorded payment lowers the customer's reported balance, and the
      system's outstanding debt, by exactly its amount; no other id string's
      balance moves. */
  lemma PaymentLowersBalance(cs: seq<Customer>, ts: seq<Transaction>, customerId: string, amount: Json, note: string,
                             newId: string, now: int, r: Reply<Ack>, ts': seq<Transaction>, other: string)
    requires AddPaymentOutcome(cs, ts, customerId, amount, note, newId, now, r, ts') && r.Ok?
    ensures amount.JNumber? && amount.cents > 0
    ensures ApiBalance(ts', customerId) == ApiBalance(ts, customerId) - amount.cents
    ensures ExactTotalDebt(ts') - ExactTotalPaid(ts') == ExactTotalDebt(ts) - ExactTotalPaid(ts) - amount.cents
    ensures other != customerId ==> ApiBalance(ts', other) == ApiBalance(ts, other)
  {
    var t := PaymentDocument(newId, customerId, amount.cents, note, now);
    assert ts' == ts + [t];
    SumByFilterAppendOne(ts, t, (x: Transaction) => MatchesString(x, customerId), ExactDebt);
    SumByFilterAppendOne(ts, t, (x: Transaction) => MatchesString(x, customerId), ExactPaid);
    SumByFilterAppendOne(ts, t, (x: Transaction) => MatchesString(x, other), ExactDebt);
    SumByFilterAppendOne(ts, t, (x: Transaction) => MatchesString(x, other), ExactPaid);
    SumByAppend(ts, [t], ExactDebt);
    SumByAppend(ts, [t], ExactPaid);
    SumBySingle(t, ExactDebt);
    SumBySingle(t, ExactPaid);
  }

  /** A recorded debt raises the customer's debt, balance and receipt count. */
  lemma DebtRaisesBalance(cs: seq<Customer>, ts: seq<Transaction>, customerId: string, amount: Json, note: string,
                          url: string, newId: string, now: int, r: Reply<Ack>, ts': seq<Transaction>)
    requires AddDebtOutcome(cs, ts, customerId, amount, note, url, newId, now, r, ts') && r.Ok?
    ensures amount.JNumber? && amount.cents > 0
    ensures ExactTotalDebt(StringMatches(ts', customerId)) == ExactTotalDebt(StringMatches(ts, customerId)) + amount.cents
    ensures ExactTotalPaid(StringMatches(ts', customerId)) == ExactTotalPaid(StringMatches(ts, customerId))
    ensures ExactReceipts(StringMatches(ts', customerId)) == ExactReceipts(StringMatches(ts, customerId)) + 1
    ensures ApiBalance(ts', customerId) == ApiBalance(ts, customerId) + amount.cents
  {
    var t := DebtDocument(newId, customerId, amount.cents, note, url, now);
    assert ts' == ts + [t];
    var p := (x: Transaction) => MatchesString(x, customerId);
    SumByFilterAppendOne(ts, t, p, ExactDebt);
    SumByFilterAppendOne(ts, t, p, ExactPaid);
    SumByFilterAppendOne(ts, t, p, ExactReceipt);
  }

  /** Deleting a transaction by id removes that document and no other, and
      takes exactly its contribution out of every customer's totals. */
  lemma DeleteTransactionEffect(ts: seq<Transaction>, transactionId: string, r: Reply<Ack>, ts': seq<Transaction>,
                                k: nat, q: string)
    requires DeleteTransactionOutcome(ts, transactionId, r, ts') && r.Ok?
    requires DistinctBy(ts, TransactionKey)
    requires k < |ts| && ParseObjectId(transactionId) == Some(ts[k].id)
    ensures |ts'| == |ts| - 1
    ensures forall t :: t in ts' <==> t in ts && t.id != ts[k].id
    ensures ExactTotalDebt(StringMatches(ts', q)) ==
            ExactTotalDebt(StringMatches(ts, q)) - (if MatchesString(ts[k], q) then ExactDebt(ts[k]) else 0)
    ensures ExactTotalPaid(StringMatches(ts', q)) ==
            ExactTotalPaid(StringMatches(ts, q)) - (if MatchesString(ts[k], q) then ExactPaid(ts[k]) else 0)
  {
    var i := IndexOfId(ts, TransactionKey, ts[k].id).value;
    assert TransactionKey(ts[i]) == TransactionKey(ts[k]);
    assert i == k;
    assert ts' == RemoveAt(ts, k);
    RemoveAtMembers(ts, k, TransactionKey);
    SumByFilterRemoveAt(ts, k, (x: Transaction) => MatchesString(x, q), ExactDebt);
    SumByFilterRemoveAt(ts, k, (x: Transaction) => MatchesString(x, q), ExactPaid);
  }

  /** Deleting a 120 debit stored under the customer's id string lowers that
      customer's total debt by 120 and leaves the paid total. */
  lemma DeletingDebitOf120(ts: seq<Transaction>, transactionId: string, r: Reply<Ack>, ts': seq<Transaction>, k: nat)
    requires DeleteTransactionOutcome(ts, transactionId, r, ts') && r.Ok?
    requires DistinctBy(ts, TransactionKey)
    requires k < |ts| && ParseObjectId(transactionId) == Some(ts[k].id)
    requires ts[k].kind == "debit" && ts[k].amount == Num(120) && ts[k].customerId.Str?
    ensures ExactTotalDebt(StringMatches(ts', ts[k].customerId.text)) ==
            ExactTotalDebt(StringMatches(ts, ts[k].customerId.text)) - 120
    ensures ExactTotalPaid(StringMatches(ts', ts[k].customerId.text)) ==
            ExactTotalPaid(StringMatches(ts, ts[k].customerId.text))
  {
    DeleteTransactionEffect(ts, transactionId, r, ts', k, ts[k].customerId.text);
  }

  /** The cascade clears the customer's string-form rows and touches nothing
      else: ObjectId-form rows and every other id string's rows stay, in order. */
  lemma {:induction false} CascadeKeepsOtherRows(ts: seq<Transaction>, q: string, other: string, oid: string)
    ensures StringMatches(WithoutStringRows(ts, q), q) == []
    ensures other != q ==> StringMatches(WithoutStringRows(ts, q), other) == StringMatches(ts, other)
    ensures ObjectIdMatches(WithoutStringRows(ts, q), oid) == ObjectIdMatches(ts, oid)
  {
    if ts != [] {
      var n := |ts| - 1;
      var init, t := ts[..n], ts[n];
      assert ts == init + [t];
      CascadeKeepsOtherRows(init, q, other, oid);
      var keep := (x: Transaction) => !MatchesString(x, q);
      var w := Filter(init, keep);
      assert WithoutStringRows(ts, q) == w + (if keep(t) then [t] else []);
      FilterAppend(w, [t], (x: Transaction) => MatchesString(x, q));
      FilterAppend(w, [t], (x: Transaction) => MatchesString(x, other));
      FilterAppend(w, [t], (x: Transaction) => MatchesObjectId(x, oid));
      FilterSingle(t, (x: Transaction) => MatchesString(x, q));
      FilterSingle(t, (x: Transaction) => MatchesString(x, other));
      FilterSingle(t, (x: Transaction) => MatchesObjectId(x, oid));
    }
  }

  /** A successful customer delete removes exactly that customer and exactly
      the rows stored under the given string. */
  lemma DeleteCustomerEffect(cs: seq<Customer>, ts: seq<Transaction>, customerId: string, r: Reply<Ack>,
                             cs': seq<Customer>, ts': seq<Transaction>)
    requires DeleteCustomerOutcome(cs, ts, customerId, r, cs', ts') && r.Ok?
    requires DistinctBy(cs, CustomerKey)
    ensures ParseObjectId(customerId).Some?
    ensures |cs'| == |cs| - 1
    ensures forall c :: c in cs' <==> c in cs && c.id != ParseObjectId(customerId).value
    ensures forall t :: t in ts' <==> t in ts && t.customerId != Str(customerId)
    ensures StringMatches(ts', customerId) == []
  {
    var oid := ParseObjectId(customerId).value;
    var i := IndexOfId(cs, CustomerKey, oid).value;
    RemoveAtMembers(cs, i, CustomerKey);
    FilterMembers(ts, (t: Transaction) => !MatchesString(t, customerId));
    CascadeKeepsOtherRows(ts, customerId, customerId, oid);
  }

  /** An update changes only the customer with that id, keeps its id and
      creation time, and stores a name that is not blank. */
  lemma UpdateCustomerEffect(cs: seq<Customer>, customerId: string, name: Json, phone: string, note: string, now: int,
                             r: Reply<Ack>, cs': seq<Customer>)
    requires UpdateCustomerOutcome(cs, customerId, name, phone, note, now, r, cs') && r.Ok?
    ensures r.value.id == Some(customerId)
    ensures |cs'| == |cs|
    ensures forall j :: 0 <= j < |cs| && cs[j].id != ParseObjectId(customerId).value ==> cs'[j] == cs[j]
    ensures forall j :: 0 <= j < |cs| && cs'[j] != cs[j] ==>
              cs'[j].id == cs[j].id && cs'[j].createdAt == cs[j].createdAt && |cs'[j].name| > 0 &&
              cs'[j].updatedAt == Some(now) && cs'[j].phone == phone && cs'[j].note == note
  {
    NameAcceptedIffNotBlank(name);
  }

  /** A debt posted under an upper-case spelling of a customer's id passes
      every check (the lookup parses it), but the row is stored under that
      spelling: the detail lookup by the canonical id and the list's key for
      the customer both miss it. */
  lemma NonCanonicalSpellingOrphansRow(cs: seq<Customer>, ts: seq<Transaction>, customerId: string, amount: Json,
                                       note: string, url: string, newId: string, now: int, r: Reply<Ack>, ts': seq<Transaction>)
    requires AddDebtOutcome(cs, ts, customerId, amount, note, url, newId, now, r, ts') && r.Ok?
    requires ParseObjectId(customerId).Some? && ParseObjectId(customerId).value != customerId
    ensures FindCustomer(cs, ParseObjectId(customerId).value).Some?
    ensures StringMatches(ts', ParseObjectId(customerId).value) == StringMatches(ts, ParseObjectId(customerId).value)
    ensures StatsKey(ts'[|ts|].customerId) != Some(ParseObjectId(customerId).value)
  {
    var oid := ParseObjectId(customerId).value;
    var t := DebtDocument(newId, customerId, amount.cents, note, url, now);
    FilterAppend(ts, [t], (x: Transaction) => MatchesString(x, oid));
    FilterSingle(t, (x: Transaction) => MatchesString(x, oid));
  }
}
