/** The customer detail handlers (`GET /api/getCustomer?id=`): the validation
    chain, the fetch of the customer's transactions newest first, the view of
    each transaction, and the totals accumulated over the fetched rows. The
    serverless handler matches the string id and sums by the exact rule; the
    express handler matches either id form and sums by the lower-cased rule. */
module CustomerDetail {
  import opened Values
  import opened Records
  import opened Folds
  import opened Ledger

  /** One entry of the `transactions` array of a detail reply. */
  datatype TransactionView = TransactionView(
    id: string,
    kind: string,
    amount: int,
    note: string,
    invoiceImageUrl: Option<string>,
    date: int)

  /** The body of a successful detail reply. */
  datatype Detail = Detail(
    id: string,
    name: string,
    phone: string,
    note: string,
    createdAt: Option<int>,
    totalDebt: int,
    totalPaid: int,
    balance: int,
    transactions: seq<TransactionView>)

  /** `a || b || null` on two optional links: an empty link is falsy. */
  function InvoiceLink(a: Option<string>, b: Option<string>): (r: Option<string>)
    ensures r.Some? ==> r.value != "" && (r == a || r == b)
    ensures r.None? <==> (a.None? || a.value == "") && (b.None? || b.value == "")
    ensures a.Some? && a.value != "" ==> r == a
  {
    if a.Some? && a.value != "" then a
    else if b.Some? && b.value != "" then b
    else None
  }

  /** `date || createdAt || new Date()`: a stored date is always truthy. */
  function ViewDate(t: Transaction, now: int): (d: int)
    ensures t.date.Some? ==> d == t.date.value
    ensures t.date.None? && t.createdAt.Some? ==> d == t.createdAt.value
    ensures t.date.None? && t.createdAt.None? ==> d == now
  {
    match t.date
    case Some(d) => d
    case None => t.createdAt.GetOr(now)
  }

  function MakeView(t: Transaction, isDebit: bool, now: int): TransactionView
  {
    TransactionView(t.id, if isDebit then "debit" else "credit", OrZero(t.amount), t.note,
                    InvoiceLink(t.invoiceImageUrl, t.invoiceUrl), ViewDate(t, now))
  }

  /** The serverless view labels 'DEBT'/'debit' as 'debit', all else 'credit'. */
  function ApiView(t: Transaction, now: int): TransactionView
  {
    MakeView(t, DebitLabelled(t.kind), now)
  }

  /** The express view labels the listed debt tags as 'debit', all else 'credit'. */
  function BackendView(t: Transaction, now: int): TransactionView
  {
    MakeView(t, DebtTagListed(t.kind), now)
  }

  function ApiViews(rows: seq<Transaction>, now: int): (vs: seq<TransactionView>)
    ensures |vs| == |rows| && forall i :: 0 <= i < |rows| ==> vs[i] == ApiView(rows[i], now)
  {
    seq(|rows|, i requires 0 <= i < |rows| => ApiView(rows[i], now))
  }

  function BackendViews(rows: seq<Transaction>, now: int): (vs: seq<TransactionView>)
    ensures |vs| == |rows| && forall i :: 0 <= i < |rows| ==> vs[i] == BackendView(rows[i], now)
  {
    seq(|rows|, i requires 0 <= i < |rows| => BackendView(rows[i], now))
  }

  /** The serverless view's label is exactly the exact rule's debit class, and
      a view keeps the row's id, note and `amount || 0`. */
  lemma ApiViewMatchesExactRule(t: Transaction, now: int)
    ensures ApiView(t, now).kind == "debit" <==> ExactKind(t.kind) == Debit
    ensures ApiView(t, now).kind == "credit" <==> ExactKind(t.kind) != Debit
    ensures ApiView(t, now).id == t.id && ApiView(t, now).note == t.note
    ensures ApiView(t, now).amount == OrZero(t.amount)
  {
  }

  /** Whatever the express view labels 'debit' the lower-cased totals count as
      debt; the converse fails, e.g. for 'Debit'. */
  lemma BackendLabelSound(t: Transaction, now: int)
    ensures BackendView(t, now).kind == "debit" ==> LowerKind(t.kind) == Debit
    ensures t.kind == "Debit" ==> LowerKind(t.kind) == Debit && BackendView(t, now).kind == "credit"
  {
    LowerEq("debt", "debt");
    LowerEq("debit", "debit");
    LowerEq("DEBT", "debt");
    LowerEq("Debit", "debit");
  }

  /** An earlier-sorting optional timestamp: a missing value sorts first. */
  predicate OptBefore(x: Option<int>, y: Option<int>)
  {
    (x.None? && y.Some?) || (x.Some? && y.Some? && x.value < y.value)
  }

  /** `.sort({ date: -1, createdAt: -1 })`: `a` may be placed before `b`. */
  predicate NewestFirst(a: Transaction, b: Transaction)
  {
    OptBefore(b.date, a.date) || (a.date == b.date && !OptBefore(a.createdAt, b.createdAt))
  }

  lemma NewestFirstTotal()
    ensures Total(NewestFirst)
  {
    forall a: Transaction, b: Transaction ensures NewestFirst(a, b) || NewestFirst(b, a) {
      if a.date == b.date {
        assert !OptBefore(a.createdAt, b.createdAt) || !OptBefore(b.createdAt, a.createdAt);
      }
    }
  }

  /** The rows the serverless handler fetches and the order it reads them in. */
  function ApiRows(ts: seq<Transaction>, q: string): seq<Transaction>
  {
    SortBy(StringMatches(ts, q), NewestFirst)
  }

  /** The rows the express handler fetches and the order it reads them in. */
  function BackendRows(ts: seq<Transaction>, q: string, oid: string): seq<Transaction>
  {
    SortBy(DualMatches(ts, q, oid), NewestFirst)
  }

  /** The serverless fetch is newest first and holds exactly the rows whose
      stored id is the query string. */
  lemma ApiRowsAreSortedMatches(ts: seq<Transaction>, q: string)
    ensures SortedBy(ApiRows(ts, q), NewestFirst)
    ensures multiset(ApiRows(ts, q)) == multiset(StringMatches(ts, q))
    ensures forall t :: t in ApiRows(ts, q) <==> t in ts && t.customerId == Str(q)
  {
    NewestFirstTotal();
    SortBySorted(StringMatches(ts, q), NewestFirst);
    SortByMembers(StringMatches(ts, q), NewestFirst);
    FilterMembers(ts, (t: Transaction) => MatchesString(t, q));
  }

  /** The express fetch is newest first and holds exactly the rows stored under
      either form of the id. */
  lemma BackendRowsAreSortedMatches(ts: seq<Transaction>, q: string, oid: string)
    ensures SortedBy(BackendRows(ts, q, oid), NewestFirst)
    ensures multiset(BackendRows(ts, q, oid)) == multiset(DualMatches(ts, q, oid))
    ensures forall t :: t in BackendRows(ts, q, oid) <==>
              t in ts && (t.customerId == Str(q) || t.customerId == Obj(oid))
  {
    NewestFirstTotal();
    SortBySorted(DualMatches(ts, q, oid), NewestFirst);
    SortByMembers(DualMatches(ts, q, oid), NewestFirst);
    FilterMembers(ts, (t: Transaction) => MatchesEither(t, q, oid));
  }

  /** The serverless `forEach` accumulation of the exact-rule totals. */
  method AccumulateExactTotals(rows: seq<Transaction>) returns (totalDebt: int, totalPaid: int)
    ensures totalDebt == ExactTotalDebt(rows) && totalPaid == ExactTotalPaid(rows)
  {
    totalDebt, totalPaid := 0, 0;
    var i := 0;
    while i < |rows|
      invariant 0 <= i <= |rows|
      invariant totalDebt == ExactTotalDebt(rows[..i]) && totalPaid == ExactTotalPaid(rows[..i])
    {
      var t := rows[i];
      var amount := OrZero(t.amount);
      if t.kind == "debit" || t.kind == "DEBT" {
        totalDebt := totalDebt + amount;
      } else if t.kind == "credit" || t.kind == "PAYMENT" {
        totalPaid := totalPaid + amount;
      }
      assert rows[..i + 1][..i] == rows[..i];
      i := i + 1;
    }
    assert rows[..i] == rows;
  }

  /** The express `forEach` accumulation over `(type || '').toLowerCase()`. */
  method AccumulateLowerTotals(rows: seq<Transaction>) returns (totalDebt: int, totalPaid: int)
    ensures totalDebt == LowerTotalDebt(rows) && totalPaid == LowerTotalPaid(rows)
  {
    totalDebt, totalPaid := 0, 0;
    var i := 0;
    while i < |rows|
      invariant 0 <= i <= |rows|
      invariant totalDebt == LowerTotalDebt(rows[..i]) && totalPaid == LowerTotalPaid(rows[..i])
    {
      var t := rows[i];
      var amount := OrZero(t.amount);
      var kind := Lower(t.kind);
      if kind == "debit" || kind == "debt" {
        totalDebt := totalDebt + amount;
      } else if kind == "credit" || kind == "payment" {
        totalPaid := totalPaid + amount;
      }
      assert rows[..i + 1][..i] == rows[..i];
      i := i + 1;
    }
    assert rows[..i] == rows;
  }

  /** Reply `d` describes customer `c` with the given totals and views. */
  predicate DescribesCustomer(d: Detail, c: Customer, debt: int, paid: int, views: seq<TransactionView>)
  {
    d.id == c.id && d.name == c.name && d.phone == c.phone && d.note == c.note &&
    d.createdAt == c.createdAt && d.totalDebt == debt && d.totalPaid == paid &&
    d.balance == debt - paid && d.transactions == views
  }

  /** The serverless handler. */
  method ApiGetCustomer(verb: string, q: string, customers: seq<Customer>, ts: seq<Transaction>, now: int)
    returns (r: Reply<Detail>)
    ensures verb == "OPTIONS" ==> r == Preflight
    ensures verb != "OPTIONS" && verb != "GET" ==> r == Fail(405, "Method not allowed")
    ensures verb == "GET" && q == "" ==> r == Fail(400, "Customer ID is required")
    ensures verb == "GET" && q != "" && ParseObjectId(q).None? ==> r == Fail(400, "Invalid customer ID format")
    ensures verb == "GET" && ParseObjectId(q).Some? && FindCustomer(customers, ParseObjectId(q).value).None?
            ==> r == Fail(404, "Customer not found")
    ensures verb == "GET" && ParseObjectId(q).Some? && FindCustomer(customers, ParseObjectId(q).value).Some?
            ==> r.Ok? && DescribesCustomer(r.value, FindCustomer(customers, ParseObjectId(q).value).value,
                                           ExactTotalDebt(StringMatches(ts, q)), ExactTotalPaid(StringMatches(ts, q)),
                                           ApiViews(ApiRows(ts, q), now))
  {
    if verb == "OPTIONS" {
      return Preflight;
    }
    if verb != "GET" {
      return Fail(405, "Method not allowed");
    }
    if q == "" {
      return Fail(400, "Customer ID is required");
    }
    var parsed := ParseObjectId(q);
    if parsed.None? {
      return Fail(400, "Invalid customer ID format");
    }
    var found := FindCustomer(customers, parsed.value);
    if found.None? {
      return Fail(404, "Customer not found");
    }
    var c := found.value;
    var rows := ApiRows(ts, q);
    var views := ApiViews(rows, now);
    var totalDebt, totalPaid := AccumulateExactTotals(rows);
    TotalsOrderInvariant(rows, StringMatches(ts, q));
    var balance := totalDebt - totalPaid;
    r := Ok(Detail(c.id, c.name, c.phone, c.note, c.createdAt, totalDebt, totalPaid, balance, views));
  }

  /** The express handler. */
  method BackendGetCustomer(q: string, customers: seq<Customer>, ts: seq<Transaction>, now: int)
    returns (r: Reply<Detail>)
    ensures q == "" ==> r == Fail(400, "Customer ID is required")
    ensures q != "" && ParseObjectId(q).None? ==> r == Fail(400, "Invalid customer ID format")
    ensures ParseObjectId(q).Some? && FindCustomer(customers, ParseObjectId(q).value).None?
            ==> r == Fail(404, "Customer not found")
    ensures ParseObjectId(q).Some? && FindCustomer(customers, ParseObjectId(q).value).Some?
            ==> var oid := ParseObjectId(q).value;
                r.Ok? && DescribesCustomer(r.value, FindCustomer(customers, oid).value,
                                           LowerTotalDebt(DualMatches(ts, q, oid)), LowerTotalPaid(DualMatches(ts, q, oid)),
                                           BackendViews(BackendRows(ts, q, oid), now))
  {
    if q == "" {
      return Fail(400, "Customer ID is required");
    }
    var parsed := ParseObjectId(q);
    if parsed.None? {
      return Fail(400, "Invalid customer ID format");
    }
    var oid := parsed.value;
    var found := FindCustomer(customers, oid);
    if found.None? {
      return Fail(404, "Customer not found");
    }
    var c := found.value;
    var rows := BackendRows(ts, q, oid);
    var views := BackendViews(rows, now);
    var totalDebt, totalPaid := AccumulateLowerTotals(rows);
    TotalsOrderInvariant(rows, DualMatches(ts, q, oid));
    var balance := totalDebt - totalPaid;
    r := Ok(Detail(c.id, c.name, c.phone, c.note, c.createdAt, totalDebt, totalPaid, balance, views));
  }

  /** On written records the express totals are the serverless totals plus the
      rows stored under the ObjectId form, which the serverless fetch misses. */
  lemma BackendTotalsAddObjectIdRows(ts: seq<Transaction>, q: string, oid: string)
    requires AllWritten(ts)
    ensures LowerTotalDebt(DualMatches(ts, q, oid))
         == ExactTotalDebt(StringMatches(ts, q)) + ExactTotalDebt(ObjectIdMatches(ts, oid))
    ensures LowerTotalPaid(DualMatches(ts, q, oid))
         == ExactTotalPaid(StringMatches(ts, q)) + ExactTotalPaid(ObjectIdMatches(ts, oid))
  {
    var dual := DualMatches(ts, q, oid);
    forall i | 0 <= i < |dual| ensures WrittenRecord(dual[i]) {
      assert dual[i] in ts;
    }
    ServerTotalsAgree(dual);
    DualFetchSplits(ts, q, oid, ExactDebt);
    DualFetchSplits(ts, q, oid, ExactPaid);
  }

  /** A written row of customer `h` with the given type and amount. */
  function Row(id: string, h: string, kind: string, cents: int): Transaction
  {
    Transaction(id, Str(h), kind, Num(cents), "", None, None, None, None)
  }

  /** Debts of 120 and 30 and a payment of 50 give 150/50/100; once the 120
      debt is deleted the same customer shows 30/50/-20. */
  lemma SmokeTestTotals(h: string)
    ensures var rows := [Row("d1", h, "debit", 120), Row("d2", h, "debit", 30), Row("p1", h, "credit", 50)];
            ExactTotalDebt(rows) == 150 && ExactTotalPaid(rows) == 50 &&
            ExactTotalDebt(rows) - ExactTotalPaid(rows) == 100
    ensures var rows := [Row("d2", h, "debit", 30), Row("p1", h, "credit", 50)];
            ExactTotalDebt(rows) == 30 && ExactTotalPaid(rows) == 50 &&
            ExactTotalDebt(rows) - ExactTotalPaid(rows) == -20
  {
    var d1, d2, p1 := Row("d1", h, "debit", 120), Row("d2", h, "debit", 30), Row("p1", h, "credit", 50);
    SumBySingle(d1, ExactDebt);
    SumBySingle(d1, ExactPaid);
    SumBySingle(d2, ExactDebt);
    SumBySingle(d2, ExactPaid);
    SumBySingle(p1, ExactDebt);
    SumBySingle(p1, ExactPaid);
    assert [d1, d2, p1] == [d1] + [d2] + [p1];
    assert [d2, p1] == [d2] + [p1];
    SumByAppend([d1] + [d2], [p1], ExactDebt);
    SumByAppend([d1] + [d2], [p1], ExactPaid);
    SumByAppend([d1], [d2], ExactDebt);
    SumByAppend([d1], [d2], ExactPaid);
    SumByAppend([d2], [p1], ExactDebt);
    SumByAppend([d2], [p1], ExactPaid);
  }

  /** A debit of 50 and a payment of 20 give 50/20/30 under the lower-cased rule. */
  lemma BackendTestTotals(h: string)
    ensures var rows := [Row("d1", h, "debit", 50), Row("p1", h, "credit", 20)];
            LowerTotalDebt(rows) == 50 && LowerTotalPaid(rows) == 20 &&
            LowerTotalDebt(rows) - LowerTotalPaid(rows) == 30
  {
    var d1, p1 := Row("d1", h, "debit", 50), Row("p1", h, "credit", 20);
    var rows := [d1, p1];
    WrittenRecordRulesAgree(d1);
    WrittenRecordRulesAgree(p1);
    SumBySingle(d1, LowerDebt);
    SumBySingle(d1, LowerPaid);
    assert rows[..1] == [d1];
  }
}
