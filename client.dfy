/** What the browser pages share: the customer rows they receive from
    `getCustomers`, the transaction entries of a customer detail, the history
    line each page draws, the newest-first order of those lines, the sum of
    balances shown in the header, and the amount check of the debt and
    payment forms. */
module Client {
  import opened Values
  import opened Records
  import opened Folds
  import opened Ledger
  import opened CustomerDetail

  /** One element of the `getCustomers` array as a page holds it; a field the
      reply lacks is `NoAmount` (undefined). */
  datatype ClientCustomer = ClientCustomer(
    id: string,
    name: string,
    phone: string,
    note: string,
    totalDebt: Amount,
    totalPaid: Amount,
    balance: Amount)

  /** `customer.balance || 0` */
  function BalanceOrZero(c: ClientCustomer): int
  {
    OrZero(c.balance)
  }

  /** `customers.reduce((sum, c) => sum + (c.balance || 0), 0)` */
  function TotalBalance(cs: seq<ClientCustomer>): int
  {
    SumBy(cs, BalanceOrZero)
  }

  /** `parseFloat(input)` followed by `!amount || amount <= 0` (or
      `isNaN(amount) || amount <= 0`): `None` stands for NaN. Only a positive
      number is sent. */
  predicate AmountInputAccepted(parsed: Option<int>)
  {
    parsed.Some? && parsed.value > 0
  }

  /** Whatever a form lets through, the server's amount check accepts. */
  lemma AcceptedInputPassesServerCheck(parsed: Option<int>)
    requires AmountInputAccepted(parsed)
    ensures Truthy(JNumber(parsed.value)) && JNumber(parsed.value).cents > 0
  {
  }

  /** The payment a close-balance action posts. */
  datatype PaymentRequest = PaymentRequest(customerId: string, amount: int, note: string)

  /** The debt an add-debt form posts. */
  datatype DebtRequest = DebtRequest(customerId: string, amount: int, note: string, invoiceImageUrl: Option<string>)

  /** `name.includes(term) || phone.includes(term)` on the lower-cased fields. */
  predicate MatchesTerm(c: ClientCustomer, term: string)
  {
    Contains(Lower(c.name), term) || Contains(Lower(c.phone), term)
  }

  /** `searchTerm.toLowerCase().trim()` */
  function SearchTerm(raw: string): string
  {
    Trim(Lower(raw))
  }

  /** The empty term searches for nothing, so the unsearched list is the
      whole list. */
  lemma EmptySearchTerm()
    ensures SearchTerm("") == ""
  {
    assert Lower("") == "";
    assert TrimStart("") == "";
  }

  /** The customers the search keeps before any sorting (js/app.js). */
  function SearchResults(cached: seq<ClientCustomer>, raw: string): seq<ClientCustomer>
  {
    var term := SearchTerm(raw);
    if term == "" then cached else Filter(cached, (c: ClientCustomer) => MatchesTerm(c, term))
  }

  /** An empty term keeps every cached customer; any other term keeps exactly
      those whose lower-cased name or phone contains it, in cached order. */
  lemma SearchResultsMembers(cached: seq<ClientCustomer>, raw: string)
    ensures SearchTerm(raw) == "" ==> SearchResults(cached, raw) == cached
    ensures forall c :: c in SearchResults(cached, raw) <==>
              c in cached && (SearchTerm(raw) == "" || MatchesTerm(c, SearchTerm(raw)))
  {
    FilterMembers(cached, (c: ClientCustomer) => MatchesTerm(c, SearchTerm(raw)));
  }

  /** One line of a transaction history. */
  datatype HistoryLine = HistoryLine(isDebt: bool, amount: nat, note: string, invoiceImageUrl: Option<string>, date: int)

  /** `new Date(b.date || ...) - new Date(a.date || ...)` as a comparator: `a`
      may stay before `b` when it is not older. */
  predicate NewestViewFirst(a: TransactionView, b: TransactionView)
  {
    a.date >= b.date
  }

  /** `[...transactions].sort(newest first)`: a sorted copy. */
  function ByNewest(vs: seq<TransactionView>): (r: seq<TransactionView>)
    ensures |r| == |vs| && multiset(r) == multiset(vs)
  {
    SortBy(vs, NewestViewFirst)
  }

  /** The copy is newest first and holds the same entries. */
  lemma ByNewestIsSortedCopy(vs: seq<TransactionView>)
    ensures SortedBy(ByNewest(vs), NewestViewFirst)
    ensures multiset(ByNewest(vs)) == multiset(vs)
    ensures forall i :: 0 < i < |ByNewest(vs)| ==> ByNewest(vs)[i - 1].date >= ByNewest(vs)[i].date
  {
    assert Total(NewestViewFirst);
    SortBySorted(vs, NewestViewFirst);
  }

  /** A history line with the given debt decision: `Math.abs(amount || 0)`,
      the note, the invoice link and the date. */
  function LineWith(v: TransactionView, isDebt: bool): (l: HistoryLine)
    ensures l.isDebt == isDebt && l.amount == Abs(v.amount) && l.date == v.date
  {
    HistoryLine(isDebt, Abs(v.amount), v.note, v.invoiceImageUrl, v.date)
  }

  /** The history line the manager page draws, by the sign-fallback rule. */
  function FallbackLine(v: TransactionView): HistoryLine
  {
    LineWith(v, FallbackIsDebt(v.kind, Num(v.amount)))
  }

  /** On an entry of an express detail reply the sign-fallback rule shows a
      debt exactly when the server's totals count the row as a debt; on a row
      of the shape the write paths produce that is exactly a 'debit'. */
  lemma FallbackLineAgreesWithServer(t: Transaction, now: int)
    requires WrittenRecord(t)
    ensures FallbackLine(BackendView(t, now)).isDebt <==> LowerKind(t.kind) == Debit
    ensures FallbackLine(BackendView(t, now)).isDebt <==> t.kind == "debit"
    ensures FallbackLine(BackendView(t, now)).amount == t.amount.cents
  {
    WrittenRecordRulesAgree(t);
  }

  /** On any entry a detail reply can carry ('debit' or 'credit', amount not
      negative) the sign-fallback rule shows a debt exactly for 'debit'. */
  lemma FallbackLineOnViews(v: TransactionView)
    requires (v.kind == "debit" || v.kind == "credit") && v.amount >= 0
    ensures FallbackLine(v).isDebt <==> v.kind == "debit"
  {
  }
  /** What a history view draws: its empty state, or one line per entry. */
  datatype History = NoTransactions | Lines(lines: seq<HistoryLine>)

  /** `renderTransactions` / `renderHistory`: the empty state for no entries,
      otherwise the entries newest first, each drawn by `line`. */
  function Render(vs: seq<TransactionView>, line: TransactionView -> HistoryLine): (r: History)
    ensures r == NoTransactions <==> vs == []
    ensures r.Lines? ==> |r.lines| == |vs|
  {
    if vs == [] then NoTransactions else Lines(Map(ByNewest(vs), line))
  }

  /** Every entry is drawn and nothing else is. */
  lemma RenderDrawsEveryEntry(vs: seq<TransactionView>, line: TransactionView -> HistoryLine)
    ensures Render(vs, line).Lines? ==> forall i :: 0 <= i < |vs| ==> line(vs[i]) in Render(vs, line).lines
    ensures Render(vs, line).Lines? ==> forall l :: l in Render(vs, line).lines ==> exists v :: v in vs && l == line(v)
  {
    if vs != [] {
      var sorted := ByNewest(vs);
      SortByMembers(vs, NewestViewFirst);
      var lines := Map(sorted, line);
      forall i | 0 <= i < |vs| ensures line(vs[i]) in lines {
        assert vs[i] in sorted;
        var j :| 0 <= j < |sorted| && sorted[j] == vs[i];
        assert lines[j] == line(vs[i]);
      }
      forall l | l in lines ensures exists v :: v in vs && l == line(v) {
        var j :| 0 <= j < |lines| && lines[j] == l;
        assert sorted[j] in vs;
      }
    }
  }

  /** With a line that keeps the entry's date, the drawn lines are newest first. */
  lemma RenderNewestFirst(vs: seq<TransactionView>, line: TransactionView -> HistoryLine)
    requires forall v :: line(v).date == v.date
    ensures Render(vs, line).Lines? ==>
              forall i :: 0 < i < |vs| ==> Render(vs, line).lines[i - 1].date >= Render(vs, line).lines[i].date
  {
    ByNewestIsSortedCopy(vs);
  }

  /** The history drawn by the sign-fallback rule (the manager page's
      `renderHistory`); on every entry a detail reply carries it agrees with
      the server (`FallbackLineAgreesWithServer`). */
  function FallbackHistory(vs: seq<TransactionView>): (r: History)
    ensures r == NoTransactions <==> vs == []
    ensures r.Lines? ==> |r.lines| == |vs|
    ensures r.Lines? ==> forall i :: 0 <= i < |r.lines| ==> r.lines[i].isDebt == FallbackIsDebt(ByNewest(vs)[i].kind, Num(ByNewest(vs)[i].amount))
  {
    Render(vs, FallbackLine)
  }

  /** The fallback history draws a recorded debt as a debt and a recorded
      payment as a payment. */
  lemma RecordedEntriesDrawnByKind(t: Transaction, now: int)
    requires WrittenRecord(t)
    ensures FallbackHistory([BackendView(t, now)]).lines[0].isDebt <==> t.kind == "debit"
    ensures FallbackHistory([BackendView(t, now)]).lines[0].amount == t.amount.cents
  {
    var v := BackendView(t, now);
    assert ByNewest([v]) == [v];
    FallbackLineAgreesWithServer(t, now);
  }
}
