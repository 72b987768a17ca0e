/** The customer list (`GET /api/getCustomers`): one pass over all
    transactions fills the `customerStats` dictionary, keyed by the stringified
    stored `customerId`, and every customer is projected with the stats found
    under its own string id. Both the serverless and the express handler do
    exactly this; the serverless one also answers OPTIONS and refuses non-GET. */
module CustomerList {
  import opened Values
  import opened Records
  import opened Folds
  import opened Ledger

  datatype Stats = Stats(totalDebt: int, totalPaid: int, receipts: int)

  /** `{ totalDebt: 0, totalPaid: 0, receipts: 0 }` */
  const ZeroStats := Stats(0, 0, 0)

  /** The rows whose stringified `customerId` is `k`; falsy ids have no key. */
  function KeyRows(ts: seq<Transaction>, k: string): seq<Transaction>
  {
    Filter(ts, (t: Transaction) => StatsKey(t.customerId) == Some(k))
  }

  /** What `customerStats[k]` should hold once every row is folded in. */
  function StatsFor(ts: seq<Transaction>, k: string): Stats
  {
    var rows := KeyRows(ts, k);
    Stats(ExactTotalDebt(rows), ExactTotalPaid(rows), ExactReceipts(rows))
  }

  lemma KeyRowsAppend(ts: seq<Transaction>, t: Transaction, k: string)
    ensures KeyRows(ts + [t], k) == KeyRows(ts, k) + (if StatsKey(t.customerId) == Some(k) then [t] else [])
  {
    assert (ts + [t])[..|ts + [t]| - 1] == ts;
  }

  lemma TotalsAppendOne(rows: seq<Transaction>, t: Transaction)
    ensures ExactTotalDebt(rows + [t]) == ExactTotalDebt(rows) + ExactDebt(t)
    ensures ExactTotalPaid(rows + [t]) == ExactTotalPaid(rows) + ExactPaid(t)
    ensures ExactReceipts(rows + [t]) == ExactReceipts(rows) + ExactReceipt(t)
  {
    assert (rows + [t])[..|rows|] == rows;
  }

  lemma StatsForAppendHit(ts: seq<Transaction>, t: Transaction, k: string)
    requires StatsKey(t.customerId) == Some(k)
    ensures StatsFor(ts + [t], k) == Stats(StatsFor(ts, k).totalDebt + ExactDebt(t),
                                           StatsFor(ts, k).totalPaid + ExactPaid(t),
                                           StatsFor(ts, k).receipts + ExactReceipt(t))
  {
    KeyRowsAppend(ts, t, k);
    TotalsAppendOne(KeyRows(ts, k), t);
  }

  lemma StatsForAppendMiss(ts: seq<Transaction>, t: Transaction, k: string)
    requires StatsKey(t.customerId) != Some(k)
    ensures StatsFor(ts + [t], k) == StatsFor(ts, k)
  {
    KeyRowsAppend(ts, t, k);
  }

  /** Folding one more row changes only the entry under that row's key. */
  lemma StatsForAppend(ts: seq<Transaction>, t: Transaction, k: string)
    ensures StatsKey(t.customerId) == Some(k) ==>
      StatsFor(ts + [t], k) == Stats(StatsFor(ts, k).totalDebt + ExactDebt(t),
                                     StatsFor(ts, k).totalPaid + ExactPaid(t),
                                     StatsFor(ts, k).receipts + ExactReceipt(t))
    ensures StatsKey(t.customerId) != Some(k) ==> StatsFor(ts + [t], k) == StatsFor(ts, k)
  {
    if StatsKey(t.customerId) == Some(k) {
      StatsForAppendHit(ts, t, k);
    } else {
      StatsForAppendMiss(ts, t, k);
    }
  }

  /** `customerStats[k]` after adding one row's contribution. */
  function AddRow(s: Stats, t: Transaction): Stats
  {
    Stats(s.totalDebt + ExactDebt(t), s.totalPaid + ExactPaid(t), s.receipts + ExactReceipt(t))
  }

  /** The dictionary after folding `rows`: an entry exists exactly for the keys
      some row carries, and holds the exact-rule sums and debit count of those rows. */
  ghost predicate StatsOfRows(m: map<string, Stats>, rows: seq<Transaction>)
  {
    (forall k :: k in m <==> KeyRows(rows, k) != []) &&
    (forall k :: k in m ==> m[k] == StatsFor(rows, k))
  }

  /** One iteration of the `forEach` keeps the dictionary in step with the rows seen. */
  lemma StatsStep(m: map<string, Stats>, rows: seq<Transaction>, t: Transaction, m': map<string, Stats>)
    requires StatsOfRows(m, rows)
    requires StatsKey(t.customerId).None? ==> m' == m
    requires StatsKey(t.customerId).Some? ==>
               var key := StatsKey(t.customerId).value;
               m' == m[key := AddRow(if key in m then m[key] else ZeroStats, t)]
    ensures StatsOfRows(m', rows + [t])
  {
    forall k ensures k in m' <==> KeyRows(rows + [t], k) != [] {
      KeyRowsAppend(rows, t, k);
    }
    forall k | k in m' ensures m'[k] == StatsFor(rows + [t], k) {
      StatsStepEntry(m, rows, t, m', k);
    }
  }

  /** The step on one key of the new dictionary. */
  lemma StatsStepEntry(m: map<string, Stats>, rows: seq<Transaction>, t: Transaction, m': map<string, Stats>, k: string)
    requires k in m ==> m[k] == StatsFor(rows, k)
    requires k !in m ==> KeyRows(rows, k) == []
    requires StatsKey(t.customerId).None? ==> m' == m
    requires StatsKey(t.customerId).Some? ==>
               var key := StatsKey(t.customerId).value;
               m' == m[key := AddRow(if key in m then m[key] else ZeroStats, t)]
    requires k in m'
    ensures m'[k] == StatsFor(rows + [t], k)
  {
    StatsForAppend(rows, t, k);
    if StatsKey(t.customerId) != Some(k) {
      assert m'[k] == m[k];
    } else {
      assert m'[k] == AddRow(if k in m then m[k] else ZeroStats, t);
      if k !in m {
        EmptyKeyZeroStats(rows, k);
      }
    }
  }

  /** A key no row carries has zero stats. */
  lemma EmptyKeyZeroStats(rows: seq<Transaction>, k: string)
    requires KeyRows(rows, k) == []
    ensures StatsFor(rows, k) == ZeroStats
  {
  }

  /** The body of the `forEach`: skip a falsy id, create the entry on first
      sight, then add the amount to the side the exact rule picks. */
  method AddToStats(m: map<string, Stats>, t: Transaction) returns (m': map<string, Stats>)
    ensures StatsKey(t.customerId).None? ==> m' == m
    ensures StatsKey(t.customerId).Some? ==>
              var key := StatsKey(t.customerId).value;
              m' == m[key := AddRow(if key in m then m[key] else ZeroStats, t)]
  {
    m' := m;
    match StatsKey(t.customerId) {
      case None =>
      case Some(key) =>
        if key !in m' {
          m' := m'[key := ZeroStats];
        }
        var s := m'[key];
        var amount := OrZero(t.amount);
        if t.kind == "debit" || t.kind == "DEBT" {
          m' := m'[key := Stats(s.totalDebt + amount, s.totalPaid, s.receipts + 1)];
        } else if t.kind == "credit" || t.kind == "PAYMENT" {
          m' := m'[key := Stats(s.totalDebt, s.totalPaid + amount, s.receipts)];
        }
    }
  }

  /** The `forEach` that fills `customerStats`: an entry exists exactly for the
      keys some row carries, and holds the exact-rule sums and the debit count
      of those rows. */
  method BuildCustomerStats(ts: seq<Transaction>) returns (m: map<string, Stats>)
    ensures forall k :: k in m <==> KeyRows(ts, k) != []
    ensures forall k :: k in m ==> m[k] == StatsFor(ts, k)
  {
    m := map[];
    var i := 0;
    while i < |ts|
      invariant 0 <= i <= |ts|
      invariant StatsOfRows(m, ts[..i])
    {
      var t := ts[i];
      assert ts[..i + 1] == ts[..i] + [t];
      var m0 := m;
      m := AddToStats(m, t);
      StatsStep(m0, ts[..i], t, m);
      i := i + 1;
    }
    assert ts[..i] == ts;
  }

  /** `customerStats[customerId] || { 0, 0, 0 }` */
  function LookupStats(m: map<string, Stats>, id: string): Stats
  {
    if id in m then m[id] else ZeroStats
  }

  /** Looking a customer up in the filled dictionary always yields the stats of
      its own rows: a customer without rows gets all zeros. */
  lemma LookupIsStatsFor(m: map<string, Stats>, ts: seq<Transaction>, id: string)
    requires forall k :: k in m <==> KeyRows(ts, k) != []
    requires forall k :: k in m ==> m[k] == StatsFor(ts, k)
    ensures LookupStats(m, id) == StatsFor(ts, id)
    ensures KeyRows(ts, id) == [] ==> LookupStats(m, id) == ZeroStats
  {
  }

  /** A customer none of whose rows carries its id gets zero stats. */
  lemma NoRowsZeroStats(ts: seq<Transaction>, id: string)
    requires forall i :: 0 <= i < |ts| ==> StatsKey(ts[i].customerId) != Some(id)
    ensures StatsFor(ts, id) == ZeroStats
  {
    FilterNone(ts, (t: Transaction) => StatsKey(t.customerId) == Some(id));
  }

  /** A row with a falsy `customerId` changes no entry. */
  lemma FalsyRefSkipped(ts: seq<Transaction>, t: Transaction, k: string)
    requires !RefTruthy(t.customerId)
    ensures StatsFor(ts + [t], k) == StatsFor(ts, k)
    ensures KeyRows(ts + [t], k) == KeyRows(ts, k)
  {
    StatsForAppend(ts, t, k);
    KeyRowsAppend(ts, t, k);
  }

  /** A payment (or any non-debit row) never raises the receipt count. */
  lemma PaymentKeepsReceipts(ts: seq<Transaction>, t: Transaction, k: string)
    requires ExactKind(t.kind) != Debit
    ensures StatsFor(ts + [t], k).receipts == StatsFor(ts, k).receipts
    ensures StatsFor(ts + [t], k).totalDebt == StatsFor(ts, k).totalDebt
  {
    StatsForAppend(ts, t, k);
  }

  /** Keying by the stringified id fetches, for a canonical customer id, the
      same rows as the express detail handler's dual-form query. */
  lemma KeyRowsAreDualMatches(ts: seq<Transaction>, id: string)
    requires IsCanonicalId(id)
    ensures KeyRows(ts, id) == DualMatches(ts, id, id)
  {
    forall i | 0 <= i < |ts|
      ensures (StatsKey(ts[i].customerId) == Some(id)) == MatchesEither(ts[i], id, id)
    {
      StatsKeyIsDualMatch(ts[i], id);
    }
    FilterEquivalent(ts, (t: Transaction) => StatsKey(t.customerId) == Some(id),
                     (t: Transaction) => MatchesEither(t, id, id));
  }

  /** On written records the list shows each customer the totals the express
      detail handler computes for it, and receipts never exceed its rows. */
  lemma ListAgreesWithBackendDetail(ts: seq<Transaction>, id: string)
    requires IsCanonicalId(id) && AllWritten(ts)
    ensures StatsFor(ts, id).totalDebt == LowerTotalDebt(DualMatches(ts, id, id))
    ensures StatsFor(ts, id).totalPaid == LowerTotalPaid(DualMatches(ts, id, id))
    ensures 0 <= StatsFor(ts, id).receipts <= |DualMatches(ts, id, id)|
  {
    KeyRowsAreDualMatches(ts, id);
    var dual := DualMatches(ts, id, id);
    forall i | 0 <= i < |dual| ensures WrittenRecord(dual[i]) {
      assert dual[i] in ts;
    }
    ServerTotalsAgree(dual);
    ReceiptsBounded(dual);
  }

  /** One entry of the list reply. */
  datatype CustomerRow = CustomerRow(
    id: string,
    name: string,
    phone: string,
    receipts: int,
    totalDebt: int,
    totalPaid: int,
    balance: int)

  /** `customers.map(...)`: one row per customer, stats looked up by its id. */
  function Project(customers: seq<Customer>, m: map<string, Stats>): (rows: seq<CustomerRow>)
    ensures |rows| == |customers|
    ensures forall i :: 0 <= i < |customers| ==> rows[i].id == customers[i].id
  {
    seq(|customers|, i requires 0 <= i < |customers| =>
      var s := LookupStats(m, customers[i].id);
      CustomerRow(customers[i].id, customers[i].name, customers[i].phone, s.receipts,
                  s.totalDebt, s.totalPaid, s.totalDebt - s.totalPaid))
  }

  /** Row `r` lists customer `c` with the stats of the rows keyed by its id. */
  predicate ListsCustomer(r: CustomerRow, c: Customer, ts: seq<Transaction>)
  {
    var s := StatsFor(ts, c.id);
    r.id == c.id && r.name == c.name && r.phone == c.phone && r.receipts == s.receipts &&
    r.totalDebt == s.totalDebt && r.totalPaid == s.totalPaid && r.balance == s.totalDebt - s.totalPaid
  }

  /** The express handler: exactly one row per customer, in customer order. */
  method GetCustomers(customers: seq<Customer>, ts: seq<Transaction>) returns (rows: seq<CustomerRow>)
    ensures |rows| == |customers|
    ensures forall i :: 0 <= i < |customers| ==> ListsCustomer(rows[i], customers[i], ts)
  {
    var m := BuildCustomerStats(ts);
    rows := Project(customers, m);
    forall i | 0 <= i < |customers| ensures ListsCustomer(rows[i], customers[i], ts) {
      LookupIsStatsFor(m, ts, customers[i].id);
    }
  }

  /** The serverless handler: OPTIONS preflight, 405 for non-GET, else the list. */
  method ApiGetCustomers(verb: string, customers: seq<Customer>, ts: seq<Transaction>)
    returns (r: Reply<seq<CustomerRow>>)
    ensures verb == "OPTIONS" ==> r == Preflight
    ensures verb != "OPTIONS" && verb != "GET" ==> r == Fail(405, "Method not allowed")
    ensures verb == "GET" ==> (r.Ok? && |r.value| == |customers| &&
                               forall i :: 0 <= i < |customers| ==> ListsCustomer(r.value[i], customers[i], ts))
  {
    if verb == "OPTIONS" {
      return Preflight;
    }
    if verb != "GET" {
      return Fail(405, "Method not allowed");
    }
    var rows := GetCustomers(customers, ts);
    r := Ok(rows);
  }
}
