/** The system-wide summary (`GET /api/getSummary`): customer count, the two
    `$match`/`$sum` totals, the outstanding debt, and the number of debtors
    found by grouping transactions on their stored `customerId`. Both the
    serverless and the express handler compute exactly this. */
module Summary {
  import opened Values
  import opened Records
  import opened Folds
  import opened Ledger

  /** `$match: { $or: [{ type: 'debit' }, { type: 'DEBT' }] }` */
  predicate MatchesDebit(t: Transaction)
  {
    ExactKind(t.kind) == Debit
  }

  /** `$match: { $or: [{ type: 'credit' }, { type: 'PAYMENT' }] }` */
  predicate MatchesCredit(t: Transaction)
  {
    ExactKind(t.kind) == Credit
  }

  /** `$sum: '$amount'`: a missing amount adds nothing. */
  function AmountOrZero(t: Transaction): int
  {
    OrZero(t.amount)
  }

  /** One `$match` + `$group { _id: null, total: { $sum: '$amount' } }` pipeline,
      read back as `agg.length > 0 ? (agg[0].total || 0) : 0`. */
  function PipelineTotal(ts: seq<Transaction>, p: Transaction -> bool): int
  {
    var matched := Filter(ts, p);
    if |matched| > 0 then SumBy(matched, AmountOrZero) else 0
  }

  /** The two pipelines compute the same totals as the exact-rule fold of the
      customer handlers: a pipeline with no matching row yields 0. */
  lemma PipelinesAreExactFolds(ts: seq<Transaction>)
    ensures PipelineTotal(ts, MatchesDebit) == ExactTotalDebt(ts)
    ensures PipelineTotal(ts, MatchesCredit) == ExactTotalPaid(ts)
  {
    SumByFilter(ts, MatchesDebit, AmountOrZero, ExactDebt);
    SumByFilter(ts, MatchesCredit, AmountOrZero, ExactPaid);
  }

  /** The `_id`s of `$group: { _id: '$customerId' }`: every distinct stored value
      once (a missing and a null `customerId` fall in one group). */
  function GroupKeys(ts: seq<Transaction>): (ks: seq<CustomerRef>)
    ensures Distinct(ks)
    ensures forall k :: k in ks <==> exists i :: 0 <= i < |ts| && ts[i].customerId == k
  {
    if ts == [] then []
    else
      var init := ts[..|ts| - 1];
      var ks := GroupKeys(init);
      var k := ts[|ts| - 1].customerId;
      assert forall i :: 0 <= i < |init| ==> init[i] == ts[i];
      if k in ks then ks else ks + [k]
  }

  /** The rows of one group. */
  function GroupRows(ts: seq<Transaction>, k: CustomerRef): seq<Transaction>
  {
    Filter(ts, (t: Transaction) => t.customerId == k)
  }

  /** `$subtract: ['$totalDebt', '$totalPaid']` for one group; the group sums use
      the same exact type sets as the global pipelines. */
  function GroupBalance(ts: seq<Transaction>, k: CustomerRef): int
  {
    ExactTotalDebt(GroupRows(ts, k)) - ExactTotalPaid(GroupRows(ts, k))
  }

  /** The groups that survive `$match: { balance: { $gt: 0 } }`. */
  function Debtors(ts: seq<Transaction>): seq<CustomerRef>
  {
    Filter(GroupKeys(ts), (k: CustomerRef) => GroupBalance(ts, k) > 0)
  }

  /** Every distinct stored `customerId` whose group balance is strictly positive. */
  ghost function DebtorRefs(ts: seq<Transaction>): set<CustomerRef>
  {
    set i | 0 <= i < |ts| && GroupBalance(ts, ts[i].customerId) > 0 :: ts[i].customerId
  }

  /** `customerBalances.length` counts each positive-balance stored id once. */
  lemma DebtorsCountPositiveGroups(ts: seq<Transaction>)
    ensures |Debtors(ts)| == |DebtorRefs(ts)|
    ensures forall k :: k in Debtors(ts) ==> GroupBalance(ts, k) > 0
  {
    var ds := Debtors(ts);
    FilterDistinct(GroupKeys(ts), (k: CustomerRef) => GroupBalance(ts, k) > 0);
    DistinctCard(ds);
    DebtorsWithinRefs(ts);
    RefsWithinDebtors(ts);
    assert (set x | x in ds) == DebtorRefs(ts);
  }

  lemma DebtorsWithinRefs(ts: seq<Transaction>)
    ensures forall k :: k in Debtors(ts) ==> k in DebtorRefs(ts)
  {
    forall k | k in Debtors(ts) ensures k in DebtorRefs(ts) {
      assert k in GroupKeys(ts);
      var i :| 0 <= i < |ts| && ts[i].customerId == k;
    }
  }

  lemma RefsWithinDebtors(ts: seq<Transaction>)
    ensures forall k :: k in DebtorRefs(ts) ==> k in Debtors(ts)
  {
    var ks := GroupKeys(ts);
    forall k | k in DebtorRefs(ts) ensures k in Debtors(ts) {
      var i :| 0 <= i < |ts| && GroupBalance(ts, ts[i].customerId) > 0 && ts[i].customerId == k;
      assert k in ks;
      var j :| 0 <= j < |ks| && ks[j] == k;
    }
  }

  /** A group whose balance is zero or negative is never counted. */
  lemma SettledGroupNotDebtor(ts: seq<Transaction>, k: CustomerRef)
    requires GroupBalance(ts, k) <= 0
    ensures k !in DebtorRefs(ts) && k !in Debtors(ts)
  {
  }

  lemma GroupRowsAppend(ts: seq<Transaction>, t: Transaction, k: CustomerRef)
    ensures GroupRows(ts + [t], k) == GroupRows(ts, k) + (if t.customerId == k then [t] else [])
  {
    assert (ts + [t])[..|ts + [t]| - 1] == ts;
  }

  /** Sum of a contribution over the given groups. */
  function SumOverGroups(ts: seq<Transaction>, ks: seq<CustomerRef>, c: Transaction -> int): int
  {
    if ks == [] then 0
    else SumOverGroups(ts, ks[..|ks| - 1], c) + SumBy(GroupRows(ts, ks[|ks| - 1]), c)
  }

  /** Appending row `t` adds `c(t)` to its own group and to no other. */
  lemma {:induction false} SumOverGroupsAppend(ts: seq<Transaction>, t: Transaction, ks: seq<CustomerRef>, c: Transaction -> int)
    requires Distinct(ks)
    ensures SumOverGroups(ts + [t], ks, c)
         == SumOverGroups(ts, ks, c) + (if t.customerId in ks then c(t) else 0)
  {
    if ks != [] {
      var init := ks[..|ks| - 1];
      var k := ks[|ks| - 1];
      assert Distinct(init);
      SumOverGroupsAppend(ts, t, init, c);
      var p := (x: Transaction) => x.customerId == k;
      assert (ts + [t])[..|ts + [t]| - 1] == ts;
      if t.customerId == k {
        assert GroupRows(ts + [t], k) == GroupRows(ts, k) + [t];
        SumByAppend(GroupRows(ts, k), [t], c);
        SumBySingle(t, c);
        assert t.customerId !in init;
      } else {
        assert GroupRows(ts + [t], k) == GroupRows(ts, k);
      }
    }
  }

  /** The per-group sums add up to the global sum: grouping by stored id
      distributes every row to exactly one group. */
  lemma {:induction false} GroupsPartitionSum(ts: seq<Transaction>, c: Transaction -> int)
    ensures SumOverGroups(ts, GroupKeys(ts), c) == SumBy(ts, c)
  {
    if ts != [] {
      var init := ts[..|ts| - 1];
      var t := ts[|ts| - 1];
      var ks := GroupKeys(init);
      assert ts == init + [t];
      GroupsPartitionSum(init, c);
      SumOverGroupsAppend(init, t, ks, c);
      if t.customerId !in ks {
        assert GroupKeys(ts) == ks + [t.customerId];
        assert (ks + [t.customerId])[..|ks|] == ks;
        assert forall i :: 0 <= i < |init| ==> init[i].customerId != t.customerId;
        FilterNone(init, (x: Transaction) => x.customerId == t.customerId);
        GroupRowsAppend(init, t, t.customerId);
        SumBySingle(t, c);
      }
    }
  }

  /** Per-group debit sums add up to the global total debt, and likewise for
      payments, because both use the same exact type sets. */
  lemma GroupTotalsAddUp(ts: seq<Transaction>)
    ensures SumOverGroups(ts, GroupKeys(ts), ExactDebt) == PipelineTotal(ts, MatchesDebit)
    ensures SumOverGroups(ts, GroupKeys(ts), ExactPaid) == PipelineTotal(ts, MatchesCredit)
  {
    GroupsPartitionSum(ts, ExactDebt);
    GroupsPartitionSum(ts, ExactPaid);
    PipelinesAreExactFolds(ts);
  }

  datatype SummaryView = SummaryView(
    totalCustomers: nat,
    totalDebt: int,
    totalPaid: int,
    totalOutstandingDebt: int,
    totalDebtors: nat)

  /** The summary both handlers return on success. */
  function ComputeSummary(customers: seq<Customer>, ts: seq<Transaction>): (r: SummaryView)
    ensures r.totalCustomers == |customers|
    ensures r.totalDebt == ExactTotalDebt(ts) && r.totalPaid == ExactTotalPaid(ts)
    ensures r.totalOutstandingDebt == r.totalDebt - r.totalPaid
    ensures r.totalDebtors == |DebtorRefs(ts)|
  {
    PipelinesAreExactFolds(ts);
    DebtorsCountPositiveGroups(ts);
    var totalDebt := PipelineTotal(ts, MatchesDebit);
    var totalPaid := PipelineTotal(ts, MatchesCredit);
    SummaryView(|customers|, totalDebt, totalPaid, totalDebt - totalPaid, |Debtors(ts)|)
  }

  /** The serverless handler: an OPTIONS preflight, then 405 for anything but GET. */
  function ApiGetSummary(verb: string, customers: seq<Customer>, ts: seq<Transaction>): (r: Reply<SummaryView>)
    ensures verb == "OPTIONS" ==> r == Preflight
    ensures verb != "OPTIONS" && verb != "GET" ==> r == Fail(405, "Method not allowed")
    ensures verb == "GET" ==> r.Ok? && r.value.totalDebt - r.value.totalPaid == r.value.totalOutstandingDebt
    ensures verb == "GET" ==> r.Ok? && r.value.totalCustomers == |customers|
    ensures verb == "GET" ==> r == Ok(ComputeSummary(customers, ts))
  {
    if verb == "OPTIONS" then Preflight
    else if verb != "GET" then Fail(405, "Method not allowed")
    else Ok(ComputeSummary(customers, ts))
  }

  /** The stored forms of one customer's id are separate groups: a debt stored
      under the string form and an equal payment stored under the ObjectId form
      make that customer a debtor although the outstanding total is zero. */
  lemma MixedIdFormsSplitGroups(h: string, customers: seq<Customer>)
    requires IsCanonicalId(h)
    ensures var ts := [Transaction("a", Str(h), "debit", Num(100), "", None, None, None, None),
                       Transaction("b", Obj(h), "credit", Num(100), "", None, None, None, None)];
            ComputeSummary(customers, ts).totalOutstandingDebt == 0 &&
            ComputeSummary(customers, ts).totalDebtors == 1
  {
    var d := Transaction("a", Str(h), "debit", Num(100), "", None, None, None, None);
    var p := Transaction("b", Obj(h), "credit", Num(100), "", None, None, None, None);
    var ts := [d, p];
    assert ts == [d] + [p];
    assert [d] == [] + [d];
    GroupRowsAppend([], d, Str(h));
    GroupRowsAppend([d], p, Str(h));
    GroupRowsAppend([], d, Obj(h));
    GroupRowsAppend([d], p, Obj(h));
    assert GroupRows(ts, Str(h)) == [d];
    assert GroupRows(ts, Obj(h)) == [p];
    SumBySingle(d, ExactDebt);
    SumBySingle(d, ExactPaid);
    SumBySingle(p, ExactDebt);
    SumBySingle(p, ExactPaid);
    assert GroupBalance(ts, Str(h)) == 100;
    assert GroupBalance(ts, Obj(h)) == -100;
    assert DebtorRefs(ts) == {Str(h)};
  }
}
