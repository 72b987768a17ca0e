/** The older single-page script (script.js): the outstanding total over the
    fetched customers. */
module LegacyScript {
  import opened Values
  import opened Folds
  import opened Client

  /** `getTotalDebt(customers)`: 0 for a missing (`null`/`undefined`) or
      empty array, otherwise the sum of `balance || 0`. */
  function GetTotalDebt(customers: Option<seq<ClientCustomer>>): (r: int)
    ensures customers.None? ==> r == 0
    ensures customers.Some? ==> r == TotalBalance(customers.value)
  {
    if customers.None? || customers.value == [] then 0
    else SumBy(customers.value, BalanceOrZero)
  }

  /** The total depends only on which customers there are, not on their order. */
  lemma GetTotalDebtOrderFree(a: seq<ClientCustomer>, b: seq<ClientCustomer>)
    requires multiset(a) == multiset(b)
    ensures GetTotalDebt(Some(a)) == GetTotalDebt(Some(b))
  {
    SumByPermutation(a, b, BalanceOrZero);
  }

  /** Appending a customer changes the total by exactly its `balance || 0`: a
      credit balance lowers the total and is not dropped, and a customer
      without a balance adds nothing. */
  lemma GetTotalDebtAppend(a: seq<ClientCustomer>, c: ClientCustomer)
    ensures GetTotalDebt(Some(a + [c])) == GetTotalDebt(Some(a)) + BalanceOrZero(c)
    ensures c.balance.Num? && c.balance.cents < 0 ==> GetTotalDebt(Some(a + [c])) < GetTotalDebt(Some(a))
    ensures c.balance.NoAmount? ==> GetTotalDebt(Some(a + [c])) == GetTotalDebt(Some(a))
  {
    SumByAppend(a, [c], BalanceOrZero);
    SumBySingle(c, BalanceOrZero);
  }

  /** The total changes with the balance fields alone: two lists whose
      customers agree position by position on `balance || 0` have one total. */
  lemma {:induction false} GetTotalDebtReadsBalancesOnly(a: seq<ClientCustomer>, b: seq<ClientCustomer>)
    requires |a| == |b|
    requires forall i :: 0 <= i < |a| ==> BalanceOrZero(a[i]) == BalanceOrZero(b[i])
    ensures GetTotalDebt(Some(a)) == GetTotalDebt(Some(b))
    decreases |a|
  {
    if a != [] {
      var n := |a| - 1;
      assert forall i :: 0 <= i < n ==> a[..n][i] == a[i] && b[..n][i] == b[i];
      GetTotalDebtReadsBalancesOnly(a[..n], b[..n]);
    }
  }
}
