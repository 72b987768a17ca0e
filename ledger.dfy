/** The classification rules the handlers use to decide whether a transaction
    is a debt, a payment or neither, one function per rule as each file writes
    it, and the per-customer totals each rule yields. Which rules agree, and
    where they part, is stated as lemmas. */
module Ledger {
  import opened Values
  import opened Records
  import opened Folds

  datatype Kind = Debit | Credit | Ignored

  /** The exact type set of the api handlers and the summary pipelines:
      'debit'/'DEBT' are debts, 'credit'/'PAYMENT' are payments, anything else
      (including 'debt', 'payment' and a missing type) is ignored. */
  function ExactKind(tag: string): Kind
  {
    if tag == "debit" || tag == "DEBT" then Debit
    else if tag == "credit" || tag == "PAYMENT" then Credit
    else Ignored
  }

  /** The lower-cased rule of the express customer detail:
      `(type || '').toLowerCase()` in {debit, debt} or {credit, payment}. */
  function LowerKind(tag: string): Kind
  {
    var t := Lower(tag);
    if t == "debit" || t == "debt" then Debit
    else if t == "credit" || t == "payment" then Credit
    else Ignored
  }

  /** `['debt', 'debit', 'DEBT'].includes(type)` */
  predicate DebtTagListed(tag: string)
  {
    tag == "debt" || tag == "debit" || tag == "DEBT"
  }

  /** The sign fallback of the statement and the manager page: a listed debt
      tag, or a negative amount on anything but an exact 'payment'. The rest
      counts as paid. */
  predicate FallbackIsDebt(tag: string, amount: Amount)
  {
    DebtTagListed(tag) || (IsNegative(amount) && tag != "payment")
  }

  /** The owner page's history list: `type === 'debt' || amount < 0`. */
  predicate ScriptShowsDebt(tag: string, amount: Amount)
  {
    tag == "debt" || IsNegative(amount)
  }

  /** `type === 'DEBT' || type === 'debit'`: the api view's label and the SPA's
      history list. */
  predicate DebitLabelled(tag: string)
  {
    tag == "DEBT" || tag == "debit"
  }

  // Per-transaction contributions, `const amount = transaction.amount || 0`.

  function ExactDebt(t: Transaction): int
  {
    if ExactKind(t.kind) == Debit then OrZero(t.amount) else 0
  }

  function ExactPaid(t: Transaction): int
  {
    if ExactKind(t.kind) == Credit then OrZero(t.amount) else 0
  }

  /** `receipts += 1` for every exact debit. */
  function ExactReceipt(t: Transaction): int
  {
    if ExactKind(t.kind) == Debit then 1 else 0
  }

  function LowerDebt(t: Transaction): int
  {
    if LowerKind(t.kind) == Debit then OrZero(t.amount) else 0
  }

  function LowerPaid(t: Transaction): int
  {
    if LowerKind(t.kind) == Credit then OrZero(t.amount) else 0
  }

  /** `Math.abs(t.amount || 0)` added to the debt side ... */
  function FallbackDebt(t: Transaction): int
  {
    if FallbackIsDebt(t.kind, t.amount) then Abs(OrZero(t.amount)) else 0
  }

  /** ... or to the paid side. */
  function FallbackPaid(t: Transaction): int
  {
    if FallbackIsDebt(t.kind, t.amount) then 0 else Abs(OrZero(t.amount))
  }

  function Magnitude(t: Transaction): int
  {
    Abs(OrZero(t.amount))
  }

  // Totals over a sequence of transactions, one pair per rule.

  function ExactTotalDebt(ts: seq<Transaction>): int { SumBy(ts, ExactDebt) }
  function ExactTotalPaid(ts: seq<Transaction>): int { SumBy(ts, ExactPaid) }
  function ExactReceipts(ts: seq<Transaction>): int { SumBy(ts, ExactReceipt) }
  function LowerTotalDebt(ts: seq<Transaction>): int { SumBy(ts, LowerDebt) }
  function LowerTotalPaid(ts: seq<Transaction>): int { SumBy(ts, LowerPaid) }
  function FallbackTotalDebt(ts: seq<Transaction>): int { SumBy(ts, FallbackDebt) }
  function FallbackTotalPaid(ts: seq<Transaction>): int { SumBy(ts, FallbackPaid) }

  predicate AllWritten(ts: seq<Transaction>)
  {
    forall i :: 0 <= i < |ts| ==> WrittenRecord(ts[i])
  }

  lemma LowerOfLowercase(s: string)
    requires forall i :: 0 <= i < |s| ==> !('A' <= s[i] <= 'Z')
    ensures Lower(s) == s
  {
  }

  /** On the records the write paths produce, the exact, the lower-cased and
      the sign-fallback rules classify alike. */
  lemma WrittenRecordRulesAgree(t: Transaction)
    requires WrittenRecord(t)
    ensures ExactKind(t.kind) != Ignored
    ensures LowerKind(t.kind) == ExactKind(t.kind)
    ensures FallbackIsDebt(t.kind, t.amount) <==> ExactKind(t.kind) == Debit
    ensures DebitLabelled(t.kind) <==> ExactKind(t.kind) == Debit
    ensures ExactDebt(t) == LowerDebt(t) == FallbackDebt(t)
    ensures ExactPaid(t) == LowerPaid(t) == FallbackPaid(t)
  {
    LowerOfLowercase(t.kind);
  }

  /** Every server-side rule computes the same totals over written records. */
  lemma {:induction false} ServerTotalsAgree(ts: seq<Transaction>)
    requires AllWritten(ts)
    ensures ExactTotalDebt(ts) == LowerTotalDebt(ts) == FallbackTotalDebt(ts)
    ensures ExactTotalPaid(ts) == LowerTotalPaid(ts) == FallbackTotalPaid(ts)
  {
    forall i | 0 <= i < |ts|
      ensures ExactDebt(ts[i]) == LowerDebt(ts[i]) == FallbackDebt(ts[i])
      ensures ExactPaid(ts[i]) == LowerPaid(ts[i]) == FallbackPaid(ts[i])
    {
      WrittenRecordRulesAgree(ts[i]);
    }
    SumByPointwise(ts, ExactDebt, LowerDebt);
    SumByPointwise(ts, LowerDebt, FallbackDebt);
    SumByPointwise(ts, ExactPaid, LowerPaid);
    SumByPointwise(ts, LowerPaid, FallbackPaid);
  }

  /** The lower-cased rule accepts every tag the exact rule accepts, the same way. */
  lemma LowerExtendsExact(tag: string)
    requires ExactKind(tag) != Ignored
    ensures LowerKind(tag) == ExactKind(tag)
  {
    if tag == "debit" {
      LowerEq("debit", "debit");
    } else if tag == "credit" {
      LowerEq("credit", "credit");
    } else if tag == "DEBT" {
      LowerEq("DEBT", "debt");
    } else {
      LowerEq("PAYMENT", "payment");
    }
  }

  /** The lower-cased rule does not care about letter case. */
  lemma LowerIgnoresCase(tag: string)
    ensures LowerKind(Lower(tag)) == LowerKind(tag)
  {
    LowerIdempotent(tag);
  }

  /** The exact rule ignores the lower-case legacy tags the other rules accept. */
  lemma LegacyTagsDiverge()
    ensures ExactKind("debt") == Ignored && LowerKind("debt") == Debit && DebtTagListed("debt")
    ensures ExactKind("payment") == Ignored && LowerKind("payment") == Credit
    ensures ExactKind("Debit") == Ignored && LowerKind("Debit") == Debit
  {
    LowerEq("debt", "debt");
    LowerEq("payment", "payment");
    LowerEq("Debit", "debit");
  }

  /** 'Debit' is summed as a debt by the lower-cased totals, while the express
      view's label list does not contain it, so that view shows it as 'credit'. */
  lemma CapitalisedDebitSummedButNotLabelled(t: Transaction)
    requires t.kind == "Debit"
    ensures LowerKind(t.kind) == Debit && LowerDebt(t) == OrZero(t.amount)
    ensures !DebtTagListed(t.kind)
  {
    LowerEq("Debit", "debit");
  }

  /** Under the sign fallback even an upper-case 'PAYMENT' with a negative
      amount is a debt: only the exact tag 'payment' is exempted. */
  lemma NegativeUpperPaymentIsDebt(v: int)
    requires v < 0
    ensures FallbackIsDebt("PAYMENT", Num(v)) && !FallbackIsDebt("payment", Num(v))
    ensures ExactKind("PAYMENT") == Credit
  {
  }

  /** The sign fallback puts every unknown tag with a non-negative amount on the
      paid side, where the exact rule ignores it. */
  lemma UnknownTagCountsAsPaid(t: Transaction)
    requires ExactKind(t.kind) == Ignored && !DebtTagListed(t.kind) && !IsNegative(t.amount)
    ensures FallbackPaid(t) == OrZero(t.amount) && FallbackDebt(t) == 0
    ensures ExactPaid(t) == 0 && ExactDebt(t) == 0
  {
  }

  /** Both sign-fallback totals are sums of magnitudes, hence never negative,
      and together they account for the magnitude of every transaction. */
  lemma {:induction false} FallbackTotalsPartition(ts: seq<Transaction>)
    ensures FallbackTotalDebt(ts) >= 0 && FallbackTotalPaid(ts) >= 0
    ensures FallbackTotalDebt(ts) + FallbackTotalPaid(ts) == SumBy(ts, Magnitude)
  {
    if ts != [] {
      FallbackTotalsPartition(ts[..|ts| - 1]);
    }
  }

  /** A transaction the exact rule ignores can be inserted anywhere without
      moving either exact total or the receipt count. */
  lemma ExactTotalsSkipIgnored(a: seq<Transaction>, t: Transaction, b: seq<Transaction>)
    requires ExactKind(t.kind) == Ignored
    ensures ExactTotalDebt(a + [t] + b) == ExactTotalDebt(a + b)
    ensures ExactTotalPaid(a + [t] + b) == ExactTotalPaid(a + b)
    ensures ExactReceipts(a + [t] + b) == ExactReceipts(a + b)
  {
    SumByAppend(a + [t], b, ExactDebt);
    SumByAppend(a, [t], ExactDebt);
    SumByAppend(a, b, ExactDebt);
    SumBySingle(t, ExactDebt);
    SumByAppend(a + [t], b, ExactPaid);
    SumByAppend(a, [t], ExactPaid);
    SumByAppend(a, b, ExactPaid);
    SumBySingle(t, ExactPaid);
    SumByAppend(a + [t], b, ExactReceipt);
    SumByAppend(a, [t], ExactReceipt);
    SumByAppend(a, b, ExactReceipt);
    SumBySingle(t, ExactReceipt);
  }

  /** Receipts count exact debits only, so there are never more than transactions. */
  lemma {:induction false} ReceiptsBounded(ts: seq<Transaction>)
    ensures 0 <= ExactReceipts(ts) <= |ts|
  {
    if ts != [] {
      ReceiptsBounded(ts[..|ts| - 1]);
    }
  }

  /** The totals of every rule do not depend on the order the rows arrive in. */
  lemma TotalsOrderInvariant(a: seq<Transaction>, b: seq<Transaction>)
    requires multiset(a) == multiset(b)
    ensures ExactTotalDebt(a) == ExactTotalDebt(b) && ExactTotalPaid(a) == ExactTotalPaid(b)
    ensures ExactReceipts(a) == ExactReceipts(b)
    ensures LowerTotalDebt(a) == LowerTotalDebt(b) && LowerTotalPaid(a) == LowerTotalPaid(b)
    ensures FallbackTotalDebt(a) == FallbackTotalDebt(b) && FallbackTotalPaid(a) == FallbackTotalPaid(b)
  {
    SumByPermutation(a, b, ExactDebt);
    SumByPermutation(a, b, ExactPaid);
    SumByPermutation(a, b, ExactReceipt);
    SumByPermutation(a, b, LowerDebt);
    SumByPermutation(a, b, LowerPaid);
    SumByPermutation(a, b, FallbackDebt);
    SumByPermutation(a, b, FallbackPaid);
  }
}
