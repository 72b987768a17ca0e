/** The two stored collections (`customers`, `transactions`), the handlers'
    replies, and the different ways the handlers match a transaction's stored
    `customerId` against a customer. */
module Records {
  import opened Values
  import opened Folds

  /** A stored `customerId`: absent or null, a plain string, or an ObjectId
      (held as its hex string). Legacy rows use either form. */
  datatype CustomerRef = NoRef | Str(text: string) | Obj(hex: string)

  /** A document of the `customers` collection; `id` is the hex of its `_id`.
      A missing name, phone or note reads as "" everywhere it is used. */
  datatype Customer = Customer(
    id: string,
    name: string,
    phone: string,
    note: string,
    createdAt: Option<int>,
    updatedAt: Option<int>)

  /** A document of the `transactions` collection; `id` is the hex of its `_id`.
      A missing `type` reads as "" everywhere it is used, and so does a missing note. */
  datatype Transaction = Transaction(
    id: string,
    customerId: CustomerRef,
    kind: string,
    amount: Amount,
    note: string,
    invoiceImageUrl: Option<string>,
    invoiceUrl: Option<string>,
    date: Option<int>,
    createdAt: Option<int>)

  /** What a handler answers: 200 to an OPTIONS preflight, an error status with
      its message, or 200 with a payload. */
  datatype Reply<+T> = Preflight | Fail(status: nat, error: string) | Ok(value: T)

  /** `find({ customerId: customerId })`: the stored value must be that very string. */
  predicate MatchesString(t: Transaction, q: string)
  {
    t.customerId == Str(q)
  }

  /** `find({ customerId: { $in: [customerId, objectId] } })`: either form matches. */
  predicate MatchesEither(t: Transaction, q: string, oid: string)
  {
    t.customerId == Str(q) || t.customerId == Obj(oid)
  }

  /** `find({ customerId: new ObjectId(id) })`: only the ObjectId form matches. */
  predicate MatchesObjectId(t: Transaction, oid: string)
  {
    t.customerId == Obj(oid)
  }

  /** The rows `find({ customerId: customerId })` returns, in stored order. */
  function StringMatches(ts: seq<Transaction>, q: string): seq<Transaction>
  {
    Filter(ts, (t: Transaction) => MatchesString(t, q))
  }

  /** The rows `find({ customerId: { $in: [customerId, objectId] } })` returns. */
  function DualMatches(ts: seq<Transaction>, q: string, oid: string): seq<Transaction>
  {
    Filter(ts, (t: Transaction) => MatchesEither(t, q, oid))
  }

  /** The rows `find({ customerId: new ObjectId(id) })` returns. */
  function ObjectIdMatches(ts: seq<Transaction>, oid: string): seq<Transaction>
  {
    Filter(ts, (t: Transaction) => MatchesObjectId(t, oid))
  }

  /** The two stored forms never overlap, so the dual-form fetch is the
      string-form fetch plus the ObjectId-form fetch, for any per-row sum. */
  lemma {:induction false} DualFetchSplits(ts: seq<Transaction>, q: string, oid: string, f: Transaction -> int)
    ensures SumBy(DualMatches(ts, q, oid), f)
         == SumBy(StringMatches(ts, q), f) + SumBy(ObjectIdMatches(ts, oid), f)
  {
    if ts != [] {
      var init := ts[..|ts| - 1];
      var t := ts[|ts| - 1];
      DualFetchSplits(init, q, oid, f);
      if MatchesString(t, q) {
        SumByAppend(StringMatches(init, q), [t], f);
        SumByAppend(DualMatches(init, q, oid), [t], f);
      } else if MatchesObjectId(t, oid) {
        SumByAppend(ObjectIdMatches(init, oid), [t], f);
        SumByAppend(DualMatches(init, q, oid), [t], f);
      }
    }
  }

  /** JavaScript truthiness of a stored `customerId`. */
  predicate RefTruthy(r: CustomerRef)
  {
    match r
    case NoRef => false
    case Str(s) => s != ""
    case Obj(_) => true
  }

  /** The property name `customerStats[customerId]` uses: the stringified id,
      or nothing for a falsy id (`if (!customerId) return;`). */
  function StatsKey(r: CustomerRef): (k: Option<string>)
    ensures k.Some? <==> RefTruthy(r)
  {
    match r
    case NoRef => None
    case Str(s) => if s == "" then None else Some(s)
    case Obj(h) => Some(h)
  }

  /** Keying by the stringified id merges the two stored forms: for a canonical
      customer id, a row falls under that customer's key exactly when the
      dual-form query would fetch it. */
  lemma StatsKeyIsDualMatch(t: Transaction, oid: string)
    requires IsCanonicalId(oid)
    ensures StatsKey(t.customerId) == Some(oid) <==> MatchesEither(t, oid, oid)
  {
    assert |oid| == 24;
  }

  /** Both single-form queries fetch a subset of the dual-form query. */
  lemma SingleFormsWithinDual(t: Transaction, q: string, oid: string)
    ensures MatchesString(t, q) ==> MatchesEither(t, q, oid)
    ensures MatchesObjectId(t, oid) ==> MatchesEither(t, q, oid)
    ensures MatchesEither(t, q, oid) ==> MatchesString(t, q) || MatchesObjectId(t, oid)
  {
  }

  /** `findOne({ _id: objectId })` on customers: the first document with that id. */
  function FindCustomer(cs: seq<Customer>, oid: string): (r: Option<Customer>)
    ensures r.Some? ==> r.value in cs && r.value.id == oid
    ensures r.None? ==> forall i :: 0 <= i < |cs| ==> cs[i].id != oid
  {
    if cs == [] then None
    else if cs[0].id == oid then Some(cs[0])
    else FindCustomer(cs[1..], oid)
  }

  /** The `_id` of a customer and of a transaction. */
  function CustomerKey(c: Customer): string { c.id }

  function TransactionKey(t: Transaction): string { t.id }

  /** The index of the first document whose `_id` (`key`) is `oid`, if any:
      where `findOne({ _id })` finds the document its update or delete acts on. */
  function IndexOfId<T>(s: seq<T>, key: T -> string, oid: string): (r: Option<nat>)
    ensures r.Some? ==> (r.value < |s| && key(s[r.value]) == oid &&
                         forall i :: 0 <= i < r.value ==> key(s[i]) != oid)
    ensures r.None? ==> forall i :: 0 <= i < |s| ==> key(s[i]) != oid
  {
    if s == [] then None
    else if key(s[0]) == oid then Some(0)
    else
      match IndexOfId(s[1..], key, oid)
      case None => None
      case Some(k) => Some(k + 1)
  }

  /** The shape every write path produces: type 'debit' or 'credit' and a
      positive amount. */
  predicate WrittenRecord(t: Transaction)
  {
    (t.kind == "debit" || t.kind == "credit") && t.amount.Num? && t.amount.cents > 0
  }
}
