/** The account statement (`GET /api/generateStatement?id=`): the id checks,
    the fetch of the customer's ObjectId-form rows oldest first, the
    sign-fallback totals, the table rows drawn from the same rule, and the
    texts the standard Helvetica font cannot draw. The PDF layout itself is
    not modelled; only what the statement states is. */
module Statement {
  import opened Values
  import opened Records
  import opened Folds
  import opened Ledger

  /** One table line: date, DEBT or PAYMENT, `Math.abs(amount || 0)`, and the
      drawn note as UTF-16 code units. */
  datatype StatementRow = StatementRow(date: int, isDebt: bool, amount: nat, note: seq<CodeUnit>)

  datatype StatementDoc = StatementDoc(
    customerId: string,
    rows: seq<StatementRow>,
    totalDebt: int,
    totalPaid: int,
    balance: int)

  /** `noteStr.length > 30 ? noteStr.substring(0, 27) + '...' : noteStr`:
      the length and the cut count UTF-16 code units, so a cut may keep only
      the first half of a surrogate pair. */
  function TruncateNote(note: string): (r: seq<CodeUnit>)
    ensures |r| <= 30
    ensures |Utf16(note)| <= 30 ==> r == Utf16(note)
    ensures |Utf16(note)| > 30 ==> |r| == 30 && r[..27] == Utf16(note)[..27] && r[27..] == Utf16("...")
  {
    var units := Utf16(note);
    if |units| > 30 then units[..27] + Utf16("...") else units
  }

  /** Twenty-nine characters below U+10000 and one beyond are 31 code units
      long, so the note is cut to its first 27 characters although it has
      only 30. */
  lemma LengthCountsCodeUnits(note: string)
    requires |note| == 30 && note[29] as int >= 0x1_0000
    requires forall i :: 0 <= i < 29 ==> note[i] as int < 0x1_0000
    ensures |Utf16(note)| == 31 && TruncateNote(note) == Utf16(note[..27]) + Utf16("...")
  {
    var init := note[..29];
    assert note == init + [note[29]];
    Utf16Append(init, [note[29]]);
    assert Utf16([note[29]]) == UnitsOf(note[29]);
    Utf16Bmp(init);
    Utf16Bmp(note[..27]);
    assert Utf16(note)[..27] == Utf16(note[..27]);
  }

  /** The code units Helvetica's WinAnsi encoding can draw (Annex D of
      ISO 32000-1: printable ASCII, U+00A0 to U+00FF, and the 27 further
      characters of Windows code page 1252), together with the tab and line
      breaks pdf-lib deals with before it encodes. A surrogate is never
      drawable. */
  predicate WinAnsiUnit(u: CodeUnit)
  {
    u == 0x09 || u == 0x0A || u == 0x0D || 0x20 <= u <= 0x7E || 0xA0 <= u <= 0xFF ||
    u == 0x152 || u == 0x153 || u == 0x160 || u == 0x161 || u == 0x178 || u == 0x17D || u == 0x17E ||
    u == 0x192 || u == 0x2C6 || u == 0x2DC || u == 0x2013 || u == 0x2014 || u == 0x2018 || u == 0x2019 ||
    u == 0x201A || u == 0x201C || u == 0x201D || u == 0x201E || u == 0x2020 || u == 0x2021 || u == 0x2022 ||
    u == 0x2026 || u == 0x2030 || u == 0x2039 || u == 0x203A || u == 0x20AC || u == 0x2122
  }

  /** `drawText` with the Helvetica font succeeds: every code unit encodes. */
  predicate Drawable(text: seq<CodeUnit>)
  {
    forall i :: 0 <= i < |text| ==> WinAnsiUnit(text[i])
  }

  /** The two customer lines of the header: `Name: ${customer.name}` and
      `Phone: ${customer.phone || 'N/A'}`. */
  predicate HeaderDrawable(c: Customer)
  {
    Drawable(Utf16("Name: " + c.name)) && Drawable(Utf16("Phone: " + (if c.phone == "" then "N/A" else c.phone)))
  }

  /** Text made of printable ASCII is always drawn. */
  lemma {:induction false} AsciiDrawable(s: string)
    requires forall i :: 0 <= i < |s| ==> ' ' <= s[i] <= '~'
    ensures Drawable(Utf16(s))
  {
    Utf16Bmp(s);
  }

  /** A customer whose name holds an Arabic letter (U+0600 to U+06FF) has no
      drawable header, so the statement fails. */
  lemma ArabicNameNotDrawable(c: Customer, k: nat)
    requires k < |c.name| && 0x600 <= c.name[k] as int < 0x700
    ensures !HeaderDrawable(c)
  {
    var line := "Name: " + c.name;
    var pre, post := line[..6 + k], line[6 + k..];
    assert line == pre + post && post[0] == c.name[k];
    Utf16Append(pre, post);
    assert Utf16(post) == UnitsOf(post[0]) + Utf16(post[1..]);
    var j := |Utf16(pre)|;
    assert Utf16(line)[j] == c.name[k] as int;
    assert !WinAnsiUnit(Utf16(line)[j]);
  }

  /** `.sort({ date: 1, createdAt: 1 })`: `a` may be placed before `b`. */
  predicate OldestFirst(a: Transaction, b: Transaction)
  {
    Before(a.date, b.date) || (a.date == b.date && !Before(b.createdAt, a.createdAt))
  }

  /** A missing timestamp sorts before every present one. */
  predicate Before(x: Option<int>, y: Option<int>)
  {
    (x.None? && y.Some?) || (x.Some? && y.Some? && x.value < y.value)
  }

  lemma OldestFirstTotal()
    ensures Total(OldestFirst)
  {
    forall a: Transaction, b: Transaction ensures OldestFirst(a, b) || OldestFirst(b, a) {
      if a.date == b.date {
        assert !Before(a.createdAt, b.createdAt) || !Before(b.createdAt, a.createdAt);
      }
    }
  }

  /** The rows the statement reads, in the order it reads them. */
  function StatementRows(ts: seq<Transaction>, oid: string): seq<Transaction>
  {
    SortBy(ObjectIdMatches(ts, oid), OldestFirst)
  }

  /** The statement reads only ObjectId-form rows of this customer, oldest first. */
  lemma StatementRowsAreSortedMatches(ts: seq<Transaction>, oid: string)
    ensures SortedBy(StatementRows(ts, oid), OldestFirst)
    ensures multiset(StatementRows(ts, oid)) == multiset(ObjectIdMatches(ts, oid))
    ensures forall t :: t in StatementRows(ts, oid) <==> t in ts && t.customerId == Obj(oid)
  {
    OldestFirstTotal();
    SortBySorted(ObjectIdMatches(ts, oid), OldestFirst);
    SortByMembers(ObjectIdMatches(ts, oid), OldestFirst);
    FilterMembers(ts, (t: Transaction) => MatchesObjectId(t, oid));
  }

  /** `new Date(t.date || t.createdAt)`: with neither present the date is
      invalid and `toISOString` throws. */
  function RowDate(t: Transaction): Option<int>
  {
    if t.date.Some? then t.date else t.createdAt
  }

  /** The table line drawn for a row, or nothing when its date is invalid. */
  function LineOf(t: Transaction): (r: Option<StatementRow>)
    ensures r.None? <==> t.date.None? && t.createdAt.None?
    ensures r.Some? ==> r.value.isDebt == FallbackIsDebt(t.kind, t.amount)
    ensures r.Some? ==> r.value.amount == Magnitude(t) && r.value.note == TruncateNote(t.note)
  {
    match RowDate(t)
    case None => None
    case Some(d) => Some(StatementRow(d, FallbackIsDebt(t.kind, t.amount), Abs(OrZero(t.amount)), TruncateNote(t.note)))
  }

  /** The line's contribution to the debt side. */
  function LineDebt(r: StatementRow): int
  {
    if r.isDebt then r.amount else 0
  }

  /** The line's contribution to the paid side. */
  function LinePaid(r: StatementRow): int
  {
    if r.isDebt then 0 else r.amount
  }

  /** The `forEach` that computes the statement totals by the sign-fallback rule. */
  method StatementTotals(rows: seq<Transaction>) returns (totalDebt: int, totalPaid: int)
    ensures totalDebt == FallbackTotalDebt(rows) && totalPaid == FallbackTotalPaid(rows)
    ensures totalDebt >= 0 && totalPaid >= 0
  {
    totalDebt, totalPaid := 0, 0;
    var i := 0;
    while i < |rows|
      invariant 0 <= i <= |rows|
      invariant totalDebt == FallbackTotalDebt(rows[..i]) && totalPaid == FallbackTotalPaid(rows[..i])
    {
      var t := rows[i];
      var isDebt := DebtTagListed(t.kind) || (IsNegative(t.amount) && t.kind != "payment");
      var amount := Abs(OrZero(t.amount));
      if isDebt {
        totalDebt := totalDebt + amount;
      } else {
        totalPaid := totalPaid + amount;
      }
      assert rows[..i + 1][..i] == rows[..i];
      i := i + 1;
    }
    assert rows[..i] == rows;
    FallbackTotalsPartition(rows);
  }

  /** Every row has a valid date and a drawable note. */
  predicate RowsDrawable(rows: seq<Transaction>)
  {
    forall i :: 0 <= i < |rows| ==> LineOf(rows[i]).Some? && Drawable(LineOf(rows[i]).value.note)
  }

  /** The `for (const t of transactions)` loop: one line per row in order, or a
      failure at the first row without a valid date or with a note the font
      cannot draw. */
  method DrawLines(rows: seq<Transaction>) returns (lines: seq<StatementRow>, ok: bool)
    ensures ok <==> RowsDrawable(rows)
    ensures ok ==> |lines| == |rows| && forall i :: 0 <= i < |rows| ==> Some(lines[i]) == LineOf(rows[i])
  {
    lines := [];
    var i := 0;
    while i < |rows|
      invariant 0 <= i <= |rows|
      invariant |lines| == i
      invariant forall j :: 0 <= j < i ==> Some(lines[j]) == LineOf(rows[j]) && Drawable(lines[j].note)
    {
      var line := LineOf(rows[i]);
      if line.None? || !Drawable(line.value.note) {
        return lines, false;
      }
      lines := lines + [line.value];
      i := i + 1;
    }
    ok := true;
  }

  /** The lines state the same totals as the header: every line uses the rule
      the totals use. */
  lemma {:induction false} LinesMatchTotals(rows: seq<Transaction>, lines: seq<StatementRow>)
    requires |lines| == |rows| && forall i :: 0 <= i < |rows| ==> Some(lines[i]) == LineOf(rows[i])
    ensures SumBy(lines, LineDebt) == FallbackTotalDebt(rows)
    ensures SumBy(lines, LinePaid) == FallbackTotalPaid(rows)
  {
    if rows != [] {
      var n := |rows| - 1;
      assert forall i :: 0 <= i < n ==> rows[..n][i] == rows[i] && lines[..n][i] == lines[i];
      LinesMatchTotals(rows[..n], lines[..n]);
    }
  }

  /** The handler. */
  method GenerateStatement(id: string, customers: seq<Customer>, ts: seq<Transaction>)
    returns (r: Reply<StatementDoc>)
    ensures id == "" || ParseObjectId(id).None? ==> r == Fail(400, "Invalid customer ID")
    ensures ParseObjectId(id).Some? && FindCustomer(customers, ParseObjectId(id).value).None?
            ==> r == Fail(404, "Customer not found")
    ensures ParseObjectId(id).Some? && FindCustomer(customers, ParseObjectId(id).value).Some?
            ==> var rows := StatementRows(ts, ParseObjectId(id).value);
                var c := FindCustomer(customers, ParseObjectId(id).value).value;
                (!(HeaderDrawable(c) && RowsDrawable(rows)) ==> r == Fail(500, "Failed to generate PDF")) &&
                (HeaderDrawable(c) && RowsDrawable(rows) ==>
                   r.Ok? && r.value.customerId == ParseObjectId(id).value &&
                   r.value.totalDebt == FallbackTotalDebt(ObjectIdMatches(ts, ParseObjectId(id).value)) &&
                   r.value.totalPaid == FallbackTotalPaid(ObjectIdMatches(ts, ParseObjectId(id).value)) &&
                   r.value.balance == r.value.totalDebt - r.value.totalPaid &&
                   |r.value.rows| == |rows| &&
                   forall i :: 0 <= i < |rows| ==> Some(r.value.rows[i]) == LineOf(rows[i]))
  {
    if id == "" {
      return Fail(400, "Invalid customer ID");
    }
    var parsed := ParseObjectId(id);
    if parsed.None? {
      return Fail(400, "Invalid customer ID");
    }
    var oid := parsed.value;
    var found := FindCustomer(customers, oid);
    if found.None? {
      return Fail(404, "Customer not found");
    }
    var rows := StatementRows(ts, oid);
    var totalDebt, totalPaid := StatementTotals(rows);
    TotalsOrderInvariant(rows, ObjectIdMatches(ts, oid));
    var balance := totalDebt - totalPaid;
    if !HeaderDrawable(found.value) {
      return Fail(500, "Failed to generate PDF");
    }
    var lines, ok := DrawLines(rows);
    if !ok {
      return Fail(500, "Failed to generate PDF");
    }
    r := Ok(StatementDoc(oid, lines, totalDebt, totalPaid, balance));
  }

  /** On written records the statement's totals are the exact-rule totals of
      the same rows. */
  lemma StatementAgreesOnWrittenRecords(ts: seq<Transaction>, oid: string)
    requires AllWritten(ts)
    ensures FallbackTotalDebt(ObjectIdMatches(ts, oid)) == ExactTotalDebt(ObjectIdMatches(ts, oid))
    ensures FallbackTotalPaid(ObjectIdMatches(ts, oid)) == ExactTotalPaid(ObjectIdMatches(ts, oid))
  {
    var rows := ObjectIdMatches(ts, oid);
    forall i | 0 <= i < |rows| ensures WrittenRecord(rows[i]) {
      assert rows[i] in ts;
    }
    ServerTotalsAgree(rows);
  }
}
