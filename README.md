# Debt ledger model

A Dafny model of a small shop's debt ledger. Customers are stored in one
collection and their transactions in another. Every transaction is a debt
(`'debit'`) or a payment (`'credit'`) of a positive amount, and refers to its
customer by id. The same ledger is served twice:

- by a set of serverless handlers (`api/*.js`);
- by an Express back end (`backend/routes/*.js`).

Four browser pages read and write it:

- the single-page app `js/app.js`;
- the owner page `frontend/script.js`;
- the read-only manager page `frontend/manager.js`;
- the older `script.js`.

The model has three parts.

- **Read side.** Each route folds a customer's transactions into
  `totalDebt`, `totalPaid`, `balance` and `receipts`, and the summary counts
  debtors across all groups. Each file's classification rule is its own
  predicate in `Ledger`:
  - exact type set;
  - lower-cased type set;
  - the statement's sign fallback;
  - the owner page's rule;
  - the app's label rule.

  Each file's customer-id match is its own function in `Records`:
  - string form only;
  - string or ObjectId form;
  - ObjectId form only;
  - raw stored value;
  - stringified value.

  Lemmas prove that the server rules agree on every record the write paths
  produce. Other lemmas state the inputs on which the rules part.
- **Write side.** An in-memory `Store` class holds the two collections. Each
  handler is a method:
  - it runs the source's checks in the source's order;
  - it returns the status (`400`, `404`, `405` or `200`);
  - it changes the store only on success.

  Each handler is specified by an outcome predicate over the old
  collections, the arguments, the reply and the new collections. Lemmas over
  those predicates prove:
  - nothing changes on an error;
  - exactly one document is appended;
  - a payment lowers the balance by its amount;
  - the cascade delete removes the string-id rows and keeps everything else.
- **Pages.** The pages' own logic is modelled as functions and small state
  classes:
  - sorting, searching and summing balances;
  - the close-balance guard and the form checks;
  - the history rendering;
  - the pending-delete selection.

Modules:

- `Values`: JSON values, amounts, strings, and ObjectId parsing.
- `Folds`: sums, filters, a stable sort, and remove-at-index over sequences.
- `Records`: stored documents and the id-matching rules.
- `Ledger`: the classification rules and their totals.
- `Summary`: the two summary routes.
- `CustomerDetail`: the two detail routes.
- `CustomerList`: the two list routes.
- `Statement`: the statement totals and lines.
- `Store`: the write handlers.
- `Client`: what all pages share.
- `AppClient`: `js/app.js`.
- `OwnerPage`: `frontend/script.js`.
- `ManagerPage`: `frontend/manager.js`.
- `LegacyScript`: `script.js`.

### Choices the modelling makes

- Amounts are integer cents. `toFixed(2)` is the identity on them.
- A missing `type`, `note`, `name` or `phone` behaves like `""` in every rule
  of the source, so the model uses `""` for it.
- Request fields whose JavaScript type is checked (`name`, `amount`) are a
  small JSON value type.
- An ObjectId string is 24 hexadecimal digits. Parsing one yields its
  lower-case spelling.
- The database's `.sort()` and the pages' `Array.prototype.sort` are one
  stable insertion sort.
- `localeCompare` is lexicographic order by Unicode scalar value. The lemmas about the
  pages' sorts use only that it is a total order under which distinct
  strings do not tie.
- Dates are integer timestamps.
- The id a database insert generates, and the current time, are method
  parameters.

### Behaviour worth knowing

- The statement's sign fallback treats a negative entry as a debt for every
  type except the exact string `'payment'`, so a negative `'PAYMENT'` is
  counted as a debt (`Ledger.NegativeUpperPaymentIsDebt`).
- The serverless summary groups debtors by the raw stored `customerId`. A
  customer with both string-form and ObjectId-form rows is counted as two
  groups (`Summary.MixedIdFormsSplitGroups`).
- The serverless detail route fetches only string-form rows. The express
  route also fetches ObjectId-form rows, so the two totals differ on such
  data (`CustomerDetail.BackendTotalsAddObjectIdRows`).
- The express detail route sums `'Debit'` as a debt, but its view labels
  that row as a credit (`Ledger.CapitalisedDebitSummedButNotLabelled`).
- The write paths accept an upper-case hexadecimal id and store it as
  written. The reads look the customer up by the parsed, lower-case
  spelling, so the new row is not found by a string-form match
  (`Store.NonCanonicalSpellingOrphansRow`).
- On the manager page an empty query keeps only customers with a name or a
  phone, while the other pages keep everyone
  (`ManagerPage.EmptyQueryKeepsNamedOrPhoned`).
- The statement answers 500 for a customer whose name or phone, or for a
  row whose drawn note, holds a character the standard Helvetica font
  cannot encode, such as an Arabic letter
  (`Statement.ArabicNameNotDrawable`). Its note cut counts UTF-16 code
  units, so 29 letters and one emoji are cut
  (`Statement.LengthCountsCodeUnits`).
- The single-page app lower-cases names before comparing them, so two names
  that differ only in case tie and keep their input order; the owner page
  compares the names as written, so one of the two always goes first
  (`OwnerPage.CaseOnlyNamesDiverge`).

## Model

| member | source | states |
|---|---|---|
| Values.ParseObjectId | api/getCustomer.js:64-71 | an id parses exactly when it is 24 hexadecimal digits; the parse is its lower-case spelling, of length 24 |
| Values.ParseCanonical | api/getCustomer.js:64-76 | a parsed id is canonical: it is its own parse |
| Values.TrimEmptyIffAllSpaces | api/addCustomer.js:49 | `trim()` yields "" exactly when every character is white space |
| Values.LowerIdempotent | backend/routes/getCustomer.js:83 | lower-casing twice is lower-casing once |
| Values.ContainsIffOccurs | js/app.js:552 | `includes` holds exactly when the needle occurs at some index |
| Values.StrLeTotal | js/app.js:515 | the string order used for `localeCompare` relates any two strings one way or the other |
| Values.StrLeTransitive | js/app.js:512-516 | that order is transitive |
| Values.UnitsOf | backend/routes/generateStatement.js:94 | a character below U+10000 is one code unit of its own value; one beyond is a high and a low surrogate that decode back to it |
| Values.Utf16 | backend/routes/generateStatement.js:94 | the code units of a string, character by character (properties in Values.Utf16Append, Values.Utf16Bmp, Values.Utf16Longer) |
| Values.Utf16Append | backend/routes/generateStatement.js:94 | the UTF-16 form of a concatenation is the concatenation of the forms |
| Values.Utf16Bmp | backend/routes/generateStatement.js:94 | without characters beyond U+FFFF, the UTF-16 form has one unit per character, equal to it |
| Values.Utf16Longer | backend/routes/generateStatement.js:94 | the UTF-16 form is never shorter than the string, and longer when a character lies beyond U+FFFF |
| Values.Abs | backend/routes/generateStatement.js:31 | `Math.abs` is non-negative and equals the value or its negation |
| Values.OrZero | api/getCustomer.js:120 | `amount \|\| 0` is the amount when present, 0 when missing |
| Values.Trim | api/addCustomer.js:64 | the trimmed string is a slice of the input with only white space cut from either end, and it starts and ends with a character that is not white space |
| Values.Lower | backend/routes/getCustomer.js:83 | lower-casing keeps the length and maps each character on its own |
| Records.DualFetchSplits | backend/routes/getCustomer.js:58-63 | the string-or-ObjectId fetch is exactly the string-form rows plus the ObjectId-form rows |
| Records.SingleFormsWithinDual | backend/routes/getCustomer.js:60 | every row a single-form match finds, the dual match finds too |
| Records.MatchesString | api/getCustomer.js:90 | the serverless fetch matches a row only when its stored reference is that very string (properties in Records.SingleFormsWithinDual) |
| Records.MatchesEither | backend/routes/getCustomer.js:58-60 | the express fetch matches the string form or the ObjectId form (properties in Records.SingleFormsWithinDual, Records.StatsKeyIsDualMatch) |
| Records.MatchesObjectId | backend/routes/generateStatement.js:22 | the statement fetch matches only the ObjectId form (properties in Records.SingleFormsWithinDual) |
| Records.StatsKey | api/getCustomers.js:71-72 | a customer reference has a key exactly when it is truthy |
| Records.StatsKeyIsDualMatch | api/getCustomers.js:75-76 | keying by the stringified reference selects exactly a customer's string-or-ObjectId rows |
| Records.FindCustomer | api/getCustomer.js:75-84 | the lookup finds a customer with that id, or none exists |
| Records.IndexOfId | api/deleteTransaction.js:84-96 | the index found holds the first document with that id; no index means no document has it |
| Ledger.ExactKind | api/getCustomer.js:122-128 | 'debit' and 'DEBT' are debts, 'credit' and 'PAYMENT' payments, every other type ignored (properties in Ledger.LowerExtendsExact, Ledger.LegacyTagsDiverge, Ledger.WrittenRecordRulesAgree) |
| Ledger.LowerKind | backend/routes/getCustomer.js:82-91 | the lower-cased type decides: 'debit'/'debt' debts, 'credit'/'payment' payments (properties in Ledger.LowerIgnoresCase, Ledger.LowerExtendsExact) |
| Ledger.DebtTagListed | backend/routes/generateStatement.js:30 | membership of the type in ['debt', 'debit', 'DEBT'] (properties in Ledger.CapitalisedDebitSummedButNotLabelled) |
| Ledger.FallbackIsDebt | backend/routes/generateStatement.js:30 | a listed debt type, or a negative amount on any type but an exact 'payment' (properties in Ledger.NegativeUpperPaymentIsDebt, Ledger.WrittenRecordRulesAgree) |
| Ledger.ScriptShowsDebt | frontend/script.js:659 | the owner page's test: type exactly 'debt' or a negative amount (properties in OwnerPage.RecordedDebtDrawnAsPayment) |
| Ledger.DebitLabelled | api/getCustomer.js:100-102 | the label test: type exactly 'DEBT' or 'debit' (properties in CustomerDetail.ApiViewMatchesExactRule, Ledger.WrittenRecordRulesAgree) |
| Ledger.WrittenRecordRulesAgree | api/getCustomer.js:120-130 | on a record the write paths produce, the exact, lower-cased and sign-fallback rules classify alike, and each counts a 'debit' as debt and a 'credit' as paid |
| Ledger.ServerTotalsAgree | backend/routes/getCustomer.js:78-93 | over such records the three routes' debt and paid totals are equal |
| Ledger.LowerExtendsExact | backend/routes/getCustomer.js:83-91 | every type the exact rule counts, the lower-cased rule counts on the same side |
| Ledger.LowerIgnoresCase | backend/routes/getCustomer.js:83 | the lower-cased rule does not see the case of the type |
| Ledger.LegacyTagsDiverge | api/getCustomer.js:123-127 | 'debt' and 'payment' are ignored by the exact rule and counted by the lower-cased rule |
| Ledger.CapitalisedDebitSummedButNotLabelled | backend/routes/getCustomer.js:69 | 'Debit' is summed as a debt by the totals, but the view's label rule calls it a credit |
| Ledger.NegativeUpperPaymentIsDebt | backend/routes/generateStatement.js:30 | a negative 'PAYMENT' is a debt under the sign fallback, while an exact 'payment' never is |
| Ledger.UnknownTagCountsAsPaid | backend/routes/generateStatement.js:30-33 | an unknown type with a non-negative amount adds its amount to the paid total and nothing to the debt total |
| Ledger.FallbackTotalsPartition | backend/routes/generateStatement.js:27-34 | the statement's debt and paid totals are non-negative and add up to the sum of all absolute amounts |
| Ledger.ExactTotalsSkipIgnored | api/getSummary.js:68-85 | under the exact rule, appending a row of any other type changes neither total |
| Ledger.ReceiptsBounded | api/getCustomers.js:86-89 | the receipt count never exceeds the number of rows |
| Ledger.TotalsOrderInvariant | api/getCustomer.js:116-130 | every total depends only on which rows there are, not on their order |
| Summary.PipelinesAreExactFolds | api/getSummary.js:68-115 | the `$match`/`$group` pipelines compute the exact-rule totals, 0 for no rows |
| Summary.GroupKeys | api/getSummary.js:135-136 | the group keys are distinct and are exactly the stored references |
| Summary.DebtorsCountPositiveGroups | api/getSummary.js:132-173 | the debtor count is the number of distinct stored references whose group balance is strictly positive |
| Summary.Debtors | api/getSummary.js:132-173 | the stored references, each once, whose group balance is positive (properties in Summary.DebtorsCountPositiveGroups, Summary.SettledGroupNotDebtor) |
| Summary.SettledGroupNotDebtor | api/getSummary.js:164-168 | a group whose balance is 0 is not counted |
| Summary.GroupsPartitionSum | api/getSummary.js:135-155 | summing any per-row amount group by group gives its sum over all rows |
| Summary.GroupTotalsAddUp | api/getSummary.js:137-154 | the per-group debt and paid sums add up to the global totals |
| Summary.ComputeSummary | backend/routes/getSummary.js:17-127 | the customer count, the exact-rule totals, outstanding = debt - paid, and the positive-group debtor count |
| Summary.ApiGetSummary | api/getSummary.js:35-186 | a preflight for OPTIONS; 405 for any other non-GET request; for GET exactly the computed summary (exact-rule debt and paid totals, outstanding = debt - paid, the customer count and the debtor count) |
| Summary.MixedIdFormsSplitGroups | api/getSummary.js:135-136 | one customer's string-form and ObjectId-form rows make two groups |
| CustomerDetail.InvoiceLink | api/getCustomer.js:105 | the view's link is `invoiceImageUrl`, else `invoiceUrl`, else null |
| CustomerDetail.ViewDate | api/getCustomer.js:106 | the view's date is `date`, else `createdAt`, else the current time (`new Date()`, a parameter) |
| CustomerDetail.ApiViews | api/getCustomer.js:97-108 | one view per row, in order, typed 'debit' exactly for 'debit'/'DEBT' |
| CustomerDetail.BackendViews | backend/routes/getCustomer.js:66-75 | one view per row, in order, typed 'debit' exactly for 'debit'/'debt'/'DEBT' |
| CustomerDetail.ApiViewMatchesExactRule | api/getCustomer.js:100-103 | the serverless view says 'debit' exactly when the exact rule counts the row as a debt |
| CustomerDetail.BackendLabelSound | backend/routes/getCustomer.js:69 | every row the express view labels 'debit' is summed as a debt, and 'Debit' is summed as a debt but labelled 'credit' |
| CustomerDetail.ApiRowsAreSortedMatches | api/getCustomer.js:89-92 | the fetched rows are the string-form matches, newest first |
| CustomerDetail.BackendRowsAreSortedMatches | backend/routes/getCustomer.js:58-63 | the fetched rows are the dual-form matches, newest first |
| CustomerDetail.AccumulateExactTotals | api/getCustomer.js:116-130 | the `forEach` loop's totals are the exact-rule folds |
| CustomerDetail.AccumulateLowerTotals | backend/routes/getCustomer.js:78-93 | the `forEach` loop's totals are the lower-cased-rule folds |
| CustomerDetail.ApiGetCustomer | api/getCustomer.js:31-147 | 405 for a non-GET request; 400 for a missing or malformed id; 404 for an unknown customer; otherwise the customer, its views, and the totals with balance = debt - paid |
| CustomerDetail.BackendGetCustomer | backend/routes/getCustomer.js:20-109 | the same chain over the dual-form rows with the lower-cased totals |
| CustomerDetail.BackendTotalsAddObjectIdRows | backend/routes/getCustomer.js:58-93 | on written records, the express debt total is the serverless one plus the ObjectId-form rows' debts |
| CustomerDetail.SmokeTestTotals | test/smokeTest.js:171-225 | debts of 120 and 30 with a payment of 50 give 150/50/100; without the 120 debt they give 30/50/-20 |
| CustomerDetail.BackendTestTotals | test/backendTest.js:141-150 | a debt of 50 with a payment of 20 gives 50/20/30 |
| CustomerList.StatsForAppend | api/getCustomers.js:70-94 | adding a row changes only its own key's stats, by that row's contribution |
| CustomerList.StatsStep | api/getCustomers.js:74-93 | one loop step keeps the stats dictionary equal to the fold over the rows seen so far |
| CustomerList.AddToStats | api/getCustomers.js:71-93 | one row updates the dictionary: entry created at zero, debt or paid sum and receipt count raised by the exact rule |
| CustomerList.BuildCustomerStats | api/getCustomers.js:68-94 | the loop's dictionary gives every key the exact-rule totals and receipt count of its rows |
| CustomerList.LookupIsStatsFor | api/getCustomers.js:101-105 | looking a customer up by its string id gives the stats of its string-or-ObjectId rows |
| CustomerList.NoRowsZeroStats | api/getCustomers.js:101-108 | a customer with no rows gets 0/0/0 |
| CustomerList.FalsyRefSkipped | api/getCustomers.js:72 | a row with a falsy customer reference changes no stats |
| CustomerList.PaymentKeepsReceipts | api/getCustomers.js:86-93 | a payment row never raises the receipt count |
| CustomerList.KeyRowsAreDualMatches | backend/routes/getCustomers.js:36-46 | the rows under a customer's key are exactly its dual-form matches |
| CustomerList.ListAgreesWithBackendDetail | backend/routes/getCustomers.js:33-59 | on written records, the list's totals for a customer equal the express detail route's lower-cased totals over its dual-form rows, and its receipts are at most that row count |
| CustomerList.Project | api/getCustomers.js:99-119 | one entry per customer, in list order, each with that customer's id |
| CustomerList.GetCustomers | backend/routes/getCustomers.js:17-85 | one entry per customer, in list order, with its name, phone, the totals and receipts of its rows, and balance = debt - paid |
| CustomerList.ApiGetCustomers | api/getCustomers.js:34-123 | 405 for a non-GET request, otherwise the same list |
| Statement.TruncateNote | backend/routes/generateStatement.js:94 | counted in UTF-16 code units: a note longer than 30 becomes its first 27 code units plus '...'; the result is at most 30 long; shorter notes are unchanged |
| Statement.LengthCountsCodeUnits | backend/routes/generateStatement.js:94 | 29 characters below U+10000 and one beyond (e.g. 29 'a' and U+1F600) are 31 units long, so the note is cut to 27 characters plus '...' |
| Statement.WinAnsiUnit | backend/routes/generateStatement.js:39-40 | the code units Helvetica's WinAnsi encoding draws (properties in Statement.AsciiDrawable, Statement.ArabicNameNotDrawable) |
| Statement.Drawable | backend/routes/generateStatement.js:52-95 | `drawText` succeeds exactly when every code unit of the text encodes |
| Statement.HeaderDrawable | backend/routes/generateStatement.js:52-54 | the name line and the phone line (`phone \|\| 'N/A'`) encode in full (properties in Statement.ArabicNameNotDrawable) |
| Statement.RowsDrawable | backend/routes/generateStatement.js:83-95 | every row has a valid date and a note whose cut form encodes (met exactly by Statement.DrawLines) |
| Statement.AsciiDrawable | backend/routes/generateStatement.js:39-40 | printable ASCII text always encodes |
| Statement.ArabicNameNotDrawable | backend/routes/generateStatement.js:52 | a name holding an Arabic letter makes the header undrawable |
| Statement.StatementRowsAreSortedMatches | backend/routes/generateStatement.js:21-24 | the rows are the ObjectId-form matches, oldest first |
| Statement.LineOf | backend/routes/generateStatement.js:81-94 | a table line for every dated row: the totals' sign-fallback rule, the absolute amount, and the cut note |
| Statement.StatementTotals | backend/routes/generateStatement.js:27-34 | the loop's totals are the sign-fallback folds |
| Statement.DrawLines | backend/routes/generateStatement.js:74-150 | one table line per row, in order; it fails exactly when a row has no date or a note that does not encode |
| Statement.LinesMatchTotals | backend/routes/generateStatement.js:81-84 | the lines' debt and paid columns add up to the statement's totals |
| Statement.GenerateStatement | backend/routes/generateStatement.js:8-175 | 400 for a missing or malformed id; 404 for an unknown customer; 500 when a row has no date or the name, the phone or a drawn note does not encode; otherwise one line per row and the sign-fallback totals with balance = debt - paid |
| Statement.StatementAgreesOnWrittenRecords | backend/routes/generateStatement.js:29-34 | on written records the statement's totals equal the exact-rule totals |
| Store.NameAcceptedIffNotBlank | api/addCustomer.js:49-53 | a name is accepted exactly when it is a string whose trim is non-empty |
| Store.UrlOrNull | api/addDebt.js:108 | `invoiceImageUrl \|\| null` |
| Store.DebtDocument | api/addDebt.js:103-111 | the inserted debt is a 'debit' with the given id string, amount and note, and its link or null |
| Store.PaymentDocument | api/addPayment.js:112-119 | the inserted payment is a 'credit' with the given id string, amount and note, and no link |
| Store.WithoutStringRows | api/deleteCustomer.js:78-80 | the delete-many keeps exactly the rows not stored under that id string |
| Store.TransactionChecks | api/addDebt.js:57-98 | the debt and payment checks pass exactly for a well-formed id, an accepted amount and a known customer; every failure is a 400 or a 404 |
| Store.AddCustomerOutcome | backend/routes/addCustomer.js:22-55 | 400 and no change for a missing or blank name; otherwise one customer appended with the trimmed fields and its id returned (met by Store.Store.AddCustomer) |
| Store.AddDebtOutcome | backend/routes/addDebt.js:23-85 | the check chain, then one debit document appended (met by Store.Store.AddDebt; properties in Store.FailedWritesChangeNothing, Store.DebtRaisesBalance) |
| Store.AddPaymentOutcome | backend/routes/addPayment.js:23-84 | the check chain, then one credit document appended (met by Store.Store.AddPayment; properties in Store.FailedWritesChangeNothing, Store.PaymentLowersBalance) |
| Store.UpdateCustomerOutcome | api/updateCustomer.js:29-100 | the checks in order, then name, phone, note and `updatedAt` set on that customer only (met by Store.Store.ApiUpdateCustomer; properties in Store.UpdateCustomerEffect) |
| Store.DeleteCustomerOutcome | backend/routes/deleteCustomer.js:20-68 | 400/404 with no change; otherwise the string-form rows and then the customer removed (met by Store.Store.DeleteCustomer; properties in Store.DeleteCustomerEffect) |
| Store.DeleteTransactionOutcome | backend/routes/deleteTransaction.js:21-64 | 400/404 with no change; otherwise that one transaction removed (met by Store.Store.DeleteTransaction; properties in Store.DeleteTransactionEffect) |
| Store.Store.AddCustomer | backend/routes/addCustomer.js:22-55 | 400 and no change for a bad name; otherwise exactly one customer appended, name trimmed, phone and note defaulting to "" |
| Store.Store.ApiAddCustomer | api/addCustomer.js:28-80 | 405 for a non-POST request, then the same outcome |
| Store.Store.AddDebt | backend/routes/addDebt.js:23-85 | the check chain; on success exactly one debit document appended and its id returned; nothing else changes |
| Store.Store.ApiAddDebt | api/addDebt.js:34-124 | 405 for a non-POST request, then the same outcome |
| Store.Store.AddPayment | backend/routes/addPayment.js:23-84 | the check chain; on success exactly one credit document appended and its id returned |
| Store.Store.ApiAddPayment | api/addPayment.js:36-133 | 405 for a non-POST request, then the same outcome |
| Store.Store.ApiUpdateCustomer | api/updateCustomer.js:29-100 | checks in order (missing id, malformed id, bad name, unknown customer); on success name, phone and note set on that customer only, transactions untouched, the id echoed |
| Store.Store.DeleteCustomer | backend/routes/deleteCustomer.js:20-68 | 400/404 with no change; on success the string-id rows and then the customer removed |
| Store.Store.ApiDeleteCustomer | api/deleteCustomer.js:32-90 | 405 for a non-POST request, then the same cascade |
| Store.Store.DeleteTransaction | backend/routes/deleteTransaction.js:21-64 | 400/404 with no change; on success exactly that transaction removed |
| Store.Store.ApiDeleteTransaction | api/deleteTransaction.js:36-104 | 405 for a non-POST request, then the same outcome |
| Store.FailedWritesChangeNothing | api/addDebt.js:57-116 | a debt or payment write fails exactly when it leaves the transactions unchanged; a success appends exactly one row with the new id; every failure is a 400 or a 404 |
| Store.PaymentLowersBalance | api/addPayment.js:112-125 | a successful payment lowers the customer's detail balance by exactly its amount |
| Store.DebtRaisesBalance | api/addDebt.js:103-116 | a successful debt raises the customer's detail balance and debt total by exactly its amount |
| Store.DeleteTransactionEffect | api/deleteTransaction.js:84-96 | a successful delete removes exactly that row, and lowers any string-form match's totals by exactly that row's contribution |
| Store.DeletingDebitOf120 | test/smokeTest.js:200-225 | deleting the 120 debit takes totals of 150/50/100 to 30/50/-20 |
| Store.CascadeKeepsOtherRows | api/deleteCustomer.js:78-83 | the cascade keeps every row stored under another id, and the ObjectId-form rows of the deleted customer |
| Store.DeleteCustomerEffect | api/deleteCustomer.js:69-86 | a successful delete removes exactly that customer and exactly the rows stored under its id string |
| Store.UpdateCustomerEffect | api/updateCustomer.js:82-93 | a successful update changes one customer's fields and leaves the ids, the other customers and the transactions as they were |
| Store.NonCanonicalSpellingOrphansRow | api/addDebt.js:64-104 | a debt posted under an upper-case id is stored, yet the detail route's string-form fetch does not find it |
| Client.AcceptedInputPassesServerCheck | js/app.js:760-763 | an amount the forms let through passes the server's amount check |
| Client.SearchResultsMembers | js/app.js:541-553 | an empty term keeps every cached customer; otherwise exactly those whose lower-cased name or phone contains the term |
| Client.SearchResults | js/app.js:541-553 | the customers the app's search keeps, in cached order (properties in Client.SearchResultsMembers) |
| Client.TotalBalance | frontend/script.js:695-697 | the sum of `balance \|\| 0` over the customers (properties in OwnerPage.OwnerPage.UpdateTotalDebt and LegacyScript.GetTotalDebt) |
| Client.ByNewestIsSortedCopy | frontend/manager.js:108-110 | the sorted copy is newest first and a permutation of the entries |
| Client.LineWith | frontend/script.js:660 | a history line shows `Math.abs(amount)` and keeps the date |
| Client.FallbackLineAgreesWithServer | frontend/manager.js:113-114 | on written records the manager's debt rule agrees with the server's totals and picks exactly 'debit' |
| Client.FallbackLineOnViews | frontend/manager.js:113 | on any entry a detail reply carries, the manager's rule shows a debt exactly for 'debit' |
| Client.FallbackLine | frontend/manager.js:113-114 | the manager's history line: the sign-fallback test and the absolute amount (properties in Client.FallbackLineOnViews, Client.FallbackLineAgreesWithServer) |
| Client.Render | frontend/script.js:648-658 | the empty state exactly for no entries, otherwise one line per entry |
| Client.RenderDrawsEveryEntry | frontend/manager.js:101-115 | every entry is drawn, and every drawn line comes from an entry |
| Client.RenderNewestFirst | frontend/script.js:654-656 | the drawn lines are newest first |
| Client.FallbackHistory | frontend/manager.js:101-137 | the history drawn by the sign-fallback rule: empty exactly for no entries, one line per entry, each classified by the fallback rule |
| Client.RecordedEntriesDrawnByKind | frontend/manager.js:113-114 | that history draws a recorded debt as a debt and a recorded payment as a payment, with the recorded amount |
| AppClient.BalanceOf | js/app.js:525 | `balance` when defined, else `totalDebt - totalPaid` |
| AppClient.ComparatorsTotal | js/app.js:510-534 | each of the four comparators relates any two customers one way or the other |
| AppClient.ApplySort | js/app.js:505-537 | the result is a permutation of the input; an unknown order or an empty input is returned unchanged |
| AppClient.ApplySortOrders | js/app.js:523-528 | for a known order the result is sorted by it, e.g. non-increasing balance for balance_desc |
| AppClient.CloseBalanceRequest | js/app.js:710-734 | no payment when the balance is at most 0 or not confirmed; otherwise a payment of exactly the balance |
| AppClient.CloseBalanceSettles | js/app.js:729-737 | when the balance the page holds equals the detail route's balance for that customer, the payment sent brings that balance to 0 |
| AppClient.StripTrailingSlash | js/app.js:15-18 | one trailing '/' is removed; any other URL is kept |
| AppClient.RenderTransactions | js/app.js:439-454 | the empty state exactly for no entries, otherwise one item per entry, in received order |
| AppClient.ItemsFollowDetailLabels | js/app.js:460 | the app's label shows a debt exactly where each detail route's view says 'debit', and on written records exactly for a 'debit' |
| AppClient.ItemOf | js/app.js:452-460 | the app's history item: the label test and the amount of the view (properties in AppClient.ItemsFollowDetailLabels) |
| AppClient.AppState.constructor | js/app.js:69-79 | the initial state: nothing cached, default sort, no pending delete |
| AppClient.AppState.LoadCustomers | js/app.js:574-577 | the cache holds the fetched customers and the shown list is recomputed |
| AppClient.AppState.LoadCustomerDetails | js/app.js:608-628 | a fetched detail becomes `currentCustomerData`, which the close-balance action reads; a failed fetch keeps the old one; the lists, sort, selection and pending delete are unchanged |
| AppClient.AppState.FilterCustomers | js/app.js:540-557 | the shown list is the search results, sorted by the current order |
| AppClient.AppState.ChangeSort | js/app.js:987-991 | the order is set and the shown list is recomputed under it; the cached list, the selected customer, its details and the pending delete are unchanged |
| AppClient.AppState.AddDebt | js/app.js:750-780 | a request exactly when a customer is selected and the amount is a positive number; it carries the trimmed note and the link |
| AppClient.AppState.AddPayment | js/app.js:792-811 | the same checks; the payment carries the trimmed note |
| AppClient.AppState.OpenDeleteTransaction | js/app.js:953-957 | the pending id is set |
| AppClient.AppState.CloseDeleteTransaction | js/app.js:959-963 | the pending id is cleared |
| AppClient.AppState.ConfirmDeleteTransaction | js/app.js:1085-1089 | a delete is sent exactly when an id is pending, and it names that id; on success the pending id is cleared, the current customer's data becomes the reloaded detail (kept when that fetch fails), and the customer list is reloaded and shown unsearched under the current order (js/app.js:823-829); otherwise nothing changes |
| OwnerPage.RecordedDebtDrawnAsPayment | frontend/script.js:659 | a recorded debt, counted as a debt by every server total, is drawn as a payment |
| OwnerPage.AsWrittenHistory | frontend/script.js:648-660 | the owner page's history as written, by its own debt test (properties in OwnerPage.RecordedDebtDrawnAsPayment) |
| OwnerPage.LowerKeepsSpaces | frontend/script.js:736-741 | lower-casing neither creates nor removes white space |
| OwnerPage.SearchAgreesWithApp | frontend/script.js:735-749 | the page's search gives exactly the app's search results |
| OwnerPage.Search | frontend/script.js:735-749 | a blank query keeps everyone; otherwise the lower-cased, trimmed query searched in lower-cased name and phone (properties in OwnerPage.SearchAgreesWithApp) |
| OwnerPage.SortCustomers | frontend/script.js:755-774 | a permutation of the list; an unknown option keeps the original order |
| OwnerPage.SortCustomersOrders | frontend/script.js:758-770 | for a known option the copy is sorted by it |
| OwnerPage.CaseOnlyNamesDiverge | frontend/script.js:760 | 'A' and 'a' tie under the app's lower-cased comparison and a stable sort keeps either input order; the owner page orders the two strictly, so both input orders sort alike |
| OwnerPage.FindById | frontend/script.js:509 | the customer found has that id, or none in the list has it |
| OwnerPage.CloseBalanceRequest | frontend/script.js:507-528 | nothing for an unknown customer, a balance at most 0, or no confirmation; otherwise a payment of the full balance |
| OwnerPage.FormNamePassesServer | frontend/script.js:883-891 | a name the form lets through passes the server's name check |
| OwnerPage.OwnerPage.constructor | frontend/script.js:19-23 | the globals start empty |
| OwnerPage.OwnerPage.UpdateTotalDebt | frontend/script.js:694-710 | the header total is the sum of `balance \|\| 0` over all customers |
| OwnerPage.OwnerPage.LoadCustomers | frontend/script.js:212-216 | the list is stored and the header total recomputed |
| OwnerPage.OwnerPage.PickInvoice | frontend/script.js:118 | the picked file's Drive link is recorded |
| OwnerPage.OwnerPage.SubmitDebt | frontend/script.js:931-955 | a request exactly when a customer is selected and the amount is a positive number; the picked link is sent; on success the customer list is reloaded with its header total (frontend/script.js:351-354) and the link cleared; otherwise nothing changes |
| OwnerPage.OwnerPage.SubmitPayment | frontend/script.js:1029-1045 | the same checks; the payment carries the trimmed note |
| ManagerPage.RowOf | frontend/manager.js:53-61 | the row shows `balance \|\| 0`, in the danger colour exactly when it is above 0, and 'No phone' for an empty phone (a phone of spaces is drawn as it is) |
| ManagerPage.RenderCustomers | frontend/manager.js:47-73 | the empty state exactly for no customers, otherwise one row per customer in order |
| ManagerPage.ManagerFilterMembers | frontend/manager.js:75-82 | the filter keeps exactly the customers whose lower-cased name or raw phone contains the lower-cased query |
| ManagerPage.ManagerFilter | frontend/manager.js:75-82 | the customers whose lower-cased name or raw phone contains the lower-cased query (properties in ManagerPage.ManagerFilterMembers, ManagerPage.EmptyQueryKeepsNamedOrPhoned) |
| ManagerPage.EmptyQueryKeepsNamedOrPhoned | frontend/manager.js:76-80 | an empty query keeps exactly the customers with a name or a phone |
| ManagerPage.PhoneSearchIsCaseSensitive | frontend/manager.js:79 | a phone holding an upper-case letter is not found by that letter |
| ManagerPage.ManagerPage.constructor | frontend/manager.js:8 | nothing loaded: the stored list is empty and nothing is drawn yet |
| ManagerPage.ManagerPage.LoadCustomers | frontend/manager.js:39-40 | the fetched customers are stored and drawn |
| ManagerPage.ManagerPage.FilterCustomers | frontend/manager.js:75-82 | the filtered customers are drawn; the stored list is unchanged |
| LegacyScript.GetTotalDebt | script.js:37-47 | 0 for no customers, otherwise the sum of `balance \|\| 0` |
| LegacyScript.GetTotalDebtOrderFree | script.js:42-46 | the total does not depend on the order of the customers |
| LegacyScript.GetTotalDebtAppend | script.js:43-45 | a customer adds exactly `balance \|\| 0`, so a negative balance lowers the total |
| LegacyScript.GetTotalDebtReadsBalancesOnly | script.js:42-46 | the total depends only on the balance fields |

## Left out

- The database connection and its promise cache (`api/_db.js`) are not
  modelled. An in-memory `Store` holds the two collections instead, and
  every handler runs alone, one after another.
- The Express wiring and CORS (`backend/server.js`), and the
  OPTIONS/CORS header lines of each handler, are left out. Only the status
  outcomes are modelled.
- Image upload, the Drive picker and OAuth are I/O and are left out:
  - `backend/routes/uploadImage.js`;
  - `backend/routes/_loadServiceAccount.js`;
  - the OAuth and upload code in `js/app.js` and `frontend/script.js`.
- PDF layout, image embedding and page breaks in the statement are output
  formatting. Only the totals and the table lines are modelled.
- DOM rendering, toasts, modals and event wiring are not modelled. Neither
  is the manager page's role check in `localStorage`, its `escapeHtml`, the
  summary panel's toggle, nor `frontend/lang.js`. The drawn lists and
  histories are modelled as values.
- The test files are network clients. Their scenarios appear only as the
  `SmokeTestTotals`, `BackendTestTotals` and `DeletingDebitOf120` lemmas.
- Floating point is not modelled. Amounts are integer cents, so
  `toFixed(2)`, `Number(...)` and the currency formatting are the identity.
- `parseFloat` on a form input is a parameter `Option<int>`, where `None`
  means NaN.
- Library behaviour is modelled concretely:
  - ObjectId validity is "24 hexadecimal digits";
  - `localeCompare` is order by Unicode scalar value;
  - `toLowerCase` covers ASCII letters only;
  - dates are integer timestamps.
- The generated `_id` of an insert and the current time are method
  parameters. The model does not produce them itself.
- The source's dynamic typing is narrowed to what its checks read. An id,
  phone or note that is not a string is not modelled; a missing one is "".
  `null` and `undefined` balances are both `NoAmount`.
- Mongo `$sum` over non-numeric fields is not modelled. A stored amount is a
  number or missing.
- The 500 replies of the `catch` blocks are not modelled outside the
  statement. There they follow a failing database call, or a field of a
  type the model does not represent. The statement's `catch` is modelled
  for the two throws its own code makes: an undated row (`toISOString` on
  an invalid date) and a text the Helvetica font cannot encode.
- Statement.WinAnsiUnit: the drawable set is the WinAnsi table of the PDF
  standard plus tab, line feed and carriage return. pdf-lib's own table is
  not part of this model: how it treats no-break space, soft hyphen and the
  other line-break and control characters it cleans before encoding may
  differ.
- Stored strings are sequences of Unicode scalar values. A JavaScript string
  holding a lone surrogate is not modelled; only the statement's note cut
  (`Statement.TruncateNote`) produces one, as a code unit.
- AppClient.ApplySort: a `null` customer array is not modelled, because
  sequences cannot be null. The empty array is returned unchanged as the
  source does.
- OwnerPage.OwnerPage.SubmitDebt and AppClient.AppState.ConfirmDeleteTransaction:
  success of the request and what the reloads fetch are parameters
  (`succeeded`, `reloaded`, and for the app `reloadedDetail`), because they
  come from the network. On the owner page the detail reload that runs
  first sets `currentCustomerId` to the id it already holds and otherwise
  only redraws the panel, so it is left out there.
- AppClient.AppState.AddDebt, AppClient.AppState.AddPayment and
  OwnerPage.OwnerPage.SubmitPayment: these build the request only. The
  reload after a successful request is the separate `LoadCustomers` call of
  each page.
- The list routes' per-customer totals are a map keyed by plain strings. A
  JavaScript object used as a dictionary treats keys such as `"__proto__"`
  specially; the model does not.

## Findings

| source | as written | input that shows it | evidently intended | confidence | as-written member | corrected member |
|---|---|---|---|---|---|---|
| frontend/script.js:659 | an entry is drawn as a debt when `type === 'debt' \|\| amount < 0` | any debt posted through addDebt: the server stores it as `'debit'` with a positive amount, and the detail reply carries `'debit'`, so the owner page draws it as a payment | draw an entry as a debt exactly when the server counts it as one ('debit'), as frontend/manager.js:113-114 does | not executed | OwnerPage.RecordedDebtDrawnAsPayment | Client.FallbackHistory |
