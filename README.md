# Invoicing and financial aggregation, modelled in Dafny

This project models the core of a small invoicing web application. Users keep
clients, invoices with line items, expenses and AI-written financial insights.
The application shows a dashboard of monthly and year-to-date figures. Every
request is scoped to the signed-in user: a client belongs to a user, an
invoice belongs to whoever owns its client, and an expense or insight belongs
to the user recorded on it.

The model keeps the database as five tables of records plus one id counter
per table (`Models.Tables`, `Models.Counters`). It also states the integrity
rules a stored state keeps (`Models.Sound`):
- ids increase and stay below the counters;
- invoice numbers are unique;
- a status is one of six labels, with a paid date exactly when "paid";
- every line item points at an existing invoice.

Each route handler has two parts:
- **A pure function** `…In(state, inputs): Outcome`. It gives the handler's
  result and the new state. A missing or foreign id is `Err(NotFound)` with
  the state unchanged, and a broken unique constraint is `Err(Conflict)`,
  also unchanged (the transaction rolls back).
- **A method on `Store.Db`**, the session object whose table fields it
  reassigns. It is proved to have exactly that effect and to keep `Db.Valid()`.

Lemmas named `…Sound` prove that each effect keeps the integrity rules and
say what it means: what a later read shows, what was removed by cascade, and
what stayed the same.

Queries are functions over a snapshot of the tables, built from the SQL
shapes in `Seqs`:

| SQL | `Seqs` function |
|---|---|
| WHERE | `Filter` |
| SUM | `SumBy` |
| ORDER BY | `SortBy`, an insertion sort by a total preorder: the result is proved sorted and a permutation |
| LIMIT | `Take` |

Loops in the source are methods with loop invariants, proved against the
functions above:
- the line-item accumulation;
- the overdue annotation;
- the six-month chart;
- the chart scaling;
- the per-client statistics;
- column serialisation;
- the demo seed.

Modules:
- `Wrappers`: `Option`, `Result`, error kinds.
- `Seqs`: filter, sum, sort, take, with their lemmas.
- `Text`: digits, zero padding, parsing.
- `Calendar`: proleptic Gregorian day numbers, as Python's `date.toordinal`, with round trips.
- `Models`: records, defaults, integrity rules, owner scoping.
- `Status`: the status state machine.
- `Store`: the session object.
- `LineItems`: the line-item calculator.
- `Numbering`: the invoice-number suggestion.
- `Invoices`, `Clients`, `Expenses`, `Insights`, `Dashboard`: the route files.
- `Seed`: the demo fixture.

Money is `real`. Dates are day numbers (`Calendar.Day`, with 1 = 0001-01-01).
Timestamps are `Instant` values. The current date, the current time and the
insight provider are parameters.

## Model

| member | source | states |
|---|---|---|
| Seqs.Filter | app/routes/invoices.py:23-24 | WHERE: the result holds exactly the rows that satisfy the condition, and no more rows than the table |
| Seqs.FilterSame | app/routes/dashboard.py:110-122 | two conditions that agree on every row select the same rows |
| Seqs.SortBy | app/routes/invoices.py:24 | ORDER BY returns a permutation of the rows |
| Seqs.SortBySorted | app/routes/invoices.py:24 | under a total preorder, ORDER BY returns the rows sorted |
| Seqs.Take | app/routes/dashboard.py:61-63 | LIMIT n keeps the first min(n, rows) rows |
| Seqs.TakeOfSortedIsTop | app/routes/dashboard.py:61-63 | LIMIT after ORDER BY keeps a sorted prefix, and no row left out comes before a kept one |
| Seqs.SumBySortBy | app/routes/clients.py:83-85 | ordering rows does not change their SUM |
| Seqs.SumByPartition | app/routes/clients.py:26-28 | the SUM over the rows meeting a condition plus the SUM over the others is the SUM over all rows |
| Seqs.SumByFilterMono | app/routes/dashboard.py:39-42 | with non-negative values, a narrower condition never has a larger SUM |
| Seqs.RemoveAtIncreasing | app/routes/invoices.py:258-259 | deleting one row keeps ids increasing, and the survivors are exactly the rows with another id |
| Models.NewInvoice | app/models.py:24-44 | a new invoice is a "draft" in "USD" with zero subtotal, tax rate, tax amount and total, and no notes or paid date |
| Models.InvoiceIds | app/models.py:27 | the set of ids is exactly the ids of the given invoice rows |
| Models.UniqueNumbersAppend | app/models.py:29 | adding an invoice whose number no stored invoice has keeps invoice numbers unique |
| Models.UniqueNumbersReplace | app/models.py:29 | rewriting invoice k keeps numbers unique when no other invoice has the new number |
| Models.InvoiceIdsReplace | app/models.py:27 | rewriting a row in place under its own id leaves the set of invoice ids unchanged |
| Models.KeysBelowAppend | app/models.py:9 | appending rows with fresh increasing ids from the counter on keeps ids increasing and below the advanced counter |
| Models.KeysBelowReplace | app/models.py:27 | rewriting a row under its own id keeps ids increasing and below the counter |
| Models.KeysBelowFilter | app/models.py:49 | deleting any subset of rows keeps ids increasing and below the counter |
| Models.KeysBelowRemoveAt | app/models.py:62 | deleting one row keeps ids ordered, and the survivors are exactly the rows with another id |
| Models.SameKeySameRow | app/models.py:27 | in a table with increasing ids, two rows with the same primary key are the same row |
| Models.OwnedClientIds | app/routes/dashboard.py:32 | the user's client-id subquery: exactly the ids of the clients whose owner is the user |
| Models.OwnerInvoices | app/routes/invoices.py:23-24 | an invoice is listed iff it is stored and its client belongs to the user |
| Models.OwnerExpenses | app/routes/expenses.py:23 | an expense is listed iff it is stored and recorded for the user |
| Models.OwnerClients | app/routes/clients.py:21 | a client is listed iff it is stored and owned by the user |
| Models.LexLeTotal | app/routes/clients.py:21 | any two names are comparable under the order by name |
| Models.LexLeTransitive | app/routes/clients.py:21 | the order by name is transitive |
| Models.OrdersArePreorders | app/routes/invoices.py:24 | every ORDER BY used is a total preorder: issue date, created time, expense date and generated time (all descending), and name (ascending) |
| Store.Db.constructor | app/models.py:6-82 | a fresh session has five empty tables, every id counter at 1, and satisfies the integrity rules |
| Status.ApplyStatus | app/routes/invoices.py:236-241 | a valid label becomes the status; "paid" stamps today as the paid date; any other valid label clears it; an unknown label changes nothing; no other field changes |
| Status.ApplyStatusConsistent | app/routes/invoices.py:236-241 | a status change keeps "paid date present iff status is paid" |
| Status.ApplyStatusIdempotent | app/routes/invoices.py:236-241 | applying the same status change twice gives the same invoice as applying it once |
| Status.PaidRoundTrip | app/routes/invoices.py:238-241 | after "paid" and then another valid label the paid date is gone, and marking it paid again stamps the new day |
| Text.ParseNat | app/routes/invoices.py:43 | the suffix parse succeeds exactly on a non-empty all-digit string |
| Text.ZeroPad | app/routes/invoices.py:50 | zero padding gives an all-digit string of at least the requested width |
| Text.ZeroPadRoundTrip | app/routes/invoices.py:43-50 | parsing a zero-padded number gives the number back |
| Text.LastSegment | app/routes/invoices.py:43 | `split("-")[-1]` is the longest suffix without a '-': a suffix free of the separator that is the whole string or is preceded by a separator |
| Text.LastSegmentAfterSeparator | app/routes/invoices.py:43 | the last segment of `a + "-" + b`, where b has no '-', is b |
| Numbering.LastByPrefix | app/routes/invoices.py:39 | returns nothing iff no invoice of any owner has the prefix, otherwise the prefixed invoice with the largest id |
| Numbering.NextSequence | app/routes/invoices.py:41-48 | 1 when no invoice has the year's prefix or the last prefixed number's segment does not parse as an integer; otherwise that parsed sequence plus 1 |
| Numbering.FormatRoundTrip | app/routes/invoices.py:43-50 | a formatted number carries the prefix, at least three digits after it, and its last segment parses back to the sequence |
| Numbering.SuggestionShape | app/routes/invoices.py:37-50 | the suggestion starts with INV-{year}- and its suffix parses to the next sequence |
| Numbering.AcceptedSuggestionAdvances | app/routes/invoices.py:39-50 | once the suggested number is saved as the newest invoice, the next suggestion is one higher |
| Numbering.LastByPrefixAppendNewest | app/routes/invoices.py:39 | the newest prefixed invoice is the one the suggestion reads |
| Numbering.PrefixFor2026 | app/routes/invoices.py:38 | the prefix in 2026 is "INV-2026-" |
| Numbering.SuggestIn2026 | app/routes/invoices.py:37-50 | in 2026 the suggestion is the 2026 prefix with the next sequence |
| Numbering.PrefixOfConcat | app/routes/invoices.py:39 | a string starting with the prefix matches the LIKE pattern |
| Numbering.LastOfTwo | app/routes/invoices.py:39 | of two prefixed invoices, the one with the larger id is read |
| Numbering.Spelled2026 | app/routes/invoices.py:50 | sequences 1, 2 and 3 are written INV-2026-001, -002 and -003 |
| Numbering.ContinuesFromLast | app/routes/invoices.py:41-44 | the suggestion continues from the last invoice's sequence |
| Numbering.SuggestsThird | app/routes/invoices.py:37-50 | after INV-2026-001 and INV-2026-002 the suggestion is INV-2026-003 |
| Numbering.RestartsOutsideBucket | app/routes/invoices.py:47-48 | with no invoice in the year's bucket the sequence restarts at 1 |
| Numbering.RestartsAfterUnparsable | app/routes/invoices.py:45-46 | an unparsable last suffix restarts the sequence at 1 |
| Numbering.LastYearOutsideBucket | app/routes/invoices.py:39 | last year's numbers do not match this year's prefix |
| Numbering.SuggestsFirst | app/routes/invoices.py:47-50 | with only INV-2025-041 stored, the 2026 suggestion is INV-2026-001 |
| Numbering.NoSequenceOfLetters | app/routes/invoices.py:43-46 | a suffix containing letters does not parse |
| Numbering.SuggestsFirstAfterUnparsable | app/routes/invoices.py:45-50 | after INV-2026-X1 the suggestion is INV-2026-001 |
| Numbering.HighestSequence | app/routes/invoices.py:39-46 | the corrected sequence bounds every parsed suffix in the year's bucket |
| Numbering.HighestSuggestionIsFresh | app/routes/invoices.py:37-50 | the corrected suggestion is never a number already stored |
| Numbering.SuggestionCanRepeat | app/routes/invoices.py:39-50 | as written, invoices INV-2026-003 (id 1) and INV-2026-002 (id 2) lead to the suggestion INV-2026-003, which is taken |
| LineItems.Min3 | app/routes/invoices.py:88 | the number of rows considered is the minimum of the three list lengths |
| LineItems.Entries | app/routes/invoices.py:88-106 | entry i pairs description i, quantity i and unit price i, for the first min(len) positions |
| LineItems.Kept | app/routes/invoices.py:107 | an entry is kept iff it has a non-empty description and a positive quantity |
| LineItems.TotalsOf | app/routes/invoices.py:119-121 | subtotal is the sum of kept amounts, tax is subtotal × rate / 100, total is subtotal + tax |
| LineItems.Rows | app/routes/invoices.py:110-116 | one stored row per kept entry, with consecutive fresh ids, all belonging to the invoice |
| LineItems.RowsKeys | app/routes/invoices.py:110-117 | the new rows' ids increase, lie in the fresh id range, and point at the invoice |
| LineItems.RowsMatchEntries | app/routes/invoices.py:104-116 | the rows copy the kept entries in submitted order; each amount is quantity × price; the amounts add up to the subtotal |
| LineItems.SubtotalIgnoresDroppedEntries | app/routes/invoices.py:103-109 | the subtotal is the sum over all entries in which dropped entries count as zero |
| LineItems.KeptSnoc | app/routes/invoices.py:107 | one more entry is kept at the end iff it is billable |
| LineItems.RowsSnoc | app/routes/invoices.py:110-117 | one more kept entry adds one row with the next id at the end |
| LineItems.LoopStep | app/routes/invoices.py:103-117 | one loop pass: a billable entry adds one row and quantity × price to the subtotal; any other entry changes nothing |
| LineItems.BuildLineItems | app/routes/invoices.py:103-119 | the loop builds exactly the rows of the kept entries and their subtotal |
| LineItems.WorkedExample | app/routes/invoices.py:88-121 | ["Design", "", "Hosting"] with a spare quantity keeps Design and Hosting and, at 10 %, totals 250 + 25 = 275 |
| Invoices.Edited | app/routes/invoices.py:185-191 | an edit overwrites client, number, dates, tax rate, currency, notes and the totals; id, status, paid date and creation time stay |
| Invoices.Created | app/routes/invoices.py:90-99 | a created invoice is a "draft" with no paid date and gets the new id and creation time; client, number, dates, tax rate, currency and notes are the posted ones, and subtotal, tax and total are the calculator's for the kept entries |
| Invoices.ItemsOf | app/models.py:44 | an invoice's line items are exactly the stored rows that point at it |
| Invoices.FindInvoice | app/routes/invoices.py:135 | the lookup finds an invoice with that id whose client the user owns, or reports that none exists |
| Invoices.ListInvoices | app/routes/invoices.py:23-24 | the list is a permutation of the user's invoices |
| Invoices.ListInvoicesSpec | app/routes/invoices.py:23-24 | the list is ordered by issue date descending and holds exactly the user's invoices |
| Invoices.InvoiceDetail | app/routes/invoices.py:135-139 | found iff the user owns an invoice with that id, else NotFound; the view shows that invoice and its line items |
| Invoices.EditInvoiceForm | app/routes/invoices.py:149-160 | found iff the user owns the invoice; the form lists exactly the user's clients |
| Invoices.NewInvoiceForm | app/routes/invoices.py:34-58 | the form lists exactly the user's clients and suggests a number with this year's prefix whose sequence is `NextSequence` of the invoices under that prefix |
| Invoices.CreateInvoiceIn | app/routes/invoices.py:78-121 | NotFound iff the client is not the user's; succeeds iff the client is the user's and the number is free; any failure leaves the state unchanged |
| Invoices.ItemsAfterSave | app/routes/invoices.py:103-117 | after saving, the invoice's items are exactly the new rows |
| Invoices.OtherItemsAfterSave | app/routes/invoices.py:103-117 | saving one invoice's rows leaves every other invoice's items as they were |
| Invoices.CreateInvoiceSound | app/routes/invoices.py:60-124 | creating an invoice keeps the integrity rules |
| Invoices.CreateInvoiceSaves | app/routes/invoices.py:90-123 | the detail page then shows the draft invoice and its kept rows; the items add up to its subtotal; the number is taken; other invoices' items are unchanged |
| Invoices.CreateInvoice | app/routes/invoices.py:60-124 | the handler has exactly the effect and result of `CreateInvoiceIn` and keeps the session valid |
| Invoices.UpdateInvoiceIn | app/routes/invoices.py:180-220 | NotFound iff the user owns no such invoice; succeeds iff found and no other invoice has the number; a failure changes nothing |
| Invoices.FilterOtherInvoice | app/routes/invoices.py:194 | clearing one invoice's items leaves every other invoice's items unchanged |
| Invoices.UpdateInvoiceSound | app/routes/invoices.py:162-221 | an edit keeps the integrity rules |
| Invoices.UpdateInvoiceSaves | app/routes/invoices.py:184-218 | an edit rewrites only that invoice, keeps its status and paid date, replaces its items by the kept entries in order with matching subtotal, and leaves other items alone |
| Invoices.UpdateInvoice | app/routes/invoices.py:162-221 | the handler has exactly the effect and result of `UpdateInvoiceIn` and keeps the session valid |
| Invoices.SaveEdit | app/routes/invoices.py:184-220 | the field updates, item replacement and totals together give the new state of a successful edit |
| Invoices.EditCanHandInvoiceToAnotherOwner | app/routes/invoices.py:180-191 | as written, an edit that names another user's client moves the invoice out of the editor's ownership into that user's |
| Invoices.UpdateInvoiceCheckedIn | app/routes/invoices.py:180-191 | corrected edit: a client the user does not own is NotFound with no change; otherwise as the edit |
| Invoices.CheckedEditKeepsOwner | app/routes/invoices.py:180-191 | after a successful corrected edit the user still owns the invoice |
| Invoices.UpdateInvoiceChecked | app/routes/invoices.py:180-191 | the corrected handler has exactly the effect of `UpdateInvoiceCheckedIn` and keeps the session valid |
| Invoices.UpdateStatusIn | app/routes/invoices.py:232-245 | NotFound with no change iff the user owns no such invoice; otherwise Ok |
| Invoices.UpdateStatusSound | app/routes/invoices.py:232-243 | keeps the integrity rules; every other invoice, the line items, clients, expenses, insights and id counters are unchanged; on the found invoice only status and paid date change: a valid label is stored, "paid" sets the paid date to today and any other valid label clears it; an unknown label changes nothing |
| Invoices.UpdateInvoiceStatus | app/routes/invoices.py:223-245 | the handler has exactly the effect of `UpdateStatusIn` and keeps the session valid |
| Invoices.DeleteInvoiceIn | app/routes/invoices.py:255-260 | NotFound with no change iff the user owns no such invoice; otherwise Ok |
| Invoices.DeleteInvoiceSound | app/routes/invoices.py:255-260 | keeps the integrity rules; the invoice and all its line items are gone, and every other invoice and item stays |
| Invoices.DeleteInvoice | app/routes/invoices.py:247-261 | the handler has exactly the effect of `DeleteInvoiceIn` and keeps the session valid |
| Clients.WithContact | app/routes/clients.py:129-136 | an edit overwrites exactly the eight contact fields; id, owner and creation time stay |
| Clients.InvoicesOf | app/routes/clients.py:25 | a client's invoices are exactly the stored invoices that point at it |
| Clients.OutstandingIsUnpaid | app/routes/clients.py:26-28 | outstanding = invoiced − paid is the sum over the unpaid invoices; with non-negative totals, 0 ≤ paid and 0 ≤ outstanding ≤ invoiced |
| Clients.SortedClients | app/routes/clients.py:21 | the client list is a permutation of the user's clients |
| Clients.SortedClientsSpec | app/routes/clients.py:21 | the list is ordered by name and holds exactly the user's clients |
| Clients.ListClients | app/routes/clients.py:21-30 | the stats loop gives one row per listed client, in order, with its invoiced, paid and outstanding figures |
| Clients.FindClient | app/routes/clients.py:79 | the lookup finds a client with that id owned by the user, or reports that none exists |
| Clients.ClientDetail | app/routes/clients.py:79-93 | found iff the user owns the client, else NotFound; shows the client and its invoices as a permutation sorted by issue date, newest first |
| Clients.PaidSumSorted | app/routes/clients.py:83-85 | sorting the invoices does not change the paid sum |
| Clients.DetailRevenueIsTotalPaid | app/routes/clients.py:85 | the detail's revenue is the sum of the client's paid invoice totals |
| Clients.EditClientForm | app/routes/clients.py:103-107 | found iff the user owns the client, else NotFound |
| Clients.CreateClientIn | app/routes/clients.py:55-69 | creating a client always succeeds with the next client id |
| Clients.CreateClientSound | app/routes/clients.py:55-68 | keeps the integrity rules; the new client is the user's and carries exactly the submitted contact fields |
| Clients.CreateClient | app/routes/clients.py:40-69 | the handler has exactly the effect of `CreateClientIn` and keeps the session valid |
| Clients.UpdateClientIn | app/routes/clients.py:125-139 | NotFound with no change iff the user owns no such client; otherwise Ok |
| Clients.UpdateClientSound | app/routes/clients.py:125-138 | keeps the integrity rules; invoices, items, expenses, insights, id counters and every other client row are unchanged, and so is who owns which client; the client afterwards is its old row with the new contact fields |
| Clients.UpdateClient | app/routes/clients.py:109-139 | the handler has exactly the effect of `UpdateClientIn` and keeps the session valid |
| Clients.DeleteClientIn | app/routes/clients.py:149-157 | NotFound with no change iff the user owns no such client; otherwise Ok |
| Clients.DeleteClientSound | app/routes/clients.py:149-157 | keeps the integrity rules; removes the client, its invoices and their line items; every other client, invoice and line item remains, and expenses, insights and id counters are unchanged |
| Clients.DeleteClient | app/routes/clients.py:141-158 | the handler has exactly the effect of `DeleteClientIn` and keeps the session valid |
| Expenses.CategoryOf | app/routes/expenses.py:57 | the submitted category, or "other" when none is sent or the sent value is empty (the form default); never empty |
| Expenses.WithForm | app/routes/expenses.py:109-114 | an edit overwrites description, amount, date, category, vendor and tax flag; owner, currency, receipt and creation time stay |
| Expenses.Selected | app/routes/expenses.py:23-25 | exactly the user's expenses, restricted to the category when one is given |
| Expenses.ListExpenses | app/routes/expenses.py:23-37 | the list is a permutation of the selected expenses and echoes the category |
| Expenses.ListExpensesSpec | app/routes/expenses.py:27-29 | newest date first, exactly the selected expenses, and the total is the sum of their amounts |
| Expenses.CategoryTotalsAddUp | app/routes/expenses.py:23-29 | one category's total plus the rest of the user's expenses is the unfiltered total |
| Expenses.FindExpense | app/routes/expenses.py:85 | the lookup finds the user's expense with that id, or reports that none exists |
| Expenses.EditExpenseForm | app/routes/expenses.py:85-89 | found iff the user has an expense with that id, else NotFound |
| Expenses.NewExpense | app/routes/expenses.py:64-72 | a new expense gets the user as owner, "USD" and no receipt |
| Expenses.CreateExpenseIn | app/routes/expenses.py:64-75 | creating an expense always succeeds with the next expense id |
| Expenses.CreateExpenseSound | app/routes/expenses.py:64-74 | keeps the integrity rules; the stored expense is the user's with the form's fields |
| Expenses.CreateExpense | app/routes/expenses.py:51-75 | the handler has exactly the effect of `CreateExpenseIn` and keeps the session valid |
| Expenses.UpdateExpenseIn | app/routes/expenses.py:105-117 | NotFound with no change iff the user has no such expense; otherwise Ok |
| Expenses.UpdateExpenseSound | app/routes/expenses.py:105-116 | keeps the integrity rules, every other table, the id counters and every other expense row; the expense afterwards is its old row with the form's fields |
| Expenses.UpdateExpense | app/routes/expenses.py:91-117 | the handler has exactly the effect of `UpdateExpenseIn` and keeps the session valid |
| Expenses.DeleteExpenseIn | app/routes/expenses.py:127-133 | NotFound with no change iff the user has no such expense; otherwise Ok |
| Expenses.DeleteExpenseSound | app/routes/expenses.py:127-132 | keeps the integrity rules; exactly that expense is removed and no other |
| Expenses.DeleteExpense | app/routes/expenses.py:119-133 | the handler has exactly the effect of `DeleteExpenseIn` and keeps the session valid |
| Insights.ListInsightsSpec | app/routes/insights.py:38 | newest first, exactly the insights requested by the user |
| Insights.InsightDetail | app/routes/insights.py:50-53 | a shown insight has that id and was requested by the user; otherwise NotFound |
| Insights.InsightDetailSpec | app/routes/insights.py:50-53 | the stored insight with that id is shown iff the user requested it |
| Insights.Serialized | app/routes/insights.py:72-79 | one entry per column, in order, keyed by the column name with its encoded value |
| Insights.SerializeModel | app/routes/insights.py:72-79 | the loop builds exactly the serialised record |
| Insights.SerializedSpec | app/routes/insights.py:74-78 | names are kept, values pass through unchanged, and a date becomes a YYYY-MM-DD string whose parts parse back to its year, month and day |
| Insights.SerializedAll | app/routes/insights.py:88 | one record per row, in order |
| Insights.SerializeAll | app/routes/insights.py:88 | the comprehension loop builds exactly those records |
| Insights.LatestInvoices | app/routes/insights.py:87 | the invoice slice has at most n rows |
| Insights.LatestExpenses | app/routes/insights.py:92 | the expense slice has at most n rows |
| Insights.LatestInvoicesSpec | app/routes/insights.py:84-87 | sorted by issue date descending, owned by the user, min(n, owned) long, and no left-out invoice is newer than a kept one |
| Insights.LatestExpensesSpec | app/routes/insights.py:92 | sorted by date descending, the user's, min(n, owned) long, and no left-out expense is newer than a kept one |
| Insights.ContextBounds | app/routes/insights.py:69-116 | revenue_forecast gives ≤ 50 invoices; expense_analysis ≤ 50 expenses; cash_flow ≤ 20 of each; client_summary one record per client with total_invoiced and total_paid; any other type gives no data |
| Insights.SummarizeClients | app/routes/insights.py:107-115 | the loop gives one record per owned client, in order: its columns plus the two totals |
| Insights.BuildContext | app/routes/insights.py:81-116 | the branches build exactly the context for the insight type |
| Insights.AnalyzeSound | app/routes/insights.py:65-146 | a missing key is an error; a provider failure is an error with its message; both change nothing. On success exactly one insight is appended (type, text, model, user), is shown and listed, and nothing else changes |
| Insights.AnalyzeInsights | app/routes/insights.py:57-146 | the handler has exactly the effect of `AnalyzeIn` and keeps the session valid |
| Calendar.YearLength | app/routes/dashboard.py:102 | consecutive years start 365 or 366 days apart, by the Gregorian leap rule |
| Calendar.FromOrdinal | app/routes/dashboard.py:102 | the day number's date is a valid calendar date that converts back to the same number |
| Calendar.FromToOrdinal | app/routes/dashboard.py:102-103 | converting a valid date to its day number and back gives the same date |
| Calendar.OrdinalMonotone | app/routes/dashboard.py:36 | later dates have larger day numbers, so date comparisons are number comparisons |
| Calendar.OrdinalInjective | app/routes/dashboard.py:36 | distinct valid dates have distinct day numbers |
| Calendar.MonthEndIsLastDay | app/routes/dashboard.py:103-107 | first-of-next-month minus one day, including the December case, is the month's last day; the start is day 1 |
| Calendar.MonthEndOrdinal | app/routes/dashboard.py:104-107 | the month end's day number is that of the month's last day |
| Calendar.InMonthIff | app/routes/dashboard.py:112-121 | a day lies between month start and month end iff it falls in that calendar month |
| Calendar.PeriodStartsOrdered | app/routes/dashboard.py:28-29 | first of year ≤ first of month ≤ today, in the same year |
| Calendar.IsoDate | app/routes/insights.py:76-77 | an ISO date string has at least ten characters |
| Calendar.IsoDateRoundTrip | app/routes/insights.py:76-77 | for years up to 9999, `isoformat` gives YYYY-MM-DD whose parts parse back to the year, month and day |
| Dashboard.InvoicesThisMonth | app/routes/dashboard.py:34-37 | exactly the user's invoices issued on or after the first of the current month |
| Dashboard.PeriodSumsOrdered | app/routes/dashboard.py:39-76 | with non-negative totals, 0 ≤ paid this month ≤ invoiced this month, and paid this month ≤ revenue year-to-date |
| Dashboard.Histogram | app/routes/dashboard.py:52-58 | only statuses that occur appear as keys |
| Dashboard.HistogramCounts | app/routes/dashboard.py:52-58 | each status's count is the number of invoices with that status |
| Dashboard.LabelTotalBump | app/routes/dashboard.py:52-58 | counting one more invoice raises the label total by that label's multiplicity |
| Dashboard.LabelTotalEmpty | app/routes/dashboard.py:58 | an empty histogram totals zero |
| Dashboard.HistogramAddsUp | app/routes/dashboard.py:52-58 | when each status appears once among the labels, the counts add up to the number of invoices |
| Dashboard.LabelsOnce | app/models.py:30 | each of the six status labels is listed once |
| Dashboard.StatusCountsSpec | app/routes/dashboard.py:52-58 | keys are exactly the statuses in use; each count is the number of such invoices; the counts add up to the user's invoice count |
| Dashboard.RecentInvoices | app/routes/dashboard.py:61-63 | at most 10 recent invoices |
| Dashboard.RecentInvoicesSpec | app/routes/dashboard.py:61-63 | newest created first, owned by the user, min(10, owned) long, and no left-out invoice is newer than a shown one |
| Dashboard.OverdueInvoices | app/routes/dashboard.py:86-92 | overdue iff the user's, not paid, cancelled or draft, and due before today |
| Dashboard.AnnotateOverdue | app/routes/dashboard.py:95-96 | every overdue invoice gets days overdue = today − due date, which is at least 1 |
| Dashboard.MonthPoint | app/routes/dashboard.py:102-128 | one pass of the chart loop computes the point for today − 30·i days |
| Dashboard.Chart | app/routes/dashboard.py:99-128 | the loop's first k points, i = 5 down to 6 − k; k of them |
| Dashboard.ChartData | app/routes/dashboard.py:99-128 | the chart loop yields the six points for i = 5, 4, …, 0, oldest first |
| Dashboard.PointSpec | app/routes/dashboard.py:102-107 | a point spans the whole calendar month of today − 30·i, from day 1 to its last day; a day lies between its bounds iff it falls in that month; the newest point is the current month |
| Dashboard.MonthFilters | app/routes/dashboard.py:110-122 | bounding paid dates and expense dates by the month start and end selects exactly the rows of that calendar month |
| Dashboard.PointSums | app/routes/dashboard.py:110-122 | a point's revenue is the total of the user's invoices paid in its calendar month, and its expenses the total of the user's expenses dated in it |
| Dashboard.PointStart | app/routes/dashboard.py:102-103 | a point starts on the first of the month of today − 30·i |
| Dashboard.FirstOfMonthMonotone | app/routes/dashboard.py:102-103 | a later day never falls in an earlier month |
| Dashboard.ChartOldestFirst | app/routes/dashboard.py:100-103 | the points' month starts never decrease (equal neighbours are possible) |
| Dashboard.AnchorMonthsOrdered | app/routes/dashboard.py:100-103 | the month of today − 30·i never comes after the month of today − 30·(i − 1) |
| Dashboard.StepBackInMonth | app/routes/dashboard.py:102 | stepping back fewer days than the day of month stays in the same month |
| Dashboard.SixtyDaysBeforeMarch31 | app/routes/dashboard.py:102 | in a common year, 60 days before March 31 is January 30 |
| Dashboard.ChartRepeatsMarch | app/routes/dashboard.py:102-103 | on March 31 the point 30 days back is again March, so the chart shows March twice |
| Dashboard.ChartSkipsFebruary | app/routes/dashboard.py:102-103 | on March 31 of a common year, 60 days back lands in January, so February gets no point |
| Dashboard.Peak | app/routes/dashboard.py:131-133 | the running maximum starts at 0 and bounds every revenue and expense, and it is 0 or one of them |
| Dashboard.Divisor | app/routes/dashboard.py:135-136 | the divisor is positive: 100 when the maximum is 0 |
| Dashboard.Scale | app/routes/dashboard.py:131-140 | the loops compute the divisor and give every point its revenue and expense percentages of it |
| Dashboard.PeakSnoc | app/routes/dashboard.py:132-133 | one more point updates the running maximum by max |
| Dashboard.PercentBounds | app/routes/dashboard.py:139-140 | a value no larger than the divisor is at most 100 %, a non-negative one at least 0 %, and the divisor itself exactly 100 % |
| Dashboard.ScaleBounds | app/routes/dashboard.py:131-140 | every bar is ≤ 100 %, ≥ 0 % for non-negative figures, and the largest positive figure is exactly 100 % |
| Dashboard.Bars | app/routes/dashboard.py:124-128 | the scaled chart keeps each point's month and sums |
| Dashboard.BarsOfScaled | app/routes/dashboard.py:138-140 | adding percentages leaves the points themselves unchanged |
| Dashboard.BuildDashboard | app/routes/dashboard.py:27-156 | the page shows the month, year-to-date, outstanding, histogram, recent, count, overdue and chart figures, each as specified above |
| Dashboard.DashboardPage | app/routes/dashboard.py:17-156 | the demo fixture is seeded first, and a conflict is the page's error; otherwise the page shows the rows as they stand after seeding |
| Seed.FixtureIndicesInRange | app/seed.py:26-71 | every invoice names one of the six clients and every item one of the eight invoices |
| Seed.FixtureStatusesConsistent | app/seed.py:27-34 | every fixture status is a valid label and carries a paid date iff it is "paid" |
| Seed.FixtureNumbersDistinct | app/seed.py:27-34 | the fixture invoice numbers are pairwise distinct |
| Seed.FixtureInsightsBySystem | app/seed.py:96-97 | both fixture insights are requested by "system" |
| Seed.DemoConsistent | app/seed.py:10-103 | the demo fixture satisfies every consistency rule the seed relies on |
| Seed.FixtureDatesOrdered | app/seed.py:27-34 | each invoice is issued no later than it is due, and paid no earlier than issued |
| Seed.FixtureItemsPriced | app/seed.py:52-70 | every item has a description, a positive quantity and amount = quantity × unit price |
| Seed.FixtureTaxMatches | app/seed.py:27-34 | every invoice has tax = subtotal × rate / 100 and total = subtotal + tax |
| Seed.ItemsGrouped | app/seed.py:52-70 | items are listed invoice by invoice at the given bounds |
| Seed.SliceAddsUp | app/seed.py:52-70 | a slice of up to three items sums to its listed amounts |
| Seed.GroupAddsUp | app/seed.py:27-70 | each invoice's slice of items adds up to its subtotal |
| Seed.FixtureSubtotals | app/seed.py:27-70 | each invoice's subtotal is the sum of its items' amounts |
| Seed.EntriesOf | app/seed.py:52-70 | the items read as calculator entries, position by position |
| Seed.EntryAmount | app/seed.py:52-70 | a priced item's calculator amount is its own amount |
| Seed.CalculatorKeepsItems | app/seed.py:27-70 | for priced items the calculator reproduces the invoice's subtotal, tax and total |
| Seed.CalculatorKeepsEntries | app/seed.py:52-70 | the calculator keeps every priced item, and their amounts add up the same |
| Seed.GroupBillable | app/seed.py:52-70 | every invoice's items are priced |
| Seed.FixtureMatchesCalculator | app/seed.py:27-70 | every fixture invoice's stored subtotal, tax and total are what the calculator gives for its items |
| Seed.SeededClients | app/seed.py:19-24 | client i is stored under id first + i and owned by the user |
| Seed.SeededInvoices | app/seed.py:37-49 | invoice i is stored under id first + i and points at the generated id of its fixture client |
| Seed.SeededItems | app/seed.py:73-76 | item i is stored under id first + i and points at the generated id of its fixture invoice |
| Seed.SeededExpenses | app/seed.py:91-93 | expense i is stored under id first + i and owned by the user |
| Seed.SeededInsights | app/seed.py:100-103 | insight i is stored under id first + i, with "system" replaced by the user |
| Seed.NumberedFrom | app/seed.py:19-24 | rows numbered consecutively from the counter have increasing, fresh ids |
| Seed.SeededNumbersUnique | app/seed.py:26-49 | with no clash against stored numbers, seeding keeps invoice numbers unique |
| Seed.SeededItemsHaveInvoices | app/seed.py:73-76 | every seeded item points at a seeded invoice |
| Seed.InvoiceIdsAppend | app/seed.py:46-48 | the ids of two invoice lists together are the union of their ids |
| Seed.SeededSound | app/seed.py:10-105 | a seeded state keeps the integrity rules |
| Seed.SeedSound | app/seed.py:5-105 | seeding is a no-op iff the user owns a client; it conflicts iff a number clashes; otherwise it stores exactly the fixture for the user; seeding again is a no-op |
| Seed.SecondSeedConflicts | app/seed.py:27-34 | seeding a second user after a first one fails on the fixed invoice numbers |
| Seed.SeedOrSkipSound | app/seed.py:5-105 | the corrected seed never fails, keeps the integrity rules, seeds exactly when the seed as written succeeds (same new state) and otherwise changes nothing |
| Seed.SecondSeedSkips | app/seed.py:27-34 | with the corrected seed, a second user after a seeded first one is skipped instead of rejected |
| Seed.SeedData | app/seed.py:5-105 | the handler has exactly the effect of `SeedIn` on the demo fixture and keeps the session valid |
| Seed.SeedFixture | app/seed.py:5-105 | the same for any consistent fixture |
| Seed.AddClients | app/seed.py:19-24 | appends the seeded clients, advances the client counter, and maps fixture index k to its generated id |
| Seed.AddInvoices | app/seed.py:37-49 | appends the seeded invoices with remapped clients, advances the counter, and maps index k to its generated id |
| Seed.AddItems | app/seed.py:73-76 | appends the seeded items with remapped invoices and advances the counter |
| Seed.AddExpenses | app/seed.py:91-93 | appends the seeded expenses for the user and advances the counter |
| Seed.AddInsights | app/seed.py:100-103 | appends the seeded insights, with "system" replaced by the user, and advances the counter |

## Left out

- Authentication, subscription gating, templates, redirects and the HTTP layer: the user id and the form values are parameters, and a handler's result is its outcome. Form values are taken as the form layer delivers them (an empty optional `vendor` arrives as none); only the empty-category fallback to "other" is spelled out, in `Expenses.CategoryOf`.
- app/main.py and app/routes/billing.py (framework wiring and an external payment service) are not part of this model.
- The Gemini call and the prompt text: the provider is a function parameter that returns an answer or a failure message. The stored model name is the constant "gemini-2.5-flash".
- Floating-point rounding: money is exact `real`.
- SQLite `LIKE` is case-insensitive for ASCII letters; the prefix match here is case-sensitive. This is the same for the upper-case "INV-" numbers the application writes.
- `strptime` parsing of dates: dates arrive as day numbers.
- The month labels from `strftime("%b")` are not produced; each chart point carries its year and month.
- Text.ParseNat: Python's `int()` also accepts signs, surrounding whitespace and underscores. The model accepts only non-empty all-digit strings.
- Calendar.IsoDate: years above 9999 are not bounded as Python's `date` bounds them; the ISO round trip is proved for years up to 9999.
- Insights.SerializedSpec: timestamp columns are kept as instants; their ISO text is not modelled. The `updated_at` columns are not modelled, so serialised clients and invoices lack them.
- The current date and time are parameters; server-side `now()` defaults take the `now` passed in.
- ORDER BY ties: every ordered listing is promised to be a sorted permutation of the selected rows; among rows with equal keys the model's order is the insertion sort's, not the database's.
- Dashboard.ChartData: requires today > 150. For earlier days Python's `date` arithmetic raises OverflowError, and the model does not cover that error.
- Dashboard.DashboardPage: requires today > 150, for the same reason.
- Seed.SeedIn: a clash with a stored invoice number is `Err(Conflict)` with no change, standing for the IntegrityError that rolls the request back.
- The dashboard compares `Client.user_id` with the user id without `str()`; the model takes user ids as strings throughout, so that comparison is the same as elsewhere.
- The line-item quantity default of 1.0 (app/models.py:52) is not modelled: every row the handlers store is given a quantity.
- Dates are not checked for validity (an issue date after its due date is accepted, as in the source).

## Findings

| source | as written | input that shows it | evidently intended | confidence | as-written member | corrected member |
|---|---|---|---|---|---|---|
| app/routes/invoices.py:39-50 | the suggestion continues from the prefixed invoice with the largest id | invoices INV-2026-003 (id 1) and INV-2026-002 (id 2): the suggestion is INV-2026-003, which is already taken, so accepting it fails on the unique number | continue from the highest sequence in the year's bucket, so the suggestion is always free | not executed | Numbering.SuggestionCanRepeat | Numbering.HighestSuggestionIsFresh |
| app/routes/invoices.py:180-191 | the edit stores the posted client id without checking that the client belongs to the user | user "a" edits their invoice and posts client 2, owned by "b": the invoice leaves "a"'s lists and appears in "b"'s | reject a client the user does not own, as create does at lines 78-80 | not executed | Invoices.EditCanHandInvoiceToAnotherOwner | Invoices.CheckedEditKeepsOwner |
| app/seed.py:5-49 | the demo seed runs for every user without clients and stores the fixed numbers INV-2026-001 to INV-2026-008, which are unique across all users | two users open the dashboard in turn: the first is seeded, the second's seed clashes on INV-2026-001 and the IntegrityError fails every visit of the second user's dashboard (app/routes/dashboard.py:25) | the dashboard still loads for the second user: skip a seed whose numbers are taken | not executed | Seed.SecondSeedConflicts | Seed.SecondSeedSkips |

The route models keep the behaviour as written: `Invoices.NewInvoiceForm` uses `Numbering.Suggest`, `Invoices.UpdateInvoice` stores any client id, and `Dashboard.DashboardPage` runs the seed as written, so a clash is its error. The corrected definitions sit beside them:
- `Numbering.SuggestHighest`, with `Numbering.HighestSuggestionIsFresh`;
- `Invoices.UpdateInvoiceCheckedIn` and `Invoices.UpdateInvoiceChecked`, with `Invoices.CheckedEditKeepsOwner`;
- `Seed.SeedOrSkipIn`, with `Seed.SeedOrSkipSound` and `Seed.SecondSeedSkips`.
