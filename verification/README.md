# Party and expense tracker: the in-memory rules

A personal finance tracker stores four kinds of records in a hosted
document store: parties, expense heads, party transactions (money given
to or received from a party, told apart by `isPaid`) and expense
transactions (an amount booked against an expense head and a party).
Storage, login and queries all run in that hosted service. The only logic
of the application's own is a handful of pure list rules inside its page
components, and this project models those rules as total functions over
sequences of immutable records:

- **Reports** (`Query`, `Joins`, `Totals`, `Reports`). The page builds a
  store query: owner, an inclusive `fromDate..toDate` range, date-descending
  order, and an optional party or head equality unless the selection is
  `'all'`. It joins each fetched transaction to the first party or head
  with a matching id. A reference that does not resolve leaves the row with
  no entity, and the row renders as "Unknown". The page then computes total
  paid, total received, net balance (`received - paid`, styled positive when
  it is not negative) and the expense total. It shows the party and expense
  sections according to the report type.
- **Transaction entry** (`TransactionEntry`). Both forms check their
  required fields. Each builds a document in which a blank description is
  left out and a non-blank one is stored trimmed, and the owner is the
  acting user. The create is refused when nobody is signed in. After a
  successful create the form is reset.
- **Parties and expense heads** (`Parties`, `ExpenseHeads`,
  `DeletionGuard`). The "has transactions" guard decides whether a row
  offers the delete control or shows the "Cannot delete" note. The party
  list is sorted newest first by creation time. The add forms trim and
  validate their input, and the expense-head categories have labels.

The generic sequence operations (`filter`, `some`, `find`, a summing
`reduce`) are in `Seqs`. `trim` and the store's string ordering of
`YYYY-MM-DD` dates are in `Text`. The records and the shape of a submit's
outcome are in `Records`. `Scenarios` works one concrete join with its
totals, and one concrete expense report, through these rules.

Modelling choices:
- Amounts are exact integers in the smallest currency unit.
- A date is its `YYYY-MM-DD` string. Range conditions compare strings
  lexicographically. For such strings this is the same as calendar order.
- The signed-in user is `Option<string>`. A session counts only when its
  id is a non-empty string, which is what the pages' `!!user?.$id` tests.
- The store's answer to a query is its collection filtered by what the
  query admits, in collection order. "Ordered by date descending" is a
  precondition of `Reports.ReportRowsDateDescending`, not something the
  model implements.
- Whether the store accepts a write (`storeAccepts`) and the current date
  (`today`) are parameters.

What the code does, as modelled:
- A missing reference gives an absent entity. "Unknown" comes only from
  rendering, and an empty name also renders "Unknown".
- The reports page has no error indicator of its own.
- Amounts are unchecked numbers: nothing enforces non-negativity.
- The expense transaction written at `src/pages/transactions.tsx:189` carries
  a `partyId`, although the record type in `src/lib/appwrite.ts:76-84` omits it.
  The model includes the field.

## Model

| member | source | states |
|---|---|---|
| Records.SignedIn | src/pages/reports.tsx:47 | `!!user?.$id`: a user counts as signed in iff a session exists and its id is non-empty |
| Text.Trim | src/pages/parties.tsx:121-129 | `trim` returns a slice of its input: only whitespace is removed from either end, and none is left at either end |
| Text.TrimIdempotent | src/pages/transactions.tsx:151-152 | trimming an already-trimmed description changes nothing, so trimming in the form and again in the create agree |
| Text.TrimEmptyIff | src/pages/parties.tsx:121 | the trimmed string is empty (falsy) exactly when the input is all whitespace |
| Text.LexLeReflexive | src/pages/reports.tsx:72-73 | every date sorts no later than itself |
| Text.LexLeTotal | src/pages/reports.tsx:72-73 | any two date strings are comparable |
| Text.LexLeAntisymmetric | src/pages/reports.tsx:72-73 | two strings that each sort no later than the other are equal |
| Text.LexLeTransitive | src/pages/reports.tsx:72-73 | the date ordering is transitive, which makes the range conditions consistent |
| Text.LexLeFirstDifference | src/pages/reports.tsx:72-73 | two strings that agree up to a position and differ there are ordered by the characters at that position |
| Seqs.Filter | src/pages/reports.tsx:137 | `filter` keeps exactly the elements that pass: each passing element occurs as often as in the input, every other element not at all |
| Seqs.FilterKeepsOrder | src/pages/reports.tsx:74 | filtering keeps any pairwise order the list had, such as date-descending |
| Seqs.Any | src/pages/parties.tsx:66 | `some` holds iff some element passes |
| Seqs.FindFirst | src/pages/reports.tsx:116 | `find` is absent iff no element has the id; otherwise it returns an element with the id that no earlier element has |
| Seqs.ReduceIsSum | src/pages/reports.tsx:138 | the left-to-right summing `reduce` from 0 equals the sum of the amounts |
| Seqs.SumConcat | src/pages/reports.tsx:138 | the sum over a concatenation is the sum of the parts' sums |
| Seqs.SumPartition | src/pages/reports.tsx:136-142 | the sum of the elements that pass a predicate plus the sum of those that fail it is the whole sum |
| Joins.FindParty | src/pages/reports.tsx:116 | the joined party is absent iff no party has the transaction's `partyId`; otherwise it is the first party that has it |
| Joins.FindHead | src/pages/reports.tsx:127 | the joined head is absent iff no head has the `expenseHeadId`; otherwise it is the first head that has it |
| Joins.FindPartyUnique | src/pages/reports.tsx:116 | when party ids are unique, the lookup finds exactly the party with that id |
| Joins.JoinParties | src/pages/reports.tsx:114-122 | the join keeps length and order; row i is transaction i plus its looked-up party, and the row is kept even when no party is found |
| Joins.JoinHeads | src/pages/reports.tsx:125-133 | the expense join keeps length and order; row i is transaction i plus the head found for its `expenseHeadId` |
| Joins.JoinHeadsAndParties | src/pages/transactions.tsx:121-131 | each expense row carries a head looked up by `expenseHeadId` and a party looked up by `partyId`, independently of each other |
| Joins.JoinPartiesResolves | src/pages/reports.tsx:116 | with unique ids, a row's party is absent iff no party has its id, and is otherwise that party |
| Joins.OrUnknown | src/pages/reports.tsx:324 | the "Unknown" fallback never renders empty: an absent or empty value renders "Unknown", and any other value renders as itself |
| Joins.PartyNameLabel | src/pages/transactions.tsx:422 | an unresolved party's name renders "Unknown" |
| Joins.PartyTownLabel | src/pages/transactions.tsx:423 | an unresolved party's town renders "Unknown" |
| Joins.PartyTownSuffix | src/pages/reports.tsx:325-329 | the town suffix appears iff the party resolved and has a non-empty town |
| Joins.HeadNameLabel | src/pages/transactions.tsx:578 | an unresolved head's name renders "Unknown" |
| Joins.CategoryValue | src/lib/appwrite.ts:60 | each category has a non-empty stored spelling |
| Joins.CategoryValueInjective | src/lib/appwrite.ts:60 | no two categories share a stored spelling |
| Joins.HeadCategoryLabel | src/pages/transactions.tsx:589 | the category renders "Unknown" exactly for an unresolved head, and otherwise as the head's stored category |
| Totals.TotalPaid | src/pages/reports.tsx:136-138 | total paid is the sum of the amounts of the rows with `isPaid` |
| Totals.TotalReceived | src/pages/reports.tsx:140-142 | total received is the sum of the amounts of the rows without `isPaid` |
| Totals.ExpenseTotal | src/pages/reports.tsx:144 | the expense total is the sum of every row's amount, with no filter |
| Totals.NetBalance | src/pages/reports.tsx:274 | the displayed `partyTotalReceived - partyTotalPaid` is the sum of the received amounts minus the sum of the paid amounts |
| Totals.NetBalanceIsPositive | src/pages/reports.tsx:269-272 | the green style test `received - paid >= 0` holds iff the received amounts sum to at least the paid amounts |
| Totals.PaidPlusReceived | src/pages/reports.tsx:136-142 | paid plus received is the sum over all party rows |
| Totals.PositiveIffReceivedCoversPaid | src/pages/reports.tsx:267-274 | the net balance is styled positive iff received is at least paid |
| Totals.TotalsConcat | src/pages/reports.tsx:136-142 | both directional totals decompose over concatenation |
| Totals.SingleRowTotals | src/pages/reports.tsx:136-142 | one row adds its amount to exactly one of paid and received |
| Totals.TotalsIgnoreParties | src/pages/reports.tsx:114-142 | the totals do not depend on which parties resolve, so unresolved rows still count |
| Totals.ExpenseTotalIgnoresHeads | src/pages/reports.tsx:125-144 | the expense total does not depend on which heads resolve |
| Totals.EmptyTotals | src/pages/reports.tsx:136-144 | on empty lists every total and the net balance are 0 |
| Query.PartyTransactionQuery | src/pages/reports.tsx:70-78 | the party query admits a transaction iff its owner is the user, `fromDate <= date <= toDate`, and, unless `'all'` is selected, its `partyId` is the selection; it orders by date descending, and it has a party condition exactly when the selection is not `'all'` |
| Query.ExpenseTransactionQuery | src/pages/reports.tsx:94-102 | the expense query admits a transaction iff its owner is the user, its date is in range, and, unless `'all'` is selected, its `expenseHeadId` is the selection; it orders by date descending, has a head condition exactly when the selection is not `'all'`, and never tests the party id |
| Query.InvertedRangeIsEmpty | src/pages/reports.tsx:72-73 | when `toDate` sorts before `fromDate`, no date is in range |
| Query.InRangeOfItself | src/pages/reports.tsx:72-73 | a one-day range from a date to itself contains that date |
| Query.SelectPartyTransactions | src/pages/reports.tsx:79-84 | the store returns exactly the admitted party transactions, each as often as the collection holds it, and the whole collection when every document is admitted |
| Query.SelectExpenseTransactions | src/pages/reports.tsx:103-108 | the store returns exactly the admitted expense transactions, each as often as the collection holds it, and the whole collection when every document is admitted |
| Reports.UserParties | src/pages/reports.tsx:36-48 | the party lookup table holds exactly the signed-in user's parties, and nothing when signed out |
| Reports.UserHeads | src/pages/reports.tsx:51-63 | the head lookup table holds exactly the signed-in user's heads, and nothing when signed out |
| Reports.FetchPartyTransactions | src/pages/reports.tsx:66-87 | a transaction is fetched iff the user is signed in, the report type includes parties, and it is the user's, in range and, unless `'all'`, of the selected party; each wanted transaction is fetched as often as the store holds it |
| Reports.FetchExpenseTransactions | src/pages/reports.tsx:90-111 | a transaction is fetched iff the user is signed in, the report type includes expenses, and it is the user's, in range and, unless `'all'`, of the selected head; each wanted transaction is fetched as often as the store holds it |
| Reports.BuildReport | src/pages/reports.tsx:113-144 | the rows are the fetched transactions in order, each with its looked-up entity. The totals split the rows by `isPaid`, net = received - paid, and the expense total sums every row. The sections follow the report type, and "no transactions found" shows iff the report is combined and both lists are empty |
| Reports.ExcludedKindIsEmpty | src/pages/reports.tsx:86 | a report type that leaves out a kind has no rows of that kind and zero totals for it |
| Reports.InvertedRangeFetchesNothing | src/pages/reports.tsx:70-78 | an inverted range fetches no transaction of either kind |
| Reports.InvertedRangeReport | src/pages/reports.tsx:136-144 | an inverted range gives no rows and all-zero totals, and no error arises |
| Reports.SignedOutReportIsEmpty | src/pages/reports.tsx:69 | with no user, there are no rows and all totals are zero |
| Reports.ReportRowsDateDescending | src/pages/reports.tsx:74 | rows stay date-descending when the store returns them date-descending |
| Scenarios.JanuaryTotals | src/pages/reports.tsx:114-142 | joining a 100 payment and a 60 receipt to Acme gives two Acme rows, paid 100, received 60 and net -40, and both rows show "Acme (Springfield)" |
| Scenarios.FebruaryOutsideMarch | src/pages/reports.tsx:96-97 | a 2024-02-01 expense is outside the range 2024-03-01..2024-03-31 |
| Scenarios.MarchReportExcludesFebruary | src/pages/reports.tsx:94-102 | that expense does not appear in a March expense report, whose total is 0 |
| TransactionEntry.PartyTransactionRows | src/pages/transactions.tsx:110-118 | the list keeps length and order; a row's party is absent iff no party has its `partyId`, and is otherwise the first party with that id, as `parties.find` returns |
| TransactionEntry.ExpenseTransactionRows | src/pages/transactions.tsx:121-131 | each expense row's head and party are each absent iff nothing carries the id, and are otherwise the first match `find` returns |
| TransactionEntry.PartyRowHeading | src/pages/transactions.tsx:422-423 | an unresolved party reads "Unknown (Unknown)"; a resolved party with a name and a town reads as them |
| TransactionEntry.ExpenseRowHeading | src/pages/transactions.tsx:578-589 | an unresolved head reads "Unknown" for both name and category |
| TransactionEntry.OptionalText | src/pages/transactions.tsx:150-153 | a description is kept iff it is not all whitespace, and then it is kept trimmed and non-empty |
| TransactionEntry.InitialPartyForm | src/pages/transactions.tsx:36-40 | the party form starts with no party, no amount and no description, "paid" ticked, dated today |
| TransactionEntry.SubmitPartyForm | src/pages/transactions.tsx:263-280 | submit is rejected iff `partyId` or the amount text is empty; otherwise the fields are passed on, and the description is passed iff it is not blank, as its trim |
| TransactionEntry.PartyTransactionDocumentFor | src/pages/transactions.tsx:142-153 | creation fails iff nobody is signed in. The document copies the fields, is owned by the acting user, and carries a description iff it is not blank, trimmed |
| TransactionEntry.PartyFormAfterCreate | src/pages/transactions.tsx:158-162 | after a create the party form is back in its initial state |
| TransactionEntry.SubmitPartyTransaction | src/pages/transactions.tsx:133-175 | something is written iff the date is set (the `required` date input at line 358 blocks the submit otherwise), validation passes, a user is signed in and the store accepts. Otherwise the form is untouched. After a write the form is reset and the document's description is the form's trimmed non-blank description |
| TransactionEntry.ResetPartyFormIsRejected | src/pages/transactions.tsx:158-162 | submitting the reset party form again writes nothing: it is rejected for missing fields and comes back as the initial form |
| TransactionEntry.OptionalTextOfOptionalText | src/pages/transactions.tsx:151-152 | applying the optional-description rule twice equals applying it once |
| TransactionEntry.InitialExpenseForm | src/pages/transactions.tsx:43-47 | the expense form starts with every text field empty, dated today |
| TransactionEntry.SubmitExpenseForm | src/pages/transactions.tsx:282-299 | submit is rejected iff the head, the party or the amount text is empty; otherwise the fields are passed on, and the description is passed iff it is not blank, as its trim |
| TransactionEntry.ExpenseTransactionDocumentFor | src/pages/transactions.tsx:186-197 | creation fails iff nobody is signed in. The document copies head, party, amount and date, is owned by the user, and keeps only a non-blank description, trimmed |
| TransactionEntry.ExpenseFormAfterCreate | src/pages/transactions.tsx:202-206 | after a create the expense form is back in its initial state |
| TransactionEntry.SubmitExpenseTransaction | src/pages/transactions.tsx:178-219 | something is written iff the date is set (the `required` date input at line 531), validation passes, a user is signed in and the store accepts; otherwise the form is untouched, and after a write it is reset |
| TransactionEntry.ResetExpenseFormIsRejected | src/pages/transactions.tsx:202-206 | submitting the reset expense form again writes nothing: it is rejected for missing fields and comes back as the initial form |
| DeletionGuard.ControlsFor | src/pages/parties.tsx:211-230 | a row shows the delete control iff the entity is unreferenced and the note iff it is referenced, never both |
| DeletionGuard.DeleteIssued | src/pages/parties.tsx:217-225 | a delete is issued only from a row that offers the control |
| Parties.PartyHasTransactions | src/pages/parties.tsx:65-67 | the guard holds iff some transaction has the party's id, and never on an empty list |
| Parties.GuardMonotone | src/pages/parties.tsx:66 | adding transactions never clears the guard |
| Parties.PartyRowControls | src/pages/parties.tsx:211-230 | delete is offered iff no transaction names the party, and the note appears iff one does |
| Parties.NoDeleteWhileReferenced | src/pages/parties.tsx:217-225 | a delete is issued iff the user confirms and the party has no transactions |
| Parties.CreatedKey | src/pages/parties.tsx:34-35 | `new Date(p.$createdAt \|\| 0).getTime()`: a missing creation time counts as 0, otherwise the time itself |
| Parties.Insert | src/pages/parties.tsx:33-37 | inserting into a newest-first list keeps it newest first and adds exactly the new party |
| Parties.SortNewestFirst | src/pages/parties.tsx:33-37 | the listed parties are a permutation of the fetched ones, ordered by creation time, newest first |
| Parties.UndatedSortLast | src/pages/parties.tsx:34-35 | a party with no creation time is listed after every party with a positive creation time |
| Parties.SubmitNewPartyForm | src/pages/parties.tsx:119-130 | submit is rejected iff the name or the town is all whitespace; otherwise both are passed trimmed and non-empty |
| Parties.PartyDocumentFor | src/pages/parties.tsx:70-77 | creation fails iff nobody is signed in; otherwise the document holds the name, the town and the acting user |
| Parties.SubmitParty | src/pages/parties.tsx:69-97 | something is written iff name and town are not blank, a user is signed in and the store accepts. After a write name and town reset to empty; otherwise the form is untouched |
| Parties.ResetNewPartyFormIsRejected | src/pages/parties.tsx:83-84 | submitting the cleared party form again writes nothing and is rejected for missing fields |
| ExpenseHeads.ExpenseHeadHasTransactions | src/pages/expense-heads.tsx:64-66 | the guard holds iff some expense transaction has the head's id, and never on an empty list |
| ExpenseHeads.GuardIgnoresPartyId | src/pages/expense-heads.tsx:65 | lists that agree on every `expenseHeadId` agree on the guard, whatever their party ids |
| ExpenseHeads.GuardMonotone | src/pages/expense-heads.tsx:65 | adding transactions never clears the guard |
| ExpenseHeads.HeadRowControls | src/pages/expense-heads.tsx:199-218 | delete is offered iff no transaction names the head, and the note appears iff one does |
| ExpenseHeads.NoDeleteWhileReferenced | src/pages/expense-heads.tsx:205-213 | a delete is issued iff the user confirms and the head has no transactions |
| ExpenseHeads.CategoryLabel | src/pages/expense-heads.tsx:20-25 | every category has a capitalised, non-empty label |
| ExpenseHeads.CategoryLabelInjective | src/pages/expense-heads.tsx:20-25 | no two categories share a label |
| ExpenseHeads.SubmitHeadForm | src/pages/expense-heads.tsx:115-126 | submit is rejected iff the name is all whitespace; otherwise the trimmed name and the chosen category are passed on |
| ExpenseHeads.HeadDocumentFor | src/pages/expense-heads.tsx:69-75 | creation fails iff nobody is signed in; otherwise the document holds name, category and the acting user |
| ExpenseHeads.SubmitHead | src/pages/expense-heads.tsx:68-93 | something is written iff the name is not blank, a user is signed in and the store accepts. After a write the form resets to an empty name with category "need"; otherwise it is untouched |
| ExpenseHeads.ResetHeadFormIsRejected | src/pages/expense-heads.tsx:79-80 | submitting the reset head form again writes nothing and is rejected for missing fields |

## Left out

- The store client and every `databases.*` call (`src/lib/appwrite.ts`): these are network I/O to a hosted service. Only the record shapes are modelled. A failed write appears only as the `storeAccepts` flag of the `Submit*` members. A failed fetch is not modelled: the fetches always succeed in the model, while in the program a failed query is retried once and then leaves `[]` or the previously cached data.
- Paging of store results: the store's list call returns one page of documents. The model assumes every query returns the whole matching collection.
- Server-side ordering: the date-descending order (`src/pages/reports.tsx:74`) is assumed as a lemma precondition. The order of the entity fetches (by name, or by `$id` before the party sort) is not modelled.
- Floating-point amounts: `parseFloat`, float addition, `formatCurrency` and `formatDate` are not modelled. Amounts are exact integers, and the parsed amount is a parameter beside the raw text. So a text that parses to NaN is not modelled either.
- Date parsing in the party sort: `new Date($createdAt).getTime()` is taken to be already done. `createdAt` holds milliseconds or nothing, and an unparseable timestamp (NaN) is not modelled.
- Parties.SortNewestFirst: it is stated as permutation plus newest-first order only. The stability that JavaScript's `sort` also gives to equal timestamps is not stated.
- Reports.ExcludedKindIsEmpty: it speaks of the view the model builds, in which a disabled query yields `[]`. In the program the party query key (`src/pages/reports.tsx:67`) does not include the report type, so after switching to an expense report the cached party rows and totals are still computed; they are only not rendered (`src/pages/reports.tsx:246`, `src/pages/reports.tsx:301`).
- TransactionEntry.SubmitPartyTransaction, TransactionEntry.SubmitExpenseTransaction: of the browser's own constraint validation, only the `required` date is modelled. The amount input's `step="0.01"` and bad-input checks are not modelled, because the parsed amount is a parameter. A browser block and the handler's toast are both reported as `MissingRequiredFields`.
- React rendering, toasts, `confirm` dialogs, loading states and the react-query cache. A query that is disabled is modelled as returning `[]`, but a disabled query can in fact still show cached data from an earlier fetch.
- The current-date defaults of the date fields (`src/pages/reports.tsx:30-31`, the `today` reset values), which depend on the clock. The clock is a parameter.
- Session plumbing, routing and navigation (`contexts/auth-context.tsx`, `App.tsx`, `components/layout/navbar.tsx`). Only "is there a signed-in user id" is modelled.
- Deletion of transactions, and the race between the deletion-guard check and the delete itself. Both are remote operations.
