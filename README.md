# InvoiceTracker — a Dafny model of the invoicing and expense core

InvoiceTracker is a small finance application: an Express/Mongoose server that keeps,
per signed-in user, clients, invoices and expenses, and a React/redux client that lists
them, edits them and draws a few dashboards over them. This project models the logic of
that application and proves what it promises.

The model follows the program's own files, one Dafny module per source file:

- **Server models** (`InvoiceModel`, `ClientModel`, `ExpenseModel`): the schema bounds
  as predicates over records, and the invoice's `save()` (validation, then the pre-save
  hooks: number assignment and the subtotal/total recomputation) as methods on an
  `InvoiceDoc` class.
- **Server routes** (`InvoiceRoutes`, `ClientRoutes`, `ExpenseRoutes`, `AuthRoutes`):
  the validation and sanitising chains as pure functions over request bodies, where a
  field may be missing, given, or of the wrong type.
- **Server controllers** (`InvoiceController`, `ClientController`, `ExpenseController`,
  `AuthController`): each handler as a method over an in-memory `Store.Database` that
  holds the four collections as sequences of records, each with an id and an owner.
  Every handler keeps the database invariant (unique ids, unique invoice numbers, client
  e-mails unique per user, every record within its schema), and its response and new
  state are stated through specification functions of the request and the old
  state; the route pipelines state the same for the sanitized body once the
  validation chain accepts it.
- **Redux slices** (`InvoiceSlice`, `ExpenseSlice`, `UserSlice`): each slice state is a
  class whose reducer cases are methods; the list updates they share (normalising ids,
  replacing the record with a matching id, removing by id) are in `SliceOps`.
- **Client components and pages**: the invoice form and the salary manager keep their
  editing state in classes (`InvoiceForm.InvoiceFormState`,
  `SalaryManager.SalaryEditor`); the lists, pages and panels are folds over the store's
  lists (`InvoiceList`, `ExpenseList`, `InvoicesPage`, `ExpensesPage`, `DashboardPage`,
  `StatsPanel`, `EnhancedStatsPanel`, `SalaryChart`); the expense list's sort is a
  method that writes the sorted list back into its array.
- **The API service** (`ApiService`): the token held in a class field mirrored in
  storage, the request headers, the query strings built by guarded `append` calls, and
  how an HTTP answer becomes a fulfilled or rejected thunk.
- Shared pieces: `Common` (status names, trimming, lower-casing, number text, the
  authorisation guard order), `Folds` (sums, counts, distinct keys, grouping, sorting
  and pagination with their lemmas), and `UiTypes` (the client's record shapes).

Money is a real number and dates are integer timestamps; a calendar function that maps
a timestamp to its year and month, the current time, fresh ids, the e-mail and
normalising library functions and the search pattern test are parameters.

Several places where two parts of the program disagree are stated and proved as lemmas
rather than smoothed over:

- The invoice form reads `tax` as a percentage of the subtotal, while the server adds it
  as an amount (`InvoiceForm.ServerReadsTaxAsAmount`); the two totals agree only when
  the tax is 0 or the subtotal is exactly 100.
- The form accepts any positive quantity and a one-letter client name; the server wants
  a quantity of at least 1 and a name of at least two characters
  (`InvoiceForm.FormAcceptsFractionalQuantity`, `InvoiceForm.FormAcceptsOneLetterName`).
- `updateInvoice` stores the item amounts as sent but computes the subtotal from
  quantity times rate, and the status update's save then recomputes the totals from the
  stored amounts (`InvoiceModel.StaleAmountsChangeTotalsOnSave`); an update that omits
  `tax` resets it to 0 (`InvoiceController.StatusOnlyUpdateResetsTax`).
- The client wants passwords of 8 or more characters, the server 6 or more
  (`AuthUtils.ClientPasswordStricterThanServer`).
- The slices' update reducers look for the payload's `id`, which the server's records
  (carrying only `_id`) lack, so such an update changes nothing
  (`SliceOps.ReplaceWithoutIdIsNoOp`).
- The enhanced statistics panel reads the expense slice's demo salary of 5000 while the
  salary manager reads the user slice's salary, 0 on a fresh store
  (`EnhancedStatsPanel.TwoSalaries`); the salary chart does not use the salary at all.
- Expense category colours depend on the category name's length only, so different
  categories share colours (`ExpenseList.ColorByLength`).
- The statistics pipelines compare the stored ObjectId owner with the requester's id
  as text, which an aggregation does not cast, so they find nothing
  (`InvoiceController.StatsAsWritten`, `ExpenseController.StatsAsWritten`; see
  "## Findings"); the rest of the model uses the intended statistics.
- Mongoose validates a document before its `pre('save')` hooks run, so the required
  invoice number is checked before the numbering hook could supply one: a create
  without a number is a 500 and the generated number is never used on create
  (`InvoiceController.BlankNumberIsServerError`; see "## Findings"). The handlers keep
  the source's 500, and `InvoiceController.CreateResultNumbered` states the answer
  with numbering before validation.

## Model

| member | source | states |
|---|---|---|
| Common.GuardCode | server/controllers/invoiceController.js:53-66 | 404 exactly when no record has the id, 401 exactly when it belongs to someone else, 200 exactly when it is the requester's |
| Common.StatusName | server/models/Invoice.js:68-72 | every status is named by one of the four enumeration values |
| Common.ParseStatus | server/routes/invoice.js:86-90 | a text names a status exactly when it is one of the four values |
| Common.StatusRoundTrip | server/models/Invoice.js:68-72 | parsing a status's name gives the status back, and a parsed text is that status's name |
| Common.TrimStart | server/models/Invoice.js:7 | the suffix left starts with no white space and only white space was removed |
| Common.TrimEnd | server/models/Invoice.js:7 | the prefix left ends with no white space and only white space was removed |
| Common.Trim | server/models/Invoice.js:7 | the trimmed text is no longer than the input, empty exactly when the input is all white space, and has no white space at either end |
| Common.TrimIsInfix | server/models/Invoice.js:7 | the trimmed text is the infix of the input that lies between a leading and a trailing run of white space only |
| Common.TrimIdempotent | server/models/Invoice.js:7 | trimming twice is trimming once |
| Common.TrimBlankIff | server/routes/invoice.js:28-31 | trimming leaves nothing exactly when the text is all white space |
| Common.TrimmedNotBlank | server/routes/invoice.js:28-31 | a non-blank text is still non-blank after trimming |
| Common.ToLower | server/models/Client.js:18 | lower-casing keeps the length, maps each character, and leaves no upper-case ASCII letter |
| Common.ToLowerIdempotent | server/models/Client.js:18 | lower-casing twice is the same as once |
| Common.NatToString | server/models/Invoice.js:100 | the decimal text of a number is non-empty, all digits, has no leading zero except for 0 itself, and its digits denote the number |
| Common.IntToString | server/models/Invoice.js:100 | the decimal text of an integer starts with a minus sign exactly when it is negative and reads back as that integer |
| Common.Dispatch | server/routes/invoice.js:93-99 | the chosen route matches the request and no earlier route does; none is chosen exactly when no route matches |
| Common.HandlerFor | server/routes/invoice.js:93-99 | a request reaches a handler exactly when some registered route matches its verb and path, and the handler is that of a matching route |
| Common.CastToObjectId | server/controllers/invoiceController.js:279 | the cast value is an ObjectId holding the id the text names; an ObjectId stays as it is |
| Folds.SumPointwise | server/controllers/invoiceController.js:97 | two lists whose elements agree position by position have the same sum |
| Folds.CountWhereBound | server/controllers/invoiceController.js:279 | a count of matching records never exceeds the list length |
| Folds.Distinct | client/src/components/expenses/ExpenseList.tsx:16 | the result has no duplicates and holds exactly the elements of the input |
| Folds.DistinctOrder | client/src/components/expenses/ExpenseList.tsx:16 | the distinct keys come in order of first occurrence |
| Folds.GroupsPartition | server/controllers/invoiceController.js:268-290 | grouping by key and adding up the groups gives back the plain sum and count |
| Folds.SortDesc | server/controllers/expenseController.js:199 | the result is sorted descending and is a permutation of the input |
| Folds.SortedHeadIsLargest | client/src/pages/Expenses.tsx:30 | the first element after sorting comes from the input and none is larger |
| Folds.PageCovers | server/controllers/invoiceController.js:29-39 | every record of a result set lies on exactly one page between 1 and the page count |
| Folds.IndexOf | server/controllers/invoiceController.js:50 | the first position whose key matches, or none exactly when no key matches |
| Folds.RemoveWhere | client/src/redux/invoiceSlice.ts:146 | the elements whose key differs, in their original order |
| Folds.Filter | client/src/components/invoice/InvoiceList.tsx:19-22 | the elements satisfying the predicate, in order |
| Folds.FilterAppend | client/src/components/invoice/InvoiceList.tsx:19-22 | filtering distributes over concatenation |
| Folds.GroupAll | server/controllers/expenseController.js:190-200 | the row counts add up to the number of records and the row totals to their sum; keys are unique and exactly those present; no row is empty |
| Folds.GroupAllRows | server/controllers/expenseController.js:190-200 | each row is its key's count and sum, and the keys are the distinct keys |
| Folds.FilterWhere | client/src/components/invoice/InvoiceList.tsx:19-22 | filtering on one key keeps exactly as many elements as the per-key count, with the per-key sum |
| Folds.SortedPage | server/controllers/invoiceController.js:26-33 | the page holds at most `limit` records, each passing the filter and taken from the input, largest key first, and it is the requested slice of the sorted matches |
| Folds.SortedPageCovers | server/controllers/invoiceController.js:26-39 | every record passing the filter is on one of the pages from 1 to the page count |
| Folds.Window | server/controllers/invoiceController.js:29-30 | none exactly when the skip `(page - 1) * limit` is negative; otherwise the records from the skip on, in order, at most the limit's bound of them (every remaining one for limit 0), and exactly as many as the bound when more remain |
| Folds.WindowIsPage | server/controllers/invoiceController.js:29-30 | for page and limit of at least 1 the window is that page |
| Folds.WindowSorted | server/controllers/invoiceController.js:28-30 | a window of a list sorted largest first is sorted largest first |
| Folds.PageCount | server/controllers/invoiceController.js:39 | no count (JSON `null`) exactly when the limit is 0; the ceiling of total over limit for a positive limit; for a negative limit the ceiling of the quotient, which is at most 0 |
| Folds.SortedWindow | server/controllers/invoiceController.js:26-33 | none exactly when the skip is negative; otherwise records passing the filter and taken from the input, largest key first, at most the limit's bound; the requested slice of the sorted matches when page and limit are at least 1, and all the sorted matches when the limit is 0 |
| Folds.FirstPageHoldsLargest | server/controllers/clientController.js:199-202 | a matching record with a larger key than some record on the first page is itself on the first page |
| Folds.GroupAllGroups | server/controllers/expenseController.js:190-200 | grouping answers the `$group`: keys distinct, each row its key's positive count and sum, and every element's key has a row |
| Folds.PermutedGroups | server/controllers/expenseController.js:199 | reordering the rows of a `$group` answer (a `$sort`) keeps it an answer |
| Folds.SingleGroup | server/controllers/invoiceController.js:268-277 | one element grouped, with rows counting one element in all, gives the single row of its key, count 1 and its value |
| Store.InvoiceAppendValid | server/models/Invoice.js:37-42 | appending an invoice with a new id and a new number that meets the schema keeps the table valid |
| Store.InvoiceReplaceValid | server/models/Invoice.js:37-42 | replacing an invoice by one with the same id and number that meets the schema keeps the table valid |
| Store.InvoiceRemoveValid | server/controllers/invoiceController.js:219 | removing by id keeps the invoice table valid |
| Store.ClientAppendValid | server/models/Client.js:47 | appending a client with a new id and a new (user, email) pair that meets the schema keeps the table valid |
| Store.ClientReplaceValid | server/models/Client.js:47 | replacing a client by one with the same id whose (user, email) pair no other client has keeps the table valid |
| Store.ClientRemoveValid | server/controllers/clientController.js:185 | removing by id keeps the client table valid |
| Store.ExpenseAppendValid | server/models/Expense.js:9-57 | appending an expense with a new id that meets the schema keeps the table valid |
| Store.ExpenseReplaceValid | server/models/Expense.js:9-57 | replacing an expense by one with the same id that meets the schema keeps the table valid |
| Store.ExpenseRemoveValid | server/controllers/expenseController.js:168 | removing by id keeps the expense table valid |
| Store.Database.FindInvoice | server/controllers/invoiceController.js:50 | `findById`: the position of the invoice with that id, or none exactly when there is none |
| Store.Database.FindClient | server/controllers/clientController.js:43 | `findById`: the position of the client with that id, or none exactly when there is none |
| Store.Database.FindExpense | server/controllers/expenseController.js:52 | `findById`: the position of the expense with that id, or none exactly when there is none |
| Store.Database.FindUser | server/controllers/authController.js:153 | the position of the account with that id, or none exactly when there is none |
| Store.Database.FindUserByEmail | server/controllers/authController.js:11 | `findOne({ email })`: the position of an account with that email, or none exactly when there is none |
| SliceOps.OrElse | client/src/redux/invoiceSlice.ts:36 | `message \|\| fallback`: the message when it is non-empty, else the fallback |
| SliceOps.UnCheckedOutcome | client/src/redux/invoiceSlice.ts:50-64 | the update thunk fulfils exactly when the request answered, with its data, whatever `success` says |
| SliceOps.DeleteOutcome | client/src/redux/invoiceSlice.ts:66-81 | the delete thunk fulfils with the id exactly when the request answered with success; an unsuccessful answer rejects with its message or "Delete failed" |
| SliceOps.NormalizedId | client/src/redux/invoiceSlice.ts:26 | the id is `id` when that is a string, else `_id` when that is a string, else a drawn text |
| SliceOps.Normalized | client/src/redux/invoiceSlice.ts:26 | a normalised record has a string id and the same fields; a record that had one is unchanged |
| SliceOps.Fetched | client/src/redux/invoiceSlice.ts:17-27 | rejects exactly when the payload has no array to map; otherwise every record of the unwrapped list (empty when there is no data) is normalised in place |
| SliceOps.NormalizeAll | client/src/redux/invoiceSlice.ts:26 | one normalised record per input record, all with string ids |
| SliceOps.NormalizeKeepsStringIds | client/src/redux/invoiceSlice.ts:26 | a list whose ids are all strings is unchanged by normalisation |
| SliceOps.ReplaceFirst | client/src/redux/invoiceSlice.ts:139-144 | same length; only the first record with the payload's id becomes the payload; with no such record the list is unchanged |
| SliceOps.ReplaceWithoutIdIsNoOp | client/src/redux/invoiceSlice.ts:178-183 | a payload without an `id` replaces nothing in a list whose ids are all strings |
| SliceOps.StringIdsKept | client/src/redux/invoiceSlice.ts:136-147 | replace, append and remove keep every id a string when the new record has one |
| InvoiceSlice.CreateOutcome | client/src/redux/invoiceSlice.ts:29-48 | the create thunk fulfils with the data exactly when the request answered with success; a failure rejects with the server's message or the fallback, a throw with its message or "Unknown error" |
| InvoiceSlice.StatusSet | client/src/redux/invoiceSlice.ts:148-153 | only the status of the first invoice with that id changes; with none the list is unchanged |
| InvoiceSlice.StatusSetKeepsTotals | client/src/redux/invoiceSlice.ts:148-153 | setting a status leaves the summed totals unchanged |
| InvoiceSlice.InvoiceState.constructor | client/src/redux/invoiceSlice.ts:10-13 | both lists start empty |
| InvoiceSlice.InvoiceState.AddInvoice | client/src/redux/invoiceSlice.ts:136-138 | the invoice is appended and the clients stay |
| InvoiceSlice.InvoiceState.UpdateInvoice | client/src/redux/invoiceSlice.ts:139-144 | the first invoice with the payload's id is replaced, if any, and the clients stay |
| InvoiceSlice.InvoiceState.DeleteInvoice | client/src/redux/invoiceSlice.ts:145-147 | every invoice with the id is removed, the rest keep their order, and the clients stay |
| InvoiceSlice.InvoiceState.UpdateInvoiceStatus | client/src/redux/invoiceSlice.ts:148-153 | only the status of the first matching invoice changes |
| InvoiceSlice.InvoiceState.AddClient | client/src/redux/invoiceSlice.ts:154-156 | the client is appended and the invoices stay |
| InvoiceSlice.InvoiceState.UpdateClient | client/src/redux/invoiceSlice.ts:157-162 | the first client with the payload's id is replaced, if any |
| InvoiceSlice.InvoiceState.DeleteClient | client/src/redux/invoiceSlice.ts:163-165 | every client with the id is removed |
| InvoiceSlice.InvoiceState.FetchInvoicesSettled | client/src/redux/invoiceSlice.ts:169-171 | a fulfilled fetch replaces the invoice list by the normalised payload; a rejected one changes nothing |
| InvoiceSlice.InvoiceState.FetchClientsSettled | client/src/redux/invoiceSlice.ts:172-174 | a fulfilled fetch replaces the client list by the normalised payload; a rejected one changes nothing |
| InvoiceSlice.InvoiceState.CreateInvoiceSettled | client/src/redux/invoiceSlice.ts:175-177 | a fulfilled create with data appends the normalised invoice; otherwise nothing changes |
| InvoiceSlice.InvoiceState.CreateClientSettled | client/src/redux/invoiceSlice.ts:187-189 | a fulfilled create with data appends the normalised client; otherwise nothing changes |
| InvoiceSlice.InvoiceState.UpdateInvoiceSettled | client/src/redux/invoiceSlice.ts:178-195 | a fulfilled update whose payload has an `id` replaces the first match; a payload without one, as the server sends, changes nothing |
| InvoiceSlice.InvoiceState.DeleteInvoiceSettled | client/src/redux/invoiceSlice.ts:184-186 | a fulfilled delete removes every invoice with the id; a rejected one changes nothing |
| ExpenseSlice.ExpenseState.constructor | client/src/redux/expenseSlice.ts:71-74 | no expenses and the demo salary of 5000 |
| ExpenseSlice.ExpenseState.AddExpense | client/src/redux/expenseSlice.ts:80-82 | the expense is appended and the salary stays |
| ExpenseSlice.ExpenseState.UpdateExpense | client/src/redux/expenseSlice.ts:83-88 | the first expense with the payload's id is replaced, if any |
| ExpenseSlice.ExpenseState.DeleteExpense | client/src/redux/expenseSlice.ts:89-91 | every expense with the id is removed |
| ExpenseSlice.ExpenseState.UpdateMonthlySalary | client/src/redux/expenseSlice.ts:92-94 | only the salary changes |
| ExpenseSlice.ExpenseState.FetchExpensesSettled | client/src/redux/expenseSlice.ts:5-15 | a fulfilled fetch replaces the list by the normalised payload; a rejected one changes nothing |
| ExpenseSlice.ExpenseState.CreateExpenseSettled | client/src/redux/expenseSlice.ts:101-103 | a fulfilled create with data appends the normalised expense; otherwise nothing changes |
| ExpenseSlice.ExpenseState.UpdateExpenseSettled | client/src/redux/expenseSlice.ts:104-109 | a fulfilled update whose payload has an `id` replaces the first match; otherwise nothing changes |
| ExpenseSlice.ExpenseState.DeleteExpenseSettled | client/src/redux/expenseSlice.ts:110-112 | a fulfilled delete removes every expense with the id; a rejected one changes nothing |
| Folds.Page | server/controllers/invoiceController.js:29-30 | a page holds at most `limit` records, the consecutive run starting after the skipped pages, and is empty exactly when the skip passes the end |
| Folds.TotalPages | server/controllers/invoiceController.js:39 | the page count is the rounded-up quotient: enough pages of `limit` for the total and no more, and 0 for no records |
| InvoiceModel.ItemsSumNonNeg | server/models/Invoice.js:3-24 | items within the item schema have a non-negative sum, whether summed by stored amount or by quantity × rate |
| InvoiceModel.GeneratedNumber | server/models/Invoice.js:100 | a generated number starts with `INV-`, has at least seven characters and is never blank |
| InvoiceModel.GeneratedNumberReadsBack | server/models/Invoice.js:100 | the number splits at a dash into `INV-`, a numeral that reads back as the time and digits that read back as the owner's count plus one |
| InvoiceModel.NumberHook | server/models/Invoice.js:97-103 | only a new document with an empty number gets the generated number; every other document, and every other field, is left as it was (on create, validation has already rejected an empty number, so it never fires there) |
| InvoiceModel.TotalsHook | server/models/Invoice.js:106-112 | with items, subtotal becomes the sum of stored amounts and total subtotal plus tax; with no items nothing changes; no other field changes |
| InvoiceModel.TotalsHookSound | server/models/Invoice.js:53-67 | on items within the schema the hook yields non-negative totals, and running it twice is the same as once |
| InvoiceModel.TotalsHookKeepsConsistent | server/models/Invoice.js:106-112 | the hook leaves unchanged an invoice whose totals already agree with its lines and tax |
| InvoiceModel.HookAgreesWithLineValues | server/models/Invoice.js:108 | when each stored amount is quantity × rate, the hook's subtotal equals quantity × rate summed |
| InvoiceModel.InvoiceDoc.constructor | server/models/Invoice.js:97-112 | a document being saved holds the given invoice and its new/existing flag |
| InvoiceModel.InvoiceDoc.AssignNumber | server/models/Invoice.js:97-103 | the document afterwards is the numbering hook applied to it |
| InvoiceModel.InvoiceDoc.RecomputeTotals | server/models/Invoice.js:106-112 | the document afterwards is the totals hook applied to it |
| InvoiceModel.InvoiceDoc.RunSaveHooks | server/models/Invoice.js:96-112 | both hooks run in registration order: numbering, then totals |
| InvoiceModel.InvoiceDoc.Save | server/models/Invoice.js:96-112 | `save()` validates first: it succeeds exactly when the document satisfies the schema, and only then runs both hooks; a failed save leaves the document as it was |
| InvoiceModel.Create | server/models/Invoice.js:37-42 | validation runs before the hooks: a document outside the schema (an empty number among others) is refused and nothing is stored; a valid one is stored as both hooks leave it, which is the totals hook alone since its number is not empty |
| InvoiceModel.StaleAmountsChangeTotalsOnSave | server/models/Invoice.js:106-110 | an invoice whose stored amount disagrees with quantity × rate has its subtotal and total changed by a later save |
| InvoiceRoutes.CreateValidIsUpdateValid | server/routes/invoice.js:21-84 | a body that passes the create chain (with a valid or absent status) passes the update chain |
| InvoiceRoutes.UpdateAcceptsItemWithoutQuantity | server/routes/invoice.js:55-67 | the update chain accepts an item with no quantity, which the create chain rejects |
| InvoiceRoutes.StatsBeforeId | server/routes/invoice.js:94-95 | `GET /stats` reaches the statistics handler; every other single-segment GET reaches getInvoice |
| InvoiceController.TaxOf | server/controllers/invoiceController.js:79 | the `tax = 0` default applies only when tax is absent; a validated tax is kept and is never negative |
| InvoiceController.NumberText | server/models/Invoice.js:37-42 | an absent number reads as empty; a sent number is empty after the trim exactly when it is blank |
| InvoiceController.Priced | server/controllers/invoiceController.js:91-94 | a validated line keeps its quantity and rate, is priced at quantity × rate, has its description trimmed and satisfies the item schema |
| InvoiceController.PricedItems | server/controllers/invoiceController.js:91-94 | every line is priced in place, one output line per input line |
| InvoiceController.Drafted | server/controllers/invoiceController.js:90-122 | the drafted document has one priced line per sent item, subtotal the sum of amounts and total subtotal plus tax |
| InvoiceController.NewInvoice | server/controllers/invoiceController.js:77-122 | the stored invoice belongs to the requester and client, is a draft, has the sent dates, priced lines within the item schema, subtotal the sum of quantity × rate, total subtotal plus tax, the client's contact details copied and the trimmed sent number; it satisfies the schema exactly when a number was sent and the client has a name and an e-mail |
| InvoiceController.OwnedClient | server/controllers/invoiceController.js:82 | found exactly when a client with that id belongs to the requester, and then it is that client |
| InvoiceController.CreateResult | server/controllers/invoiceController.js:77-139 | 404 exactly when the requester owns no such client; otherwise 500 exactly when the new invoice fails the schema or its number is already taken, which for a client within its schema means exactly a blank or absent number or a taken one; else 201 with the new invoice |
| InvoiceController.CreatedIsStorable | server/controllers/invoiceController.js:110-122 | an invoice the create decision accepts, under a fresh id, keeps the invoice table valid |
| InvoiceController.CreateInvoice | server/controllers/invoiceController.js:77-139 | the answer is the create decision, reached by validating the drafted document before the hooks; on 201 the invoice is appended and nothing else changes; otherwise nothing changes; the store stays valid |
| InvoiceController.NumberedInvoice | server/models/Invoice.js:97-103 | with numbering before validation, the stored invoice is `NewInvoice` except for its number, which is the trimmed one sent or else `INV-<now>-<count + 1>`; it satisfies the schema exactly when the client has a name and an e-mail |
| InvoiceController.CreateResultNumbered | server/controllers/invoiceController.js:77-139 | with numbering before validation: 404 exactly when no owned client; otherwise 500 exactly when the invoice fails the schema or its number is taken, which for a client within its schema is only a taken number; else 201 with the numbered invoice |
| InvoiceController.NumberedAgreesWhenSent | server/models/Invoice.js:97-103 | when a number is sent, numbering before validation gives the same answer and invoice as the source |
| InvoiceController.BlankNumberIsServerError | server/models/Invoice.js:37-42 | a body with a blank or absent number for an owned client within its schema, whose generated number is free: as written the answer is 500 with nothing created, while numbering before validation answers 201 with the generated number |
| InvoiceController.Stored | server/controllers/invoiceController.js:173-188 | an item the update stores keeps the amount that was sent, not quantity × rate |
| InvoiceController.StoredItems | server/controllers/invoiceController.js:173-188 | the sent items are stored exactly when each satisfies the item schema, one for one with their sent amounts |
| InvoiceController.UpdatedInvoice | server/controllers/invoiceController.js:162-189 | fails exactly when sent items break the item schema; otherwise ids, number, snapshot and paid date stay, tax becomes the sent one or 0, dates, notes and status change only when sent, and totals are recomputed from quantity × rate only when items are sent |
| InvoiceController.Patched | server/controllers/invoiceController.js:162-185 | ids, number, snapshot, paid date, items and totals stay; tax becomes the sent one or 0, and dates, notes and status change only when sent, a valid invoice staying valid |
| InvoiceController.StatusOnlyUpdateResetsTax | server/controllers/invoiceController.js:162-184 | an update that sends only a status resets tax to 0 and leaves total no longer equal to subtotal plus tax |
| InvoiceController.UpdateInvoice | server/controllers/invoiceController.js:144-196 | 404, then 401, leave everything; otherwise a schema failure is a 500 that changes nothing, else the invoice is replaced by its update in place |
| InvoiceController.DeleteInvoice | server/controllers/invoiceController.js:201-225 | the answer is the ownership guard's; only on success is the invoice removed, and the other tables never change |
| InvoiceController.DeleteRemovesOnlyThatInvoice | server/controllers/invoiceController.js:219 | after the removal no invoice has that id and every invoice with another id remains |
| InvoiceController.StatusPatched | server/controllers/invoiceController.js:250-255 | the status is set, the paid date is stamped with the time only for paid, every field other than paid date, subtotal and total is kept, and the save recomputes subtotal and total from the stored amounts when there are items |
| InvoiceController.UpdateInvoiceStatus | server/controllers/invoiceController.js:230-262 | the guard's answer; on success the invoice is replaced in place by its patched form and returned |
| InvoiceController.GetInvoice | server/controllers/invoiceController.js:49-72 | the guard's answer, with the invoice exactly on success, and then it is the requester's invoice with that id |
| InvoiceController.ListInvoices | server/controllers/invoiceController.js:8-44 | none (the 500) exactly when `(page - 1) * limit` is negative; otherwise matching invoices newest first, at most the limit's bound of them, `total` counting every match and `totalPages` being `Math.ceil(total / limit)` (`null` for limit 0); for page and limit of at least 1 the list is the requested slice of the sorted matches, and for limit 0 it is all of them |
| InvoiceController.EveryMatchIsListed | server/controllers/invoiceController.js:26-39 | every matching invoice appears on some page between 1 and the page count |
| InvoiceController.GetInvoices | server/controllers/invoiceController.js:8-44 | 200 with the listing of the stored invoices, or 500 exactly when the listing query fails |
| InvoiceController.StatsOf | server/controllers/invoiceController.js:267-292 | the rows answer the `$group` by status of the requester's invoices: statuses distinct, each row with that status's count and summed total; they add up to the invoice count and total amount, and with no invoices there are no rows and the amount is 0 |
| InvoiceController.StatsAsWritten | server/controllers/invoiceController.js:268-283 | as written, no status rows and a total amount of 0, while the count is the requester's invoice count |
| InvoiceController.StatsAsWrittenShowNothing | server/controllers/invoiceController.js:268-283 | one stored invoice with a positive total: as written it is counted but shows no row and no amount, while `StatsOf` shows its status row and its total |
| InvoiceController.GetInvoiceStats | server/controllers/invoiceController.js:267-293 | the handler answers the statistics of the stored invoices |
| InvoiceController.PostInvoice | server/routes/invoice.js:96 | a body the create chain rejects is a 400 that changes nothing; otherwise the answer and the invoice are the create decision (500 for a blank or absent number), the invoice is appended exactly on a 201, and the other tables stay |
| InvoiceController.PutInvoice | server/routes/invoice.js:97 | a body the update chain rejects is a 400 that changes nothing; otherwise the guard's 404 or 401 changes nothing, and for the owner the updated invoice replaces the old one in place (a 500 when the update cannot be stored) |
| InvoiceController.PatchInvoiceStatus | server/routes/invoice.js:99 | a status outside the four names is a 400 that changes nothing; otherwise the guard's answer, and for the owner the patched invoice, with the parsed status, replaces the old one in place |
| ClientModel.LowerKeepsClasses | server/models/Client.js:18-20 | lower-casing a character keeps it a word character, a joiner, a dot or an `@` exactly when it was one |
| ClientModel.EmailSplitLower | server/models/Client.js:18-20 | a split of an address into local part, domain and suffix survives lower-casing |
| ClientModel.EmailPatternLower | server/models/Client.js:18-20 | lower-casing, which the schema applies before the pattern is checked, never turns a matching address into one that fails |
| ClientModel.EmailPatternOneAt | server/models/Client.js:20 | an address the pattern accepts has exactly one `@`, the one it is split at |
| ClientModel.TrimOpt | server/models/Client.js:34-41 | an optional field stays absent or present; a present value gets no longer, is empty exactly when it was blank, and otherwise neither starts nor ends with white space |
| ClientModel.TrimOptIdempotent | server/models/Client.js:34-41 | setting an optional field twice stores what setting it once does |
| ClientRoutes.TrimField | server/routes/client.js:29-46 | a present field is replaced by its trimmed text; an absent one stays absent |
| ClientRoutes.Sanitized | server/routes/client.js:20-80 | the controller sees the email normalised and every other text field trimmed, each present exactly when it was sent |
| ClientRoutes.SanitizedCreateIsClean | server/routes/client.js:20-47 | a body that passes the create chain reaches the controller with name 2 to 100 characters, phone and address non-blank, company and tax id within their lengths |
| ClientRoutes.SanitizedUpdateIsClean | server/routes/client.js:49-80 | a body that passes the update chain reaches the controller with each sent field within the same rules |
| ClientRoutes.StatsBeforeId | server/routes/client.js:84-85 | `GET /stats` reaches the statistics handler; any other single segment is a client id |
| ClientController.NewClient | server/controllers/clientController.js:85-93 | the new client belongs to the requester, has its email lower-cased and its text fields trimmed, and satisfies the schema exactly when the lower-cased email matches the pattern |
| ClientController.CreateClient | server/controllers/clientController.js:69-100 | 400 exactly when the requester already has a client with that lower-cased email; otherwise 500 exactly when the schema rejects the client, else 201 and the client is appended; other tables never change |
| ClientController.CreateKeepsEmailsUnique | server/models/Client.js:47 | appending a client whose (user, email) pair is new keeps that pair unique in the table |
| ClientController.SetTrimmed | server/controllers/clientController.js:141-150 | a sent field replaces the stored one after trimming; an absent one keeps it |
| ClientController.SetOptional | server/controllers/clientController.js:141-150 | an optional sent field replaces the stored one after trimming; an absent one keeps it |
| ClientController.UpdatedClient | server/controllers/clientController.js:141-155 | ids and creation time stay, each sent field replaces the stored one through its setter, and for a valid client and clean body the schema fails only on a sent email that does not match the pattern |
| ClientController.UpdateKeepsEmailsDistinct | server/controllers/clientController.js:125-139 | when the conflict check passes, the updated client's (user, email) pair differs from every other client's |
| ClientController.UpdateClient | server/controllers/clientController.js:105-162 | 404, then 401; then 400 exactly on an email conflict and 500 exactly when the schema rejects the result; on 200 the client is replaced in place; on any error nothing changes |
| ClientController.DeleteClient | server/controllers/clientController.js:167-191 | the guard's answer; on success only the client is removed, and the invoices made out to it stay |
| ClientController.GetClient | server/controllers/clientController.js:42-64 | the guard's answer, with the client exactly on success, and then it is the requester's client with that id |
| ClientController.ListClients | server/controllers/clientController.js:7-37 | none (the 500) exactly when `(page - 1) * limit` is negative; otherwise matching clients newest first, at most the limit's bound of them, `total` counting every match and `totalPages` being `Math.ceil(total / limit)` (`null` for limit 0); for page and limit of at least 1 the list is the requested slice of the sorted matches, and for limit 0 it is all of them |
| ClientController.EveryMatchIsListed | server/controllers/clientController.js:18-33 | every matching client appears on some page between 1 and the page count |
| ClientController.GetClients | server/controllers/clientController.js:7-37 | 200 with the listing of the stored clients, or 500 exactly when the listing query fails |
| ClientController.StatsOf | server/controllers/clientController.js:196-211 | the requester's client count, and the first page of five of their clients newest first (all of them when fewer) |
| ClientController.RecentAreNewest | server/controllers/clientController.js:199-202 | an owned client created after one of the recent clients is among them |
| ClientController.GetClientStats | server/controllers/clientController.js:196-211 | the handler answers the statistics of the stored clients |
| ClientController.PostClient | server/routes/client.js:86 | a body the create chain rejects is a 400 that changes nothing; otherwise 400 exactly when the requester has a client with the normalised, lower-cased email, 500 exactly when the client built from the sanitized body fails the schema, and 201 with that client appended; nothing changes on a 400 or 500 and the other tables always stay |
| ClientController.PutClient | server/routes/client.js:87 | a body the update chain rejects is a 400 that changes nothing; otherwise the guard's 404 or 401 changes nothing, and for the owner a 400 exactly when another of the requester's clients has the new email, a 500 exactly when the updated client breaks the schema, and on 200 the updated client replaces the old one in place |
| ExpenseRoutes.TrimGiven | server/routes/expense.js:22-24 | a given field is replaced by its trimmed text; absent and malformed fields stay as they were |
| ExpenseRoutes.Sanitized | server/routes/expense.js:21-58 | the controller sees description and notes trimmed and every other field as sent |
| ExpenseRoutes.SanitizedCreateIsClean | server/routes/expense.js:21-58 | a body that passes the create chain reaches the controller with a non-blank description of at most 200 characters, a non-negative amount, a listed category and notes within 500 characters |
| ExpenseRoutes.SanitizedUpdateIsClean | server/routes/expense.js:60-100 | a body that passes the update chain reaches the controller with each sent field within the same rules |
| ExpenseRoutes.FixedPathsBeforeId | server/routes/expense.js:104-106 | `/stats` and `/categories` reach their handlers and are never taken for an id; every other single segment reaches getExpense |
| ExpenseController.GivenOr | server/controllers/expenseController.js:123-134 | a sent field replaces the stored value; an absent one keeps it |
| ExpenseController.NewExpense | server/controllers/expenseController.js:78-91 | the stored expense belongs to the requester, has the sent fields with the description, notes and receipt trimmed, is dated now when no date is sent, keeps the whole body as its snapshot and always satisfies the schema |
| ExpenseController.CreateExpense | server/controllers/expenseController.js:78-99 | creation always answers 201 and appends exactly the new expense; other tables never change |
| ExpenseController.UpdatedExpense | server/controllers/expenseController.js:123-134 | owner, id, snapshot and creation time stay, and each sent field replaces the stored one |
| ExpenseController.UpdatedExpenseValid | server/controllers/expenseController.js:123-134 | after a sanitized update a valid expense is still within the schema, so the update is never rejected |
| ExpenseController.UpdateExpense | server/controllers/expenseController.js:103-146 | the guard's answer; on success the expense is replaced in place by its update, otherwise nothing changes |
| ExpenseController.DeleteExpense | server/controllers/expenseController.js:150-175 | the guard's answer; on success only that expense is removed |
| ExpenseController.GetExpense | server/controllers/expenseController.js:51-73 | the guard's answer, with the expense exactly on success, and then it is the requester's expense with that id |
| ExpenseController.ListExpenses | server/controllers/expenseController.js:7-46 | none (the 500) exactly when `(page - 1) * limit` is negative; otherwise matching expenses latest date first, at most the limit's bound of them, `total` counting every match and `totalPages` being `Math.ceil(total / limit)` (`null` for limit 0); for page and limit of at least 1 the list is the requested slice of the sorted matches, and for limit 0 it is all of them |
| ExpenseController.EveryMatchIsListed | server/controllers/expenseController.js:27-42 | every matching expense appears on some page between 1 and the page count |
| ExpenseController.GetExpenses | server/controllers/expenseController.js:7-46 | 200 with the listing of the stored expenses, or 500 exactly when the listing query fails |
| ExpenseController.CategoryRows | server/controllers/expenseController.js:190-200 | the rows answer the `$group` by category of the matched expenses: categories distinct, each row with that category's count and summed amount; largest total first; they add up to the matched count and amount, and there are none without matches |
| ExpenseController.MonthRows | server/controllers/expenseController.js:212-229 | the rows answer the `$group` by month of the recent expenses: months distinct, each row with that month's count and summed amount; months strictly increasing; they add up to the recent count and amount |
| ExpenseController.StrictlyAscending | server/controllers/expenseController.js:228 | rows sorted earliest month first whose months are distinct have strictly increasing months |
| ExpenseController.StatsOf | server/controllers/expenseController.js:179-240 | category rows answering the `$group` by category of the requester's expenses in the date range, largest total first, adding up to the matched count and to `totalExpenses` (0 when nothing matches); monthly rows answering the `$group` by month of those since six months ago, months strictly increasing |
| ExpenseController.StatsAsWritten | server/controllers/expenseController.js:182-229 | as written, no category rows, a total of 0 and no monthly rows, whatever is stored |
| ExpenseController.StatsAsWrittenShowNothing | server/controllers/expenseController.js:182-229 | one recent expense with a positive amount: as written nothing shows, while `StatsOf` shows its category row, its amount and its month row |
| ExpenseController.GetExpenseStats | server/controllers/expenseController.js:179-240 | the handler answers the statistics of the stored expenses |
| ExpenseController.GetExpenseCategories | server/controllers/expenseController.js:244-264 | the handler's list is the schema's twelve categories in the same order |
| ExpenseController.PostExpense | server/routes/expense.js:107 | a body the create chain rejects is a 400 that changes nothing; any other body is a 201 that appends the expense built from the sanitized body, and the other tables stay |
| ExpenseController.PutExpense | server/routes/expense.js:108 | a body the update chain rejects is a 400 that changes nothing; otherwise the guard's 404 or 401 changes nothing, and for the owner the expense updated with the sanitized body replaces the old one in place |
| AuthRoutes.Sanitized | server/routes/auth.js:17-61 | the controller sees the name trimmed, the email normalised and the password as sent, each present exactly when it was sent |
| AuthRoutes.SanitizedRegisterIsClean | server/routes/auth.js:17-29 | a body that passes the register chain reaches the controller with a name of 2 to 50 characters after trimming, an email and a password of at least six characters |
| AuthRoutes.SanitizedProfileIsClean | server/routes/auth.js:41-52 | a body that passes the profile chain reaches the controller with a sent name within 2 to 50 characters |
| AuthRoutes.UnvalidatedRoutes | server/routes/auth.js:64-69 | exactly `/me` and `/updatesalary` run no validation chain |
| AuthController.Register | server/controllers/authController.js:7-45 | 400 and no change exactly when an account already has the email; otherwise 201 and exactly the new account (salary unset) is appended |
| AuthController.RegisterKeepsEmailsUnique | server/controllers/authController.js:11-24 | appending an account whose email is new keeps emails unique, and the new account is the one found by its email |
| AuthController.LoginResult | server/controllers/authController.js:48-95 | 400 exactly when email or password is absent or empty; success exactly when the account found by email accepts the password, and then it is that account; otherwise invalid credentials |
| AuthController.Login | server/controllers/authController.js:48-95 | login answers the login decision, 200 exactly on success, and changes nothing |
| AuthController.SameAnswerForUnknownEmailAndWrongPassword | server/controllers/authController.js:60-75 | an unknown email and a wrong password for a known one give the same invalid-credentials outcome |
| AuthController.GetMe | server/controllers/authController.js:99-117 | answers 200 with the requester's own account |
| AuthController.ProfileUpdated | server/controllers/authController.js:120-129 | only name and email change, each only when sent; id, password and salary stay |
| AuthController.UserReplaceValid | server/controllers/authController.js:126 | replacing an account by one with the same id keeps the users table valid |
| AuthController.UpdateProfile | server/controllers/authController.js:120-145 | answers 200 and replaces the requester's account by its profile update in place |
| AuthController.ProfileUpdateKeepsEmailsUnique | server/controllers/authController.js:120-129 | with one account per email, the update keeps it so exactly when no other account holds the email it stores |
| AuthController.ChangePassword | server/controllers/authController.js:150-170 | 401 and no change exactly when the current password does not match; otherwise 200 and only the password is replaced |
| AuthController.UpdateSalary | server/controllers/authController.js:175-198 | 400 and no change exactly when the salary is not a number or is negative; otherwise it is stored on the requester's account and returned |
| AuthController.PostRegister | server/routes/auth.js:64 | a body the register chain rejects is a 400 that changes nothing; otherwise 400 with no change exactly when an account has the normalised email, and else 201 appending the account with the trimmed name, normalised email, the password and no salary; the other tables always stay |
| AuthController.PostLogin | server/routes/auth.js:65 | a body the login chain rejects is a 400; any other gets the login decision on the sanitized body |
| AuthController.PutUpdateProfile | server/routes/auth.js:67 | a body the profile chain rejects is a 400 that changes nothing; any other is a 200 that replaces the requester's account by its profile update with the sanitized body, and the other tables stay |
| AuthController.PutChangePassword | server/routes/auth.js:68 | a body the password chain rejects is a 400 that changes nothing; otherwise a 401 that changes nothing exactly when the current password does not match, else a 200 that replaces only the password |
| AuthUtils.FirstAt | client/src/utils/auth.ts:31 | the position found holds the first `@`; none is found exactly when there is no `@` |
| AuthUtils.ValidEmail | client/src/utils/auth.ts:1-4 | the scan accepts exactly the texts the e-mail pattern matches |
| AuthUtils.ScanFindsPattern | client/src/utils/auth.ts:2 | split at the first `@`, the pattern holds exactly when the local part is non-empty and plain and the domain is plain with an inner dot |
| AuthUtils.PatternAtIsFirst | client/src/utils/auth.ts:2 | an `@` with none before it is the first one |
| AuthUtils.ValidEmailIff | client/src/utils/auth.ts:1-4 | valid exactly when there is no white space, exactly one `@` with a non-empty local part, and a `.` in the domain with text on both sides |
| AuthUtils.PlainAroundAt | client/src/utils/auth.ts:2 | plain text around an `@` means no white space and no other `@` |
| AuthUtils.OnlyAtSplitsPlain | client/src/utils/auth.ts:2 | no white space and a single `@` leave plain text on both sides of it |
| AuthUtils.ClientPasswordStricterThanServer | client/src/utils/auth.ts:6-9 | every password the browser accepts meets the server's six-character rule, but "abcdef" passes the server and not the browser |
| AuthUtils.BeforeAt | client/src/utils/auth.ts:31 | the text before the first `@`, or all of it when there is none |
| AuthUtils.MockLoginResult | client/src/utils/auth.ts:15-34 | an invalid email fails with its message before the password is checked; success exactly when both are valid, and then the name is the non-empty plain text before the only `@` |
| UserSlice.Fallback | client/src/redux/userSlice.ts:29-91 | every thunk has its own non-empty rejection message for an error that carries none |
| UserSlice.SalaryOrZero | client/src/redux/userSlice.ts:128 | a reply's salary is kept when present and read as 0 when absent |
| UserSlice.UserState.constructor | client/src/redux/userSlice.ts:5-19 | the slice starts signed out, not loading, without error, with salary 0 and the 50/30/20 allocation |
| UserSlice.UserState.Logout | client/src/redux/userSlice.ts:100-107 | identity and error are cleared and the user is signed out; salary, allocation and loading are kept |
| UserSlice.UserState.ClearError | client/src/redux/userSlice.ts:108-110 | only the error changes, to none |
| UserSlice.UserState.SetSalaryAllocation | client/src/redux/userSlice.ts:111-113 | only the allocation changes, to the one given |
| UserSlice.UserState.Pending | client/src/redux/userSlice.ts:118-121 | every pending phase raises loading; all but the salary update also clear the error; nothing else changes |
| UserSlice.UserState.Failed | client/src/redux/userSlice.ts:131-134 | every rejected phase lowers loading and records the thrown message or the thunk's fallback; the identity and salary stay |
| UserSlice.UserState.SignedIn | client/src/redux/userSlice.ts:122-130 | login, register and profile replies sign the user in with the payload's identity and its salary or 0, and keep the allocation |
| UserSlice.UserState.ProfileUpdated | client/src/redux/userSlice.ts:176-181 | a profile update replaces name and email only; the id and sign-in status stay |
| UserSlice.UserState.SalaryUpdated | client/src/redux/userSlice.ts:190-193 | a salary update stores the salary and leaves the error as it was |
| ApiService.Requested | client/src/services/api.ts:42-65 | a request throws exactly on a network failure or a failure status, with the body's message or "Something went wrong"; any other answer comes back unchanged |
| ApiService.FailureStatusRejects | client/src/services/api.ts:56-58 | a failure status makes the create, update and delete thunks reject, with the server's message when it sent one |
| ApiService.Service.constructor | client/src/services/api.ts:25-28 | the token is the one read back from storage, and field and storage agree |
| ApiService.Service.Headers | client/src/services/api.ts:30-40 | JSON content always comes first; an Authorization bearer header is present exactly when a non-empty token is set |
| ApiService.Service.SetToken | client/src/services/api.ts:300-303 | the token is set in the field and in storage alike |
| ApiService.Service.GetToken | client/src/services/api.ts:305-307 | the current token is returned |
| ApiService.Service.RemoveToken | client/src/services/api.ts:309-312 | the token is gone from the field and from storage |
| ApiService.Service.IsAuthenticated | client/src/services/api.ts:314-316 | authenticated exactly when a non-empty token is set |
| ApiService.Service.AuthAnswered | client/src/services/api.ts:68-92 | register and login store the returned token only on success with a non-empty token; otherwise the old token stays |
| ApiService.SignInThenOut | client/src/services/api.ts:74-76 | after a successful sign-in with a non-empty token the service is authenticated, whatever was stored before, and sends `Bearer <token>`; after `removeToken` it is not |
| ApiService.FailedSignInStaysOut | client/src/services/api.ts:87-89 | an unsuccessful answer, or one without a non-empty token, leaves a signed-out service signed out |
| ApiService.NumberText | client/src/services/api.ts:127-128 | a numeric parameter is sent exactly when present and non-zero, as its decimal text |
| ApiService.Text | client/src/services/api.ts:129-130 | a text parameter is sent exactly when present and non-empty, unchanged |
| ApiService.Appended | client/src/services/api.ts:126-132 | at most one parameter per field, and none exactly when no field is truthy |
| ApiService.AppendedSendsTruthy | client/src/services/api.ts:126-132 | every truthy field is sent under its own name with its own text |
| ApiService.AppendedOnlyTruthy | client/src/services/api.ts:126-132 | every sent parameter comes from a truthy field with that name and text |
| ApiService.Rank | client/src/services/api.ts:126-132 | the position of a field among those tested, naming that field when it is present |
| ApiService.AppendedInOrder | client/src/services/api.ts:126-132 | with distinct field names, the parameters come out in the order the fields are tested |
| ApiService.ConsInOrder | client/src/services/api.ts:126-132 | the first field's parameter, placed before the later ones, keeps the test order |
| ApiService.TailDistinct | client/src/services/api.ts:126-132 | the later fields keep distinct names |
| ApiService.TailRanksLater | client/src/services/api.ts:126-132 | a parameter from a later field ranks one place further in the whole list |
| ApiService.Serialize | client/src/services/api.ts:132 | a non-empty parameter list never serialises to the empty query |
| ApiService.WithQuery | client/src/services/api.ts:132 | the endpoint starts with the path and is longer than it exactly when a parameter was appended, with '?' before the query |
| ApiService.InvoiceQueryFields | client/src/services/api.ts:127-130 | the invoice list fields have distinct names |
| ApiService.ClientQueryFields | client/src/services/api.ts:190-192 | the client list fields have distinct names |
| ApiService.ExpenseQueryFields | client/src/services/api.ts:243-248 | the expense list fields have distinct names |
| ApiService.StatsQueryFields | client/src/services/api.ts:288-289 | the expense statistics fields have distinct names |
| ApiService.AppendedStep | client/src/services/api.ts:126-132 | testing one more field adds its parameter at the end exactly when it is truthy |
| ApiService.AppendedConcat | client/src/services/api.ts:126-132 | the parameters of two runs of fields are those of each run, one after the other |
| ApiService.AppendIf | client/src/services/api.ts:127 | one guarded append extends the parameters of the fields tested so far by the next field |
| ApiService.InvoicesEndpoint | client/src/services/api.ts:120-134 | the invoice list endpoint carries exactly the truthy parameters, in test order |
| ApiService.ClientsEndpoint | client/src/services/api.ts:184-196 | the client list endpoint carries exactly the truthy parameters, in test order |
| ApiService.ExpensesEndpoint | client/src/services/api.ts:234-252 | the expense list endpoint carries exactly the truthy parameters, in test order |
| ApiService.StatsEndpoint | client/src/services/api.ts:286-293 | the statistics endpoint carries exactly the truthy date parameters, in test order |
| ApiService.InvoiceQueryShape | client/src/services/api.ts:120-134 | status is sent exactly when non-empty and page only when non-zero; the order is page, limit, status, search; '?' appears exactly when one is truthy |
| InvoiceForm.Edited | client/src/components/invoice/InvoiceForm.tsx:74-77 | an edit keeps the row's id; a description edit changes only the description, a quantity or rate edit changes only that value and re-prices the row at quantity times rate |
| InvoiceForm.EditedAt | client/src/components/invoice/InvoiceForm.tsx:72-81 | only the row at the index becomes the edited row; every other row and the row count stay, and rows stay priced |
| InvoiceForm.RemovedAt | client/src/components/invoice/InvoiceForm.tsx:97 | a valid index loses exactly that row and keeps the others in order; any other index keeps the list |
| InvoiceForm.SelectedName | client/src/components/invoice/InvoiceForm.tsx:232-236 | the name of the first client whose option value is the chosen one, or empty when none matches |
| InvoiceForm.InvoiceFormState.constructor | client/src/components/invoice/InvoiceForm.tsx:35-47 | a new invoice starts numbered INV-now, issued today and due 30 days later, with one blank priced row, no tax and draft status |
| InvoiceForm.InvoiceFormState.SelectClient | client/src/components/invoice/InvoiceForm.tsx:231-237 | the chosen id and the matching client's name are stored; nothing else changes |
| InvoiceForm.InvoiceFormState.ChangeItem | client/src/components/invoice/InvoiceForm.tsx:71-84 | only the edited row changes, and priced rows stay priced |
| InvoiceForm.InvoiceFormState.AddItem | client/src/components/invoice/InvoiceForm.tsx:86-91 | one blank row is appended and nothing else changes |
| InvoiceForm.InvoiceFormState.RemoveItem | client/src/components/invoice/InvoiceForm.tsx:93-100 | a row is removed only while more than one exists, so the list never empties |
| InvoiceForm.FormTotals | client/src/components/invoice/InvoiceForm.tsx:189-191 | the subtotal is the sum of the row amounts (of quantity times rate when rows are priced), and the tax is read as a percentage of it; with no tax the total is the subtotal |
| InvoiceForm.CheckSubmit | client/src/components/invoice/InvoiceForm.tsx:148-157 | a client id that is not 24 hexadecimal characters is refused first; the form is ready exactly when there is a row and every row has a description, a positive quantity and a non-negative rate |
| InvoiceForm.Submitted | client/src/components/invoice/InvoiceForm.tsx:158-172 | the posted body carries every row's description, quantity, rate and amount in order, with the form's client, dates and tax |
| InvoiceForm.ServerAcceptsExactly | client/src/components/invoice/InvoiceForm.tsx:148-172 | the server's create checks accept the posted body exactly when the form is ready, every quantity is at least 1, every description is not blank and tax is not negative |
| InvoiceForm.FormAcceptsFractionalQuantity | client/src/components/invoice/InvoiceForm.tsx:154 | a row with quantity 0.5 passes the form and is refused by the server |
| InvoiceForm.ServerReadsTaxAsAmount | client/src/components/invoice/InvoiceForm.tsx:189-191 | for a body the server accepts, the stored subtotal is the one shown, the stored total is subtotal plus tax, and it matches the shown total only when tax is 0 or the subtotal is 100 |
| InvoiceForm.StoredLinesMatchForm | client/src/components/invoice/InvoiceForm.tsx:161-166 | lines priced from the posted quantities and rates add up to the form's own line values |
| InvoiceForm.ShownTotalIsPercent | client/src/components/invoice/InvoiceForm.tsx:190-191 | the shown total equals subtotal plus tax exactly when tax is 0 or the subtotal is 100 |
| InvoiceForm.PercentEqualsAmount | client/src/components/invoice/InvoiceForm.tsx:190-191 | adding t percent equals adding t exactly when t is 0 or the base is 100 |
| InvoiceForm.CheckNewClient | client/src/components/invoice/InvoiceForm.tsx:105-118 | a blank name is refused first; a new client is accepted exactly when the name is not blank and the e-mail matches the pattern |
| InvoiceForm.BlankIsNoEmail | client/src/components/invoice/InvoiceForm.tsx:109-118 | an e-mail that trims to nothing never matches the pattern |
| InvoiceForm.FormAcceptsOneLetterName | client/src/components/invoice/InvoiceForm.tsx:105-108 | a one-letter client name passes the form and is refused by the server's create checks |
| SalaryManager.SpendingPercentage | client/src/components/dashboard/SalaryManager.tsx:37 | with a positive salary, the percentage times the salary is 100 times the spending, and it exceeds 100 exactly when spending exceeds the salary; otherwise 0 |
| SalaryManager.ActualSavings | client/src/components/dashboard/SalaryManager.tsx:44 | never negative, at least the remainder, and either the remainder or 0 |
| SalaryManager.SavingsPercentage | client/src/components/dashboard/SalaryManager.tsx:45 | with a positive salary, the percentage times the salary is 100 times the savings; otherwise 0 |
| SalaryManager.PercentagesAddUp | client/src/components/dashboard/SalaryManager.tsx:34-45 | within the salary, the spent and saved percentages sum to 100; beyond it nothing is saved and more than 100 percent is spent |
| SalaryManager.Suggested | client/src/components/dashboard/SalaryManager.tsx:40-42 | each suggested amount is its share's percentage of the salary (home from wants, other from needs), and an allocation totalling 100 splits the salary exactly |
| SalaryManager.SpendingStatusOf | client/src/components/dashboard/SalaryManager.tsx:80-85 | excellent exactly up to 50 percent, danger exactly above 90, good between 50 and 70, warning between 70 and 90 |
| SalaryManager.StatusMonotone | client/src/components/dashboard/SalaryManager.tsx:80-85 | spending a larger percentage never earns a better grade |
| SalaryManager.AnalyticsMessage | client/src/components/dashboard/SalaryManager.tsx:90-104 | a salary of exactly 0 gets the prompt; otherwise the message's grade is the spending status, carrying the percentage and the savings, and spending beyond a positive salary reports the excess |
| SalaryManager.NegativeSalaryReadsExcellent | client/src/components/dashboard/SalaryManager.tsx:37 | a negative salary reads as 0 percent spent and is graded excellent whatever was spent |
| SalaryManager.InvestmentSuggestion | client/src/components/dashboard/SalaryManager.tsx:106-118 | portfolio exactly from 20000 saved, index funds from 10000, emergency fund from 5000, keep saving above 0, and reduce expenses exactly when nothing is saved |
| SalaryManager.SuggestionMonotone | client/src/components/dashboard/SalaryManager.tsx:106-118 | saving more never earns a lesser suggestion, and spending the whole salary or more is told to reduce expenses |
| SalaryManager.StoredOrDefault | client/src/components/dashboard/SalaryManager.tsx:15-19 | the stored allocation when there is one, otherwise 50/30/20, which totals 100 |
| SalaryManager.ParsedOrZero | client/src/components/dashboard/SalaryManager.tsx:48 | a salary text that parses gives its value; one that does not gives 0 |
| SalaryManager.WithShare | client/src/components/dashboard/SalaryManager.tsx:59-61 | only the named share takes the new value |
| SalaryManager.SalaryEditor.constructor | client/src/components/dashboard/SalaryManager.tsx:11-20 | neither editor is open; the text shows the salary and the draft is the stored allocation or the default |
| SalaryManager.SalaryEditor.SalaryChanged | client/src/components/dashboard/SalaryManager.tsx:22-24 | a new salary resets the text and nothing else |
| SalaryManager.SalaryEditor.AllocationChanged | client/src/components/dashboard/SalaryManager.tsx:26-32 | a new stored allocation resets the draft, even while it is being edited, and nothing else |
| SalaryManager.SalaryEditor.StartEditing | client/src/components/dashboard/SalaryManager.tsx:11 | the salary editor opens and nothing else changes |
| SalaryManager.SalaryEditor.EditSalaryText | client/src/components/dashboard/SalaryManager.tsx:12 | only the salary text changes |
| SalaryManager.SalaryEditor.Save | client/src/components/dashboard/SalaryManager.tsx:47-51 | the parsed salary, or 0, is dispatched and the editor closes; the text stays as typed |
| SalaryManager.SalaryEditor.Cancel | client/src/components/dashboard/SalaryManager.tsx:53-56 | the text goes back to the salary shown and the editor closes; the allocation stays |
| SalaryManager.SalaryEditor.StartEditingAlloc | client/src/components/dashboard/SalaryManager.tsx:20 | the allocation editor opens and nothing else changes |
| SalaryManager.SalaryEditor.ChangeAlloc | client/src/components/dashboard/SalaryManager.tsx:59-61 | one share of the draft takes the new value and nothing else changes |
| SalaryManager.SalaryEditor.SaveAlloc | client/src/components/dashboard/SalaryManager.tsx:62-70 | a draft totalling exactly 100 is dispatched and the editor closes; any other draft is refused and stays open; only a 100 total is ever dispatched |
| SalaryManager.SalaryEditor.CancelAlloc | client/src/components/dashboard/SalaryManager.tsx:71-78 | the draft returns to the stored allocation or the default, and the editor closes |
| SalaryManager.PanelFor | client/src/components/dashboard/SalaryManager.tsx:34-45 | the panel's spent amount is the sum of the expenses, the remainder is salary minus spent, danger means over 90 percent, an overspent positive salary reports the excess and suggests reducing expenses, and a 100 allocation splits the salary |
| InvoiceList.Filtered | client/src/components/invoice/InvoiceList.tsx:19-22 | every listed invoice comes from the store and passes the selected tab, and every store invoice that passes it is listed |
| InvoiceList.AllTabListsEverything | client/src/components/invoice/InvoiceList.tsx:20 | the all tab lists every invoice, in store order |
| InvoiceList.StatusTabListsExactly | client/src/components/invoice/InvoiceList.tsx:21 | a status tab lists as many invoices as carry that status, all of them with it, in store order, splitting over concatenation |
| InvoiceList.Badge | client/src/components/invoice/InvoiceList.tsx:103 | a tab's badge is the length of the list that tab shows, never more than the invoice count |
| InvoiceList.BadgesAddUp | client/src/components/invoice/InvoiceList.tsx:89-104 | the four status badges add up to the all badge |
| InvoiceList.StatusMenuComplete | client/src/components/invoice/InvoiceList.tsx:203-215 | the status menu offers each of the four statuses exactly once, under a name that parses back to it |
| InvoiceList.ToneFor | client/src/components/invoice/InvoiceList.tsx:37-48 | the gray badge exactly for a text that is not paid, sent or overdue |
| InvoiceList.IconFor | client/src/components/invoice/InvoiceList.tsx:24-35 | the file icon exactly for a text that is not paid, sent or overdue |
| InvoiceList.StatusLooks | client/src/components/invoice/InvoiceList.tsx:24-48 | icon colour and badge colour agree on every text; among stored statuses only draft is gray, and the other three look different from one another |
| ExpenseList.Categories | client/src/components/expenses/ExpenseList.tsx:16 | the category tabs name each category that occurs, once each, and no other |
| ExpenseList.CategoriesInFirstOccurrenceOrder | client/src/components/expenses/ExpenseList.tsx:16 | the tabs stand in the order their categories first occur |
| ExpenseList.Shown | client/src/components/expenses/ExpenseList.tsx:18-21 | every shown expense comes from the store and passes the filter, and every store expense that passes is shown |
| ExpenseList.FilterKeepsCategory | client/src/components/expenses/ExpenseList.tsx:18-21 | the all filter keeps every expense; a category keeps exactly its expenses, as many as carry it, splitting over concatenation |
| ExpenseList.CategoryBadge | client/src/components/expenses/ExpenseList.tsx:100 | a category badge is positive exactly for a category on the tab list, never more than the expense count |
| ExpenseList.CategoryBadgesAddUp | client/src/components/expenses/ExpenseList.tsx:83-100 | the category badges add up to the All badge |
| ExpenseList.ColorIndex | client/src/components/expenses/ExpenseList.tsx:38 | the colour index is the category's length modulo the six colours |
| ExpenseList.CategoryColor | client/src/components/expenses/ExpenseList.tsx:29-40 | a category's colour is the palette entry at its index |
| ExpenseList.ColorByLength | client/src/components/expenses/ExpenseList.tsx:38-39 | categories of equal length share a colour, so "Food & Dining" and "Entertainment" both show green |
| ExpenseList.SortByDateDesc | client/src/components/expenses/ExpenseList.tsx:116 | the array afterwards holds the stable newest-first sort of what it held, a permutation of it |
| ExpenseList.Listing | client/src/components/expenses/ExpenseList.tsx:114-116 | the listed expenses are the filtered ones, newest first, as a fresh array that leaves the store's list untouched |
| ExpensesPage.ThisMonth | client/src/pages/Expenses.tsx:19-23 | the sum over exactly the expenses dated in the current month and year; with non-negative amounts it lies between 0 and the overall total |
| ExpensesPage.CategoryTotals | client/src/pages/Expenses.tsx:25-28 | one entry per category, in first-occurrence order, holding that category's amount; the entries add up to the overall total |
| ExpensesPage.CategoriesEmptyIff | client/src/pages/Expenses.tsx:47 | there is a category exactly when there is an expense |
| ExpensesPage.TopCategory | client/src/pages/Expenses.tsx:30 | absent exactly when there are no expenses; otherwise a category on which no other category has spent more |
| ExpensesPage.HeadOutspends | client/src/pages/Expenses.tsx:30 | the head of the entries sorted by amount names a category with the largest amount |
| ExpensesPage.TopLabel | client/src/pages/Expenses.tsx:53 | the top category's name, or "None" when there is none |
| ExpensesPage.PageCards | client/src/pages/Expenses.tsx:32-57 | the total and this month's part of it, the category count (0 exactly without expenses, never more than the expenses), and a top category that exists or reads "None" |
| InvoicesPage.StatusCount | client/src/pages/Invoices.tsx:33-39 | the number of invoices with a status, the same as the list's badge for that tab |
| InvoicesPage.SentAndPaidWithinAll | client/src/pages/Invoices.tsx:33-39 | pending and paid together never exceed the invoice count |
| InvoicesPage.AmountSplitsByStatus | client/src/pages/Invoices.tsx:27 | the billed amount is the sum of the four per-status amounts |
| InvoicesPage.PageCards | client/src/pages/Invoices.tsx:18-43 | the count equals the all badge, the amount is the sum of the totals (non-negative when they are), pending counts sent, paid counts paid, and the two stay within the count |
| DashboardPage.Reversed | client/src/pages/Dashboard.tsx:29-30 | the same elements in the opposite order |
| DashboardPage.LastFive | client/src/pages/Dashboard.tsx:29-30 | the last five elements, or all of them when there are fewer, as a suffix of the list |
| DashboardPage.Recent | client/src/pages/Dashboard.tsx:29-30 | nothing when the value is not a list; otherwise the last five, last one first, which is the start of the whole list reversed |
| DashboardPage.NewestFirst | client/src/pages/Dashboard.tsx:29-30 | the record appended last heads the recent list |
| DashboardPage.FetchedListShowsOldest | client/src/pages/Dashboard.tsx:29-30 | for a list sorted newest first, as the server sends it, the shown records are oldest first and none is newer than a record left out |
| StatsPanel.PaymentRate | client/src/components/dashboard/StatsPanel.tsx:44 | 0 without invoices; otherwise the whole percentage within half a point of the paid share, never above 100 when paid is within the count, 100 when all are paid and 0 when none are |
| StatsPanel.RoundedShare | client/src/components/dashboard/StatsPanel.tsx:44 | the integer formula rounds the paid percentage half up to the nearest whole, keeping the 0 and 100 bounds |
| StatsPanel.NearestWhole | client/src/components/dashboard/StatsPanel.tsx:44 | bounds on twice the scaled share put the percentage within half a point of the rounded value |
| StatsPanel.PanelCards | client/src/components/dashboard/StatsPanel.tsx:9-46 | revenue is the sum of invoice totals, expenses the sum of amounts, net their difference, paid counts paid invoices out of all, and the rate is at most 100 and 0 without invoices |
| EnhancedStatsPanel.SavingsRate | client/src/components/dashboard/EnhancedStatsPanel.tsx:14-15 | with a positive salary, the rate times the salary is 100 times the remainder, non-negative exactly when the remainder is; otherwise 0 |
| EnhancedStatsPanel.RatesComplement | client/src/components/dashboard/EnhancedStatsPanel.tsx:15 | with a positive salary, the savings rate and the salary manager's spending percentage add up to 100; within budget it equals the manager's savings percentage, and over budget it is negative where the manager shows 0 |
| EnhancedStatsPanel.GradeFor | client/src/components/dashboard/EnhancedStatsPanel.tsx:58 | excellent exactly from 20 percent, improve exactly below 10, good between |
| EnhancedStatsPanel.TrendFor | client/src/components/dashboard/EnhancedStatsPanel.tsx:59 | positive exactly from 20 percent, negative exactly below 10, neutral between |
| EnhancedStatsPanel.GradeMonotone | client/src/components/dashboard/EnhancedStatsPanel.tsx:58-59 | a higher rate never grades lower, and grade and trend always go together |
| EnhancedStatsPanel.BudgetStatus | client/src/components/dashboard/EnhancedStatsPanel.tsx:73-78 | on track exactly when the remainder is not negative, showing what is left; otherwise over budget by a positive amount |
| EnhancedStatsPanel.PanelFor | client/src/components/dashboard/EnhancedStatsPanel.tsx:10-80 | revenue, expenses and net as in the basic panel; on track exactly when expenses fit the salary; the savings rate is the scaled remainder, non-negative exactly on track, and 0 with grade improve without a positive salary; paid is within the count |
| EnhancedStatsPanel.TwoSalaries | client/src/components/dashboard/EnhancedStatsPanel.tsx:8 | on a fresh store the panel reads the expense slice's demo salary and shows excellent with 5000 left, while the salary manager reads the user slice's 0 and asks for a salary |
| SalaryChart.Bars | client/src/components/dashboard/SalaryVsSpentChart.tsx:9-28 | three bars: income as the sum of invoice totals, expenses as the sum of amounts, and net as their difference |
| SalaryChart.PieData | client/src/components/dashboard/SalaryVsSpentChart.tsx:31-39 | one slice per category in first-occurrence order, valued at that category's amount; the slices add up to the overall total |
| SalaryChart.ShowsPie | client/src/components/dashboard/SalaryVsSpentChart.tsx:71 | the pie is drawn exactly when there is an expense; otherwise the empty message shows |
| SalaryChart.SliceColor | client/src/components/dashboard/SalaryVsSpentChart.tsx:84-85 | every slice colour is one of the six palette colours |
| SalaryChart.ColorsCycle | client/src/components/dashboard/SalaryVsSpentChart.tsx:41-85 | two slices share a colour exactly when their positions agree modulo six, so neighbouring slices always differ |

## Left out

- server/models/User.js and the authentication middleware are not part of this model; the user record and the "signed in" guard are modelled from how the controllers use them.
- Password hashing and token signing: matching a password is a parameter, and tokens are not modelled.
- HTTP, `fetch`, Express wiring, Mongoose query execution and the browser's storage: a request is a function call, a collection is a sequence, storage is a field.
- Floating point: money is a real number, so rounding, `toFixed` and `toLocaleString` are not modelled; `parseFloat` and `toString` are parameters.
- Form and URL percent-encoding: `encode` is a parameter of `ApiService.Serialize`.
- A numeric query parameter that is NaN is modelled as absent; an absent `params` object is modelled as every field absent.
- InvoiceForm: the edit branch of the initial state (client/src/components/invoice/InvoiceForm.tsx:22-34), `handleInputChange` and the new-client submit's store update are not modelled; the new-client checks are (`InvoiceForm.CheckNewClient`).
- Dates are integer timestamps; an invalid `Date` is not modelled, and the calendar (year and month of a timestamp) and the current time are parameters.
- Random ids (`generateId`, the `Math.random` fallback) are parameters.
- Async thunks racing one another: reducer cases are applied as a sequential trace.
- Ids on the client are modelled as a string or absent; numeric ids are not.
- ExpenseSlice: the update fulfilled case with an undefined payload throws in the source; the model leaves the state unchanged.
- SalaryManager: the `?? default` per share is collapsed into one stored-or-default allocation.
- JavaScript's ordering of integer-like object keys before other keys is not modelled; category keys keep first-occurrence order.
- Rendering, animation, icons, charts and `window.confirm` prompts are not modelled; a confirmed delete is a call.
- AuthController: the settings and dashboard handlers (server/controllers/authController.js:203-252) are not modelled.
- UserSlice: `logout` also removes the token from the API service; the two are separate classes here and the link is not modelled.
- InvoiceController.ListInvoices: the search on `client.name` runs before `populate`, so it never matches; it is modelled as never matching.
- Server-side error middleware: a schema failure (a blank or absent invoice number among them), or a duplicate invoice number, becomes a 500 answer without its message.
- InvoiceController.UpdatedInvoice: numbers in a request body are modelled as numbers. The update chain checks `tax` with `isFloat` but does not convert it (server/routes/invoice.js:76-79), and a URL-encoded or JSON body may carry it as text. For such a body with items, the handler's `total = subtotal + tax` (server/controllers/invoiceController.js:162-170) joins the two as text, so items worth 100 with tax `"5"` store a total of 1005 while the model gives 105. `InvoiceController.UpdateInvoice` and `InvoiceController.PutInvoice` inherit this. Creation is not affected, because the totals hook recomputes the total from the cast tax.
- GuardCode: an id that is not a 24-digit hexadecimal ObjectId makes `findById` throw a CastError, which the single-record handlers leave to the error middleware (server/server.js:54-61), answering 500; the model looks such an id up like any other and answers 404.
- ClientController.StatsOf: `recentClients` is the first five of the requester's clients newest first with equal `createdAt` values in store order; MongoDB leaves the order of such ties unspecified, so which of several equally recent clients fill the last places may differ in the source.
- UpdateInvoiceSettled (InvoiceSlice.InvoiceState): a fulfilled update with an undefined payload throws in the source (client/src/redux/invoiceSlice.ts:179, 191); the model leaves the state unchanged.
- ToLower: folds the ASCII letters only; Mongoose's `lowercase` uses JavaScript's Unicode `toLowerCase`, so two emails differing only in a non-ASCII letter's case are distinct in the model and equal in the source.
- AuthController.UpdateProfile: server/models/User.js is not part of this model, so whether a unique index on the user email turns a clashing update into a 500 is not known; the model always answers 200, keeps the store's invariant without user-email uniqueness, and `AuthController.ProfileUpdateKeepsEmailsUnique` states exactly when the update keeps emails unique.
- InvoiceController.ListInvoices: `page` and `limit` are modelled as integers; a query text that is not a number, or is fractional, is not modelled, and `currentPage` is the query text in the source where the model gives the number. Records with equal sort keys are listed in store order (a stable sort), while MongoDB leaves their order unspecified, so a page boundary that falls inside such a run may hold different records in the source.
- ClientController.ListClients: `page` and `limit` are modelled as integers; a query text that is not a number, or is fractional, is not modelled, and `currentPage` is the query text in the source where the model gives the number. Records with equal sort keys are listed in store order (a stable sort), while MongoDB leaves their order unspecified, so a page boundary that falls inside such a run may hold different records in the source.
- ExpenseController.ListExpenses: `page` and `limit` are modelled as integers; a query text that is not a number, or is fractional, is not modelled, and `currentPage` is the query text in the source where the model gives the number. Records with equal sort keys are listed in store order (a stable sort), while MongoDB leaves their order unspecified, so a page boundary that falls inside such a run may hold different records in the source.
- ExpenseController.MonthRows: the source's monthly `$group` (server/controllers/expenseController.js:219-227) outputs only the total per month; the model's rows also carry the month's count, which the answer does not include.

## Findings

| source | as written | input that shows it | evidently intended | confidence | as-written member | corrected member |
|---|---|---|---|---|---|---|
| server/controllers/invoiceController.js:268-283 | both aggregations `$match` the ObjectId field `user` with the text `req.user.id`, which an aggregation does not cast, while `countDocuments` casts it | one stored invoice of the requester with a positive total: `totalInvoices` is 1, `stats` is empty and `totalAmount` is 0 | one row per status of the requester's invoices and their summed total | not executed | InvoiceController.StatsAsWritten, InvoiceController.StatsAsWrittenShowNothing | InvoiceController.StatsOf |
| server/controllers/expenseController.js:182-219 | the three aggregations `$match` the ObjectId field `user` with the text `req.user.id`, which an aggregation does not cast | one recent expense of the requester with a positive amount: `categoryStats` and `monthlyStats` are empty and `totalExpenses` is 0 | category and month rows of the requester's expenses and their total | not executed | ExpenseController.StatsAsWritten, ExpenseController.StatsAsWrittenShowNothing | ExpenseController.StatsOf |
| server/models/Invoice.js:96-103 | the numbering hook is a `pre('save')` hook, and Mongoose validates before those run, so the `required` invoice number is checked first; createInvoice's catch answers 500 | a create body without `invoiceNumber` (or `"   "`) for an owned client: the answer is 500 and nothing is stored, the generated number is never assigned | a body without a number is stored under `INV-<now>-<count + 1>` (numbering registered as `pre('validate')`) | not executed | InvoiceController.CreateResult, InvoiceController.BlankNumberIsServerError | InvoiceController.CreateResultNumbered |
