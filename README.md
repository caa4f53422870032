# Invoice generator core in Dafny

This project models the core of a small invoice application written in TypeScript. It has three parts:

- **Layout engine** (`generateInvoice`). It turns an invoice into the ordered list of draw instructions placed on one A4 page. Texts, lines and rectangles carry their coordinates, font size, font and colour.
- **Schema provisioner and invoice store** (`initializeDatabase`, `checkTablesExist`, `saveInvoice`). These run against a MySQL server through a connection pool. A save provisions the schema, then inserts the header and the line items in one transaction. It commits, or on any error rolls back and rethrows, and it releases its connection in `finally`.
- **Line-item state of the invoice form.** This covers `addLineItem`, `removeLineItem`, `updateLineItem` and `calculateTotal`, the default invoice number, and the value the form hands to `saveInvoice`.

Modules:

- `Formatting` (formatting.dfy): the JavaScript string built-ins the code uses, each with the inverse that reads a printed value back.
  - `String(n)` / `toString()` on integers.
  - `padStart(2, "0")`.
  - `split("\n")`.
  - `toFixed(2)`.
- `InvoiceTypes` (invoice_types.dfy): the invoice value plus `Amount` (quantity × unit price) and `Total`. `Total` is the same left fold `reduce` performs.
- `Layout` (layout.dfy): the page as a function `Page`, built region by region. The method `GenerateInvoice` follows the source's sequence of draw calls and its `yPosition` / `total` loop, and is proved to produce `Page`.
- `Placement` (placement.dfy): where each part of the invoice lands on the page, as an index into the instruction list plus exact coordinates. It also shows that the printed total is the sum of the printed amounts.
- `DbState` (db_state.dfy): the server as the code can observe it, as a value `World`. The `Database` class holds the same state as fields and has one method per driver call.
  - The world holds the catalog, the committed rows, the AUTO_INCREMENT counters, the pending writes of the open transaction, the connection handles handed out and given back, and a log of the statements issued.
  - The invariant `Valid` includes the foreign key of `line_items` (app/db/init-db.ts:62): every item row references an invoice row, committed items committed invoices.
  - Which statement fails is not decided by the model. It is a parameter, the failure oracle `Failures`, which maps each step that fails to the driver's error message.
- `InitDb` (init_db.dfy): `initializeDatabase` and `checkTablesExist`, as the functions `Initialize` and `TablesExist` and as methods on a `Database`.
- `SaveProtocol` (save_invoice.dfy): `saveInvoice` as the function `Save` and as the method `SaveInvoice`. The helper method `RunTransaction` covers the statements from `beginTransaction` to `commit`.
- `LineItemState` (line_items.dfy): the form's `lineItems` state cell as a class whose methods replace the list, with lemmas about the resulting list.
  - `calculateTotal` (app/components/invoice-generator.tsx:111-113) is `LineItemList.CalculateTotal`, the fold `InvoiceTypes.Total`. Its properties are stated by `InvoiceTypes.TotalAppend`, `InvoiceTypes.TotalCons`, and the total clauses of `RemoveLineItemSpec`, `AddLineItemSpec` and `UpdateLineItemSpec`.

Units:

- Lengths are in hundredths of a point and colour components in hundredths. This makes every coordinate in the source an exact integer. An A4 page is therefore 59528 × 84189.
- Money is integer cents, so `quantity * unitPrice` and `toFixed(2)` are exact.

The model follows the code, including these behaviours of it that are easy to miss:

- `initializeDatabase` can throw rather than report a failure. Its `pool.getConnection()` sits outside the `try` (app/db/init-db.ts:15). `InitDb.InitThrowsOnlyOnConnect` states when this happens.
- A provisioning failure reaches the caller of `saveInvoice` with the fixed message "Failed to initialize database". The driver's cause is not included (`SaveProtocol.SaveInitFailure`).
- After a provisioning failure the save path still calls `rollback()`, although no transaction was begun.
- A failing `getConnection` in `saveInvoice` is rethrown without the "Failed to save invoice: " prefix (`SaveProtocol.SaveNoConnection`).
- A failing `rollback()` replaces the original error (`SaveProtocol.SaveFailurePrefix` excludes that case).
- The store computes each item's `amount` itself as `quantity * unitPrice` (app/actions/invoice-actions.ts:91). It also stores `totalAmount || 0` as sent, without checking it against the items. The header total matches the items only when the form sends the total of the same list (`LineItemState.FormSaveStoresConsistentTotal`).
- The existence check looks at the `invoices` table only. Suppose a provisioning run created `invoices` and then failed on `line_items`. Every later call that gets a connection and whose catalog query succeeds then reports the tables as existing, and `line_items` stays missing (`InitDb.PartialSchemaReportedComplete`, `InitDb.PartialSchemaPersists`). A call whose catalog query fails is told the tables are missing (app/db/init-db.ts:97-99). It re-runs the if-not-exists DDL and can create `line_items` (`InitDb.PartialSchemaRepairedWhenQueryFails`).

## Model

| member | source | states |
|---|---|---|
| Formatting.NatToStringDigits | app/actions/invoice-actions.ts:318 | an integer's decimal rendering is a non-empty digit string, a single digit exactly below 10, with no leading zero |
| Formatting.DigitsValueOfNatToString | app/actions/invoice-actions.ts:318 | the decimal rendering of n reads back as n |
| Formatting.IntToStringDigits | app/actions/invoice-actions.ts:318 | `quantity.toString()` is a "-" exactly for negative quantities followed by digits that read back to the magnitude |
| Formatting.PadStart | app/components/invoice-generator.tsx:69-71 | `padStart(width, "0")` returns a string of length max(\|s\|, width) |
| Formatting.PadStartZeros | app/components/invoice-generator.tsx:69-71 | padding leaves a long enough string alone and otherwise only prepends zeros |
| Formatting.TwoDigits | app/components/invoice-generator.tsx:69-71 | a number below 100, padded to 2, is two digits that read back as the number |
| Formatting.FourDigits | app/components/invoice-generator.tsx:69 | a year from 1000 to 9999 prints as four digits |
| Formatting.ToFixed2DollarsCents | app/actions/invoice-actions.ts:334 | `toFixed(2)` of an amount in cents is "-" exactly when it is negative, then the whole dollars in plain decimal, with no leading zero and "0" below one dollar, then a point and the cents as exactly two digits |
| Formatting.ParseFixed2OfToFixed2 | app/actions/invoice-actions.ts:334 | `toFixed(2)` of an amount in cents reads back to the same amount, negative amounts included |
| Formatting.ParseDollarsOfDollars | app/actions/invoice-actions.ts:326 | every currency cell `$${x.toFixed(2)}` reads back to x |
| Formatting.DollarsZero | app/actions/invoice-actions.ts:365 | a zero total prints as "$0.00" |
| Formatting.Split | app/actions/invoice-actions.ts:144 | `split("\n")` gives at least one piece, no piece contains a newline, and joining the pieces with "\n" gives the string back |
| Formatting.SplitLength | app/actions/invoice-actions.ts:144 | a string with k newlines splits into k + 1 lines |
| Formatting.SplitJoin | app/actions/invoice-actions.ts:144 | splitting a join of newline-free pieces gives back the pieces |
| InvoiceTypes.TotalAppend | app/components/invoice-generator.tsx:111-113 | the total of a concatenation of item lists is the sum of their totals |
| InvoiceTypes.TotalCons | app/components/invoice-generator.tsx:111-113 | the left fold equals the first amount plus the total of the rest |
| Layout.LinesAt | app/actions/invoice-actions.ts:145-152 | line i of a split block is a regular 10-point black text 15·i points below the block's first line |
| Layout.RowsSnoc | app/actions/invoice-actions.ts:293-343 | one more item appends exactly that item's row and adds exactly its amount to the running total |
| Layout.RowsLength | app/actions/invoice-actions.ts:293-343 | N rows draw 4N + ⌈N/2⌉ instructions: four cells per row plus a stripe on each even row |
| Layout.RowsPrefix | app/actions/invoice-actions.ts:293-343 | the instructions of the first j rows are those of the first j items, in order |
| Layout.RowAt | app/actions/invoice-actions.ts:293-343 | row k occupies the instructions from RowStart(k) on, one per element of the row |
| Layout.RowCellsWith | app/actions/invoice-actions.ts:310-340 | the four cells of row k sit at CellIndex(k, 0..3), after the row's stripe if it has one |
| Layout.CellsOfRow | app/actions/invoice-actions.ts:298-340 | wherever a row is laid out, its four cells directly follow its stripe, if any |
| Layout.CellGeometry | app/actions/invoice-actions.ts:310-340 | the cells of row k are at x = 60, 350, 430 and 510 points, all at y = tableTop − 40 − 25k |
| Layout.RowStripeWith | app/actions/invoice-actions.ts:298-308 | an even-indexed row starts with its background stripe, and an odd-indexed row starts directly with its first cell |
| Layout.RowStripesWith | app/actions/invoice-actions.ts:298-308 | the table body holds exactly ⌈N/2⌉ rectangles, one per even-indexed row |
| Layout.DrawLines | app/actions/invoice-actions.ts:144-153 | the `forEach` over split lines draws exactly `Lines` |
| Layout.DrawRow | app/actions/invoice-actions.ts:293-342 | one loop iteration draws row k at the cursor and yields the item's amount |
| Layout.DrawRows | app/actions/invoice-actions.ts:290-343 | the row loop draws `Rows(items)` and ends with yPosition = tableTop − 40 − 25N and total = the fold of quantity × unitPrice |
| Layout.DrawCompanyBlock | app/actions/invoice-actions.ts:135-169 | draws the company name, address lines, email and phone as `CompanyBlock` places them |
| Layout.DrawInvoiceDetails | app/actions/invoice-actions.ts:171-194 | issues the three draw calls of the details column, which together are `InvoiceDetails`; where they land is stated by `Placement.InvoiceDetailsPlaced` |
| Placement.InvoiceDetailsPlaced | app/actions/invoice-actions.ts:136-194 | the invoice number, date and due date form a column 200 points from the right edge, to the right of the company name; the first line is level with the company name and each line after it is 15 points lower |
| Layout.DrawBillTo | app/actions/invoice-actions.ts:204-238 | draws the "BILL TO:" block as `BillTo` places it |
| Layout.DrawTableHeader | app/actions/invoice-actions.ts:240-287 | issues the band and label draw calls, computing the column offsets from `columnWidths` as the source does, and produces exactly `TableHeader`; the band and label positions are stated by `Placement.HeaderOverColumn` |
| Placement.HeaderOverColumn | app/actions/invoice-actions.ts:240-336 | the header band spans the table from left to right and its top is the table's top line; label j lies inside the band at the x of cell j of every row, and every row lies below the band |
| Layout.DrawTotals | app/actions/invoice-actions.ts:345-371 | draws the totals band at the cursor after the last row with the running total |
| Layout.DrawNotes | app/actions/invoice-actions.ts:373-404 | draws the notes block only for non-empty notes |
| Layout.GenerateInvoice | app/actions/invoice-actions.ts:111-413 | the sequence of draw calls produces exactly `Page(d, formatDate)` |
| Placement.PageShape | app/actions/invoice-actions.ts:111-413 | the page is the head (16 + n + m instructions), the rows (RowStart(N) instructions) and the tail, in that order |
| Placement.CompanyAddressLine | app/actions/invoice-actions.ts:144-153 | company address line i is drawn at x = 50, 110 + 15i points below the top |
| Placement.CompanyEmail | app/actions/invoice-actions.ts:155-161 | the company email follows the n address lines, 110 + 15n points below the top |
| Placement.CompanyPhone | app/actions/invoice-actions.ts:163-169 | the company phone is 125 + 15n points below the top |
| Placement.ClientAddressLine | app/actions/invoice-actions.ts:221-230 | client address line i is drawn at x = 50, 215 + 15i points below the top |
| Placement.ClientEmail | app/actions/invoice-actions.ts:232-238 | the client email follows the m client address lines, 215 + 15m points below the top |
| Placement.RowCell | app/actions/invoice-actions.ts:310-340 | cell j of row k on the page is the row's cell j |
| Placement.RowAmount | app/actions/invoice-actions.ts:334-340 | row k's Amount cell prints quantity × unitPrice with two decimals at x = 510 on the row's cursor |
| Placement.RowUnitPrice | app/actions/invoice-actions.ts:326-332 | row k's Unit Price cell prints the unit price with two decimals at x = 430 |
| Placement.RowStripe | app/actions/invoice-actions.ts:298-308 | even row k starts with a 25-point stripe whose bottom is 15 points below the row's text, and odd rows have none |
| Placement.AmountCells | app/actions/invoice-actions.ts:334-340 | every Amount cell of the page holds its item's printed amount |
| Placement.AmountColumnTotal | app/actions/invoice-actions.ts:293-340 | on any page whose Amount cells hold the items' amounts, the first k read-back amounts add up to the total of the first k items |
| Placement.AmountCellValue | app/actions/invoice-actions.ts:334 | an Amount cell reads back as its item's amount |
| Placement.TailTotals | app/actions/invoice-actions.ts:345-371 | the tail starts with the totals rectangle over the right three columns, the "Total:" label and the formatted total |
| Placement.TotalsBox | app/actions/invoice-actions.ts:346-354 | the totals rectangle is drawn 15 points below the final cursor, at x = 350 and 195.28 points wide |
| Placement.TotalsValue | app/actions/invoice-actions.ts:365-371 | the printed total is the fold of quantity × unitPrice and reads back to it |
| Placement.PrintedTotal | app/actions/invoice-actions.ts:290-371 | the value printed in the totals band equals the sum of the values printed in the Amount column |
| Placement.EmptyTotals | app/actions/invoice-actions.ts:290-371 | with no items, the totals band sits right below the header and shows "$0.00" |
| Placement.TailNotes | app/actions/invoice-actions.ts:373-404 | for non-empty notes the tail holds the label, the box and one text per note line, and nothing else before the footer |
| Placement.NotesLabel | app/actions/invoice-actions.ts:375-381 | non-empty notes get a "NOTES:" label 50 points below the final cursor |
| Placement.NotesBox | app/actions/invoice-actions.ts:384-392 | the notes box is 15L + 20 points high, and its top edge is level with the label |
| Placement.NoteLine | app/actions/invoice-actions.ts:394-403 | note line i is drawn 70 + 15i points below the final cursor |
| Placement.NoNotes | app/actions/invoice-actions.ts:374 | empty notes draw nothing, and the footer follows the totals band |
| Placement.FooterLast | app/actions/invoice-actions.ts:407-413 | the footer caption is the last instruction on every page, at x = width/2 − 80 |
| DbState.EmptyWorldValid | app/db/init-db.ts:24 | a fresh server is well formed |
| DbState.InvoiceIdsSnoc | app/db/init-db.ts:24 | an `invoices` insert under the AUTO_INCREMENT id keeps ids increasing and below the counter |
| DbState.LineItemIdsSnoc | app/db/init-db.ts:54 | the same holds for `line_items` |
| DbState.CreateStepValid | app/db/init-db.ts:22-73 | a DDL statement keeps the state well formed |
| DbState.BeginStepValid | app/actions/invoice-actions.ts:32 | `beginTransaction` keeps the state well formed |
| DbState.InsertInvoiceStepValid | app/actions/invoice-actions.ts:35-67 | inserting the header inside a transaction keeps the state well formed; on success the new header's id is one that item rows may reference |
| DbState.InsertLineItemStepValid | app/actions/invoice-actions.ts:75-93 | inserting an item inside a transaction keeps the state well formed when its `invoice_id` is the id of an invoice the transaction can see (the foreign key) |
| DbState.CommitStepValid | app/actions/invoice-actions.ts:97 | `commit` keeps the state well formed: committed items reference committed invoices |
| DbState.RollbackStepValid | app/actions/invoice-actions.ts:104 | `rollback` keeps the state well formed |
| DbState.Database.constructor | app/actions/invoice-actions.ts:11-17 | a fresh server has no tables, no rows and no connections |
| DbState.Database.GetConnection | app/actions/invoice-actions.ts:20 | `pool.getConnection()` hands out a new handle |
| DbState.Database.ReleaseConnection | app/actions/invoice-actions.ts:108 | `connection.release()` gives that handle back |
| DbState.Database.CountInvoicesTables | app/db/init-db.ts:90-96 | the catalog count is positive exactly when `invoices` exists, is at most 1, and is absent when the query fails |
| DbState.Database.CreateIfNotExists | app/db/init-db.ts:22-73 | a `CREATE ... IF NOT EXISTS` is logged and, unless it fails, adds its object |
| DbState.Database.BeginTransaction | app/actions/invoice-actions.ts:32 | `beginTransaction` opens an empty transaction unless it fails |
| DbState.Database.InsertInvoice | app/actions/invoice-actions.ts:35-70 | the header insert adds a pending row under the counter's id and returns it as `insertId` |
| DbState.Database.InsertLineItem | app/actions/invoice-actions.ts:75-93 | an item insert adds a pending row carrying the invoice id and amount = quantity × unitPrice |
| DbState.Database.CommitTransaction | app/actions/invoice-actions.ts:97 | `commit` makes the pending rows durable and closes the transaction unless it fails |
| DbState.Database.RollbackTransaction | app/actions/invoice-actions.ts:104 | `rollback` discards the pending rows and closes the transaction |
| InitDb.CheckTablesExist | app/db/init-db.ts:87-101 | the answer is true exactly when the catalog query succeeds and finds `invoices`, and a failed query counts as false |
| InitDb.InitializeDatabase | app/db/init-db.ts:14-85 | the step-by-step calls end in exactly the state and outcome of `Initialize` |
| InitDb.CreateTablesEffect | app/db/init-db.ts:20-73 | the DDL logs the statements up to the first failing one, adds the objects of those that succeeded, reports an error unless all three succeed, and changes nothing else |
| InitDb.InitWhenTablesExist | app/db/init-db.ts:17-78 | when `invoices` is found, no DDL is issued and "Database tables already exist" is returned |
| InitDb.InitWhenTablesMissing | app/db/init-db.ts:20-81 | otherwise the DDL runs in order; success ("created") holds exactly when all three statements succeed, and otherwise the failure result is returned |
| InitDb.InitCreatesAll | app/db/init-db.ts:20-75 | a clean run on a missing schema issues exactly the three statements and creates all three objects |
| InitDb.InitThrowsOnlyOnConnect | app/db/init-db.ts:14-16 | the call throws exactly when no connection can be had, with the pool's error and no change |
| InitDb.InitReleasesOnce | app/db/init-db.ts:82-84 | the connection obtained is released exactly once, no other is released, and rows, counters and the transaction are untouched |
| InitDb.InitValid | app/db/init-db.ts:14-85 | provisioning keeps the state well formed |
| InitDb.InitFailureMessage | app/db/init-db.ts:79-81 | a failure result always carries "Failed to initialize database" |
| InitDb.InitIdempotent | app/db/init-db.ts:17-20 | after a successful call, a second call whose catalog query works issues no DDL and reports the tables as existing |
| InitDb.InitOnCompleteSchema | app/db/init-db.ts:22-73 | on a complete schema the if-not-exists DDL leaves the catalog unchanged |
| InitDb.PartialSchemaReportedComplete | app/db/init-db.ts:87-96 | after `line_items` failed to be created, the next call that connects and whose catalog query succeeds reports the tables as existing, and `line_items` stays missing |
| InitDb.PartialSchemaPersists | app/db/init-db.ts:14-96 | a schema with `invoices` but without `line_items` stays so under every call whose catalog query succeeds, and each such call reports the tables as existing |
| InitDb.PartialSchemaRepairedWhenQueryFails | app/db/init-db.ts:14-101 | when the catalog query fails, the catch reports the tables as missing; the if-not-exists DDL runs again, creates `line_items` and reports "created" |
| SaveProtocol.FirstLineFailure | app/actions/invoice-actions.ts:73-94 | the index of the first failing item insert: every insert before it succeeds |
| SaveProtocol.InsertLinesEffect | app/actions/invoice-actions.ts:73-94 | the loop inserts with consecutive ids exactly the items before the first failing one |
| SaveProtocol.InsertLinesErr | app/actions/invoice-actions.ts:73-94 | the loop reports no error exactly when no insert fails, and otherwise the error of the first failing one |
| SaveProtocol.InsertLinesFrame | app/actions/invoice-actions.ts:73-94 | the loop changes nothing but the pending item rows, their counter and the log |
| SaveProtocol.InsertLinesLog | app/actions/invoice-actions.ts:73-94 | the loop logs one insert per item tried, in order, the failing one included |
| SaveProtocol.TransactionEffect | app/actions/invoice-actions.ts:31-98 | the transaction commits exactly when none of its statements fails; then the header and the items are committed in order; otherwise nothing is committed |
| SaveProtocol.AfterInitFrame | app/actions/invoice-actions.ts:25 | provisioning leaves the rows, the counters and the transaction alone |
| SaveProtocol.SaveCommits | app/actions/invoice-actions.ts:19-110 | a save succeeds exactly when the connection is obtained, provisioning succeeds and no statement fails; then the header and one row per item are committed under a new id, which is returned |
| SaveProtocol.SavedRows | app/actions/invoice-actions.ts:35-93 | a successful save commits one header row with the new id, the notes and `totalAmount \|\| 0`, then one row per item in input order with that id, the item's description, quantity and unit price, and amount = quantity × unitPrice |
| SaveProtocol.SaveAtomic | app/actions/invoice-actions.ts:102-104 | a failed save leaves both committed tables unchanged and no transaction open |
| SaveProtocol.SaveNoConnection | app/actions/invoice-actions.ts:20 | without a connection the save changes nothing and throws the pool's error as is |
| SaveProtocol.SaveInitFailure | app/actions/invoice-actions.ts:25-29 | when provisioning fails no transaction is begun and no insert is issued; only the rollback follows the DDL, and the error carries both prefixes |
| SaveProtocol.SaveInitThrows | app/actions/invoice-actions.ts:25-106 | when `initializeDatabase` itself throws, its error is rethrown with the save prefix |
| SaveProtocol.SaveFailurePrefix | app/actions/invoice-actions.ts:102-106 | every error after the connection is obtained carries "Failed to save invoice: ", unless the rollback itself fails |
| SaveProtocol.SaveReleasesOnce | app/actions/invoice-actions.ts:107-109 | the save's connection is released exactly once on every path, as is the one provisioning takes, and no other handle is released |
| SaveProtocol.SaveValid | app/actions/invoice-actions.ts:19-110 | a save keeps the state well formed: ids unique and increasing, every line item referencing an existing invoice, no stray releases, no pending rows outside a transaction |
| SaveProtocol.SaveKeepsForeignKey | app/db/init-db.ts:62 | after any save, successful or failed, every committed line item's `invoice_id` is the id of a committed invoice |
| SaveProtocol.TransactionValid | app/actions/invoice-actions.ts:31-97 | the transaction keeps the state well formed |
| SaveProtocol.SaveFreshId | app/actions/invoice-actions.ts:70 | the returned id is not that of any invoice committed before |
| SaveProtocol.SumItemRows | app/actions/invoice-actions.ts:91 | the stored `amount` column of the inserted rows adds up to the items' total |
| SaveProtocol.StoredTotalMatchesItems | app/actions/invoice-actions.ts:65 | when the caller sends the total of the items it sends, the stored header total equals the sum of the stored item amounts |
| SaveProtocol.SaveInvoice | app/actions/invoice-actions.ts:19-110 | the step-by-step calls end in exactly the state and outcome of `Save` |
| SaveProtocol.RunTransaction | app/actions/invoice-actions.ts:31-97 | the statements from `beginTransaction` to `commit`, including the item loop, end in exactly the state and outcome of `Transaction` |
| LineItemState.WithoutIndexExact | app/components/invoice-generator.tsx:93 | the filter drops exactly the element at a valid index, keeps the rest in order, and drops nothing for any other index |
| LineItemState.RemoveLineItemSpec | app/components/invoice-generator.tsx:91-100 | removal never empties the list; with one item nothing changes; otherwise exactly that item goes and the total drops by its amount |
| LineItemState.AddLineItemSpec | app/components/invoice-generator.tsx:82-83 | adding appends one default item, keeps the existing ones and leaves the total unchanged |
| LineItemState.UpdateLineItemSpec | app/components/invoice-generator.tsx:102-109 | an update sets one field of one item (the description verbatim, numbers converted), leaves everything else as it was, and shifts the total by that item's change of amount |
| LineItemState.LineItemList.constructor | app/components/invoice-generator.tsx:50 | the list starts with one default item |
| LineItemState.LineItemList.AddLineItem | app/components/invoice-generator.tsx:82-89 | the state becomes the old list plus a default item, and the total is unchanged |
| LineItemState.LineItemList.RemoveLineItem | app/components/invoice-generator.tsx:91-100 | the state becomes `Removed(old list, index)` and is never empty |
| LineItemState.LineItemList.UpdateLineItem | app/components/invoice-generator.tsx:102-109 | the state becomes the old list with the one field of the one item set |
| LineItemState.LineItemList.CalculateTotal | app/components/invoice-generator.tsx:111-113 | `calculateTotal` is the `reduce` fold `Total` of the current list; its properties are carried by `InvoiceTypes.TotalAppend`, `InvoiceTypes.TotalCons` and the total clauses of `RemoveLineItemSpec`, `AddLineItemSpec` and `UpdateLineItemSpec` |
| LineItemState.DefaultInvoiceNumberFormat | app/components/invoice-generator.tsx:69-71 | for a four-digit year the default number is "INV-" + year + 2-digit month + 2-digit day + "-001", 16 characters, whose groups read back as year, month (counted from 1) and day |
| LineItemState.FormSaveStoresConsistentTotal | app/components/invoice-generator.tsx:153-162 | the form sends `calculateTotal()` of the list it sends, so a successful save stores a header total equal to the sum of the stored item amounts |

## Left out

- PDF rendering is not modelled: embedding the fonts, serialising the document and wrapping it in a `Blob` (app/actions/invoice-actions.ts:113-119, 416-419) are the job of pdf-lib. The model stops at the instruction list, and fonts are just Regular and Bold.
- `formatDate` is a parameter of the layout: app/utils/format-utils.ts is not part of this model.
- JavaScript numbers are doubles. The model uses whole quantities and integer cents, so it does not capture floating-point rounding in `quantity * unitPrice` or `toFixed(2)`, fractional quantities, or prices that are not a whole number of cents. `Number(value)` in `updateLineItem` becomes the conversion parameters `toQuantity` and `toCents`.
- The SQL text, the MySQL driver and the server's checks are not modelled. This covers NOT NULL, VARCHAR lengths, the DECIMAL(10, 2) range and the foreign key with ON DELETE CASCADE. The failure oracle decides which statements fail, and the `status`, `created_at` and `updated_at` column defaults are omitted.
- The two pools (app/db/init-db.ts:6-12 and app/actions/invoice-actions.ts:11-17) are modelled as one source of fresh connection handles. Reuse of pooled connections and pool limits are not modelled.
- Concurrent saves and the server's isolation level are not modelled; each call runs alone.
- `console.log` / `console.error` and `revalidatePath("/")` (app/actions/invoice-actions.ts:100) are not modelled, nor is a failure of `revalidatePath`.
- InitDb.InitResult: the `error` field of the failure result (app/db/init-db.ts:81) is omitted, because nothing reads it.
- DbState.RollbackStep: a failing `rollback()` is still modelled as discarding the transaction's writes; what the server does with a transaction whose rollback failed is not modelled. Only the failure's error message, which replaces the original one, comes from the oracle.
- LineItemState.LineItemList.UpdateLineItem: requires an index inside the list. The form only passes indices of rows it rendered, and an out-of-range write, which would grow a sparse JavaScript array, is not modelled.
- The form's dates come from the clock (app/components/invoice-generator.tsx:69-73), so `DefaultInvoiceNumber` takes year, month and day as parameters. The default issue and due dates are not modelled.
- The UI is not modelled: the JSX, the preview (app/components/invoice-preview.tsx), app/page.tsx, the toasts, the PDF download in `onSubmit`, and drizzle.config.ts.
