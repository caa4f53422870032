/**
 * The save protocol of `saveInvoice`: obtain a connection, provision the schema, begin a
 * transaction, insert the header and then the line items in list order, commit; on any
 * error roll back and rethrow with the prefix "Failed to save invoice: "; release the
 * connection in `finally`.
 */
module SaveProtocol {
  import opened Formatting
  import opened InvoiceTypes
  import opened DbState
  import opened InitDb

  /** How a call ends: `{success: true, invoiceId}`, or a thrown error with its message. */
  datatype SaveOutcome = Saved(invoiceId: nat) | Failed(message: string)

  /** How the `try` block ends: normally with the new id, or with the message of the error thrown. */
  datatype Attempt = Done(id: nat) | Error(message: string)

  const SaveFailedPrefix := "Failed to save invoice: "
  const InitFailedPrefix := "Database initialization failed: "

  /** The rows inserted for a list of items, with consecutive ids from `firstId`. */
  function ItemRows(firstId: nat, invoiceId: nat, items: seq<LineItem>): (rows: seq<LineItemRow>)
    ensures |rows| == |items|
  {
    seq(|items|, k requires 0 <= k < |items| => ItemRow(firstId + k, invoiceId, items[k]))
  }

  /** The log entries of the item inserts number `from` up to but excluding `to`. */
  function LineEvents(from: nat, to: nat): (es: seq<Event>)
    ensures |es| == if from <= to then to - from else 0
  {
    if from >= to then [] else seq(to - from, k requires 0 <= k < to - from => InsertedLineItem(from + k))
  }

  /** The index of the first item insert at or after j that fails, or |items| when none does. */
  function FirstLineFailure(fails: Failures, n: nat, j: nat): (f: nat)
    requires j <= n
    ensures j <= f <= n
    ensures forall k :: j <= k < f ==> InsertLineItem(k) !in fails
    ensures f < n ==> InsertLineItem(f) in fails
    decreases n - j
  {
    if j == n then n
    else if InsertLineItem(j) in fails then j
    else FirstLineFailure(fails, n, j + 1)
  }

  /** The `for (const item of data.lineItems)` loop from item j on; stops at the first error. */
  function InsertLines(w: World, invoiceId: nat, items: seq<LineItem>, j: nat, fails: Failures): (World, Option<string>)
    decreases |items| - j
  {
    if j >= |items| then (w, None)
    else
      var f := Lookup(fails, InsertLineItem(j));
      var w1 := InsertLineItemStep(w, invoiceId, j, items[j], f);
      if f.Some? then (w1, f) else InsertLines(w1, invoiceId, items, j + 1, fails)
  }

  /** From `beginTransaction` to `commit`. */
  function Transaction(w: World, d: InvoiceData, fails: Failures): (World, Attempt) {
    var fb := Lookup(fails, Begin);
    var w1 := BeginStep(w, fb);
    if fb.Some? then (w1, Error(fb.value)) else
    var fh := Lookup(fails, InsertInvoice);
    var id := w1.nextInvoiceId;
    var w2 := InsertInvoiceStep(w1, d, fh);
    if fh.Some? then (w2, Error(fh.value)) else
    var (w3, fl) := InsertLines(w2, id, d.lineItems, 0, fails);
    if fl.Some? then (w3, Error(fl.value)) else
    var fc := Lookup(fails, Commit);
    var w4 := CommitStep(w3, fc);
    if fc.Some? then (w4, Error(fc.value)) else (w4, Done(id))
  }

  /** The `try` block: provisioning, whose failure result is turned into an error, then the transaction. */
  function SaveBody(w: World, d: InvoiceData, fails: Failures): (World, Attempt) {
    var (w1, init) := Initialize(w, fails);
    if init.Threw? then (w1, Error(init.message))
    else if !init.result.success then (w1, Error(InitFailedPrefix + init.result.message))
    else Transaction(w1, d, fails)
  }

  /** `saveInvoice(data)`. A failing `getConnection` throws as is; everything after it is covered by catch and finally. */
  function Save(w: World, d: InvoiceData, fails: Failures): (World, SaveOutcome) {
    if Connect(SaveConnection) in fails then (w, Failed(fails[Connect(SaveConnection)]))
    else
      var c := w.nextConnection;
      var (w1, a) := SaveBody(Acquire(w), d, fails);
      match a
      case Done(id) => (Release(w1, c), Saved(id))
      case Error(m) =>
        var w2 := RollbackStep(w1);
        (Release(w2, c), Failed(if Rollback in fails then fails[Rollback] else SaveFailedPrefix + m))
  }

  /* ---------- the item loop ---------- */

  /**
   * The loop from item j inserts, with consecutive ids, exactly the items before the first
   * failing one ...
   */
  lemma {:induction false} InsertLinesEffect(w: World, invoiceId: nat, items: seq<LineItem>, j: nat, fails: Failures)
    requires j <= |items|
    ensures var w1 := InsertLines(w, invoiceId, items, j, fails).0;
      var f := FirstLineFailure(fails, |items|, j);
      w1.pendingLineItems == w.pendingLineItems + ItemRows(w.nextLineItemId, invoiceId, items[j..f]) &&
      w1.nextLineItemId == w.nextLineItemId + (f - j)
    decreases |items| - j
  {
    if j < |items| {
      var fj := Lookup(fails, InsertLineItem(j));
      var w1 := InsertLineItemStep(w, invoiceId, j, items[j], fj);
      if fj.Some? {
        assert ItemRows(w.nextLineItemId, invoiceId, items[j..j]) == [];
      } else {
        InsertLinesEffect(w1, invoiceId, items, j + 1, fails);
        ItemRowsCons(w.nextLineItemId, invoiceId, items, j, FirstLineFailure(fails, |items|, j));
      }
    } else {
      assert items[j..j] == [];
    }
  }

  /** ... reports the error of the first failing insert, if any ... */
  lemma {:induction false} InsertLinesErr(w: World, invoiceId: nat, items: seq<LineItem>, j: nat, fails: Failures)
    requires j <= |items|
    ensures var err := InsertLines(w, invoiceId, items, j, fails).1;
      var f := FirstLineFailure(fails, |items|, j);
      (err.None? <==> f == |items|) &&
      (f < |items| ==> err == Some(fails[InsertLineItem(f)]))
    decreases |items| - j
  {
    if j < |items| {
      var fj := Lookup(fails, InsertLineItem(j));
      if fj.None? {
        InsertLinesErr(InsertLineItemStep(w, invoiceId, j, items[j], fj), invoiceId, items, j + 1, fails);
      }
    }
  }

  /** ... changes nothing but the pending rows, their counter and the log ... */
  lemma {:induction false} InsertLinesFrame(w: World, invoiceId: nat, items: seq<LineItem>, j: nat, fails: Failures)
    ensures var w1 := InsertLines(w, invoiceId, items, j, fails).0;
      w1 == w.(pendingLineItems := w1.pendingLineItems, nextLineItemId := w1.nextLineItemId, log := w1.log)
    decreases |items| - j
  {
    if j < |items| {
      var fj := Lookup(fails, InsertLineItem(j));
      if fj.None? {
        InsertLinesFrame(InsertLineItemStep(w, invoiceId, j, items[j], fj), invoiceId, items, j + 1, fails);
      }
    }
  }

  /** ... and logs one insert per item tried, the failing one included. */
  lemma {:induction false} InsertLinesLog(w: World, invoiceId: nat, items: seq<LineItem>, j: nat, fails: Failures)
    requires j <= |items|
    ensures var f := FirstLineFailure(fails, |items|, j);
      InsertLines(w, invoiceId, items, j, fails).0.log == w.log + LineEvents(j, if f < |items| then f + 1 else f)
    decreases |items| - j
  {
    if j < |items| {
      var fj := Lookup(fails, InsertLineItem(j));
      if fj.Some? {
        assert LineEvents(j, j + 1) == [InsertedLineItem(j)];
      } else {
        InsertLinesLog(InsertLineItemStep(w, invoiceId, j, items[j], fj), invoiceId, items, j + 1, fails);
        var f := FirstLineFailure(fails, |items|, j);
        LineEventsCons(j, if f < |items| then f + 1 else f);
      }
    }
  }

  lemma ItemRowsCons(firstId: nat, invoiceId: nat, items: seq<LineItem>, j: nat, f: nat)
    requires j < f <= |items|
    ensures ItemRows(firstId, invoiceId, items[j..f])
      == [ItemRow(firstId, invoiceId, items[j])] + ItemRows(firstId + 1, invoiceId, items[j + 1..f])
  {
  }

  lemma LineEventsCons(j: nat, e: nat)
    requires j < e
    ensures LineEvents(j, e) == [InsertedLineItem(j)] + LineEvents(j + 1, e)
  {
  }

  /* ---------- the transaction ---------- */

  /** The transaction commits exactly when none of its statements fails. */
  predicate TransactionClean(fails: Failures, n: nat) {
    Begin !in fails && InsertInvoice !in fails && Commit !in fails &&
    forall k :: 0 <= k < n ==> InsertLineItem(k) !in fails
  }

  /**
   * On commit the header gets the counter's id, the committed tables grow by the header and
   * by one row per item in input order, and the log shows the statements in protocol order.
   * Otherwise nothing is committed. The catalog and the connections are not touched.
   */
  lemma TransactionEffect(w: World, d: InvoiceData, fails: Failures)
    ensures var (w1, a) := Transaction(w, d, fails);
      var n := |d.lineItems|;
      (a.Done? <==> TransactionClean(fails, n)) &&
      (a.Done? ==>
        a.id == w.nextInvoiceId &&
        w1.invoices == w.invoices + [HeaderRow(a.id, d)] &&
        w1.lineItems == w.lineItems + ItemRows(w.nextLineItemId, a.id, d.lineItems) &&
        w1.log == w.log + [Began, InsertedInvoice] + LineEvents(0, n) + [Committed] &&
        !w1.inTransaction && w1.pendingInvoices == [] && w1.pendingLineItems == []) &&
      (a.Error? ==> w1.invoices == w.invoices && w1.lineItems == w.lineItems) &&
      w1.catalog == w.catalog && w1.nextConnection == w.nextConnection && w1.released == w.released
  {
    var fb := Lookup(fails, Begin);
    var w1 := BeginStep(w, fb);
    var fh := Lookup(fails, InsertInvoice);
    if fb.None? && fh.None? {
      var id := w1.nextInvoiceId;
      var w2 := InsertInvoiceStep(w1, d, fh);
      InsertLinesEffect(w2, id, d.lineItems, 0, fails);
      InsertLinesLog(w2, id, d.lineItems, 0, fails);
      InsertLinesErr(w2, id, d.lineItems, 0, fails);
      InsertLinesFrame(w2, id, d.lineItems, 0, fails);
      var f := FirstLineFailure(fails, |d.lineItems|, 0);
      assert d.lineItems[0..|d.lineItems|] == d.lineItems;
      if f < |d.lineItems| {
        assert !TransactionClean(fails, |d.lineItems|);
      }
      assert [] + [HeaderRow(id, d)] == [HeaderRow(id, d)];
      assert [] + ItemRows(w.nextLineItemId, id, d.lineItems) == ItemRows(w.nextLineItemId, id, d.lineItems);
    }
  }

  /* ---------- the properties of saveInvoice ---------- */

  /** The world after the connection is obtained and provisioning has run. */
  function AfterInit(w: World, fails: Failures): World {
    Initialize(Acquire(w), fails).0
  }

  /** Whether provisioning reported success (it neither threw nor returned `success: false`). */
  predicate InitSucceeded(w: World, fails: Failures) {
    var out := Initialize(Acquire(w), fails).1;
    out.Returned? && out.result.success
  }

  /** Provisioning leaves the rows, their counters and the open transaction alone. */
  lemma AfterInitFrame(w: World, fails: Failures)
    ensures var w1 := AfterInit(w, fails);
      w1.invoices == w.invoices && w1.lineItems == w.lineItems &&
      w1.nextInvoiceId == w.nextInvoiceId && w1.nextLineItemId == w.nextLineItemId &&
      w1.inTransaction == w.inTransaction &&
      w1.pendingInvoices == w.pendingInvoices && w1.pendingLineItems == w.pendingLineItems
  {
    var (w1, out) := Initialize(Acquire(w), fails);
    if out.Returned? {
      CreateTablesEffect(Acquire(Acquire(w)), fails);
    }
  }

  /**
   * A save succeeds exactly when the connection is obtained, provisioning succeeds and no
   * statement of the transaction fails; then one header row with `notes || ""` and
   * `totalAmount || 0` is committed under a new id, followed by one row per item, in input
   * order, each carrying that id and `amount = quantity * unitPrice`, and `{success: true,
   * invoiceId}` is returned. With no items only the header is committed.
   */
  lemma SaveCommits(w: World, d: InvoiceData, fails: Failures)
    ensures var (w1, out) := Save(w, d, fails);
      (out.Saved? <==>
        Connect(SaveConnection) !in fails && InitSucceeded(w, fails) && TransactionClean(fails, |d.lineItems|)) &&
      (out.Saved? ==>
        out.invoiceId == w.nextInvoiceId &&
        w1.invoices == w.invoices + [HeaderRow(out.invoiceId, d)] &&
        w1.lineItems == w.lineItems + ItemRows(w.nextLineItemId, out.invoiceId, d.lineItems) &&
        w1.log == AfterInit(w, fails).log + [Began, InsertedInvoice] + LineEvents(0, |d.lineItems|) + [Committed])
  {
    if Connect(SaveConnection) !in fails {
      AfterInitFrame(w, fails);
      if InitSucceeded(w, fails) {
        TransactionEffect(AfterInit(w, fails), d, fails);
      }
    }
  }

  /**
   * The rows committed on top of w: one header with id, `notes || ""` and `totalAmount || 0`,
   * then the items in input order, each with that id and `amount = quantity * unitPrice`.
   */
  predicate RowsAsSent(w: World, w1: World, d: InvoiceData, id: nat) {
    var n := |w.lineItems|;
    |w1.invoices| == |w.invoices| + 1 &&
    w1.invoices[|w.invoices|].id == id &&
    w1.invoices[|w.invoices|].notes == d.notes &&
    w1.invoices[|w.invoices|].totalAmount == (if d.totalAmount.Some? then d.totalAmount.value else 0) &&
    |w1.lineItems| == n + |d.lineItems| &&
    forall k :: 0 <= k < |d.lineItems| ==>
      w1.lineItems[n + k].invoiceId == id &&
      w1.lineItems[n + k].description == d.lineItems[k].description &&
      w1.lineItems[n + k].quantity == d.lineItems[k].quantity &&
      w1.lineItems[n + k].unitPrice == d.lineItems[k].unitPrice &&
      w1.lineItems[n + k].amount == d.lineItems[k].quantity * d.lineItems[k].unitPrice
  }

  /** The committed header and item rows of a successful save, spelled out field by field. */
  lemma SavedRows(w: World, d: InvoiceData, fails: Failures)
    requires Save(w, d, fails).1.Saved?
    ensures RowsAsSent(w, Save(w, d, fails).0, d, Save(w, d, fails).1.invoiceId)
  {
    SaveCommits(w, d, fails);
    var (w1, out) := Save(w, d, fails);
    AppendedRowsAsSent(w, w1, d, out.invoiceId);
  }

  lemma AppendedRowsAsSent(w: World, w1: World, d: InvoiceData, id: nat)
    requires w1.invoices == w.invoices + [HeaderRow(id, d)]
    requires w1.lineItems == w.lineItems + ItemRows(w.nextLineItemId, id, d.lineItems)
    ensures RowsAsSent(w, w1, d, id)
  {
    var n := |w.lineItems|;
    forall k | 0 <= k < |d.lineItems|
      ensures w1.lineItems[n + k] == ItemRow(w.nextLineItemId + k, id, d.lineItems[k])
    {
    }
  }

  /** Atomicity: a failed save leaves both committed tables as they were and no transaction open. */
  lemma SaveAtomic(w: World, d: InvoiceData, fails: Failures)
    ensures var (w1, out) := Save(w, d, fails);
      out.Failed? && Connect(SaveConnection) !in fails ==>
        w1.invoices == w.invoices && w1.lineItems == w.lineItems &&
        !w1.inTransaction && w1.pendingInvoices == [] && w1.pendingLineItems == [] &&
        w1.log[|w1.log| - 1] == RolledBack
  {
    if Connect(SaveConnection) !in fails {
      AfterInitFrame(w, fails);
      if InitSucceeded(w, fails) {
        TransactionEffect(AfterInit(w, fails), d, fails);
      }
    }
  }

  /** A failed save before the connection is obtained changes nothing and throws the pool's error. */
  lemma SaveNoConnection(w: World, d: InvoiceData, fails: Failures)
    requires Connect(SaveConnection) in fails
    ensures Save(w, d, fails) == (w, Failed(fails[Connect(SaveConnection)]))
  {
  }

  /**
   * When provisioning fails, no transaction is begun and no insert is issued: after the DDL
   * only the rollback is logged, and the error carries both prefixes.
   */
  lemma SaveInitFailure(w: World, d: InvoiceData, fails: Failures)
    requires Connect(SaveConnection) !in fails && Connect(InitConnection) !in fails
    requires !InitSucceeded(w, fails)
    ensures var (w1, out) := Save(w, d, fails);
      w1.log == AfterInit(w, fails).log + [RolledBack] &&
      (Rollback !in fails ==> out == Failed(SaveFailedPrefix + InitFailedPrefix + FailedMessage))
  {
    InitBodyFailure(w, d, fails);
  }

  lemma InitBodyFailure(w: World, d: InvoiceData, fails: Failures)
    requires Connect(InitConnection) !in fails && !InitSucceeded(w, fails)
    ensures SaveBody(Acquire(w), d, fails) == (AfterInit(w, fails), Error(InitFailedPrefix + FailedMessage))
  {
    InitThrowsOnlyOnConnect(Acquire(w), fails);
    InitFailureMessage(Acquire(w), fails);
  }

  /** When `initializeDatabase` itself throws, its error is rethrown with the save prefix. */
  lemma SaveInitThrows(w: World, d: InvoiceData, fails: Failures)
    requires Connect(SaveConnection) !in fails && Connect(InitConnection) in fails && Rollback !in fails
    ensures Save(w, d, fails).1 == Failed(SaveFailedPrefix + fails[Connect(InitConnection)])
  {
  }

  /** Every error thrown after the connection is obtained carries the prefix, unless the rollback itself fails. */
  lemma SaveFailurePrefix(w: World, d: InvoiceData, fails: Failures)
    requires Connect(SaveConnection) !in fails && Rollback !in fails
    ensures var out := Save(w, d, fails).1;
      out.Failed? ==> |out.message| >= |SaveFailedPrefix| && out.message[..|SaveFailedPrefix|] == SaveFailedPrefix
  {
    var (w1, a) := SaveBody(Acquire(w), d, fails);
    if a.Error? {
      assert (SaveFailedPrefix + a.message)[..|SaveFailedPrefix|] == SaveFailedPrefix;
    }
  }

  /**
   * The connection obtained at the start is released exactly once on every path, and so is
   * the one `initializeDatabase` obtains; no other handle is released.
   */
  lemma SaveReleasesOnce(w: World, d: InvoiceData, fails: Failures)
    requires Valid(w) && Connect(SaveConnection) !in fails
    ensures var (w1, out) := Save(w, d, fails);
      var c := w.nextConnection;
      w1.released[c] == 1 &&
      (Connect(InitConnection) !in fails ==>
        w1.nextConnection == c + 2 && w1.released == w.released + multiset{c} + multiset{c + 1} && w1.released[c + 1] == 1) &&
      (Connect(InitConnection) in fails ==>
        w1.nextConnection == c + 1 && w1.released == w.released + multiset{c})
  {
    var c := w.nextConnection;
    SaveBodyConnections(w, d, fails);
    var wb := SaveBody(Acquire(w), d, fails).0;
    assert Save(w, d, fails).0.released == wb.released + multiset{c};
    assert Save(w, d, fails).0.nextConnection == wb.nextConnection;
    assert c !in w.released && c + 1 !in w.released;
  }

  /** Inside the `try` block only the connection of `initializeDatabase` is handed out and given back. */
  lemma SaveBodyConnections(w: World, d: InvoiceData, fails: Failures)
    requires Valid(w)
    ensures var wb := SaveBody(Acquire(w), d, fails).0;
      var c := w.nextConnection;
      (Connect(InitConnection) !in fails ==> wb.nextConnection == c + 2 && wb.released == w.released + multiset{c + 1}) &&
      (Connect(InitConnection) in fails ==> wb.nextConnection == c + 1 && wb.released == w.released)
  {
    InitReleasesOnce(Acquire(w), fails);
    if InitSucceeded(w, fails) {
      TransactionEffect(AfterInit(w, fails), d, fails);
    }
  }

  /** A save keeps the state well formed. */
  lemma SaveValid(w: World, d: InvoiceData, fails: Failures)
    requires Valid(w)
    ensures Valid(Save(w, d, fails).0)
  {
    if Connect(SaveConnection) !in fails {
      SaveBodyValid(w, d, fails);
      var (wb, a) := SaveBody(Acquire(w), d, fails);
      RollbackStepValid(wb);
      ReleaseValid(if a.Done? then wb else RollbackStep(wb), w.nextConnection);
    }
  }

  /**
   * The foreign key of `line_items`: after any save, successful or not, every committed item row
   * references a committed invoice row.
   */
  lemma SaveKeepsForeignKey(w: World, d: InvoiceData, fails: Failures)
    requires Valid(w)
    ensures var w1 := Save(w, d, fails).0;
      forall r :: r in w1.lineItems ==> exists h :: h in w1.invoices && h.id == r.invoiceId
  {
    SaveValid(w, d, fails);
    var w1 := Save(w, d, fails).0;
    forall r | r in w1.lineItems
      ensures exists h :: h in w1.invoices && h.id == r.invoiceId
    {
      var i :| 0 <= i < |w1.lineItems| && w1.lineItems[i] == r;
      assert r.invoiceId in Ids(w1.invoices);
    }
  }

  /** The `try` block keeps the state well formed and hands out connections only forward. */
  lemma SaveBodyValid(w: World, d: InvoiceData, fails: Failures)
    requires Valid(w)
    ensures var wb := SaveBody(Acquire(w), d, fails).0;
      Valid(wb) && wb.nextConnection > w.nextConnection
  {
    var wa := Acquire(w);
    InitValid(wa, fails);
    InitReleasesOnce(wa, fails);
    var wi := AfterInit(w, fails);
    if InitSucceeded(w, fails) {
      TransactionValid(wi, d, fails);
      TransactionEffect(wi, d, fails);
    }
  }

  lemma ReleaseValid(w: World, c: nat)
    requires Valid(w) && c < w.nextConnection
    ensures Valid(Release(w, c))
  {
  }

  /** The id a save returns is not that of any invoice committed before it. */
  lemma SaveFreshId(w: World, d: InvoiceData, fails: Failures)
    requires Valid(w)
    ensures var out := Save(w, d, fails).1;
      out.Saved? ==> forall i :: 0 <= i < |w.invoices| ==> w.invoices[i].id < out.invoiceId
  {
    SaveCommits(w, d, fails);
    InvoiceIdsPrefix(w.invoices, w.pendingInvoices, w.nextInvoiceId);
  }

  lemma TransactionValid(w: World, d: InvoiceData, fails: Failures)
    requires Valid(w)
    ensures Valid(Transaction(w, d, fails).0)
  {
    var fb := Lookup(fails, Begin);
    BeginStepValid(w, fb);
    var w1 := BeginStep(w, fb);
    if fb.None? {
      var fh := Lookup(fails, InsertInvoice);
      InsertInvoiceStepValid(w1, d, fh);
      var w2 := InsertInvoiceStep(w1, d, fh);
      if fh.None? {
        InsertLinesValid(w2, w1.nextInvoiceId, d.lineItems, 0, fails);
        var w3 := InsertLines(w2, w1.nextInvoiceId, d.lineItems, 0, fails).0;
        CommitStepValid(w3, Lookup(fails, Commit));
      }
    }
  }

  lemma {:induction false} InsertLinesValid(w: World, invoiceId: nat, items: seq<LineItem>, j: nat, fails: Failures)
    requires Valid(w) && w.inTransaction
    requires invoiceId in Ids(w.invoices + w.pendingInvoices)
    ensures Valid(InsertLines(w, invoiceId, items, j, fails).0)
    ensures InsertLines(w, invoiceId, items, j, fails).0.inTransaction
    decreases |items| - j
  {
    if j < |items| {
      var f := Lookup(fails, InsertLineItem(j));
      InsertLineItemStepValid(w, invoiceId, j, items[j], f);
      if f.None? {
        InsertLinesValid(InsertLineItemStep(w, invoiceId, j, items[j], f), invoiceId, items, j + 1, fails);
      }
    }
  }

  /* ---------- the stored total ---------- */

  /** The sum of the `amount` column over some rows, in order. */
  function SumAmounts(rows: seq<LineItemRow>): int {
    if rows == [] then 0 else SumAmounts(rows[..|rows| - 1]) + rows[|rows| - 1].amount
  }

  /** The `amount` column of the rows inserted for a list adds up to the list's total. */
  lemma {:induction false} SumItemRows(firstId: nat, invoiceId: nat, items: seq<LineItem>)
    ensures SumAmounts(ItemRows(firstId, invoiceId, items)) == Total(items)
  {
    if items != [] {
      var rows := ItemRows(firstId, invoiceId, items);
      var last := |items| - 1;
      assert rows[..last] == ItemRows(firstId, invoiceId, items[..last]);
      SumItemRows(firstId, invoiceId, items[..last]);
    }
  }

  /**
   * When the caller sends `totalAmount` computed by the same fold over the items it sends,
   * the stored header total equals the sum of the stored item amounts.
   */
  lemma StoredTotalMatchesItems(w: World, d: InvoiceData, fails: Failures)
    requires d.totalAmount == Some(Total(d.lineItems))
    requires Save(w, d, fails).1.Saved?
    ensures var w1 := Save(w, d, fails).0;
      |w1.invoices| > 0 && |w.lineItems| <= |w1.lineItems| &&
      var header := w1.invoices[|w1.invoices| - 1];
      header.totalAmount == SumAmounts(w1.lineItems[|w.lineItems|..]) &&
      w1.lineItems[|w.lineItems|..] == ItemRows(w.nextLineItemId, header.id, d.lineItems)
  {
    SaveCommits(w, d, fails);
    var (w1, out) := Save(w, d, fails);
    var rows := ItemRows(w.nextLineItemId, out.invoiceId, d.lineItems);
    assert w1.lineItems[|w.lineItems|..] == rows;
    SumItemRows(w.nextLineItemId, out.invoiceId, d.lineItems);
  }

  /* ---------- the code ---------- */

  /** `saveInvoice(data)`, step by step on the server. */
  method SaveInvoice(db: Database, d: InvoiceData, fails: Failures) returns (out: SaveOutcome)
    modifies db
    ensures (db.State(), out) == Save(old(db.State()), d, fails)
  {
    var connectFail := Lookup(fails, Connect(SaveConnection));
    if connectFail.Some? {
      return Failed(connectFail.value);
    }
    var c := db.GetConnection();
    ghost var wa := db.State();
    var attempt: Attempt;
    // try
    var init := InitializeDatabase(db, fails);
    if init.Threw? {
      attempt := Error(init.message);
    } else if !init.result.success {
      attempt := Error(InitFailedPrefix + init.result.message);
    } else {
      attempt := RunTransaction(db, d, fails);
    }
    assert (db.State(), attempt) == SaveBody(wa, d, fails);
    // catch
    if attempt.Error? {
      db.RollbackTransaction();
      if Rollback in fails {
        out := Failed(fails[Rollback]);
      } else {
        out := Failed(SaveFailedPrefix + attempt.message);
      }
    } else {
      out := Saved(attempt.id);
    }
    // finally
    db.ReleaseConnection(c);
  }

  /** The statements from `beginTransaction` to `commit`. */
  method RunTransaction(db: Database, d: InvoiceData, fails: Failures) returns (attempt: Attempt)
    modifies db
    ensures (db.State(), attempt) == Transaction(old(db.State()), d, fails)
  {
    var err := db.BeginTransaction(Lookup(fails, Begin));
    if err.Some? {
      return Error(err.value);
    }
    var invoiceId;
    err, invoiceId := db.InsertInvoice(d, Lookup(fails, InsertInvoice));
    if err.Some? {
      return Error(err.value);
    }
    ghost var w2 := db.State();
    var j := 0;
    while j < |d.lineItems|
      invariant 0 <= j <= |d.lineItems|
      invariant InsertLines(db.State(), invoiceId, d.lineItems, j, fails) == InsertLines(w2, invoiceId, d.lineItems, 0, fails)
    {
      err := db.InsertLineItem(invoiceId, j, d.lineItems[j], Lookup(fails, InsertLineItem(j)));
      if err.Some? {
        return Error(err.value);
      }
      j := j + 1;
    }
    err := db.CommitTransaction(Lookup(fails, Commit));
    if err.Some? {
      return Error(err.value);
    }
    attempt := Done(invoiceId);
  }
}
