/**
 * The database server and connection pool that the store talks to, reduced to the state
 * the save protocol and the schema provisioning can observe: the catalog of schema objects,
 * the committed rows of `invoices` and `line_items`, their AUTO_INCREMENT counters, the
 * writes of the open transaction, the connections handed out and given back, and a log of
 * the statements issued.
 *
 * Whether a statement fails is not decided here: every primitive takes the error the driver
 * would report (`None` when it succeeds), which the callers look up in a failure oracle.
 */
module DbState {
  import opened Formatting
  import opened InvoiceTypes

  /** The objects the DDL creates: the two tables and the index on `line_items(invoice_id)`. */
  datatype SchemaObject = InvoicesTable | LineItemsTable | LineItemsInvoiceIdIndex

  /** A row of `invoices` as inserted (status and timestamps take their column defaults). */
  datatype InvoiceRow = InvoiceRow(
    id: nat,
    invoiceNumber: string,
    invoiceDate: string,
    dueDate: string,
    companyName: string,
    companyAddress: string,
    companyEmail: string,
    companyPhone: string,
    clientName: string,
    clientAddress: string,
    clientEmail: string,
    notes: string,
    totalAmount: int)

  /** A row of `line_items`. */
  datatype LineItemRow = LineItemRow(id: nat, invoiceId: nat, description: string, quantity: int, unitPrice: int, amount: int)

  /** Statements issued, in order; a statement is logged whether or not it then fails. */
  datatype Event = Ddl(obj: SchemaObject) | Began | InsertedInvoice | InsertedLineItem(index: nat) | Committed | RolledBack

  /** The two connections a save uses: its own, and the one `initializeDatabase` takes. */
  datatype Role = SaveConnection | InitConnection

  /** Every point at which the driver can report an error. */
  datatype Step =
    | Connect(role: Role)
    | CountInvoicesTable
    | Create(obj: SchemaObject)
    | Begin
    | InsertInvoice
    | InsertLineItem(index: nat)
    | Commit
    | Rollback

  /** The failure oracle of one call: the steps that fail, with the driver's error message. */
  type Failures = map<Step, string>

  function Lookup(fails: Failures, s: Step): (r: Option<string>)
    ensures r.Some? <==> s in fails
    ensures r.Some? ==> r.value == fails[s]
  {
    if s in fails then Some(fails[s]) else None
  }

  datatype World = World(
    catalog: set<SchemaObject>,
    invoices: seq<InvoiceRow>,
    lineItems: seq<LineItemRow>,
    nextInvoiceId: nat,
    nextLineItemId: nat,
    inTransaction: bool,
    pendingInvoices: seq<InvoiceRow>,
    pendingLineItems: seq<LineItemRow>,
    nextConnection: nat,
    released: multiset<nat>,
    log: seq<Event>)

  /** A server with no tables yet; AUTO_INCREMENT starts at 1. */
  const EmptyWorld := World({}, [], [], 1, 1, false, [], [], 0, multiset{}, [])

  /** The row `saveInvoice` inserts into `invoices`: `notes || ""` and `totalAmount || 0`. */
  function HeaderRow(id: nat, d: InvoiceData): InvoiceRow {
    InvoiceRow(id, d.invoiceNumber, d.invoiceDate, d.dueDate, d.companyName, d.companyAddress,
      d.companyEmail, d.companyPhone, d.clientName, d.clientAddress, d.clientEmail,
      d.notes, match d.totalAmount case Some(t) => t case None => 0)
  }

  /** The row `saveInvoice` inserts into `line_items` for one item, with `amount = quantity * unitPrice`. */
  function ItemRow(id: nat, invoiceId: nat, item: LineItem): LineItemRow {
    LineItemRow(id, invoiceId, item.description, item.quantity, item.unitPrice, Amount(item))
  }

  /* ---------- the effect of each primitive ---------- */

  /** `pool.getConnection()` succeeded: connections are told apart by the order they were handed out. */
  function Acquire(w: World): World {
    w.(nextConnection := w.nextConnection + 1)
  }

  /** `connection.release()`. */
  function Release(w: World, c: nat): World {
    w.(released := w.released + multiset{c})
  }

  function Logged(w: World, e: Event): World {
    w.(log := w.log + [e])
  }

  /** `CREATE ... IF NOT EXISTS`: adds the object unless it fails; an object already there stays as it is. */
  function CreateStep(w: World, obj: SchemaObject, fail: Option<string>): World {
    var w1 := Logged(w, Ddl(obj));
    if fail.None? then w1.(catalog := w1.catalog + {obj}) else w1
  }

  /** `connection.beginTransaction()`. */
  function BeginStep(w: World, fail: Option<string>): World {
    var w1 := Logged(w, Began);
    if fail.None? then w1.(inTransaction := true, pendingInvoices := [], pendingLineItems := []) else w1
  }

  /** The header insert: takes the next AUTO_INCREMENT id, visible only to the transaction. */
  function InsertInvoiceStep(w: World, d: InvoiceData, fail: Option<string>): World {
    var w1 := Logged(w, InsertedInvoice);
    if fail.None? then
      w1.(pendingInvoices := w1.pendingInvoices + [HeaderRow(w1.nextInvoiceId, d)], nextInvoiceId := w1.nextInvoiceId + 1)
    else w1
  }

  /** The insert of item number `index` of the list. */
  function InsertLineItemStep(w: World, invoiceId: nat, index: nat, item: LineItem, fail: Option<string>): World {
    var w1 := Logged(w, InsertedLineItem(index));
    if fail.None? then
      w1.(pendingLineItems := w1.pendingLineItems + [ItemRow(w1.nextLineItemId, invoiceId, item)], nextLineItemId := w1.nextLineItemId + 1)
    else w1
  }

  /** `connection.commit()`: the transaction's rows become committed. */
  function CommitStep(w: World, fail: Option<string>): World {
    var w1 := Logged(w, Committed);
    if fail.None? then
      w1.(invoices := w1.invoices + w1.pendingInvoices, lineItems := w1.lineItems + w1.pendingLineItems,
          inTransaction := false, pendingInvoices := [], pendingLineItems := [])
    else w1
  }

  /** `connection.rollback()`: the transaction's rows are discarded; AUTO_INCREMENT values already taken stay taken. */
  function RollbackStep(w: World): World {
    Logged(w, RolledBack).(inTransaction := false, pendingInvoices := [], pendingLineItems := [])
  }

  /* ---------- well-formedness: primary keys and connection handles ---------- */

  predicate InvoiceIdsBelow(rows: seq<InvoiceRow>, next: nat) {
    (forall i, j :: 0 <= i < j < |rows| ==> rows[i].id < rows[j].id) &&
    (forall i :: 0 <= i < |rows| ==> rows[i].id < next)
  }

  predicate LineItemIdsBelow(rows: seq<LineItemRow>, next: nat) {
    (forall i, j :: 0 <= i < j < |rows| ==> rows[i].id < rows[j].id) &&
    (forall i :: 0 <= i < |rows| ==> rows[i].id < next)
  }

  /** The ids of some `invoices` rows. */
  function Ids(heads: seq<InvoiceRow>): set<nat> {
    set h | h in heads :: h.id
  }

  /** Every row's `invoice_id` is one of the given ids: the foreign key of `line_items`. */
  predicate References(rows: seq<LineItemRow>, ids: set<nat>) {
    forall i :: 0 <= i < |rows| ==> rows[i].invoiceId in ids
  }

  /**
   * Ids, committed or pending, increase in insertion order and stay below the counter (so an
   * id handed out is unused); every committed line item references a committed invoice and
   * every pending one an invoice committed or pending; no handle is released that was not
   * handed out; and the pending rows are empty outside a transaction.
   */
  predicate Valid(w: World) {
    InvoiceIdsBelow(w.invoices + w.pendingInvoices, w.nextInvoiceId) &&
    LineItemIdsBelow(w.lineItems + w.pendingLineItems, w.nextLineItemId) &&
    References(w.lineItems, Ids(w.invoices)) &&
    References(w.pendingLineItems, Ids(w.invoices + w.pendingInvoices)) &&
    (forall c :: c in w.released ==> c < w.nextConnection) &&
    (!w.inTransaction ==> w.pendingInvoices == [] && w.pendingLineItems == [])
  }

  lemma IdsAppend(a: seq<InvoiceRow>, b: seq<InvoiceRow>)
    ensures Ids(a + b) == Ids(a) + Ids(b)
  {
  }

  lemma ReferencesAppend(a: seq<LineItemRow>, b: seq<LineItemRow>, ids: set<nat>)
    requires References(a, ids) && References(b, ids)
    ensures References(a + b, ids)
  {
  }

  lemma ReferencesWithin(rows: seq<LineItemRow>, ids: set<nat>, more: set<nat>)
    requires References(rows, ids) && ids <= more
    ensures References(rows, more)
  {
  }

  lemma EmptyWorldValid()
    ensures Valid(EmptyWorld)
  {
  }

  /** Appending a row with the counter's id and bumping the counter keeps the ids increasing and below it. */
  lemma InvoiceIdsSnoc(rows: seq<InvoiceRow>, next: nat, r: InvoiceRow)
    requires InvoiceIdsBelow(rows, next) && r.id == next
    ensures InvoiceIdsBelow(rows + [r], next + 1)
  {
  }

  lemma LineItemIdsSnoc(rows: seq<LineItemRow>, next: nat, r: LineItemRow)
    requires LineItemIdsBelow(rows, next) && r.id == next
    ensures LineItemIdsBelow(rows + [r], next + 1)
  {
  }

  lemma InvoiceIdsPrefix(a: seq<InvoiceRow>, b: seq<InvoiceRow>, next: nat)
    requires InvoiceIdsBelow(a + b, next)
    ensures InvoiceIdsBelow(a, next)
  {
    assert forall i :: 0 <= i < |a| ==> a[i] == (a + b)[i];
  }

  lemma LineItemIdsPrefix(a: seq<LineItemRow>, b: seq<LineItemRow>, next: nat)
    requires LineItemIdsBelow(a + b, next)
    ensures LineItemIdsBelow(a, next)
  {
    assert forall i :: 0 <= i < |a| ==> a[i] == (a + b)[i];
  }

  /** Every primitive keeps the state well formed. */
  lemma CreateStepValid(w: World, obj: SchemaObject, fail: Option<string>)
    requires Valid(w)
    ensures Valid(CreateStep(w, obj, fail))
  {
  }

  lemma BeginStepValid(w: World, fail: Option<string>)
    requires Valid(w)
    ensures Valid(BeginStep(w, fail))
  {
    InvoiceIdsPrefix(w.invoices, w.pendingInvoices, w.nextInvoiceId);
    LineItemIdsPrefix(w.lineItems, w.pendingLineItems, w.nextLineItemId);
    assert w.invoices + [] == w.invoices && w.lineItems + [] == w.lineItems;
  }

  /** ... and the new header's id is then one that item rows may reference. */
  lemma InsertInvoiceStepValid(w: World, d: InvoiceData, fail: Option<string>)
    requires Valid(w) && w.inTransaction
    ensures Valid(InsertInvoiceStep(w, d, fail))
    ensures var w1 := InsertInvoiceStep(w, d, fail);
      fail.None? ==> w.nextInvoiceId in Ids(w1.invoices + w1.pendingInvoices)
  {
    if fail.None? {
      var rows, r := w.invoices + w.pendingInvoices, HeaderRow(w.nextInvoiceId, d);
      InvoiceIdsSnoc(rows, w.nextInvoiceId, r);
      assert w.invoices + (w.pendingInvoices + [r]) == rows + [r];
      IdsAppend(rows, [r]);
      ReferencesWithin(w.pendingLineItems, Ids(rows), Ids(rows + [r]));
    }
  }

  /** An item insert keeps the state well formed when it references an invoice the transaction can see. */
  lemma InsertLineItemStepValid(w: World, invoiceId: nat, index: nat, item: LineItem, fail: Option<string>)
    requires Valid(w) && w.inTransaction
    requires invoiceId in Ids(w.invoices + w.pendingInvoices)
    ensures Valid(InsertLineItemStep(w, invoiceId, index, item, fail))
  {
    if fail.None? {
      var rows := w.lineItems + w.pendingLineItems;
      var r := ItemRow(w.nextLineItemId, invoiceId, item);
      LineItemIdsSnoc(rows, w.nextLineItemId, r);
      assert w.lineItems + (w.pendingLineItems + [r]) == rows + [r];
      ReferencesAppend(w.pendingLineItems, [r], Ids(w.invoices + w.pendingInvoices));
    }
  }

  lemma CommitStepValid(w: World, fail: Option<string>)
    requires Valid(w)
    ensures Valid(CommitStep(w, fail))
  {
    IdsAppend(w.invoices, w.pendingInvoices);
    ReferencesWithin(w.lineItems, Ids(w.invoices), Ids(w.invoices + w.pendingInvoices));
    ReferencesAppend(w.lineItems, w.pendingLineItems, Ids(w.invoices + w.pendingInvoices));
    assert w.invoices + w.pendingInvoices + [] == w.invoices + w.pendingInvoices;
    assert w.lineItems + w.pendingLineItems + [] == w.lineItems + w.pendingLineItems;
  }

  lemma RollbackStepValid(w: World)
    requires Valid(w)
    ensures Valid(RollbackStep(w))
  {
    InvoiceIdsPrefix(w.invoices, w.pendingInvoices, w.nextInvoiceId);
    LineItemIdsPrefix(w.lineItems, w.pendingLineItems, w.nextLineItemId);
    assert w.invoices + [] == w.invoices && w.lineItems + [] == w.lineItems;
  }

  /**
   * The server and its pool as the store sees them. Each method is one driver call, and
   * leaves the state at the corresponding step function of the state before it.
   */
  class Database {
    var catalog: set<SchemaObject>
    var invoices: seq<InvoiceRow>
    var lineItems: seq<LineItemRow>
    var nextInvoiceId: nat
    var nextLineItemId: nat
    var inTransaction: bool
    var pendingInvoices: seq<InvoiceRow>
    var pendingLineItems: seq<LineItemRow>
    var nextConnection: nat
    var released: multiset<nat>
    var log: seq<Event>

    function State(): World
      reads this
    {
      World(catalog, invoices, lineItems, nextInvoiceId, nextLineItemId, inTransaction,
        pendingInvoices, pendingLineItems, nextConnection, released, log)
    }

    /** A fresh server: no tables, no rows, no connections. */
    constructor ()
      ensures State() == EmptyWorld
    {
      catalog, invoices, lineItems := {}, [], [];
      nextInvoiceId, nextLineItemId := 1, 1;
      inTransaction, pendingInvoices, pendingLineItems := false, [], [];
      nextConnection, released, log := 0, multiset{}, [];
    }

    method GetConnection() returns (c: nat)
      modifies this
      ensures c == old(nextConnection)
      ensures State() == Acquire(old(State()))
    {
      c := nextConnection;
      nextConnection := nextConnection + 1;
    }

    method ReleaseConnection(c: nat)
      modifies this
      ensures State() == Release(old(State()), c)
    {
      released := released + multiset{c};
    }

    /**
     * `SELECT COUNT(*) FROM information_schema.tables WHERE table_name = 'invoices'` in the
     * current schema; `None` when the query fails. Changes nothing.
     */
    method CountInvoicesTables(fail: Option<string>) returns (count: Option<nat>)
      ensures fail.Some? ==> count.None?
      ensures fail.None? ==> count.Some? && (count.value > 0 <==> InvoicesTable in catalog)
      ensures count.Some? ==> count.value <= 1
    {
      if fail.Some? {
        count := None;
      } else {
        count := Some(if InvoicesTable in catalog then 1 else 0);
      }
    }

    method CreateIfNotExists(obj: SchemaObject, fail: Option<string>) returns (err: Option<string>)
      modifies this
      ensures err == fail
      ensures State() == CreateStep(old(State()), obj, fail)
    {
      log := log + [Ddl(obj)];
      if fail.None? {
        catalog := catalog + {obj};
      }
      err := fail;
    }

    method BeginTransaction(fail: Option<string>) returns (err: Option<string>)
      modifies this
      ensures err == fail
      ensures State() == BeginStep(old(State()), fail)
    {
      log := log + [Began];
      if fail.None? {
        inTransaction, pendingInvoices, pendingLineItems := true, [], [];
      }
      err := fail;
    }

    /** Returns the `insertId` of the new row. */
    method InsertInvoice(d: InvoiceData, fail: Option<string>) returns (err: Option<string>, insertId: nat)
      modifies this
      ensures err == fail
      ensures insertId == old(nextInvoiceId)
      ensures State() == InsertInvoiceStep(old(State()), d, fail)
    {
      log := log + [InsertedInvoice];
      insertId := nextInvoiceId;
      if fail.None? {
        pendingInvoices := pendingInvoices + [HeaderRow(nextInvoiceId, d)];
        nextInvoiceId := nextInvoiceId + 1;
      }
      err := fail;
    }

    method InsertLineItem(invoiceId: nat, index: nat, item: LineItem, fail: Option<string>) returns (err: Option<string>)
      modifies this
      ensures err == fail
      ensures State() == InsertLineItemStep(old(State()), invoiceId, index, item, fail)
    {
      log := log + [InsertedLineItem(index)];
      if fail.None? {
        pendingLineItems := pendingLineItems + [ItemRow(nextLineItemId, invoiceId, item)];
        nextLineItemId := nextLineItemId + 1;
      }
      err := fail;
    }

    method CommitTransaction(fail: Option<string>) returns (err: Option<string>)
      modifies this
      ensures err == fail
      ensures State() == CommitStep(old(State()), fail)
    {
      log := log + [Committed];
      if fail.None? {
        invoices, lineItems := invoices + pendingInvoices, lineItems + pendingLineItems;
        inTransaction, pendingInvoices, pendingLineItems := false, [], [];
      }
      err := fail;
    }

    method RollbackTransaction()
      modifies this
      ensures State() == RollbackStep(old(State()))
    {
      log := log + [RolledBack];
      inTransaction, pendingInvoices, pendingLineItems := false, [], [];
    }
  }
}
