/**
 * Schema provisioning: `checkTablesExist` and `initializeDatabase`. The tables count as
 * present exactly when the catalog query finds a table named `invoices`; otherwise the three
 * `CREATE ... IF NOT EXISTS` statements run in order, stopping at the first error. Every
 * error after the connection is obtained becomes a failed result; only `pool.getConnection()`
 * itself, which sits outside the `try`, can make the call throw.
 */
module InitDb {
  import opened Formatting
  import opened DbState

  datatype InitResult = InitResult(success: bool, message: string)

  /** How a call ends: with a result value, or by throwing the driver's error. */
  datatype InitOutcome = Returned(result: InitResult) | Threw(message: string)

  const AlreadyExistMessage := "Database tables already exist"
  const CreatedMessage := "Database tables created successfully"
  const FailedMessage := "Failed to initialize database"

  /** The DDL statements in the order they are issued. */
  const DdlOrder := [InvoicesTable, LineItemsTable, LineItemsInvoiceIdIndex]

  /** `checkTablesExist`: the count of `invoices` tables is positive; a failed query counts as "no". */
  function TablesExist(w: World, fails: Failures): bool {
    CountInvoicesTable !in fails && InvoicesTable in w.catalog
  }

  /** The three DDL statements, each skipped once one before it has failed; returns the first error. */
  function CreateTables(w: World, fails: Failures): (World, Option<string>) {
    var w1 := CreateStep(w, InvoicesTable, Lookup(fails, Create(InvoicesTable)));
    if Create(InvoicesTable) in fails then (w1, Some(fails[Create(InvoicesTable)])) else
    var w2 := CreateStep(w1, LineItemsTable, Lookup(fails, Create(LineItemsTable)));
    if Create(LineItemsTable) in fails then (w2, Some(fails[Create(LineItemsTable)])) else
    var w3 := CreateStep(w2, LineItemsInvoiceIdIndex, Lookup(fails, Create(LineItemsInvoiceIdIndex)));
    (w3, Lookup(fails, Create(LineItemsInvoiceIdIndex)))
  }

  /** The `try` block, on a connection already obtained. */
  function InitBody(w: World, fails: Failures): (World, InitResult) {
    if TablesExist(w, fails) then (w, InitResult(true, AlreadyExistMessage))
    else
      var (w1, err) := CreateTables(w, fails);
      (w1, if err.None? then InitResult(true, CreatedMessage) else InitResult(false, FailedMessage))
  }

  /** `initializeDatabase()`: obtain a connection, run the body, release the connection in `finally`. */
  function Initialize(w: World, fails: Failures): (World, InitOutcome) {
    if Connect(InitConnection) in fails then (w, Threw(fails[Connect(InitConnection)]))
    else
      var c := w.nextConnection;
      var (w1, r) := InitBody(Acquire(w), fails);
      (Release(w1, c), Returned(r))
  }

  /* ---------- what the DDL does ---------- */

  /** How many DDL statements are issued when the tables are missing: up to and including the first that fails. */
  function Attempted(fails: Failures): nat {
    if Create(InvoicesTable) in fails then 1
    else if Create(LineItemsTable) in fails then 2
    else 3
  }

  /** How many of them succeed. */
  function Succeeded(fails: Failures): nat {
    if Create(InvoicesTable) in fails then 0
    else if Create(LineItemsTable) in fails then 1
    else if Create(LineItemsInvoiceIdIndex) in fails then 2
    else 3
  }

  function DdlEvents(objs: seq<SchemaObject>): seq<Event> {
    seq(|objs|, k requires 0 <= k < |objs| => Ddl(objs[k]))
  }

  function Objects(objs: seq<SchemaObject>): set<SchemaObject> {
    set o | o in objs
  }

  /**
   * The DDL, from any state: the first Attempted statements are logged in order, the objects
   * of the first Succeeded are added with if-not-exists semantics, and nothing but the
   * catalog and the log changes.
   */
  lemma CreateTablesEffect(w: World, fails: Failures)
    ensures var (w1, err) := CreateTables(w, fails);
      w1.log == w.log + DdlEvents(DdlOrder[..Attempted(fails)]) &&
      w1.catalog == w.catalog + Objects(DdlOrder[..Succeeded(fails)]) &&
      (err.None? <==> Succeeded(fails) == 3) &&
      w1 == w.(log := w1.log, catalog := w1.catalog)
  {
    var a, b, i := InvoicesTable, LineItemsTable, LineItemsInvoiceIdIndex;
    assert DdlOrder[..1] == [a] && DdlOrder[..2] == [a, b] && DdlOrder[..3] == [a, b, i];
    assert DdlOrder[..0] == [];
    assert DdlEvents([a]) == [Ddl(a)];
    assert DdlEvents([a, b]) == [Ddl(a), Ddl(b)];
    assert DdlEvents([a, b, i]) == [Ddl(a), Ddl(b), Ddl(i)];
    assert Objects([a, b, i]) == {a, b, i};
    assert Objects([a, b]) == {a, b};
    assert Objects([a]) == {a};
  }

  /* ---------- the properties of initializeDatabase ---------- */

  /** With the `invoices` table found, no DDL is issued and the tables are reported as already there. */
  lemma InitWhenTablesExist(w: World, fails: Failures)
    requires Connect(InitConnection) !in fails && TablesExist(w, fails)
    ensures var (w1, out) := Initialize(w, fails);
      out == Returned(InitResult(true, AlreadyExistMessage)) &&
      w1.log == w.log && w1.catalog == w.catalog
  {
  }

  /**
   * Otherwise the DDL runs in the order invoices, line_items, index, stopping at the first
   * error; the call succeeds with "created" exactly when none fails, and otherwise returns
   * the failure result. Either way it returns instead of throwing.
   */
  lemma InitWhenTablesMissing(w: World, fails: Failures)
    requires Connect(InitConnection) !in fails && !TablesExist(w, fails)
    ensures var (w1, out) := Initialize(w, fails);
      w1.log == w.log + DdlEvents(DdlOrder[..Attempted(fails)]) &&
      w1.catalog == w.catalog + Objects(DdlOrder[..Succeeded(fails)]) &&
      out.Returned? &&
      (out.result.success <==> Succeeded(fails) == 3) &&
      out.result == (if Succeeded(fails) == 3 then InitResult(true, CreatedMessage) else InitResult(false, FailedMessage))
  {
    CreateTablesEffect(Acquire(w), fails);
  }

  /** The clean run issues exactly the three statements and leaves all three objects in the catalog. */
  lemma InitCreatesAll(w: World)
    requires InvoicesTable !in w.catalog
    ensures var (w1, out) := Initialize(w, map[]);
      out == Returned(InitResult(true, CreatedMessage)) &&
      w1.log == w.log + [Ddl(InvoicesTable), Ddl(LineItemsTable), Ddl(LineItemsInvoiceIdIndex)] &&
      w1.catalog == w.catalog + {InvoicesTable, LineItemsTable, LineItemsInvoiceIdIndex}
  {
    InitWhenTablesMissing(w, map[]);
    var a, b, i := InvoicesTable, LineItemsTable, LineItemsInvoiceIdIndex;
    assert DdlOrder[..3] == [a, b, i];
    assert DdlEvents([a, b, i]) == [Ddl(a), Ddl(b), Ddl(i)];
    assert Objects([a, b, i]) == {a, b, i};
  }

  /** The call throws only when no connection can be had, with the pool's error, and then changes nothing. */
  lemma InitThrowsOnlyOnConnect(w: World, fails: Failures)
    ensures var (w1, out) := Initialize(w, fails);
      (out.Threw? <==> Connect(InitConnection) in fails) &&
      (out.Threw? ==> out.message == fails[Connect(InitConnection)] && w1 == w)
  {
  }

  /**
   * The connection obtained is released exactly once: a fresh handle is handed out and goes
   * back to the pool once, and no other handle is released. Rows, counters and the
   * transaction are untouched.
   */
  lemma InitReleasesOnce(w: World, fails: Failures)
    requires Valid(w)
    ensures var (w1, out) := Initialize(w, fails);
      w1.invoices == w.invoices && w1.lineItems == w.lineItems &&
      w1.nextInvoiceId == w.nextInvoiceId && w1.nextLineItemId == w.nextLineItemId &&
      w1.inTransaction == w.inTransaction &&
      w1.pendingInvoices == w.pendingInvoices && w1.pendingLineItems == w.pendingLineItems &&
      (out.Threw? ==> w1.nextConnection == w.nextConnection && w1.released == w.released) &&
      (out.Returned? ==>
        w1.nextConnection == w.nextConnection + 1 &&
        w1.released == w.released + multiset{w.nextConnection} &&
        w.released[w.nextConnection] == 0 && w1.released[w.nextConnection] == 1)
  {
    var (w1, out) := Initialize(w, fails);
    if out.Returned? {
      CreateTablesEffect(Acquire(w), fails);
      assert w.nextConnection !in w.released;
    }
  }

  /** Provisioning keeps the state well formed. */
  lemma InitValid(w: World, fails: Failures)
    requires Valid(w)
    ensures Valid(Initialize(w, fails).0)
  {
    var (w1, out) := Initialize(w, fails);
    if out.Returned? {
      CreateTablesEffect(Acquire(w), fails);
      InitReleasesOnce(w, fails);
      assert forall c :: c in w1.released ==> c in w.released || c == w.nextConnection;
    }
  }

  /** A failure result always carries the one fixed message. */
  lemma InitFailureMessage(w: World, fails: Failures)
    ensures var out := Initialize(w, fails).1;
      out.Returned? && !out.result.success ==> out.result == InitResult(false, FailedMessage)
  {
  }

  /** After a successful call, a second call (whose catalog query works) issues no DDL. */
  lemma InitIdempotent(w: World, fails1: Failures, fails2: Failures)
    requires Initialize(w, fails1).1.Returned? && Initialize(w, fails1).1.result.success
    requires Connect(InitConnection) !in fails2 && CountInvoicesTable !in fails2
    ensures var w1 := Initialize(w, fails1).0;
      var (w2, out) := Initialize(w1, fails2);
      out == Returned(InitResult(true, AlreadyExistMessage)) && w2.log == w1.log && w2.catalog == w1.catalog
  {
    var (w1, out) := Initialize(w, fails1);
    if !TablesExist(w, fails1) {
      InitWhenTablesMissing(w, fails1);
      assert DdlOrder[..3] == [InvoicesTable, LineItemsTable, LineItemsInvoiceIdIndex];
      assert InvoicesTable in Objects(DdlOrder[..Succeeded(fails1)]);
    }
    assert InvoicesTable in w1.catalog;
  }

  /** Re-running the DDL on a complete schema changes nothing, whatever the catalog query says. */
  lemma InitOnCompleteSchema(w: World, fails: Failures)
    requires DdlOrder[0] in w.catalog && DdlOrder[1] in w.catalog && DdlOrder[2] in w.catalog
    ensures Initialize(w, fails).0.catalog == w.catalog
  {
    if Connect(InitConnection) !in fails && !TablesExist(w, fails) {
      InitWhenTablesMissing(w, fails);
      assert Objects(DdlOrder[..Succeeded(fails)]) <= Objects(DdlOrder);
      assert Objects(DdlOrder) == {DdlOrder[0], DdlOrder[1], DdlOrder[2]};
    }
  }

  /**
   * The existence check looks at `invoices` only: when creating `line_items` fails after
   * `invoices` was created, the next call that connects and whose catalog query succeeds
   * reports the tables as already there, and `line_items` is still missing.
   */
  lemma PartialSchemaReportedComplete(w: World, msg: string, fails2: Failures)
    requires InvoicesTable !in w.catalog && LineItemsTable !in w.catalog
    requires Connect(InitConnection) !in fails2 && CountInvoicesTable !in fails2
    ensures var (w1, out1) := Initialize(w, map[Create(LineItemsTable) := msg]);
      var (w2, out2) := Initialize(w1, fails2);
      out1 == Returned(InitResult(false, FailedMessage)) &&
      out2 == Returned(InitResult(true, AlreadyExistMessage)) &&
      InvoicesTable in w2.catalog && LineItemsTable !in w2.catalog
  {
    var fails := map[Create(LineItemsTable) := msg];
    InitWhenTablesMissing(w, fails);
    assert Attempted(fails) == 2 && Succeeded(fails) == 1;
    assert DdlOrder[..1] == [InvoicesTable];
    assert Objects([InvoicesTable]) == {InvoicesTable};
    var w1 := Initialize(w, fails).0;
    InitWhenTablesExist(w1, fails2);
  }

  /**
   * A schema with `invoices` but without `line_items` stays so under every call whose catalog
   * query succeeds, each reporting the tables as already there; by repetition, every later
   * such call does.
   */
  lemma PartialSchemaPersists(w: World, fails: Failures)
    requires InvoicesTable in w.catalog && LineItemsTable !in w.catalog
    requires Connect(InitConnection) !in fails && CountInvoicesTable !in fails
    ensures var (w1, out) := Initialize(w, fails);
      out == Returned(InitResult(true, AlreadyExistMessage)) &&
      InvoicesTable in w1.catalog && LineItemsTable !in w1.catalog
  {
    InitWhenTablesExist(w, fails);
  }

  /**
   * A call whose catalog query fails is told the tables are missing, so it re-runs the
   * if-not-exists DDL: with the statements succeeding, `line_items` is created and the call
   * reports the tables as created.
   */
  lemma PartialSchemaRepairedWhenQueryFails(w: World, fails: Failures)
    requires InvoicesTable in w.catalog && LineItemsTable !in w.catalog
    requires Connect(InitConnection) !in fails && CountInvoicesTable in fails
    requires forall o :: Create(o) !in fails
    ensures var (w1, out) := Initialize(w, fails);
      out == Returned(InitResult(true, CreatedMessage)) &&
      InvoicesTable in w1.catalog && LineItemsTable in w1.catalog
  {
    InitWhenTablesMissing(w, fails);
    assert Attempted(fails) == 3 && Succeeded(fails) == 3;
    assert DdlOrder[..3] == [InvoicesTable, LineItemsTable, LineItemsInvoiceIdIndex];
    assert LineItemsTable in Objects(DdlOrder[..3]);
  }

  /* ---------- the code ---------- */

  /** `checkTablesExist(connection)`; changes nothing. */
  method CheckTablesExist(db: Database, fails: Failures) returns (found: bool)
    ensures found <==> CountInvoicesTable !in fails && InvoicesTable in db.catalog
  {
    var count := db.CountInvoicesTables(Lookup(fails, CountInvoicesTable));
    if count.None? {
      found := false;
    } else {
      found := count.value > 0;
    }
  }

  /** `initializeDatabase()`, step by step on the server. */
  method InitializeDatabase(db: Database, fails: Failures) returns (out: InitOutcome)
    modifies db
    ensures (db.State(), out) == Initialize(old(db.State()), fails)
  {
    var connectFail := Lookup(fails, Connect(InitConnection));
    if connectFail.Some? {
      return Threw(connectFail.value);
    }
    var c := db.GetConnection();
    var found := CheckTablesExist(db, fails);
    if found {
      out := Returned(InitResult(true, AlreadyExistMessage));
    } else {
      var err := db.CreateIfNotExists(InvoicesTable, Lookup(fails, Create(InvoicesTable)));
      if err.None? {
        err := db.CreateIfNotExists(LineItemsTable, Lookup(fails, Create(LineItemsTable)));
        if err.None? {
          err := db.CreateIfNotExists(LineItemsInvoiceIdIndex, Lookup(fails, Create(LineItemsInvoiceIdIndex)));
        }
      }
      if err.None? {
        out := Returned(InitResult(true, CreatedMessage));
      } else {
        out := Returned(InitResult(false, FailedMessage));
      }
    }
    db.ReleaseConnection(c);
  }
}
