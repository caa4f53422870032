/**
 * The invoice layout engine: an invoice becomes an ordered list of draw
 * instructions on one A4 page (595.28 x 841.89 points, origin bottom-left).
 * Every length is held in hundredths of a point, so all positions are exact
 * integers; colours are rgb triples in hundredths.
 */
module Layout {
  import opened Formatting
  import opened InvoiceTypes

  datatype Font = Regular | Bold
  datatype Rgb = Rgb(r: nat, g: nat, b: nat)

  datatype Instr =
    | Text(s: string, x: int, y: int, size: nat, font: Font, color: Rgb)
    | Line(x1: int, y1: int, x2: int, y2: int, thickness: nat, color: Rgb)
    | Rect(x: int, y: int, w: int, h: int, fill: Rgb, border: Rgb, borderWidth: nat)

  const Width: int := 59528
  const Height: int := 84189

  const TitleSize: nat := 2400
  const HeaderSize: nat := 1200
  const NormalSize: nat := 1000

  const Black := Rgb(0, 0, 0)
  const Gray20 := Rgb(20, 20, 20)
  const Gray40 := Rgb(40, 40, 40)

  /** Vertical advance per address or note line, and per table row. */
  const LineHeight: int := 1500
  const RowHeight: int := 2500

  const TableTop: int := Height - 28000
  const TableLeft: int := 5000
  const TableRight: int := Width - 5000
  const ColumnWidths: seq<int> := [30000, 8000, 8000, 8000]

  /** x of the four table columns: Description, Quantity, Unit Price, Amount. */
  function ColumnX(j: nat): int
    requires j < 4
  {
    if j == 0 then TableLeft + 1000
    else if j == 1 then TableLeft + ColumnWidths[0]
    else if j == 2 then TableLeft + ColumnWidths[0] + ColumnWidths[1]
    else TableLeft + ColumnWidths[0] + ColumnWidths[1] + ColumnWidths[2]
  }

  /** The cursor `yPosition` when row k is drawn. */
  function RowY(k: nat): int {
    TableTop - 4000 - RowHeight * k
  }

  /* ---------- the page, region by region ---------- */

  /** One regular 10-point text per line, line i at `top - 15 * i` points. */
  function Lines(lines: seq<string>, x: int, top: int): (r: seq<Instr>)
    ensures |r| == |lines|
  {
    if |lines| == 0 then []
    else Lines(lines[..|lines| - 1], x, top) + [Text(lines[|lines| - 1], x, top - LineHeight * (|lines| - 1), NormalSize, Regular, Black)]
  }

  function Title(): Instr {
    Text("INVOICE", 5000, Height - 5000, TitleSize, Bold, Gray20)
  }

  function CompanyBlock(d: InvoiceData): seq<Instr> {
    var n := |Split(d.companyAddress)|;
    [Text(d.companyName, 5000, Height - 9000, HeaderSize, Bold, Black)]
    + Lines(Split(d.companyAddress), 5000, Height - 11000)
    + [Text("Email: " + d.companyEmail, 5000, Height - 11000 - LineHeight * n, NormalSize, Regular, Black),
       Text("Phone: " + d.companyPhone, 5000, Height - 12500 - LineHeight * n, NormalSize, Regular, Black)]
  }

  function InvoiceDetails(d: InvoiceData, formatDate: string -> string): seq<Instr> {
    [Text("Invoice #: " + d.invoiceNumber, Width - 20000, Height - 9000, NormalSize, Regular, Black),
     Text("Date: " + formatDate(d.invoiceDate), Width - 20000, Height - 10500, NormalSize, Regular, Black),
     Text("Due Date: " + formatDate(d.dueDate), Width - 20000, Height - 12000, NormalSize, Regular, Black)]
  }

  function Separator(): Instr {
    Line(5000, Height - 15000, Width - 5000, Height - 15000, 200, Rgb(80, 80, 80))
  }

  function BillTo(d: InvoiceData): seq<Instr> {
    var m := |Split(d.clientAddress)|;
    [Text("BILL TO:", 5000, Height - 18000, HeaderSize, Bold, Gray40),
     Text(d.clientName, 5000, Height - 20000, NormalSize, Bold, Black)]
    + Lines(Split(d.clientAddress), 5000, Height - 21500)
    + [Text("Email: " + d.clientEmail, 5000, Height - 21500 - LineHeight * m, NormalSize, Regular, Black)]
  }

  function TableHeader(): seq<Instr> {
    [Rect(TableLeft, TableTop - 2500, TableRight - TableLeft, 2500, Rgb(90, 90, 90), Rgb(80, 80, 80), 100),
     Text("Description", ColumnX(0), TableTop - 1500, HeaderSize, Bold, Gray20),
     Text("Quantity", ColumnX(1), TableTop - 1500, HeaderSize, Bold, Gray20),
     Text("Unit Price", ColumnX(2), TableTop - 1500, HeaderSize, Bold, Gray20),
     Text("Amount", ColumnX(3), TableTop - 1500, HeaderSize, Bold, Gray20)]
  }

  /** The texts of a row's four cells: description, quantity, unit price and amount. */
  datatype CellTexts = CellTexts(description: string, quantity: string, unitPrice: string, amount: string)

  /** What the source prints in each column: `item.quantity.toString()` and the two `$${x.toFixed(2)}` amounts. */
  function RowTexts(item: LineItem): CellTexts {
    CellTexts(item.description, IntToString(item.quantity), Dollars(item.unitPrice), Dollars(Amount(item)))
  }

  function Cells(t: CellTexts, k: nat): seq<Instr> {
    [Text(t.description, ColumnX(0), RowY(k), NormalSize, Regular, Black),
     Text(t.quantity, ColumnX(1), RowY(k), NormalSize, Regular, Black),
     Text(t.unitPrice, ColumnX(2), RowY(k), NormalSize, Regular, Black),
     Text(t.amount, ColumnX(3), RowY(k), NormalSize, Regular, Black)]
  }

  function Stripe(k: nat): Instr {
    Rect(TableLeft, RowY(k) - 1500, TableRight - TableLeft, 2500, Rgb(97, 97, 97), Rgb(90, 90, 90), 0)
  }

  /** Row k: a background stripe when k is even, then its four cells. */
  function Row(t: CellTexts, k: nat): seq<Instr> {
    (if k % 2 == 0 then [Stripe(k)] else []) + Cells(t, k)
  }

  /**
   * The rows of the table, in list order, for a given way of printing an item's
   * cells (the layout itself uses RowTexts; the row geometry does not depend on it).
   */
  function RowsWith(items: seq<LineItem>, render: LineItem -> CellTexts): seq<Instr> {
    if |items| == 0 then [] else RowsWith(items[..|items| - 1], render) + Row(render(items[|items| - 1]), |items| - 1)
  }

  function Rows(items: seq<LineItem>): seq<Instr> {
    RowsWith(items, RowTexts)
  }

  function TotalsBand(items: seq<LineItem>): seq<Instr> {
    var y := RowY(|items|);
    [Rect(TableLeft + ColumnWidths[0], y - 1500, TableRight - TableLeft - ColumnWidths[0], 3000, Rgb(95, 95, 95), Rgb(90, 90, 90), 100),
     Text("Total:", TableLeft + ColumnWidths[0] + 1000, y, HeaderSize, Bold, Black),
     Text(Dollars(Total(items)), ColumnX(3), y, HeaderSize, Bold, Gray20)]
  }

  /** The notes block below the cursor y, present only for non-empty notes. */
  function NotesBlock(notes: string, y: int): seq<Instr> {
    if notes == "" then []
    else
      var l := |Split(notes)|;
      [Text("NOTES:", TableLeft, y - 5000, HeaderSize, Bold, Gray40),
       Rect(TableLeft, y - 7000 - LineHeight * l, TableRight - TableLeft, LineHeight * l + 2000, Rgb(97, 97, 97), Rgb(95, 95, 95), 100)]
      + Lines(Split(notes), TableLeft + 1000, y - 7000)
  }

  function Footer(): Instr {
    Text("Thank you for your business!", Width / 2 - 8000, 5000, NormalSize, Regular, Gray40)
  }

  /** Everything above the table rows. */
  function Head(d: InvoiceData, formatDate: string -> string): seq<Instr> {
    [Title()] + CompanyBlock(d) + InvoiceDetails(d, formatDate) + [Separator()] + BillTo(d) + TableHeader()
  }

  /** The whole page, in drawing order. */
  function Page(d: InvoiceData, formatDate: string -> string): seq<Instr> {
    Head(d, formatDate) + Rows(d.lineItems) + TotalsBand(d.lineItems)
    + NotesBlock(d.notes, RowY(|d.lineItems|)) + [Footer()]
  }

  /** Drawing one more row extends the table and its total by that row alone. */
  lemma RowsSnoc(items: seq<LineItem>, render: LineItem -> CellTexts, k: nat)
    requires k < |items|
    ensures RowsWith(items[..k + 1], render) == RowsWith(items[..k], render) + Row(render(items[k]), k)
    ensures Total(items[..k + 1]) == Total(items[..k]) + Amount(items[k])
  {
    assert items[..k + 1][..k] == items[..k];
  }

  /* ---------- where things land on the page ---------- */

  /** Line i of a block is drawn 15 points below line i - 1. */
  lemma {:induction false} LinesAt(lines: seq<string>, x: int, top: int, i: nat)
    requires i < |lines|
    ensures Lines(lines, x, top)[i] == Text(lines[i], x, top - LineHeight * i, NormalSize, Regular, Black)
    decreases |lines|
  {
    if i < |lines| - 1 {
      LinesAt(lines[..|lines| - 1], x, top, i);
    }
  }

  /** Index of the first instruction of row k: four cells per row, plus a stripe on each even row before it. */
  function RowStart(k: nat): nat {
    4 * k + (k + 1) / 2
  }

  /** Index of cell j of row k: after the row's stripe, if it has one. */
  function CellIndex(k: nat, j: nat): nat {
    RowStart(k) + (if k % 2 == 0 then 1 else 0) + j
  }

  /** An even row takes five instructions, an odd row four. */
  lemma RowStartStep(k: nat)
    ensures RowStart(k + 1) == RowStart(k) + (if k % 2 == 0 then 5 else 4)
  {
  }

  lemma {:induction false} RowsLength(items: seq<LineItem>, render: LineItem -> CellTexts)
    ensures |RowsWith(items, render)| == RowStart(|items|)
    decreases |items|
  {
    if |items| > 0 {
      RowsLength(items[..|items| - 1], render);
    }
  }

  /** The rows of a prefix of the items are a prefix of the rows. */
  lemma {:induction false} RowsPrefix(items: seq<LineItem>, render: LineItem -> CellTexts, j: nat)
    requires j <= |items|
    ensures RowStart(j) <= |RowsWith(items, render)|
    ensures RowsWith(items, render)[..RowStart(j)] == RowsWith(items[..j], render)
    decreases |items|
  {
    RowsLength(items, render);
    if j < |items| {
      var init := items[..|items| - 1];
      RowsPrefix(init, render, j);
      assert init[..j] == items[..j];
      RowsLength(init, render);
      var r := RowsWith(items, render);
      assert r[..|RowsWith(init, render)|] == RowsWith(init, render);
      assert r[..RowStart(j)] == r[..|RowsWith(init, render)|][..RowStart(j)];
    } else {
      assert items[..j] == items;
    }
  }

  /** Row k occupies the instructions from RowStart(k) on, one per element of the row. */
  lemma RowAt(items: seq<LineItem>, render: LineItem -> CellTexts, k: nat)
    requires k < |items|
    ensures RowStart(k) + |Row(render(items[k]), k)| <= |RowsWith(items, render)|
    ensures forall j :: 0 <= j < |Row(render(items[k]), k)| ==>
      RowsWith(items, render)[RowStart(k) + j] == Row(render(items[k]), k)[j]
  {
    var r, row := RowsWith(items, render), Row(render(items[k]), k);
    RowsPrefix(items, render, k + 1);
    RowsSnoc(items, render, k);
    RowsLength(items[..k], render);
    RowStartStep(k);
    forall j | 0 <= j < |row| ensures r[RowStart(k) + j] == row[j] {
      assert r[RowStart(k) + j] == r[..RowStart(k + 1)][RowStart(k) + j];
    }
  }

  /**
   * Row k of the table: its four cells lie after the row's stripe, if any,
   * and are drawn at the row's cursor, 40 + 25k points below the table top.
   */
  lemma RowCellsWith(items: seq<LineItem>, render: LineItem -> CellTexts, k: nat)
    requires k < |items|
    ensures CellIndex(k, 3) < |RowsWith(items, render)|
    ensures forall j :: 0 <= j < 4 ==> RowsWith(items, render)[CellIndex(k, j)] == Cells(render(items[k]), k)[j]
  {
    RowAt(items, render, k);
    CellsOfRow(RowsWith(items, render), render(items[k]), k, RowStart(k));
  }

  /** Wherever row k is laid out from some index on, its cells follow the stripe, if any. */
  lemma CellsOfRow(r: seq<Instr>, t: CellTexts, k: nat, start: nat)
    requires start + |Row(t, k)| <= |r|
    requires forall j :: 0 <= j < |Row(t, k)| ==> r[start + j] == Row(t, k)[j]
    ensures var off := if k % 2 == 0 then 1 else 0;
      forall j :: 0 <= j < 4 ==> start + off + j < |r| && r[start + off + j] == Cells(t, k)[j]
  {
    var off := if k % 2 == 0 then 1 else 0;
    assert |Row(t, k)| == off + 4 && Row(t, k)[off..] == Cells(t, k);
    SliceAt(r, Row(t, k), Cells(t, k), start, off);
  }

  /** A sequence laid out from index start holds its suffix from start + off on. */
  lemma SliceAt(r: seq<Instr>, row: seq<Instr>, tail: seq<Instr>, start: nat, off: nat)
    requires start + |row| <= |r|
    requires forall j :: 0 <= j < |row| ==> r[start + j] == row[j]
    requires off <= |row| && row[off..] == tail
    ensures forall j :: 0 <= j < |tail| ==> start + off + j < |r| && r[start + off + j] == tail[j]
  {
    forall j | 0 <= j < |tail| ensures r[start + off + j] == tail[j] {
      assert r[start + (off + j)] == row[off + j];
    }
  }

  /** The four cells of row k: x = 60, 350, 430 and 510 points, all at the row's cursor. */
  lemma CellGeometry(t: CellTexts, k: nat)
    ensures var c, y := Cells(t, k), TableTop - 4000 - 2500 * k;
      |c| == 4 &&
      c[0] == Text(t.description, 6000, y, NormalSize, Regular, Black) &&
      c[1] == Text(t.quantity, 35000, y, NormalSize, Regular, Black) &&
      c[2] == Text(t.unitPrice, 43000, y, NormalSize, Regular, Black) &&
      c[3] == Text(t.amount, 51000, y, NormalSize, Regular, Black)
  {
  }

  /** An even row starts with its stripe; an odd row starts directly with its first cell. */
  lemma RowStripeWith(items: seq<LineItem>, render: LineItem -> CellTexts, k: nat)
    requires k < |items|
    ensures RowStart(k) < |RowsWith(items, render)|
    ensures k % 2 == 0 ==> RowsWith(items, render)[RowStart(k)] == Stripe(k)
    ensures k % 2 == 1 ==> RowStart(k) == CellIndex(k, 0)
  {
    RowAt(items, render, k);
    if k % 2 == 0 {
      StripedRow(render(items[k]), k);
    }
  }

  /** An even row is its stripe followed by its cells. */
  lemma StripedRow(t: CellTexts, k: nat)
    requires k % 2 == 0
    ensures |Row(t, k)| == 5 && Row(t, k)[0] == Stripe(k)
    ensures forall j :: 0 <= j < 4 ==> Row(t, k)[j + 1] == Cells(t, k)[j]
  {
  }

  /** Number of rectangles in a list of instructions. */
  function CountRects(page: seq<Instr>): nat {
    if |page| == 0 then 0 else CountRects(page[..|page| - 1]) + (if page[|page| - 1].Rect? then 1 else 0)
  }

  lemma {:induction false} CountRectsAppend(a: seq<Instr>, b: seq<Instr>)
    ensures CountRects(a + b) == CountRects(a) + CountRects(b)
    decreases |b|
  {
    if |b| == 0 {
      assert a + b == a;
    } else {
      assert (a + b)[..|a + b| - 1] == a + b[..|b| - 1];
      CountRectsAppend(a, b[..|b| - 1]);
    }
  }

  lemma {:induction false} CountRectsNone(page: seq<Instr>)
    requires forall i :: 0 <= i < |page| ==> !page[i].Rect?
    ensures CountRects(page) == 0
    decreases |page|
  {
    if |page| > 0 {
      CountRectsNone(page[..|page| - 1]);
    }
  }

  /** Only the even rows get a stripe: N rows carry ceil(N / 2) rectangles. */
  lemma {:induction false} RowStripesWith(items: seq<LineItem>, render: LineItem -> CellTexts)
    ensures CountRects(RowsWith(items, render)) == (|items| + 1) / 2
    decreases |items|
  {
    if |items| > 0 {
      var k := |items| - 1;
      RowStripesWith(items[..k], render);
      var cells := Cells(render(items[k]), k);
      CountRectsAppend(RowsWith(items[..k], render), Row(render(items[k]), k));
      CountRectsNone(cells);
      if k % 2 == 0 {
        assert CountRects([Stripe(k)]) == 1 by {
          assert [Stripe(k)][..0] == [];
        }
        CountRectsAppend([Stripe(k)], cells);
      } else {
        assert Row(render(items[k]), k) == cells;
      }
    }
  }

  /* ---------- the engine, as the source runs it ---------- */

  /** One `lines.forEach((line, index) => page.drawText(line, ...))` loop. */
  method DrawLines(lines: seq<string>, x: int, top: int) returns (out: seq<Instr>)
    ensures out == Lines(lines, x, top)
  {
    out := [];
    var i := 0;
    while i < |lines|
      invariant 0 <= i <= |lines|
      invariant out == Lines(lines[..i], x, top)
    {
      assert lines[..i + 1][..i] == lines[..i];
      out := out + [Text(lines[i], x, top - i * LineHeight, NormalSize, Regular, Black)];
      i := i + 1;
    }
    assert lines[..i] == lines;
  }

  /** The body of the `lineItems.forEach` callback for row k, drawn at the cursor y. */
  method DrawRow(item: LineItem, k: nat, yPosition: int) returns (row: seq<Instr>, amount: int)
    requires yPosition == RowY(k)
    ensures row == Row(RowTexts(item), k)
    ensures amount == Amount(item)
  {
    var tableLeft := 5000;
    var tableRight := Width - 5000;
    var columnWidths := [30000, 8000, 8000, 8000];
    amount := item.quantity * item.unitPrice;
    row := [];
    if k % 2 == 0 {
      row := [Rect(tableLeft, yPosition - 1500, tableRight - tableLeft, 2500, Rgb(97, 97, 97), Rgb(90, 90, 90), 0)];
    }
    row := row + [Text(item.description, tableLeft + 1000, yPosition, NormalSize, Regular, Black)];
    row := row + [Text(IntToString(item.quantity), tableLeft + columnWidths[0], yPosition, NormalSize, Regular, Black)];
    row := row + [Text(Dollars(item.unitPrice), tableLeft + columnWidths[0] + columnWidths[1], yPosition, NormalSize, Regular, Black)];
    row := row + [Text(Dollars(amount), tableLeft + columnWidths[0] + columnWidths[1] + columnWidths[2], yPosition, NormalSize, Regular, Black)];
  }

  /**
   * The `lineItems.forEach` loop: rows are drawn at the cursor, which moves down
   * 25 points per row, while each amount is added to the running total.
   */
  method DrawRows(items: seq<LineItem>) returns (out: seq<Instr>, yPosition: int, sum: int)
    ensures out == Rows(items)
    ensures yPosition == RowY(|items|)
    ensures sum == Total(items)
  {
    out := [];
    yPosition := TableTop - 4000;
    sum := 0;
    var k := 0;
    while k < |items|
      invariant 0 <= k <= |items|
      invariant yPosition == RowY(k)
      invariant sum == Total(items[..k])
      invariant out == RowsWith(items[..k], RowTexts)
    {
      var row, amount := DrawRow(items[k], k, yPosition);
      sum := sum + amount;
      out := out + row;
      RowsSnoc(items, RowTexts, k);
      yPosition := yPosition - RowHeight;
      k := k + 1;
    }
    assert items[..k] == items;
  }

  method DrawCompanyBlock(d: InvoiceData) returns (out: seq<Instr>)
    ensures out == CompanyBlock(d)
  {
    out := [Text(d.companyName, 5000, Height - 9000, HeaderSize, Bold, Black)];
    var companyAddressLines := Split(d.companyAddress);
    var drawn := DrawLines(companyAddressLines, 5000, Height - 11000);
    out := out + drawn;
    var n := |companyAddressLines|;
    out := out + [Text("Email: " + d.companyEmail, 5000, Height - 11000 - n * LineHeight, NormalSize, Regular, Black)];
    out := out + [Text("Phone: " + d.companyPhone, 5000, Height - 12500 - n * LineHeight, NormalSize, Regular, Black)];
  }

  method DrawInvoiceDetails(d: InvoiceData, formatDate: string -> string) returns (out: seq<Instr>)
    ensures out == InvoiceDetails(d, formatDate)
  {
    out := [Text("Invoice #: " + d.invoiceNumber, Width - 20000, Height - 9000, NormalSize, Regular, Black)];
    out := out + [Text("Date: " + formatDate(d.invoiceDate), Width - 20000, Height - 10500, NormalSize, Regular, Black)];
    out := out + [Text("Due Date: " + formatDate(d.dueDate), Width - 20000, Height - 12000, NormalSize, Regular, Black)];
  }

  method DrawBillTo(d: InvoiceData) returns (out: seq<Instr>)
    ensures out == BillTo(d)
  {
    out := [Text("BILL TO:", 5000, Height - 18000, HeaderSize, Bold, Gray40)];
    out := out + [Text(d.clientName, 5000, Height - 20000, NormalSize, Bold, Black)];
    var clientAddressLines := Split(d.clientAddress);
    var drawn := DrawLines(clientAddressLines, 5000, Height - 21500);
    out := out + drawn;
    out := out + [Text("Email: " + d.clientEmail, 5000, Height - 21500 - |clientAddressLines| * LineHeight, NormalSize, Regular, Black)];
  }

  method DrawTableHeader() returns (out: seq<Instr>)
    ensures out == TableHeader()
  {
    var tableTop := Height - 28000;
    var tableLeft := 5000;
    var tableRight := Width - 5000;
    var columnWidths := [30000, 8000, 8000, 8000];
    out := [Rect(tableLeft, tableTop - 2500, tableRight - tableLeft, 2500, Rgb(90, 90, 90), Rgb(80, 80, 80), 100)];
    out := out + [Text("Description", tableLeft + 1000, tableTop - 1500, HeaderSize, Bold, Gray20)];
    out := out + [Text("Quantity", tableLeft + columnWidths[0], tableTop - 1500, HeaderSize, Bold, Gray20)];
    out := out + [Text("Unit Price", tableLeft + columnWidths[0] + columnWidths[1], tableTop - 1500, HeaderSize, Bold, Gray20)];
    out := out + [Text("Amount", tableLeft + columnWidths[0] + columnWidths[1] + columnWidths[2], tableTop - 1500, HeaderSize, Bold, Gray20)];
  }

  method DrawTotals(items: seq<LineItem>, yPosition: int, total: int) returns (out: seq<Instr>)
    requires yPosition == RowY(|items|) && total == Total(items)
    ensures out == TotalsBand(items)
  {
    var tableLeft := 5000;
    var tableRight := Width - 5000;
    var columnWidths := [30000, 8000, 8000, 8000];
    out := [Rect(tableLeft + columnWidths[0], yPosition - 1500, tableRight - tableLeft - columnWidths[0], 3000, Rgb(95, 95, 95), Rgb(90, 90, 90), 100)];
    out := out + [Text("Total:", tableLeft + columnWidths[0] + 1000, yPosition, HeaderSize, Bold, Black)];
    out := out + [Text(Dollars(total), tableLeft + columnWidths[0] + columnWidths[1] + columnWidths[2], yPosition, HeaderSize, Bold, Gray20)];
  }

  /** `if (data.notes) { ... }`: the empty string is falsy, so empty notes draw nothing. */
  method DrawNotes(notes: string, yPosition: int) returns (out: seq<Instr>)
    ensures out == NotesBlock(notes, yPosition)
  {
    out := [];
    if notes != "" {
      var tableLeft := 5000;
      var tableRight := Width - 5000;
      out := out + [Text("NOTES:", tableLeft, yPosition - 5000, HeaderSize, Bold, Gray40)];
      var l := |Split(notes)|;
      out := out + [Rect(tableLeft, yPosition - 7000 - l * LineHeight, tableRight - tableLeft, l * LineHeight + 2000, Rgb(97, 97, 97), Rgb(95, 95, 95), 100)];
      var notesLines := Split(notes);
      var drawn := DrawLines(notesLines, tableLeft + 1000, yPosition - 7000);
      out := out + drawn;
    }
  }

  /**
   * generateInvoice up to the renderer: the draw calls of each region, in the
   * order the source issues them.
   */
  method GenerateInvoice(d: InvoiceData, formatDate: string -> string) returns (page: seq<Instr>)
    ensures page == Page(d, formatDate)
  {
    page := [Text("INVOICE", 5000, Height - 5000, TitleSize, Bold, Gray20)];
    var part := DrawCompanyBlock(d);
    page := page + part;
    part := DrawInvoiceDetails(d, formatDate);
    page := page + part;
    page := page + [Line(5000, Height - 15000, Width - 5000, Height - 15000, 200, Rgb(80, 80, 80))];
    part := DrawBillTo(d);
    page := page + part;
    part := DrawTableHeader();
    page := page + part;
    assert page == Head(d, formatDate);
    var rows, yPosition, total := DrawRows(d.lineItems);
    page := page + rows;
    part := DrawTotals(d.lineItems, yPosition, total);
    page := page + part;
    part := DrawNotes(d.notes, yPosition);
    page := page + part;
    page := page + [Text("Thank you for your business!", Width / 2 - 8000, 5000, NormalSize, Regular, Gray40)];
  }
}
