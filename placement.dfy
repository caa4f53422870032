/**
 * Where each part of an invoice lands on the generated page. Positions are
 * stated as indices into the instruction list together with the exact
 * coordinates, in hundredths of a point; n and m are the numbers of lines of
 * the company and the client address, N the number of line items, and the
 * cursor after the table is yEnd = tableTop - 40 - 25N points.
 *
 * Each page-level lemma locates one instruction: a locator (InHead, InRows,
 * InTail) says which region holds that index, and a region lemma says what
 * the region holds there.
 */
module Placement {
  import opened Formatting
  import opened InvoiceTypes
  import opened Layout

  /** Index of the first row instruction: everything before the table body. */
  function RowsOffset(d: InvoiceData): nat {
    16 + |Split(d.companyAddress)| + |Split(d.clientAddress)|
  }

  /** Index of the totals band, right after the last row. */
  function TotalsOffset(d: InvoiceData): nat {
    RowsOffset(d) + RowStart(|d.lineItems|)
  }

  /** Everything after the table body: the totals band, the notes block and the footer. */
  function Tail(d: InvoiceData): seq<Instr> {
    TotalsBand(d.lineItems) + NotesBlock(d.notes, RowY(|d.lineItems|)) + [Footer()]
  }

  /** The page is the head, the rows and the tail, with these lengths. */
  lemma PageShape(d: InvoiceData, formatDate: string -> string)
    ensures Page(d, formatDate) == Head(d, formatDate) + Rows(d.lineItems) + Tail(d)
    ensures |Head(d, formatDate)| == RowsOffset(d)
    ensures |Rows(d.lineItems)| == RowStart(|d.lineItems|)
    ensures |Page(d, formatDate)| == TotalsOffset(d) + |Tail(d)|
  {
    RowsLength(d.lineItems, RowTexts);
  }

  /* ---------- locators ---------- */

  lemma InHead(d: InvoiceData, formatDate: string -> string, i: nat)
    requires i < RowsOffset(d)
    ensures |Head(d, formatDate)| == RowsOffset(d)
    ensures i < |Page(d, formatDate)| && Page(d, formatDate)[i] == Head(d, formatDate)[i]
  {
    PageShape(d, formatDate);
  }

  lemma InRows(d: InvoiceData, formatDate: string -> string, i: nat)
    requires i < |Rows(d.lineItems)|
    ensures RowsOffset(d) + i < |Page(d, formatDate)|
    ensures Page(d, formatDate)[RowsOffset(d) + i] == Rows(d.lineItems)[i]
  {
    PageShape(d, formatDate);
  }

  lemma InTail(d: InvoiceData, formatDate: string -> string, i: nat)
    requires i < |Tail(d)|
    ensures TotalsOffset(d) + i < |Page(d, formatDate)|
    ensures Page(d, formatDate)[TotalsOffset(d) + i] == Tail(d)[i]
  {
    PageShape(d, formatDate);
  }

  /* ---------- the company and client blocks ---------- */

  lemma HeadCompanyLine(d: InvoiceData, formatDate: string -> string, i: nat)
    requires i < |Split(d.companyAddress)|
    ensures 2 + i < |Head(d, formatDate)|
    ensures Head(d, formatDate)[2 + i] == Text(Split(d.companyAddress)[i], 5000, Height - 11000 - 1500 * i, NormalSize, Regular, Black)
  {
    LinesAt(Split(d.companyAddress), 5000, Height - 11000, i);
    assert Head(d, formatDate)[2 + i] == CompanyBlock(d)[1 + i];
  }

  lemma HeadClientLine(d: InvoiceData, formatDate: string -> string, i: nat)
    requires i < |Split(d.clientAddress)|
    ensures 10 + |Split(d.companyAddress)| + i < |Head(d, formatDate)|
    ensures Head(d, formatDate)[10 + |Split(d.companyAddress)| + i]
      == Text(Split(d.clientAddress)[i], 5000, Height - 21500 - 1500 * i, NormalSize, Regular, Black)
  {
    LinesAt(Split(d.clientAddress), 5000, Height - 21500, i);
    assert Head(d, formatDate)[10 + |Split(d.companyAddress)| + i] == BillTo(d)[2 + i];
  }

  /** Company address line i is drawn 15 points below line i - 1, starting 110 points below the top of the page. */
  lemma CompanyAddressLine(d: InvoiceData, formatDate: string -> string, i: nat)
    requires i < |Split(d.companyAddress)|
    ensures 2 + i < |Page(d, formatDate)|
    ensures Page(d, formatDate)[2 + i] == Text(Split(d.companyAddress)[i], 5000, Height - 11000 - 1500 * i, NormalSize, Regular, Black)
  {
    InHead(d, formatDate, 2 + i);
    HeadCompanyLine(d, formatDate, i);
  }

  /** The company email follows the address, 110 + 15n points below the top. */
  lemma CompanyEmail(d: InvoiceData, formatDate: string -> string)
    ensures var n := |Split(d.companyAddress)|;
      2 + n < |Page(d, formatDate)| &&
      Page(d, formatDate)[2 + n] == Text("Email: " + d.companyEmail, 5000, Height - 11000 - 1500 * n, NormalSize, Regular, Black)
  {
    var n := |Split(d.companyAddress)|;
    InHead(d, formatDate, 2 + n);
    assert Head(d, formatDate)[2 + n] == CompanyBlock(d)[1 + n];
  }

  /** The company phone is 15 points below the email, 125 + 15n points below the top. */
  lemma CompanyPhone(d: InvoiceData, formatDate: string -> string)
    ensures var n := |Split(d.companyAddress)|;
      3 + n < |Page(d, formatDate)| &&
      Page(d, formatDate)[3 + n] == Text("Phone: " + d.companyPhone, 5000, Height - 12500 - 1500 * n, NormalSize, Regular, Black)
  {
    var n := |Split(d.companyAddress)|;
    InHead(d, formatDate, 3 + n);
    assert Head(d, formatDate)[3 + n] == CompanyBlock(d)[2 + n];
  }

  /** Client address line i is drawn 15 points below line i - 1, starting 215 points below the top of the page. */
  lemma ClientAddressLine(d: InvoiceData, formatDate: string -> string, i: nat)
    requires i < |Split(d.clientAddress)|
    ensures var n := |Split(d.companyAddress)|;
      10 + n + i < |Page(d, formatDate)| &&
      Page(d, formatDate)[10 + n + i] == Text(Split(d.clientAddress)[i], 5000, Height - 21500 - 1500 * i, NormalSize, Regular, Black)
  {
    InHead(d, formatDate, 10 + |Split(d.companyAddress)| + i);
    HeadClientLine(d, formatDate, i);
  }

  /** The client email follows the client address, 215 + 15m points below the top. */
  lemma ClientEmail(d: InvoiceData, formatDate: string -> string)
    ensures var n, m := |Split(d.companyAddress)|, |Split(d.clientAddress)|;
      10 + n + m < |Page(d, formatDate)| &&
      Page(d, formatDate)[10 + n + m] == Text("Email: " + d.clientEmail, 5000, Height - 21500 - 1500 * m, NormalSize, Regular, Black)
  {
    var n, m := |Split(d.companyAddress)|, |Split(d.clientAddress)|;
    InHead(d, formatDate, 10 + n + m);
    assert Head(d, formatDate)[10 + n + m] == BillTo(d)[2 + m];
  }

  lemma DetailLine(d: InvoiceData, formatDate: string -> string, j: nat)
    requires j < 3
    ensures 4 + |Split(d.companyAddress)| + j < |Page(d, formatDate)|
    ensures Page(d, formatDate)[4 + |Split(d.companyAddress)| + j] == InvoiceDetails(d, formatDate)[j]
  {
    var n := |Split(d.companyAddress)|;
    var pre := [Title()] + CompanyBlock(d);
    assert |pre| == 4 + n;
    InHead(d, formatDate, 4 + n + j);
    assert Head(d, formatDate)[4 + n + j] == (pre + InvoiceDetails(d, formatDate))[4 + n + j];
  }

  /** A text line of the right-hand column, 200 points from the right edge, at height y. */
  predicate RightColumnAt(t: Instr, y: int) {
    t.Text? && t.x == Width - 20000 && t.y == y
  }

  /**
   * The invoice number, date and due date form a right-hand column right of the company
   * block, its first line level with the company name and each next line 15 points lower.
   */
  lemma InvoiceDetailsPlaced(d: InvoiceData, formatDate: string -> string)
    ensures var p, n := Page(d, formatDate), |Split(d.companyAddress)|;
      6 + n < |p| && p[1].Text? && p[1].s == d.companyName && p[1].x < Width - 20000 &&
      RightColumnAt(p[4 + n], p[1].y) && p[4 + n].s == "Invoice #: " + d.invoiceNumber &&
      RightColumnAt(p[5 + n], p[1].y - 1500) && p[5 + n].s == "Date: " + formatDate(d.invoiceDate) &&
      RightColumnAt(p[6 + n], p[1].y - 3000) && p[6 + n].s == "Due Date: " + formatDate(d.dueDate)
  {
    InHead(d, formatDate, 1);
    assert Head(d, formatDate)[1] == CompanyBlock(d)[0];
    DetailLine(d, formatDate, 0);
    DetailLine(d, formatDate, 1);
    DetailLine(d, formatDate, 2);
  }

  /** The column labels, in the order the row cells are drawn. */
  function HeaderLabel(j: nat): string
    requires j < 4
  {
    ["Description", "Quantity", "Unit Price", "Amount"][j]
  }

  lemma HeaderPart(d: InvoiceData, formatDate: string -> string, j: nat)
    requires j < 5
    ensures 11 + |Split(d.companyAddress)| + |Split(d.clientAddress)| + j < |Page(d, formatDate)|
    ensures Page(d, formatDate)[11 + |Split(d.companyAddress)| + |Split(d.clientAddress)| + j] == TableHeader()[j]
  {
    var b := 11 + |Split(d.companyAddress)| + |Split(d.clientAddress)|;
    var pre := [Title()] + CompanyBlock(d) + InvoiceDetails(d, formatDate) + [Separator()] + BillTo(d);
    assert |pre| == b;
    InHead(d, formatDate, b + j);
    assert Head(d, formatDate)[b + j] == (pre + TableHeader())[b + j];
  }

  /**
   * The header band spans the table's width just under its top line, and label j sits inside
   * the band at the x of cell j of every row, all rows lying below the band.
   */
  lemma HeaderOverColumn(d: InvoiceData, formatDate: string -> string, k: nat, j: nat)
    requires k < |d.lineItems| && j < 4
    ensures var p, b := Page(d, formatDate), 11 + |Split(d.companyAddress)| + |Split(d.clientAddress)|;
      var c := RowsOffset(d) + CellIndex(k, j);
      c < |p| && b + 1 + j < |p| &&
      p[b].Rect? && p[b].x == TableLeft && p[b].x + p[b].w == TableRight && p[b].y + p[b].h == TableTop &&
      p[b + 1 + j].Text? && p[b + 1 + j].s == HeaderLabel(j) &&
      p[b].y < p[b + 1 + j].y < p[b].y + p[b].h &&
      p[c].Text? && p[b + 1 + j].x == p[c].x && p[c].y < p[b].y
  {
    HeaderPart(d, formatDate, 0);
    HeaderPart(d, formatDate, 1 + j);
    RowCell(d, formatDate, k, j);
  }

  /* ---------- the table body ---------- */

  /** Cell j of row k is drawn as the table lays it out (see CellGeometry for its coordinates). */
  lemma RowCell(d: InvoiceData, formatDate: string -> string, k: nat, j: nat)
    requires k < |d.lineItems| && j < 4
    ensures RowsOffset(d) + CellIndex(k, j) < |Page(d, formatDate)|
    ensures Page(d, formatDate)[RowsOffset(d) + CellIndex(k, j)] == Cells(RowTexts(d.lineItems[k]), k)[j]
  {
    RowCellsWith(d.lineItems, RowTexts, k);
    InRows(d, formatDate, CellIndex(k, j));
  }

  /**
   * The Amount cell of row k, at x = 510 points on the row's cursor, is
   * `$${(quantity * unitPrice).toFixed(2)}`, which reads back to quantity * unitPrice
   * (ParseDollarsOfDollars).
   */
  lemma RowAmount(d: InvoiceData, formatDate: string -> string, k: nat)
    requires k < |d.lineItems|
    ensures var p, i, item := Page(d, formatDate), RowsOffset(d) + CellIndex(k, 3), d.lineItems[k];
      i < |p| && p[i] == Text(Dollars(item.quantity * item.unitPrice), 51000, TableTop - 4000 - 2500 * k, NormalSize, Regular, Black)
  {
    RowCell(d, formatDate, k, 3);
    AmountCellText(d.lineItems[k], k);
  }

  /** The Unit Price cell of row k, at x = 430 points, is the item's price printed the same way. */
  lemma RowUnitPrice(d: InvoiceData, formatDate: string -> string, k: nat)
    requires k < |d.lineItems|
    ensures var p, i, item := Page(d, formatDate), RowsOffset(d) + CellIndex(k, 2), d.lineItems[k];
      i < |p| && p[i] == Text(Dollars(item.unitPrice), 43000, TableTop - 4000 - 2500 * k, NormalSize, Regular, Black)
  {
    RowCell(d, formatDate, k, 2);
    UnitPriceCellText(d.lineItems[k], k);
  }

  lemma AmountCellText(item: LineItem, k: nat)
    ensures Cells(RowTexts(item), k)[3] == Text(Dollars(item.quantity * item.unitPrice), 51000, TableTop - 4000 - 2500 * k, NormalSize, Regular, Black)
  {
    CellGeometry(RowTexts(item), k);
  }

  lemma UnitPriceCellText(item: LineItem, k: nat)
    ensures Cells(RowTexts(item), k)[2] == Text(Dollars(item.unitPrice), 43000, TableTop - 4000 - 2500 * k, NormalSize, Regular, Black)
  {
    CellGeometry(RowTexts(item), k);
  }

  /** An even row starts with a 25-point stripe whose bottom is 15 points below the row's text; an odd row has none. */
  lemma RowStripe(d: InvoiceData, formatDate: string -> string, k: nat)
    requires k < |d.lineItems|
    ensures RowsOffset(d) + RowStart(k) < |Page(d, formatDate)|
    ensures k % 2 == 0 ==>
      Page(d, formatDate)[RowsOffset(d) + RowStart(k)] == Rect(5000, TableTop - 4000 - 2500 * k - 1500, 49528, 2500, Rgb(97, 97, 97), Rgb(90, 90, 90), 0)
    ensures k % 2 == 1 ==> RowStart(k) == CellIndex(k, 0)
  {
    RowStripeWith(d.lineItems, RowTexts, k);
    InRows(d, formatDate, RowStart(k));
  }

  /** The value `$x.xx` read back from the instruction at index i; 0 when there is none. */
  function PrintedValue(p: seq<Instr>, i: nat): int {
    if i < |p| && p[i].Text? then
      match ParseDollars(p[i].s)
      case Some(v) => v
      case None => 0
    else 0
  }

  /** The sum of the first k values printed in the Amount column of a page whose rows start at o. */
  function AmountColumn(p: seq<Instr>, o: nat, k: nat): int {
    if k == 0 then 0 else AmountColumn(p, o, k - 1) + PrintedValue(p, o + CellIndex(k - 1, 3))
  }

  /** Every Amount cell holds its item's amount, printed. */
  lemma AmountCells(d: InvoiceData, formatDate: string -> string)
    ensures forall k :: 0 <= k < |d.lineItems| ==>
      RowsOffset(d) + CellIndex(k, 3) < |Page(d, formatDate)| &&
      Page(d, formatDate)[RowsOffset(d) + CellIndex(k, 3)] == Cells(RowTexts(d.lineItems[k]), k)[3]
  {
    forall k | 0 <= k < |d.lineItems|
      ensures RowsOffset(d) + CellIndex(k, 3) < |Page(d, formatDate)|
      ensures Page(d, formatDate)[RowsOffset(d) + CellIndex(k, 3)] == Cells(RowTexts(d.lineItems[k]), k)[3]
    {
      RowCell(d, formatDate, k, 3);
    }
  }

  /** On any page whose Amount cells hold the items' amounts, the first k of them add up to the total of the first k items. */
  lemma {:induction false} AmountColumnTotal(p: seq<Instr>, o: nat, items: seq<LineItem>, k: nat)
    requires k <= |items|
    requires forall r :: 0 <= r < |items| ==> o + CellIndex(r, 3) < |p| && p[o + CellIndex(r, 3)] == Cells(RowTexts(items[r]), r)[3]
    ensures AmountColumn(p, o, k) == Total(items[..k])
  {
    if k > 0 {
      AmountColumnTotal(p, o, items, k - 1);
      AmountCellValue(p, o + CellIndex(k - 1, 3), items[k - 1], k - 1);
      RowsSnoc(items, RowTexts, k - 1);
    }
  }

  /** An Amount cell reads back as its item's amount. */
  lemma AmountCellValue(p: seq<Instr>, i: nat, item: LineItem, r: nat)
    requires i < |p| && p[i] == Cells(RowTexts(item), r)[3]
    ensures PrintedValue(p, i) == Amount(item)
  {
    ParseDollarsOfDollars(Amount(item));
  }

  /* ---------- the totals band, the notes block and the footer ---------- */

  lemma TailTotals(d: InvoiceData)
    ensures var y := TableTop - 4000 - 2500 * |d.lineItems|;
      3 <= |Tail(d)| &&
      Tail(d)[0] == Rect(35000, y - 1500, 19528, 3000, Rgb(95, 95, 95), Rgb(90, 90, 90), 100) &&
      Tail(d)[1] == Text("Total:", 36000, y, HeaderSize, Bold, Black) &&
      Tail(d)[2] == Text(Dollars(Total(d.lineItems)), 51000, y, HeaderSize, Bold, Gray20)
  {
  }

  /** The totals band sits at the cursor after the last row, yEnd, in the Amount column. */
  lemma TotalsBox(d: InvoiceData, formatDate: string -> string)
    ensures var p, t, y := Page(d, formatDate), TotalsOffset(d), TableTop - 4000 - 2500 * |d.lineItems|;
      t + 1 < |p| &&
      p[t] == Rect(35000, y - 1500, 19528, 3000, Rgb(95, 95, 95), Rgb(90, 90, 90), 100)
  {
    TailTotals(d);
    InTail(d, formatDate, 0);
  }

  /** The value of the totals band is the formatted fold of quantity * unitPrice, and reads back to it. */
  lemma TotalsValue(d: InvoiceData, formatDate: string -> string)
    ensures var p, t := Page(d, formatDate), TotalsOffset(d);
      t + 2 < |p| &&
      p[t + 2] == Text(Dollars(Total(d.lineItems)), 51000, TableTop - 4000 - 2500 * |d.lineItems|, HeaderSize, Bold, Gray20) &&
      ParseDollars(p[t + 2].s) == Some(Total(d.lineItems))
  {
    TailTotals(d);
    InTail(d, formatDate, 2);
    ParseDollarsOfDollars(Total(d.lineItems));
  }

  /** The printed total is the sum of the amounts printed in the rows above it. */
  lemma PrintedTotal(d: InvoiceData, formatDate: string -> string)
    ensures var p := Page(d, formatDate);
      PrintedValue(p, TotalsOffset(d) + 2) == AmountColumn(p, RowsOffset(d), |d.lineItems|)
  {
    TotalsValue(d, formatDate);
    AmountCells(d, formatDate);
    AmountColumnTotal(Page(d, formatDate), RowsOffset(d), d.lineItems, |d.lineItems|);
    assert d.lineItems[..|d.lineItems|] == d.lineItems;
  }

  /** With no line items the totals band sits right below the table header and shows $0.00. */
  lemma EmptyTotals(d: InvoiceData, formatDate: string -> string)
    requires d.lineItems == []
    ensures var p, t := Page(d, formatDate), RowsOffset(d) + 2;
      t < |p| && p[t] == Text("$0.00", 51000, TableTop - 4000, HeaderSize, Bold, Gray20)
  {
    TotalsValue(d, formatDate);
    DollarsZero();
  }

  lemma TailNotes(d: InvoiceData, i: nat)
    requires d.notes != "" && i < |Split(d.notes)|
    ensures var y, l := TableTop - 4000 - 2500 * |d.lineItems|, |Split(d.notes)|;
      |Tail(d)| == 6 + l &&
      Tail(d)[3] == Text("NOTES:", 5000, y - 5000, HeaderSize, Bold, Gray40) &&
      Tail(d)[4] == Rect(5000, y - 7000 - 1500 * l, 49528, 1500 * l + 2000, Rgb(97, 97, 97), Rgb(95, 95, 95), 100) &&
      Tail(d)[5 + i] == Text(Split(d.notes)[i], 6000, y - 7000 - 1500 * i, NormalSize, Regular, Black)
  {
    LinesAt(Split(d.notes), 6000, RowY(|d.lineItems|) - 7000, i);
    assert Tail(d)[5 + i] == NotesBlock(d.notes, RowY(|d.lineItems|))[2 + i];
  }

  /** Non-empty notes get a "NOTES:" label 50 points below yEnd. */
  lemma NotesLabel(d: InvoiceData, formatDate: string -> string)
    requires d.notes != ""
    ensures var p, t := Page(d, formatDate), TotalsOffset(d);
      t + 3 < |p| && p[t + 3] == Text("NOTES:", 5000, TableTop - 4000 - 2500 * |d.lineItems| - 5000, HeaderSize, Bold, Gray40)
  {
    TailNotes(d, 0);
    InTail(d, formatDate, 3);
  }

  /**
   * ... then a box whose bottom edge is 70 + 15L points below yEnd and whose
   * height is 15L + 20 points, so that its top edge is level with the label.
   */
  lemma NotesBox(d: InvoiceData, formatDate: string -> string)
    requires d.notes != ""
    ensures var p, t, y, l := Page(d, formatDate), TotalsOffset(d), TableTop - 4000 - 2500 * |d.lineItems|, |Split(d.notes)|;
      t + 4 < |p| &&
      p[t + 4] == Rect(5000, y - 7000 - 1500 * l, 49528, 1500 * l + 2000, Rgb(97, 97, 97), Rgb(95, 95, 95), 100) &&
      p[t + 4].y + p[t + 4].h == y - 5000
  {
    TailNotes(d, 0);
    InTail(d, formatDate, 4);
  }

  /** ... then note line i, 70 + 15i points below yEnd. */
  lemma NoteLine(d: InvoiceData, formatDate: string -> string, i: nat)
    requires d.notes != "" && i < |Split(d.notes)|
    ensures var p, t := Page(d, formatDate), TotalsOffset(d);
      t + 5 + i < |p| &&
      p[t + 5 + i] == Text(Split(d.notes)[i], 6000, TableTop - 4000 - 2500 * |d.lineItems| - 7000 - 1500 * i, NormalSize, Regular, Black)
  {
    TailNotes(d, i);
    InTail(d, formatDate, 5 + i);
  }

  /** Empty notes draw nothing: the footer follows the totals band directly. */
  lemma NoNotes(d: InvoiceData, formatDate: string -> string)
    requires d.notes == ""
    ensures Page(d, formatDate) == Head(d, formatDate) + Rows(d.lineItems) + TotalsBand(d.lineItems) + [Footer()]
    ensures |Page(d, formatDate)| == TotalsOffset(d) + 4
  {
    PageShape(d, formatDate);
  }

  /** The footer is the last instruction on every page. */
  lemma FooterLast(d: InvoiceData, formatDate: string -> string)
    ensures |Page(d, formatDate)| > 0
    ensures Page(d, formatDate)[|Page(d, formatDate)| - 1] == Text("Thank you for your business!", 21764, 5000, NormalSize, Regular, Gray40)
  {
    PageShape(d, formatDate);
  }
}
