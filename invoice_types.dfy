/**
 * The invoice value shared by the layout engine and the store: one header and an
 * ordered list of line items. Quantities are whole numbers (the `quantity INT`
 * column) and prices are integer cents (the `DECIMAL(10, 2)` columns).
 */
module InvoiceTypes {
  import opened Formatting

  datatype LineItem = LineItem(description: string, quantity: int, unitPrice: int)

  datatype InvoiceData = InvoiceData(
    companyName: string,
    companyAddress: string,
    companyEmail: string,
    companyPhone: string,
    clientName: string,
    clientAddress: string,
    clientEmail: string,
    invoiceNumber: string,
    invoiceDate: string,
    dueDate: string,
    notes: string,
    lineItems: seq<LineItem>,
    totalAmount: Option<int>)

  /** `item.quantity * item.unitPrice`, in cents. */
  function Amount(item: LineItem): int {
    item.quantity * item.unitPrice
  }

  /**
   * `items.reduce((sum, item) => sum + item.quantity * item.unitPrice, 0)`:
   * the left fold from 0, adding the items in list order.
   */
  function Total(items: seq<LineItem>): int {
    if |items| == 0 then 0 else Total(items[..|items| - 1]) + Amount(items[|items| - 1])
  }

  /** The total of a concatenation is the sum of the totals. */
  lemma {:induction false} TotalAppend(a: seq<LineItem>, b: seq<LineItem>)
    ensures Total(a + b) == Total(a) + Total(b)
    decreases |b|
  {
    if |b| == 0 {
      assert a + b == a;
    } else {
      assert (a + b)[..|a + b| - 1] == a + b[..|b| - 1];
      assert (a + b)[|a + b| - 1] == b[|b| - 1];
      TotalAppend(a, b[..|b| - 1]);
    }
  }

  /** The fold can equally be read from the front: first item plus the total of the rest. */
  lemma TotalCons(items: seq<LineItem>)
    requires |items| > 0
    ensures Total(items) == Amount(items[0]) + Total(items[1..])
  {
    TotalAppend([items[0]], items[1..]);
    assert [items[0]] + items[1..] == items;
    assert Total([items[0]]) == Amount(items[0]) by {
      assert [items[0]][..0] == [];
    }
  }
}
