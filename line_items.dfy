/**
 * The line-item list of the invoice form: the `lineItems` state cell with the helpers that
 * replace it (add, remove, update), the running total, the default invoice number, and the
 * invoice value the form hands to the save action.
 */
module LineItemState {
  import opened Formatting
  import opened InvoiceTypes
  import opened DbState
  import opened SaveProtocol

  /** The item `addLineItem` appends, and the single item the list starts with. */
  const NewItem := LineItem("", 1, 0)

  /** The fields `updateLineItem` can set. */
  datatype Field = Description | Quantity | UnitPrice

  /** `items.filter((_, i) => i !== index)`. */
  function WithoutIndex(items: seq<LineItem>, index: int): seq<LineItem> {
    if items == [] then []
    else WithoutIndex(items[..|items| - 1], index) + (if |items| - 1 == index then [] else [items[|items| - 1]])
  }

  /** The list after `removeLineItem(index)`: the filter runs only when more than one item is left. */
  function Removed(items: seq<LineItem>, index: int): seq<LineItem> {
    if |items| > 1 then WithoutIndex(items, index) else items
  }

  /** `{...item, [field]: field === "description" ? value : Number(value)}`. */
  function WithField(item: LineItem, field: Field, value: string, toQuantity: string -> int, toCents: string -> int): LineItem {
    match field
    case Description => item.(description := value)
    case Quantity => item.(quantity := toQuantity(value))
    case UnitPrice => item.(unitPrice := toCents(value))
  }

  /** The list after `updateLineItem(index, field, value)`. */
  function Updated(items: seq<LineItem>, index: nat, field: Field, value: string, toQuantity: string -> int, toCents: string -> int): seq<LineItem>
    requires index < |items|
  {
    items[index := WithField(items[index], field, value, toQuantity, toCents)]
  }

  /** The filter drops exactly the element at a valid index and keeps the rest in order; any other index drops nothing. */
  lemma {:induction false} WithoutIndexExact(items: seq<LineItem>, index: int)
    ensures 0 <= index < |items| ==> WithoutIndex(items, index) == items[..index] + items[index + 1..]
    ensures !(0 <= index < |items|) ==> WithoutIndex(items, index) == items
  {
    if items != [] {
      var last := |items| - 1;
      var init := items[..last];
      WithoutIndexExact(init, index);
      if index == last {
        assert items[..index] == init;
        assert items[index + 1..] == [];
      } else if 0 <= index < last {
        assert init[..index] == items[..index];
        assert init[index + 1..] + [items[last]] == items[index + 1..];
      } else {
        assert init + [items[last]] == items;
      }
    }
  }

  /**
   * With more than one item, removing a valid index drops exactly that item and lowers the
   * total by its amount; with one item the list stays as it is, so it is never empty.
   */
  lemma RemoveLineItemSpec(items: seq<LineItem>, index: int)
    requires |items| >= 1
    ensures |Removed(items, index)| >= 1
    ensures |items| == 1 ==> Removed(items, index) == items
    ensures |items| > 1 && 0 <= index < |items| ==>
      Removed(items, index) == items[..index] + items[index + 1..] &&
      Total(Removed(items, index)) == Total(items) - Amount(items[index])
  {
    WithoutIndexExact(items, index);
    if |items| > 1 && 0 <= index < |items| {
      TotalAppend(items[..index], items[index + 1..]);
      TotalAppend(items[..index], items[index..]);
      TotalCons(items[index..]);
      assert items[..index] + items[index..] == items;
      assert items[index..][1..] == items[index + 1..];
    }
  }

  /** Adding appends one default item, keeps the existing items and leaves the total unchanged. */
  lemma AddLineItemSpec(items: seq<LineItem>)
    ensures |items + [NewItem]| == |items| + 1 && (items + [NewItem])[..|items|] == items
    ensures Total(items + [NewItem]) == Total(items)
  {
    assert (items + [NewItem])[..|items|] == items;
  }

  /**
   * Updating sets one field of one item, the description verbatim and the numbers through
   * the numeric conversion; every other item and every other field stay the same, and the
   * total changes by the difference of that item's amounts.
   */
  lemma UpdateLineItemSpec(items: seq<LineItem>, index: nat, field: Field, value: string, toQuantity: string -> int, toCents: string -> int)
    requires index < |items|
    ensures var r := Updated(items, index, field, value, toQuantity, toCents);
      |r| == |items| &&
      (forall k :: 0 <= k < |items| && k != index ==> r[k] == items[k]) &&
      r[index].description == (if field == Description then value else items[index].description) &&
      r[index].quantity == (if field == Quantity then toQuantity(value) else items[index].quantity) &&
      r[index].unitPrice == (if field == UnitPrice then toCents(value) else items[index].unitPrice) &&
      Total(r) == Total(items) - Amount(items[index]) + Amount(r[index])
  {
    var r := Updated(items, index, field, value, toQuantity, toCents);
    TotalAppend(items[..index], items[index..]);
    TotalAppend(r[..index], r[index..]);
    TotalCons(items[index..]);
    TotalCons(r[index..]);
    assert items[..index] + items[index..] == items;
    assert r[..index] + r[index..] == r;
    assert r[..index] == items[..index];
    assert r[index..][1..] == items[index..][1..];
  }

  /**
   * The `lineItems` state cell. Every update the form can make keeps at least one item in
   * the list.
   */
  class LineItemList {
    var items: seq<LineItem>

    predicate Valid()
      reads this
    {
      |items| >= 1
    }

    /** `useState([{description: "", quantity: 1, unitPrice: 0}])`. */
    constructor ()
      ensures items == [NewItem] && Valid()
    {
      items := [NewItem];
    }

    method AddLineItem()
      requires Valid()
      modifies this
      ensures items == old(items) + [NewItem] && Valid()
      ensures Total(items) == Total(old(items))
    {
      AddLineItemSpec(items);
      items := items + [NewItem];
    }

    method RemoveLineItem(index: int)
      requires Valid()
      modifies this
      ensures items == Removed(old(items), index) && Valid()
    {
      RemoveLineItemSpec(items, index);
      if |items| > 1 {
        items := WithoutIndex(items, index);
      }
    }

    method UpdateLineItem(index: nat, field: Field, value: string, toQuantity: string -> int, toCents: string -> int)
      requires Valid() && index < |items|
      modifies this
      ensures items == Updated(old(items), index, field, value, toQuantity, toCents) && Valid()
    {
      var updatedItems := items;
      updatedItems := updatedItems[index := WithField(updatedItems[index], field, value, toQuantity, toCents)];
      items := updatedItems;
    }

    /** `calculateTotal()`: the fold of quantity * unitPrice over the current list. */
    function CalculateTotal(): int
      reads this
    {
      Total(items)
    }
  }

  /* ---------- the default invoice number ---------- */

  /** `INV-${year}${month padded to 2}${day padded to 2}-001`, with the month counted from 0 as `getMonth()` does. */
  function DefaultInvoiceNumber(year: int, monthIndex: nat, day: nat): string {
    "INV-" + IntToString(year) + PadStart(NatToString(monthIndex + 1), 2) + PadStart(NatToString(day), 2) + "-001"
  }

  /** For a four-digit year the number has 16 characters and its digit groups read back as year, month and day. */
  lemma DefaultInvoiceNumberFormat(year: int, monthIndex: nat, day: nat)
    requires 1000 <= year <= 9999 && monthIndex < 12 && 1 <= day <= 31
    ensures var s := DefaultInvoiceNumber(year, monthIndex, day);
      |s| == 16 && s[..4] == "INV-" && s[12..] == "-001" &&
      AllDigits(s[4..8]) && DigitsValue(s[4..8]) == year &&
      AllDigits(s[8..10]) && DigitsValue(s[8..10]) == monthIndex + 1 &&
      AllDigits(s[10..12]) && DigitsValue(s[10..12]) == day
  {
    var y, m, dd := NatToString(year), PadStart(NatToString(monthIndex + 1), 2), PadStart(NatToString(day), 2);
    FourDigits(year);
    DigitsValueOfNatToString(year);
    TwoDigits(monthIndex + 1);
    TwoDigits(day);
    var s := DefaultInvoiceNumber(year, monthIndex, day);
    assert s == "INV-" + y + m + dd + "-001";
    assert s[4..8] == y && s[8..10] == m && s[10..12] == dd;
  }

  /* ---------- what the form sends to the save action ---------- */

  /** `{...data, lineItems, totalAmount: calculateTotal()}`. */
  function SaveRequest(form: InvoiceData, items: seq<LineItem>): InvoiceData {
    form.(lineItems := items, totalAmount := Some(Total(items)))
  }

  /**
   * Because the form sends the total of the same list it sends, a successful save stores a
   * header total equal to the sum of the stored item amounts.
   */
  lemma FormSaveStoresConsistentTotal(w: World, form: InvoiceData, items: seq<LineItem>, fails: Failures)
    requires Save(w, SaveRequest(form, items), fails).1.Saved?
    ensures var w1 := Save(w, SaveRequest(form, items), fails).0;
      |w1.invoices| > 0 && |w.lineItems| <= |w1.lineItems| &&
      w1.invoices[|w1.invoices| - 1].totalAmount == SumAmounts(w1.lineItems[|w.lineItems|..]) &&
      |w1.lineItems| - |w.lineItems| == |items|
  {
    StoredTotalMatchesItems(w, SaveRequest(form, items), fails);
  }
}
