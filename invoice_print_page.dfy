/** The delivery-note print page (src/pages/InvoicePrintPage.tsx): the invoice's items padded
    with empty records to at least 25 rows, the cells each row prints, the summary table with
    one row per real item, and the grand total. A `toFixed(2)` call on a value that is not a
    number throws a TypeError, and the page then does not render at all. */
module InvoicePrintPage {
  import opened Wrappers
  import opened Seqs
  import opened JsValues
  import opened Records

  const MinRows: nat := 25

  /** `{}`. */
  const EmptyItem: Record := []

  /** The invoice handed over in the navigation state. */
  datatype PrintInvoice = PrintInvoice(invoiceNumber: JsValue, date: JsValue, customerName: JsValue, discount: JsValue, total: JsValue, items: seq<Record>)

  /** `[...items]`, then `push({})` while there are fewer than 25 rows. */
  method PadItems(items: seq<Record>) returns (padded: seq<Record>)
    ensures padded == PadRows(items, EmptyItem, MinRows)
  {
    padded := items;
    while |padded| < MinRows
      invariant |items| <= |padded|
      invariant padded[..|items|] == items
      invariant forall j :: |items| <= j < |padded| ==> padded[j] == EmptyItem
      invariant |padded| <= |items| || |padded| <= MinRows
      decreases MinRows - |padded|
    {
      padded := padded + [EmptyItem];
    }
    var spec := PadRows(items, EmptyItem, MinRows);
    assert |padded| == |spec|;
    assert forall j :: 0 <= j < |padded| ==> padded[j] == spec[j] by {
      forall j | 0 <= j < |padded|
        ensures padded[j] == spec[j]
      {
        if j < |items| {
          assert padded[j] == padded[..|items|][j] && spec[j] == spec[..|items|][j];
        }
      }
    }
  }

  /** What a cell shows: an amount stands for the two-decimal rendering of a number. */
  datatype Cell = Blank | Text(v: JsValue) | Amount(v: JsValue)

  datatype DeliveryRow = DeliveryRow(item: Cell, description: Cell, quantity: Cell, unitPrice: Cell, subtotal: Cell, discount: Cell, total: Cell)

  /** `value || ''`. */
  function OrBlank(v: JsValue): (c: Cell)
    ensures c == Blank <==> !Truthy(v)
  {
    if Truthy(v) then Text(v) else Blank
  }

  /** `value !== undefined ? value.toFixed(2) : ''`: `None` is the TypeError that `toFixed`
      raises on anything but a number (null, a string, a boolean). */
  function FixedUnlessUndefined(v: JsValue): (c: Option<Cell>)
    ensures c == Some(Blank) <==> v.Undefined?
    ensures c.None? <==> !v.Undefined? && !v.Num?
    ensures c.Some? && c.value != Blank ==> v.Num? && c.value == Amount(v)
  {
    if v.Undefined? then Some(Blank) else if v.Num? then Some(Amount(v)) else None
  }

  /** `value?.toFixed(2)`: a nullish value prints nothing, a number its amount, anything else
      throws (`None`). */
  function FixedOptional(v: JsValue): (c: Option<Cell>)
    ensures c == Some(Blank) <==> IsNullish(v)
    ensures c.None? <==> !IsNullish(v) && !v.Num?
    ensures c.Some? && c.value != Blank ==> v.Num? && c.value == Amount(v)
  {
    if IsNullish(v) then Some(Blank) else if v.Num? then Some(Amount(v)) else None
  }

  /** A row renders when its three guarded amounts do and, on a row with a product name, the
      invoice's discount does. */
  predicate RowRenders(item: Record, discount: JsValue) {
    FixedUnlessUndefined(Get(item, "unitPrice")).Some?
    && FixedUnlessUndefined(Get(item, "price")).Some?
    && FixedUnlessUndefined(Get(item, "total")).Some?
    && (Truthy(Get(item, "productName")) ==> FixedOptional(discount).Some?)
  }

  /** One row of the items table; the invoice's discount is repeated on each row with a product
      name, and read only on those rows. */
  function RowCells(item: Record, discount: JsValue): (r: Option<DeliveryRow>)
    ensures r.Some? <==> RowRenders(item, discount)
  {
    var unitPrice := FixedUnlessUndefined(Get(item, "unitPrice"));
    var price := FixedUnlessUndefined(Get(item, "price"));
    var total := FixedUnlessUndefined(Get(item, "total"));
    var disc := if Truthy(Get(item, "productName")) then FixedOptional(discount) else Some(Blank);
    if unitPrice.None? || price.None? || total.None? || disc.None? then None
    else
      Some(DeliveryRow(
        OrBlank(Get(item, "productName")),
        OrBlank(Get(item, "description")),
        OrBlank(Get(item, "quantity")),
        unitPrice.value, price.value, disc.value, total.value))
  }

  /** The empty record added as padding prints a row with nothing in it. */
  lemma EmptyRowBlank(discount: JsValue)
    ensures RowCells(EmptyItem, discount) == Some(DeliveryRow(Blank, Blank, Blank, Blank, Blank, Blank, Blank))
  {
  }

  /** `paddedItems.map(...)`: every row, in order, or the first TypeError. */
  function Rows(padded: seq<Record>, discount: JsValue): (r: Option<seq<DeliveryRow>>)
    ensures r.Some? <==> forall i :: 0 <= i < |padded| ==> RowRenders(padded[i], discount)
    ensures r.Some? ==> (|r.value| == |padded|
      && forall i :: 0 <= i < |padded| ==> Some(r.value[i]) == RowCells(padded[i], discount))
  {
    if padded == [] then Some([])
    else
      var head := RowCells(padded[0], discount);
      var tail := Rows(padded[1..], discount);
      if head.None? || tail.None? then
        assert !RowRenders(padded[0], discount) || exists i :: 1 <= i < |padded| && !RowRenders(padded[i], discount) by {
          if head.Some? {
            var j :| 0 <= j < |padded[1..]| && !RowRenders(padded[1..][j], discount);
            assert padded[1..][j] == padded[j + 1];
          }
        }
        None
      else
        Some([head.value] + tail.value)
  }

  datatype SummaryRow = SummaryRow(kind: JsValue, amount: Cell, discount: Cell)

  /** A summary row renders when the item's price and the invoice's discount both do. */
  predicate SummaryRenders(item: Record, discount: JsValue) {
    FixedOptional(Get(item, "price")).Some? && FixedOptional(discount).Some?
  }

  function SummaryCells(item: Record, discount: JsValue): (r: Option<SummaryRow>)
    ensures r.Some? <==> SummaryRenders(item, discount)
  {
    var amount := FixedOptional(Get(item, "price"));
    var disc := FixedOptional(discount);
    if amount.None? || disc.None? then None else Some(SummaryRow(Get(item, "productName"), amount.value, disc.value))
  }

  /** `items.map(...)` of the summary table: every row, in order, or the first TypeError. */
  function SummaryRows(items: seq<Record>, discount: JsValue): (r: Option<seq<SummaryRow>>)
    ensures r.Some? <==> forall i :: 0 <= i < |items| ==> SummaryRenders(items[i], discount)
    ensures r.Some? ==> (|r.value| == |items|
      && forall i :: 0 <= i < |items| ==> Some(r.value[i]) == SummaryCells(items[i], discount))
  {
    if items == [] then Some([])
    else
      var head := SummaryCells(items[0], discount);
      var tail := SummaryRows(items[1..], discount);
      if head.None? || tail.None? then
        assert !SummaryRenders(items[0], discount) || exists i :: 1 <= i < |items| && !SummaryRenders(items[i], discount) by {
          if head.Some? {
            var j :| 0 <= j < |items[1..]| && !SummaryRenders(items[1..][j], discount);
            assert items[1..][j] == items[j + 1];
          }
        }
        None
      else
        Some([head.value] + tail.value)
  }

  datatype Printout = Printout(rows: seq<DeliveryRow>, summary: seq<SummaryRow>, total: Cell)

  /** What the page shows: a notice without an invoice, nothing when rendering throws, and
      otherwise the delivery note. */
  datatype Page = NoInvoice | RenderError | Printed(printout: Printout)

  /** The page for the invoice handed over (`None` when it is missing). */
  function Render(invoice: Option<PrintInvoice>): (p: Page)
    ensures invoice.None? <==> p.NoInvoice?
  {
    match invoice
    case None => NoInvoice
    case Some(inv) =>
      var rows := Rows(PadRows(inv.items, EmptyItem, MinRows), inv.discount);
      var summary := SummaryRows(inv.items, inv.discount);
      var total := FixedOptional(inv.total);
      if rows.None? || summary.None? || total.None? then RenderError
      else Printed(Printout(rows.value, summary.value, total.value))
  }

  /** The page fails to render exactly when some real item has a non-number amount where
      `toFixed` is called, or the discount or the total is neither nullish nor a number while
      it is read; padding rows never fail. */
  lemma RenderErrorIff(inv: PrintInvoice)
    ensures Render(Some(inv)).RenderError? <==>
      (exists i :: 0 <= i < |inv.items| && !(RowRenders(inv.items[i], inv.discount) && SummaryRenders(inv.items[i], inv.discount)))
      || FixedOptional(inv.total).None?
  {
    var padded := PadRows(inv.items, EmptyItem, MinRows);
    var n := |inv.items|;
    forall i | 0 <= i < |padded|
      ensures padded[i] == if i < n then inv.items[i] else EmptyItem
    {
      if i < n {
        assert padded[i] == padded[..n][i];
      }
    }
    EmptyRowBlank(inv.discount);
  }

  /** With no items at all the discount is never read, so even a discount `toFixed` would
      reject leaves a blank 25-row note. */
  lemma EmptyInvoiceIgnoresDiscount(inv: PrintInvoice)
    requires inv.items == [] && FixedOptional(inv.total).Some?
    ensures Render(Some(inv)).Printed?
    ensures |Render(Some(inv)).printout.rows| == MinRows && Render(Some(inv)).printout.summary == []
  {
    RenderErrorIff(inv);
  }

  /** A printed note has max(25, n) rows: the items' rows first, in order, then rows that print
      nothing; the summary has one row per real item. */
  lemma RenderShape(inv: PrintInvoice)
    requires Render(Some(inv)).Printed?
    ensures var p := Render(Some(inv)).printout; var n := |inv.items|;
      |p.rows| == (if n < MinRows then MinRows else n)
      && (forall i :: 0 <= i < n ==> Some(p.rows[i]) == RowCells(inv.items[i], inv.discount))
      && (forall i :: n <= i < |p.rows| ==> p.rows[i] == DeliveryRow(Blank, Blank, Blank, Blank, Blank, Blank, Blank))
      && |p.summary| == n
      && (forall i :: 0 <= i < n ==> Some(p.summary[i]) == SummaryCells(inv.items[i], inv.discount))
  {
    var padded := PadRows(inv.items, EmptyItem, MinRows);
    var n := |inv.items|;
    forall i | 0 <= i < n
      ensures padded[i] == inv.items[i]
    {
      assert padded[i] == padded[..n][i];
    }
    EmptyRowBlank(inv.discount);
  }

  /** On a printed note the discount cell is filled exactly on the rows that print a product
      name, when the invoice has a discount. */
  lemma DiscountOnlyWithName(inv: PrintInvoice, i: nat)
    requires Render(Some(inv)).Printed? && i < |Render(Some(inv)).printout.rows|
    ensures var row := Render(Some(inv)).printout.rows[i];
      row.discount != Blank <==> row.item != Blank && !IsNullish(inv.discount)
  {
  }
}
