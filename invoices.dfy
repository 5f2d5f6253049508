/** The invoice list page (src/pages/Invoices.tsx): how a fetched spreadsheet record becomes an
    invoice row, when a fetch replaces the list, and what a confirmed delete does. */
module Invoices {
  import opened Wrappers
  import opened Seqs
  import opened Text
  import opened JsValues
  import opened Records
  import opened Dates

  /** A record as the web service returns it: its scalar fields, and its `items` array when it has
      a truthy one. */
  datatype RawInvoice = RawInvoice(fields: Record, items: Option<seq<Record>>)

  datatype MappedItem = MappedItem(productId: JsValue, productName: JsValue, quantity: JsValue, price: JsValue, total: JsValue)

  datatype MappedInvoice = MappedInvoice(
    id: JsValue,
    invoiceNumber: JsValue,
    date: JsValue,
    customerName: JsValue,
    customerContact: JsValue,
    customerAddress: JsValue,
    subtotal: JsValue,
    discount: JsValue,
    tax: JsValue,
    total: JsValue,
    status: JsValue,
    items: seq<MappedItem>)

  /** `dd/mm/yyyy`; an unparseable date renders every part as `NaN`. */
  function FormatDmy(parsed: Option<CalendarDate>): string {
    match parsed
    case None => "NaN/NaN/NaN"
    case Some(d) => TwoDigits(d.day) + "/" + TwoDigits(d.month) + "/" + IntToString(d.year)
  }

  /** A valid calendar date is written as two day digits, a slash, two month digits, a slash
      and the year, and each part reads back as its field. */
  lemma FormatDmyParts(d: CalendarDate)
    requires 1 <= d.day <= 31 && 1 <= d.month <= 12 && d.year >= 0
    ensures var s := FormatDmy(Some(d));
      |s| == 6 + |NatToString(d.year)| && s[2] == '/' && s[5] == '/'
      && AllDigits(s[..2]) && DigitsValue(s[..2]) == d.day
      && AllDigits(s[3..5]) && DigitsValue(s[3..5]) == d.month
      && s[6..] == NatToString(d.year)
  {
    TwoDigitsValue(d.day);
    TwoDigitsValue(d.month);
    SeparatorLayout(TwoDigits(d.day), '/', TwoDigits(d.month), NatToString(d.year));
  }

  function MapItem(item: Record): (m: MappedItem)
    ensures m.productId == Get(item, "ProductID") && m.productName == Get(item, "ProductName")
    ensures m.quantity == Get(item, "Quantity") && m.price == Get(item, "Price") && m.total == Get(item, "Total")
  {
    MappedItem(Get(item, "ProductID"), Get(item, "ProductName"), Get(item, "Quantity"), Get(item, "Price"), Get(item, "Total"))
  }

  function MapItems(items: seq<Record>): (r: seq<MappedItem>)
    ensures |r| == |items|
    ensures forall i :: 0 <= i < |items| ==> r[i] == MapItem(items[i])
  {
    if items == [] then []
    else
      var rest := MapItems(items[1..]);
      assert forall i :: 1 <= i < |items| ==> rest[i - 1] == MapItem(items[i]);
      [MapItem(items[0])] + rest
  }

  /** `mapInvoiceKeys`, given the calendar fields of the parsed `Date` (`None` when it does not parse). */
  function MapInvoiceKeys(raw: RawInvoice, parsed: Option<CalendarDate>): (m: MappedInvoice)
    ensures m.id == m.invoiceNumber == Get(raw.fields, "InvoiceNumber")
    ensures m.date == if Truthy(Get(raw.fields, "Date")) then Str(FormatDmy(parsed)) else Get(raw.fields, "Date")
    ensures m.customerName == Get(raw.fields, "CustomerName") && m.customerContact == Get(raw.fields, "Contact")
    ensures m.customerAddress == Get(raw.fields, "Address") && m.total == Get(raw.fields, "GrandTotal")
    ensures raw.items.None? ==> m.items == []
    ensures raw.items.Some? ==> (|m.items| == |raw.items.value|
      && forall i :: 0 <= i < |m.items| ==> m.items[i] == MapItem(raw.items.value[i]))
  {
    var rawDate := Get(raw.fields, "Date");
    MappedInvoice(
      Get(raw.fields, "InvoiceNumber"),
      Get(raw.fields, "InvoiceNumber"),
      if Truthy(rawDate) then Str(FormatDmy(parsed)) else rawDate,
      Get(raw.fields, "CustomerName"),
      Get(raw.fields, "Contact"),
      Get(raw.fields, "Address"),
      Get(raw.fields, "Subtotal"),
      Get(raw.fields, "Discount"),
      Get(raw.fields, "Tax"),
      Get(raw.fields, "GrandTotal"),
      Get(raw.fields, "status"),
      MapItems(if raw.items.Some? then raw.items.value else []))
  }

  /** `data.data.map(mapInvoiceKeys)`, the parsed dates given row by row. */
  function MapAll(rows: seq<RawInvoice>, dates: seq<Option<CalendarDate>>): (r: seq<MappedInvoice>)
    requires |dates| == |rows|
    ensures |r| == |rows|
    ensures forall i :: 0 <= i < |rows| ==> r[i] == MapInvoiceKeys(rows[i], dates[i])
  {
    if rows == [] then [] else [MapInvoiceKeys(rows[0], dates[0])] + MapAll(rows[1..], dates[1..])
  }

  /** The page's state: the listed invoices and the id awaiting delete confirmation. */
  datatype PageState = PageState(invoiceData: seq<MappedInvoice>, invoiceToDelete: Option<JsValue>)

  /** A fetch response replaces the list only when `success` is truthy and `data` is an array
      (`data` is `None` otherwise). */
  function AfterFetch(st: PageState, success: JsValue, data: Option<seq<RawInvoice>>, dates: seq<Option<CalendarDate>>): (r: PageState)
    requires data.Some? ==> |dates| == |data.value|
    ensures r.invoiceToDelete == st.invoiceToDelete
    ensures Truthy(success) && data.Some? ==> r.invoiceData == MapAll(data.value, dates)
    ensures !(Truthy(success) && data.Some?) ==> r == st
  {
    if Truthy(success) && data.Some? then st.(invoiceData := MapAll(data.value, dates)) else st
  }

  /** The invoices whose id is not `id`, by the strict inequality of the filter. */
  function WithoutInvoice(invoices: seq<MappedInvoice>, id: JsValue): (r: seq<MappedInvoice>)
    ensures forall x :: x in r <==> x in invoices && x.id != id
  {
    if invoices == [] then []
    else (if invoices[0].id == id then [] else [invoices[0]]) + WithoutInvoice(invoices[1..], id)
  }

  /** A delete works invoice by invoice, so the survivors keep their order. */
  lemma {:induction false} WithoutInvoiceConcat(a: seq<MappedInvoice>, b: seq<MappedInvoice>, id: JsValue)
    ensures WithoutInvoice(a + b, id) == WithoutInvoice(a, id) + WithoutInvoice(b, id)
  {
    if a == [] {
      assert a + b == b;
    } else {
      assert (a + b)[1..] == a[1..] + b;
      WithoutInvoiceConcat(a[1..], b, id);
    }
  }

  /** `handleDeleteConfirm`: nothing happens without a (truthy) pending id; otherwise a successful
      response removes the invoices with that id, a failed one keeps the list, and the pending id
      is cleared either way. */
  function DeleteConfirmed(st: PageState, success: bool): (r: PageState)
    ensures st.invoiceToDelete.None? || !Truthy(st.invoiceToDelete.value) ==> r == st
    ensures st.invoiceToDelete.Some? && Truthy(st.invoiceToDelete.value) ==>
      r.invoiceToDelete.None?
      && r.invoiceData == if success then WithoutInvoice(st.invoiceData, st.invoiceToDelete.value) else st.invoiceData
  {
    match st.invoiceToDelete
    case None => st
    case Some(id) =>
      if !Truthy(id) then st
      else PageState(if success then WithoutInvoice(st.invoiceData, id) else st.invoiceData, None)
  }
}
