/** The billing page (src/pages/Billing.tsx): an editable list of line items over the products
    the billing endpoint returns, the discount and tax totals, the checks before an invoice is
    sent, and the padded row list of its printout. */
module Billing {
  import opened Wrappers
  import opened Seqs
  import opened Text
  import opened JsValues

  /** A product as the page reads it; a missing selling price or remaining stock is `None`. */
  datatype BillingProduct = BillingProduct(productid: string, productName: string, sellingPrice: Option<real>, remaining: Option<real>)

  datatype LineItem = LineItem(productId: string, productName: string, quantity: real, price: real, total: real)

  /** The row `handleAddItem` appends. */
  const NewItem := LineItem("", "", 1.0, 0.0, 0.0)

  /** `product.sellingPrice || 0`. */
  function PriceOf(p: BillingProduct): real {
    match p.sellingPrice
    case Some(x) => x
    case None => 0.0
  }

  /** `products.find(p => p.productid === id)`, as the index found, -1 when none matches. */
  function FindProduct(products: seq<BillingProduct>, id: string): (k: int)
    ensures -1 <= k < |products|
    ensures k >= 0 ==> products[k].productid == id
    ensures forall j :: 0 <= j < |products| && (k < 0 || j < k) ==> products[j].productid != id
  {
    if products == [] then -1
    else if products[0].productid == id then 0
    else
      var k := FindProduct(products[1..], id);
      if k < 0 then -1 else k + 1
  }

  /** The item after a product is picked for it: that product's id, name and price, and the
      total for the quantity it already has. */
  function WithProduct(item: LineItem, p: BillingProduct): (r: LineItem)
    ensures r.quantity == item.quantity && r.productId == p.productid && r.productName == p.productName
    ensures r.price == (if p.sellingPrice.Some? then p.sellingPrice.value else 0.0)
    ensures r.total == r.price * r.quantity
  {
    item.(productId := p.productid, productName := p.productName, price := PriceOf(p), total := PriceOf(p) * item.quantity)
  }

  /** The item after a quantity is entered for it: out of stock, everything is zeroed; otherwise
      the quantity is capped at the remaining stock and the total follows at the item's price. */
  function WithQuantity(item: LineItem, p: BillingProduct, quantity: real): (r: LineItem)
    ensures r.productId == item.productId && r.productName == item.productName
    ensures p.remaining == Some(0.0) ==> r.quantity == 0.0 && r.price == 0.0 && r.total == 0.0
    ensures p.remaining != Some(0.0) ==>
      && r.price == item.price && r.total == r.price * r.quantity
      && (p.remaining.Some? ==> r.quantity <= p.remaining.value && (r.quantity == quantity || r.quantity == p.remaining.value))
      && (p.remaining.None? || quantity <= p.remaining.value ==> r.quantity == quantity)
  {
    if p.remaining == Some(0.0) then item.(quantity := 0.0, price := 0.0, total := 0.0)
    else
      var q := if p.remaining.Some? && quantity > p.remaining.value then p.remaining.value else quantity;
      item.(quantity := q, total := item.price * q)
  }

  /** `splice(index, 1)`: the item at `index` is removed and the rest keep their order; an index
      past the end removes nothing. */
  function RemovedAt(items: seq<LineItem>, index: nat): (r: seq<LineItem>)
    ensures index < |items| ==> |r| == |items| - 1
    ensures index >= |items| ==> r == items
    ensures forall j :: 0 <= j < index && j < |r| ==> r[j] == items[j]
    ensures forall j :: index <= j < |r| ==> r[j] == items[j + 1]
  {
    if index < |items| then items[..index] + items[index + 1..] else items
  }

  function ItemTotal(item: LineItem): real { item.total }

  /** `items.reduce((sum, item) => sum + item.total, 0)`. */
  function Subtotal(items: seq<LineItem>): real {
    SumBy(items, ItemTotal)
  }

  /** `(subtotal - discount) * (tax / 100)`: tax is charged on the discounted amount. */
  function TotalTax(subtotal: real, discount: real, tax: real): real {
    (subtotal - discount) * (tax / 100.0)
  }

  function GrandTotal(subtotal: real, discount: real, tax: real): (g: real)
    ensures g == (subtotal - discount) * (1.0 + tax / 100.0)
  {
    subtotal - discount + TotalTax(subtotal, discount, tax)
  }

  /** A blank row adds nothing to the subtotal. */
  lemma AddItemKeepsSubtotal(items: seq<LineItem>)
    ensures Subtotal(items + [NewItem]) == Subtotal(items)
  {
    SumByConcat(items, [NewItem], ItemTotal);
  }

  /** Removing a row takes exactly its total off the subtotal. */
  lemma RemoveItemSubtotal(items: seq<LineItem>, index: nat)
    requires index < |items|
    ensures Subtotal(RemovedAt(items, index)) == Subtotal(items) - items[index].total
  {
    assert items == items[..index] + ([items[index]] + items[index + 1..]);
    SumByConcat(items[..index], [items[index]] + items[index + 1..], ItemTotal);
    SumByConcat([items[index]], items[index + 1..], ItemTotal);
    SumByConcat(items[..index], items[index + 1..], ItemTotal);
  }

  /** Replacing one row changes the subtotal by the difference of the two totals. */
  lemma ReplaceItemSubtotal(items: seq<LineItem>, index: nat, item: LineItem)
    requires index < |items|
    ensures Subtotal(items[index := item]) == Subtotal(items) - items[index].total + item.total
  {
    var u := items[index := item];
    assert items == items[..index] + ([items[index]] + items[index + 1..]);
    assert u == items[..index] + ([item] + items[index + 1..]);
    SumByConcat(items[..index], [items[index]] + items[index + 1..], ItemTotal);
    SumByConcat([items[index]], items[index + 1..], ItemTotal);
    SumByConcat(items[..index], [item] + items[index + 1..], ItemTotal);
    SumByConcat([item], items[index + 1..], ItemTotal);
  }

  // ---------------------------------------------------------------- generating an invoice

  /** `Math.floor(1000 + Math.random() * 9000)`. */
  function InvoiceDigits(draw: real): (n: nat)
    requires 0.0 <= draw < 1.0
    ensures 1000 <= n <= 9999
  {
    (1000.0 + draw * 9000.0).Floor
  }

  /** The generated invoice number: `INV-` and four digits. */
  function InvoiceNumber(draw: real): (s: string)
    requires 0.0 <= draw < 1.0
    ensures |s| == 8 && StartsWith(s, "INV-") && AllDigits(s[4..])
    ensures DigitsValue(s[4..]) == InvoiceDigits(draw)
  {
    var n := InvoiceDigits(draw);
    assert Pow10(3) == 1000 && Pow10(4) == 10000;
    NatToStringLength(n, 4);
    NatToStringRoundTrip(n);
    "INV-" + NatToString(n)
  }

  datatype Customer = Customer(name: string, contact: string, address: string, nif: string)

  /** A line of the request: the quantity as `parseInt` reads it, the amounts in whole cents. */
  datatype RequestItem = RequestItem(productId: string, productName: string, quantity: int, price: real, total: real)

  /** The invoice the page sends. */
  datatype InvoiceRequest = InvoiceRequest(
    invoiceNumber: string, date: string, customer: Customer,
    discount: real, tax: real, total: real, items: seq<RequestItem>)

  /** `parseInt(quantity)`: the whole part of the quantity, truncated toward zero. */
  function WholeQuantity(quantity: real): int {
    if quantity >= 0.0 then quantity.Floor else -((-quantity).Floor)
  }

  /** For a non-negative quantity written out by `String()`, the truncation is what `parseInt`
      reads from that text. */
  lemma WholeQuantityIsParseInt(m: int, e: nat)
    requires m >= 0
    ensures ParseInt(ToStr(Num(m, e))) == Some(WholeQuantity(NumValue(m, e)))
  {
    ParseIntOfNumber(m, e);
    NonNegativeQuotient(m, Pow10(e));
  }

  /** `items.map(item => ({ ..., quantity: parseInt(item.quantity), price: parseFloat(item.price.toFixed(2)), ... }))`
      for one item. */
  function RequestLine(item: LineItem): (r: RequestItem)
    ensures r.productId == item.productId && r.productName == item.productName
    ensures item.quantity >= 0.0 ==> r.quantity as real <= item.quantity < r.quantity as real + 1.0
    ensures -0.005 <= r.price - item.price <= 0.005 && -0.005 <= r.total - item.total <= 0.005
  {
    RequestItem(item.productId, item.productName, WholeQuantity(item.quantity), RoundToCents(item.price), RoundToCents(item.total))
  }

  /** Why `handleGenerateInvoice` sends nothing, or what it sends. */
  datatype Generation = NoItems | ZeroQuantity | InvalidSubtotal | Send(request: InvoiceRequest)

  predicate HasInvalidItem(items: seq<LineItem>) {
    exists i :: 0 <= i < |items| && items[i].quantity <= 0.0
  }

  /** The checks of `handleGenerateInvoice`, in order, then the request: each line's quantity is
      truncated by `parseInt` and every amount is rounded to cents by `parseFloat(x.toFixed(2))`. */
  function Generate(items: seq<LineItem>, customer: Customer, discount: real, tax: real, draw: real, date: string): (g: Generation)
    requires 0.0 <= draw < 1.0
    ensures g.Send? <==> |items| > 0 && (forall i :: 0 <= i < |items| ==> items[i].quantity > 0.0) && Subtotal(items) > 0.0
    ensures g.Send? ==>
      && |g.request.items| == |items|
      && (forall i :: 0 <= i < |items| ==> g.request.items[i] == RequestLine(items[i]))
      && (forall i :: 0 <= i < |items| ==> g.request.items[i].quantity == items[i].quantity.Floor)
      && g.request.discount == RoundToCents(discount)
      && g.request.tax == RoundToCents(TotalTax(Subtotal(items), discount, tax))
      && g.request.total == RoundToCents(GrandTotal(Subtotal(items), discount, tax))
      && g.request.invoiceNumber == InvoiceNumber(draw)
      && g.request.customer == customer && g.request.date == date
    ensures |items| == 0 ==> g == NoItems
    ensures |items| > 0 && HasInvalidItem(items) ==> g == ZeroQuantity
  {
    if |items| == 0 then NoItems
    else if HasInvalidItem(items) then ZeroQuantity
    else if Subtotal(items) <= 0.0 then InvalidSubtotal
    else
      var subtotal := Subtotal(items);
      var lines := seq(|items|, i requires 0 <= i < |items| => RequestLine(items[i]));
      Send(InvoiceRequest(InvoiceNumber(draw), date, customer, RoundToCents(discount),
                          RoundToCents(TotalTax(subtotal, discount, tax)),
                          RoundToCents(GrandTotal(subtotal, discount, tax)), lines))
  }

  /** A quantity between 0 and 1 passes the `quantity <= 0` check, yet `parseInt` sends it as 0. */
  lemma FractionalQuantitySentAsZero(items: seq<LineItem>, customer: Customer, discount: real, tax: real, draw: real, date: string, i: nat)
    requires 0.0 <= draw < 1.0
    requires i < |items| && 0.0 < items[i].quantity < 1.0
    requires Generate(items, customer, discount, tax, draw, date).Send?
    ensures Generate(items, customer, discount, tax, draw, date).request.items[i].quantity == 0
  {
  }

  // ---------------------------------------------------------------- printing a saved invoice

  /** A row of a saved invoice as its printout reads it. */
  datatype DeliveryRow = DeliveryRow(productName: JsValue, description: JsValue, quantity: JsValue, unitName: JsValue,
                                     price: JsValue, discount: JsValue, total: JsValue)

  /** The filler row of the printout: every column the empty string. */
  const BlankRow := DeliveryRow(Str(""), Str(""), Str(""), Str(""), Str(""), Str(""), Str(""))

  /** `invoice.items || []`, padded with blank rows up to 25. */
  function PrintedRows(items: Option<seq<DeliveryRow>>): (rows: seq<DeliveryRow>)
    ensures var its := if items.Some? then items.value else [];
      && |rows| == (if |its| < 25 then 25 else |its|)
      && rows[..|its|] == its
      && forall j :: |its| <= j < |rows| ==> rows[j] == BlankRow
  {
    PadRows(if items.Some? then items.value else [], BlankRow, 25)
  }

  /** The per-row discount cell is printed for a row with a product name, when the invoice's
      discount is neither missing nor the empty string. */
  predicate DiscountCellShown(row: DeliveryRow, invoiceDiscount: JsValue) {
    Truthy(row.productName) && !invoiceDiscount.Undefined? && invoiceDiscount != Str("")
  }

  /** A price or total cell is printed unless it is the empty string or nullish. */
  predicate AmountCellShown(v: JsValue) {
    v != Str("") && !IsNullish(v)
  }

  /** The filler rows print no discount, price or total. */
  lemma BlankRowsPrintNoAmounts(items: Option<seq<DeliveryRow>>, invoiceDiscount: JsValue, j: nat)
    requires j < |PrintedRows(items)|
    requires j >= |if items.Some? then items.value else []|
    ensures var row := PrintedRows(items)[j];
      !DiscountCellShown(row, invoiceDiscount) && !AmountCellShown(row.price) && !AmountCellShown(row.total)
  {
  }

  // ---------------------------------------------------------------- the page

  class Page {
    var products: seq<BillingProduct>
    var items: seq<LineItem>
    var customer: Customer
    var discount: real
    var tax: real
    var invoiceNumber: string

    constructor ()
      ensures products == [] && items == [] && customer == Customer("", "", "", "")
      ensures discount == 0.0 && tax == 0.0 && invoiceNumber == ""
    {
      products, items := [], [];
      customer := Customer("", "", "", "");
      discount, tax := 0.0, 0.0;
      invoiceNumber := "";
    }

    /** `setProducts(data.data || [])` once the product list has been fetched. */
    method LoadProducts(fetched: Option<seq<BillingProduct>>)
      modifies this
      ensures products == if fetched.Some? then fetched.value else []
      ensures items == old(items) && customer == old(customer) && discount == old(discount) && tax == old(tax)
      ensures invoiceNumber == old(invoiceNumber)
    {
      products := if fetched.Some? then fetched.value else [];
    }

    method HandleAddItem()
      modifies this
      ensures items == old(items) + [NewItem]
      ensures products == old(products) && customer == old(customer) && discount == old(discount) && tax == old(tax)
      ensures invoiceNumber == old(invoiceNumber)
    {
      items := items + [NewItem];
    }

    /** `handleProductChange`: an unknown product id changes nothing; otherwise only the item at
        `index` takes the product. */
    method HandleProductChange(index: nat, productId: string)
      requires index < |items|
      modifies this
      ensures var k := FindProduct(products, productId);
        items == if k < 0 then old(items) else old(items)[index := WithProduct(old(items)[index], products[k])]
      ensures products == old(products) && customer == old(customer) && discount == old(discount) && tax == old(tax)
      ensures invoiceNumber == old(invoiceNumber)
    {
      var k := FindProduct(products, productId);
      if k < 0 {
        return;
      }
      var product := products[k];
      var updatedItems := items;
      updatedItems := updatedItems[index := WithProduct(updatedItems[index], product)];
      items := updatedItems;
    }

    /** `handleQuantityChange`: with no product for the item's id nothing changes; otherwise only
        the item at `index` takes the quantity, capped by the stock. */
    method HandleQuantityChange(index: nat, quantity: real)
      requires index < |items|
      modifies this
      ensures var k := FindProduct(products, old(items)[index].productId);
        items == if k < 0 then old(items) else old(items)[index := WithQuantity(old(items)[index], products[k], quantity)]
      ensures products == old(products) && customer == old(customer) && discount == old(discount) && tax == old(tax)
      ensures invoiceNumber == old(invoiceNumber)
    {
      var updatedItems := items;
      var k := FindProduct(products, updatedItems[index].productId);
      if k < 0 {
        return;
      }
      var product := products[k];
      ghost var requested := quantity;
      var quantity := quantity;
      if product.remaining == Some(0.0) {
        updatedItems := updatedItems[index := updatedItems[index].(quantity := 0.0, price := 0.0, total := 0.0)];
      } else {
        if product.remaining.Some? && quantity > product.remaining.value {
          quantity := product.remaining.value;
        }
        updatedItems := updatedItems[index := updatedItems[index].(quantity := quantity, total := updatedItems[index].price * quantity)];
      }
      assert updatedItems[index] == WithQuantity(items[index], product, requested);
      items := updatedItems;
    }

    method HandleRemoveItem(index: nat)
      modifies this
      ensures items == RemovedAt(old(items), index)
      ensures products == old(products) && customer == old(customer) && discount == old(discount) && tax == old(tax)
      ensures invoiceNumber == old(invoiceNumber)
    {
      var updatedItems := items;
      if index < |updatedItems| {
        updatedItems := updatedItems[..index] + updatedItems[index + 1..];
      }
      items := updatedItems;
    }

    /** `handleGenerateInvoice`: the checks, then the request; the page keeps the new number only
        when the server reports success (`saved`). */
    method HandleGenerateInvoice(draw: real, date: string, saved: bool) returns (g: Generation)
      requires 0.0 <= draw < 1.0
      modifies this
      ensures g == Generate(old(items), old(customer), old(discount), old(tax), draw, date)
      ensures invoiceNumber == if g.Send? && saved then g.request.invoiceNumber else old(invoiceNumber)
      ensures items == old(items) && products == old(products) && customer == old(customer)
      ensures discount == old(discount) && tax == old(tax)
    {
      g := Generate(items, customer, discount, tax, draw, date);
      if g.Send? && saved {
        invoiceNumber := g.request.invoiceNumber;
      }
    }
  }
}
