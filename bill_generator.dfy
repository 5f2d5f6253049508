/** The dashboard's bill generator (src/components/dashboard/BillGenerator.tsx): bill items keyed
    by their own id, picked from the products it is given, with an additive tax at a rate that
    starts at 10%, and the checks before the invoice is shown. */
module BillGenerator {
  import opened Wrappers
  import opened Seqs
  import opened Text
  import opened JsValues
  import opened Domain

  datatype BillItem = BillItem(id: string, productId: string, productName: string, quantity: int, price: real, total: real)

  function BillItemId(item: BillItem): string { item.id }

  const DefaultTaxRate: real := 10.0

  /** The item `handleAddItem` appends, with the id `item-<now>`. */
  function NewBillItem(now: nat): (item: BillItem)
    ensures StartsWith(item.id, "item-") && item.productId == "" && item.quantity == 1 && item.price == 0.0 && item.total == 0.0
  {
    BillItem("item-" + NatToString(now), "", "", 1, 0.0, 0.0)
  }

  /** `products.find(p => p.productCode === value)`, the lookup as written: the index found, -1
      when none matches. */
  function FindByCode(products: seq<Product>, value: string): (k: int)
    ensures -1 <= k < |products|
    ensures k >= 0 ==> products[k].productCode == value
    ensures forall j :: 0 <= j < |products| && (k < 0 || j < k) ==> products[j].productCode != value
  {
    if products == [] then -1
    else if products[0].productCode == value then 0
    else
      var k := FindByCode(products[1..], value);
      if k < 0 then -1 else k + 1
  }

  /** The lookup by the id the product selector hands over. */
  function FindById(products: seq<Product>, value: string): (k: int)
    ensures -1 <= k < |products|
    ensures k >= 0 ==> products[k].id == value
    ensures forall j :: 0 <= j < |products| && (k < 0 || j < k) ==> products[j].id != value
  {
    if products == [] then -1
    else if products[0].id == value then 0
    else
      var k := FindById(products[1..], value);
      if k < 0 then -1 else k + 1
  }

  /** One item after a product is picked for the item `itemId`: that item takes the selected
      value, the product's name and price and the total for its quantity; another stays. */
  function PickItem(item: BillItem, itemId: string, value: string, p: Product): BillItem {
    if item.id == itemId
    then item.(productId := value, productName := p.productName, price := p.sellingPrice, total := item.quantity as real * p.sellingPrice)
    else item
  }

  /** The items after a product is picked for the item `itemId`, item by item. */
  function Picked(items: seq<BillItem>, itemId: string, value: string, p: Product): (r: seq<BillItem>)
    ensures |r| == |items|
    ensures forall i :: 0 <= i < |items| ==> r[i] == PickItem(items[i], itemId, value, p)
  {
    if items == [] then [] else [PickItem(items[0], itemId, value, p)] + Picked(items[1..], itemId, value, p)
  }

  /** `handleProductChange` as written: the selector's value is a product id, but the lookup
      compares it with the product codes. */
  function ProductChangedAsWritten(items: seq<BillItem>, products: seq<Product>, itemId: string, value: string): (r: seq<BillItem>)
    ensures FindByCode(products, value) < 0 ==> r == items
    ensures FindByCode(products, value) >= 0 ==> r == Picked(items, itemId, value, products[FindByCode(products, value)])
  {
    var k := FindByCode(products, value);
    if k < 0 then items else Picked(items, itemId, value, products[k])
  }

  /** `handleProductChange` looking the selected value up by product id. */
  function ProductChanged(items: seq<BillItem>, products: seq<Product>, itemId: string, value: string): (r: seq<BillItem>)
    ensures FindById(products, value) < 0 ==> r == items
    ensures FindById(products, value) >= 0 ==> r == Picked(items, itemId, value, products[FindById(products, value)])
  {
    var k := FindById(products, value);
    if k < 0 then items else Picked(items, itemId, value, products[k])
  }

  /** A product list whose one product has an id that is not a code. */
  function SampleProducts(): seq<Product> {
    [Product("p1", "PROD-10001", "Tea", "", "Drinks", "Acme", 1.0, 2.0, 5.0, "pcs", "Main", "2024-01-01", "admin", "", true)]
  }

  /** As written, picking the only product offered (whose id is `p1`) leaves the bill as it was. */
  lemma PickingIgnoredAsWritten(items: seq<BillItem>)
    ensures ProductChangedAsWritten(items, SampleProducts(), "item-1", "p1") == items
  {
    assert SampleProducts()[0].productCode != "p1";
  }

  /** As written, when no product's code is also some product's id, picking any offered
      product (the selector hands over its id) leaves the bill as it was. */
  lemma PickingIgnoredWhenCodesAreNotIds(items: seq<BillItem>, products: seq<Product>, itemId: string, k: nat)
    requires k < |products|
    requires forall a, b :: 0 <= a < |products| && 0 <= b < |products| ==> products[a].productCode != products[b].id
    ensures ProductChangedAsWritten(items, products, itemId, products[k].id) == items
  {
  }

  /** Looked up by id, picking any offered product sets the picked item's name and price to
      that product's (the first with that id). */
  lemma PickingOfferedProduct(items: seq<BillItem>, products: seq<Product>, itemId: string, k: nat, i: nat)
    requires k < |products| && i < |items| && items[i].id == itemId
    requires forall j :: 0 <= j < k ==> products[j].id != products[k].id
    ensures var r := ProductChanged(items, products, itemId, products[k].id);
      r[i].productId == products[k].id && r[i].productName == products[k].productName
      && r[i].price == products[k].sellingPrice && r[i].total == items[i].quantity as real * products[k].sellingPrice
  {
    var f := FindById(products, products[k].id);
    assert f == k;
  }

  /** One item after a quantity is entered for the item `itemId`. */
  function SetQuantity(item: BillItem, itemId: string, quantity: int): BillItem {
    if item.id == itemId then item.(quantity := quantity, total := quantity as real * item.price) else item
  }

  /** The items after a quantity is entered for the item `itemId`, item by item. */
  function QuantitySet(items: seq<BillItem>, itemId: string, quantity: int): (r: seq<BillItem>)
    ensures |r| == |items|
    ensures forall i :: 0 <= i < |items| ==> r[i] == SetQuantity(items[i], itemId, quantity)
  {
    if items == [] then [] else [SetQuantity(items[0], itemId, quantity)] + QuantitySet(items[1..], itemId, quantity)
  }

  /** Every item's total is its quantity times its price. */
  predicate TotalsConsistent(items: seq<BillItem>) {
    forall i :: 0 <= i < |items| ==> TotalMatches(items[i])
  }

  predicate TotalMatches(item: BillItem) {
    item.total == item.quantity as real * item.price
  }

  /** A new item's total is its quantity times its price. */
  lemma AddKeepsTotals(items: seq<BillItem>, now: nat)
    requires TotalsConsistent(items)
    ensures TotalsConsistent(items + [NewBillItem(now)])
  {
    var a := items + [NewBillItem(now)];
    forall i | 0 <= i < |a|
      ensures TotalMatches(a[i])
    {
      if i < |items| { assert a[i] == items[i]; }
    }
  }

  /** Picking a product recomputes the picked items' totals from their quantities. */
  lemma PickKeepsTotals(items: seq<BillItem>, itemId: string, value: string, p: Product)
    requires TotalsConsistent(items)
    ensures TotalsConsistent(Picked(items, itemId, value, p))
  {
    var b := Picked(items, itemId, value, p);
    forall i | 0 <= i < |b|
      ensures TotalMatches(b[i])
    {
      assert b[i] == PickItem(items[i], itemId, value, p);
    }
  }

  /** Entering a quantity recomputes the item's total from its price. */
  lemma QuantityKeepsTotals(items: seq<BillItem>, itemId: string, quantity: int)
    requires TotalsConsistent(items)
    ensures TotalsConsistent(QuantitySet(items, itemId, quantity))
  {
    var c := QuantitySet(items, itemId, quantity);
    forall i | 0 <= i < |c|
      ensures TotalMatches(c[i])
    {
      var item := items[i];
      assert c[i] == SetQuantity(item, itemId, quantity);
      if item.id == itemId {
        assert c[i].quantity == quantity && c[i].price == item.price;
      }
    }
  }

  /** Removing items keeps the others as they were. */
  lemma RemoveKeepsTotals(items: seq<BillItem>, id: string)
    requires TotalsConsistent(items)
    ensures TotalsConsistent(RemoveById(items, BillItemId, id))
  {
    var r := RemoveById(items, BillItemId, id);
    forall i | 0 <= i < |r|
      ensures TotalMatches(r[i])
    {
      RemoveByIdMembership(items, BillItemId, id, r[i]);
    }
  }

  /** `parseInt(text) || 1`: what the quantity field hands over; unreadable text and 0 become 1. */
  function QuantityInput(text: string): (q: int)
    ensures q != 0
    ensures ParseInt(text).None? ==> q == 1
    ensures ParseInt(text).Some? && ParseInt(text).value != 0 ==> q == ParseInt(text).value
  {
    match ParseInt(text)
    case None => 1
    case Some(n) => if n == 0 then 1 else n
  }

  function ItemTotal(item: BillItem): real { item.total }

  function Subtotal(items: seq<BillItem>): real {
    SumBy(items, ItemTotal)
  }

  /** `subtotal * (taxRate / 100)`: the tax is added on top. */
  function TaxAmount(subtotal: real, taxRate: real): real {
    subtotal * (taxRate / 100.0)
  }

  function GrandTotal(subtotal: real, taxRate: real): (g: real)
    ensures g == subtotal * (1.0 + taxRate / 100.0)
    ensures taxRate == DefaultTaxRate ==> g == subtotal * 1.1
  {
    subtotal + TaxAmount(subtotal, taxRate)
  }

  /** Removing the items with one id takes exactly their totals off the subtotal. */
  lemma {:induction false} RemoveItemSubtotal(items: seq<BillItem>, id: string)
    ensures Subtotal(RemoveById(items, BillItemId, id)) == Subtotal(items) - SumBy(WithId(items, id), ItemTotal)
  {
    if items != [] {
      var head := if items[0].id == id then [] else [items[0]];
      var gone := if items[0].id == id then [items[0]] else [];
      RemoveItemSubtotal(items[1..], id);
      SumByConcat(head, RemoveById(items[1..], BillItemId, id), ItemTotal);
      SumByConcat(gone, WithId(items[1..], id), ItemTotal);
    }
  }

  /** The items with the given id. */
  function WithId(items: seq<BillItem>, id: string): seq<BillItem> {
    if items == [] then [] else (if items[0].id == id then [items[0]] else []) + WithId(items[1..], id)
  }

  /** The outcome of `handleGenerateInvoice`. */
  datatype Check = NoCustomerName | NoItems | IncompleteItems | ShowInvoice

  /** The three checks, in order: a customer name, at least one item, a product on every item. */
  function GenerateCheck(customerName: string, items: seq<BillItem>): (c: Check)
    ensures c == ShowInvoice <==> customerName != "" && |items| > 0 && forall i :: 0 <= i < |items| ==> items[i].productId != ""
    ensures customerName == "" ==> c == NoCustomerName
    ensures customerName != "" && |items| == 0 ==> c == NoItems
  {
    if customerName == "" then NoCustomerName
    else if |items| == 0 then NoItems
    else if exists i :: 0 <= i < |items| && items[i].productId == "" then IncompleteItems
    else ShowInvoice
  }

  class Generator {
    const products: seq<Product>
    var billItems: seq<BillItem>
    var customerName: string
    var taxRate: real
    var showInvoice: bool

    constructor (products: seq<Product>)
      ensures this.products == products && billItems == [] && customerName == "" && taxRate == DefaultTaxRate && !showInvoice
    {
      this.products := products;
      billItems := [];
      customerName := "";
      taxRate := DefaultTaxRate;
      showInvoice := false;
    }

    /** `handleAddItem`: refused (with a notice) while there are no products. */
    method HandleAddItem(now: nat) returns (added: bool)
      modifies this
      ensures added == (|products| > 0)
      ensures billItems == if added then old(billItems) + [NewBillItem(now)] else old(billItems)
      ensures customerName == old(customerName) && taxRate == old(taxRate) && showInvoice == old(showInvoice)
    {
      if |products| == 0 {
        return false;
      }
      billItems := billItems + [NewBillItem(now)];
      added := true;
    }

    method HandleRemoveItem(id: string)
      modifies this
      ensures billItems == RemoveById(old(billItems), BillItemId, id)
      ensures customerName == old(customerName) && taxRate == old(taxRate) && showInvoice == old(showInvoice)
    {
      billItems := RemoveById(billItems, BillItemId, id);
    }

    method HandleProductChange(itemId: string, value: string)
      modifies this
      ensures billItems == ProductChanged(old(billItems), products, itemId, value)
      ensures customerName == old(customerName) && taxRate == old(taxRate) && showInvoice == old(showInvoice)
    {
      billItems := ProductChanged(billItems, products, itemId, value);
    }

    /** The quantity field's change handler: `parseInt(text) || 1`, then `handleQuantityChange`. */
    method HandleQuantityChange(itemId: string, text: string)
      modifies this
      ensures billItems == QuantitySet(old(billItems), itemId, QuantityInput(text))
      ensures customerName == old(customerName) && taxRate == old(taxRate) && showInvoice == old(showInvoice)
    {
      billItems := QuantitySet(billItems, itemId, QuantityInput(text));
    }

    method HandleGenerateInvoice() returns (c: Check)
      modifies this
      ensures c == GenerateCheck(old(customerName), old(billItems))
      ensures showInvoice == (c == ShowInvoice || old(showInvoice))
      ensures billItems == old(billItems) && customerName == old(customerName) && taxRate == old(taxRate)
    {
      c := GenerateCheck(customerName, billItems);
      if c == ShowInvoice {
        showInvoice := true;
      }
    }
  }
}
