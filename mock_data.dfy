/** The seed data of the store and its product-code generator (src/store/mockData.ts). The
    `uuidv4()` ids of the seed records are parameters. */
module MockData {
  import opened Wrappers
  import opened Text
  import opened Seqs
  import opened Domain

  /** The number in a generated code: `Math.floor(10000 + draw * 90000)` for `Math.random() = draw`. */
  function CodeNumber(draw: real): (n: nat)
    requires 0.0 <= draw < 1.0
    ensures 10000 <= n <= 99999
  {
    (10000.0 + draw * 90000.0).Floor
  }

  /** `generateProductCode()`: `PROD-` and the drawn number. */
  function GenerateProductCode(draw: real): (code: string)
    requires 0.0 <= draw < 1.0
    ensures StartsWith(code, "PROD-")
    ensures AllDigits(code[5..]) && DigitsValue(code[5..]) == CodeNumber(draw)
  {
    var n := CodeNumber(draw);
    NatToStringRoundTrip(n);
    "PROD-" + NatToString(n)
  }

  /** Every generated code is ten characters: the prefix and a five-digit number in [10000, 99999]. */
  lemma GeneratedCodeShape(draw: real)
    requires 0.0 <= draw < 1.0
    ensures |GenerateProductCode(draw)| == 10
    ensures 10000 <= DigitsValue(GenerateProductCode(draw)[5..]) <= 99999
  {
    var n := CodeNumber(draw);
    assert Pow10(4) == 10000 && Pow10(5) == 100000;
    NatToStringLength(n, 5);
  }

  function MockUsers(ids: seq<string>): (users: seq<User>)
    requires |ids| == 3
    ensures |users| == 3
    ensures forall i :: 0 <= i < 3 ==> users[i].id == ids[i] && users[0].username == "admin" && users[0].role == Admin
  {
    [ User(ids[0], "admin", "Admin User", Admin),
      User(ids[1], "manager", "Manager User", Manager),
      User(ids[2], "staff", "Staff User", Staff) ]
  }

  function MockCategories(ids: seq<string>): (categories: seq<Category>)
    requires |ids| == 5
    ensures |categories| == 5
    ensures forall i :: 0 <= i < 5 ==> categories[i].id == ids[i]
  {
    [ Category(ids[0], "Stationery"),
      Category(ids[1], "Electronics"),
      Category(ids[2], "Furniture"),
      Category(ids[3], "Office Supplies"),
      Category(ids[4], "Computer Accessories") ]
  }

  function MockSuppliers(ids: seq<string>): (suppliers: seq<Supplier>)
    requires |ids| == 4
    ensures |suppliers| == 4
    ensures forall i :: 0 <= i < 4 ==> suppliers[i].id == ids[i]
  {
    [ Supplier(ids[0], "ABC Suppliers", Some("+1-123-456-7890"), Some("123 Main St, City")),
      Supplier(ids[1], "XYZ Enterprise", Some("+1-987-654-3210"), Some("456 Oak St, Town")),
      Supplier(ids[2], "Global Traders", Some("+1-555-123-4567"), Some("789 Pine St, Village")),
      Supplier(ids[3], "City Distributors", Some("+1-555-987-6543"), Some("101 Elm St, County")) ]
  }

  function MockWarehouses(ids: seq<string>): (warehouses: seq<Warehouse>)
    requires |ids| == 3
    ensures |warehouses| == 3
    ensures forall i :: 0 <= i < 3 ==> warehouses[i].id == ids[i]
  {
    [ Warehouse(ids[0], "WH-1", Some("North Campus")),
      Warehouse(ids[1], "WH-2", Some("South Campus")),
      Warehouse(ids[2], "WH-3", Some("East Wing")) ]
  }

  function MockUnits(ids: seq<string>): (units: seq<Unit>)
    requires |ids| == 6
    ensures |units| == 6
    ensures forall i :: 0 <= i < 6 ==> units[i].id == ids[i]
  {
    [ Unit(ids[0], "Piece", "pcs"),
      Unit(ids[1], "Box", "box"),
      Unit(ids[2], "Kilogram", "kg"),
      Unit(ids[3], "Liter", "L"),
      Unit(ids[4], "Meter", "m"),
      Unit(ids[5], "Packet", "pkt") ]
  }

  /** The five seed products: codes PROD-10001 to PROD-10005, all distinct, all active. */
  function MockProducts(ids: seq<string>): (products: seq<Product>)
    requires |ids| == 5
    ensures |products| == 5
    ensures Distinct(ProductCodes(products))
    ensures forall i :: 0 <= i < 5 ==> products[i].isActive && products[i].id == ids[i]
  {
    var ps := [
      Product(ids[0], "PROD-10001", "Ballpoint Pen", "Blue ink, medium point", "Stationery", "ABC Suppliers",
              0.75, 1.25, 500.0, "pcs", "WH-1", "2025-04-01", "admin", "Bulk purchase for office use", true),
      Product(ids[1], "PROD-10002", "A4 Paper", "White, 80gsm, 500 sheets", "Stationery", "XYZ Enterprise",
              3.50, 5.00, 100.0, "box", "WH-1", "2025-04-05", "admin", "Standard office paper", true),
      Product(ids[2], "PROD-10003", "Wireless Mouse", "Black, 2.4GHz wireless", "Electronics", "Global Traders",
              12.00, 18.50, 50.0, "pcs", "WH-2", "2025-04-08", "manager", "For new computer lab", true),
      Product(ids[3], "PROD-10004", "Office Chair", "Ergonomic, adjustable height", "Furniture", "City Distributors",
              85.00, 120.00, 20.0, "pcs", "WH-3", "2025-04-10", "admin", "For conference room", true),
      Product(ids[4], "PROD-10005", "Laptop Stand", "Aluminum, adjustable", "Computer Accessories", "Global Traders",
              25.00, 35.00, 15.0, "pcs", "WH-2", "2025-04-10", "manager", "For remote work setup", true) ];
    assert forall i, j :: 0 <= i < j < 5 ==> ps[i].productCode[9] != ps[j].productCode[9];
    ps
  }

  function ItemFor(p: Product, quantity: real): InvoiceItem {
    InvoiceItem(p.id, p.productName, quantity, p.sellingPrice, quantity * p.sellingPrice)
  }

  function ItemTotal(item: InvoiceItem): real { item.total }

  /** The two seed invoices, built from the seed products. */
  function MockInvoices(ids: seq<string>, products: seq<Product>): (invoices: seq<Invoice>)
    requires |ids| == 2 && |products| == 5
    ensures |invoices| == 2
  {
    var items1 := [ItemFor(products[0], 10.0), ItemFor(products[1], 2.0)];
    var sub1 := 10.0 * products[0].sellingPrice + 2.0 * products[1].sellingPrice;
    var items2 := [ItemFor(products[2], 3.0)];
    var sub2 := 3.0 * products[2].sellingPrice;
    [ Invoice(ids[0], "INV-1001", "2025-04-08", Some("John Doe"), items1, sub1, Some(2.0), 5.0,
              sub1 * 1.05 - 2.0, "admin", Some(Completed)),
      Invoice(ids[1], "INV-1002", "2025-04-10", Some("Jane Smith"), items2, sub2, Some(0.0), 5.0,
              sub2 * 1.05, "manager", Some(Completed)) ]
  }

  /** In every seed invoice each line total is quantity times price and the subtotal is the sum
      of the line totals. */
  lemma MockInvoicesConsistent(ids: seq<string>, productIds: seq<string>)
    requires |ids| == 2 && |productIds| == 5
    ensures forall inv <- MockInvoices(ids, MockProducts(productIds)) ::
      (forall item <- inv.items :: item.total == item.quantity * item.price)
      && inv.subtotal == SumBy(inv.items, ItemTotal)
  {
    var invoices := MockInvoices(ids, MockProducts(productIds));
    assert SumBy(invoices[0].items, ItemTotal) == invoices[0].items[0].total + SumBy(invoices[0].items[1..], ItemTotal);
    assert SumBy(invoices[0].items[1..], ItemTotal) == invoices[0].items[1].total + SumBy(invoices[0].items[2..], ItemTotal);
  }
}
