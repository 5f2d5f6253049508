/** The entities of the inventory application (src/types/index.ts), with the fields the modelled
    code reads or sets. A stored invoice keeps only these: its optional customer contact and address,
    payment status and `createdBy`/`createdAt`/`updatedBy`/`updatedAt` stamps are never read
    by the modelled code and are not modelled. Money and quantities are exact reals; optional
    fields are `Option`s. */
module Domain {
  import opened Wrappers

  /** A stocked product. The store keys products by `id`. */
  datatype Product = Product(
    id: string,
    productCode: string,
    productName: string,
    specification: string,
    category: string,
    supplierName: string,
    purchasePrice: real,
    sellingPrice: real,
    quantity: real,
    unit: string,
    warehouse: string,
    entryDate: string,
    enteredBy: string,
    remarks: string,
    isActive: bool)

  /** `products.map(p => p.productCode)`. */
  function ProductCodes(products: seq<Product>): (codes: seq<string>)
    ensures |codes| == |products|
    ensures forall i :: 0 <= i < |products| ==> codes[i] == products[i].productCode
  {
    seq(|products|, i requires 0 <= i < |products| => products[i].productCode)
  }

  /** What a caller hands to `addProduct`: a product without id, code, author and active flag. */
  datatype ProductData = ProductData(
    productName: string,
    specification: string,
    category: string,
    supplierName: string,
    purchasePrice: real,
    sellingPrice: real,
    quantity: real,
    unit: string,
    warehouse: string,
    entryDate: string,
    remarks: string)

  datatype Supplier = Supplier(id: string, name: string, contact: Option<string>, address: Option<string>)

  datatype Category = Category(id: string, name: string)

  datatype Warehouse = Warehouse(id: string, name: string, location: Option<string>)

  datatype Unit = Unit(id: string, name: string, abbreviation: string)

  datatype Role = Admin | Manager | Staff

  datatype User = User(id: string, username: string, fullName: string, role: Role)

  datatype InvoiceItem = InvoiceItem(productId: string, productName: string, quantity: real, price: real, total: real)

  datatype InvoiceStatus = Pending | Completed | Cancelled

  datatype Invoice = Invoice(
    id: string,
    invoiceNumber: string,
    date: string,
    customerName: Option<string>,
    items: seq<InvoiceItem>,
    subtotal: real,
    discount: Option<real>,
    tax: real,
    total: real,
    createdBy: string,
    status: Option<InvoiceStatus>)

  /** What a caller hands to `addInvoice`: an invoice without id and author. */
  datatype InvoiceData = InvoiceData(
    invoiceNumber: string,
    date: string,
    customerName: Option<string>,
    items: seq<InvoiceItem>,
    subtotal: real,
    discount: Option<real>,
    tax: real,
    total: real,
    status: Option<InvoiceStatus>)
}
