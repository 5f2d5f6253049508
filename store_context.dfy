/** The in-memory store of the application (src/context/StoreContext.tsx): one list per kind of
    entity, each entity keyed by its `id`, the known users and the signed-in user. Every add,
    update and delete replaces one list; `uuidv4()` and `Math.random()` are parameters. */
module StoreContext {
  import opened Wrappers
  import opened Seqs
  import opened Domain
  import MockData

  // ---------------------------------------------------------------- lists keyed by id

  /** `list.map(e => e.id === x.id ? x : e)`. */
  function ReplaceById<T>(s: seq<T>, idOf: T -> string, x: T): (r: seq<T>)
    ensures |r| == |s|
  {
    if s == [] then [] else [if idOf(s[0]) == idOf(x) then x else s[0]] + ReplaceById(s[1..], idOf, x)
  }

  /** Exactly the elements with the argument's id become the argument; the others stay where
      they are. */
  lemma {:induction false} ReplaceByIdAt<T>(s: seq<T>, idOf: T -> string, x: T, i: nat)
    requires i < |s|
    ensures ReplaceById(s, idOf, x)[i] == if idOf(s[i]) == idOf(x) then x else s[i]
  {
    if i > 0 {
      ReplaceByIdAt(s[1..], idOf, x, i - 1);
    }
  }

  /** An update keeps the list of ids, so it never adds, drops or reorders an entity. */
  lemma {:induction false} ReplaceByIdKeepsIds<T>(s: seq<T>, idOf: T -> string, x: T)
    ensures Map(ReplaceById(s, idOf, x), idOf) == Map(s, idOf)
  {
    if s != [] {
      ReplaceByIdKeepsIds(s[1..], idOf, x);
    }
  }

  /** Updating an entity whose id is not in the list changes nothing. */
  lemma {:induction false} ReplaceByIdAbsent<T>(s: seq<T>, idOf: T -> string, x: T)
    requires forall i :: 0 <= i < |s| ==> idOf(s[i]) != idOf(x)
    ensures ReplaceById(s, idOf, x) == s
  {
    if s != [] {
      ReplaceByIdAbsent(s[1..], idOf, x);
    }
  }

  function ProductId(p: Product): string { p.id }
  function SupplierId(s: Supplier): string { s.id }
  function CategoryId(c: Category): string { c.id }
  function WarehouseId(w: Warehouse): string { w.id }
  function UnitId(u: Unit): string { u.id }
  function InvoiceId(i: Invoice): string { i.id }

  // ---------------------------------------------------------------- the store's state

  /** The whole state of the store, as one value. */
  datatype StoreState = StoreState(
    products: seq<Product>,
    suppliers: seq<Supplier>,
    categories: seq<Category>,
    warehouses: seq<Warehouse>,
    units: seq<Unit>,
    invoices: seq<Invoice>,
    users: seq<User>,
    currentUser: Option<User>)

  /** `currentUser?.username || 'unknown'`. */
  function Author(currentUser: Option<User>): (name: string)
    ensures name != ""
    ensures currentUser.Some? && currentUser.value.username != "" ==> name == currentUser.value.username
    ensures currentUser.None? ==> name == "unknown"
  {
    if currentUser.Some? && currentUser.value.username != "" then currentUser.value.username else "unknown"
  }

  /** The product `addProduct` builds: a fresh id and a fresh generated code, the caller's data,
      the current author and the active flag. */
  function NewProduct(data: ProductData, uuid: string, codeDraw: real, currentUser: Option<User>): (p: Product)
    requires 0.0 <= codeDraw < 1.0
  {
    Product(uuid, MockData.GenerateProductCode(codeDraw), data.productName, data.specification, data.category,
            data.supplierName, data.purchasePrice, data.sellingPrice, data.quantity, data.unit, data.warehouse,
            data.entryDate, Author(currentUser), data.remarks, true)
  }

  /** The state after `addProduct`. */
  function WithProduct(st: StoreState, data: ProductData, uuid: string, codeDraw: real): StoreState
    requires 0.0 <= codeDraw < 1.0
  {
    st.(products := st.products + [NewProduct(data, uuid, codeDraw, st.currentUser)])
  }

  /** `addProduct` appends one active product at the end, authored by the signed-in user, whose
      code is a generated one whatever the caller's data; the earlier products are unchanged. */
  lemma AddProductAppends(st: StoreState, data: ProductData, uuid: string, codeDraw: real)
    requires 0.0 <= codeDraw < 1.0
    ensures var ps := WithProduct(st, data, uuid, codeDraw).products;
      && |ps| == |st.products| + 1
      && ps[..|st.products|] == st.products
      && ps[|st.products|].id == uuid
      && ps[|st.products|].isActive
      && ps[|st.products|].enteredBy == Author(st.currentUser)
      && ps[|st.products|].productCode == MockData.GenerateProductCode(codeDraw)
      && ps[|st.products|].productName == data.productName
      && ps[|st.products|].remarks == data.remarks
  {
  }

  /** The products `addProduct` appends for a list of product data, one call after another. */
  function NewProducts(datas: seq<ProductData>, uuids: seq<string>, codeDraws: seq<real>, currentUser: Option<User>): (ps: seq<Product>)
    requires |datas| <= |uuids| && |datas| <= |codeDraws|
    requires forall i :: 0 <= i < |datas| ==> 0.0 <= codeDraws[i] < 1.0
    ensures |ps| == |datas|
  {
    if datas == [] then []
    else
      var n := |datas| - 1;
      NewProducts(datas[..n], uuids, codeDraws, currentUser) + [NewProduct(datas[n], uuids[n], codeDraws[n], currentUser)]
  }

  /** One more product at the end of the data list is one more product at the end. */
  lemma NewProductsSnoc(datas: seq<ProductData>, uuids: seq<string>, codeDraws: seq<real>, currentUser: Option<User>, k: nat)
    requires k < |datas| && |datas| <= |uuids| && |datas| <= |codeDraws|
    requires forall i :: 0 <= i < |datas| ==> 0.0 <= codeDraws[i] < 1.0
    ensures NewProducts(datas[..k + 1], uuids, codeDraws, currentUser)
      == NewProducts(datas[..k], uuids, codeDraws, currentUser) + [NewProduct(datas[k], uuids[k], codeDraws[k], currentUser)]
  {
    assert datas[..k + 1][..k] == datas[..k];
  }

  /** Adding the products of a data list one by one appends them all. */
  lemma AddProductsStep(st: StoreState, datas: seq<ProductData>, uuids: seq<string>, codeDraws: seq<real>, k: nat)
    requires k < |datas| && |datas| <= |uuids| && |datas| <= |codeDraws|
    requires forall i :: 0 <= i < |datas| ==> 0.0 <= codeDraws[i] < 1.0
    ensures WithProduct(st.(products := st.products + NewProducts(datas[..k], uuids, codeDraws, st.currentUser)), datas[k], uuids[k], codeDraws[k])
      == st.(products := st.products + NewProducts(datas[..k + 1], uuids, codeDraws, st.currentUser))
  {
    var ps := NewProducts(datas[..k], uuids, codeDraws, st.currentUser);
    var p := NewProduct(datas[k], uuids[k], codeDraws[k], st.currentUser);
    NewProductsSnoc(datas, uuids, codeDraws, st.currentUser, k);
    assert st.products + ps + [p] == st.products + (ps + [p]);
  }

  lemma {:induction false} NewProductsAt(datas: seq<ProductData>, uuids: seq<string>, codeDraws: seq<real>, currentUser: Option<User>, i: nat)
    requires |datas| <= |uuids| && |datas| <= |codeDraws|
    requires forall i :: 0 <= i < |datas| ==> 0.0 <= codeDraws[i] < 1.0
    requires i < |datas|
    ensures NewProducts(datas, uuids, codeDraws, currentUser)[i] == NewProduct(datas[i], uuids[i], codeDraws[i], currentUser)
  {
    if i < |datas| - 1 {
      NewProductsAt(datas[..|datas| - 1], uuids, codeDraws, currentUser, i);
    }
  }

  /** `addProduct` called several times within one render, as the import's `forEach` does
      (src/context/StoreContext.tsx:132): each call builds `[...products, p]` from the same
      captured list, and each `setProducts` replaces what the call before it set, so the store
      gains only the product of the last call. */
  function AddedInOneRender(st: StoreState, datas: seq<ProductData>, uuids: seq<string>, codeDraws: seq<real>): (r: StoreState)
    requires |datas| <= |uuids| && |datas| <= |codeDraws|
    requires forall i :: 0 <= i < |datas| ==> 0.0 <= codeDraws[i] < 1.0
    ensures datas == [] ==> r == st
    ensures datas != [] ==> r == WithProduct(st, datas[|datas| - 1], uuids[|datas| - 1], codeDraws[|datas| - 1])
    ensures |r.products| == |st.products| + (if datas == [] then 0 else 1)
  {
    if datas == [] then st
    else
      var n := |datas| - 1;
      AddedInOneRender(st, datas[..n], uuids, codeDraws).(products := st.products + [NewProduct(datas[n], uuids[n], codeDraws[n], st.currentUser)])
  }

  /** The product `addInvoice` changes for an item: the first one with the item's product id. */
  function FirstWithId(products: seq<Product>, id: string): (k: int)
    ensures -1 <= k < |products|
    ensures k >= 0 ==> products[k].id == id
    ensures forall j :: 0 <= j < |products| && (k < 0 || j < k) ==> products[j].id != id
  {
    if products == [] then -1
    else if products[0].id == id then 0
    else
      var k := FirstWithId(products[1..], id);
      if k < 0 then -1 else k + 1
  }

  /** One step of the `forEach` of `addInvoice`. */
  function ApplyItem(products: seq<Product>, item: InvoiceItem): seq<Product> {
    var k := FirstWithId(products, item.productId);
    if k < 0 then products
    else products[k := products[k].(quantity := products[k].quantity - item.quantity)]
  }

  /** The products after the `forEach` of `addInvoice` has visited `items`. */
  function ApplyItems(products: seq<Product>, items: seq<InvoiceItem>): seq<Product> {
    if items == [] then products
    else ApplyItem(ApplyItems(products, items[..|items| - 1]), items[|items| - 1])
  }

  /** The summed quantity of the items that reference product `id`. */
  function QuantityFor(items: seq<InvoiceItem>, id: string): real {
    if items == [] then 0.0
    else
      var last := items[|items| - 1];
      QuantityFor(items[..|items| - 1], id) + (if last.productId == id then last.quantity else 0.0)
  }

  /** Whether `products[j]` is the first product with its id. */
  predicate FirstOfId(products: seq<Product>, j: nat)
    requires j < |products|
  {
    forall k :: 0 <= k < j ==> products[k].id != products[j].id
  }

  /** Over one invoice, the first product with each id loses the summed quantity of the items
      that reference it (with no lower bound), and everything else is unchanged: the number of
      products, every field but the quantity, and products that no item references. */
  lemma {:induction false} ApplyItemsSpec(products: seq<Product>, items: seq<InvoiceItem>, j: nat)
    requires j < |products|
    ensures |ApplyItems(products, items)| == |products|
    ensures ApplyItems(products, items)[j] == products[j].(quantity := products[j].quantity -
      (if FirstOfId(products, j) then QuantityFor(items, products[j].id) else 0.0))
  {
    if items != [] {
      var init := items[..|items| - 1];
      var last := items[|items| - 1];
      ApplyItemsSpec(products, init, j);
      var q := ApplyItems(products, init);
      var k := FirstWithId(q, last.productId);
      forall i | 0 <= i < |products|
        ensures q[i].id == products[i].id
      {
        ApplyItemsSpec(products, init, i);
      }
      if k >= 0 && k != j && last.productId == products[j].id {
        assert !FirstOfId(products, j);
      }
      if k == j {
        assert FirstOfId(products, j);
      }
    }
  }

  /** `users.find(u => u.username === username)`. */
  function FindUser(users: seq<User>, username: string): (u: Option<User>)
    ensures u.Some? ==> u.value in users && u.value.username == username
    ensures u.None? <==> forall v :: v in users ==> v.username != username
  {
    if users == [] then None
    else if users[0].username == username then Some(users[0])
    else FindUser(users[1..], username)
  }

  /** `login` picks the first user with the name. */
  lemma {:induction false} FindUserFirst(users: seq<User>, username: string, i: nat)
    requires i < |users| && users[i].username == username
    requires forall j :: 0 <= j < i ==> users[j].username != username
    ensures FindUser(users, username) == Some(users[i])
  {
    if i > 0 {
      FindUserFirst(users[1..], username, i - 1);
    }
  }

  // ---------------------------------------------------------------- the store

  class Store {
    var products: seq<Product>
    var suppliers: seq<Supplier>
    var categories: seq<Category>
    var warehouses: seq<Warehouse>
    var units: seq<Unit>
    var invoices: seq<Invoice>
    var users: seq<User>
    var currentUser: Option<User>

    function State(): StoreState
      reads this
    {
      StoreState(products, suppliers, categories, warehouses, units, invoices, users, currentUser)
    }

    /** The state before the first load: every list empty, nobody signed in. */
    constructor ()
      ensures State() == StoreState([], [], [], [], [], [], [], None)
    {
      products, suppliers, categories, warehouses, units, invoices, users := [], [], [], [], [], [], [];
      currentUser := None;
    }

    method AddProduct(data: ProductData, uuid: string, codeDraw: real)
      requires 0.0 <= codeDraw < 1.0
      modifies this
      ensures State() == WithProduct(old(State()), data, uuid, codeDraw)
    {
      products := products + [NewProduct(data, uuid, codeDraw, currentUser)];
    }

    method UpdateProduct(p: Product)
      modifies this
      ensures State() == old(State()).(products := ReplaceById(old(products), ProductId, p))
    {
      products := ReplaceById(products, ProductId, p);
    }

    method DeleteProduct(id: string)
      modifies this
      ensures State() == old(State()).(products := RemoveById(old(products), ProductId, id))
    {
      products := RemoveById(products, ProductId, id);
    }

    method AddSupplier(uuid: string, name: string, contact: Option<string>, address: Option<string>)
      modifies this
      ensures State() == old(State()).(suppliers := old(suppliers) + [Supplier(uuid, name, contact, address)])
    {
      suppliers := suppliers + [Supplier(uuid, name, contact, address)];
    }

    method UpdateSupplier(s: Supplier)
      modifies this
      ensures State() == old(State()).(suppliers := ReplaceById(old(suppliers), SupplierId, s))
    {
      suppliers := ReplaceById(suppliers, SupplierId, s);
    }

    method DeleteSupplier(id: string)
      modifies this
      ensures State() == old(State()).(suppliers := RemoveById(old(suppliers), SupplierId, id))
    {
      suppliers := RemoveById(suppliers, SupplierId, id);
    }

    method AddCategory(uuid: string, name: string)
      modifies this
      ensures State() == old(State()).(categories := old(categories) + [Category(uuid, name)])
    {
      categories := categories + [Category(uuid, name)];
    }

    method UpdateCategory(c: Category)
      modifies this
      ensures State() == old(State()).(categories := ReplaceById(old(categories), CategoryId, c))
    {
      categories := ReplaceById(categories, CategoryId, c);
    }

    method DeleteCategory(id: string)
      modifies this
      ensures State() == old(State()).(categories := RemoveById(old(categories), CategoryId, id))
    {
      categories := RemoveById(categories, CategoryId, id);
    }

    method AddWarehouse(uuid: string, name: string, location: Option<string>)
      modifies this
      ensures State() == old(State()).(warehouses := old(warehouses) + [Warehouse(uuid, name, location)])
    {
      warehouses := warehouses + [Warehouse(uuid, name, location)];
    }

    method UpdateWarehouse(w: Warehouse)
      modifies this
      ensures State() == old(State()).(warehouses := ReplaceById(old(warehouses), WarehouseId, w))
    {
      warehouses := ReplaceById(warehouses, WarehouseId, w);
    }

    method DeleteWarehouse(id: string)
      modifies this
      ensures State() == old(State()).(warehouses := RemoveById(old(warehouses), WarehouseId, id))
    {
      warehouses := RemoveById(warehouses, WarehouseId, id);
    }

    method AddUnit(uuid: string, name: string, abbreviation: string)
      modifies this
      ensures State() == old(State()).(units := old(units) + [Unit(uuid, name, abbreviation)])
    {
      units := units + [Unit(uuid, name, abbreviation)];
    }

    method UpdateUnit(u: Unit)
      modifies this
      ensures State() == old(State()).(units := ReplaceById(old(units), UnitId, u))
    {
      units := ReplaceById(units, UnitId, u);
    }

    method DeleteUnit(id: string)
      modifies this
      ensures State() == old(State()).(units := RemoveById(old(units), UnitId, id))
    {
      units := RemoveById(units, UnitId, id);
    }

    /** `addInvoice`: a copy of the products has the stock of each item's product decreased, then
        the products and the invoice list (with the new invoice last) are set. */
    method AddInvoice(data: InvoiceData, uuid: string)
      modifies this
      ensures State() == old(State()).(
        products := ApplyItems(old(products), data.items),
        invoices := old(invoices) + [Invoice(uuid, data.invoiceNumber, data.date, data.customerName, data.items,
                                             data.subtotal, data.discount, data.tax, data.total,
                                             Author(old(currentUser)), data.status)])
    {
      var newInvoice := Invoice(uuid, data.invoiceNumber, data.date, data.customerName, data.items,
                                data.subtotal, data.discount, data.tax, data.total, Author(currentUser), data.status);
      var updated := products;
      var n := 0;
      while n < |newInvoice.items|
        invariant 0 <= n <= |newInvoice.items|
        invariant updated == ApplyItems(products, newInvoice.items[..n])
      {
        var item := newInvoice.items[n];
        var productIndex := FirstWithId(updated, item.productId);
        if productIndex != -1 {
          updated := updated[productIndex := updated[productIndex].(quantity := updated[productIndex].quantity - item.quantity)];
        }
        assert newInvoice.items[..n + 1][..n] == newInvoice.items[..n];
        n := n + 1;
      }
      assert newInvoice.items[..n] == data.items;
      products := updated;
      invoices := invoices + [newInvoice];
    }

    method UpdateInvoice(inv: Invoice)
      modifies this
      ensures State() == old(State()).(invoices := ReplaceById(old(invoices), InvoiceId, inv))
    {
      invoices := ReplaceById(invoices, InvoiceId, inv);
    }

    method DeleteInvoice(id: string)
      modifies this
      ensures State() == old(State()).(invoices := RemoveById(old(invoices), InvoiceId, id))
    {
      invoices := RemoveById(invoices, InvoiceId, id);
    }

    /** `login`: succeeds exactly when some user has the name, and then signs in the first one;
        a failed login changes nothing. */
    method Login(username: string) returns (ok: bool)
      modifies this
      ensures ok <==> exists u :: u in users && u.username == username
      ensures ok ==> State() == old(State()).(currentUser := FindUser(users, username))
      ensures !ok ==> State() == old(State())
    {
      var user := FindUser(users, username);
      if user.Some? {
        currentUser := user;
        return true;
      }
      return false;
    }

    method Logout()
      modifies this
      ensures State() == old(State()).(currentUser := None)
    {
      currentUser := None;
    }
  }
}
