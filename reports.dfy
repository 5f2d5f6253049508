/** The reports page (src/pages/Reports.tsx): the per-category, per-supplier and per-warehouse
    aggregates it charts, and the keyword dispatch of its question box. */
module Reports {
  import opened Wrappers
  import opened Seqs
  import opened Text
  import opened Domain

  /** One bar or slice: a group's name and its total. */
  datatype Entry = Entry(name: string, value: real)

  function EntryValue(e: Entry): real { e.value }

  function Quantity(p: Product): real { p.quantity }

  /** A product's stock at purchase price. */
  function StockValue(p: Product): real { p.purchasePrice * p.quantity }

  function CategoryOf(p: Product): string { p.category }
  function SupplierOf(p: Product): string { p.supplierName }
  function WarehouseOf(p: Product): string { p.warehouse }

  /** `p => key(p) === name`. */
  function Matches(key: Product -> string, name: string): Product -> bool {
    p => key(p) == name
  }

  /** `products.filter(p => key(p) === name).reduce((sum, p) => sum + f(p), 0)`. */
  function GroupTotal(products: seq<Product>, key: Product -> string, name: string, f: Product -> real): real {
    SumBy(Filter(products, Matches(key, name)), f)
  }

  /** One entry per name, in the order of `names`, holding that group's total. */
  function GroupEntries(products: seq<Product>, key: Product -> string, names: seq<string>, f: Product -> real): (r: seq<Entry>)
    ensures |r| == |names|
    ensures forall i :: 0 <= i < |names| ==> r[i] == Entry(names[i], GroupTotal(products, key, names[i], f))
  {
    if names == [] then [] else [Entry(names[0], GroupTotal(products, key, names[0], f))] + GroupEntries(products, key, names[1..], f)
  }

  /** `categories.map(c => c.name)`. */
  function CategoryNames(categories: seq<Category>): (r: seq<string>)
    ensures |r| == |categories| && forall i :: 0 <= i < |categories| ==> r[i] == categories[i].name
  {
    if categories == [] then [] else [categories[0].name] + CategoryNames(categories[1..])
  }

  /** `stockDistributionData`: one entry per listed category, in list order, holding the quantity
      of the products whose category is exactly that name. */
  function StockDistribution(products: seq<Product>, categories: seq<Category>): seq<Entry> {
    GroupEntries(products, CategoryOf, CategoryNames(categories), Quantity)
  }

  /** `Array.from(new Set(products.map(key)))`. */
  function GroupNames(products: seq<Product>, key: Product -> string): seq<string> {
    Dedup(Map(products, key))
  }

  /** `supplierData`: one entry per distinct supplier, valued at purchase price times quantity. */
  function SupplierData(products: seq<Product>): seq<Entry> {
    GroupEntries(products, SupplierOf, GroupNames(products, SupplierOf), StockValue)
  }

  datatype WarehouseEntry = WarehouseEntry(name: string, items: real, value: real)

  function WarehouseRows(products: seq<Product>, names: seq<string>): (r: seq<WarehouseEntry>)
    ensures |r| == |names|
    ensures forall i :: 0 <= i < |names| ==>
      r[i] == WarehouseEntry(names[i], GroupTotal(products, WarehouseOf, names[i], Quantity), GroupTotal(products, WarehouseOf, names[i], StockValue))
  {
    if names == [] then []
    else
      var name := names[0];
      [WarehouseEntry(name, GroupTotal(products, WarehouseOf, name, Quantity), GroupTotal(products, WarehouseOf, name, StockValue))]
        + WarehouseRows(products, names[1..])
  }

  /** `warehouseData`: one entry per distinct warehouse with its item count and stock value. */
  function WarehouseData(products: seq<Product>): seq<WarehouseEntry> {
    WarehouseRows(products, GroupNames(products, WarehouseOf))
  }

  function Items(w: WarehouseEntry): real { w.items }
  function WarehouseValue(w: WarehouseEntry): real { w.value }

  /** Putting a product in front adds its `f` to the group it belongs to and nothing to the others. */
  lemma GroupTotalCons(p: Product, rest: seq<Product>, key: Product -> string, name: string, f: Product -> real)
    ensures GroupTotal([p] + rest, key, name, f) == (if key(p) == name then f(p) else 0.0) + GroupTotal(rest, key, name, f)
  {
    assert ([p] + rest)[0] == p && ([p] + rest)[1..] == rest;
    if key(p) == name {
      assert Filter([p] + rest, Matches(key, name)) == [p] + Filter(rest, Matches(key, name));
    } else {
      assert Filter([p] + rest, Matches(key, name)) == Filter(rest, Matches(key, name));
    }
  }

  /** The sum over `names` of "`v` where the name is `k`". */
  function Hits(names: seq<string>, k: string, v: real): real {
    if names == [] then 0.0 else (if names[0] == k then v else 0.0) + Hits(names[1..], k, v)
  }

  /** Among distinct names, `k` is hit once when listed and never otherwise. */
  lemma {:induction false} HitsOnce(names: seq<string>, k: string, v: real)
    requires Distinct(names)
    ensures Hits(names, k, v) == if k in names then v else 0.0
  {
    if names != [] {
      assert Distinct(names[1..]);
      HitsOnce(names[1..], k, v);
      if names[0] == k {
        assert k !in names[1..] by {
          forall j | 0 <= j < |names[1..]|
            ensures names[1..][j] != k
          {
            assert names[1..][j] == names[j + 1];
          }
        }
      } else {
        assert k in names <==> k in names[1..] by {
          assert names == [names[0]] + names[1..];
        }
      }
    }
  }

  lemma {:induction false} GroupEntriesCons(p: Product, rest: seq<Product>, key: Product -> string, names: seq<string>, f: Product -> real)
    ensures SumBy(GroupEntries([p] + rest, key, names, f), EntryValue)
      == SumBy(GroupEntries(rest, key, names, f), EntryValue) + Hits(names, key(p), f(p))
  {
    if names != [] {
      GroupEntriesCons(p, rest, key, names[1..], f);
      GroupTotalCons(p, rest, key, names[0], f);
    }
  }

  /** The group totals of distinct names that cover every product add up to the whole. */
  lemma {:induction false} GroupEntriesSum(products: seq<Product>, key: Product -> string, names: seq<string>, f: Product -> real)
    requires Distinct(names)
    requires forall p :: p in products ==> key(p) in names
    ensures SumBy(GroupEntries(products, key, names, f), EntryValue) == SumBy(products, f)
  {
    if products == [] {
      GroupEntriesEmpty(key, names, f);
    } else {
      var p := products[0];
      var rest := products[1..];
      assert products == [p] + rest;
      GroupEntriesSum(rest, key, names, f);
      GroupEntriesCons(p, rest, key, names, f);
      HitsOnce(names, key(p), f(p));
    }
  }

  lemma {:induction false} GroupEntriesEmpty(key: Product -> string, names: seq<string>, f: Product -> real)
    ensures SumBy(GroupEntries([], key, names, f), EntryValue) == 0.0
  {
    if names != [] {
      GroupEntriesEmpty(key, names[1..], f);
    }
  }

  /** A product's group is among the distinct names, and every name is some product's. */
  lemma GroupNamesCover(products: seq<Product>, key: Product -> string)
    ensures Distinct(GroupNames(products, key))
    ensures forall p :: p in products ==> key(p) in GroupNames(products, key)
    ensures forall n :: n in GroupNames(products, key) ==> exists p :: p in products && key(p) == n
  {
    var keys := Map(products, key);
    forall p | p in products
      ensures key(p) in keys
    {
      var i :| 0 <= i < |products| && products[i] == p;
      MapAt(products, key, i);
    }
    forall n | n in GroupNames(products, key)
      ensures exists p :: p in products && key(p) == n
    {
      var i :| 0 <= i < |keys| && keys[i] == n;
      MapAt(products, key, i);
      assert products[i] in products;
    }
  }

  /** The stock distribution holds every listed category's own quantity sum, and when the
      category names are distinct and every product is in a listed category, the slices add up
      to the whole stock. */
  lemma StockDistributionTotal(products: seq<Product>, categories: seq<Category>)
    requires Distinct(CategoryNames(categories))
    requires forall p :: p in products ==> p.category in CategoryNames(categories)
    ensures SumBy(StockDistribution(products, categories), EntryValue) == SumBy(products, Quantity)
  {
    GroupEntriesSum(products, CategoryOf, CategoryNames(categories), Quantity);
  }

  /** A product whose category is not listed changes no slice. */
  lemma UnlistedCategoryIgnored(products: seq<Product>, categories: seq<Category>, p: Product)
    requires p.category !in CategoryNames(categories)
    ensures StockDistribution(products + [p], categories) == StockDistribution(products, categories)
  {
    var names := CategoryNames(categories);
    forall i | 0 <= i < |names|
      ensures GroupTotal(products + [p], CategoryOf, names[i], Quantity) == GroupTotal(products, CategoryOf, names[i], Quantity)
    {
      assert names[i] in names;
      OtherGroupUnchanged(products, p, CategoryOf, names[i], Quantity);
    }
  }

  /** Appending a product leaves the totals of the other groups as they were. */
  lemma OtherGroupUnchanged(products: seq<Product>, p: Product, key: Product -> string, name: string, f: Product -> real)
    requires key(p) != name
    ensures GroupTotal(products + [p], key, name, f) == GroupTotal(products, key, name, f)
  {
    FilterConcat(products, [p], Matches(key, name));
    assert [p][1..] == [];
    assert Filter([p], Matches(key, name)) == [];
    assert Filter(products, Matches(key, name)) + [] == Filter(products, Matches(key, name));
  }

  /** Every supplier of a product has an entry. */
  lemma SupplierListed(products: seq<Product>, p: Product)
    requires p in products
    ensures exists i :: 0 <= i < |SupplierData(products)| && SupplierData(products)[i].name == p.supplierName
  {
    var names := GroupNames(products, SupplierOf);
    GroupNamesCover(products, SupplierOf);
    assert SupplierOf(p) in names;
    var i :| 0 <= i < |names| && names[i] == SupplierOf(p);
    assert SupplierData(products)[i].name == p.supplierName;
  }

  /** Every entry is some product's supplier, and none is listed twice. */
  lemma SupplierEntries(products: seq<Product>)
    ensures var r := SupplierData(products);
      (forall i :: 0 <= i < |r| ==> exists p :: p in products && p.supplierName == r[i].name)
      && (forall i, j :: 0 <= i < j < |r| ==> r[i].name != r[j].name)
  {
    var names := GroupNames(products, SupplierOf);
    GroupNamesCover(products, SupplierOf);
    assert forall i :: 0 <= i < |names| ==> names[i] in names;
  }

  /** Together the suppliers hold the stock value of all products. */
  lemma SupplierDataTotal(products: seq<Product>)
    ensures SumBy(SupplierData(products), EntryValue) == SumBy(products, StockValue)
  {
    GroupNamesCover(products, SupplierOf);
    GroupEntriesSum(products, SupplierOf, GroupNames(products, SupplierOf), StockValue);
  }

  /** Suppliers appear in the order of their first product. */
  lemma SupplierOrder(products: seq<Product>, i: nat, j: nat)
    requires i < j < |SupplierData(products)|
    ensures var r := SupplierData(products); var keys := Map(products, SupplierOf);
      r[i].name in keys && r[j].name in keys && FirstIndex(keys, r[i].name) < FirstIndex(keys, r[j].name)
  {
    DedupFirstOccurrenceOrder(Map(products, SupplierOf), i, j);
  }

  /** Warehouses are listed once each, and together they hold all items and the stock value. */
  lemma WarehouseDataTotals(products: seq<Product>)
    ensures var r := WarehouseData(products);
      (forall i, j :: 0 <= i < j < |r| ==> r[i].name != r[j].name)
      && SumBy(r, Items) == SumBy(products, Quantity)
      && SumBy(r, WarehouseValue) == SumBy(products, StockValue)
  {
    var names := GroupNames(products, WarehouseOf);
    GroupNamesCover(products, WarehouseOf);
    GroupEntriesSum(products, WarehouseOf, names, Quantity);
    GroupEntriesSum(products, WarehouseOf, names, StockValue);
    WarehouseColumns(products, names);
  }

  /** The warehouse table's two columns are the group entries of quantity and of stock value. */
  lemma {:induction false} WarehouseColumns(products: seq<Product>, names: seq<string>)
    ensures SumBy(WarehouseRows(products, names), Items) == SumBy(GroupEntries(products, WarehouseOf, names, Quantity), EntryValue)
    ensures SumBy(WarehouseRows(products, names), WarehouseValue) == SumBy(GroupEntries(products, WarehouseOf, names, StockValue), EntryValue)
  {
    if names != [] {
      WarehouseColumns(products, names[1..]);
    }
  }

  /** Warehouses appear in the order of their first product. */
  lemma WarehouseOrder(products: seq<Product>, i: nat, j: nat)
    requires i < j < |WarehouseData(products)|
    ensures var r := WarehouseData(products); var keys := Map(products, WarehouseOf);
      r[i].name in keys && r[j].name in keys && FirstIndex(keys, r[i].name) < FirstIndex(keys, r[j].name)
  {
    DedupFirstOccurrenceOrder(Map(products, WarehouseOf), i, j);
  }

  /** The canned answers of the question box. */
  datatype Reply = FastestSelling | LowStock | HighestValue | Overview

  function ReplyText(r: Reply): string {
    match r
    case FastestSelling => "Based on recent sales data, 'Wireless Mouse' is your fastest selling item with an average of 5 units per day."
    case LowStock => "There are 3 items with critically low stock: 'Laptop Stand' (3 left), 'Office Chair' (2 left), and 'Wireless Mouse' (5 left). Consider restocking these items soon."
    case HighestValue => "Your highest value inventory item is 'Office Chair' with a total value of $1,700 (20 units)."
    case Overview => "I've analyzed your inventory data. Your total inventory value is $12,345 across 5 product categories and 3 warehouses. The 'Stationery' category has the most items (625 units), and 'WH-1' is your most utilized warehouse (60% of total inventory)."
  }

  /** `handleAiQuery`: nothing for a blank question; otherwise the first keyword found, ignoring
      case, picks the answer. */
  function AiReply(query: string): (r: Option<Reply>)
    ensures r.None? <==> forall i :: 0 <= i < |query| ==> IsWhitespace(query[i])
    ensures r.Some? ==> var q := ToLower(query);
      (r.value == FastestSelling <==> Contains(q, "fastest selling"))
      && (r.value == LowStock <==> !Contains(q, "fastest selling") && Contains(q, "low stock"))
      && (r.value == HighestValue <==> (!Contains(q, "fastest selling") && !Contains(q, "low stock") && Contains(q, "highest value")))
      && (r.value == Overview <==> (!Contains(q, "fastest selling") && !Contains(q, "low stock") && !Contains(q, "highest value")))
  {
    TrimBlank(query);
    if Trim(query) == "" then None
    else
      var q := ToLower(query);
      if Contains(q, "fastest selling") then Some(FastestSelling)
      else if Contains(q, "low stock") then Some(LowStock)
      else if Contains(q, "highest value") then Some(HighestValue)
      else Some(Overview)
  }
}
