/** The inventory list page (src/pages/Inventory.tsx): the CSV export it builds from the fetched
    product records, the confirmed delete, and the low-stock badge of the quantity column. */
module Inventory {
  import opened Wrappers
  import opened Text
  import opened JsValues
  import opened Records
  import opened Seqs

  const ExportPrefix: string := "data:text/csv;charset=utf-8,"

  /** The record keys of the displayed columns, in column order. */
  const FieldKeys: seq<string> := ["productid", "productName", "Category_Name", "quantity", "Warehouse_Name", "sellingPrice", "RemaningProduct"]

  const LowStockLimit: real := 10.0

  /** A product record as the web service returns it. */
  datatype ApiProduct = ApiProduct(fields: Record)

  /** How `join` writes an array element: nullish values as nothing, the rest by `String`. */
  function JoinText(v: JsValue): (t: string)
    ensures IsNullish(v) ==> t == ""
    ensures !IsNullish(v) ==> t == ToStr(v)
  {
    if IsNullish(v) then "" else ToStr(v)
  }

  /** A cell of the export: a string is wrapped in double quotes, with no escaping of quotes or
      commas inside it; any other value is written as `join` writes it. */
  function ExportCell(v: JsValue): (c: string)
    ensures v.Str? ==> |c| == |v.s| + 2 && c[0] == '"' && c[|c| - 1] == '"' && c[1..|c| - 1] == v.s
    ensures !v.Str? ==> c == JoinText(v)
  {
    if v.Str? then "\"" + v.s + "\"" else JoinText(v)
  }

  /** The cells of one product, one per displayed column. */
  function ExportRow(product: ApiProduct): (cells: seq<string>)
    ensures |cells| == |FieldKeys|
    ensures forall i :: 0 <= i < |FieldKeys| ==> cells[i] == ExportCell(Get(product.fields, FieldKeys[i]))
  {
    seq(|FieldKeys|, i requires 0 <= i < |FieldKeys| => ExportCell(Get(product.fields, FieldKeys[i])))
  }

  function ExportLine(product: ApiProduct): string {
    Join(ExportRow(product), ",") + "\n"
  }

  /** The body lines of the export, one per product, in order. */
  function Lines(products: seq<ApiProduct>): string {
    Flatten(Map(products, ExportLine))
  }

  /** The header line: the column labels (as translated) joined by commas. */
  function HeaderLine(labels: seq<string>): string {
    Join(labels, ",") + "\n"
  }

  /** The export text `handleExportData` hands to `encodeURI`. */
  function ExportText(labels: seq<string>, products: seq<ApiProduct>): string {
    ExportPrefix + HeaderLine(labels) + Lines(products)
  }

  /** `handleExportData`'s string building: the prefix, the header, then one line appended per
      product. */
  method HandleExportData(labels: seq<string>, products: seq<ApiProduct>) returns (csv: string)
    ensures csv == ExportText(labels, products)
  {
    csv := ExportPrefix;
    csv := csv + HeaderLine(labels);
    ghost var head := csv;
    var i := 0;
    while i < |products|
      invariant i <= |products|
      invariant csv == head + Lines(products[..i])
    {
      assert products[..i + 1] == products[..i] + [products[i]];
      FlattenMapSnoc(products[..i], products[i], ExportLine);
      AppendAssoc(head, Lines(products[..i]), ExportLine(products[i]));
      csv := csv + ExportLine(products[i]);
      i := i + 1;
    }
    assert products[..|products|] == products;
  }

  /** The body of two lists of products is the first's lines followed by the second's. */
  lemma LinesConcat(a: seq<ApiProduct>, b: seq<ApiProduct>)
    ensures Lines(a + b) == Lines(a) + Lines(b)
  {
    MapConcat(a, b, ExportLine);
    FlattenConcat(Map(a, ExportLine), Map(b, ExportLine));
  }

  /** The export starts with the data-URI prefix and the header line. */
  lemma ExportStartsWithHeader(labels: seq<string>, products: seq<ApiProduct>)
    ensures StartsWith(ExportText(labels, products), ExportPrefix + HeaderLine(labels))
  {
    var head := ExportPrefix + HeaderLine(labels);
    assert ExportText(labels, products)[..|head|] == head;
  }

  /** When no label and no product's cells contain a line break, the export has exactly one
      line per product plus the header line. */
  lemma ExportLineCount(labels: seq<string>, products: seq<ApiProduct>)
    requires '\n' !in Join(labels, ",")
    requires forall i :: 0 <= i < |products| ==> '\n' !in Join(ExportRow(products[i]), ",")
    ensures CountChar(ExportText(labels, products), '\n') == |products| + 1
  {
    HeaderBreaks(labels);
    CountCharConcat(ExportPrefix + HeaderLine(labels), Lines(products), '\n');
    LinesLineCount(products);
  }

  /** The prefix and header hold one line break, the header's last character. */
  lemma HeaderBreaks(labels: seq<string>)
    requires '\n' !in Join(labels, ",")
    ensures CountChar(ExportPrefix + HeaderLine(labels), '\n') == 1
  {
    var j := Join(labels, ",");
    AppendAssoc(ExportPrefix, j, "\n");
    CountCharConcat(ExportPrefix + j, "\n", '\n');
    CountCharConcat(ExportPrefix, j, '\n');
    PrefixHasNoBreak();
    CountCharAbsent(ExportPrefix, '\n');
    CountCharAbsent(j, '\n');
  }

  lemma PrefixHasNoBreak()
    ensures '\n' !in ExportPrefix
  {
  }

  /** One line break per product in the body. */
  lemma LinesLineCount(products: seq<ApiProduct>)
    requires forall i :: 0 <= i < |products| ==> '\n' !in Join(ExportRow(products[i]), ",")
    ensures CountChar(Lines(products), '\n') == |products|
  {
    forall i | 0 <= i < |products|
      ensures CountChar(ExportLine(products[i]), '\n') == 1
    {
      ExportLineBreaks(products[i]);
    }
    CountAcross(products, ExportLine, '\n');
  }

  /** Pieces that hold one `c` each hold, joined up, one `c` per piece. */
  lemma {:induction false} CountAcross<A>(s: seq<A>, f: A -> string, c: char)
    requires forall i :: 0 <= i < |s| ==> CountChar(f(s[i]), c) == 1
    ensures CountChar(Flatten(Map(s, f)), c) == |s|
  {
    if s != [] {
      assert Map(s, f) == [f(s[0])] + Map(s[1..], f);
      assert Flatten(Map(s, f)) == f(s[0]) + Flatten(Map(s[1..], f));
      CountCharConcat(f(s[0]), Flatten(Map(s[1..], f)), c);
      assert forall i :: 0 <= i < |s[1..]| ==> s[1..][i] == s[i + 1];
      CountAcross(s[1..], f, c);
    }
  }

  /** A product's line ends with the only line break it has. */
  lemma ExportLineBreaks(p: ApiProduct)
    requires '\n' !in Join(ExportRow(p), ",")
    ensures CountChar(ExportLine(p), '\n') == 1
  {
    var body := Join(ExportRow(p), ",");
    CountCharConcat(body, "\n", '\n');
    CountCharAbsent(body, '\n');
  }

  /** The page's state: the fetched product records and the `productid` awaiting confirmation. */
  datatype PageState = PageState(products: seq<ApiProduct>, productToDelete: Option<JsValue>)

  /** `p => p.productid !== id`. */
  function KeepsOtherId(id: JsValue): ApiProduct -> bool {
    (p: ApiProduct) => Get(p.fields, "productid") != id
  }

  /** `prev.filter(p => p.productid !== id)`. */
  function WithoutProduct(products: seq<ApiProduct>, id: JsValue): (r: seq<ApiProduct>)
    ensures |r| <= |products|
  {
    Filter(products, KeepsOtherId(id))
  }

  /** The delete keeps exactly the products with another id. */
  lemma WithoutProductMembership(products: seq<ApiProduct>, id: JsValue, p: ApiProduct)
    ensures p in WithoutProduct(products, id) <==> p in products && Get(p.fields, "productid") != id
  {
    FilterMembership(products, KeepsOtherId(id), p);
  }

  /** Removing an id twice removes nothing more. */
  lemma WithoutProductIdempotent(products: seq<ApiProduct>, id: JsValue)
    ensures WithoutProduct(WithoutProduct(products, id), id) == WithoutProduct(products, id)
  {
    FilterIdempotent(products, KeepsOtherId(id));
  }

  /** Removing an id no product has leaves the list as it is. */
  lemma WithoutAbsentProduct(products: seq<ApiProduct>, id: JsValue)
    requires forall i :: 0 <= i < |products| ==> Get(products[i].fields, "productid") != id
    ensures WithoutProduct(products, id) == products
  {
    FilterAll(products, KeepsOtherId(id));
  }

  /** `handleDeleteConfirm`, the outcome of the remote delete given as `success` (false also for a
      failed request): nothing without a (truthy) pending id; otherwise a success drops the
      products with that id, a failure keeps the list, and the pending id is cleared. */
  function DeleteConfirmed(st: PageState, success: bool): (r: PageState)
    ensures st.productToDelete.None? || !Truthy(st.productToDelete.value) ==> r == st
    ensures st.productToDelete.Some? && Truthy(st.productToDelete.value) ==>
      r.productToDelete.None?
      && (success ==> r.products == WithoutProduct(st.products, st.productToDelete.value))
      && (!success ==> r.products == st.products)
  {
    match st.productToDelete
    case None => st
    case Some(id) =>
      if !Truthy(id) then st
      else PageState(if success then WithoutProduct(st.products, id) else st.products, None)
  }

  /** The quantity cell's badge: `parseFloat(value) < 10` (NaN shows none). */
  predicate LowStockBadge(value: JsValue) {
    var q := ParseFloat(ToStr(value));
    q.Some? && q.value < LowStockLimit
  }

  /** For a whole-number quantity the badge shows exactly below 10. */
  lemma LowStockBadgeWhole(n: nat)
    ensures LowStockBadge(Num(n, 0)) <==> n < 10
  {
    assert ToStr(Num(n, 0)) == NatToString(n);
    ParseFloatNat(n);
  }

  /** A missing quantity reads as NaN and shows no badge. */
  lemma NoBadgeWhenMissing()
    ensures !LowStockBadge(Undefined) && !LowStockBadge(Null)
  {
    ParseFloatNoNumber("undefined");
    ParseFloatNoNumber("null");
  }
}
