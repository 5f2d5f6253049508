/** The dashboard page (src/pages/Dashboard.tsx): the CSV its export button builds from the
    fetched product records, and the low-stock panel. */
module Dashboard {
  import opened Wrappers
  import opened Seqs
  import opened Text
  import opened JsValues
  import opened Records
  import opened Inventory

  /** The parsed response of the product fetch; `data` is `None` when it is not an array. */
  datatype Response = Response(success: JsValue, data: Option<seq<ApiProduct>>)

  datatype ExportOutcome = ExportFailed | Exported(csv: string)

  /** `product[key] ?? ""` as `join` writes it. */
  function Cell(product: ApiProduct, key: string): (t: string)
    ensures IsNullish(Get(product.fields, key)) ==> t == ""
    ensures !IsNullish(Get(product.fields, key)) ==> t == ToStr(Get(product.fields, key))
  {
    JoinText(Get(product.fields, key))
  }

  /** The cells of one product, one per displayed column (the same seven as the inventory page). */
  function RowCells(product: ApiProduct): (cells: seq<string>)
    ensures |cells| == |FieldKeys|
    ensures forall i :: 0 <= i < |FieldKeys| ==> cells[i] == Cell(product, FieldKeys[i])
  {
    seq(|FieldKeys|, i requires 0 <= i < |FieldKeys| => Cell(product, FieldKeys[i]))
  }

  function RowText(product: ApiProduct): string {
    Join(RowCells(product), ",")
  }

  /** The lines of the file: the header, then one per product, in order. */
  function CsvLines(labels: seq<string>, products: seq<ApiProduct>): (lines: seq<string>)
    ensures |lines| == |products| + 1 && lines[0] == Join(labels, ",")
  {
    [Join(labels, ",")] + Map(products, RowText)
  }

  /** `[headers.join(','), ...rows.map(row => row.join(','))].join('\n')`. */
  function Csv(labels: seq<string>, products: seq<ApiProduct>): string {
    Join(CsvLines(labels, products), "\n")
  }

  /** `handleExport` after the fetch: it gives up unless `result?.success` is truthy and
      `result?.data` is an array. */
  function HandleExport(labels: seq<string>, result: Option<Response>): (r: ExportOutcome)
    ensures r.Exported? <==> result.Some? && Truthy(result.value.success) && result.value.data.Some?
    ensures r.Exported? ==> r.csv == Csv(labels, result.value.data.value)
  {
    match result
    case None => ExportFailed
    case Some(res) =>
      if !Truthy(res.success) || res.data.None? then ExportFailed
      else Exported(Csv(labels, res.data.value))
  }

  /** Line `i + 1` of the file is product `i`'s row. */
  lemma CsvLineOf(labels: seq<string>, products: seq<ApiProduct>, i: nat)
    requires i < |products|
    ensures CsvLines(labels, products)[i + 1] == RowText(products[i])
  {
    MapAt(products, RowText, i);
  }

  /** When no label or cell holds a line break, the file has one line break fewer than lines:
      a header and one line per product, with no newline after the last. */
  lemma CsvLineCount(labels: seq<string>, products: seq<ApiProduct>)
    requires '\n' !in Join(labels, ",")
    requires forall i :: 0 <= i < |products| ==> '\n' !in RowText(products[i])
    ensures CountChar(Csv(labels, products), '\n') == |products|
  {
    var lines := CsvLines(labels, products);
    forall i | 0 <= i < |lines|
      ensures '\n' !in lines[i]
    {
      if i > 0 {
        CsvLineOf(labels, products, i - 1);
      }
    }
    JoinCount(lines, '\n');
  }

  /** `p => p.quantity < 10`: the comparison converts the field with `Number` (NaN compares false). */
  predicate IsLowStock(p: ApiProduct) {
    var q := ToNumber(Get(p.fields, "quantity"));
    q.Some? && q.value < 10.0
  }

  /** `products.filter(p => p.quantity < 10).slice(0, 5)`. */
  function LowStockPanel(products: seq<ApiProduct>): seq<ApiProduct> {
    Take(Filter(products, IsLowStock), 5)
  }

  /** The panel shows at most five products, all low on stock, as the first low-stock products of
      the list in list order; with fewer than five shown, every low-stock product is shown. */
  lemma LowStockPanelShape(products: seq<ApiProduct>)
    ensures var panel := LowStockPanel(products); var low := Filter(products, IsLowStock);
      |panel| <= 5
      && panel == low[..|panel|]
      && (forall p :: p in panel ==> p in products && IsLowStock(p))
      && (|panel| < 5 ==> panel == low)
  {
    var low := Filter(products, IsLowStock);
    forall p | p in LowStockPanel(products)
      ensures p in products && IsLowStock(p)
    {
      FilterMembership(products, IsLowStock, p);
    }
  }
}
