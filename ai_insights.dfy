/** The dashboard's insight panel (src/components/dashboard/AiInsights.tsx): the chart data it
    derives from the product list and the keyword dispatch of a typed question. */
module AiInsights {
  import opened Wrappers
  import opened Seqs
  import opened Text
  import opened JsValues
  import opened Domain

  const LowStockLimit: real := 10.0
  const ChartRows: nat := 10
  const DefaultTopCount: nat := 5
  const NameWidth: nat := 15

  /** A chart name: longer than 15 characters, it is cut to 15 and `...` is appended. */
  function ShortName(name: string): (r: string)
    ensures |name| <= NameWidth ==> r == name
    ensures |name| > NameWidth ==> |r| == NameWidth + 3 && r[..NameWidth] == name[..NameWidth] && r[NameWidth..] == "..."
  {
    if |name| > NameWidth then name[..NameWidth] + "..." else name
  }

  datatype ChartEntry = ChartEntry(name: string, value: real)

  predicate IsLowStock(p: Product) { p.quantity < LowStockLimit }

  /** Sort keys: `a.quantity - b.quantity` ascending, the other two descending. */
  function ByQuantity(p: Product): real { p.quantity }
  function ByQuantityDesc(p: Product): real { -p.quantity }
  function ByPriceDesc(p: Product): real { -p.sellingPrice }

  function QuantityEntry(p: Product): ChartEntry { ChartEntry(ShortName(p.productName), p.quantity) }
  function PriceEntry(p: Product): ChartEntry { ChartEntry(ShortName(p.productName), p.sellingPrice) }

  /** The products `getLowStockData` charts: the low-stock ones, fewest first, at most 10. */
  function LowStockChosen(products: seq<Product>): seq<Product> {
    Take(SortBy(Filter(products, IsLowStock), ByQuantity), ChartRows)
  }

  function LowStockData(products: seq<Product>): seq<ChartEntry> {
    Map(LowStockChosen(products), QuantityEntry)
  }

  /** The low-stock selection holds min(10, number of low-stock products) low-stock products
      of the list, fewest first. */
  lemma LowStockChosenShape(products: seq<Product>)
    ensures var low := Filter(products, IsLowStock); var chosen := LowStockChosen(products);
      |chosen| == (if |low| < ChartRows then |low| else ChartRows)
      && (forall p :: p in chosen ==> p in products && IsLowStock(p))
      && (forall i, j :: 0 <= i < j < |chosen| ==> chosen[i].quantity <= chosen[j].quantity)
  {
    var low := Filter(products, IsLowStock);
    var chosen := LowStockChosen(products);
    TakeSortBy(low, ByQuantity, ChartRows);
    forall p | p in chosen
      ensures p in products && IsLowStock(p)
    {
      assert p in multiset(low);
      FilterMembership(products, IsLowStock, p);
    }
  }

  /** A low-stock product left out of the chart has at least the quantity of every one shown. */
  lemma LowStockLeftOut(products: seq<Product>, p: Product, q: Product)
    requires p in products && IsLowStock(p) && p !in LowStockChosen(products) && q in LowStockChosen(products)
    ensures q.quantity <= p.quantity
  {
    FilterMembership(products, IsLowStock, p);
    TakeSortByLeftOut(Filter(products, IsLowStock), ByQuantity, ChartRows, p, q);
  }

  /** Each chart entry is its product's shortened name and quantity. */
  lemma LowStockDataAt(products: seq<Product>, i: nat)
    requires i < |LowStockChosen(products)|
    ensures |LowStockData(products)| == |LowStockChosen(products)|
    ensures LowStockData(products)[i].name == ShortName(LowStockChosen(products)[i].productName)
    ensures LowStockData(products)[i].value == LowStockChosen(products)[i].quantity
  {
    MapAt(LowStockChosen(products), QuantityEntry, i);
  }

  /** One more than `top\s+\d+`'s digits: where the match starting at the head of `s` ends, and
      the number it reads, when one starts there. */
  function TopCountHere(s: string): Option<nat> {
    if !StartsWith(s, "top") then None
    else
      var rest := s[3..];
      var w := WhitespaceRun(rest);
      var digits := rest[w..];
      var d := DigitRun(digits);
      if w == 0 || d == 0 then None else Some(DigitsValue(digits[..d]))
  }

  /** The length of the whitespace at the head of `s`. */
  function WhitespaceRun(s: string): (k: nat)
    ensures k <= |s|
    ensures forall j :: 0 <= j < k ==> IsWhitespace(s[j])
    ensures k < |s| ==> !IsWhitespace(s[k])
  {
    if s != [] && IsWhitespace(s[0]) then 1 + WhitespaceRun(s[1..]) else 0
  }

  /** The leftmost match of `/top\s+(\d+)/` in `s`, read with `parseInt`. */
  function FirstTopCount(s: string): Option<nat>
    decreases |s|
  {
    if s == [] then None
    else if TopCountHere(s).Some? then TopCountHere(s)
    else FirstTopCount(s[1..])
  }

  /** How many rows a "top" question asks for: the first `top <digits>`, ignoring case, else 5. */
  function TopCount(query: string): (n: nat)
    ensures FirstTopCount(ToLower(query)).None? ==> n == DefaultTopCount
    ensures FirstTopCount(ToLower(query)).Some? ==> n == FirstTopCount(ToLower(query)).value
  {
    match FirstTopCount(ToLower(query))
    case None => DefaultTopCount
    case Some(n) => n
  }

  /** `top`, one space and the digits of `n` read as `n`, whatever follows without a digit. */
  lemma TopCountReads(n: nat, tail: string)
    requires tail == [] || !IsDigit(tail[0])
    ensures TopCountHere("top " + NatToString(n) + tail) == Some(n)
    ensures FirstTopCount("top " + NatToString(n) + tail) == Some(n)
  {
    NatToStringRoundTrip(n);
    TopCountHereOf("top " + NatToString(n) + tail, NatToString(n), tail);
  }

  lemma TopCountHereOf(s: string, ds: string, tail: string)
    requires s == "top " + ds + tail && ds != [] && AllDigits(ds)
    requires tail == [] || !IsDigit(tail[0])
    ensures TopCountHere(s) == Some(DigitsValue(ds))
  {
    assert s[..3] == "top";
    var rest := s[3..];
    assert rest == [' '] + (ds + tail);
    WhitespaceRunOne(ds + tail);
    var digits := rest[1..];
    assert digits == ds + tail;
    DigitRunOf(ds, tail);
    assert digits[..|ds|] == ds;
  }

  lemma WhitespaceRunOne(t: string)
    requires t != [] && IsDigit(t[0])
    ensures WhitespaceRun([' '] + t) == 1
  {
    assert ([' '] + t)[1..] == t;
    assert !IsWhitespace(t[0]);
  }

  /** The categories' running totals in `Map` insertion order. */
  type Totals = seq<(string, real)>

  function TotalsKeys(e: Totals): (ks: seq<string>)
    ensures |ks| == |e| && forall i :: 0 <= i < |e| ==> ks[i] == e[i].0
  {
    if e == [] then [] else [e[0].0] + TotalsKeys(e[1..])
  }

  /** `map.get(k) || 0`. */
  function Lookup(e: Totals, k: string): real {
    if e == [] then 0.0 else if e[0].0 == k then e[0].1 else Lookup(e[1..], k)
  }

  /** `map.set(k, v)`: an existing key keeps its place, a new one goes last. */
  function MapSet(e: Totals, k: string, v: real): Totals {
    if e == [] then [(k, v)]
    else if e[0].0 == k then [(k, v)] + e[1..]
    else [e[0]] + MapSet(e[1..], k, v)
  }

  lemma {:induction false} MapSetKeys(e: Totals, k: string, v: real)
    ensures TotalsKeys(MapSet(e, k, v)) == if k in TotalsKeys(e) then TotalsKeys(e) else TotalsKeys(e) + [k]
  {
    if e != [] && e[0].0 != k {
      MapSetKeys(e[1..], k, v);
      assert TotalsKeys(e) == [e[0].0] + TotalsKeys(e[1..]);
    }
  }

  lemma {:induction false} MapSetLookup(e: Totals, k: string, v: real, c: string)
    ensures Lookup(MapSet(e, k, v), c) == if c == k then v else Lookup(e, c)
  {
    if e != [] && e[0].0 != k {
      MapSetLookup(e[1..], k, v, c);
    }
  }

  function ValueSum(e: Totals): real {
    if e == [] then 0.0 else e[0].1 + ValueSum(e[1..])
  }

  function Value(t: (string, real)): real { t.1 }

  lemma {:induction false} ValueSumIsSumBy(e: Totals)
    ensures ValueSum(e) == SumBy(e, Value)
  {
    if e != [] {
      ValueSumIsSumBy(e[1..]);
    }
  }

  lemma {:induction false} MapSetSum(e: Totals, k: string, v: real)
    ensures ValueSum(MapSet(e, k, v)) == ValueSum(e) - Lookup(e, k) + v
  {
    if e != [] && e[0].0 != k {
      MapSetSum(e[1..], k, v);
    }
  }

  /** With distinct keys, an entry holds its key's value and every key's value is in an entry. */
  lemma {:induction false} LookupEntry(e: Totals, i: nat)
    requires Distinct(TotalsKeys(e)) && i < |e|
    ensures Lookup(e, e[i].0) == e[i].1
  {
    if i > 0 {
      assert TotalsKeys(e)[0] != TotalsKeys(e)[i];
      assert TotalsKeys(e[1..]) == TotalsKeys(e)[1..];
      LookupEntry(e[1..], i - 1);
    }
  }

  /** The map the `forEach` of `getStockByCategoryData` builds from the first `n` products. */
  function CategoryTotals(products: seq<Product>, n: nat): Totals
    requires n <= |products|
  {
    if n == 0 then []
    else
      var e := CategoryTotals(products, n - 1);
      MapSet(e, products[n - 1].category, Lookup(e, products[n - 1].category) + products[n - 1].quantity)
  }

  /** The categories of the first `n` products, in order. */
  function CategoriesUpTo(products: seq<Product>, n: nat): (r: seq<string>)
    requires n <= |products|
    ensures |r| == n && forall i :: 0 <= i < n ==> r[i] == products[i].category
  {
    if n == 0 then [] else CategoriesUpTo(products, n - 1) + [products[n - 1].category]
  }

  /** The quantity held by the first `n` products of category `c`. */
  function CategoryQuantity(products: seq<Product>, n: nat, c: string): real
    requires n <= |products|
  {
    if n == 0 then 0.0
    else CategoryQuantity(products, n - 1, c) + (if products[n - 1].category == c then products[n - 1].quantity else 0.0)
  }

  function QuantityUpTo(products: seq<Product>, n: nat): real
    requires n <= |products|
  {
    if n == 0 then 0.0 else QuantityUpTo(products, n - 1) + products[n - 1].quantity
  }

  /** One key per distinct category, in order of first appearance. */
  lemma {:induction false} CategoryTotalsKeys(products: seq<Product>, n: nat)
    requires n <= |products|
    ensures TotalsKeys(CategoryTotals(products, n)) == Dedup(CategoriesUpTo(products, n))
  {
    if n == 0 {
      assert CategoryTotals(products, n) == [];
      assert CategoriesUpTo(products, n) == [];
    } else {
      CategoryTotalsKeys(products, n - 1);
      var e := CategoryTotals(products, n - 1);
      var k := products[n - 1].category;
      KeysStep(e, CategoriesUpTo(products, n - 1), k, Lookup(e, k) + products[n - 1].quantity);
    }
  }

  /** Setting a key keeps the keys the first-appearance list of the keys set so far. */
  lemma KeysStep(e: Totals, keys: seq<string>, k: string, v: real)
    requires TotalsKeys(e) == Dedup(keys)
    ensures TotalsKeys(MapSet(e, k, v)) == Dedup(keys + [k])
  {
    MapSetKeys(e, k, v);
    DedupSnoc(keys, k);
  }

  /** Each category's key holds that category's quantity sum. */
  lemma {:induction false} CategoryTotalsLookup(products: seq<Product>, n: nat, c: string)
    requires n <= |products|
    ensures Lookup(CategoryTotals(products, n), c) == CategoryQuantity(products, n, c)
  {
    if n > 0 {
      CategoryTotalsLookup(products, n - 1, c);
      var e := CategoryTotals(products, n - 1);
      var k := products[n - 1].category;
      MapSetLookup(e, k, Lookup(e, k) + products[n - 1].quantity, c);
      CategoryTotalsLookup(products, n - 1, k);
    }
  }

  /** Together the keys hold the whole stock. */
  lemma {:induction false} CategoryTotalsSum(products: seq<Product>, n: nat)
    requires n <= |products|
    ensures ValueSum(CategoryTotals(products, n)) == QuantityUpTo(products, n)
  {
    if n > 0 {
      CategoryTotalsSum(products, n - 1);
      var e := CategoryTotals(products, n - 1);
      var k := products[n - 1].category;
      MapSetSum(e, k, Lookup(e, k) + products[n - 1].quantity);
    }
  }

  /** `getStockByCategoryData`'s `forEach`, step by step. */
  method AccumulateCategories(products: seq<Product>) returns (totals: Totals)
    ensures totals == CategoryTotals(products, |products|)
  {
    totals := [];
    var i := 0;
    while i < |products|
      invariant i <= |products|
      invariant totals == CategoryTotals(products, i)
    {
      var category := products[i].category;
      var currentValue := Lookup(totals, category);
      totals := MapSet(totals, category, currentValue + products[i].quantity);
      i := i + 1;
    }
  }

  function ValueDesc(t: (string, real)): real { -t.1 }

  function TotalEntry(t: (string, real)): ChartEntry { ChartEntry(t.0, t.1) }

  /** The map's entries, largest total first. */
  function SortedCategoryTotals(products: seq<Product>): Totals {
    SortBy(CategoryTotals(products, |products|), ValueDesc)
  }

  /** The category chart. */
  function StockByCategoryData(products: seq<Product>): seq<ChartEntry> {
    Map(SortedCategoryTotals(products), TotalEntry)
  }

  /** The sorted totals have one entry per distinct category, each its category's quantity
      sum, in non-increasing order, and they add up to the whole stock. */
  lemma SortedCategoryTotalsShape(products: seq<Product>)
    ensures var n := |products|; var r := SortedCategoryTotals(products);
      |r| == |Dedup(CategoriesUpTo(products, n))|
      && (forall i :: 0 <= i < |r| ==> r[i].0 in CategoriesUpTo(products, n) && r[i].1 == CategoryQuantity(products, n, r[i].0))
      && (forall i, j :: 0 <= i < j < |r| ==> r[i].1 >= r[j].1)
      && SumBy(r, Value) == QuantityUpTo(products, n)
  {
    var n := |products|;
    var e := CategoryTotals(products, n);
    CategoryTotalsKeys(products, n);
    CategoryTotalsSum(products, n);
    var r := SortBy(e, ValueDesc);
    SortBySorted(e, ValueDesc);
    forall i | 0 <= i < |r|
      ensures r[i].0 in CategoriesUpTo(products, n) && r[i].1 == CategoryQuantity(products, n, r[i].0)
    {
      SortedEntry(products, i);
    }
    SortBySum(e, ValueDesc, Value);
    ValueSumIsSumBy(e);
  }

  lemma SortedEntry(products: seq<Product>, i: nat)
    requires i < |SortedCategoryTotals(products)|
    ensures var n := |products|; var r := SortedCategoryTotals(products);
      r[i].0 in CategoriesUpTo(products, n) && r[i].1 == CategoryQuantity(products, n, r[i].0)
  {
    var n := |products|;
    var e := CategoryTotals(products, n);
    var r := SortBy(e, ValueDesc);
    CategoryTotalsKeys(products, n);
    SortBySorted(e, ValueDesc);
    assert r[i] in multiset(e);
    var k :| 0 <= k < |e| && e[k] == r[i];
    assert TotalsKeys(e)[k] == e[k].0;
    LookupEntry(e, k);
    CategoryTotalsLookup(products, n, r[i].0);
  }

  /** Each chart entry is a sorted total under its category's name. */
  lemma StockByCategoryDataAt(products: seq<Product>, i: nat)
    requires i < |SortedCategoryTotals(products)|
    ensures |StockByCategoryData(products)| == |SortedCategoryTotals(products)|
    ensures StockByCategoryData(products)[i] == ChartEntry(SortedCategoryTotals(products)[i].0, SortedCategoryTotals(products)[i].1)
  {
    MapAt(SortedCategoryTotals(products), TotalEntry, i);
  }

  datatype QuantityRow = QuantityRow(name: string, quantity: real, unit: string)
  datatype PriceRow = PriceRow(name: string, price: real)

  function ToQuantityRow(p: Product): QuantityRow { QuantityRow(p.productName, p.quantity, p.unit) }
  function ToPriceRow(p: Product): PriceRow { PriceRow(p.productName, p.sellingPrice) }

  datatype QueryResult =
    | TopByQuantity(count: nat, rows: seq<QuantityRow>)
    | LowStockTable(rows: seq<QuantityRow>)
    | TopByPrice(count: nat, priceRows: seq<PriceRow>)
    | CategoryChart(entries: seq<ChartEntry>)
    | NotUnderstood

  datatype Rule = TopQuantityRule | LowStockRule | PriceRule | CategoryRule | FallbackRule

  /** The first rule whose keywords the lower-cased question contains. */
  function RuleFor(query: string): (r: Rule)
    ensures var q := ToLower(query);
      (r == TopQuantityRule <==> Contains(q, "top") && Contains(q, "quantity"))
      && (r == LowStockRule <==> !(Contains(q, "top") && Contains(q, "quantity")) && Contains(q, "low stock"))
      && (r == PriceRule <==> (!(Contains(q, "top") && Contains(q, "quantity")) && !Contains(q, "low stock")
            && (Contains(q, "highest price") || Contains(q, "most expensive"))))
      && (r == CategoryRule <==> (!(Contains(q, "top") && Contains(q, "quantity")) && !Contains(q, "low stock")
            && !Contains(q, "highest price") && !Contains(q, "most expensive") && Contains(q, "category")))
      && (r == FallbackRule <==> (!(Contains(q, "top") && Contains(q, "quantity")) && !Contains(q, "low stock")
            && !Contains(q, "highest price") && !Contains(q, "most expensive") && !Contains(q, "category")))
  {
    var q := ToLower(query);
    if Contains(q, "top") && Contains(q, "quantity") then TopQuantityRule
    else if Contains(q, "low stock") then LowStockRule
    else if Contains(q, "highest price") || Contains(q, "most expensive") then PriceRule
    else if Contains(q, "category") then CategoryRule
    else FallbackRule
  }

  /** The products a "top N by quantity" answer lists: the N with the most stock, most first. */
  function TopByQuantityChosen(products: seq<Product>, n: nat): seq<Product> {
    Take(SortBy(products, ByQuantityDesc), n)
  }

  /** The products a "top N by price" answer lists, and the highest-price chart with N = 10. */
  function TopByPriceChosen(products: seq<Product>, n: nat): seq<Product> {
    Take(SortBy(products, ByPriceDesc), n)
  }

  /** The products the low-stock answer lists: all low-stock ones, fewest first. */
  function LowStockAll(products: seq<Product>): seq<Product> {
    SortBy(Filter(products, IsLowStock), ByQuantity)
  }

  /** At most N products of the list, most stock first. */
  lemma TopByQuantityShape(products: seq<Product>, n: nat)
    ensures var t := TopByQuantityChosen(products, n);
      |t| == (if n < |products| then n else |products|)
      && multiset(t) <= multiset(products)
      && (forall i, j :: 0 <= i < j < |t| ==> t[i].quantity >= t[j].quantity)
  {
    TakeSortBy(products, ByQuantityDesc, n);
  }

  /** No product left out of a "top N by quantity" answer has more stock than one listed. */
  lemma TopByQuantityLeftOut(products: seq<Product>, n: nat, p: Product, q: Product)
    requires p in products && p !in TopByQuantityChosen(products, n) && q in TopByQuantityChosen(products, n)
    ensures q.quantity >= p.quantity
  {
    TakeSortByLeftOut(products, ByQuantityDesc, n, p, q);
  }

  /** At most N products of the list, most expensive first. */
  lemma TopByPriceShape(products: seq<Product>, n: nat)
    ensures var t := TopByPriceChosen(products, n);
      |t| == (if n < |products| then n else |products|)
      && multiset(t) <= multiset(products)
      && (forall i, j :: 0 <= i < j < |t| ==> t[i].sellingPrice >= t[j].sellingPrice)
  {
    TakeSortBy(products, ByPriceDesc, n);
  }

  /** No product left out of a "top N by price" answer is more expensive than one listed. */
  lemma TopByPriceLeftOut(products: seq<Product>, n: nat, p: Product, q: Product)
    requires p in products && p !in TopByPriceChosen(products, n) && q in TopByPriceChosen(products, n)
    ensures q.sellingPrice >= p.sellingPrice
  {
    TakeSortByLeftOut(products, ByPriceDesc, n, p, q);
  }

  /** The low-stock answer lists exactly the low-stock products, each as often as in the list,
      fewest first. */
  lemma LowStockAllShape(products: seq<Product>)
    ensures var t := LowStockAll(products);
      multiset(t) == multiset(Filter(products, IsLowStock))
      && (forall p :: p in t <==> p in products && IsLowStock(p))
      && (forall i, j :: 0 <= i < j < |t| ==> t[i].quantity <= t[j].quantity)
  {
    var low := Filter(products, IsLowStock);
    SortBySorted(low, ByQuantity);
    forall p
      ensures p in LowStockAll(products) <==> p in products && IsLowStock(p)
    {
      assert p in LowStockAll(products) <==> p in multiset(low);
      FilterMembership(products, IsLowStock, p);
    }
  }

  /** `handleQuerySubmit`'s answer, with the product list as the two "top" answers leave it
      (they sort it in place). */
  function Answer(query: string, products: seq<Product>): (QueryResult, seq<Product>) {
    match RuleFor(query)
    case TopQuantityRule =>
      var n := TopCount(query);
      (TopByQuantity(n, Map(TopByQuantityChosen(products, n), ToQuantityRow)), SortBy(products, ByQuantityDesc))
    case LowStockRule =>
      (LowStockTable(Map(LowStockAll(products), ToQuantityRow)), products)
    case PriceRule =>
      var n := TopCount(query);
      (TopByPrice(n, Map(TopByPriceChosen(products, n), ToPriceRow)), SortBy(products, ByPriceDesc))
    case CategoryRule => (CategoryChart(StockByCategoryData(products)), products)
    case FallbackRule => (NotUnderstood, products)
  }

  /** Each rule gives its kind of answer, a "top" answer asks for `TopCount` rows and lists at
      most that many, and the product list is only ever reordered. */
  lemma AnswerShape(query: string, products: seq<Product>)
    ensures var (result, after) := Answer(query, products);
      multiset(after) == multiset(products)
      && (result.TopByQuantity? <==> RuleFor(query) == TopQuantityRule)
      && (result.LowStockTable? <==> RuleFor(query) == LowStockRule)
      && (result.TopByPrice? <==> RuleFor(query) == PriceRule)
      && (result.CategoryChart? <==> RuleFor(query) == CategoryRule)
      && (result.NotUnderstood? <==> RuleFor(query) == FallbackRule)
      && (result.TopByQuantity? ==> result.count == TopCount(query) && |result.rows| <= result.count)
      && (result.TopByPrice? ==> result.count == TopCount(query) && |result.priceRows| <= result.count)
  {
    match RuleFor(query)
    case TopQuantityRule =>
      SortBySorted(products, ByQuantityDesc);
    case LowStockRule =>
    case PriceRule =>
      SortBySorted(products, ByPriceDesc);
    case CategoryRule =>
    case FallbackRule =>
  }

  /** The panel over the product list it is handed; the highest-price chart and the two "top"
      answers sort that list in place. */
  class Insights {
    var products: seq<Product>

    constructor (products: seq<Product>)
      ensures this.products == products
    {
      this.products := products;
    }

    /** `getHighestPricedData`: the list is sorted by price, highest first, and its first 10
        are charted. */
    method HighestPricedData() returns (data: seq<ChartEntry>)
      modifies this
      ensures products == SortBy(old(products), ByPriceDesc)
      ensures data == Map(TopByPriceChosen(old(products), ChartRows), PriceEntry)
    {
      products := SortBy(products, ByPriceDesc);
      data := Map(Take(products, ChartRows), PriceEntry);
    }

    /** `handleQuerySubmit`, without its simulated delay and loading flag. */
    method SubmitQuery(query: string) returns (result: QueryResult)
      modifies this
      ensures (result, products) == Answer(query, old(products))
    {
      var answer := Answer(query, products);
      result := answer.0;
      products := answer.1;
    }
  }
}
