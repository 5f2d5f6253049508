/** The product import pipeline of the smart file uploader
    (src/components/dashboard/SmartFileUploader.tsx): file validation and parser dispatch, header
    normalisation, binding of canonical fields to spreadsheet columns through a synonym table,
    the projection of each row into a product, and the CSV and spreadsheet completion paths.
    The CSV and spreadsheet libraries are not modelled: their output (a list of string-keyed rows,
    or a sheet of cells) is the input here. Fresh uuids, `Math.random()` draws for product codes,
    the clock and the date parser are per-row parameters. */
module SmartFileUploader {
  import opened Wrappers
  import opened Text
  import opened JsValues
  import opened Seqs
  import opened Records
  import MockData

  // ---------------------------------------------------------------- file validation and dispatch

  const DefaultAllowedFileTypes: seq<string> := [".csv", ".xlsx", ".xls"]
  const DefaultMaxFileSizeMB: real := 5.0

  datatype Field =
    | ProductName | Quantity | PurchasePrice | SellingPrice | Category | Warehouse
    | Unit | ProductCode | SupplierName | Specification | Remarks | EntryDate

  datatype ImportError =
    | InvalidFileType(allowedTypes: string)
    | FileTooLarge(maxSizeMB: real)
    | NoDataFound
    | InvalidCsvFormat
    | FileContainsNoData
    | RequiredFieldsMissing(fields: seq<Field>)
    | NoValidProducts

  /** `name.substring(name.lastIndexOf('.'))`: the name from its last dot on, or the whole name
      when it has no dot (`substring` reads the index -1 as 0). */
  function Extension(name: string): (ext: string)
    ensures EndsWith(name, ext)
    ensures '.' !in name ==> ext == name
    ensures '.' in name ==> |ext| > 0 && ext[0] == '.' && forall i :: 0 < i < |ext| ==> ext[i] != '.'
  {
    var k := LastIndex(name, '.');
    if k < 0 then name else name[k..]
  }

  /** `validateFile`: the lower-cased extension must be allowed, then the size must not exceed
      the limit of `maxMB` mebibytes. */
  function ValidateFile(name: string, size: nat, allowed: seq<string>, maxMB: real): (err: Option<ImportError>)
    ensures err == Some(InvalidFileType(Join(allowed, ", "))) <==> ToLower(Extension(name)) !in allowed
    ensures err == Some(FileTooLarge(maxMB)) <==> ToLower(Extension(name)) in allowed && size as real > maxMB * 1048576.0
    ensures err.None? <==> ToLower(Extension(name)) in allowed && size as real <= maxMB * 1048576.0
  {
    if ToLower(Extension(name)) !in allowed then Some(InvalidFileType(Join(allowed, ", ")))
    else if size as real > maxMB * 1024.0 * 1024.0 then Some(FileTooLarge(maxMB))
    else None
  }

  /** What selecting a file leads to. */
  datatype Selection = Rejected(error: ImportError) | ToCsvParser | ToSpreadsheetParser | Ignored

  /** `handleFileSelect`: validation, then a case-sensitive `endsWith` on the name chooses the parser. */
  function SelectFile(name: string, size: nat, allowed: seq<string>, maxMB: real): (s: Selection)
    ensures s.Rejected? <==> ValidateFile(name, size, allowed, maxMB).Some?
    ensures s == ToCsvParser <==> ValidateFile(name, size, allowed, maxMB).None? && EndsWith(name, ".csv")
    ensures s == ToSpreadsheetParser <==>
      (ValidateFile(name, size, allowed, maxMB).None? && !EndsWith(name, ".csv")
       && (EndsWith(name, ".xlsx") || EndsWith(name, ".xls")))
    ensures s == Ignored <==>
      (ValidateFile(name, size, allowed, maxMB).None? && !EndsWith(name, ".csv")
       && !EndsWith(name, ".xlsx") && !EndsWith(name, ".xls"))
  {
    match ValidateFile(name, size, allowed, maxMB)
    case Some(e) => Rejected(e)
    case None =>
      if EndsWith(name, ".csv") then ToCsvParser
      else if EndsWith(name, ".xlsx") || EndsWith(name, ".xls") then ToSpreadsheetParser
      else Ignored
  }

  /** A file named `stem.CSV` passes validation, because the extension is lower-cased there, but
      no parser is started, because dispatch compares case-sensitively. */
  lemma UpperCaseExtensionIsIgnored(stem: string, size: nat)
    requires '.' !in stem
    requires size as real <= DefaultMaxFileSizeMB * 1048576.0
    ensures ValidateFile(stem + ".CSV", size, DefaultAllowedFileTypes, DefaultMaxFileSizeMB).None?
    ensures SelectFile(stem + ".CSV", size, DefaultAllowedFileTypes, DefaultMaxFileSizeMB) == Ignored
  {
    var name := stem + ".CSV";
    var k := LastIndex(name, '.');
    assert name[|stem|] == '.';
    assert name[|stem| + 1] == 'C' && name[|stem| + 2] == 'S' && name[|stem| + 3] == 'V';
    if k < |stem| {
      assert false;
    }
    assert k == |stem|;
    assert Extension(name) == ".CSV";
    assert ToLower(".CSV") == ".csv";
    assert name[|name| - 4..] == ".CSV";
    assert name[|name| - 4..][1] != ".csv"[1];
    assert !EndsWith(name, ".xlsx") by {
      if |name| >= 5 {
        assert name[|name| - 5..][1] == '.';
      }
    }
    assert name[|name| - 4..][1] != ".xls"[1];
  }

  // ---------------------------------------------------------------- headers

  /** The header transform of both parsers: trim, lower-case, delete every whitespace character. */
  function NormalizeHeader(h: string): (n: string)
    ensures forall i :: 0 <= i < |n| ==> !IsWhitespace(n[i]) && !IsUpper(n[i])
  {
    var lower := ToLower(Trim(h));
    assert forall c :: c in lower ==> !IsUpper(c);
    Without(lower, IsWhitespace)
  }

  /** The key comparison of `processData`: lower-case, then trim, then delete whitespace. */
  function MatchKey(k: string): string {
    Without(Trim(ToLower(k)), IsWhitespace)
  }

  /** The two spellings of header normalisation agree. */
  lemma MatchKeyIsNormalizeHeader(k: string)
    ensures MatchKey(k) == NormalizeHeader(k)
  {
    WithoutTrim(ToLower(k));
    WithoutToLower(k);
    WithoutToLower(Trim(k));
    WithoutTrim(k);
  }

  /** Normalising a normalised header changes nothing. */
  lemma NormalizeHeaderIdempotent(h: string)
    ensures NormalizeHeader(NormalizeHeader(h)) == NormalizeHeader(h)
  {
    var n := NormalizeHeader(h);
    TrimNoWhitespace(n);
    assert ToLower(n) == n;
    WithoutIdentity(n, IsWhitespace);
  }

  // ---------------------------------------------------------------- field binding

  /** The canonical fields in the order in which `processData` binds them. */
  function FieldOrder(): (fs: seq<Field>)
    ensures |fs| == 12 && forall i :: 0 <= i < 12 ==> fs[i] == FieldAt(i)
  {
    seq(12, i => FieldAt(i))
  }

  function FieldAt(i: int): Field {
    if i == 0 then ProductName
    else if i == 1 then Quantity
    else if i == 2 then PurchasePrice
    else if i == 3 then SellingPrice
    else if i == 4 then Category
    else if i == 5 then Warehouse
    else if i == 6 then Unit
    else if i == 7 then ProductCode
    else if i == 8 then SupplierName
    else if i == 9 then Specification
    else if i == 10 then Remarks
    else EntryDate
  }

  /** Each field has its position in the order. */
  function FieldIndex(f: Field): (i: nat)
    ensures i < |FieldOrder()| && FieldOrder()[i] == f
  {
    match f
    case ProductName => 0
    case Quantity => 1
    case PurchasePrice => 2
    case SellingPrice => 3
    case Category => 4
    case Warehouse => 5
    case Unit => 6
    case ProductCode => 7
    case SupplierName => 8
    case Specification => 9
    case Remarks => 10
    case EntryDate => 11
  }

  /** The synonym table: the normalised header names accepted for each field. */
  function Synonyms(f: Field): seq<string> {
    match f
    case ProductName => ["productname", "product_name", "product", "name", "item", "title", "productname", "itemname"]
    case Quantity => ["quantity", "qty", "amount", "count", "stock", "units", "stockquantity"]
    case PurchasePrice => ["purchaseprice", "purchase_price", "cost", "buying_price", "costprice", "buyprice", "buy_price", "unitcost", "unit_cost"]
    case SellingPrice => ["sellingprice", "selling_price", "price", "retail_price", "sale_price", "retail", "sellprice", "sell_price", "unitprice", "unit_price"]
    case Category => ["category", "type", "group", "department", "producttype", "product_type", "productcategory", "product_category"]
    case Warehouse => ["warehouse", "location", "store", "storage", "inventory_location", "inventorylocation"]
    case Unit => ["unit", "uom", "measure", "measurement", "unitofmeasure", "unit_of_measure"]
    case ProductCode => ["productcode", "product_code", "code", "sku", "item_code", "itemcode", "id", "productid", "product_id"]
    case SupplierName => ["suppliername", "supplier_name", "supplier", "vendor", "manufacturer", "brand", "vendorname", "vendor_name"]
    case Specification => ["specification", "specs", "details", "description", "desc", "info", "productdescription"]
    case Remarks => ["remarks", "notes", "comment", "additional", "extra", "comments"]
    case EntryDate => ["entrydate", "entry_date", "date", "dateadded", "date_added", "createdate", "created_date", "created_at"]
  }

  predicate DisjointLists(a: seq<string>, b: seq<string>) {
    forall s :: s in a ==> s !in b
  }

  /** No name is a synonym of two fields. */
  lemma SynonymsDisjoint(f: Field, g: Field)
    requires f != g
    ensures DisjointLists(Synonyms(f), Synonyms(g))
  {
    if FieldIndex(f) < FieldIndex(g) {
      OrderedSynonymsDisjoint(f, g);
    } else {
      OrderedSynonymsDisjoint(g, f);
    }
  }

  /** The compared forms of a row's keys. */
  function MatchKeys(keys: seq<string>): (cs: seq<string>)
    ensures |cs| == |keys|
  {
    Map(keys, MatchKey)
  }

  lemma MatchKeysAt(keys: seq<string>, j: nat)
    requires j < |keys|
    ensures MatchKeys(keys)[j] == MatchKey(keys[j])
  {
    MapAt(keys, MatchKey, j);
  }

  /** The position of the first entry of `compared` that is one of `names`; with the compared
      forms of the keys, the position of `keys.find(...)`. */
  function FindKey(compared: seq<string>, names: seq<string>): (k: int)
    ensures -1 <= k < |compared|
    ensures k >= 0 ==> compared[k] in names
    ensures forall j :: 0 <= j < |compared| && (k < 0 || j < k) ==> compared[j] !in names
  {
    if compared == [] then -1
    else if compared[0] in names then 0
    else
      var k := FindKey(compared[1..], names);
      if k < 0 then -1 else k + 1
  }

  /** Some key matches one of `names`, and the first such key is not empty. */
  predicate Bound(keys: seq<string>, names: seq<string>) {
    var k := FindKey(MatchKeys(keys), names);
    k >= 0 && keys[k] != ""
  }

  /** The key a bound field is bound to. */
  function BoundKey(keys: seq<string>, names: seq<string>): string
    requires Bound(keys, names)
  {
    keys[FindKey(MatchKeys(keys), names)]
  }

  /** `fieldMapping` once the binding loop has visited `fields`, for a synonym table `table`. */
  function BindingOver(keys: seq<string>, table: Field -> seq<string>, fields: seq<Field>): map<Field, string> {
    if fields == [] then map[]
    else
      var n := |fields| - 1;
      var m := BindingOver(keys, table, fields[..n]);
      if Bound(keys, table(fields[n])) then m[fields[n] := BoundKey(keys, table(fields[n]))] else m
  }

  lemma {:induction false} BindingOverSpec(keys: seq<string>, table: Field -> seq<string>, fields: seq<Field>, f: Field)
    ensures f in BindingOver(keys, table, fields) <==> f in fields && Bound(keys, table(f))
    ensures f in BindingOver(keys, table, fields) ==> BindingOver(keys, table, fields)[f] == BoundKey(keys, table(f))
  {
    if fields != [] {
      var n := |fields| - 1;
      BindingOverSpec(keys, table, fields[..n], f);
      assert fields == fields[..n] + [fields[n]];
    }
  }

  /** `fieldMapping` for the first row's keys. */
  function FieldBinding(keys: seq<string>, table: Field -> seq<string>): map<Field, string> {
    BindingOver(keys, table, FieldOrder())
  }

  /** A field is bound exactly when the first key naming one of its synonyms exists and is not
      empty; it is then bound to that key. */
  lemma FieldBindingSpec(keys: seq<string>, table: Field -> seq<string>, f: Field)
    ensures f in FieldBinding(keys, table) <==> Bound(keys, table(f))
    ensures f in FieldBinding(keys, table) ==> FieldBinding(keys, table)[f] == BoundKey(keys, table(f))
  {
    BindingOverSpec(keys, table, FieldOrder(), f);
    var _ := FieldIndex(f);
  }

  /** The bound key is a non-empty key of the row whose compared form is one of the names, and no
      earlier key's compared form is. */
  lemma BoundKeySpec(keys: seq<string>, names: seq<string>)
    requires Bound(keys, names)
    ensures var k := BoundKey(keys, names);
      && k != "" && k in keys && MatchKey(k) in names
      && forall j :: 0 <= j < |keys| && keys[j] == k ==> FindKey(MatchKeys(keys), names) <= j
    ensures forall j :: 0 <= j < |keys| && MatchKey(keys[j]) in names ==> FindKey(MatchKeys(keys), names) <= j
  {
    var idx := FindKey(MatchKeys(keys), names);
    MatchKeysAt(keys, idx);
    forall j | 0 <= j < |keys| && MatchKey(keys[j]) in names
      ensures idx <= j
    {
      MatchKeysAt(keys, j);
    }
  }

  /** With the synonym table of the import, a key is bound to at most one field. */
  lemma KeyBindsAtMostOneField(keys: seq<string>, f: Field, g: Field)
    requires f in FieldBinding(keys, Synonyms) && g in FieldBinding(keys, Synonyms)
    requires FieldBinding(keys, Synonyms)[f] == FieldBinding(keys, Synonyms)[g]
    ensures f == g
  {
    FieldBindingSpec(keys, Synonyms, f);
    FieldBindingSpec(keys, Synonyms, g);
    BoundKeySpec(keys, Synonyms(f));
    BoundKeySpec(keys, Synonyms(g));
    if f != g {
      SynonymsDisjoint(f, g);
      assert false;
    }
  }

  /** The binding loop of `processData`: for each field in order, `find` its first matching key
      and record it when it is not empty. */
  method BindFields(keys: seq<string>, table: Field -> seq<string>) returns (mapping: map<Field, string>)
    ensures mapping == FieldBinding(keys, table)
  {
    mapping := map[];
    var compared := MatchKeys(keys);
    var i := 0;
    while i < |FieldOrder()|
      invariant 0 <= i <= |FieldOrder()|
      invariant mapping == BindingOver(keys, table, FieldOrder()[..i])
    {
      var f := FieldOrder()[i];
      var matched := FindKey(compared, table(f));
      if matched >= 0 && keys[matched] != "" {
        mapping := mapping[f := keys[matched]];
      }
      assert FieldOrder()[..i + 1][..i] == FieldOrder()[..i];
      i := i + 1;
    }
    assert FieldOrder()[..i] == FieldOrder();
  }

  /** The required fields that are not bound, in the order `productName`, `quantity`. */
  function MissingFields(mapping: map<Field, string>): (missing: seq<Field>)
    ensures forall f :: f in missing <==> (f == ProductName || f == Quantity) && f !in mapping
    ensures Distinct(missing) && (|missing| == 2 ==> missing == [ProductName, Quantity])
  {
    (if ProductName in mapping then [] else [ProductName]) + (if Quantity in mapping then [] else [Quantity])
  }

  // ---------------------------------------------------------------- row projection

  /** `getValue(field, fallback)`: the cell of the bound column, unless the field is unbound or
      the cell is `undefined` or `null`. */
  function GetValue(mapping: map<Field, string>, row: Record, f: Field, fallback: JsValue): (v: JsValue)
    ensures v != fallback ==> f in mapping && v == Get(row, mapping[f]) && !IsNullish(v)
    ensures f in mapping && !IsNullish(Get(row, mapping[f])) ==> v == Get(row, mapping[f])
  {
    if f in mapping && !IsNullish(Get(row, mapping[f])) then Get(row, mapping[f]) else fallback
  }

  /** `list.find(x => x.name.toLowerCase() === s.toLowerCase())?.name`. */
  function FindByName(names: seq<string>, s: string): (r: Option<string>)
    ensures r.Some? ==> r.value in names && ToLower(r.value) == ToLower(s)
    ensures r.None? ==> forall n :: n in names ==> ToLower(n) != ToLower(s)
  {
    if names == [] then None
    else if ToLower(names[0]) == ToLower(s) then Some(names[0])
    else FindByName(names[1..], s)
  }

  /** Master-data resolution: the stored name that matches case-insensitively, else the raw text,
      else (when the raw text is empty) the default. */
  function ResolveName(names: seq<string>, raw: JsValue, default: string): (r: string)
    ensures var s := ToStr(raw);
      || (r in names && ToLower(r) == ToLower(s))
      || (r == s && s != "")
      || (r == default && s == "")
    ensures var s := ToStr(raw);
      s != "" && (exists n :: n in names && ToLower(n) == ToLower(s)) ==> r in names && ToLower(r) == ToLower(s)
    ensures var s := ToStr(raw);
      (forall n :: n in names ==> ToLower(n) != ToLower(s)) ==> r == if s != "" then s else default
    ensures default != "" ==> r != ""
  {
    var s := ToStr(raw);
    var found := FindByName(names, s);
    assert found.Some? ==> |ToLower(found.value)| == |ToLower(s)|;
    if found.Some? && found.value != "" then found.value
    else if s != "" then s
    else default
  }

  predicate IsComma(c: char) { c == ',' }

  /** The quantity text: the cell's string with every comma deleted. */
  function QuantityText(cell: JsValue): (t: string)
    ensures ',' !in t
  {
    Without(ToStr(cell), IsComma)
  }

  /** A price text: the cell's string with every comma deleted, then one leading `$`. */
  function PriceText(cell: JsValue): (t: string)
    ensures ',' !in t
    ensures var c := Without(ToStr(cell), IsComma); c == t || c == "$" + t
  {
    var c := Without(ToStr(cell), IsComma);
    if c != "" && c[0] == '$' then
      assert c == "$" + c[1..];
      c[1..]
    else c
  }

  /** `parseFloat(text) || 0`. */
  function NumberOrZero(t: string): real {
    OrZero(ParseFloat(t))
  }

  /** A text without any digit reads as 0. */
  lemma NoDigitReadsAsZero(t: string)
    requires forall i :: 0 <= i < |t| ==> !IsDigit(t[i])
    ensures NumberOrZero(t) == 0.0
  {
    ParseFloatNeedsDigit(t);
  }

  /** A product as the import builds it: the raw cell values flow into code, name, specification
      and remarks unchanged, so they are JavaScript values rather than strings. */
  datatype ImportedProduct = ImportedProduct(
    productid: string,
    productCode: JsValue,
    productName: JsValue,
    specification: JsValue,
    category: string,
    supplierName: string,
    purchasePrice: real,
    sellingPrice: real,
    quantity: real,
    unit: string,
    warehouse: string,
    entryDate: string,
    enteredBy: string,
    remarks: JsValue,
    isActive: bool)

  /** The names of the master lists the import resolves against. */
  datatype MasterNames = MasterNames(categories: seq<string>, warehouses: seq<string>, units: seq<string>, suppliers: seq<string>)

  /** What one row draws from outside: a uuid, a `Math.random()` draw and the current ISO time. */
  datatype RowEnv = RowEnv(uuid: string, codeDraw: real, now: string)

  predicate ValidEnvs(envs: seq<RowEnv>, n: nat) {
    n <= |envs| && forall i :: 0 <= i < n ==> 0.0 <= envs[i].codeDraw < 1.0
  }

  /** The context shared by every row: bound columns, master lists, `new Date(raw).toISOString()`
      (None where it throws) and the translated default remark. */
  datatype RowContext = RowContext(mapping: map<Field, string>, master: MasterNames, dateOf: JsValue -> Option<string>, importedRemark: string)

  /** A row is kept when its product-name value is truthy. */
  predicate Named(ctx: RowContext, row: Record) {
    Truthy(GetValue(ctx.mapping, row, ProductName, Str("")))
  }

  /** One step of `data.map(...)`: the product built from a row, or nothing for a row without name. */
  function ProjectRow(ctx: RowContext, row: Record, env: RowEnv): (p: Option<ImportedProduct>)
    requires 0.0 <= env.codeDraw < 1.0
    ensures p.Some? <==> Named(ctx, row)
    ensures p.Some? ==> p.value.isActive && p.value.enteredBy == "Import" && p.value.productid == env.uuid
    ensures p.Some? ==> Truthy(p.value.productName) && p.value.productName == GetValue(ctx.mapping, row, ProductName, Str(""))
  {
    var m := ctx.mapping;
    var category := ResolveName(ctx.master.categories, GetValue(m, row, Category, Str("General")), "General");
    var warehouse := ResolveName(ctx.master.warehouses, GetValue(m, row, Warehouse, Str("Main Warehouse")), "Main Warehouse");
    var unit := ResolveName(ctx.master.units, GetValue(m, row, Unit, Str("pcs")), "pcs");
    var supplier := ResolveName(ctx.master.suppliers, GetValue(m, row, SupplierName, Str("Unknown Supplier")), "");
    var quantity := NumberOrZero(QuantityText(GetValue(m, row, Quantity, Str("0"))));
    var purchasePrice := NumberOrZero(PriceText(GetValue(m, row, PurchasePrice, Str("0"))));
    var sellingPrice := NumberOrZero(PriceText(GetValue(m, row, SellingPrice, Str("0"))));
    var productCode := GetValue(m, row, ProductCode, Str(MockData.GenerateProductCode(env.codeDraw)));
    var entryDate :=
      match ctx.dateOf(GetValue(m, row, EntryDate, Str(env.now)))
      case Some(d) => d
      case None => env.now;
    if !Named(ctx, row) then None
    else Some(ImportedProduct(
      env.uuid, productCode, GetValue(m, row, ProductName, Str("")), GetValue(m, row, Specification, Str("")),
      category, supplier, purchasePrice, sellingPrice, quantity, unit, warehouse, entryDate, "Import",
      GetValue(m, row, Remarks, Str(ctx.importedRemark)), true))
  }

  /** `data.map(...)`: row `i` uses `envs[i]`. */
  function Projections(ctx: RowContext, rows: seq<Record>, envs: seq<RowEnv>): (os: seq<Option<ImportedProduct>>)
    requires ValidEnvs(envs, |rows|)
    ensures |os| == |rows|
    ensures forall i :: 0 <= i < |rows| ==> os[i] == ProjectRow(ctx, rows[i], envs[i])
  {
    seq(|rows|, i requires 0 <= i < |rows| && ValidEnvs(envs, |rows|) => ProjectRow(ctx, rows[i], envs[i]))
  }

  /** `data.map(...).filter(Boolean)`. */
  function ProjectRows(ctx: RowContext, rows: seq<Record>, envs: seq<RowEnv>): (ps: seq<ImportedProduct>)
    requires ValidEnvs(envs, |rows|)
  {
    Somes(Projections(ctx, rows, envs))
  }

  /** Every imported product comes from a named row, is active, is entered by the import and
      keeps the row's name. */
  lemma ProjectRowsShape(ctx: RowContext, rows: seq<Record>, envs: seq<RowEnv>, p: ImportedProduct)
    requires ValidEnvs(envs, |rows|)
    requires p in ProjectRows(ctx, rows, envs)
    ensures exists i :: (0 <= i < |rows| && Named(ctx, rows[i]) && p.productid == envs[i].uuid &&
                         p.productName == GetValue(ctx.mapping, rows[i], ProductName, Str("")))
    ensures p.isActive && p.enteredBy == "Import" && Truthy(p.productName)
  {
    var os := Projections(ctx, rows, envs);
    SomesMembership(os, p);
    var i :| 0 <= i < |os| && os[i] == Some(p);
    assert ProjectRow(ctx, rows[i], envs[i]) == Some(p);
  }

  /** Exactly the named rows produce a product. */
  lemma ProjectRowsCount(ctx: RowContext, rows: seq<Record>, envs: seq<RowEnv>)
    requires ValidEnvs(envs, |rows|)
    ensures |ProjectRows(ctx, rows, envs)| == |Filter(rows, row => Named(ctx, row))|
  {
    var os := Projections(ctx, rows, envs);
    SomesCount(os);
    forall i | 0 <= i < |os|
      ensures IsSome(os[i]) <==> Named(ctx, rows[i])
    {
      assert os[i] == ProjectRow(ctx, rows[i], envs[i]);
    }
    FilterCountPointwise(os, IsSome, rows, row => Named(ctx, row));
  }

  /** The result of `processData`. */
  function Processed(data: seq<Record>, master: MasterNames, envs: seq<RowEnv>, dateOf: JsValue -> Option<string>,
                     importedRemark: string): Result<seq<ImportedProduct>, ImportError>
    requires ValidEnvs(envs, |data|)
  {
    if |data| == 0 then Err(FileContainsNoData)
    else
      var mapping := FieldBinding(Keys(data[0]), Synonyms);
      var missing := MissingFields(mapping);
      if |missing| > 0 then Err(RequiredFieldsMissing(missing))
      else Ok(ProjectRows(RowContext(mapping, master, dateOf, importedRemark), data, envs))
  }

  /** Processing fails exactly when there is no row or a required field is unbound; the error
      then names exactly the unbound required fields and no product is returned. */
  lemma ProcessedFailure(data: seq<Record>, master: MasterNames, envs: seq<RowEnv>, dateOf: JsValue -> Option<string>,
                         importedRemark: string)
    requires ValidEnvs(envs, |data|) && |data| > 0
    ensures var r := Processed(data, master, envs, dateOf, importedRemark);
      var mapping := FieldBinding(Keys(data[0]), Synonyms);
      && (r.Err? <==> ProductName !in mapping || Quantity !in mapping)
      && (r.Err? ==> r.error == RequiredFieldsMissing(MissingFields(mapping)))
  {
  }

  /** `processData`. */
  method ProcessData(data: seq<Record>, master: MasterNames, envs: seq<RowEnv>, dateOf: JsValue -> Option<string>,
                     importedRemark: string) returns (r: Result<seq<ImportedProduct>, ImportError>)
    requires ValidEnvs(envs, |data|)
    ensures r == Processed(data, master, envs, dateOf, importedRemark)
  {
    if |data| == 0 {
      return Err(FileContainsNoData);
    }
    var mapping := BindFields(Keys(data[0]), Synonyms);
    var missing := MissingFields(mapping);
    if |missing| > 0 {
      return Err(RequiredFieldsMissing(missing));
    }
    r := Ok(ProjectRows(RowContext(mapping, master, dateOf, importedRemark), data, envs));
  }

  /** The final check of both parsers: an empty product list is an error. */
  function Completed(r: Result<seq<ImportedProduct>, ImportError>): (c: Result<seq<ImportedProduct>, ImportError>)
    ensures c.Ok? ==> |c.value| > 0
  {
    if r.Ok? && |r.value| == 0 then Err(NoValidProducts) else r
  }

  /** The CSV parser's completion: no rows, or a single row from a file over 500 bytes, are errors;
      otherwise the rows are processed. */
  method CompleteCsv(rows: seq<Record>, fileSize: nat, master: MasterNames, envs: seq<RowEnv>,
                     dateOf: JsValue -> Option<string>, importedRemark: string)
    returns (r: Result<seq<ImportedProduct>, ImportError>)
    requires ValidEnvs(envs, |rows|)
    ensures |rows| == 0 ==> r == Err(NoDataFound)
    ensures |rows| == 1 && fileSize > 500 ==> r == Err(InvalidCsvFormat)
    ensures |rows| > 1 || (|rows| == 1 && fileSize <= 500) ==> r == Completed(Processed(rows, master, envs, dateOf, importedRemark))
  {
    if |rows| == 0 {
      return Err(NoDataFound);
    }
    if |rows| == 1 && fileSize > 500 {
      return Err(InvalidCsvFormat);
    }
    var products := ProcessData(rows, master, envs, dateOf, importedRemark);
    r := Completed(products);
  }

  // ---------------------------------------------------------------- spreadsheet rows

  /** `row[index] !== undefined ? row[index] : ''`. */
  function Cell(row: seq<JsValue>, index: nat): JsValue {
    if index < |row| && row[index] != Undefined then row[index] else Str("")
  }

  /** The object the `forEach` over `headers` has built after visiting `headers`. */
  function SheetItem(headers: seq<string>, row: seq<JsValue>): Record {
    if headers == [] then []
    else
      var n := |headers| - 1;
      var item := SheetItem(headers[..n], row);
      if headers[n] != "" then Set(item, headers[n], Cell(row, n)) else item
  }

  /** A spreadsheet row object has one key per distinct non-empty header, in order of first
      occurrence. */
  lemma {:induction false} SheetItemKeys(headers: seq<string>, row: seq<JsValue>)
    ensures Keys(SheetItem(headers, row)) == Dedup(Filter(headers, NonEmpty))
    ensures WellFormed(SheetItem(headers, row))
  {
    if headers != [] {
      var n := |headers| - 1;
      var init := headers[..n];
      SheetItemKeys(init, row);
      SliceSnoc(headers, 0, n);
      assert headers[0..n] == init && headers[0..n + 1] == headers;
      FilterConcat(init, [headers[n]], NonEmpty);
      if headers[n] != "" {
        assert Filter([headers[n]], NonEmpty) == [headers[n]];
        KeysSetDedup(SheetItem(init, row), Filter(init, NonEmpty), headers[n], Cell(row, n));
      } else {
        assert Filter([headers[n]], NonEmpty) == [];
        assert Filter(headers, NonEmpty) == Filter(init, NonEmpty);
      }
    }
  }


  /** Under each non-empty header the row object holds the cell of the header's last column
      (`undefined` for a name that is not a header). */
  lemma {:induction false} SheetItemGet(headers: seq<string>, row: seq<JsValue>, h: string)
    requires h != ""
    ensures Get(SheetItem(headers, row), h) == if h in headers then Cell(row, LastIndex(headers, h)) else Undefined
  {
    if headers != [] {
      var n := |headers| - 1;
      var init := headers[..n];
      SheetItemGet(init, row, h);
      assert headers == init + [headers[n]];
      if headers[n] != "" {
        GetSet(SheetItem(init, row), headers[n], Cell(row, n), h);
      }
      if headers[n] != h {
        assert h in headers <==> h in init;
        assert LastIndex(headers, h) == LastIndex(init, h);
      }
    }
  }

  predicate NonEmpty(s: string) { s != "" }

  /** The `forEach` that turns a spreadsheet row into an object keyed by the headers. */
  method BuildSheetItem(headers: seq<string>, row: seq<JsValue>) returns (item: Record)
    ensures item == SheetItem(headers, row)
  {
    item := [];
    var index := 0;
    while index < |headers|
      invariant 0 <= index <= |headers|
      invariant item == SheetItem(headers[..index], row)
    {
      var header := headers[index];
      if header != "" {
        item := Set(item, header, Cell(row, index));
      }
      assert headers[..index + 1][..index] == headers[..index];
      index := index + 1;
    }
    assert headers[..index] == headers;
  }

  /** A header cell as the spreadsheet parser names its column. */
  function HeaderName(cell: JsValue): string {
    NormalizeHeader(ToStr(cell))
  }

  /** The normalised header row of a sheet. */
  function SheetHeaders(first: seq<JsValue>): (hs: seq<string>)
    ensures |hs| == |first|
  {
    Map(first, HeaderName)
  }

  /** The objects of the rows `rows`, each keyed by `headers`. */
  function RowObjects(headers: seq<string>, rows: seq<seq<JsValue>>): (rs: seq<Record>)
    ensures |rs| == |rows|
  {
    if rows == [] then []
    else RowObjects(headers, rows[..|rows| - 1]) + [SheetItem(headers, rows[|rows| - 1])]
  }

  lemma RowObjectsSnoc(headers: seq<string>, rows: seq<seq<JsValue>>, row: seq<JsValue>)
    ensures RowObjects(headers, rows + [row]) == RowObjects(headers, rows) + [SheetItem(headers, row)]
  {
    assert (rows + [row])[..|rows|] == rows;
  }

  lemma {:induction false} RowObjectsAt(headers: seq<string>, rows: seq<seq<JsValue>>, j: nat)
    requires j < |rows|
    ensures RowObjects(headers, rows)[j] == SheetItem(headers, rows[j])
  {
    if j < |rows| - 1 {
      RowObjectsAt(headers, rows[..|rows| - 1], j);
    }
  }

  /** `jsonData.slice(1).map(...)`: the rows after the header row, each turned into its object. */
  method BuildSheetRecords(sheet: seq<seq<JsValue>>) returns (data: seq<Record>)
    requires |sheet| > 1
    ensures data == RowObjects(SheetHeaders(sheet[0]), sheet[1..])
  {
    var headers := SheetHeaders(sheet[0]);
    var rows := sheet[1..];
    data := [];
    var i := 0;
    while i < |rows|
      invariant i <= |rows|
      invariant data == RowObjects(headers, rows[..i])
    {
      var item := BuildSheetItem(headers, rows[i]);
      SliceSnoc(rows, 0, i);
      RowObjectsSnoc(headers, rows[..i], rows[i]);
      data := data + [item];
      i := i + 1;
    }
    assert rows[..i] == rows;
  }

  /** The spreadsheet parser's load handler, from the first sheet's rows of cells on: a sheet with
      at most a header row is an error; otherwise the row objects are processed. */
  method ParseSheet(sheet: seq<seq<JsValue>>, master: MasterNames, envs: seq<RowEnv>,
                    dateOf: JsValue -> Option<string>, importedRemark: string)
    returns (r: Result<seq<ImportedProduct>, ImportError>)
    requires |sheet| <= 1 || ValidEnvs(envs, |sheet| - 1)
    ensures |sheet| <= 1 ==> r == Err(NoDataFound)
    ensures |sheet| > 1 ==> r == Completed(Processed(RowObjects(SheetHeaders(sheet[0]), sheet[1..]), master, envs, dateOf, importedRemark))
  {
    if |sheet| <= 1 {
      return Err(NoDataFound);
    }
    var data := BuildSheetRecords(sheet);
    var products := ProcessData(data, master, envs, dateOf, importedRemark);
    r := Completed(products);
  }

  /** Disjointness for each pair of fields, the one with the smaller index first. Each pair is
      its own lemma below: comparing two literal lists of names is a large proof obligation, so
      the 66 pairs are kept in separate obligations. */
  lemma OrderedSynonymsDisjoint(f: Field, g: Field)
    requires FieldIndex(f) < FieldIndex(g)
    ensures DisjointLists(Synonyms(f), Synonyms(g))
  {
    match (f, g)
    case (ProductName, Quantity) => DisjointProductNameQuantity();
    case (ProductName, PurchasePrice) => DisjointProductNamePurchasePrice();
    case (ProductName, SellingPrice) => DisjointProductNameSellingPrice();
    case (ProductName, Category) => DisjointProductNameCategory();
    case (ProductName, Warehouse) => DisjointProductNameWarehouse();
    case (ProductName, Unit) => DisjointProductNameUnit();
    case (ProductName, ProductCode) => DisjointProductNameProductCode();
    case (ProductName, SupplierName) => DisjointProductNameSupplierName();
    case (ProductName, Specification) => DisjointProductNameSpecification();
    case (ProductName, Remarks) => DisjointProductNameRemarks();
    case (ProductName, EntryDate) => DisjointProductNameEntryDate();
    case (Quantity, PurchasePrice) => DisjointQuantityPurchasePrice();
    case (Quantity, SellingPrice) => DisjointQuantitySellingPrice();
    case (Quantity, Category) => DisjointQuantityCategory();
    case (Quantity, Warehouse) => DisjointQuantityWarehouse();
    case (Quantity, Unit) => DisjointQuantityUnit();
    case (Quantity, ProductCode) => DisjointQuantityProductCode();
    case (Quantity, SupplierName) => DisjointQuantitySupplierName();
    case (Quantity, Specification) => DisjointQuantitySpecification();
    case (Quantity, Remarks) => DisjointQuantityRemarks();
    case (Quantity, EntryDate) => DisjointQuantityEntryDate();
    case (PurchasePrice, SellingPrice) => DisjointPurchasePriceSellingPrice();
    case (PurchasePrice, Category) => DisjointPurchasePriceCategory();
    case (PurchasePrice, Warehouse) => DisjointPurchasePriceWarehouse();
    case (PurchasePrice, Unit) => DisjointPurchasePriceUnit();
    case (PurchasePrice, ProductCode) => DisjointPurchasePriceProductCode();
    case (PurchasePrice, SupplierName) => DisjointPurchasePriceSupplierName();
    case (PurchasePrice, Specification) => DisjointPurchasePriceSpecification();
    case (PurchasePrice, Remarks) => DisjointPurchasePriceRemarks();
    case (PurchasePrice, EntryDate) => DisjointPurchasePriceEntryDate();
    case (SellingPrice, Category) => DisjointSellingPriceCategory();
    case (SellingPrice, Warehouse) => DisjointSellingPriceWarehouse();
    case (SellingPrice, Unit) => DisjointSellingPriceUnit();
    case (SellingPrice, ProductCode) => DisjointSellingPriceProductCode();
    case (SellingPrice, SupplierName) => DisjointSellingPriceSupplierName();
    case (SellingPrice, Specification) => DisjointSellingPriceSpecification();
    case (SellingPrice, Remarks) => DisjointSellingPriceRemarks();
    case (SellingPrice, EntryDate) => DisjointSellingPriceEntryDate();
    case (Category, Warehouse) => DisjointCategoryWarehouse();
    case (Category, Unit) => DisjointCategoryUnit();
    case (Category, ProductCode) => DisjointCategoryProductCode();
    case (Category, SupplierName) => DisjointCategorySupplierName();
    case (Category, Specification) => DisjointCategorySpecification();
    case (Category, Remarks) => DisjointCategoryRemarks();
    case (Category, EntryDate) => DisjointCategoryEntryDate();
    case (Warehouse, Unit) => DisjointWarehouseUnit();
    case (Warehouse, ProductCode) => DisjointWarehouseProductCode();
    case (Warehouse, SupplierName) => DisjointWarehouseSupplierName();
    case (Warehouse, Specification) => DisjointWarehouseSpecification();
    case (Warehouse, Remarks) => DisjointWarehouseRemarks();
    case (Warehouse, EntryDate) => DisjointWarehouseEntryDate();
    case (Unit, ProductCode) => DisjointUnitProductCode();
    case (Unit, SupplierName) => DisjointUnitSupplierName();
    case (Unit, Specification) => DisjointUnitSpecification();
    case (Unit, Remarks) => DisjointUnitRemarks();
    case (Unit, EntryDate) => DisjointUnitEntryDate();
    case (ProductCode, SupplierName) => DisjointProductCodeSupplierName();
    case (ProductCode, Specification) => DisjointProductCodeSpecification();
    case (ProductCode, Remarks) => DisjointProductCodeRemarks();
    case (ProductCode, EntryDate) => DisjointProductCodeEntryDate();
    case (SupplierName, Specification) => DisjointSupplierNameSpecification();
    case (SupplierName, Remarks) => DisjointSupplierNameRemarks();
    case (SupplierName, EntryDate) => DisjointSupplierNameEntryDate();
    case (Specification, Remarks) => DisjointSpecificationRemarks();
    case (Specification, EntryDate) => DisjointSpecificationEntryDate();
    case (Remarks, EntryDate) => DisjointRemarksEntryDate();
    case _ => assert false;
  }

  lemma DisjointProductNameQuantity()
    ensures DisjointLists(Synonyms(ProductName), Synonyms(Quantity))
  {
  }

  lemma DisjointProductNamePurchasePrice()
    ensures DisjointLists(Synonyms(ProductName), Synonyms(PurchasePrice))
  {
  }

  lemma DisjointProductNameSellingPrice()
    ensures DisjointLists(Synonyms(ProductName), Synonyms(SellingPrice))
  {
    var a := Synonyms(ProductName);
    assert a == a[..4] + a[4..];
    DisjointProductNameSellingPriceHead();
    DisjointProductNameSellingPriceTail();
  }

  lemma DisjointProductNameSellingPriceHead()
    ensures DisjointLists(Synonyms(ProductName)[..4], Synonyms(SellingPrice))
  {
  }

  lemma DisjointProductNameSellingPriceTail()
    ensures DisjointLists(Synonyms(ProductName)[4..], Synonyms(SellingPrice))
  {
  }

  lemma DisjointProductNameCategory()
    ensures DisjointLists(Synonyms(ProductName), Synonyms(Category))
  {
  }

  lemma DisjointProductNameWarehouse()
    ensures DisjointLists(Synonyms(ProductName), Synonyms(Warehouse))
  {
  }

  lemma DisjointProductNameUnit()
    ensures DisjointLists(Synonyms(ProductName), Synonyms(Unit))
  {
  }

  lemma DisjointProductNameProductCode()
    ensures DisjointLists(Synonyms(ProductName), Synonyms(ProductCode))
  {
  }

  lemma DisjointProductNameSupplierName()
    ensures DisjointLists(Synonyms(ProductName), Synonyms(SupplierName))
  {
  }

  lemma DisjointProductNameSpecification()
    ensures DisjointLists(Synonyms(ProductName), Synonyms(Specification))
  {
  }

  lemma DisjointProductNameRemarks()
    ensures DisjointLists(Synonyms(ProductName), Synonyms(Remarks))
  {
  }

  lemma DisjointProductNameEntryDate()
    ensures DisjointLists(Synonyms(ProductName), Synonyms(EntryDate))
  {
  }

  lemma DisjointQuantityPurchasePrice()
    ensures DisjointLists(Synonyms(Quantity), Synonyms(PurchasePrice))
  {
  }

  lemma DisjointQuantitySellingPrice()
    ensures DisjointLists(Synonyms(Quantity), Synonyms(SellingPrice))
  {
  }

  lemma DisjointQuantityCategory()
    ensures DisjointLists(Synonyms(Quantity), Synonyms(Category))
  {
  }

  lemma DisjointQuantityWarehouse()
    ensures DisjointLists(Synonyms(Quantity), Synonyms(Warehouse))
  {
  }

  lemma DisjointQuantityUnit()
    ensures DisjointLists(Synonyms(Quantity), Synonyms(Unit))
  {
  }

  lemma DisjointQuantityProductCode()
    ensures DisjointLists(Synonyms(Quantity), Synonyms(ProductCode))
  {
  }

  lemma DisjointQuantitySupplierName()
    ensures DisjointLists(Synonyms(Quantity), Synonyms(SupplierName))
  {
  }

  lemma DisjointQuantitySpecification()
    ensures DisjointLists(Synonyms(Quantity), Synonyms(Specification))
  {
  }

  lemma DisjointQuantityRemarks()
    ensures DisjointLists(Synonyms(Quantity), Synonyms(Remarks))
  {
  }

  lemma DisjointQuantityEntryDate()
    ensures DisjointLists(Synonyms(Quantity), Synonyms(EntryDate))
  {
  }

  lemma DisjointPurchasePriceSellingPrice()
    ensures DisjointLists(Synonyms(PurchasePrice), Synonyms(SellingPrice))
  {
  }

  lemma DisjointPurchasePriceCategory()
    ensures DisjointLists(Synonyms(PurchasePrice), Synonyms(Category))
  {
  }

  lemma DisjointPurchasePriceWarehouse()
    ensures DisjointLists(Synonyms(PurchasePrice), Synonyms(Warehouse))
  {
  }

  lemma DisjointPurchasePriceUnit()
    ensures DisjointLists(Synonyms(PurchasePrice), Synonyms(Unit))
  {
  }

  lemma DisjointPurchasePriceProductCode()
    ensures DisjointLists(Synonyms(PurchasePrice), Synonyms(ProductCode))
  {
  }

  lemma DisjointPurchasePriceSupplierName()
    ensures DisjointLists(Synonyms(PurchasePrice), Synonyms(SupplierName))
  {
  }

  lemma DisjointPurchasePriceSpecification()
    ensures DisjointLists(Synonyms(PurchasePrice), Synonyms(Specification))
  {
  }

  lemma DisjointPurchasePriceRemarks()
    ensures DisjointLists(Synonyms(PurchasePrice), Synonyms(Remarks))
  {
  }

  lemma DisjointPurchasePriceEntryDate()
    ensures DisjointLists(Synonyms(PurchasePrice), Synonyms(EntryDate))
  {
  }

  lemma DisjointSellingPriceCategory()
    ensures DisjointLists(Synonyms(SellingPrice), Synonyms(Category))
  {
  }

  lemma DisjointSellingPriceWarehouse()
    ensures DisjointLists(Synonyms(SellingPrice), Synonyms(Warehouse))
  {
  }

  lemma DisjointSellingPriceUnit()
    ensures DisjointLists(Synonyms(SellingPrice), Synonyms(Unit))
  {
  }

  lemma DisjointSellingPriceProductCode()
    ensures DisjointLists(Synonyms(SellingPrice), Synonyms(ProductCode))
  {
  }

  lemma DisjointSellingPriceSupplierName()
    ensures DisjointLists(Synonyms(SellingPrice), Synonyms(SupplierName))
  {
  }

  lemma DisjointSellingPriceSpecification()
    ensures DisjointLists(Synonyms(SellingPrice), Synonyms(Specification))
  {
  }

  lemma DisjointSellingPriceRemarks()
    ensures DisjointLists(Synonyms(SellingPrice), Synonyms(Remarks))
  {
  }

  lemma DisjointSellingPriceEntryDate()
    ensures DisjointLists(Synonyms(SellingPrice), Synonyms(EntryDate))
  {
  }

  lemma DisjointCategoryWarehouse()
    ensures DisjointLists(Synonyms(Category), Synonyms(Warehouse))
  {
  }

  lemma DisjointCategoryUnit()
    ensures DisjointLists(Synonyms(Category), Synonyms(Unit))
  {
  }

  lemma DisjointCategoryProductCode()
    ensures DisjointLists(Synonyms(Category), Synonyms(ProductCode))
  {
  }

  lemma DisjointCategorySupplierName()
    ensures DisjointLists(Synonyms(Category), Synonyms(SupplierName))
  {
  }

  lemma DisjointCategorySpecification()
    ensures DisjointLists(Synonyms(Category), Synonyms(Specification))
  {
  }

  lemma DisjointCategoryRemarks()
    ensures DisjointLists(Synonyms(Category), Synonyms(Remarks))
  {
  }

  lemma DisjointCategoryEntryDate()
    ensures DisjointLists(Synonyms(Category), Synonyms(EntryDate))
  {
  }

  lemma DisjointWarehouseUnit()
    ensures DisjointLists(Synonyms(Warehouse), Synonyms(Unit))
  {
  }

  lemma DisjointWarehouseProductCode()
    ensures DisjointLists(Synonyms(Warehouse), Synonyms(ProductCode))
  {
  }

  lemma DisjointWarehouseSupplierName()
    ensures DisjointLists(Synonyms(Warehouse), Synonyms(SupplierName))
  {
  }

  lemma DisjointWarehouseSpecification()
    ensures DisjointLists(Synonyms(Warehouse), Synonyms(Specification))
  {
  }

  lemma DisjointWarehouseRemarks()
    ensures DisjointLists(Synonyms(Warehouse), Synonyms(Remarks))
  {
  }

  lemma DisjointWarehouseEntryDate()
    ensures DisjointLists(Synonyms(Warehouse), Synonyms(EntryDate))
  {
  }

  lemma DisjointUnitProductCode()
    ensures DisjointLists(Synonyms(Unit), Synonyms(ProductCode))
  {
  }

  lemma DisjointUnitSupplierName()
    ensures DisjointLists(Synonyms(Unit), Synonyms(SupplierName))
  {
  }

  lemma DisjointUnitSpecification()
    ensures DisjointLists(Synonyms(Unit), Synonyms(Specification))
  {
  }

  lemma DisjointUnitRemarks()
    ensures DisjointLists(Synonyms(Unit), Synonyms(Remarks))
  {
  }

  lemma DisjointUnitEntryDate()
    ensures DisjointLists(Synonyms(Unit), Synonyms(EntryDate))
  {
  }

  lemma DisjointProductCodeSupplierName()
    ensures DisjointLists(Synonyms(ProductCode), Synonyms(SupplierName))
  {
  }

  lemma DisjointProductCodeSpecification()
    ensures DisjointLists(Synonyms(ProductCode), Synonyms(Specification))
  {
  }

  lemma DisjointProductCodeRemarks()
    ensures DisjointLists(Synonyms(ProductCode), Synonyms(Remarks))
  {
  }

  lemma DisjointProductCodeEntryDate()
    ensures DisjointLists(Synonyms(ProductCode), Synonyms(EntryDate))
  {
  }

  lemma DisjointSupplierNameSpecification()
    ensures DisjointLists(Synonyms(SupplierName), Synonyms(Specification))
  {
  }

  lemma DisjointSupplierNameRemarks()
    ensures DisjointLists(Synonyms(SupplierName), Synonyms(Remarks))
  {
  }

  lemma DisjointSupplierNameEntryDate()
    ensures DisjointLists(Synonyms(SupplierName), Synonyms(EntryDate))
  {
  }

  lemma DisjointSpecificationRemarks()
    ensures DisjointLists(Synonyms(Specification), Synonyms(Remarks))
  {
  }

  lemma DisjointSpecificationEntryDate()
    ensures DisjointLists(Synonyms(Specification), Synonyms(EntryDate))
  {
  }

  lemma DisjointRemarksEntryDate()
    ensures DisjointLists(Synonyms(Remarks), Synonyms(EntryDate))
  {
  }
}
