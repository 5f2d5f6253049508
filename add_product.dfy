/** The add-product page (src/pages/AddProduct.tsx): the form's validation schema, the automatic
    selling price, and the payload it posts. The edit page uses the same schema. */
module AddProduct {
  import opened Wrappers
  import opened Text
  import opened JsValues
  import opened Dates

  /** The form's fields as the schema receives them. `z.coerce.number()` and `z.coerce.string()`
      first apply `Number` and `String`, so those fields are held already converted (`None` is
      NaN); the `z.string()` fields keep whatever value the form holds. */
  datatype FormInput = FormInput(
    productName: JsValue,
    specification: JsValue,
    category: string,
    supplier: string,
    purchasePrice: Option<real>,
    sellingPrice: Option<real>,
    quantity: Option<real>,
    iva: Option<real>,
    margin: Option<real>,
    eanCode: JsValue,
    shortCode: JsValue,
    familyCode: JsValue,
    unit: string,
    warehouse: string,
    entryDate: Option<CalendarDate>,
    remarks: JsValue)

  /** The values a valid form hands to `onSubmit`. */
  datatype FormValues = FormValues(
    productName: string,
    specification: string,
    category: string,
    supplier: string,
    purchasePrice: real,
    sellingPrice: real,
    quantity: real,
    iva: real,
    margin: real,
    eanCode: string,
    shortCode: string,
    familyCode: string,
    unit: string,
    warehouse: string,
    entryDate: CalendarDate,
    remarks: string)

  datatype Field =
    | ProductNameField | SpecificationField | CategoryField | SupplierField
    | PurchasePriceField | SellingPriceField | QuantityField | IvaField | MarginField
    | EanCodeField | ShortCodeField | FamilyCodeField | UnitField | WarehouseField
    | EntryDateField | RemarksField

  /** `z.string().min(1)`: a string of at least one character. */
  predicate RequiredText(v: JsValue) { v.Str? && |v.s| >= 1 }

  /** `z.coerce.string().min(1)`. */
  predicate RequiredCoerced(s: string) { |s| >= 1 }

  /** `z.coerce.number().positive()`: NaN fails. */
  predicate Positive(x: Option<real>) { x.Some? && x.value > 0.0 }

  /** `z.coerce.number().int().positive()`. */
  predicate PositiveInteger(x: Option<real>) { Positive(x) && (x.value).Floor as real == x.value }

  /** `z.coerce.number().min(0)`. */
  predicate NonNegative(x: Option<real>) { x.Some? && x.value >= 0.0 }

  /** The schema's rule for one field. */
  predicate Passes(input: FormInput, f: Field) {
    match f
    case ProductNameField => RequiredText(input.productName)
    case SpecificationField => RequiredText(input.specification)
    case CategoryField => RequiredCoerced(input.category)
    case SupplierField => RequiredCoerced(input.supplier)
    case PurchasePriceField => Positive(input.purchasePrice)
    case SellingPriceField => Positive(input.sellingPrice)
    case QuantityField => PositiveInteger(input.quantity)
    case IvaField => NonNegative(input.iva)
    case MarginField => NonNegative(input.margin)
    case EanCodeField => RequiredText(input.eanCode)
    case ShortCodeField => RequiredText(input.shortCode)
    case FamilyCodeField => RequiredText(input.familyCode)
    case UnitField => RequiredCoerced(input.unit)
    case WarehouseField => RequiredCoerced(input.warehouse)
    case EntryDateField => input.entryDate.Some?
    case RemarksField => RequiredText(input.remarks)
  }

  /** Every rule of the schema passes. */
  predicate Valid(input: FormInput) {
    RequiredText(input.productName) && RequiredText(input.specification)
    && RequiredCoerced(input.category) && RequiredCoerced(input.supplier)
    && Positive(input.purchasePrice) && Positive(input.sellingPrice) && PositiveInteger(input.quantity)
    && NonNegative(input.iva) && NonNegative(input.margin)
    && RequiredText(input.eanCode) && RequiredText(input.shortCode) && RequiredText(input.familyCode)
    && RequiredCoerced(input.unit) && RequiredCoerced(input.warehouse)
    && input.entryDate.Some? && RequiredText(input.remarks)
  }

  function Check(input: FormInput, f: Field): seq<Field> {
    if Passes(input, f) then [] else [f]
  }

  /** The schema's fields, in four groups: what the product is, how it is priced and stocked,
      its codes, and where and when it is placed. */
  const NamingFields: set<Field> := {ProductNameField, SpecificationField, CategoryField, SupplierField}
  const PricingFields: set<Field> := {PurchasePriceField, SellingPriceField, QuantityField, IvaField, MarginField}
  const CodeFields: set<Field> := {EanCodeField, ShortCodeField, FamilyCodeField}
  const PlacementFields: set<Field> := {UnitField, WarehouseField, EntryDateField, RemarksField}

  function NamingIssues(input: FormInput): seq<Field> {
    Check(input, ProductNameField) + Check(input, SpecificationField) + Check(input, CategoryField)
    + Check(input, SupplierField)
  }

  function PricingIssues(input: FormInput): seq<Field> {
    Check(input, PurchasePriceField) + Check(input, SellingPriceField) + Check(input, QuantityField)
    + Check(input, IvaField) + Check(input, MarginField)
  }

  function CodeIssues(input: FormInput): seq<Field> {
    Check(input, EanCodeField) + Check(input, ShortCodeField) + Check(input, FamilyCodeField)
  }

  function PlacementIssues(input: FormInput): seq<Field> {
    Check(input, UnitField) + Check(input, WarehouseField) + Check(input, EntryDateField)
    + Check(input, RemarksField)
  }

  /** The fields the schema reports, in schema order. */
  function Issues(input: FormInput): seq<Field> {
    NamingIssues(input) + PricingIssues(input) + CodeIssues(input) + PlacementIssues(input)
  }

  lemma NamingIssuesReport(input: FormInput, f: Field)
    ensures f in NamingIssues(input) <==> f in NamingFields && !Passes(input, f)
  {
  }

  lemma PricingIssuesReport(input: FormInput, f: Field)
    ensures f in PricingIssues(input) <==> f in PricingFields && !Passes(input, f)
  {
  }

  lemma CodeIssuesReport(input: FormInput, f: Field)
    ensures f in CodeIssues(input) <==> f in CodeFields && !Passes(input, f)
  {
  }

  lemma PlacementIssuesReport(input: FormInput, f: Field)
    ensures f in PlacementIssues(input) <==> f in PlacementFields && !Passes(input, f)
  {
  }

  /** A field is reported exactly when its rule fails. */
  lemma IssuesReportFailures(input: FormInput, f: Field)
    ensures f in Issues(input) <==> !Passes(input, f)
  {
    NamingIssuesReport(input, f);
    PricingIssuesReport(input, f);
    CodeIssuesReport(input, f);
    PlacementIssuesReport(input, f);
    assert f in NamingFields + PricingFields + CodeFields + PlacementFields by {
      match f
      case ProductNameField =>
      case SpecificationField =>
      case CategoryField =>
      case SupplierField =>
      case PurchasePriceField =>
      case SellingPriceField =>
      case QuantityField =>
      case IvaField =>
      case MarginField =>
      case EanCodeField =>
      case ShortCodeField =>
      case FamilyCodeField =>
      case UnitField =>
      case WarehouseField =>
      case EntryDateField =>
      case RemarksField =>
    }
  }

  /** A group reports nothing exactly when each of its rules passes. */
  lemma NamingEmpty(input: FormInput)
    ensures NamingIssues(input) == [] <==>
      (RequiredText(input.productName) && RequiredText(input.specification)
       && RequiredCoerced(input.category) && RequiredCoerced(input.supplier))
  {
  }

  lemma PricingEmpty(input: FormInput)
    ensures PricingIssues(input) == [] <==>
      (Positive(input.purchasePrice) && Positive(input.sellingPrice) && PositiveInteger(input.quantity)
       && NonNegative(input.iva) && NonNegative(input.margin))
  {
  }

  lemma CodeEmpty(input: FormInput)
    ensures CodeIssues(input) == [] <==>
      (RequiredText(input.eanCode) && RequiredText(input.shortCode) && RequiredText(input.familyCode))
  {
  }

  lemma PlacementEmpty(input: FormInput)
    ensures PlacementIssues(input) == [] <==>
      (RequiredCoerced(input.unit) && RequiredCoerced(input.warehouse)
       && input.entryDate.Some? && RequiredText(input.remarks))
  {
  }

  /** No issue is reported exactly when the whole schema passes. */
  lemma NoIssuesIffValid(input: FormInput)
    ensures Issues(input) == [] <==> Valid(input)
  {
    NamingEmpty(input);
    PricingEmpty(input);
    CodeEmpty(input);
    PlacementEmpty(input);
    assert Issues(input) == [] <==>
      NamingIssues(input) == [] && PricingIssues(input) == [] && CodeIssues(input) == [] && PlacementIssues(input) == [];
  }

  /** The schema's parse: the converted values when every rule passes. */
  function Validate(input: FormInput): (r: Option<FormValues>)
    ensures r.Some? <==> Valid(input)
    ensures r.Some? ==> (r.value.productName == input.productName.s && r.value.specification == input.specification.s
      && r.value.category == input.category && r.value.supplier == input.supplier)
    ensures r.Some? ==> (r.value.purchasePrice == input.purchasePrice.value && r.value.sellingPrice == input.sellingPrice.value
      && r.value.quantity == input.quantity.value && r.value.iva == input.iva.value && r.value.margin == input.margin.value)
    ensures r.Some? ==> (r.value.eanCode == input.eanCode.s && r.value.shortCode == input.shortCode.s
      && r.value.familyCode == input.familyCode.s)
    ensures r.Some? ==> (r.value.unit == input.unit && r.value.warehouse == input.warehouse
      && r.value.entryDate == input.entryDate.value && r.value.remarks == input.remarks.s)
  {
    if !Valid(input) then None
    else
      Some(FormValues(
        input.productName.s, input.specification.s, input.category, input.supplier,
        input.purchasePrice.value, input.sellingPrice.value, input.quantity.value,
        input.iva.value, input.margin.value,
        input.eanCode.s, input.shortCode.s, input.familyCode.s,
        input.unit, input.warehouse, input.entryDate.value, input.remarks.s))
  }

  /** A valid form has positive prices, a positive whole quantity, and no negative IVA or margin. */
  lemma ValidValues(input: FormInput)
    requires Validate(input).Some?
    ensures var v := Validate(input).value;
      v.purchasePrice > 0.0 && v.sellingPrice > 0.0 && v.quantity > 0.0 && (v.quantity).Floor as real == v.quantity
      && v.iva >= 0.0 && v.margin >= 0.0
      && |v.productName| >= 1 && |v.eanCode| >= 1 && |v.unit| >= 1
  {
  }

  /** The form's initial values (the entry date is "now", given). */
  function Defaults(now: CalendarDate): FormInput {
    FormInput(Str(""), Str(""), "", "", Some(1.0), Some(1.0), Some(1.0), Some(0.0), Some(0.0),
      Str(""), Str(""), Str(""), "", "", Some(now), Str(""))
  }

  /** A form whose text fields are all blank and which has an entry date reports every required
      text field, in schema order; what it reports on prices depends on their values. */
  lemma BlankTextIssues(f: FormInput)
    requires f.productName == f.specification == f.eanCode == f.shortCode == f.familyCode == f.remarks == Str("")
    requires f.category == f.supplier == f.unit == f.warehouse == "" && f.entryDate.Some?
    ensures NamingIssues(f) == [ProductNameField, SpecificationField, CategoryField, SupplierField]
    ensures CodeIssues(f) == [EanCodeField, ShortCodeField, FamilyCodeField]
    ensures PlacementIssues(f) == [UnitField, WarehouseField, RemarksField]
  {
  }

  /** Submitting the untouched form reports exactly the ten required text fields. */
  lemma DefaultsIssues(now: CalendarDate)
    ensures Issues(Defaults(now)) == [
      ProductNameField, SpecificationField, CategoryField, SupplierField,
      EanCodeField, ShortCodeField, FamilyCodeField, UnitField, WarehouseField, RemarksField]
  {
    var d := Defaults(now);
    assert Passes(d, QuantityField) by {
      assert (1.0).Floor == 1;
    }
    BlankTextIssues(d);
    assert PricingIssues(d) == [];
  }

  /** `Number(x) || 0`. */
  function NumberOrZero(x: Option<real>): real {
    OrZero(x)
  }

  /** The selling price the effect computes: the purchase price plus its IVA and margin
      percentages, each input counting as 0 when it is not a number. */
  function AutoSellingPrice(purchasePrice: Option<real>, iva: Option<real>, margin: Option<real>): (p: real)
    ensures p == NumberOrZero(purchasePrice) * (1.0 + NumberOrZero(iva) / 100.0 + NumberOrZero(margin) / 100.0)
  {
    var base := NumberOrZero(purchasePrice);
    var tax := base * (NumberOrZero(iva) / 100.0);
    var marginn := base * (NumberOrZero(margin) / 100.0);
    base + tax + marginn
  }

  /** The effect: a positive computed price, rounded to cents by `parseFloat(toFixed(2))`,
      overwrites the selling price field; otherwise the field is left alone. */
  function SellingPriceAfter(current: Option<real>, purchasePrice: Option<real>, iva: Option<real>, margin: Option<real>): (r: Option<real>)
    ensures AutoSellingPrice(purchasePrice, iva, margin) > 0.0 ==> r == Some(RoundToCents(AutoSellingPrice(purchasePrice, iva, margin)))
    ensures AutoSellingPrice(purchasePrice, iva, margin) <= 0.0 ==> r == current
    ensures r != current ==> r.Some? && -0.005 <= r.value - AutoSellingPrice(purchasePrice, iva, margin) <= 0.005
  {
    var p := AutoSellingPrice(purchasePrice, iva, margin);
    if p > 0.0 then Some(RoundToCents(p)) else current
  }

  /** With no IVA and no margin the selling price is the purchase price, when that price is a
      whole number of cents. */
  lemma NoMarkupKeepsPurchasePrice(current: Option<real>, cents: int)
    requires cents > 0
    ensures SellingPriceAfter(current, Some(cents as real / 100.0), Some(0.0), Some(0.0)) == Some(cents as real / 100.0)
  {
    var price := cents as real / 100.0;
    assert AutoSellingPrice(Some(price), Some(0.0), Some(0.0)) == price;
    RoundToCentsKeepsCents(cents);
  }

  /** A positive purchase price in whole cents with non-negative (or non-numeric) IVA and margin
      always sets a selling price of at least the purchase price. */
  lemma MarkupNeverLowers(current: Option<real>, cents: int, iva: Option<real>, margin: Option<real>)
    requires cents > 0
    requires iva.None? || iva.value >= 0.0
    requires margin.None? || margin.value >= 0.0
    ensures SellingPriceAfter(current, Some(cents as real / 100.0), iva, margin).Some?
    ensures SellingPriceAfter(current, Some(cents as real / 100.0), iva, margin).value >= cents as real / 100.0
  {
    var price := cents as real / 100.0;
    var k := 1.0 + NumberOrZero(iva) / 100.0 + NumberOrZero(margin) / 100.0;
    assert k >= 1.0;
    var p := AutoSellingPrice(Some(price), iva, margin);
    assert p == price * k;
    ScaleUp(price, k);
    assert p >= price;
    RoundingKeepsCentsFloor(p, cents);
    var r := SellingPriceAfter(current, Some(price), iva, margin);
    assert r == Some(RoundToCents(p));
  }

  lemma ScaleUp(a: real, k: real)
    requires a > 0.0 && k >= 1.0
    ensures a * k >= a
  {
    assert a * k - a == a * (k - 1.0);
  }

  /** Rounding to cents never takes an amount below a whole-cent amount it reaches. */
  lemma RoundingKeepsCentsFloor(x: real, cents: int)
    requires x >= cents as real / 100.0
    ensures RoundToCents(x) >= cents as real / 100.0
  {
    var r := RoundToCents(x);
    var m := (r * 100.0).Floor;
    assert m as real == r * 100.0;
    assert r * 100.0 >= x * 100.0 - 0.5;
    assert x * 100.0 >= cents as real;
    assert m >= cents;
    assert r == m as real / 100.0;
  }

  /** The rounding lowers a purchase price that is not in whole cents: 1.004 with no IVA and no
      margin becomes 1.00, below what was paid. */
  lemma SubCentPriceLowered(current: Option<real>)
    ensures SellingPriceAfter(current, Some(1.004), Some(0.0), Some(0.0)) == Some(1.0)
  {
    var p := AutoSellingPrice(Some(1.004), Some(0.0), Some(0.0));
    assert p == 1.004;
    var r := RoundToCents(p);
    var m := (r * 100.0).Floor;
    assert m as real == r * 100.0;
    assert 99.9 <= r * 100.0 <= 100.9;
    assert m == 100;
  }

  /** A purchase price under half a cent sets a selling price of 0. */
  lemma TinyPriceRoundedToZero(current: Option<real>)
    ensures SellingPriceAfter(current, Some(0.004), Some(0.0), Some(0.0)) == Some(0.0)
  {
    var p := AutoSellingPrice(Some(0.004), Some(0.0), Some(0.0));
    assert p == 0.004;
    var r := RoundToCents(p);
    var m := (r * 100.0).Floor;
    assert m as real == r * 100.0;
    assert 0.0 <= r * 100.0 <= 0.9;
    assert m == 0;
  }

  /** A non-numeric or zero purchase price never touches the selling price. */
  lemma NoBaseNoChange(current: Option<real>, purchasePrice: Option<real>, iva: Option<real>, margin: Option<real>)
    requires NumberOrZero(purchasePrice) == 0.0
    ensures SellingPriceAfter(current, purchasePrice, iva, margin) == current
  {
  }

  /** A value of the posted JSON. */
  datatype PayloadValue = PText(s: string) | PNumber(r: real) | PNull

  type Payload = seq<(string, PayloadValue)>

  /** The service's names for the posted fields after `action`, in payload order. */
  const FieldKeys: seq<string> := ["productName", "specification", "Category_ID", "Supplier_ID",
    "purchasePrice", "sellingPrice", "quantity", "IVA", "EAN_Code", "Short_Code", "Product_Family_Code",
    "Unit_Id", "Warehouse_Id", "Margin", "entryDate", "remarks"]

  /** The form's values in the same order, the date formatted as `yyyy-MM-dd`. */
  function FieldValues(v: FormValues): (vals: seq<PayloadValue>)
    ensures |vals| == |FieldKeys|
  {
    [PText(v.productName), PText(v.specification), PText(v.category), PText(v.supplier),
     PNumber(v.purchasePrice), PNumber(v.sellingPrice), PNumber(v.quantity), PNumber(v.iva),
     PText(v.eanCode), PText(v.shortCode), PText(v.familyCode), PText(v.unit), PText(v.warehouse),
     PNumber(v.margin), PText(FormatYmd(v.entryDate)), PText(v.remarks)]
  }

  /** Names paired with values position by position, as an object literal lists them. */
  function Keyed(keys: seq<string>, vals: seq<PayloadValue>): (p: Payload)
    requires |keys| == |vals|
    ensures |p| == |keys| && forall i :: 0 <= i < |p| ==> p[i] == (keys[i], vals[i])
  {
    seq(|keys|, i requires 0 <= i < |keys| => (keys[i], vals[i]))
  }

  /** The payload's fields after `action`, in order, with the form's renames. */
  function ProductFields(v: FormValues): Payload {
    Keyed(FieldKeys, FieldValues(v))
  }

  /** `onSubmit`'s payload. */
  function AddPayload(v: FormValues): (p: Payload)
    ensures |p| == 17 && p[0] == ("action", PText("product"))
    ensures forall i :: 1 <= i < |p| ==> p[i] == (FieldKeys[i - 1], FieldValues(v)[i - 1])
  {
    [("action", PText("product"))] + ProductFields(v)
  }

  /** `payload[key]`: the first entry under `key`. */
  function Lookup(p: Payload, key: string): Option<PayloadValue> {
    if p == [] then None else if p[0].0 == key then Some(p[0].1) else Lookup(p[1..], key)
  }

  /** A key's first entry is what `Lookup` finds. */
  lemma {:induction false} LookupAt(p: Payload, key: string, i: nat)
    requires i < |p| && p[i].0 == key
    requires forall j :: 0 <= j < i ==> p[j].0 != key
    ensures Lookup(p, key) == Some(p[i].1)
  {
    if i > 0 {
      LookupAt(p[1..], key, i - 1);
    }
  }

  lemma {:induction false} LookupMissing(p: Payload, key: string)
    requires forall j :: 0 <= j < |p| ==> p[j].0 != key
    ensures Lookup(p, key) == None
  {
    if p != [] {
      LookupMissing(p[1..], key);
    }
  }

  /** An entry inserted after the first one hides no other key. */
  lemma LookupSkip(first: (string, PayloadValue), inserted: (string, PayloadValue), rest: Payload, key: string)
    requires key != inserted.0
    ensures Lookup([first, inserted] + rest, key) == Lookup([first] + rest, key)
  {
    assert ([first, inserted] + rest)[1..] == [inserted] + rest;
    assert ([inserted] + rest)[1..] == rest;
    assert ([first] + rest)[1..] == rest;
  }

  /** No service name occurs twice, and none is `action`. */
  lemma FieldKeysDistinct()
    ensures forall i, j :: 0 <= i < j < |FieldKeys| ==> FieldKeys[i] != FieldKeys[j]
    ensures forall i :: 0 <= i < |FieldKeys| ==> FieldKeys[i] != "action"
  {
  }

  /** In a payload of `action` followed by the service names paired with any values, each
      name reads its own value. */
  lemma FieldLookup(vals: seq<PayloadValue>, i: nat)
    requires |vals| == |FieldKeys| && i < |vals|
    ensures Lookup([("action", PText("product"))] + Keyed(FieldKeys, vals), FieldKeys[i]) == Some(vals[i])
  {
    FieldKeysDistinct();
    LookupAt([("action", PText("product"))] + Keyed(FieldKeys, vals), FieldKeys[i], i + 1);
  }

  /** The names, the category and the supplier are posted as `productName`, `specification`,
      `Category_ID` and `Supplier_ID`. */
  lemma AddPayloadNaming(v: FormValues)
    ensures var p := AddPayload(v);
      Lookup(p, "productName") == Some(PText(v.productName))
      && Lookup(p, "specification") == Some(PText(v.specification))
      && Lookup(p, "Category_ID") == Some(PText(v.category))
      && Lookup(p, "Supplier_ID") == Some(PText(v.supplier))
  {
    var vals := FieldValues(v);
    FieldLookup(vals, 0);
    FieldLookup(vals, 1);
    FieldLookup(vals, 2);
    FieldLookup(vals, 3);
  }

  /** The prices and the quantity are posted as numbers under their own names, the two rates
      as `IVA` and `Margin`. */
  lemma AddPayloadPricing(v: FormValues)
    ensures var p := AddPayload(v);
      Lookup(p, "purchasePrice") == Some(PNumber(v.purchasePrice))
      && Lookup(p, "sellingPrice") == Some(PNumber(v.sellingPrice))
      && Lookup(p, "quantity") == Some(PNumber(v.quantity))
      && Lookup(p, "IVA") == Some(PNumber(v.iva))
      && Lookup(p, "Margin") == Some(PNumber(v.margin))
  {
    var vals := FieldValues(v);
    FieldLookup(vals, 4);
    FieldLookup(vals, 5);
    FieldLookup(vals, 6);
    FieldLookup(vals, 7);
    FieldLookup(vals, 13);
  }

  /** The three codes are posted as `EAN_Code`, `Short_Code` and `Product_Family_Code`. */
  lemma AddPayloadCodes(v: FormValues)
    ensures var p := AddPayload(v);
      Lookup(p, "EAN_Code") == Some(PText(v.eanCode))
      && Lookup(p, "Short_Code") == Some(PText(v.shortCode))
      && Lookup(p, "Product_Family_Code") == Some(PText(v.familyCode))
  {
    var vals := FieldValues(v);
    FieldLookup(vals, 8);
    FieldLookup(vals, 9);
    FieldLookup(vals, 10);
  }

  /** The unit and warehouse are posted as `Unit_Id` and `Warehouse_Id`, the remark as
      `remarks` and the date as `yyyy-MM-dd` text. */
  lemma AddPayloadPlacement(v: FormValues)
    ensures var p := AddPayload(v);
      Lookup(p, "Unit_Id") == Some(PText(v.unit))
      && Lookup(p, "Warehouse_Id") == Some(PText(v.warehouse))
      && Lookup(p, "entryDate") == Some(PText(FormatYmd(v.entryDate)))
      && Lookup(p, "remarks") == Some(PText(v.remarks))
  {
    var vals := FieldValues(v);
    FieldLookup(vals, 11);
    FieldLookup(vals, 12);
    FieldLookup(vals, 14);
    FieldLookup(vals, 15);
  }

  /** The payload names no field outside the service's list. */
  lemma AddPayloadOnlyKnownKeys(v: FormValues, key: string)
    requires key != "action" && key !in FieldKeys
    ensures Lookup(AddPayload(v), key) == None
  {
    LookupMissing(AddPayload(v), key);
  }

}
