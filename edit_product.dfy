/** The edit-product page (src/pages/EditProduct.tsx): the same schema as the add page, the
    record fetched for editing and how it is loaded into the form, and the payload it posts. */
module EditProduct {
  import opened Wrappers
  import opened Text
  import opened JsValues
  import opened Records
  import opened Dates
  import opened AddProduct

  /** `nonEmptyString`: a string or a number, turned into its text, which must not trim to
      nothing. */
  function NonEmptyString(v: JsValue): (r: Option<string>)
    ensures r.Some? ==> (v.Str? || v.Num?) && r.value == ToStr(v)
  {
    if (v.Str? || v.Num?) && Trim(ToStr(v)) != "" then Some(ToStr(v)) else None
  }

  /** A string is refused exactly when it is all whitespace, a number never, anything else always. */
  lemma NonEmptyStringAccepts(v: JsValue)
    ensures v.Str? ==> (NonEmptyString(v).None? <==> forall i :: 0 <= i < |v.s| ==> IsWhitespace(v.s[i]))
    ensures v.Num? ==> NonEmptyString(v) == Some(ToStr(v))
    ensures !v.Str? && !v.Num? ==> NonEmptyString(v).None?
  {
    TrimBlank(ToStr(v));
    if v.Num? {
      NumberTextVisible(v.mantissa, v.exponent);
    }
  }

  /** The edit form's initial values: unlike the add page, prices and quantity start at 0. */
  function EditDefaults(now: CalendarDate): FormInput {
    FormInput(Str(""), Str(""), "", "", Some(0.0), Some(0.0), Some(0.0), Some(0.0), Some(0.0),
      Str(""), Str(""), Str(""), "", "", Some(now), Str(""))
  }

  /** Submitting the untouched edit form also reports both prices and the quantity. */
  lemma EditDefaultsIssues(now: CalendarDate)
    ensures Issues(EditDefaults(now)) == [
      ProductNameField, SpecificationField, CategoryField, SupplierField,
      PurchasePriceField, SellingPriceField, QuantityField,
      EanCodeField, ShortCodeField, FamilyCodeField, UnitField, WarehouseField, RemarksField]
  {
    var d := EditDefaults(now);
    BlankTextIssues(d);
    assert PricingIssues(d) == [PurchasePriceField, SellingPriceField, QuantityField];
  }

  /** `json.data` of the product fetch: an array of records, one record, or nothing. */
  datatype ResponseData = ArrayData(rows: seq<Record>) | ObjectData(record: Record) | NoData

  /** `Array.isArray(data) ? data[0] : data`; `None` is `undefined`/`null`, on which the load
      throws. */
  function FetchedProduct(data: ResponseData): (r: Option<Record>)
    ensures data.ArrayData? ==> (r.Some? <==> |data.rows| > 0) && (r.Some? ==> r.value == data.rows[0])
    ensures data.ObjectData? ==> r == Some(data.record)
    ensures data.NoData? ==> r.None?
  {
    match data
    case ArrayData(rows) => if |rows| > 0 then Some(rows[0]) else None
    case ObjectData(record) => Some(record)
    case NoData => None
  }

  /** `value || ""`. */
  function OrEmpty(v: JsValue): (r: JsValue)
    ensures Truthy(v) ==> r == v
    ensures !Truthy(v) ==> r == Str("")
  {
    if Truthy(v) then v else Str("")
  }

  /** A field loaded through `|| ""` passes `min(1)` exactly when the record holds a non-empty string. */
  lemma OrEmptyRequired(v: JsValue)
    ensures RequiredText(OrEmpty(v)) <==> v.Str? && v.s != ""
  {
  }

  /** `form.reset`: the record's fields under the form's names; `entryDate` is the parse of the
      record's `entryDate` (`None` when it is an invalid date). */
  function Reset(prod: Record, entryDate: Option<CalendarDate>): (f: FormInput)
    ensures f.productName == Get(prod, "productName") && f.specification == Get(prod, "specification")
    ensures f.category == ToStr(Get(prod, "Category_ID")) && f.supplier == ToStr(Get(prod, "Supplier_ID"))
    ensures f.unit == ToStr(Get(prod, "Unit_Id")) && f.warehouse == ToStr(Get(prod, "Warehouse_Id"))
    ensures f.purchasePrice == ToNumber(Get(prod, "purchasePrice")) && f.sellingPrice == ToNumber(Get(prod, "sellingPrice"))
    ensures f.quantity == ToNumber(Get(prod, "quantity"))
    ensures f.iva == Some(OrZero(ToNumber(Get(prod, "IVA/Tax")))) && f.margin == Some(OrZero(ToNumber(Get(prod, "Margin"))))
    ensures f.eanCode == OrEmpty(Get(prod, "EAN_Code")) && f.shortCode == OrEmpty(Get(prod, "Short_Code"))
    ensures f.familyCode == OrEmpty(Get(prod, "Product_Family_Code")) && f.remarks == OrEmpty(Get(prod, "remarks"))
    ensures f.entryDate == entryDate
  {
    FormInput(
      Get(prod, "productName"),
      Get(prod, "specification"),
      ToStr(Get(prod, "Category_ID")),
      ToStr(Get(prod, "Supplier_ID")),
      ToNumber(Get(prod, "purchasePrice")),
      ToNumber(Get(prod, "sellingPrice")),
      ToNumber(Get(prod, "quantity")),
      Some(OrZero(ToNumber(Get(prod, "IVA/Tax")))),
      Some(OrZero(ToNumber(Get(prod, "Margin")))),
      OrEmpty(Get(prod, "EAN_Code")),
      OrEmpty(Get(prod, "Short_Code")),
      OrEmpty(Get(prod, "Product_Family_Code")),
      ToStr(Get(prod, "Unit_Id")),
      ToStr(Get(prod, "Warehouse_Id")),
      entryDate,
      OrEmpty(Get(prod, "remarks")))
  }

  /** A non-numeric IVA or margin is loaded as 0, which the schema accepts. */
  lemma ResetNonNumericRates(prod: Record, entryDate: Option<CalendarDate>)
    ensures ToNumber(Get(prod, "IVA/Tax")).None? ==>
      Reset(prod, entryDate).iva == Some(0.0) && Passes(Reset(prod, entryDate), IvaField)
    ensures ToNumber(Get(prod, "Margin")).None? ==>
      Reset(prod, entryDate).margin == Some(0.0) && Passes(Reset(prod, entryDate), MarginField)
  {
  }

  /** Empty text in a required field is reported. */
  lemma EmptyTextReported(f: FormInput)
    ensures f.eanCode == Str("") ==> EanCodeField in Issues(f)
    ensures f.remarks == Str("") ==> RemarksField in Issues(f)
  {
    IssuesReportFailures(f, EanCodeField);
    IssuesReportFailures(f, RemarksField);
  }

  /** A record without the codes or remarks is loaded with empty text, which the schema reports. */
  lemma ResetMissingCodes(prod: Record, entryDate: Option<CalendarDate>)
    ensures !Truthy(Get(prod, "EAN_Code")) ==>
      Reset(prod, entryDate).eanCode == Str("") && EanCodeField in Issues(Reset(prod, entryDate))
    ensures !Truthy(Get(prod, "remarks")) ==>
      Reset(prod, entryDate).remarks == Str("") && RemarksField in Issues(Reset(prod, entryDate))
  {
    EmptyTextReported(Reset(prod, entryDate));
  }

  /** The ids are stringified, so a record without a category still passes the category rule:
      `String(undefined)` is the nine letters "undefined". */
  lemma ResetMissingIdPasses(prod: Record, entryDate: Option<CalendarDate>)
    requires Get(prod, "Category_ID") == Undefined
    ensures Reset(prod, entryDate).category == "undefined"
    ensures Passes(Reset(prod, entryDate), CategoryField)
  {
  }

  /** `fetchProduct`: the form is loaded from the fetched record, or the load fails (and the page
      goes back to the inventory). */
  datatype LoadOutcome = LoadFailed | Loaded(form: FormInput)

  function LoadProduct(data: ResponseData, entryDate: Option<CalendarDate>): (r: LoadOutcome)
    ensures r.LoadFailed? <==> FetchedProduct(data).None?
    ensures r.Loaded? ==> r.form == Reset(FetchedProduct(data).value, entryDate)
  {
    match FetchedProduct(data)
    case None => LoadFailed
    case Some(prod) => Loaded(Reset(prod, entryDate))
  }

  /** An empty array result never loads a form. */
  lemma EmptyResultFails(entryDate: Option<CalendarDate>)
    ensures LoadProduct(ArrayData([]), entryDate) == LoadFailed
  {
  }

  /** `productid` as posted: the query parameter, or `null` when there is none. */
  function IdValue(productId: Option<string>): (r: PayloadValue)
    ensures productId.Some? ==> r == PText(productId.value)
    ensures productId.None? ==> r == PNull
  {
    if productId.Some? then PText(productId.value) else PNull
  }

  /** `onSubmit`'s payload: the add payload with `productid` right after `action`. */
  function EditPayload(productId: Option<string>, v: FormValues): (p: Payload)
    ensures |p| == 18 && p[0] == ("action", PText("product")) && p[1] == ("productid", IdValue(productId))
  {
    [("action", PText("product")), ("productid", IdValue(productId))] + ProductFields(v)
  }

  /** The edit payload is the add payload plus `productid`: every other key reads the same. */
  lemma EditPayloadExtendsAdd(productId: Option<string>, v: FormValues, key: string)
    ensures key == "productid" ==> Lookup(EditPayload(productId, v), key) == Some(IdValue(productId))
    ensures key != "productid" ==> Lookup(EditPayload(productId, v), key) == Lookup(AddPayload(v), key)
  {
    if key != "productid" {
      LookupSkip(("action", PText("product")), ("productid", IdValue(productId)), ProductFields(v), key);
      assert EditPayload(productId, v) == [("action", PText("product")), ("productid", IdValue(productId))] + ProductFields(v);
      assert AddPayload(v) == [("action", PText("product"))] + ProductFields(v);
    } else {
      LookupAt(EditPayload(productId, v), key, 1);
    }
  }

  /** So the edit page also posts the entry date as `yyyy-MM-dd`. */
  lemma EditPayloadDate(productId: Option<string>, v: FormValues)
    ensures Lookup(EditPayload(productId, v), "entryDate") == Some(PText(FormatYmd(v.entryDate)))
  {
    EditPayloadExtendsAdd(productId, v, "entryDate");
    AddPayloadPlacement(v);
  }
}
