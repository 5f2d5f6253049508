/** The import dialog (src/components/inventory/ImportDialog.tsx): a four-step state machine
    (upload, preview, configure, result) over the products the file uploader produced, whose
    commit applies a duplicate policy, counts what it did and hands each committed product to
    the store's `addProduct`. */
module ImportDialog {
  import opened Wrappers
  import opened Seqs
  import opened Text
  import opened JsValues
  import opened Domain
  import opened SmartFileUploader
  import StoreContext
  import MockData

  datatype Step = Upload | Preview | Configure | Result

  /** What to do with an imported product whose code the store already has. */
  datatype Policy = Skip | Replace | Keep

  datatype Stats = Stats(total: nat, added: nat, duplicates: nat, errors: nat)

  /** `existingProductCodes.has(product.productCode)`: the lookup compares by value and type, so
      only a string code can equal a stored code. */
  predicate Collides(codes: seq<string>, p: ImportedProduct) {
    p.productCode.Str? && p.productCode.s in codes
  }

  /** `uploadedProducts.some(p => existingProductCodes.has(p.productCode))`. */
  predicate HasDuplicates(codes: seq<string>, uploaded: seq<ImportedProduct>) {
    exists i :: 0 <= i < |uploaded| && Collides(codes, uploaded[i])
  }

  /** The code change `keep` makes to a colliding product (in place, on the shared object); a
      colliding code is a string, which the template literal renders as itself. */
  function Retag(p: ImportedProduct, codes: seq<string>, policy: Policy): ImportedProduct
  {
    if policy == Keep && Collides(codes, p) then p.(productCode := Str(p.productCode.s + "_copy")) else p
  }

  /** `{...product, remarks: product.remarks || importedRemark}`. */
  function WithRemark(p: ImportedProduct, importedRemark: string): (q: ImportedProduct)
    ensures Truthy(p.remarks) ==> q == p
    ensures !Truthy(p.remarks) ==> q == p.(remarks := Str(importedRemark))
  {
    if Truthy(p.remarks) then p else p.(remarks := Str(importedRemark))
  }

  /** The imported list after the commit loop visited `items`: the objects `keep` retagged. */
  function Retagged(items: seq<ImportedProduct>, codes: seq<string>, policy: Policy): (r: seq<ImportedProduct>)
    ensures |r| == |items|
  {
    if items == [] then []
    else Retagged(items[..|items| - 1], codes, policy) + [Retag(items[|items| - 1], codes, policy)]
  }

  /** What the commit loop has collected and counted after visiting `items`. */
  datatype Tally = Tally(committed: seq<ImportedProduct>, added: nat, duplicates: nat, errors: nat)

  /** One visit of the commit loop: a colliding product is a duplicate, skipped under `skip`;
      any other product is (retagged and) collected and counted as added. */
  function TallyStep(t: Tally, p: ImportedProduct, codes: seq<string>, policy: Policy, importedRemark: string): (u: Tally)
    ensures |u.committed| <= |t.committed| + 1
  {
    if Collides(codes, p) && policy == Skip then t.(duplicates := t.duplicates + 1)
    else
      var d := if Collides(codes, p) then 1 else 0;
      Tally(t.committed + [WithRemark(Retag(p, codes, policy), importedRemark)], t.added + 1, t.duplicates + d, t.errors)
  }

  function Tallied(items: seq<ImportedProduct>, codes: seq<string>, policy: Policy, importedRemark: string): (t: Tally)
    ensures |t.committed| <= |items|
  {
    if items == [] then Tally([], 0, 0, 0)
    else TallyStep(Tallied(items[..|items| - 1], codes, policy, importedRemark), items[|items| - 1], codes, policy, importedRemark)
  }

  /** The imported list after the commit loop's first `n` visits, updated in place. */
  function RetaggedPrefix(items: seq<ImportedProduct>, n: nat, codes: seq<string>, policy: Policy): (r: seq<ImportedProduct>)
    requires n <= |items|
    ensures |r| == |items|
  {
    if n == 0 then items
    else RetaggedPrefix(items, n - 1, codes, policy)[n - 1 := Retag(items[n - 1], codes, policy)]
  }

  lemma {:induction false} RetaggedPrefixAt(items: seq<ImportedProduct>, n: nat, codes: seq<string>, policy: Policy, j: nat)
    requires n <= |items| && j < |items|
    ensures RetaggedPrefix(items, n, codes, policy)[j] == if j < n then Retag(items[j], codes, policy) else items[j]
  {
    if n > 0 {
      RetaggedPrefixAt(items, n - 1, codes, policy, j);
    }
  }

  /** The commit loop's counts after its first `n` visits. */
  function TallyPrefix(items: seq<ImportedProduct>, n: nat, codes: seq<string>, policy: Policy, importedRemark: string): Tally
    requires n <= |items|
  {
    if n == 0 then Tally([], 0, 0, 0)
    else TallyStep(TallyPrefix(items, n - 1, codes, policy, importedRemark), items[n - 1], codes, policy, importedRemark)
  }

  lemma {:induction false} TallyPrefixIsTallied(items: seq<ImportedProduct>, n: nat, codes: seq<string>, policy: Policy, importedRemark: string)
    requires n <= |items|
    ensures TallyPrefix(items, n, codes, policy, importedRemark) == Tallied(items[..n], codes, policy, importedRemark)
  {
    if n > 0 {
      TallyPrefixIsTallied(items, n - 1, codes, policy, importedRemark);
      assert items[..n][..n - 1] == items[..n - 1];
    }
  }

  // ---------------------------------------------------------------- reference lists

  function CountColliding(items: seq<ImportedProduct>, codes: seq<string>): (n: nat)
    ensures n <= |items|
  {
    if items == [] then 0
    else CountColliding(items[..|items| - 1], codes) + (if Collides(codes, items[|items| - 1]) then 1 else 0)
  }

  function NonColliding(items: seq<ImportedProduct>, codes: seq<string>): (r: seq<ImportedProduct>)
    ensures |r| == |items| - CountColliding(items, codes)
    ensures forall i :: 0 <= i < |r| ==> !Collides(codes, r[i]) && r[i] in items
  {
    if items == [] then []
    else
      var init := NonColliding(items[..|items| - 1], codes);
      var p := items[|items| - 1];
      if Collides(codes, p) then init else init + [p]
  }

  function WithRemarks(items: seq<ImportedProduct>, importedRemark: string): (r: seq<ImportedProduct>)
    ensures |r| == |items|
  {
    if items == [] then []
    else WithRemarks(items[..|items| - 1], importedRemark) + [WithRemark(items[|items| - 1], importedRemark)]
  }

  // ---------------------------------------------------------------- properties of the commit

  /** Nothing inside the commit loop can fail, so there are no errors; each committed product is
      counted as added, and every colliding product as a duplicate. Under `skip` the added,
      duplicate and error counts make up the total; under `keep` and `replace` every product is
      added and the duplicates are among them. */
  lemma {:induction false} TallyCounts(items: seq<ImportedProduct>, codes: seq<string>, policy: Policy, importedRemark: string)
    ensures var t := Tallied(items, codes, policy, importedRemark);
      && t.errors == 0
      && |t.committed| == t.added
      && t.duplicates == CountColliding(items, codes)
      && (policy == Skip ==> t.added + t.duplicates + t.errors == |items|)
      && (policy != Skip ==> t.added == |items| - t.errors && t.duplicates <= t.added)
  {
    if items != [] {
      TallyCounts(items[..|items| - 1], codes, policy, importedRemark);
    }
  }

  /** The batch of `addProduct` calls as written runs in one render and keeps only the last
      product: with two or more committed products the store grows by one, while the counts
      report every committed product as added. */
  lemma OneRenderAddsOnlyLast(st: StoreContext.StoreState, items: seq<ImportedProduct>, codes: seq<string>, policy: Policy,
                              importedRemark: string, uuids: seq<string>, codeDraws: seq<real>)
    requires ValidDraws(uuids, codeDraws, |Tallied(items, codes, policy, importedRemark).committed|)
    requires |Tallied(items, codes, policy, importedRemark).committed| >= 2
    ensures var t := Tallied(items, codes, policy, importedRemark);
      var datas := Map(t.committed, ToProductData);
      && |StoreContext.AddedInOneRender(st, datas, uuids, codeDraws).products| == |st.products| + 1
      && |st.products + StoreContext.NewProducts(datas, uuids, codeDraws, st.currentUser)| == |st.products| + t.added
      && t.added >= 2
  {
    TallyCounts(items, codes, policy, importedRemark);
  }

  /** Under `skip` the committed list is exactly the products whose code the store does not
      have, in input order, with the default remark filled in. */
  lemma {:induction false} SkipCommitsNonColliding(items: seq<ImportedProduct>, codes: seq<string>, importedRemark: string)
    ensures Tallied(items, codes, Skip, importedRemark).committed == WithRemarks(NonColliding(items, codes), importedRemark)
  {
    if items != [] {
      SkipCommitsNonColliding(items[..|items| - 1], codes, importedRemark);
    }
  }

  /** Under `keep` and `replace` every product is committed, in input order, as retagged and with
      the default remark filled in. */
  lemma {:induction false} KeepReplaceCommitAll(items: seq<ImportedProduct>, codes: seq<string>, policy: Policy, importedRemark: string)
    requires policy != Skip
    ensures Tallied(items, codes, policy, importedRemark).committed == WithRemarks(Retagged(items, codes, policy), importedRemark)
  {
    if items != [] {
      KeepReplaceCommitAll(items[..|items| - 1], codes, policy, importedRemark);
    }
  }

  /** Under `keep` each colliding product's code gets `_copy` appended and the others keep
      theirs; `skip` and `replace` change no code. */
  lemma {:induction false} RetaggedAt(items: seq<ImportedProduct>, codes: seq<string>, policy: Policy, i: nat)
    requires i < |items|
    ensures var q := Retagged(items, codes, policy)[i];
      && (policy == Keep && Collides(codes, items[i]) ==> q == items[i].(productCode := Str(items[i].productCode.s + "_copy")))
      && (policy != Keep || !Collides(codes, items[i]) ==> q == items[i])
  {
    if i < |items| - 1 {
      RetaggedAt(items[..|items| - 1], codes, policy, i);
    }
  }

  /** Duplicates are looked for only among the store's codes: when no imported code is a stored
      one, nothing counts as a duplicate and everything is committed under every policy, even if
      the imported products repeat a code among themselves. */
  lemma {:induction false} NoStoreCollisionCommitsAll(items: seq<ImportedProduct>, codes: seq<string>, policy: Policy, importedRemark: string)
    requires forall i :: 0 <= i < |items| ==> !Collides(codes, items[i])
    ensures Tallied(items, codes, policy, importedRemark).duplicates == 0
    ensures Tallied(items, codes, policy, importedRemark).committed == WithRemarks(items, importedRemark)
  {
    if items != [] {
      NoStoreCollisionCommitsAll(items[..|items| - 1], codes, policy, importedRemark);
    }
  }

  /** Every committed product has a truthy remark. */
  lemma {:induction false} WithRemarksTruthy(items: seq<ImportedProduct>, importedRemark: string, i: nat)
    requires i < |items| && importedRemark != ""
    ensures Truthy(WithRemarks(items, importedRemark)[i].remarks)
  {
    if i < |items| - 1 {
      WithRemarksTruthy(items[..|items| - 1], importedRemark, i);
    }
  }

  /** The object handed to `addProduct`: the same fields, with the raw name, specification and
      remarks values read as strings (the store's record types them as text). A text cell passes
      through unchanged; another kind of cell is stored as its `String()` text. */
  function ToProductData(p: ImportedProduct): (d: ProductData)
    ensures d.category == p.category && d.supplierName == p.supplierName && d.unit == p.unit
      && d.warehouse == p.warehouse && d.entryDate == p.entryDate
    ensures d.purchasePrice == p.purchasePrice && d.sellingPrice == p.sellingPrice && d.quantity == p.quantity
    ensures p.productName.Str? ==> d.productName == p.productName.s
    ensures p.specification.Str? ==> d.specification == p.specification.s
    ensures p.remarks.Str? ==> d.remarks == p.remarks.s
  {
    ProductData(ToStr(p.productName), ToStr(p.specification), p.category, p.supplierName, p.purchasePrice,
                p.sellingPrice, p.quantity, p.unit, p.warehouse, p.entryDate, ToStr(p.remarks))
  }

  /** The store gives every committed product a freshly generated code, so a `_copy` code set
      under `keep` never reaches the store. */
  lemma StoredCodesAreGenerated(datas: seq<ProductData>, uuids: seq<string>, codeDraws: seq<real>, currentUser: Option<User>, i: nat)
    requires |datas| <= |uuids| && |datas| <= |codeDraws|
    requires forall i :: 0 <= i < |datas| ==> 0.0 <= codeDraws[i] < 1.0
    requires i < |datas|
    ensures var code := StoreContext.NewProducts(datas, uuids, codeDraws, currentUser)[i].productCode;
      code == MockData.GenerateProductCode(codeDraws[i]) && StartsWith(code, "PROD-") && !EndsWith(code, "_copy")
  {
    StoreContext.NewProductsAt(datas, uuids, codeDraws, currentUser, i);
    var code := MockData.GenerateProductCode(codeDraws[i]);
    MockData.GeneratedCodeShape(codeDraws[i]);
    assert IsDigit(code[5..][4]);
  }

  predicate ValidDraws(uuids: seq<string>, codeDraws: seq<real>, n: nat) {
    n <= |uuids| && n <= |codeDraws| && forall i :: 0 <= i < n ==> 0.0 <= codeDraws[i] < 1.0
  }

  /** One visit of the commit loop of `processImport`, to the product at `i`: a colliding one
      is counted as a duplicate and, under `skip`, passed over; under `keep` its code gets
      `_copy` appended in place, on the object the list and the preview share; every product
      not passed over is collected with its remark and counted as added. */
  method VisitProduct(items: seq<ImportedProduct>, i: nat, codes: seq<string>, policy: Policy, importedRemark: string,
                      imported: seq<ImportedProduct>, shown: seq<ImportedProduct>, t: Tally)
    returns (imported': seq<ImportedProduct>, shown': seq<ImportedProduct>, t': Tally)
    requires i < |items|
    requires imported == RetaggedPrefix(items, i, codes, policy) && shown == Take(imported, 5)
    requires t == TallyPrefix(items, i, codes, policy, importedRemark)
    ensures imported' == RetaggedPrefix(items, i + 1, codes, policy) && shown' == Take(imported', 5)
    ensures t' == TallyPrefix(items, i + 1, codes, policy, importedRemark)
  {
    imported', shown', t' := imported, shown, t;
    var product := items[i];
    RetaggedPrefixAt(items, i, codes, policy, i);
    var isDuplicate := Collides(codes, product);
    if isDuplicate {
      t' := t'.(duplicates := t'.duplicates + 1);
      if policy == Skip {
        assert imported[i := Retag(items[i], codes, policy)] == imported;
        return;
      }
      if policy == Keep {
        product := product.(productCode := Str(product.productCode.s + "_copy"));
        TakeUpdate(imported, 5, i, product);
        imported' := imported'[i := product];
        if i < |shown'| {
          shown' := shown'[i := product];
        }
      }
    }
    assert product == Retag(items[i], codes, policy);
    t' := t'.(committed := t'.committed + [WithRemark(product, importedRemark)], added := t'.added + 1);
  }

  /** The commit loop of `processImport`, over the whole list. */
  method Commit(items: seq<ImportedProduct>, preview: seq<ImportedProduct>, codes: seq<string>, policy: Policy, importedRemark: string)
    returns (imported: seq<ImportedProduct>, shown: seq<ImportedProduct>, t: Tally)
    requires preview == Take(items, 5)
    ensures imported == Retagged(items, codes, policy)
    ensures shown == Take(imported, 5)
    ensures t == Tallied(items, codes, policy, importedRemark)
  {
    imported, shown := items, preview;
    t := Tally([], 0, 0, 0);
    var i := 0;
    while i < |items|
      invariant 0 <= i <= |items|
      invariant imported == RetaggedPrefix(items, i, codes, policy) && shown == Take(imported, 5)
      invariant t == TallyPrefix(items, i, codes, policy, importedRemark)
    {
      imported, shown, t := VisitProduct(items, i, codes, policy, importedRemark, imported, shown, t);
      i := i + 1;
    }
    TallyPrefixIsTallied(items, i, codes, policy, importedRemark);
    assert items[..i] == items;
    forall j | 0 <= j < |items| ensures imported[j] == Retagged(items, codes, policy)[j] {
      RetaggedAt(items, codes, policy, j);
      RetaggedPrefixAt(items, i, codes, policy, j);
    }
  }

  // ---------------------------------------------------------------- the dialog

  class Dialog {
    const store: StoreContext.Store
    var importedProducts: seq<ImportedProduct>
    var previewData: seq<ImportedProduct>
    var importStep: Step
    var duplicateHandling: Policy
    var duplicatesFound: bool
    var importStats: Stats

    /** The preview shows the same objects as the first rows of the imported list. */
    predicate Valid()
      reads this
    {
      previewData == Take(importedProducts, 5)
    }

    constructor (store: StoreContext.Store)
      ensures this.store == store && Valid()
      ensures importedProducts == [] && previewData == [] && importStep == Upload
      ensures duplicateHandling == Skip && !duplicatesFound && importStats == Stats(0, 0, 0, 0)
    {
      this.store := store;
      importedProducts, previewData := [], [];
      importStep := Upload;
      duplicateHandling := Skip;
      duplicatesFound := false;
      importStats := Stats(0, 0, 0, 0);
    }

    /** `handleUploadComplete`: an empty upload changes nothing; otherwise the products are kept,
        the first five previewed, duplicates against the store's codes flagged, and the dialog
        moves to the preview. */
    method HandleUploadComplete(uploaded: seq<ImportedProduct>)
      requires Valid()
      modifies this
      ensures |uploaded| == 0 ==> unchanged(this)
      ensures |uploaded| > 0 ==>
        && importedProducts == uploaded
        && previewData == Take(uploaded, 5)
        && duplicatesFound == HasDuplicates(ProductCodes(store.products), uploaded)
        && importStep == Preview
        && duplicateHandling == old(duplicateHandling) && importStats == old(importStats)
      ensures Valid()
    {
      if |uploaded| == 0 {
        return;
      }
      var existingProductCodes := ProductCodes(store.products);
      var hasDuplicates := HasDuplicates(existingProductCodes, uploaded);
      importedProducts := uploaded;
      previewData := uploaded[..if 5 < |uploaded| then 5 else |uploaded|];
      duplicatesFound := hasDuplicates;
      importStep := Preview;
    }

    /** The radio group of the configure step. */
    method SetDuplicateHandling(policy: Policy)
      modifies this
      ensures duplicateHandling == policy
      ensures importedProducts == old(importedProducts) && previewData == old(previewData) && importStep == old(importStep)
      ensures duplicatesFound == old(duplicatesFound) && importStats == old(importStats)
    {
      duplicateHandling := policy;
    }

    /** The Back button, shown in the preview and configure steps. */
    method Back()
      modifies this
      ensures importStep == if old(importStep) == Preview || old(importStep) == Configure then Upload else old(importStep)
      ensures importedProducts == old(importedProducts) && previewData == old(previewData)
      ensures duplicateHandling == old(duplicateHandling) && duplicatesFound == old(duplicatesFound) && importStats == old(importStats)
    {
      if importStep == Preview || importStep == Configure {
        importStep := Upload;
      }
    }

    /** `resetImport`: back to the initial state. */
    method ResetImport()
      modifies this
      ensures importedProducts == [] && previewData == [] && importStep == Upload
      ensures duplicateHandling == Skip && !duplicatesFound && importStats == Stats(0, 0, 0, 0)
      ensures Valid()
    {
      importedProducts, previewData := [], [];
      importStep := Upload;
      duplicateHandling := Skip;
      duplicatesFound := false;
      importStats := Stats(0, 0, 0, 0);
    }

    /** The commit loop of `processImport`, on the dialog's lists. */
    method CollectImports(codes: seq<string>, importedRemark: string) returns (t: Tally)
      requires Valid()
      modifies this
      ensures Valid()
      ensures t == Tallied(old(importedProducts), codes, duplicateHandling, importedRemark)
      ensures importedProducts == Retagged(old(importedProducts), codes, duplicateHandling)
      ensures importStep == old(importStep) && duplicateHandling == old(duplicateHandling)
      ensures duplicatesFound == old(duplicatesFound) && importStats == old(importStats)
    {
      var imported, preview;
      imported, preview, t := Commit(importedProducts, previewData, codes, duplicateHandling, importedRemark);
      importedProducts, previewData := imported, preview;
    }

    /** The second half of `processImport`: each collected product goes to `addProduct`, in
        order. */
    method AddCollected(datas: seq<ProductData>, uuids: seq<string>, codeDraws: seq<real>)
      requires ValidDraws(uuids, codeDraws, |datas|)
      modifies store
      ensures store.State() == old(store.State()).(products := old(store.products) +
        StoreContext.NewProducts(datas, uuids, codeDraws, old(store.currentUser)))
    {
      var k := 0;
      while k < |datas|
        invariant 0 <= k <= |datas|
        invariant store.State() == old(store.State()).(products := old(store.products) +
          StoreContext.NewProducts(datas[..k], uuids, codeDraws, old(store.currentUser)))
      {
        StoreContext.AddProductsStep(old(store.State()), datas, uuids, codeDraws, k);
        store.AddProduct(datas[k], uuids[k], codeDraws[k]);
        k := k + 1;
      }
      assert datas[..k] == datas;
    }

    /** The end of `processImport`: the collected products go to the store, then the counts are
        recorded and the result shown. */
    method FinishImport(total: nat, t: Tally, uuids: seq<string>, codeDraws: seq<real>)
      requires ValidDraws(uuids, codeDraws, |t.committed|)
      modifies this, store
      ensures store.State() == old(store.State()).(products := old(store.products) +
        StoreContext.NewProducts(Map(t.committed, ToProductData), uuids, codeDraws, old(store.currentUser)))
      ensures importStats == Stats(total, t.added, t.duplicates, t.errors) && importStep == Result
      ensures importedProducts == old(importedProducts) && previewData == old(previewData)
      ensures duplicateHandling == old(duplicateHandling) && duplicatesFound == old(duplicatesFound)
    {
      AddCollected(Map(t.committed, ToProductData), uuids, codeDraws);
      importStats := Stats(total, t.added, t.duplicates, t.errors);
      importStep := Result;
    }

    /** `processImport`: collect and count, add the collected products to the store, record the
        counts and show the result. */
    method ProcessImport(uuids: seq<string>, codeDraws: seq<real>, importedRemark: string)
      requires Valid()
      requires ValidDraws(uuids, codeDraws, |importedProducts|)
      modifies this, store
      ensures Valid()
      ensures var codes := ProductCodes(old(store.products));
        var t := Tallied(old(importedProducts), codes, old(duplicateHandling), importedRemark);
        && importedProducts == Retagged(old(importedProducts), codes, old(duplicateHandling))
        && store.State() == old(store.State()).(products := old(store.products) +
             StoreContext.NewProducts(Map(t.committed, ToProductData), uuids, codeDraws, old(store.currentUser)))
        && importStats == Stats(|old(importedProducts)|, t.added, t.duplicates, t.errors)
      ensures importStep == Result
      ensures duplicateHandling == old(duplicateHandling) && duplicatesFound == old(duplicatesFound)
    {
      var total := |importedProducts|;
      var codes := ProductCodes(store.products);
      var t := CollectImports(codes, importedRemark);
      FinishImport(total, t, uuids, codeDraws);
    }

    /** `handleImport`: the preview with duplicates first asks for a policy; the preview without
        duplicates and the configure step commit; any other step does nothing. */
    method HandleImport(uuids: seq<string>, codeDraws: seq<real>, importedRemark: string)
      requires Valid()
      requires ValidDraws(uuids, codeDraws, |importedProducts|)
      modifies this, store
      ensures Valid()
      ensures old(importStep) == Preview && old(duplicatesFound) ==>
        importStep == Configure && importedProducts == old(importedProducts) && previewData == old(previewData)
        && importStats == old(importStats) && store.State() == old(store.State())
      ensures duplicateHandling == old(duplicateHandling) && duplicatesFound == old(duplicatesFound)
      ensures (old(importStep) == Preview && !old(duplicatesFound)) || old(importStep) == Configure ==>
        var codes := ProductCodes(old(store.products));
        var t := Tallied(old(importedProducts), codes, old(duplicateHandling), importedRemark);
        && importStep == Result
        && importedProducts == Retagged(old(importedProducts), codes, old(duplicateHandling))
        && store.State() == old(store.State()).(products := old(store.products) +
             StoreContext.NewProducts(Map(t.committed, ToProductData), uuids, codeDraws, old(store.currentUser)))
        && importStats == Stats(|old(importedProducts)|, t.added, t.duplicates, t.errors)
      ensures old(importStep) == Upload || old(importStep) == Result ==> unchanged(this) && store.State() == old(store.State())
    {
      if importStep == Preview {
        if duplicatesFound {
          importStep := Configure;
        } else {
          ProcessImport(uuids, codeDraws, importedRemark);
        }
      } else if importStep == Configure {
        ProcessImport(uuids, codeDraws, importedRemark);
      }
    }
  }
}
