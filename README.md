# Inventory management: a verified model of the app's core logic

The application is a React inventory manager. Its screens keep products, suppliers, categories,
warehouses, units and invoices, and most of them talk to a remote spreadsheet web service. Under
the fetch calls and the JSX sits logic that can be stated precisely, and this project models it
in Dafny, one module per source file:

- **The spreadsheet/CSV import pipeline** (`SmartFileUploader`, `ImportDialog`).
  - File validation and header normalisation.
  - Binding canonical fields to headers through the synonym table.
  - Projecting rows into products: defaults, master-data name resolution and numeric cleaning.
  - The four-step import dialog with its `skip` / `replace` / `keep` duplicate policies and counters.
- **The in-memory store** (`StoreContext`). A class with one `seq` field per entity list, plus
  id-keyed add/update/delete, the stock decrement of `addInvoice`, and `login` / `logout`.
- **The mock data** (`MockData`): the product-code generator and the seed records.
- **Billing** (`Billing`, `BillGenerator`). The line-item editors, the stock-capped quantity,
  the two total formulas, the checks made before an invoice is sent, and print-row padding.
- **Invoice pages** (`Invoices`, `InvoicePrintPage`). Key mapping with `dd/mm/yyyy` dates, the
  fetch and delete rules, and the 25-row delivery note.
- **Reports** (`AiInsights`, `Reports`). Low-stock and top-priced selections, per-category,
  per-supplier and per-warehouse sums, and the keyword dispatch of the question boxes.
- **Exports** (`Inventory`, `Dashboard`): the CSV builders, the delete filter and the low-stock rules.
- **Product forms** (`AddProduct`, `EditProduct`). The schema validator, the automatic selling
  price, the record-to-form mapping and the submit payloads.

Helper modules hold what several files share:

- `Text`: the JavaScript string built-ins used.
- `JsValues`: JavaScript values together with `String()`, `Number()`, `parseFloat`, `parseInt` and truthiness.
- `Records`: JavaScript objects as insertion-ordered key/value lists (keys that are array indices are not moved first, see "## Left out").
- `Seqs`: list built-ins, including a stable sort by key.
- `Dates`: calendar dates.
- `Domain`: the entity records.

Money and quantities are exact `real`s. JavaScript numbers are finite decimals, so `String(n)` is
exact. Random draws, generated ids and the current date are parameters.

## Model

| member | source | states |
|---|---|---|
| ImportDialog.WithRemark | src/components/inventory/ImportDialog.tsx:123-126 | `remarks \|\| importedRemark`: a truthy remark is kept, a falsy one replaced by the default |
| ImportDialog.Retagged | src/components/inventory/ImportDialog.tsx:104-133 | the loop keeps the imported list's length |
| ImportDialog.TallyStep | src/components/inventory/ImportDialog.tsx:104-133 | one visit collects at most one product |
| ImportDialog.Tallied | src/components/inventory/ImportDialog.tsx:104-133 | the loop never collects more products than it visits |
| ImportDialog.RetaggedPrefix | src/components/inventory/ImportDialog.tsx:115-118 | the in-place code change keeps the list's length |
| ImportDialog.RetaggedPrefixAt | src/components/inventory/ImportDialog.tsx:115-118 | after n visits exactly the first n products carry their (possibly `_copy`) retag; the rest are as imported |
| ImportDialog.TallyPrefixIsTallied | src/components/inventory/ImportDialog.tsx:104-133 | the loop's counts after n visits are those of the first n products |
| ImportDialog.CountColliding | src/components/inventory/ImportDialog.tsx:106 | at most every product collides |
| ImportDialog.NonColliding | src/components/inventory/ImportDialog.tsx:106-113 | the products with a code the store lacks, one for each that does not collide |
| ImportDialog.WithRemarks | src/components/inventory/ImportDialog.tsx:123-126 | filling in remarks keeps the list's length |
| ImportDialog.TallyCounts | src/components/inventory/ImportDialog.tsx:93-158 | no error is ever counted; added equals the committed count and duplicates the colliding count; under `skip` added + duplicates + errors = total; under `keep`/`replace` added = total - errors and duplicates <= added |
| ImportDialog.SkipCommitsNonColliding | src/components/inventory/ImportDialog.tsx:104-126 | under `skip` the committed list is exactly the non-colliding products in input order, with the default remark filled in |
| ImportDialog.KeepReplaceCommitAll | src/components/inventory/ImportDialog.tsx:104-126 | under `keep`/`replace` every product is committed in input order, retagged and with the remark filled in |
| ImportDialog.RetaggedAt | src/components/inventory/ImportDialog.tsx:113-119 | under `keep` each colliding code gets `_copy` appended and the others are kept; `skip`/`replace` change no code |
| ImportDialog.NoStoreCollisionCommitsAll | src/components/inventory/ImportDialog.tsx:94-106 | duplicates are sought only among the store's codes: with no stored code imported, nothing is a duplicate and everything is committed, even when imported codes repeat one another |
| ImportDialog.WithRemarksTruthy | src/components/inventory/ImportDialog.tsx:125 | with a non-empty default, every committed product has a truthy remark |
| ImportDialog.StoredCodesAreGenerated | src/components/inventory/ImportDialog.tsx:137-151 | each product reaching the store carries a generated `PROD-` code, never a `_copy` one |
| ImportDialog.VisitProduct | src/components/inventory/ImportDialog.tsx:105-128 | one visit advances the retagged list, the preview over the same objects, and the counts, by exactly one product |
| ImportDialog.Commit | src/components/inventory/ImportDialog.tsx:95-133 | the loop ends with the retagged list, a preview of its first five, and the tally of the whole list |
| ImportDialog.Dialog.constructor | src/components/inventory/ImportDialog.tsx:40-50 | the initial state: empty lists, step `upload`, policy `skip`, no duplicates flag, zero counters |
| ImportDialog.Dialog.HandleUploadComplete | src/components/inventory/ImportDialog.tsx:59-79 | an empty upload changes nothing; otherwise the products are kept, the first min(5, n) previewed, duplicates against the store's codes flagged, and the step becomes `preview` |
| ImportDialog.Dialog.SetDuplicateHandling | src/components/inventory/ImportDialog.tsx:264-284 | only the policy changes |
| ImportDialog.Dialog.Back | src/components/inventory/ImportDialog.tsx:345 | from `preview` or `configure` the step returns to `upload`; nothing else changes |
| ImportDialog.Dialog.ResetImport | src/components/inventory/ImportDialog.tsx:168-180 | the dialog returns to its initial state |
| ImportDialog.Dialog.CollectImports | src/components/inventory/ImportDialog.tsx:94-133 | the collected tally and the retagged list are those of the imported products under the chosen policy |
| ImportDialog.ToProductData | src/components/inventory/ImportDialog.tsx:138-149 | the typed fields are handed to `addProduct` unchanged, and a text name, specification or remark passes through as it is |
| ImportDialog.Dialog.AddCollected | src/components/inventory/ImportDialog.tsx:137-151 | `addProduct` is called once per collected product, in order, so the store gains exactly those products at the end (the corrected reading, see Findings) |
| ImportDialog.OneRenderAddsOnlyLast | src/components/inventory/ImportDialog.tsx:137-158 | with two or more committed products the batch as written grows the store by one, while the counts report every committed product as added |
| ImportDialog.Dialog.FinishImport | src/components/inventory/ImportDialog.tsx:135-160 | the store gains the committed products, the counters take the tally and the step becomes `result` |
| ImportDialog.Dialog.ProcessImport | src/components/inventory/ImportDialog.tsx:93-166 | the whole commit: retagged list, store products appended in order, counters with total = number imported, step `result` |
| ImportDialog.Dialog.HandleImport | src/components/inventory/ImportDialog.tsx:81-91 | `preview` with duplicates goes to `configure` and changes nothing else; `preview` without duplicates and `configure` commit; `upload` and `result` change nothing; the policy and the duplicates flag never change |
| SmartFileUploader.Extension | src/components/dashboard/SmartFileUploader.tsx:57 | the extension is a suffix of the name: the whole name when it has no dot, otherwise a dot followed by no further dot |
| SmartFileUploader.ValidateFile | src/components/dashboard/SmartFileUploader.tsx:56-69 | the type error exactly when the lower-cased extension is not allowed; the size error exactly when it is allowed and the size exceeds maxFileSizeMB × 1024 × 1024 bytes; no error exactly when both tests pass |
| SmartFileUploader.SelectFile | src/components/dashboard/SmartFileUploader.tsx:71-98 | a file is rejected exactly when validation fails; a valid file goes to the CSV parser exactly when its name ends in `.csv`, to the spreadsheet parser exactly when it does not but ends in `.xlsx` or `.xls`, and is ignored exactly when it ends in none of the three |
| SmartFileUploader.UpperCaseExtensionIsIgnored | src/components/dashboard/SmartFileUploader.tsx:57-97 | a dot-free stem plus `.CSV` within the size limit passes validation and still starts no parser |
| SmartFileUploader.NormalizeHeader | src/components/dashboard/SmartFileUploader.tsx:133-135 | a normalised header has no whitespace and no upper-case letter |
| SmartFileUploader.MatchKeyIsNormalizeHeader | src/components/dashboard/SmartFileUploader.tsx:306 | the key comparison (lower-case, trim, strip whitespace) equals the parsers' header normalisation (trim, lower-case, strip whitespace) |
| SmartFileUploader.NormalizeHeaderIdempotent | src/components/dashboard/SmartFileUploader.tsx:133-135 | normalising twice is normalising once, so keys the parser already normalised compare as themselves |
| SmartFileUploader.FieldOrder | src/components/dashboard/SmartFileUploader.tsx:284-304 | the twelve canonical fields in the table's order |
| SmartFileUploader.FieldIndex | src/components/dashboard/SmartFileUploader.tsx:284-297 | every field has a position in the binding order |
| SmartFileUploader.SynonymsDisjoint | src/components/dashboard/SmartFileUploader.tsx:284-297 | no name is a synonym of two different fields |
| SmartFileUploader.OrderedSynonymsDisjoint | src/components/dashboard/SmartFileUploader.tsx:284-297 | the same for each ordered pair of fields, one table pair at a time |
| SmartFileUploader.MatchKeys | src/components/dashboard/SmartFileUploader.tsx:305-307 | one compared form per key |
| SmartFileUploader.MatchKeysAt | src/components/dashboard/SmartFileUploader.tsx:306 | the compared form at position j is that of key j |
| SmartFileUploader.FindKey | src/components/dashboard/SmartFileUploader.tsx:305-307 | `find` yields the first position whose compared form is a synonym, or -1 when none is |
| SmartFileUploader.BindingOverSpec | src/components/dashboard/SmartFileUploader.tsx:304-312 | after visiting some fields, a field is bound exactly when it was visited and its first matching key exists and is not empty, and it is bound to that key |
| SmartFileUploader.FieldBindingSpec | src/components/dashboard/SmartFileUploader.tsx:299-312 | the full mapping binds a field exactly when its first matching key exists and is non-empty, to that key |
| SmartFileUploader.BoundKeySpec | src/components/dashboard/SmartFileUploader.tsx:305-311 | the bound key is a non-empty key of the first row whose compared form is a synonym, and no earlier key matches |
| SmartFileUploader.KeyBindsAtMostOneField | src/components/dashboard/SmartFileUploader.tsx:284-312 | two fields are never bound to the same column |
| SmartFileUploader.BindFields | src/components/dashboard/SmartFileUploader.tsx:299-312 | the binding loop computes the field mapping |
| SmartFileUploader.MissingFields | src/components/dashboard/SmartFileUploader.tsx:316-317 | exactly the unbound ones of productName and quantity, without repetition and in that order |
| SmartFileUploader.GetValue | src/components/dashboard/SmartFileUploader.tsx:325-330 | the bound column's cell when the field is bound and the cell is neither undefined nor null; otherwise the fallback |
| SmartFileUploader.FindByName | src/components/dashboard/SmartFileUploader.tsx:337-340 | the first master name equal to the text ignoring case, or none when no name is |
| SmartFileUploader.ResolveName | src/components/dashboard/SmartFileUploader.tsx:337-340 | a case-insensitive master match wins; with no match the raw text, or the default when the text is empty; a non-empty default never yields an empty name |
| SmartFileUploader.QuantityText | src/components/dashboard/SmartFileUploader.tsx:342 | the quantity text keeps no comma |
| SmartFileUploader.PriceText | src/components/dashboard/SmartFileUploader.tsx:343-344 | a price text keeps no comma, and at most one leading `$` is removed |
| SmartFileUploader.NoDigitReadsAsZero | src/components/dashboard/SmartFileUploader.tsx:346-348 | a text without digits (such as `N/A`) imports as 0 |
| SmartFileUploader.ProjectRow | src/components/dashboard/SmartFileUploader.tsx:323-387 | a row yields a product exactly when its name value is truthy; that product is active, entered by `Import`, has the row's uuid and keeps the name value |
| SmartFileUploader.Projections | src/components/dashboard/SmartFileUploader.tsx:323 | `map` projects row i with the row's own uuid, draw and clock |
| SmartFileUploader.ProjectRowsShape | src/components/dashboard/SmartFileUploader.tsx:323-388 | every imported product comes from a named row with that row's uuid and name value, and is active and entered by `Import` |
| SmartFileUploader.ProjectRowsCount | src/components/dashboard/SmartFileUploader.tsx:360-388 | exactly one product per named row |
| SmartFileUploader.ProcessedFailure | src/components/dashboard/SmartFileUploader.tsx:316-321 | for a non-empty file, processing fails exactly when productName or quantity is unbound, and the error lists exactly the unbound ones |
| SmartFileUploader.ProcessData | src/components/dashboard/SmartFileUploader.tsx:276-392 | no rows is an error; otherwise the binding, the missing-field error, and the projected named rows |
| SmartFileUploader.Completed | src/components/dashboard/SmartFileUploader.tsx:162-167 | a successful completion always carries at least one product |
| SmartFileUploader.CompleteCsv | src/components/dashboard/SmartFileUploader.tsx:136-181 | no rows gives `noDataFound`; one row from a file over 500 bytes gives `invalidCSVFormat`; otherwise processing, then the empty-result check |
| SmartFileUploader.SheetItemKeys | src/components/dashboard/SmartFileUploader.tsx:227-233 | a sheet row object has one key per distinct non-empty header, in order of first occurrence (for headers that are not array indices) |
| SmartFileUploader.SheetItemGet | src/components/dashboard/SmartFileUploader.tsx:228-231 | under a non-empty header the object holds the cell of that header's last column (`''` for a missing cell); a name that is no header reads as undefined |
| SmartFileUploader.BuildSheetItem | src/components/dashboard/SmartFileUploader.tsx:227-233 | the `forEach` builds the row object of the headers |
| SmartFileUploader.SheetHeaders | src/components/dashboard/SmartFileUploader.tsx:220-222 | one header per cell of the first row |
| SmartFileUploader.RowObjects | src/components/dashboard/SmartFileUploader.tsx:226-234 | one object per data row |
| SmartFileUploader.RowObjectsAt | src/components/dashboard/SmartFileUploader.tsx:226-234 | object j is the row object of data row j |
| SmartFileUploader.BuildSheetRecords | src/components/dashboard/SmartFileUploader.tsx:220-234 | the row objects of the rows after the header row |
| SmartFileUploader.ParseSheet | src/components/dashboard/SmartFileUploader.tsx:201-260 | a sheet of at most one row gives `noDataFound`; otherwise its row objects are processed and an empty result is an error |
| StoreContext.ReplaceById | src/context/StoreContext.tsx:139-142 | an update never changes the length of the list |
| StoreContext.ReplaceByIdAt | src/context/StoreContext.tsx:139-142 | exactly the elements with the argument's id become the argument; every other element stays where it was |
| StoreContext.ReplaceByIdKeepsIds | src/context/StoreContext.tsx:139-142 | an update keeps the sequence of ids, so no entity is added, dropped or reordered |
| StoreContext.ReplaceByIdAbsent | src/context/StoreContext.tsx:139-142 | updating an entity whose id is not listed changes nothing |
| StoreContext.Author | src/context/StoreContext.tsx:129 | `currentUser?.username \|\| 'unknown'`: the signed-in user's non-empty name, else `unknown` |
| StoreContext.AddProductAppends | src/context/StoreContext.tsx:124-132 | `addProduct` appends exactly one product at the end, with the fresh id, a generated code whatever the data, the caller's fields, the author and the active flag; earlier products are unchanged |
| StoreContext.NewProducts | src/context/StoreContext.tsx:124-132 | adding n product data yields n products |
| StoreContext.NewProductsSnoc | src/context/StoreContext.tsx:124-132 | one more datum at the end yields one more product at the end |
| StoreContext.AddProductsStep | src/context/StoreContext.tsx:124-132 | adding the products of a data list one call after another appends them all, in order; this holds only for calls made in separate renders, each seeing the list the one before it set |
| StoreContext.AddedInOneRender | src/context/StoreContext.tsx:124-132 | calls made within one render all extend the same captured list, so the store gains only the product of the last call, and nothing when there is none |
| StoreContext.NewProductsAt | src/context/StoreContext.tsx:124-132 | the i-th appended product is built from the i-th datum |
| StoreContext.FirstWithId | src/context/StoreContext.tsx:247 | `findIndex`: the first product with the id, -1 exactly when none has it |
| StoreContext.ApplyItemsSpec | src/context/StoreContext.tsx:244-256 | over one invoice the first product with each id loses the summed quantity of the items that reference it, with no lower bound; the product count, all other fields and unreferenced products are unchanged |
| StoreContext.FindUser | src/context/StoreContext.tsx:284 | the user found is listed and has the name; none is found exactly when no user has it |
| StoreContext.FindUserFirst | src/context/StoreContext.tsx:284 | the user found is the first one with the name |
| StoreContext.Store.constructor | src/context/StoreContext.tsx:69-76 | every list starts empty and nobody is signed in |
| StoreContext.Store.AddProduct | src/context/StoreContext.tsx:124-137 | the new state is the old one with the new product appended |
| StoreContext.Store.UpdateProduct | src/context/StoreContext.tsx:139-147 | only the product list changes, by the id-keyed replacement |
| StoreContext.Store.DeleteProduct | src/context/StoreContext.tsx:149-158 | only the product list changes, losing exactly the products with the id |
| StoreContext.Store.AddSupplier | src/context/StoreContext.tsx:161-167 | only the supplier list changes, with the new supplier appended |
| StoreContext.Store.UpdateSupplier | src/context/StoreContext.tsx:169-173 | only the supplier list changes, by the id-keyed replacement |
| StoreContext.Store.DeleteSupplier | src/context/StoreContext.tsx:175-177 | only the supplier list changes, losing exactly the suppliers with the id |
| StoreContext.Store.AddCategory | src/context/StoreContext.tsx:180-186 | only the category list changes, with the new category appended |
| StoreContext.Store.UpdateCategory | src/context/StoreContext.tsx:188-192 | only the category list changes, by the id-keyed replacement |
| StoreContext.Store.DeleteCategory | src/context/StoreContext.tsx:194-196 | only the category list changes, losing exactly the categories with the id |
| StoreContext.Store.AddWarehouse | src/context/StoreContext.tsx:199-205 | only the warehouse list changes, with the new warehouse appended |
| StoreContext.Store.UpdateWarehouse | src/context/StoreContext.tsx:207-211 | only the warehouse list changes, by the id-keyed replacement |
| StoreContext.Store.DeleteWarehouse | src/context/StoreContext.tsx:213-215 | only the warehouse list changes, losing exactly the warehouses with the id |
| StoreContext.Store.AddUnit | src/context/StoreContext.tsx:218-224 | only the unit list changes, with the new unit appended |
| StoreContext.Store.UpdateUnit | src/context/StoreContext.tsx:226-230 | only the unit list changes, by the id-keyed replacement |
| StoreContext.Store.DeleteUnit | src/context/StoreContext.tsx:232-234 | only the unit list changes, losing exactly the units with the id |
| StoreContext.Store.AddInvoice | src/context/StoreContext.tsx:237-263 | the loop leaves the products with every item's quantity taken from its first matching product, and the invoice list gains the new invoice, authored by the signed-in user; nothing else changes |
| StoreContext.Store.UpdateInvoice | src/context/StoreContext.tsx:265-269 | only the invoice list changes, by the id-keyed replacement |
| StoreContext.Store.DeleteInvoice | src/context/StoreContext.tsx:271-280 | only the invoice list changes, losing exactly the invoices with the id |
| StoreContext.Store.Login | src/context/StoreContext.tsx:283-290 | succeeds exactly when some user has the name, and then signs in the first such user; a failed login changes nothing |
| StoreContext.Store.Logout | src/context/StoreContext.tsx:292-295 | only the signed-in user changes, to nobody |
| MockData.CodeNumber | src/store/mockData.ts:7 | `Math.floor(10000 + r * 90000)` lies in 10000..99999 for every draw in [0, 1) |
| MockData.GenerateProductCode | src/store/mockData.ts:5-9 | the code is `PROD-` followed by digits that read back as the drawn number |
| MockData.GeneratedCodeShape | src/store/mockData.ts:5-9 | every generated code has ten characters and a five-digit suffix in [10000, 99999] |
| MockData.MockUsers | src/store/mockData.ts:11-30 | three users, with the given ids in order; the first is `admin` with the admin role |
| MockData.MockCategories | src/store/mockData.ts:32-38 | five categories, with the given ids in order |
| MockData.MockSuppliers | src/store/mockData.ts:40-45 | four suppliers, with the given ids in order |
| MockData.MockWarehouses | src/store/mockData.ts:47-51 | three warehouses, with the given ids in order |
| MockData.MockUnits | src/store/mockData.ts:53-60 | six units, with the given ids in order |
| MockData.MockProducts | src/store/mockData.ts:62-148 | five products with the given ids, pairwise distinct codes, all active |
| MockData.MockInvoices | src/store/mockData.ts:150-204 | two invoices built from the seed products |
| MockData.MockInvoicesConsistent | src/store/mockData.ts:158-197 | in each seed invoice every line total is quantity times price and the subtotal is the sum of the line totals |
| Billing.FindProduct | src/pages/Billing.tsx:103 | the index of the first product whose id equals the given id, and -1 exactly when no product has it |
| Billing.WithProduct | src/pages/Billing.tsx:106-113 | picking a product copies its id and name, takes its selling price or 0, keeps the quantity, and sets total to price times quantity |
| Billing.WithQuantity | src/pages/Billing.tsx:124-143 | a product with no stock left zeroes quantity, price and total; otherwise the quantity becomes the entered one capped at the remaining stock, and the total follows at the item's price |
| Billing.RemovedAt | src/pages/Billing.tsx:148-152 | `splice(index, 1)` drops exactly the item at the index and keeps the others in order; an index past the end removes nothing |
| Billing.GrandTotal | src/pages/Billing.tsx:56-59 | the grand total is (subtotal - discount) * (1 + tax/100), so tax is charged after the discount |
| Billing.AddItemKeepsSubtotal | src/pages/Billing.tsx:95-100 | appending the blank row leaves the subtotal unchanged |
| Billing.RemoveItemSubtotal | src/pages/Billing.tsx:148-152 | removing a row takes exactly that row's total off the subtotal |
| Billing.ReplaceItemSubtotal | src/pages/Billing.tsx:106-114 | replacing one row changes the subtotal by the new total minus the old one |
| Billing.InvoiceDigits | src/pages/Billing.tsx:167 | `Math.floor(1000 + r * 9000)` lies in 1000..9999 for every draw in [0, 1) |
| Billing.InvoiceNumber | src/pages/Billing.tsx:167 | the number is `INV-` followed by four digits that read back as the drawn value |
| Billing.RequestLine | src/pages/Billing.tsx:179-185 | a request line keeps the item's product id and name, carries the whole part of a non-negative quantity, and carries price and total within half a cent of the item's |
| Billing.WholeQuantityIsParseInt | src/pages/Billing.tsx:183 | for a non-negative quantity, the request's whole quantity is exactly what `parseInt` reads from the quantity's `String()` text |
| Billing.Generate | src/pages/Billing.tsx:154-186 | a request is sent exactly when there are items, every quantity is positive and the subtotal is positive; it then has one line per item in order, each quantity cut to its whole part by `parseInt`, the discount, tax and grand total rounded to cents, and the generated number; no items and a zero quantity give their own outcomes |
| Billing.FractionalQuantitySentAsZero | src/pages/Billing.tsx:156-183 | a quantity between 0 and 1 passes the `quantity <= 0` check, yet its request line carries quantity 0 |
| Billing.PrintedRows | src/pages/Billing.tsx:245-259 | the printout lists the saved items (none when missing) in order, padded with blank rows to at least 25 |
| Billing.BlankRowsPrintNoAmounts | src/pages/Billing.tsx:341-359 | a filler row prints no price, no discount and no total |
| Billing.Page.constructor | src/pages/Billing.tsx:42-54 | the page's initial state: no products, no items, empty customer, zero discount and tax, no invoice number |
| Billing.Page.LoadProducts | src/pages/Billing.tsx:68 | the products become the fetched list, or empty when the response has none; nothing else changes |
| Billing.Page.HandleAddItem | src/pages/Billing.tsx:95-100 | one blank item is appended; nothing else changes |
| Billing.Page.HandleProductChange | src/pages/Billing.tsx:102-115 | an unknown product id changes nothing; otherwise only the item at the index takes the product |
| Billing.Page.HandleQuantityChange | src/pages/Billing.tsx:117-146 | with no product for the item's id nothing changes; otherwise only the item at the index takes the capped quantity |
| Billing.Page.HandleRemoveItem | src/pages/Billing.tsx:148-152 | the items become the spliced list; nothing else changes |
| Billing.Page.HandleGenerateInvoice | src/pages/Billing.tsx:154-210 | returns the outcome of the checks; the invoice number is replaced only when a request was sent and the server reported success |
| BillGenerator.NewBillItem | src/components/dashboard/BillGenerator.tsx:83-90 | the new item's id starts with `item-`; it has no product, quantity 1, price 0 and total 0 |
| BillGenerator.FindByCode | src/components/dashboard/BillGenerator.tsx:100 | the first product whose code equals the value, -1 exactly when none has it |
| BillGenerator.FindById | src/components/dashboard/BillGenerator.tsx:289 | the first product whose id equals the value the selector hands over, -1 exactly when none has it |
| BillGenerator.Picked | src/components/dashboard/BillGenerator.tsx:103-114 | the map keeps the length; only the items with the given id take the value, the product's name and price, and quantity times price as total |
| BillGenerator.ProductChanged | src/components/dashboard/BillGenerator.tsx:99-115 | corrected lookup: an unknown id leaves the bill as it was; otherwise the bill is the picked map for the first product with that id |
| BillGenerator.ProductChangedAsWritten | src/components/dashboard/BillGenerator.tsx:99-115 | the handler as written: when no product's code equals the selected value the bill is left as it was; otherwise it is the picked map for the first product with that code |
| BillGenerator.PickingIgnoredWhenCodesAreNotIds | src/components/dashboard/BillGenerator.tsx:99-115 | as written, when no product's code is also some product's id, picking any offered product leaves the bill unchanged |
| BillGenerator.PickingIgnoredAsWritten | src/components/dashboard/BillGenerator.tsx:99-101 | with one product whose id (`p1`) is not its code, picking that product leaves the bill unchanged as the lookup is written |
| BillGenerator.PickingOfferedProduct | src/components/dashboard/BillGenerator.tsx:281-289 | with the corrected lookup, picking any offered product gives the item that product's id, name and price, and the matching total |
| BillGenerator.QuantitySet | src/components/dashboard/BillGenerator.tsx:117-128 | only the items with the given id take the quantity, with total quantity times price; the length is kept |
| BillGenerator.AddKeepsTotals | src/components/dashboard/BillGenerator.tsx:83-92 | appending the new item keeps every total equal to quantity times price |
| BillGenerator.PickKeepsTotals | src/components/dashboard/BillGenerator.tsx:103-114 | picking a product keeps every total equal to quantity times price |
| BillGenerator.QuantityKeepsTotals | src/components/dashboard/BillGenerator.tsx:117-128 | entering a quantity keeps every total equal to quantity times price |
| BillGenerator.RemoveKeepsTotals | src/components/dashboard/BillGenerator.tsx:95-97 | removing items keeps every remaining total equal to quantity times price |
| BillGenerator.QuantityInput | src/components/dashboard/BillGenerator.tsx:301 | `parseInt(text) \|\| 1` is never 0: unreadable text and 0 give 1, any other integer is kept |
| BillGenerator.GrandTotal | src/components/dashboard/BillGenerator.tsx:58-66 | the grand total is subtotal * (1 + rate/100); at the default rate it is 1.1 times the subtotal |
| BillGenerator.RemoveItemSubtotal | src/components/dashboard/BillGenerator.tsx:95-97 | removing by id takes exactly the removed items' totals off the subtotal |
| BillGenerator.GenerateCheck | src/components/dashboard/BillGenerator.tsx:130-159 | the invoice is shown exactly when there is a customer name, at least one item and a product on every item; a missing name and an empty bill are reported first |
| BillGenerator.Generator.constructor | src/components/dashboard/BillGenerator.tsx:54-59 | the initial state holds no items, no customer name and the 10% rate, with the invoice hidden |
| BillGenerator.Generator.HandleAddItem | src/components/dashboard/BillGenerator.tsx:73-93 | an item is added exactly when there are products; otherwise nothing changes |
| BillGenerator.Generator.HandleRemoveItem | src/components/dashboard/BillGenerator.tsx:95-97 | the bill loses exactly the items with the given id |
| BillGenerator.Generator.HandleProductChange | src/components/dashboard/BillGenerator.tsx:99-115 | the bill becomes the corrected product change |
| BillGenerator.Generator.HandleQuantityChange | src/components/dashboard/BillGenerator.tsx:117-128 | the bill takes the parsed quantity for the given item |
| BillGenerator.Generator.HandleGenerateInvoice | src/components/dashboard/BillGenerator.tsx:130-159 | returns the check's outcome and shows the invoice exactly when it passes |
| Invoices.FormatDmyParts | src/pages/Invoices.tsx:36-42 | a valid date is written as two day digits, `/`, two month digits, `/`, then the year, and each part reads back as its field |
| Invoices.MapItem | src/pages/Invoices.tsx:55-61 | each item field is read from its spreadsheet key (`ProductID`, `ProductName`, `Quantity`, `Price`, `Total`) |
| Invoices.MapItems | src/pages/Invoices.tsx:55-61 | the items map one to one, with length and order preserved |
| Invoices.MapInvoiceKeys | src/pages/Invoices.tsx:34-63 | `id` and `invoiceNumber` are both the record's `InvoiceNumber`; a truthy date is rewritten as dd/mm/yyyy and any other passes through; missing items give the empty list |
| Invoices.MapAll | src/pages/Invoices.tsx:207 | every fetched record is mapped, in order |
| Invoices.AfterFetch | src/pages/Invoices.tsx:205-211 | the list is replaced by the mapped records exactly when `success` is truthy and `data` is an array; otherwise the state is unchanged |
| Invoices.WithoutInvoice | src/pages/Invoices.tsx:232 | an invoice survives the delete exactly when it was listed and its id differs |
| Invoices.WithoutInvoiceConcat | src/pages/Invoices.tsx:232 | the filter works invoice by invoice, so the survivors keep their order |
| Invoices.DeleteConfirmed | src/pages/Invoices.tsx:221-243 | nothing happens without a truthy pending id; otherwise a success removes the invoices with that id, a failure keeps the list, and the pending id is cleared either way |
| InvoicePrintPage.PadItems | src/pages/InvoicePrintPage.tsx:21-25 | the loop yields the items followed by empty records, up to at least 25 rows |
| InvoicePrintPage.OrBlank | src/pages/InvoicePrintPage.tsx:91-93 | `value \|\| ''` prints nothing exactly for a falsy value |
| InvoicePrintPage.FixedUnlessUndefined | src/pages/InvoicePrintPage.tsx:94-97 | `value !== undefined ? value.toFixed(2) : ''`: blank exactly for undefined, the amount for a number, and a TypeError for null, a string or a boolean |
| InvoicePrintPage.FixedOptional | src/pages/InvoicePrintPage.tsx:121-122 | `value?.toFixed(2)`: blank exactly for a nullish value, the amount for a number, and a TypeError for anything else |
| InvoicePrintPage.RowCells | src/pages/InvoicePrintPage.tsx:90-98 | a row renders exactly when its unit price, price and total are undefined or numbers and, on a row with a product name, the discount is nullish or a number |
| InvoicePrintPage.EmptyRowBlank | src/pages/InvoicePrintPage.tsx:24 | the `{}` padding record prints a row with nothing in it, whatever the discount |
| InvoicePrintPage.Rows | src/pages/InvoicePrintPage.tsx:89-99 | the table renders exactly when every padded row does, and then has one row per padded item, in order |
| InvoicePrintPage.SummaryCells | src/pages/InvoicePrintPage.tsx:119-124 | a summary row renders exactly when the item's price and the invoice's discount are each nullish or a number |
| InvoicePrintPage.SummaryRows | src/pages/InvoicePrintPage.tsx:118-125 | the summary renders exactly when every item's row does, and then has one row per real item, in order |
| InvoicePrintPage.Render | src/pages/InvoicePrintPage.tsx:17-19 | the notice is shown exactly when no invoice was handed over |
| InvoicePrintPage.RenderErrorIff | src/pages/InvoicePrintPage.tsx:89-139 | the page throws exactly when some real item, the discount it reads or the total is a non-number where `toFixed` is called; padding rows never throw |
| InvoicePrintPage.EmptyInvoiceIgnoresDiscount | src/pages/InvoicePrintPage.tsx:96-122 | with no items the discount is never read, so the note prints 25 blank rows and an empty summary whatever the discount holds |
| InvoicePrintPage.RenderShape | src/pages/InvoicePrintPage.tsx:21-125 | a printed note has max(25, n) rows: the items' rows in order, then rows printing nothing; the summary has one row per item |
| InvoicePrintPage.DiscountOnlyWithName | src/pages/InvoicePrintPage.tsx:96 | on a printed note a row's discount cell is filled exactly when the row prints a product name and the invoice's discount is not nullish |
| AiInsights.ShortName | src/components/dashboard/AiInsights.tsx:35-37 | a name of at most 15 characters is kept; a longer one becomes its first 15 characters followed by `...` |
| AiInsights.LowStockChosenShape | src/components/dashboard/AiInsights.tsx:29-33 | the low-stock chart shows min(10, number of low-stock products) products of the list, each under 10 units, fewest first |
| AiInsights.LowStockLeftOut | src/components/dashboard/AiInsights.tsx:31-33 | a low-stock product left off the chart has at least the quantity of every product shown |
| AiInsights.LowStockDataAt | src/components/dashboard/AiInsights.tsx:34-39 | each bar is its product's shortened name and its quantity |
| AiInsights.WhitespaceRun | src/components/dashboard/AiInsights.tsx:77 | the `\s+` run at the head of a text: only whitespace, and stopped at a non-whitespace character |
| AiInsights.TopCount | src/components/dashboard/AiInsights.tsx:77-113 | the number after the first `top <whitespace> <digits>` of the question, ignoring case, or 5 when there is none |
| AiInsights.TopCountReads | src/components/dashboard/AiInsights.tsx:77-78 | `top`, a space and the decimal digits of n, followed by a non-digit or nothing, ask for n rows |
| AiInsights.TopCountHereOf | src/components/dashboard/AiInsights.tsx:77-78 | a match starting at the head reads its digit run |
| AiInsights.TotalsKeys | src/components/dashboard/AiInsights.tsx:62 | the map's keys in entry order |
| AiInsights.MapSetKeys | src/components/dashboard/AiInsights.tsx:59 | `Map.set` keeps an existing key in its place and appends a new one |
| AiInsights.MapSetLookup | src/components/dashboard/AiInsights.tsx:58-59 | after `set(k, v)`, `get(k)` is v and every other key reads as before |
| AiInsights.MapSetSum | src/components/dashboard/AiInsights.tsx:59 | `set(k, v)` changes the sum of the values by v minus k's old value |
| AiInsights.LookupEntry | src/components/dashboard/AiInsights.tsx:58-62 | with distinct keys, each entry holds its key's value |
| AiInsights.CategoryTotalsKeys | src/components/dashboard/AiInsights.tsx:55-60 | the map has one key per distinct category, in order of first appearance |
| AiInsights.CategoryTotalsLookup | src/components/dashboard/AiInsights.tsx:55-60 | each category's entry is the sum of the quantities of its products |
| AiInsights.CategoryTotalsSum | src/components/dashboard/AiInsights.tsx:55-60 | the entries add up to the whole stock |
| AiInsights.AccumulateCategories | src/components/dashboard/AiInsights.tsx:55-60 | the `forEach` builds the category totals |
| AiInsights.SortedCategoryTotalsShape | src/components/dashboard/AiInsights.tsx:54-65 | the category chart has one entry per distinct category holding that category's quantity sum, largest first, adding up to the whole stock |
| AiInsights.SortedEntry | src/components/dashboard/AiInsights.tsx:62-63 | each sorted entry is a category of the list with its quantity sum |
| AiInsights.StockByCategoryDataAt | src/components/dashboard/AiInsights.tsx:62-64 | each slice is a sorted entry under its category name |
| AiInsights.RuleFor | src/components/dashboard/AiInsights.tsx:75-142 | top-by-quantity exactly when the lower-cased question contains `top` and `quantity`; low stock exactly when it does not and contains `low stock`; the price table exactly when neither holds and it contains `highest price` or `most expensive`; the category chart exactly when none of those holds and it contains `category`; the fallback exactly when no keyword matches |
| AiInsights.TopByQuantityShape | src/components/dashboard/AiInsights.tsx:80-87 | min(N, list length) products drawn from the list, most stock first |
| AiInsights.TopByQuantityLeftOut | src/components/dashboard/AiInsights.tsx:80-82 | no product left out has more stock than a listed one |
| AiInsights.TopByPriceShape | src/components/dashboard/AiInsights.tsx:115-121 | min(N, list length) products drawn from the list, most expensive first |
| AiInsights.TopByPriceLeftOut | src/components/dashboard/AiInsights.tsx:115-117 | no product left out costs more than a listed one |
| AiInsights.LowStockAllShape | src/components/dashboard/AiInsights.tsx:96-103 | the low-stock answer lists exactly the products under 10 units, each as often as in the list, fewest first |
| AiInsights.AnswerShape | src/components/dashboard/AiInsights.tsx:67-153 | each rule gives its own kind of answer, a "top" answer asks for `TopCount` rows and lists at most that many, and the product list is only reordered |
| AiInsights.Insights.constructor | src/components/dashboard/AiInsights.tsx:18 | the panel holds the product list it is given |
| AiInsights.Insights.HighestPricedData | src/components/dashboard/AiInsights.tsx:42-52 | the held list is sorted by price in place, highest first, and its first 10 are charted |
| AiInsights.Insights.SubmitQuery | src/components/dashboard/AiInsights.tsx:67-153 | the answer and the held list are those of the question's rule |
| Reports.GroupEntries | src/pages/Reports.tsx:59-81 | one entry per name, in the names' order, holding the total of the products of exactly that group |
| Reports.CategoryNames | src/pages/Reports.tsx:59-64 | the category names in list order |
| Reports.WarehouseRows | src/pages/Reports.tsx:84-97 | one row per name holding that warehouse's item count and stock value |
| Reports.GroupTotalCons | src/pages/Reports.tsx:60-75 | a product adds its amount to its own group's total and nothing to any other |
| Reports.HitsOnce | src/pages/Reports.tsx:70 | among distinct names, a product's group is counted once when listed and never otherwise |
| Reports.GroupEntriesCons | src/pages/Reports.tsx:59-81 | a product in front adds its amount once per listed name equal to its group |
| Reports.GroupEntriesSum | src/pages/Reports.tsx:59-97 | the entries of distinct names covering every product add up to the whole list's total |
| Reports.GroupEntriesEmpty | src/pages/Reports.tsx:59-61 | no products give zero totals |
| Reports.GroupNamesCover | src/pages/Reports.tsx:70-84 | `Array.from(new Set(...))` lists distinct names, every product's group among them and only groups of some product |
| Reports.StockDistributionTotal | src/pages/Reports.tsx:59-67 | with distinct category names covering every product, the slices add up to the whole stock |
| Reports.UnlistedCategoryIgnored | src/pages/Reports.tsx:59-61 | a product in an unlisted category changes no slice |
| Reports.OtherGroupUnchanged | src/pages/Reports.tsx:60-85 | adding a product leaves the totals of the other groups unchanged |
| Reports.SupplierListed | src/pages/Reports.tsx:70 | every product's supplier has an entry |
| Reports.SupplierEntries | src/pages/Reports.tsx:70-81 | every entry is some product's supplier and no supplier is listed twice |
| Reports.SupplierDataTotal | src/pages/Reports.tsx:70-81 | the suppliers' values add up to the stock value (purchase price × quantity) of all products |
| Reports.SupplierOrder | src/pages/Reports.tsx:70 | suppliers appear in the order of their first product |
| Reports.WarehouseDataTotals | src/pages/Reports.tsx:84-97 | warehouses are listed once each, and together they hold all items and the whole stock value |
| Reports.WarehouseColumns | src/pages/Reports.tsx:86-95 | the item and value columns are the quantity and stock-value group totals |
| Reports.WarehouseOrder | src/pages/Reports.tsx:84 | warehouses appear in the order of their first product |
| Reports.AiReply | src/pages/Reports.tsx:100-123 | no reply exactly when the question is blank; otherwise the first of `fastest selling`, `low stock`, `highest value` that the lower-cased question contains picks the reply, and the overview reply when none does |
| Inventory.JoinText | src/pages/Inventory.tsx:198 | how `join` writes an element: nullish values as nothing, anything else by its string form |
| Inventory.ExportCell | src/pages/Inventory.tsx:195-197 | a string cell is the string wrapped in one pair of double quotes with nothing escaped; any other cell is written as `join` writes it |
| Inventory.ExportRow | src/pages/Inventory.tsx:194-197 | one cell per displayed column, in column order |
| Inventory.HandleExportData | src/pages/Inventory.tsx:188-199 | the string built by the loop equals the prefix, the header line and one line per product in order |
| Inventory.LinesConcat | src/pages/Inventory.tsx:193-199 | the body for two product lists is the first list's lines followed by the second's |
| Inventory.ExportStartsWithHeader | src/pages/Inventory.tsx:189-191 | the export starts with the data-URI prefix and the comma-joined labels ended by a newline |
| Inventory.ExportLineCount | src/pages/Inventory.tsx:189-199 | with no line break inside a label or cell, the export holds exactly products + 1 line breaks |
| Inventory.HeaderBreaks | src/pages/Inventory.tsx:189-191 | the prefix and header line hold exactly one line break |
| Inventory.LinesLineCount | src/pages/Inventory.tsx:193-199 | the body holds exactly one line break per product |
| Inventory.CountAcross | src/pages/Inventory.tsx:193-199 | pieces holding one line break each hold, concatenated, one per piece |
| Inventory.ExportLineBreaks | src/pages/Inventory.tsx:198 | a product's line holds exactly one line break, at its end |
| Inventory.WithoutProduct | src/pages/Inventory.tsx:88-90 | the filter never lengthens the list |
| Inventory.WithoutProductMembership | src/pages/Inventory.tsx:88-90 | a product survives the delete exactly when it was listed and its `productid` differs |
| Inventory.WithoutProductIdempotent | src/pages/Inventory.tsx:88-90 | deleting the same id twice removes nothing more |
| Inventory.WithoutAbsentProduct | src/pages/Inventory.tsx:88-90 | deleting an id no product has leaves the list as it is |
| Inventory.DeleteConfirmed | src/pages/Inventory.tsx:75-100 | nothing happens without a truthy pending id; otherwise a success drops the products with that id, a failure keeps the list, and the pending id is cleared |
| Inventory.LowStockBadgeWhole | src/pages/Inventory.tsx:120-131 | for a whole-number quantity the badge shows exactly when it is below 10 |
| Inventory.NoBadgeWhenMissing | src/pages/Inventory.tsx:120-131 | a missing (undefined or null) quantity parses as NaN and shows no badge |
| Dashboard.Cell | src/pages/Dashboard.tsx:171 | `product[key] ?? ""` as `join` writes it: nullish fields give the empty string, others their string form |
| Dashboard.RowCells | src/pages/Dashboard.tsx:154-171 | one cell per displayed column, in column order |
| Dashboard.CsvLines | src/pages/Dashboard.tsx:175-178 | the header line comes first, then one line per product |
| Dashboard.HandleExport | src/pages/Dashboard.tsx:141-178 | a file is produced exactly when `success` is truthy and `data` is an array, and it is the CSV of that data |
| Dashboard.CsvLineOf | src/pages/Dashboard.tsx:170-178 | line i + 1 of the file is product i's row |
| Dashboard.CsvLineCount | src/pages/Dashboard.tsx:175-178 | with no line break inside a label or cell, the file holds exactly one line break per product |
| Dashboard.LowStockPanelShape | src/pages/Dashboard.tsx:322 | the panel shows at most five products, all low on stock, the first ones in list order; with fewer than five shown, it shows them all |
| AddProduct.NamingIssuesReport | src/pages/AddProduct.tsx:33-36 | the name, specification, category and supplier rules report a field exactly when its rule fails |
| AddProduct.PricingIssuesReport | src/pages/AddProduct.tsx:37-41 | the price, quantity, IVA and margin rules report a field exactly when its rule fails |
| AddProduct.CodeIssuesReport | src/pages/AddProduct.tsx:42-44 | the EAN, short and family code rules report a field exactly when its rule fails |
| AddProduct.PlacementIssuesReport | src/pages/AddProduct.tsx:45-48 | the unit, warehouse, entry date and remarks rules report a field exactly when its rule fails |
| AddProduct.IssuesReportFailures | src/pages/AddProduct.tsx:32-49 | the schema reports a field exactly when that field's rule fails |
| AddProduct.NamingEmpty | src/pages/AddProduct.tsx:33-36 | the naming group reports nothing exactly when its four rules pass |
| AddProduct.PricingEmpty | src/pages/AddProduct.tsx:37-41 | the pricing group reports nothing exactly when both prices are positive, the quantity is a positive integer and IVA and margin are not negative (NaN fails each) |
| AddProduct.CodeEmpty | src/pages/AddProduct.tsx:42-44 | the code group reports nothing exactly when the three codes are non-empty strings |
| AddProduct.PlacementEmpty | src/pages/AddProduct.tsx:45-48 | the placement group reports nothing exactly when unit and warehouse are non-empty, a date is set and remarks are a non-empty string |
| AddProduct.NoIssuesIffValid | src/pages/AddProduct.tsx:32-49 | the schema reports nothing exactly when every rule passes |
| AddProduct.Validate | src/pages/AddProduct.tsx:32-63 | the parse succeeds exactly when every rule passes, and then hands over each of the sixteen input values under its own field |
| AddProduct.ValidValues | src/pages/AddProduct.tsx:33-48 | submitted values have positive prices, a positive whole quantity, non-negative IVA and margin, and non-empty required text |
| AddProduct.BlankTextIssues | src/pages/AddProduct.tsx:33-48 | a form with blank text fields and a date reports every required text field, in schema order |
| AddProduct.DefaultsIssues | src/pages/AddProduct.tsx:62-83 | submitting the untouched form reports exactly the ten required text fields: the default prices 1, quantity 1 and rates 0 pass |
| AddProduct.AutoSellingPrice | src/pages/AddProduct.tsx:90-94 | the computed price is the purchase price times 1 + IVA/100 + margin/100, each input counting as 0 when it is not a number |
| AddProduct.SellingPriceAfter | src/pages/AddProduct.tsx:95-97 | the selling price is overwritten by the computed price rounded to cents (`parseFloat(toFixed(2))`) when that price is positive, and kept otherwise; a new value is within half a cent of the computed price |
| AddProduct.NoMarkupKeepsPurchasePrice | src/pages/AddProduct.tsx:90-97 | with IVA and margin 0 a positive purchase price in whole cents becomes the selling price unchanged |
| AddProduct.RoundingKeepsCentsFloor | src/pages/AddProduct.tsx:96 | rounding to cents never takes a price below a whole-cent amount it reaches |
| AddProduct.SubCentPriceLowered | src/pages/AddProduct.tsx:90-97 | a purchase price of 1.004 with rates 0 sets a selling price of 1.00, below the purchase price |
| AddProduct.TinyPriceRoundedToZero | src/pages/AddProduct.tsx:90-97 | a purchase price of 0.004 with rates 0 passes the `> 0` guard yet sets a selling price of 0 |
| AddProduct.MarkupNeverLowers | src/pages/AddProduct.tsx:90-97 | a positive purchase price in whole cents with non-negative (or non-numeric) rates always sets a selling price of at least the purchase price |
| AddProduct.ScaleUp | src/pages/AddProduct.tsx:91-94 | a positive base scaled by a factor of at least 1 does not shrink |
| AddProduct.NoBaseNoChange | src/pages/AddProduct.tsx:91-95 | a zero or non-numeric purchase price leaves the selling price untouched |
| AddProduct.AddPayload | src/pages/AddProduct.tsx:135-153 | the payload has 17 entries: `action: "product"` first, then each service name with the form's value for it |
| AddProduct.LookupAt | src/pages/AddProduct.tsx:135-153 | a key reads the value of its first entry |
| AddProduct.LookupMissing | src/pages/AddProduct.tsx:135-153 | a key with no entry reads nothing |
| AddProduct.LookupSkip | src/pages/AddProduct.tsx:135-153 | an entry inserted after the first hides no other key |
| AddProduct.FieldKeysDistinct | src/pages/AddProduct.tsx:137-152 | no service name occurs twice in the payload, and none is `action` |
| AddProduct.FieldLookup | src/pages/AddProduct.tsx:135-153 | in a payload laid out by the service names, each name reads its own value |
| AddProduct.AddPayloadNaming | src/pages/AddProduct.tsx:137-140 | name and specification are posted as they are, the category as `Category_ID` and the supplier as `Supplier_ID` |
| AddProduct.AddPayloadPricing | src/pages/AddProduct.tsx:141-150 | the prices and the quantity are posted as numbers, and IVA and margin as `IVA` and `Margin` |
| AddProduct.AddPayloadCodes | src/pages/AddProduct.tsx:145-147 | the codes are posted as `EAN_Code`, `Short_Code` and `Product_Family_Code` |
| AddProduct.AddPayloadPlacement | src/pages/AddProduct.tsx:148-152 | unit and warehouse are posted as `Unit_Id` and `Warehouse_Id`, the date as `yyyy-MM-dd` text and the remark as `remarks` |
| AddProduct.AddPayloadOnlyKnownKeys | src/pages/AddProduct.tsx:135-153 | a name outside the payload's list reads nothing |
| EditProduct.NonEmptyString | src/pages/EditProduct.tsx:33-38 | an accepted value is a string or a number, turned into its text |
| EditProduct.NonEmptyStringAccepts | src/pages/EditProduct.tsx:33-38 | a string is refused exactly when it is all whitespace, a number is never refused, anything else always is |
| EditProduct.EditDefaultsIssues | src/pages/EditProduct.tsx:74-94 | submitting the untouched edit form reports the ten text fields and also both prices and the quantity, whose defaults are 0 |
| EditProduct.FetchedProduct | src/pages/EditProduct.tsx:138 | an array response yields its first record (none when empty), an object response yields itself, no data yields none |
| EditProduct.OrEmpty | src/pages/EditProduct.tsx:151-156 | a truthy value is kept, a falsy one becomes `""` |
| EditProduct.OrEmptyRequired | src/pages/EditProduct.tsx:151-156 | a field loaded through `\|\| ""` passes `min(1)` exactly when the record holds a non-empty string |
| EditProduct.Reset | src/pages/EditProduct.tsx:140-157 | each form field is read from the record under its service name: name and specification as they are, ids stringified, both prices and the quantity through `Number`, IVA and margin through `Number(..) \|\| 0`, the three codes and the remarks through `\|\| ""`, and the date as parsed |
| EditProduct.ResetNonNumericRates | src/pages/EditProduct.tsx:150-153 | a non-numeric IVA or margin loads as 0, which passes its rule |
| EditProduct.EmptyTextReported | src/pages/EditProduct.tsx:50-56 | an empty EAN code or remarks text is reported |
| EditProduct.ResetMissingCodes | src/pages/EditProduct.tsx:151-156 | a record without EAN code or remarks loads empty text, which the schema reports |
| EditProduct.ResetMissingIdPasses | src/pages/EditProduct.tsx:143 | a record without `Category_ID` loads the text `undefined`, which passes the category rule |
| EditProduct.LoadProduct | src/pages/EditProduct.tsx:128-168 | the load fails exactly when no record was fetched, and otherwise fills the form from that record |
| EditProduct.EmptyResultFails | src/pages/EditProduct.tsx:138-161 | an empty array response never loads a form |
| EditProduct.IdValue | src/pages/EditProduct.tsx:65 | `productid` is the query parameter, or null without one |
| EditProduct.EditPayload | src/pages/EditProduct.tsx:172-191 | the payload has 18 entries, `action` then `productid` first |
| EditProduct.EditPayloadExtendsAdd | src/pages/EditProduct.tsx:172-191 | apart from `productid`, every key reads as in the add page's payload |
| EditProduct.EditPayloadDate | src/pages/EditProduct.tsx:189 | the edit page also posts the entry date as `yyyy-MM-dd` |
| Dates.TwoDigitsValue | src/pages/Invoices.tsx:38-40 | `padStart(2, '0')` of a number below 100 is two digits that read back as it |
| Dates.FormatYmdParts | src/pages/AddProduct.tsx:151 | `yyyy-MM-dd` of a date whose era year has at most four digits is ten characters whose parts read back as month, day and era year; a year up to 0 is printed as 1 minus it, without a sign |
| Domain.ProductCodes | src/components/inventory/ImportDialog.tsx:94 | the codes of the products, position by position |
| JsValues.Normalize | src/pages/Invoices.tsx:39 | dropping trailing zeros of the fraction keeps the number's value |
| JsValues.ParseFloat | src/components/dashboard/SmartFileUploader.tsx:346-348 | a parsed number is the value of a decimal literal at the head of the text after leading whitespace |
| JsValues.OrZero | src/components/dashboard/SmartFileUploader.tsx:346-348 | `x \|\| 0` keeps a number and turns NaN into 0 |
| JsValues.ParseFloatNat | src/components/dashboard/SmartFileUploader.tsx:346 | `parseFloat` reads back the decimal text of a whole number |
| JsValues.ParseFloatNeedsDigit | src/components/dashboard/SmartFileUploader.tsx:346-348 | `parseFloat` of text without a digit is NaN |
| JsValues.ParseFloatNoNumber | src/components/dashboard/SmartFileUploader.tsx:346-348 | `parseFloat` of text that starts with a visible character no number can begin with is NaN |
| JsValues.NumberTextVisible | src/pages/EditProduct.tsx:35-36 | `String(n)` of a number is never empty and never starts with whitespace |
| JsValues.ParseIntOfNumber | src/pages/Billing.tsx:183 | `parseInt(String(n))` of a non-negative number is the whole part of `n`: the digits up to the decimal point |
| JsValues.RoundToCents | src/pages/Billing.tsx:176-185 | `parseFloat(x.toFixed(2))` lies within half a cent of `x`, is a whole number of cents and keeps the sign of `x` |
| JsValues.RoundToCentsKeepsCents | src/pages/Billing.tsx:176-185 | an amount already in whole cents is sent unchanged |
| Records.GetSet | src/components/dashboard/SmartFileUploader.tsx:230 | after `item[k] = v`, `item[k]` is v and every other key reads as before |
| Records.KeysSet | src/components/dashboard/SmartFileUploader.tsx:230 | an assignment keeps the key order and adds a new key last (insertion order, for keys that are not array indices) |
| Records.GetFirstEntry | src/components/dashboard/SmartFileUploader.tsx:326 | reading a key gives the value of its entry |
| Seqs.FilterMembership | src/pages/Reports.tsx:60 | `filter` keeps exactly the elements that pass |
| Seqs.SomesMembership | src/components/dashboard/SmartFileUploader.tsx:388 | `filter(Boolean)` keeps exactly the present values |
| Seqs.RemoveByIdMembership | src/context/StoreContext.tsx:175-178 | a delete by id keeps exactly the elements with another id |
| Seqs.RemoveByIdConcat | src/context/StoreContext.tsx:175-178 | a delete by id keeps the survivors' order |
| Seqs.Dedup | src/pages/Reports.tsx:70 | `Array.from(new Set(...))` has each value once and exactly the values of the input |
| Seqs.DedupFirstOccurrenceOrder | src/pages/Reports.tsx:70 | the unique values come in order of their first occurrence |
| Seqs.LastIndex | src/components/dashboard/SmartFileUploader.tsx:57 | `lastIndexOf` gives the greatest position of the value, or -1 exactly when it is absent |
| Seqs.SortBySorted | src/components/dashboard/AiInsights.tsx:32 | the sort orders by key and is a permutation of its input |
| Seqs.SortBySum | src/components/dashboard/AiInsights.tsx:62-63 | sorting does not change a sum over the list |
| Seqs.SortByStable | src/components/dashboard/AiInsights.tsx:32 | the sort is stable: for every key, the elements with that key keep their input order |
| Seqs.TakeSortBy | src/components/dashboard/AiInsights.tsx:32-33 | the first n of the sorted list are sorted, as many as there are up to n, and drawn from the list |
| Seqs.TakeSortByLeftOut | src/components/dashboard/AiInsights.tsx:32-33 | nothing left out of the first n has a smaller key than something taken |
| Seqs.PadRows | src/pages/InvoicePrintPage.tsx:21-25 | padding gives max(minimum, n) rows: the rows first, in order, then blanks |
| Text.ToLower | src/components/dashboard/SmartFileUploader.tsx:57 | `toLowerCase` keeps the length and lowers each letter |
| Text.WithoutToLower | src/components/dashboard/SmartFileUploader.tsx:306 | lower-casing and deleting whitespace commute |
| Text.WithoutTrim | src/components/dashboard/SmartFileUploader.tsx:306 | deleting all whitespace makes an earlier `trim` redundant |
| Text.TrimBlank | src/pages/Reports.tsx:101 | `trim()` is empty exactly when the text is all whitespace |
| Text.NatToStringRoundTrip | src/store/mockData.ts:7 | the decimal text of a number reads back as it |
| Text.JoinCount | src/pages/Dashboard.tsx:175-178 | joining n separator-free pieces puts n - 1 separators between them |

## Left out

- Network and storage I/O is not modelled. This covers the `fetch` calls of every page (products, customers, invoices, exports, deletes) and `localStorage` persistence (src/context/StoreContext.tsx:79-121). A response enters the model as a parameter: its `success` flag, its `data` and the server's reply.
- File reading is not modelled: `FileReader`, the Papa CSV parser and the XLSX workbook reader. Parsed rows enter as records, and a thrown parse error enters as an outcome.
- `formatBytes` (src/components/dashboard/SmartFileUploader.tsx:47-54) is left out. It is display text only.
- Console logging, toasts, alerts, navigation, `setTimeout`, the print window's HTML and `window.print` are left out. They are effects outside the program's state.
- `uuid`, `Math.random` and the current date are parameters, because they are not deterministic.
- Domain.Invoice: the optional `customerContact`, `customerAddress`, `paymentStatus`, `createdBy`, `createdAt`, `updatedBy` and `updatedAt` of an invoice (src/types/index.ts:57-68) are not fields of the model. No modelled operation reads them from a stored invoice, so `MockData.MockInvoices` drops the contact and address the mock invoices carry (src/store/mockData.ts:156-157, 186-187). The billing request takes them from the chosen customer instead (`Billing.Generate`).
- Date parsing is not modelled. The calendar fields of a parsed `Date` are passed in (`None` when the text does not parse).
- JsValues.ParseFloat: reads decimal text only; "Infinity", "+Infinity" and "-Infinity", which `parseFloat` reads as an infinite value, give None (NaN) here. So a quantity cell "Infinity" becomes 0 in SmartFileUploader's projection, where JavaScript keeps Infinity.
- JsValues.StringToNumber: reads decimal text only; "Infinity" with an optional sign and the "0x", "0b" and "0o" integer literals ("0x1F" is 31 in JavaScript) give None (NaN) here. So `Inventory.LowStockBadge(Str("-Infinity"))` shows no badge, where JavaScript shows one.
- BillGenerator.Generator.HandleProductChange: follows the corrected lookup by id (`BillGenerator.ProductChanged`), not the lookup by `productCode` as written (src/components/dashboard/BillGenerator.tsx:100), which leaves the bill unchanged when codes are not ids. `BillGenerator.ProductChangedAsWritten` models the written code, and the "## Findings" row records the difference.
- Floating point is not modelled: numbers are exact decimals. `NaN` is a separate outcome of `Number()` and `parseFloat` rather than a value, and `toFixed(2)` display rounding is shown as an amount cell.
- AddProduct.SellingPriceAfter: computes base·(1 + IVA/100 + margin/100) and its `parseFloat(toFixed(2))` rounding (src/pages/AddProduct.tsx:96) on exact reals; how binary doubles round at a half cent (1.005 gives "1.00") is not modelled.
- AddProduct.NoMarkupKeepsPurchasePrice: stated only for purchase prices in whole cents, because the rounding lowers others (`SubCentPriceLowered`).
- AddProduct.MarkupNeverLowers: stated only for purchase prices in whole cents, for the same reason (`SubCentPriceLowered`, `TinyPriceRoundedToZero`).
- Reports.SupplierDataTotal: the per-supplier values are not rounded with `parseFloat(toFixed(2))` (src/pages/Reports.tsx:79), so that the totals lemma can state the exact sum of the stock values; each rounding moves an entry by at most half a cent.
- Reports.WarehouseDataTotals: the per-warehouse values are not rounded with `parseFloat(toFixed(2))` (src/pages/Reports.tsx:95), so that the totals lemma can state the exact sums; each rounding moves an entry by at most half a cent.
- Billing.Generate: the cent rounding of the price, line total, discount, tax and grand total (src/pages/Billing.tsx:176-185) is applied to the exact value, a tie going away from zero. The source rounds the binary double, so an amount such as 1.005, stored just below itself, is sent as 1.00 where the model sends 1.01. `parseInt` is modelled as the whole part of the quantity. The source reads the quantity's `String()` text, which is in exponent notation below 10^-6, so a quantity such as 0.0000001 is sent as 1 where the model sends 0.
- AiInsights.AnswerShape: a price row carries the number rather than its `$x.xx` text (src/components/dashboard/AiInsights.tsx:120), because `toFixed` is not modelled.
- SmartFileUploader.ProjectRow: the per-row `catch` (src/components/dashboard/SmartFileUploader.tsx:384-387) cannot fire in the model. No modelled step throws, so a row is either projected or skipped for having no name.
- `toLowerCase` is modelled on ASCII letters only. `\s` is the JavaScript WhiteSpace and LineTerminator set. String lengths count Dafny characters, where JavaScript's `length` and `substring` count UTF-16 code units, so `AiInsights.ShortName` agrees with the source only on text without characters outside the Basic Multilingual Plane.
- JavaScript strict equality on values is structural equality of `JsValue`.
- ToProductData (ImportDialog.ToProductData): the store's product record types the name, specification and remarks as text, so the model reads these raw cells with `String()`. The source hands the raw values to `addProduct` as they are (src/components/inventory/ImportDialog.tsx:138-149), so a numeric name cell is stored as a number. A text cell, the usual case, passes through unchanged.
- Records.KeysSet: states plain insertion order; JavaScript's `Object.keys` lists integer-like keys (array indices such as "2024") first, in ascending order, so an assignment to such a key is not added last there.
- SmartFileUploader.SheetItemKeys: states the first-occurrence order of the headers; with a header that is an array index JavaScript lists it first (headers ["name", "2024"] give the keys ["2024", "name"]), so the order holds only for headers that are not array indices.
- FinishImport (ImportDialog.Dialog.FinishImport): the products it adds to the store carry the `String()` reading of ToProductData, not the raw cell values; its store contents follow the corrected reading of AddCollected, not the one-render loss (see Findings).
- ProcessImport (ImportDialog.Dialog.ProcessImport): its committed products carry the `String()` reading of ToProductData, not the raw cell values; its store contents follow the corrected reading of AddCollected, not the one-render loss (see Findings).
- HandleImport (ImportDialog.Dialog.HandleImport): when it commits, the products carry the `String()` reading of ToProductData, not the raw cell values; its store contents follow the corrected reading of AddCollected, not the one-render loss (see Findings).
- AddCollected (ImportDialog.Dialog.AddCollected): the repeated `addProduct` calls are modelled as if each call sees the state the previous one left, so the store gains every committed product in order. In the source (src/components/inventory/ImportDialog.tsx:137-151, src/context/StoreContext.tsx:132) the `forEach` runs synchronously inside one handler, and every call sets the products to `[...products, newProduct]` over the same captured `products`. So only the last committed product is kept, while the counters report all of them. StoreContext.AddedInOneRender models that behaviour and ImportDialog.OneRenderAddsOnlyLast exhibits the loss; the dialog's methods state the appending reading (see Findings).
- The loop of `processImport` that changes product objects in place (`keep` appends `_copy` to the shared object) is modelled as a reassigned `seq`. The aliasing is stated as data: the preview sees the changed code.
- `Store.LoadMockData` (seeding the store from mock data) is not a member. The seed records themselves are modelled in `MockData`.
- `BillGenerator.handleUploadComplete` (src/components/dashboard/BillGenerator.tsx:173-205) is left out, because it refers to the undefined names `data` and `format`.
- The Dashboard's `products` state is never populated in the source, so its low-stock panel is modelled over a parameter list (always empty in the app).
- Translated labels and the displayed column list are parameters. The i18n tables are not part of the model.
- The user editing a form between its reset and its submit is not modelled. A submit is modelled over the form's values as given.
- The edit form reads the fetched record's `IVA/Tax` column (src/pages/EditProduct.tsx:150) but submits the tax as `IVA` (src/pages/EditProduct.tsx:182). The model keeps both keys as written and does not judge which one the service expects.
- `nonEmptyString` in src/pages/EditProduct.tsx is defined but not used by that file's `formSchema`, which repeats the add form's rules. The model follows the code.
- The row projection is stated by its count and by the shape of each product. No lemma relates the projection of `a + b` to the projections of `a` and `b`.
- These files are not part of this model:
  - authentication and session pages;
  - the master-data forms;
  - layout, theme and i18n components;
  - the basic `FileUploader`;
  - `PrintInvoice`.

## Findings

| source | as written | input that shows it | evidently intended | confidence | as-written member | corrected member |
|---|---|---|---|---|---|---|
| src/components/dashboard/BillGenerator.tsx:99-115 | the product change handler looks the product up by `productCode`, but the selector (line 289) passes the product's `productid` as the value | a product with id `p1` and code `PROD-10001`: picking it passes `p1`, no product has code `p1`, and the item stays blank | look the product up by the id the selector passes | not executed | BillGenerator.PickingIgnoredAsWritten, BillGenerator.PickingIgnoredWhenCodesAreNotIds, BillGenerator.ProductChangedAsWritten | BillGenerator.ProductChanged, BillGenerator.PickingOfferedProduct |
| src/components/inventory/ImportDialog.tsx:137-151 | the import calls `addProduct` once per collected product inside one synchronous `forEach`, and each call (src/context/StoreContext.tsx:132) sets the products to `[...products, newProduct]` over the same captured `products` | two collected products whose codes the store does not have: the store gains only the second one, while the result reports 2 added | every collected product is appended (a functional update `setProducts(prev => [...prev, newProduct])`) | not executed | StoreContext.AddedInOneRender, ImportDialog.OneRenderAddsOnlyLast | ImportDialog.Dialog.AddCollected, StoreContext.AddProductsStep |
