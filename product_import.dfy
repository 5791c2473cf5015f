/**
 * The CSV product import. The header row is normalised and mapped onto the expected column names;
 * each later row is validated, looked up by barcode and then by reference, and either updates the
 * product it finds or inserts a new one. Invalid and blank rows are skipped and reported; the whole
 * batch is one transaction.
 */
module ProductImport {
  import opened Wrappers
  import opened Store
  import Php
  import Catalog

  const REQUIRED_HEADERS: seq<string> := ["name", "category_id", "purchase_price", "sale_price", "current_stock", "alert_threshold"]
  const OPTIONAL_HEADERS: seq<string> := ["barcode", "reference", "location"]
  const EXPECTED_HEADERS: seq<string> := REQUIRED_HEADERS + OPTIONAL_HEADERS

  // ---------------------------------------------------------------------------
  // The header row

  /** `strtolower(trim(str_replace([' ', '-'], '_', $h)))`: spaces become underscores before the trim. */
  function CleanHeader(h: string): string {
    Php.Lower(Php.Trim(Php.Underscored(h)))
  }

  /** `$header_map`: each expected column name mapped to the position of the last header cell that cleans to it. */
  function HeaderMap(header: seq<string>): map<string, nat> {
    if header == [] then map[]
    else
      var m := HeaderMap(header[..|header| - 1]);
      var c := CleanHeader(header[|header| - 1]);
      if c in EXPECTED_HEADERS then m[c := |header| - 1] else m
  }

  /** The header map holds exactly the expected names that occur in the header. */
  lemma {:induction false} HeaderMapKeys(header: seq<string>, name: string)
    ensures name in HeaderMap(header) <==>
      name in EXPECTED_HEADERS && exists i :: 0 <= i < |header| && CleanHeader(header[i]) == name
  {
    if header != [] {
      var init := header[..|header| - 1];
      HeaderMapKeys(init, name);
      assert forall i :: 0 <= i < |init| ==> init[i] == header[i];
    }
  }

  /** Each name in the header map points at the last header cell that cleans to it. */
  lemma {:induction false} HeaderMapLast(header: seq<string>, name: string)
    requires name in HeaderMap(header)
    ensures HeaderMap(header)[name] < |header|
    ensures CleanHeader(header[HeaderMap(header)[name]]) == name
    ensures forall j :: HeaderMap(header)[name] < j < |header| ==> CleanHeader(header[j]) != name
  {
    var init := header[..|header| - 1];
    if CleanHeader(header[|header| - 1]) != name {
      assert name in HeaderMap(init) && HeaderMap(header)[name] == HeaderMap(init)[name];
      HeaderMapLast(init, name);
      assert forall i :: 0 <= i < |init| ==> init[i] == header[i];
    } else {
      HeaderMapKeys(header, name);
      assert HeaderMap(header)[name] == |header| - 1;
    }
  }

  /** A header padded with spaces is not recognised: the spaces turn into underscores, which trim keeps. */
  lemma PaddedHeaderIsNotRecognised()
    ensures CleanHeader(" name") == "_name"
    ensures "_name" !in EXPECTED_HEADERS
  {
    assert Php.Underscored(" name") == "_name";
    assert Php.TrimLeft("_name") == "_name";
    assert Php.TrimRight("_name") == "_name";
    assert Php.Lower("_name") == "_name";
  }

  /** The foreach over the header cells that fills `$header_map`. */
  method BuildHeaderMap(header: seq<string>) returns (m: map<string, nat>)
    ensures m == HeaderMap(header)
  {
    m := map[];
    for i := 0 to |header|
      invariant m == HeaderMap(header[..i])
    {
      assert header[..i + 1][..i] == header[..i];
      var clean := CleanHeader(header[i]);
      if clean in EXPECTED_HEADERS {
        m := m[clean := i];
      }
    }
    assert header[..|header|] == header;
  }

  /** `array_diff($required_headers, array_keys($header_map))`, in the order of the required list. */
  function Missing(names: seq<string>, present: set<string>): (r: seq<string>)
    ensures forall h :: h in r <==> h in names && h !in present
    ensures |r| <= |names|
  {
    if names == [] then []
    else (if names[0] in present then [] else [names[0]]) + Missing(names[1..], present)
  }

  // ---------------------------------------------------------------------------
  // The categories

  function CategoryKey(c: Category): string {
    Php.Lower(Php.Trim(c.name))
  }

  /** `$categories_name_to_id`: lower-cased trimmed name to id, a later category overriding an earlier one. */
  function CategoryNames(categories: seq<Category>): map<string, Id> {
    if categories == [] then map[]
    else
      var last := categories[|categories| - 1];
      CategoryNames(categories[..|categories| - 1])[CategoryKey(last) := last.id]
  }

  /** Every name resolves to the id of a category with that name. */
  lemma {:induction false} CategoryNamesSpec(categories: seq<Category>)
    ensures forall key :: key in CategoryNames(categories) ==>
      exists i :: 0 <= i < |categories| && CategoryKey(categories[i]) == key && categories[i].id == CategoryNames(categories)[key]
    ensures forall i :: 0 <= i < |categories| ==> CategoryKey(categories[i]) in CategoryNames(categories)
  {
    if categories != [] {
      var init := categories[..|categories| - 1];
      CategoryNamesSpec(init);
      assert forall i :: 0 <= i < |init| ==> init[i] == categories[i];
    }
  }

  /** The while loop over `SELECT id, name FROM categories` that fills both lookup tables. */
  method LoadCategories(categories: seq<Category>) returns (ids: set<Id>, names: map<string, Id>)
    ensures ids == CategoryIds(categories) && names == CategoryNames(categories)
  {
    ids, names := {}, map[];
    for i := 0 to |categories|
      invariant ids == CategoryIds(categories[..i]) && names == CategoryNames(categories[..i])
    {
      assert categories[..i + 1][..i] == categories[..i];
      ids := ids + {categories[i].id};
      names := names[CategoryKey(categories[i]) := categories[i].id];
    }
    assert categories[..|categories|] == categories;
  }

  // ---------------------------------------------------------------------------
  // One data row

  /** What a row is checked against: the header map, both category tables and the number filters. */
  datatype Context = Context(headers: map<string, nat>, categoryIds: set<Id>, categoryNames: map<string, Id>, filters: Php.Filters)

  /** `$row[$header_map[$name]] ?? ''`: an unmapped column or a short row reads as "". */
  function Cell(row: seq<string>, headers: map<string, nat>, name: string): string {
    if name in headers && headers[name] < |row| then row[headers[name]] else ""
  }

  /** `count(array_filter($row)) == 0`: every cell is empty in PHP's sense ("" or "0"). */
  predicate Blank(row: seq<string>) {
    forall i :: 0 <= i < |row| ==> Php.Empty(row[i])
  }

  datatype RowProblem =
    | BlankRow
    | MissingName
    | MissingCategory
    | UnknownCategory(value: string)
    | BadPurchasePrice
    | BadSalePrice
    | BadStock
    | BadThreshold

  /** One entry of `$import_errors`: the row number (counting the header as row 0) and what was wrong. */
  datatype RowError = RowError(row: nat, problems: seq<RowProblem>)

  /**
   * The category of a row: its value as an existing integer id, otherwise (when the value is not
   * empty) the id of the category whose trimmed lower-cased name matches.
   */
  function ResolveCategory(value: string, ctx: Context): (r: Option<Id>)
    ensures r.Some? ==> r.value in ctx.categoryIds || r.value in ctx.categoryNames.Values
    ensures ctx.filters.validateInt(value).Some? && ctx.filters.validateInt(value).value in ctx.categoryIds ==>
      r == ctx.filters.validateInt(value)
    ensures Php.Empty(value) && r.Some? ==> r.value in ctx.categoryIds
    ensures !(ctx.filters.validateInt(value).Some? && ctx.filters.validateInt(value).value in ctx.categoryIds) ==>
      r == (if !Php.Empty(value) && Php.Lower(Php.Trim(value)) in ctx.categoryNames
            then Some(ctx.categoryNames[Php.Lower(Php.Trim(value))]) else None)
  {
    var parsed := ctx.filters.validateInt(value);
    if parsed.Some? && parsed.value in ctx.categoryIds then parsed
    else if Php.Empty(value) then None
    else
      var key := Php.Lower(Php.Trim(value));
      if key in ctx.categoryNames then Some(ctx.categoryNames[key]) else None
  }

  /** A price column: trimmed, decimal comma replaced by a point, parsed, and at least 0. */
  function Price(row: seq<string>, ctx: Context, column: string): Option<real> {
    var v := ctx.filters.validateFloat(Php.CommaToDot(Php.Trim(Cell(row, ctx.headers, column))));
    if v.Some? && v.value >= 0.0 then v else None
  }

  /** A count column: trimmed, decimal comma replaced by a point, parsed as an integer, and at least 0. */
  function Count(row: seq<string>, ctx: Context, column: string): Option<int> {
    var v := ctx.filters.validateInt(Php.CommaToDot(Php.Trim(Cell(row, ctx.headers, column))));
    if v.Some? && v.value >= 0 then v else None
  }

  datatype RowCheck = Accept(product: Product) | Reject(problems: seq<RowProblem>)

  /** `$row_errors` from the outcome of each check: one entry per failed check, in the order the checks run. */
  function ProblemList(noName: bool, noCategory: bool, categoryValue: string, badPurchase: bool, badSale: bool,
                       badStock: bool, badThreshold: bool): seq<RowProblem> {
    (if noName then [MissingName] else [])
    + (if noCategory then [if Php.Empty(categoryValue) then MissingCategory else UnknownCategory(categoryValue)] else [])
    + (if badPurchase then [BadPurchasePrice] else [])
    + (if badSale then [BadSalePrice] else [])
    + (if badStock then [BadStock] else [])
    + (if badThreshold then [BadThreshold] else [])
  }

  /** Each failed check, and no passed one, has its entry in the list. */
  lemma ProblemListNamesEachCheck(noName: bool, noCategory: bool, categoryValue: string, badPurchase: bool,
                                  badSale: bool, badStock: bool, badThreshold: bool)
    ensures var l := ProblemList(noName, noCategory, categoryValue, badPurchase, badSale, badStock, badThreshold);
      && (MissingName in l <==> noName)
      && ((MissingCategory in l || UnknownCategory(categoryValue) in l) <==> noCategory)
      && (BadPurchasePrice in l <==> badPurchase)
      && (BadSalePrice in l <==> badSale)
      && (BadStock in l <==> badStock)
      && (BadThreshold in l <==> badThreshold)
      && (l == [] <==> !noName && !noCategory && !badPurchase && !badSale && !badStock && !badThreshold)
  {
    var a := if noName then [MissingName] else [];
    var b := if noCategory then [if Php.Empty(categoryValue) then MissingCategory else UnknownCategory(categoryValue)] else [];
    var c := if badPurchase then [BadPurchasePrice] else [];
    var d := if badSale then [BadSalePrice] else [];
    var e := if badStock then [BadStock] else [];
    var f := if badThreshold then [BadThreshold] else [];
    ProblemIn(MissingName, a, b, c, d, e, f);
    ProblemIn(MissingCategory, a, b, c, d, e, f);
    ProblemIn(UnknownCategory(categoryValue), a, b, c, d, e, f);
    ProblemIn(BadPurchasePrice, a, b, c, d, e, f);
    ProblemIn(BadSalePrice, a, b, c, d, e, f);
    ProblemIn(BadStock, a, b, c, d, e, f);
    ProblemIn(BadThreshold, a, b, c, d, e, f);
  }

  lemma ProblemIn(x: RowProblem, a: seq<RowProblem>, b: seq<RowProblem>, c: seq<RowProblem>,
                  d: seq<RowProblem>, e: seq<RowProblem>, f: seq<RowProblem>)
    ensures x in a + b + c + d + e + f <==> x in a || x in b || x in c || x in d || x in e || x in f
  {
  }

  /**
   * The per-field checks of a row: a non-empty name, a resolvable category, prices and counts that
   * parse and are not negative. An accepted row carries the trimmed, typed values.
   */
  function CheckRow(row: seq<string>, ctx: Context): (r: RowCheck)
    ensures r.Accept? ==>
      && !Php.Empty(r.product.name)
      && (r.product.categoryId in ctx.categoryIds || r.product.categoryId in ctx.categoryNames.Values)
      && r.product.purchasePrice >= 0.0 && r.product.salePrice >= 0.0
      && r.product.currentStock >= 0 && r.product.alertThreshold >= 0
    ensures r.Reject? ==> r.problems != []
  {
    var name := Php.Trim(Cell(row, ctx.headers, "name"));
    var category := ResolveCategory(Php.Trim(Cell(row, ctx.headers, "category_id")), ctx);
    var purchase := Price(row, ctx, "purchase_price");
    var sale := Price(row, ctx, "sale_price");
    var stock := Count(row, ctx, "current_stock");
    var threshold := Count(row, ctx, "alert_threshold");
    if !Php.Empty(name) && category.Some? && purchase.Some? && sale.Some? && stock.Some? && threshold.Some? then
      Accept(Product(name, Php.Trim(Cell(row, ctx.headers, "barcode")), Php.Trim(Cell(row, ctx.headers, "reference")),
                     category.value, purchase.value, sale.value, stock.value, threshold.value,
                     Php.Trim(Cell(row, ctx.headers, "location"))))
    else
      Reject(ProblemList(Php.Empty(name), category.None?, Php.Trim(Cell(row, ctx.headers, "category_id")),
                         purchase.None?, sale.None?, stock.None?, threshold.None?))
  }

  /**
   * A row is accepted exactly when every check passes, and the accepted product holds the trimmed
   * text cells, the resolved category and the parsed numbers.
   */
  lemma CheckRowAccepts(row: seq<string>, ctx: Context)
    ensures CheckRow(row, ctx).Accept? <==>
      && !Php.Empty(Php.Trim(Cell(row, ctx.headers, "name")))
      && ResolveCategory(Php.Trim(Cell(row, ctx.headers, "category_id")), ctx).Some?
      && Price(row, ctx, "purchase_price").Some? && Price(row, ctx, "sale_price").Some?
      && Count(row, ctx, "current_stock").Some? && Count(row, ctx, "alert_threshold").Some?
    ensures CheckRow(row, ctx).Accept? ==>
      var p := CheckRow(row, ctx).product;
      && p.name == Php.Trim(Cell(row, ctx.headers, "name"))
      && p.barcode == Php.Trim(Cell(row, ctx.headers, "barcode"))
      && p.reference == Php.Trim(Cell(row, ctx.headers, "reference"))
      && p.location == Php.Trim(Cell(row, ctx.headers, "location"))
      && p.categoryId == ResolveCategory(Php.Trim(Cell(row, ctx.headers, "category_id")), ctx).value
      && p.purchasePrice == Price(row, ctx, "purchase_price").value
      && p.salePrice == Price(row, ctx, "sale_price").value
      && p.currentStock == Count(row, ctx, "current_stock").value
      && p.alertThreshold == Count(row, ctx, "alert_threshold").value
  {
  }

  /** A rejected row names every failed check and no other: all six checks have their own problem. */
  lemma RejectedRowProblems(row: seq<string>, ctx: Context)
    requires CheckRow(row, ctx).Reject?
    ensures MissingName in CheckRow(row, ctx).problems <==> Php.Empty(Php.Trim(Cell(row, ctx.headers, "name")))
    ensures (MissingCategory in CheckRow(row, ctx).problems || UnknownCategory(Php.Trim(Cell(row, ctx.headers, "category_id"))) in CheckRow(row, ctx).problems)
      <==> ResolveCategory(Php.Trim(Cell(row, ctx.headers, "category_id")), ctx).None?
    ensures BadPurchasePrice in CheckRow(row, ctx).problems <==> Price(row, ctx, "purchase_price").None?
    ensures BadSalePrice in CheckRow(row, ctx).problems <==> Price(row, ctx, "sale_price").None?
    ensures BadStock in CheckRow(row, ctx).problems <==> Count(row, ctx, "current_stock").None?
    ensures BadThreshold in CheckRow(row, ctx).problems <==> Count(row, ctx, "alert_threshold").None?
  {
    ProblemListNamesEachCheck(Php.Empty(Php.Trim(Cell(row, ctx.headers, "name"))),
      ResolveCategory(Php.Trim(Cell(row, ctx.headers, "category_id")), ctx).None?,
      Php.Trim(Cell(row, ctx.headers, "category_id")),
      Price(row, ctx, "purchase_price").None?, Price(row, ctx, "sale_price").None?,
      Count(row, ctx, "current_stock").None?, Count(row, ctx, "alert_threshold").None?);
  }

  // ---------------------------------------------------------------------------
  // The lookup

  function Barcode(p: Product): string {
    p.barcode
  }

  function Reference(p: Product): string {
    p.reference
  }

  /**
   * `SELECT id FROM products WHERE <field> = :value LIMIT 1`, taken to return the lowest matching id
   * (the ids in use all lie in [lo, hi)).
   */
  function LowestWith(products: map<Id, Product>, field: Product -> string, value: string, lo: int, hi: int): (r: Option<Id>)
    ensures r.Some? ==> lo <= r.value < hi && r.value in products && field(products[r.value]) == value
    ensures r.Some? ==> forall k :: lo <= k < r.value && k in products ==> field(products[k]) != value
    ensures r.None? <==> forall k :: lo <= k < hi && k in products ==> field(products[k]) != value
    decreases hi - lo
  {
    if lo >= hi then None
    else if lo in products && field(products[lo]) == value then Some(lo)
    else LowestWith(products, field, value, lo + 1, hi)
  }

  /**
   * `$existing_product_id`: the barcode is looked up when it is not empty; the reference only when a
   * barcode was looked up and matched nothing. An empty barcode leaves the id NULL, so the reference
   * is never consulted.
   */
  function ExistingProduct(products: map<Id, Product>, nextId: Id, barcode: string, reference: string): (r: Option<Id>)
    ensures r.Some? ==> r.value in products
    ensures Php.Empty(barcode) ==> r.None?
    ensures !Php.Empty(barcode) && LowestWith(products, Barcode, barcode, 1, nextId).Some? ==>
      r == LowestWith(products, Barcode, barcode, 1, nextId)
    ensures !Php.Empty(barcode) && LowestWith(products, Barcode, barcode, 1, nextId).None? ==>
      r == (if Php.Empty(reference) then None else LowestWith(products, Reference, reference, 1, nextId))
  {
    if Php.Empty(barcode) then None
    else
      var byBarcode := LowestWith(products, Barcode, barcode, 1, nextId);
      if byBarcode.Some? || Php.Empty(reference) then byBarcode
      else LowestWith(products, Reference, reference, 1, nextId)
  }

  /** The UPDATE of a matched product: every imported column except barcode and reference. */
  function Overwritten(current: Product, p: Product): (r: Product)
    ensures r.barcode == current.barcode && r.reference == current.reference
    ensures r.currentStock == p.currentStock && r.name == p.name && r.categoryId == p.categoryId
    ensures r.purchasePrice == p.purchasePrice && r.salePrice == p.salePrice && r.alertThreshold == p.alertThreshold
    ensures Php.Empty(p.location) <==> r.location == ""
    ensures !Php.Empty(p.location) ==> r.location == p.location
  {
    current.(name := p.name, categoryId := p.categoryId, purchasePrice := p.purchasePrice, salePrice := p.salePrice,
             currentStock := p.currentStock, alertThreshold := p.alertThreshold, location := Php.OrNull(p.location))
  }

  // ---------------------------------------------------------------------------
  // The batch

  /** The transaction's view of the products table and the loop's counters. */
  datatype ImportState = ImportState(products: map<Id, Product>, nextId: Id, imported: nat, skipped: nat, errors: seq<RowError>)

  /** A skipped row: counted, and reported under its row number. */
  function SkipRow(st: ImportState, n: nat, problems: seq<RowProblem>): ImportState {
    st.(skipped := st.skipped + 1, errors := st.errors + [RowError(n, problems)])
  }

  /** An accepted row: the UPDATE of the product it matches, or the INSERT of a new product. */
  function WriteRow(st: ImportState, p: Product): ImportState {
    var existing := ExistingProduct(st.products, st.nextId, p.barcode, p.reference);
    if existing.Some? then
      st.(products := st.products[existing.value := Overwritten(st.products[existing.value], p)], imported := st.imported + 1)
    else
      st.(products := st.products[st.nextId := Catalog.StoredRow(p)], nextId := st.nextId + 1, imported := st.imported + 1)
  }

  /** One data row, numbered `n`: skipped as blank, skipped as invalid, or written. */
  function ApplyRow(st: ImportState, n: nat, row: seq<string>, ctx: Context): ImportState {
    if Blank(row) then SkipRow(st, n, [BlankRow])
    else
      match CheckRow(row, ctx)
      case Reject(problems) => SkipRow(st, n, problems)
      case Accept(p) => WriteRow(st, p)
  }

  /** A written row keeps the ids below the next id and leaves every existing barcode and reference as it was. */
  lemma WriteRowKeeps(st: ImportState, p: Product, k: Id)
    requires KeysBelow(st.products, st.nextId)
    ensures var after := WriteRow(st, p);
      && KeysBelow(after.products, after.nextId) && st.nextId <= after.nextId
      && (k in st.products ==>
            k in after.products && after.products[k].barcode == st.products[k].barcode
            && after.products[k].reference == st.products[k].reference)
  {
  }

  /** The first `n` rows after the header; the first of them is counted but never looked at. */
  function ImportFold(init: ImportState, rows: seq<seq<string>>, n: nat, ctx: Context): ImportState
    requires n <= |rows|
  {
    if n == 0 then init
    else
      var prev := ImportFold(init, rows, n - 1, ctx);
      if n == 1 then prev else ApplyRow(prev, n, rows[n - 1], ctx)
  }

  /** Every row after the first is either imported or skipped, and each skipped row leaves one error. */
  lemma {:induction false} ImportCounts(init: ImportState, rows: seq<seq<string>>, n: nat, ctx: Context)
    requires 1 <= n <= |rows|
    ensures var st := ImportFold(init, rows, n, ctx);
      && st.imported + st.skipped == init.imported + init.skipped + n - 1
      && |st.errors| - |init.errors| == st.skipped - init.skipped
  {
    if n > 1 {
      ImportCounts(init, rows, n - 1, ctx);
    }
  }

  /** The content of the first row after the header never matters. */
  lemma {:induction false} FirstDataRowIgnored(init: ImportState, rows: seq<seq<string>>, other: seq<string>, n: nat, ctx: Context)
    requires 1 <= n <= |rows|
    ensures ImportFold(init, rows, n, ctx) == ImportFold(init, rows[0 := other], n, ctx)
  {
    if n > 1 {
      FirstDataRowIgnored(init, rows, other, n - 1, ctx);
    }
  }

  /** The imported count never decreases along the batch. */
  lemma {:induction false} ImportedGrows(init: ImportState, rows: seq<seq<string>>, m: nat, n: nat, ctx: Context)
    requires m <= n <= |rows|
    ensures ImportFold(init, rows, m, ctx).imported <= ImportFold(init, rows, n, ctx).imported
    decreases n - m
  {
    if m < n {
      ImportedGrows(init, rows, m, n - 1, ctx);
    }
  }

  /**
   * Existing products stay, with their barcode and reference unchanged (an update never writes
   * them), and the ids handed out stay below the next id.
   */
  lemma {:induction false} ImportKeepsCodes(init: ImportState, rows: seq<seq<string>>, n: nat, ctx: Context, k: Id)
    requires n <= |rows| && KeysBelow(init.products, init.nextId)
    ensures var st := ImportFold(init, rows, n, ctx);
      && KeysBelow(st.products, st.nextId) && init.nextId <= st.nextId
      && (k in init.products ==>
            k in st.products && st.products[k].barcode == init.products[k].barcode
            && st.products[k].reference == init.products[k].reference)
  {
    if n > 0 {
      ImportKeepsCodes(init, rows, n - 1, ctx, k);
      var prev := ImportFold(init, rows, n - 1, ctx);
      if n > 1 && !Blank(rows[n - 1]) && CheckRow(rows[n - 1], ctx).Accept? {
        WriteRowKeeps(prev, CheckRow(rows[n - 1], ctx).product, k);
      }
    }
  }

  /** An accepted row without a barcode always inserts, even when its reference is already in use. */
  lemma RowWithoutBarcodeInserts(st: ImportState, n: nat, row: seq<string>, ctx: Context)
    requires !Blank(row) && CheckRow(row, ctx).Accept? && Php.Empty(CheckRow(row, ctx).product.barcode)
    ensures ApplyRow(st, n, row, ctx).nextId == st.nextId + 1
    ensures ApplyRow(st, n, row, ctx).products == st.products[st.nextId := Catalog.StoredRow(CheckRow(row, ctx).product)]
  {
  }

  datatype ImportOutcome =
    | NotAuthorised
    | MissingHeaders(names: seq<string>)
    | ImportStorageError
    | ImportDone(rowCount: nat, imported: nat, skipped: nat, errors: seq<RowError>)

  /**
   * The row loop, on a copy of the products table. `ok` is false when one of the UPDATE/INSERT
   * statements throws; the k-th accepted row issues write k.
   */
  method ImportRows(products: map<Id, Product>, nextId: Id, rows: seq<seq<string>>, ctx: Context, fault: Fault)
    returns (ok: bool, st: ImportState)
    ensures var final := ImportFold(ImportState(products, nextId, 0, 0, []), rows, |rows|, ctx);
      && (ok <==> !FailsBefore(fault, final.imported))
      && (ok ==> st == final)
  {
    var init := ImportState(products, nextId, 0, 0, []);
    st := init;
    var rowCount := 0;
    for i := 0 to |rows|
      invariant rowCount == i
      invariant st == ImportFold(init, rows, i, ctx)
      invariant !FailsBefore(fault, st.imported)
    {
      rowCount := rowCount + 1;
      if rowCount == 1 {
        continue;
      }
      var row := rows[i];
      if Blank(row) {
        st := SkipRow(st, rowCount, [BlankRow]);
        continue;
      }
      var check := CheckRow(row, ctx);
      if check.Reject? {
        st := SkipRow(st, rowCount, check.problems);
        continue;
      }
      if FailsAt(fault, st.imported) {
        ImportedGrows(init, rows, i + 1, |rows|, ctx);
        return false, st;
      }
      st := WriteRow(st, check.product);
    }
    ok := true;
  }

  /**
   * import_products. Only the administrator (role 1) may import; all six required columns must
   * be named in the header. Then every row after the first is processed in one transaction:
   * blank and invalid rows are skipped and reported, valid rows update or insert. A failed write
   * rolls the whole batch back. No movement is written for the stock values imported.
   */
  method ImportProducts(db: Database, role: int, header: seq<string>, rows: seq<seq<string>>, filters: Php.Filters, fault: Fault)
    returns (r: ImportOutcome)
    requires db.Valid()
    modifies db
    ensures db.Valid()
    ensures r == NotAuthorised <==> role != 1
    ensures r.MissingHeaders? <==> role == 1 && Missing(REQUIRED_HEADERS, HeaderMap(header).Keys) != []
    ensures r.MissingHeaders? ==> r.names == Missing(REQUIRED_HEADERS, HeaderMap(header).Keys)
    ensures !r.ImportDone? ==> db.tables == old(db.tables)
    ensures var t := old(db.tables);
      var ctx := Context(HeaderMap(header), CategoryIds(t.categories), CategoryNames(t.categories), filters);
      var final := ImportFold(ImportState(t.products, t.nextProductId, 0, 0, []), rows, |rows|, ctx);
      && (r == ImportStorageError <==>
            role == 1 && Missing(REQUIRED_HEADERS, HeaderMap(header).Keys) == [] && FailsBefore(fault, final.imported))
      && (r.ImportDone? ==>
            && r == ImportDone(|rows|, final.imported, final.skipped, final.errors)
            && db.tables == t.(products := final.products, nextProductId := final.nextId))
  {
    if role != 1 {
      return NotAuthorised;
    }
    var headers := BuildHeaderMap(header);
    var missing := Missing(REQUIRED_HEADERS, headers.Keys);
    if missing != [] {
      return MissingHeaders(missing);
    }
    var t := db.tables;
    var ids, names := LoadCategories(t.categories);
    var ctx := Context(headers, ids, names, filters);
    var ok, st := ImportRows(t.products, t.nextProductId, rows, ctx, fault);
    if !ok {
      return ImportStorageError;
    }
    ImportKeepsCodes(ImportState(t.products, t.nextProductId, 0, 0, []), rows, |rows|, ctx, 0);
    db.tables := t.(products := st.products, nextProductId := st.nextId);
    r := ImportDone(|rows|, st.imported, st.skipped, st.errors);
  }
}
