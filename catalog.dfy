/**
 * The product form: adding a product and editing one. Both check that a given barcode or
 * reference is not already used by another product and that the category exists; an edit
 * overwrites current_stock directly, without a ledger entry.
 */
module Catalog {
  import opened Wrappers
  import opened Store
  import Php

  /** The posted fields of the add and edit forms, as text. */
  datatype ProductForm = ProductForm(
    name: string,
    barcode: string,
    reference: string,
    categoryId: string,
    purchasePrice: string,
    salePrice: string,
    currentStock: string,
    alertThreshold: string,
    location: string)

  /**
   * The typed values of a form: text fields trimmed, numbers through `filter_var`. None when the
   * name is empty or one of the numbers does not parse; the numbers are not range-checked.
   */
  function ParseForm(f: ProductForm, filters: Php.Filters): (r: Option<Product>)
    ensures r.Some? <==>
      && !Php.Empty(Php.Trim(f.name))
      && filters.validateInt(f.categoryId).Some?
      && filters.validateFloat(f.purchasePrice).Some? && filters.validateFloat(f.salePrice).Some?
      && filters.validateInt(f.currentStock).Some? && filters.validateInt(f.alertThreshold).Some?
    ensures r.Some? ==>
      && r.value.name == Php.Trim(f.name)
      && r.value.barcode == Php.Trim(f.barcode) && r.value.reference == Php.Trim(f.reference)
      && r.value.categoryId == filters.validateInt(f.categoryId).value
      && r.value.purchasePrice == filters.validateFloat(f.purchasePrice).value
      && r.value.salePrice == filters.validateFloat(f.salePrice).value
      && r.value.currentStock == filters.validateInt(f.currentStock).value
      && r.value.alertThreshold == filters.validateInt(f.alertThreshold).value
      && r.value.location == Php.Trim(f.location)
  {
    var name := Php.Trim(f.name);
    var category := filters.validateInt(f.categoryId);
    var purchase := filters.validateFloat(f.purchasePrice);
    var sale := filters.validateFloat(f.salePrice);
    var stock := filters.validateInt(f.currentStock);
    var threshold := filters.validateInt(f.alertThreshold);
    if Php.Empty(name) || category.None? || purchase.None? || sale.None? || stock.None? || threshold.None? then None
    else Some(Product(name, Php.Trim(f.barcode), Php.Trim(f.reference), category.value, purchase.value, sale.value,
                      stock.value, threshold.value, Php.Trim(f.location)))
  }

  /**
   * `SELECT COUNT(*) FROM products WHERE (barcode = :b OR reference = :r) [AND id != :id] > 0`, where
   * each condition is present only for a non-empty value.
   */
  predicate CodeTaken(products: map<Id, Product>, barcode: string, reference: string, except: Option<Id>) {
    exists k | k in products ::
      && (except.None? || k != except.value)
      && ((!Php.Empty(barcode) && products[k].barcode == barcode) || (!Php.Empty(reference) && products[k].reference == reference))
  }

  /** The row as stored: empty barcode, reference and location become NULL. */
  function StoredRow(p: Product): (r: Product)
    ensures r.name == p.name && r.categoryId == p.categoryId && r.currentStock == p.currentStock
    ensures Php.Empty(p.barcode) <==> r.barcode == ""
    ensures !Php.Empty(p.barcode) ==> r.barcode == p.barcode
    ensures Php.Empty(p.reference) <==> r.reference == ""
    ensures !Php.Empty(p.reference) ==> r.reference == p.reference
    ensures Php.Empty(p.location) <==> r.location == ""
    ensures !Php.Empty(p.location) ==> r.location == p.location
    ensures r.purchasePrice == p.purchasePrice && r.salePrice == p.salePrice && r.alertThreshold == p.alertThreshold
  {
    p.(barcode := Php.OrNull(p.barcode), reference := Php.OrNull(p.reference), location := Php.OrNull(p.location))
  }

  datatype ProductOutcome = InvalidForm | DuplicateCode | UnknownCategory | ProductStorageError | ProductSaved(id: Id)

  /**
   * add_product. An invalid form is rejected; then a barcode or reference already in use; then an
   * unknown category. Otherwise the product is inserted with a fresh id.
   */
  method AddProduct(db: Database, form: ProductForm, filters: Php.Filters, fault: Fault) returns (r: ProductOutcome)
    requires db.Valid()
    modifies db
    ensures db.Valid()
    ensures r == InvalidForm <==> ParseForm(form, filters).None?
    ensures r == DuplicateCode <==>
      && ParseForm(form, filters).Some?
      && CodeTaken(old(db.tables.products), ParseForm(form, filters).value.barcode, ParseForm(form, filters).value.reference, None)
    ensures r == UnknownCategory <==>
      && ParseForm(form, filters).Some?
      && !CodeTaken(old(db.tables.products), ParseForm(form, filters).value.barcode, ParseForm(form, filters).value.reference, None)
      && ParseForm(form, filters).value.categoryId !in CategoryIds(old(db.tables.categories))
    ensures r == ProductStorageError <==>
      && ParseForm(form, filters).Some?
      && !CodeTaken(old(db.tables.products), ParseForm(form, filters).value.barcode, ParseForm(form, filters).value.reference, None)
      && ParseForm(form, filters).value.categoryId in CategoryIds(old(db.tables.categories))
      && FailsAt(fault, 0)
    ensures !r.ProductSaved? ==> db.tables == old(db.tables)
    ensures r.ProductSaved? ==>
      && ParseForm(form, filters).Some? && r.id == old(db.tables.nextProductId)
      && db.tables == old(db.tables).(products := old(db.tables.products)[r.id := StoredRow(ParseForm(form, filters).value)],
                                      nextProductId := r.id + 1)
  {
    var parsed := ParseForm(form, filters);
    if parsed.None? {
      return InvalidForm;
    }
    var p := parsed.value;
    var t := db.tables;
    if CodeTaken(t.products, p.barcode, p.reference, None) {
      return DuplicateCode;
    }
    if p.categoryId !in CategoryIds(t.categories) {
      return UnknownCategory;
    }
    if FailsAt(fault, 0) {
      return ProductStorageError;
    }
    var id := t.nextProductId;
    db.tables := t.(products := t.products[id := StoredRow(p)], nextProductId := id + 1);
    r := ProductSaved(id);
  }

  /**
   * update_product. As for an insert, except that the id must parse and the duplicate check
   * ignores the product itself. Every column is overwritten, current_stock included; an id with
   * no row updates nothing and is still reported as saved.
   */
  method UpdateProduct(db: Database, productId: Option<int>, form: ProductForm, filters: Php.Filters, fault: Fault)
    returns (r: ProductOutcome)
    requires db.Valid()
    modifies db
    ensures db.Valid()
    ensures r == InvalidForm <==> productId.None? || ParseForm(form, filters).None?
    ensures r == DuplicateCode <==>
      && productId.Some? && ParseForm(form, filters).Some?
      && CodeTaken(old(db.tables.products), ParseForm(form, filters).value.barcode, ParseForm(form, filters).value.reference, productId)
    ensures r == UnknownCategory <==>
      && productId.Some? && ParseForm(form, filters).Some?
      && !CodeTaken(old(db.tables.products), ParseForm(form, filters).value.barcode, ParseForm(form, filters).value.reference, productId)
      && ParseForm(form, filters).value.categoryId !in CategoryIds(old(db.tables.categories))
    ensures r == ProductStorageError <==>
      && productId.Some? && ParseForm(form, filters).Some?
      && !CodeTaken(old(db.tables.products), ParseForm(form, filters).value.barcode, ParseForm(form, filters).value.reference, productId)
      && ParseForm(form, filters).value.categoryId in CategoryIds(old(db.tables.categories))
      && FailsAt(fault, 0)
    ensures !r.ProductSaved? ==> db.tables == old(db.tables)
    ensures r.ProductSaved? ==>
      && productId.Some? && ParseForm(form, filters).Some? && r.id == productId.value
      && db.tables == old(db.tables).(products := UpdatedRow(old(db.tables.products), r.id, ParseForm(form, filters).value))
  {
    var parsed := ParseForm(form, filters);
    if productId.None? || parsed.None? {
      return InvalidForm;
    }
    var id, p := productId.value, parsed.value;
    var t := db.tables;
    if CodeTaken(t.products, p.barcode, p.reference, Some(id)) {
      return DuplicateCode;
    }
    if p.categoryId !in CategoryIds(t.categories) {
      return UnknownCategory;
    }
    if FailsAt(fault, 0) {
      return ProductStorageError;
    }
    db.tables := t.(products := UpdatedRow(t.products, id, p));
    r := ProductSaved(id);
  }

  /** `UPDATE products SET ... WHERE id = :id`: the row is replaced when it exists; no row is created. */
  function UpdatedRow(products: map<Id, Product>, id: Id, p: Product): (r: map<Id, Product>)
    ensures r.Keys == products.Keys
    ensures forall k :: k in products && k != id ==> r[k] == products[k]
    ensures id in products ==> r[id] == StoredRow(p)
  {
    if id in products then products[id := StoredRow(p)] else products
  }

  /** A product added past the duplicate check holds a barcode and a reference that no other product has. */
  lemma AddedCodesAreUnique(products: map<Id, Product>, id: Id, p: Product)
    requires id !in products && !CodeTaken(products, p.barcode, p.reference, None)
    ensures var after := products[id := StoredRow(p)];
      && (!Php.Empty(p.barcode) ==> forall k :: k in after && k != id ==> after[k].barcode != after[id].barcode)
      && (!Php.Empty(p.reference) ==> forall k :: k in after && k != id ==> after[k].reference != after[id].reference)
  {
  }

  /** The same for an edit: no other product holds the edited product's barcode or reference. */
  lemma UpdatedCodesAreUnique(products: map<Id, Product>, id: Id, p: Product)
    requires id in products && !CodeTaken(products, p.barcode, p.reference, Some(id))
    ensures var after := UpdatedRow(products, id, p);
      && (!Php.Empty(p.barcode) ==> forall k :: k in after && k != id ==> after[k].barcode != after[id].barcode)
      && (!Php.Empty(p.reference) ==> forall k :: k in after && k != id ==> after[k].reference != after[id].reference)
  {
  }

  /**
   * An edit sets current_stock without appending a movement, so a product whose stock matched
   * its ledger no longer does once the edit changes the stock.
   */
  lemma EditBypassesLedger(t: Tables, id: Id, p: Product, base: int)
    requires id in t.products && t.products[id].currentStock == base + LedgerSum(t.movements, id)
    requires p.currentStock != t.products[id].currentStock
    ensures var after := t.(products := UpdatedRow(t.products, id, p));
      && after.movements == t.movements
      && after.products[id].currentStock != base + LedgerSum(after.movements, id)
  {
  }
}
