/**
 * The persistent store: one field per database table, the shared stock-ledger
 * functions, and the storage-failure model used by every transactional handler.
 *
 * A NULL string column is written "" throughout.
 */
module Store {
  import opened Wrappers

  type Id = int

  datatype Product = Product(
    name: string,
    barcode: string,
    reference: string,
    categoryId: Id,
    purchasePrice: real,
    salePrice: real,
    currentStock: int,
    alertThreshold: int,
    location: string)

  /** The facts a movement's generated note is formatted from; `UserNote` is free text typed by the user. */
  datatype Note =
    | NoNote
    | UserNote(text: string)
    | SaleNote(saleId: Id, quantity: int, productName: string)
    | ReceiptNote(orderId: Id, itemId: Id, quantity: int)

  /** One row of `stock_movements`; `quantity` is signed (positive = stock increase). */
  datatype Movement = Movement(productId: Id, movementType: string, quantity: int, note: Note, userId: int, date: int)

  datatype Sale = Sale(
    totalAmount: real,
    taxAmount: real,
    discountAmount: real,
    finalAmount: real,
    userId: int,
    customerName: string,
    notes: string,
    date: int)

  datatype SaleItem = SaleItem(saleId: Id, productId: Id, quantity: int, unitPrice: real, lineTotal: real)

  datatype PoStatus = Pending | Sent | Received | Cancelled

  datatype PurchaseOrder = PurchaseOrder(supplierId: Id, totalAmount: real, status: PoStatus, userId: int, notes: string)

  datatype PoItem = PoItem(orderId: Id, productId: Id, quantityOrdered: int, unitPrice: real, lineTotal: real, quantityReceived: int)

  datatype Category = Category(id: Id, name: string)

  /** The ENUM values of `stock_movements.movement_type` written by the engines. */
  const SALE_OUT: string := "Sortie - Vente"
  const RECEIPT_IN: string := "Entree - Approvisionnement"
  const ADJUSTMENT_IN: string := "Entree - Ajustement"
  const BREAKAGE_OUT: string := "Sortie - Casse"
  const INTERNAL_USE_OUT: string := "Sortie - Usage Interne"

  /** `quantity * unit_price`, the line total stored with every cart line and order item. */
  function LineAmount(quantity: int, unitPrice: real): real {
    quantity as real * unitPrice
  }

  /** Every table at one instant. `categories` is in the order a bare SELECT returns it. */
  datatype Tables = Tables(
    products: map<Id, Product>,
    nextProductId: Id,
    categories: seq<Category>,
    suppliers: set<Id>,
    movements: seq<Movement>,
    sales: map<Id, Sale>,
    nextSaleId: Id,
    saleItems: seq<SaleItem>,
    orders: map<Id, PurchaseOrder>,
    nextOrderId: Id,
    orderItems: map<Id, PoItem>,
    nextItemId: Id)

  /** The ids of the categories table. */
  function CategoryIds(categories: seq<Category>): (r: set<Id>)
    ensures forall id :: id in r <==> exists i :: 0 <= i < |categories| && categories[i].id == id
  {
    set i | 0 <= i < |categories| :: categories[i].id
  }

  /** Auto-increment keys start at 1 and every stored key lies below the next one to be handed out. */
  ghost predicate KeysBelow<V>(m: map<Id, V>, next: Id) {
    1 <= next && forall k :: k in m ==> 1 <= k < next
  }

  ghost predicate WellKeyed(t: Tables) {
    && KeysBelow(t.products, t.nextProductId)
    && KeysBelow(t.sales, t.nextSaleId)
    && KeysBelow(t.orders, t.nextOrderId)
    && KeysBelow(t.orderItems, t.nextItemId)
  }

  /**
   * The database connection's persistent state. Handlers read `tables`, build the new state in
   * locals, and publish it with a single assignment when their transaction commits.
   */
  class Database {
    var tables: Tables

    ghost predicate Valid()
      reads this
    {
      WellKeyed(tables)
    }

    /** An empty store over the given reference data (categories and suppliers are owned by other screens). */
    constructor (categories: seq<Category>, suppliers: set<Id>)
      ensures Valid()
      ensures tables == Tables(map[], 1, categories, suppliers, [], map[], 1, [], map[], 1, map[], 1)
    {
      tables := Tables(map[], 1, categories, suppliers, [], map[], 1, [], map[], 1, map[], 1);
    }
  }

  // ---------------------------------------------------------------------------
  // Storage failures

  /** A storage failure: NoFault, or the `index`-th write statement (counting from 0) of the handler throws. */
  datatype Fault = NoFault | FailAtWrite(index: nat)

  predicate FailsAt(f: Fault, k: nat) {
    f.FailAtWrite? && f.index == k
  }

  /** Some write among the first `n` of the handler throws. */
  predicate FailsBefore(f: Fault, n: nat) {
    f.FailAtWrite? && f.index < n
  }

  // ---------------------------------------------------------------------------
  // The stock ledger

  /** `UPDATE products SET current_stock = current_stock + delta WHERE id = :id`: no row changes when `id` is absent. */
  function WithDelta(products: map<Id, Product>, id: Id, delta: int): (r: map<Id, Product>)
    ensures r.Keys == products.Keys
    ensures forall k :: k in products && k != id ==> r[k] == products[k]
    ensures id in products ==> r[id] == products[id].(currentStock := products[id].currentStock + delta)
  {
    if id in products then products[id := products[id].(currentStock := products[id].currentStock + delta)] else products
  }

  /** The products table after applying each movement's signed quantity, oldest first. */
  function ApplyMovements(products: map<Id, Product>, ms: seq<Movement>): (r: map<Id, Product>)
    ensures r.Keys == products.Keys
  {
    if ms == [] then products
    else
      var last := ms[|ms| - 1];
      WithDelta(ApplyMovements(products, ms[..|ms| - 1]), last.productId, last.quantity)
  }

  /** Sum of the signed quantities of the movements of product `id`. */
  function LedgerSum(ms: seq<Movement>, id: Id): int {
    if ms == [] then 0
    else LedgerSum(ms[..|ms| - 1], id) + (if ms[|ms| - 1].productId == id then ms[|ms| - 1].quantity else 0)
  }

  /**
   * The ledger property of every stock-changing handler: applying a batch of movements
   * changes a product's current_stock by exactly the sum of the batch's quantities for it,
   * and changes nothing else about the product.
   */
  lemma {:induction false} LedgerDelta(products: map<Id, Product>, ms: seq<Movement>, id: Id)
    requires id in products
    ensures id in ApplyMovements(products, ms)
    ensures ApplyMovements(products, ms)[id].currentStock == products[id].currentStock + LedgerSum(ms, id)
    ensures ApplyMovements(products, ms)[id] == products[id].(currentStock := ApplyMovements(products, ms)[id].currentStock)
  {
    if ms != [] {
      LedgerDelta(products, ms[..|ms| - 1], id);
    }
  }

  /** Appending movements one at a time composes. */
  lemma {:induction false} ApplyMovementsAppend(products: map<Id, Product>, a: seq<Movement>, b: seq<Movement>)
    ensures ApplyMovements(products, a + b) == ApplyMovements(ApplyMovements(products, a), b)
  {
    if b == [] {
      assert a + b == a;
    } else {
      assert (a + b)[..|a + b| - 1] == a + b[..|b| - 1];
      ApplyMovementsAppend(products, a, b[..|b| - 1]);
    }
  }

  lemma {:induction false} LedgerSumAppend(a: seq<Movement>, b: seq<Movement>, id: Id)
    ensures LedgerSum(a + b, id) == LedgerSum(a, id) + LedgerSum(b, id)
  {
    if b == [] {
      assert a + b == a;
    } else {
      assert (a + b)[..|a + b| - 1] == a + b[..|b| - 1];
      LedgerSumAppend(a, b[..|b| - 1], id);
    }
  }

  /**
   * In a store whose stock was built only by ledger writers, the invariant "current_stock equals the
   * sum of the product's movements" survives any batch appended through `ApplyMovements`.
   */
  lemma LedgerInvariantPreserved(base: map<Id, Product>, current: map<Id, Product>, history: seq<Movement>, batch: seq<Movement>, id: Id)
    requires id in base && base.Keys == current.Keys
    requires current[id].currentStock == base[id].currentStock + LedgerSum(history, id)
    ensures id in ApplyMovements(current, batch)
    ensures ApplyMovements(current, batch)[id].currentStock == base[id].currentStock + LedgerSum(history + batch, id)
  {
    LedgerDelta(current, batch, id);
    LedgerSumAppend(history, batch, id);
  }

  // ---------------------------------------------------------------------------
  // Keyed sequences (PHP ordered arrays keyed by product id)

  /** `isset($cart[$id])`: the position of the line whose key is `id`. */
  function IndexOfKey<T>(s: seq<T>, key: T -> Id, id: Id): (r: Option<nat>)
    ensures r.Some? ==> r.value < |s| && key(s[r.value]) == id
    ensures r.None? <==> forall i :: 0 <= i < |s| ==> key(s[i]) != id
  {
    if s == [] then None
    else if key(s[|s| - 1]) == id then Some(|s| - 1)
    else IndexOfKey(s[..|s| - 1], key, id)
  }

  /** `unset($cart[$id])` for the line at position `i`. */
  function RemoveAt<T>(s: seq<T>, i: nat): (r: seq<T>)
    requires i < |s|
    ensures |r| == |s| - 1
    ensures forall j :: 0 <= j < i ==> r[j] == s[j]
    ensures forall j :: i <= j < |r| ==> r[j] == s[j + 1]
  {
    s[..i] + s[i + 1..]
  }

  ghost predicate DistinctKeys<T>(s: seq<T>, key: T -> Id) {
    forall i, j :: 0 <= i < j < |s| ==> key(s[i]) != key(s[j])
  }
}
