/**
 * Goods receipt against a purchase order: the submitted per-item quantities raise each item's
 * quantity_received and its product's stock, append one 'Entree - Approvisionnement' ledger entry
 * per positive quantity, and finally force the order to Received, all in one transaction.
 */
module Receiving {
  import opened Wrappers
  import opened Store

  /**
   * One entry of the posted `received_quantity` map: its key and its value after FILTER_VALIDATE_INT
   * (None when either does not parse as an integer).
   */
  datatype SubmittedLine = SubmittedLine(itemId: Option<int>, quantity: Option<int>)

  /** The item id is an item of this order (the snapshot is the order's items keyed by item id). */
  predicate InOrder(items: map<Id, PoItem>, orderId: Id, itemId: Option<int>) {
    itemId.Some? && itemId.value in items && items[itemId.value].orderId == orderId
  }

  /** The quantity passed FILTER_VALIDATE_INT with min_range 0. */
  predicate ValidQuantity(q: Option<int>) {
    q.Some? && q.value >= 0
  }

  /** The line is processed and carries a positive quantity: it is the only kind of line that writes. */
  predicate Writes(items: map<Id, PoItem>, orderId: Id, l: SubmittedLine) {
    InOrder(items, orderId, l.itemId) && ValidQuantity(l.quantity) && l.quantity.value > 0
  }

  /** One accepted receipt: the item, its product (from the item row) and the positive quantity received. */
  datatype Receipt = Receipt(itemId: Id, productId: Id, quantity: int)

  function AcceptedLine(items: map<Id, PoItem>, orderId: Id, l: SubmittedLine): seq<Receipt> {
    if Writes(items, orderId, l) then [Receipt(l.itemId.value, items[l.itemId.value].productId, l.quantity.value)] else []
  }

  /** The receipts the submission produces, in submission order. */
  function Accepted(items: map<Id, PoItem>, orderId: Id, lines: seq<SubmittedLine>): (r: seq<Receipt>)
    ensures |r| <= |lines|
  {
    if lines == [] then []
    else Accepted(items, orderId, lines[..|lines| - 1]) + AcceptedLine(items, orderId, lines[|lines| - 1])
  }

  /** `$total_items_processed`: the lines whose item id belongs to the order, whatever their quantity. */
  function ProcessedCount(items: map<Id, PoItem>, orderId: Id, lines: seq<SubmittedLine>): (r: nat)
    ensures r <= |lines|
  {
    if lines == [] then 0
    else ProcessedCount(items, orderId, lines[..|lines| - 1]) + (if InOrder(items, orderId, lines[|lines| - 1].itemId) then 1 else 0)
  }

  function ReceiptMovement(rc: Receipt, orderId: Id, actor: int, now: int): Movement {
    Movement(rc.productId, RECEIPT_IN, rc.quantity, ReceiptNote(orderId, rc.itemId, rc.quantity), actor, now)
  }

  function ReceiptMovements(rs: seq<Receipt>, orderId: Id, actor: int, now: int): (r: seq<Movement>)
    ensures |r| == |rs|
  {
    if rs == [] then [] else ReceiptMovements(rs[..|rs| - 1], orderId, actor, now) + [ReceiptMovement(rs[|rs| - 1], orderId, actor, now)]
  }

  /** `UPDATE purchase_order_items SET quantity_received = quantity_received + q WHERE id = itemId`. */
  function AddReceived(items: map<Id, PoItem>, itemId: Id, q: int): (r: map<Id, PoItem>)
    ensures r.Keys == items.Keys
  {
    if itemId in items then items[itemId := items[itemId].(quantityReceived := items[itemId].quantityReceived + q)] else items
  }

  function ReceiveItems(items: map<Id, PoItem>, rs: seq<Receipt>): (r: map<Id, PoItem>)
    ensures r.Keys == items.Keys
  {
    if rs == [] then items else
      var last := rs[|rs| - 1];
      AddReceived(ReceiveItems(items, rs[..|rs| - 1]), last.itemId, last.quantity)
  }

  /** Every receipt's product still exists, so the ledger inserts satisfy their foreign key. */
  predicate ProductsExist(products: map<Id, Product>, rs: seq<Receipt>) {
    rs == [] || (ProductsExist(products, rs[..|rs| - 1]) && rs[|rs| - 1].productId in products)
  }

  /** Writes of a receipt with n accepted lines: item update, stock update and movement per line, then the status. */
  function ReceiptWrites(n: nat): nat {
    3 * n + 1
  }

  /** The store after a committed receipt of `rs` against order `orderId`. */
  function CommittedReceipt(t: Tables, orderId: Id, rs: seq<Receipt>, actor: int, now: int): Tables
    requires orderId in t.orders
  {
    var ms := ReceiptMovements(rs, orderId, actor, now);
    t.(orderItems := ReceiveItems(t.orderItems, rs),
       products := ApplyMovements(t.products, ms),
       movements := t.movements + ms,
       orders := t.orders[orderId := t.orders[orderId].(status := Received)])
  }

  // ---------------------------------------------------------------------------
  // The status check of the handler

  /** A value read by `fetchColumn()`: the columns of `purchase_orders` are an integer id and a text status. */
  datatype ColumnValue = IntColumn(n: int) | TextColumn(text: string)

  /** `fetchColumn()` on `SELECT id, status ... WHERE id = :id`: the first column, i.e. the id, or false. */
  function FetchFirstColumn(orders: map<Id, PurchaseOrder>, id: Id): Option<ColumnValue> {
    if id in orders then Some(IntColumn(id)) else None
  }

  datatype StatusCheck = NotFound | Closed | Proceed

  /**
   * The handler's check: a missing row is "not found"; the Received/Cancelled test compares the
   * fetched column with the status texts. Since that column is the id, the test never succeeds.
   */
  function CheckOrder(orders: map<Id, PurchaseOrder>, id: Id): (r: StatusCheck)
    ensures r == NotFound <==> id !in orders
    ensures r == Proceed <==> id in orders
    ensures r != Closed
  {
    var column := FetchFirstColumn(orders, id);
    if column.None? then NotFound
    else if column.value == TextColumn("Received") || column.value == TextColumn("Cancelled") then Closed
    else Proceed
  }

  // ---------------------------------------------------------------------------
  // The handler

  datatype ReceptionOutcome =
    | InvalidOrderId
    | NothingSubmitted
    | OrderNotFound
    | OrderClosed
    | ReceptionStorageError
    | Completed(processed: nat, stockUpdated: nat)

  /** The transaction commits: no write throws and every movement insert finds its product. */
  ghost predicate ReceiptCommits(t: Tables, rs: seq<Receipt>, fault: Fault) {
    !FailsBefore(fault, ReceiptWrites(|rs|)) && ProductsExist(t.products, rs)
  }

  /** One submitted line handled: the folds grow by that line's receipt, if it has one. */
  lemma AcceptedStep(items: map<Id, PoItem>, orderId: Id, lines: seq<SubmittedLine>, i: nat)
    requires i < |lines|
    ensures Accepted(items, orderId, lines[..i + 1]) == Accepted(items, orderId, lines[..i]) + AcceptedLine(items, orderId, lines[i])
    ensures ProcessedCount(items, orderId, lines[..i + 1])
         == ProcessedCount(items, orderId, lines[..i]) + (if InOrder(items, orderId, lines[i].itemId) then 1 else 0)
  {
    assert lines[..i + 1][..i] == lines[..i];
  }

  /** The receipts of a prefix of the submission are a prefix of the receipts of the whole submission. */
  lemma {:induction false} AcceptedPrefix(items: map<Id, PoItem>, orderId: Id, lines: seq<SubmittedLine>, i: nat)
    requires i <= |lines|
    ensures var p := Accepted(items, orderId, lines[..i]);
      |p| <= |Accepted(items, orderId, lines)| && Accepted(items, orderId, lines)[..|p|] == p
  {
    if i < |lines| {
      var init := lines[..|lines| - 1];
      assert init[..i] == lines[..i];
      AcceptedPrefix(items, orderId, init, i);
      var p := Accepted(items, orderId, lines[..i]);
      var whole := Accepted(items, orderId, lines);
      assert whole == Accepted(items, orderId, init) + AcceptedLine(items, orderId, lines[|lines| - 1]);
      assert whole[..|p|] == Accepted(items, orderId, init)[..|p|];
    } else {
      assert lines[..i] == lines;
    }
  }

  /** The three tables a receipt writes to, as the transaction sees them. */
  datatype Tx = Tx(items: map<Id, PoItem>, prods: map<Id, Product>, moves: seq<Movement>)

  /** The writes of one accepted line: quantity_received += q, current_stock += q, one movement of +q. */
  function ApplyReceipt(tx: Tx, rc: Receipt, orderId: Id, actor: int, now: int): Tx {
    Tx(AddReceived(tx.items, rc.itemId, rc.quantity),
       WithDelta(tx.prods, rc.productId, rc.quantity),
       tx.moves + [ReceiptMovement(rc, orderId, actor, now)])
  }

  /** The writes of a sequence of receipts, in order. */
  function ApplyReceipts(tx: Tx, rs: seq<Receipt>, orderId: Id, actor: int, now: int): Tx {
    if rs == [] then tx else ApplyReceipt(ApplyReceipts(tx, rs[..|rs| - 1], orderId, actor, now), rs[|rs| - 1], orderId, actor, now)
  }

  /**
   * The line-by-line writes amount to the ledger view: items raised by `ReceiveItems`, the ledger
   * extended by `ReceiptMovements`, and stock updated by applying exactly those movements.
   */
  lemma {:induction false} ApplyReceiptsIsLedger(tx: Tx, rs: seq<Receipt>, orderId: Id, actor: int, now: int)
    ensures ApplyReceipts(tx, rs, orderId, actor, now).items == ReceiveItems(tx.items, rs)
    ensures ApplyReceipts(tx, rs, orderId, actor, now).moves == tx.moves + ReceiptMovements(rs, orderId, actor, now)
    ensures ApplyReceipts(tx, rs, orderId, actor, now).prods == ApplyMovements(tx.prods, ReceiptMovements(rs, orderId, actor, now))
  {
    if rs != [] {
      var init := rs[..|rs| - 1];
      ApplyReceiptsIsLedger(tx, init, orderId, actor, now);
      var ms := ReceiptMovements(rs, orderId, actor, now);
      assert ms[..|ms| - 1] == ReceiptMovements(init, orderId, actor, now);
    }
  }

  lemma ApplyReceiptsStep(tx: Tx, acc: seq<Receipt>, rc: Receipt, orderId: Id, actor: int, now: int)
    ensures ApplyReceipts(tx, acc + [rc], orderId, actor, now) == ApplyReceipt(ApplyReceipts(tx, acc, orderId, actor, now), rc, orderId, actor, now)
  {
    assert (acc + [rc])[..|acc|] == acc;
  }

  lemma ProductsExistStep(products: map<Id, Product>, acc: seq<Receipt>, rc: Receipt)
    ensures ProductsExist(products, acc + [rc]) == (ProductsExist(products, acc) && rc.productId in products)
  {
    assert (acc + [rc])[..|acc|] == acc;
  }

  /** Once a submission prefix cannot commit, the whole submission cannot. */
  lemma {:induction false} ProductsExistPrefix(products: map<Id, Product>, rs: seq<Receipt>, n: nat)
    requires n <= |rs| && ProductsExist(products, rs)
    ensures ProductsExist(products, rs[..n])
  {
    if n < |rs| {
      assert rs[..|rs| - 1][..n] == rs[..n];
      ProductsExistPrefix(products, rs[..|rs| - 1], n);
    } else {
      assert rs[..n] == rs;
    }
  }

  /** A write failing, or a missing product, at the next receipt prevents the whole submission from committing. */
  lemma FailureIsFinal(orderItems: map<Id, PoItem>, products: map<Id, Product>, orderId: Id, lines: seq<SubmittedLine>, i: nat, rc: Receipt, fault: Fault)
    requires i < |lines| && AcceptedLine(orderItems, orderId, lines[i]) == [rc]
    requires FailsBefore(fault, 3 * |Accepted(orderItems, orderId, lines[..i])| + 3) || rc.productId !in products
    ensures var rs := Accepted(orderItems, orderId, lines);
      FailsBefore(fault, 3 * |rs|) || !ProductsExist(products, rs)
  {
    AcceptedStep(orderItems, orderId, lines, i);
    AcceptedPrefix(orderItems, orderId, lines, i + 1);
    var acc := Accepted(orderItems, orderId, lines[..i]);
    var p := Accepted(orderItems, orderId, lines[..i + 1]);
    var whole := Accepted(orderItems, orderId, lines);
    assert p == acc + [rc];
    if rc.productId !in products && ProductsExist(products, whole) {
      ProductsExistPrefix(products, whole, |p|);
      ProductsExistStep(products, acc, rc);
    }
  }

  /**
   * The foreach over the submitted lines, on a copy of the item, product and movement tables.
   * `ok` is false when a write throws or a movement insert finds no product.
   */
  method WriteReceptionLines(start: Tx, orderItems: map<Id, PoItem>, orderId: Id, lines: seq<SubmittedLine>, actor: int, now: int, fault: Fault)
    returns (ok: bool, processed: nat, stockUpdated: nat, tx: Tx)
    ensures var rs := Accepted(orderItems, orderId, lines);
      ok <==> !FailsBefore(fault, 3 * |rs|) && ProductsExist(start.prods, rs)
    ensures ok ==> processed == ProcessedCount(orderItems, orderId, lines)
    ensures ok ==> stockUpdated == |Accepted(orderItems, orderId, lines)|
    ensures ok ==> tx == ApplyReceipts(start, Accepted(orderItems, orderId, lines), orderId, actor, now)
  {
    tx := start;
    ghost var acc: seq<Receipt> := [];
    processed, stockUpdated := 0, 0;
    for i := 0 to |lines|
      invariant acc == Accepted(orderItems, orderId, lines[..i])
      invariant processed == ProcessedCount(orderItems, orderId, lines[..i])
      invariant stockUpdated == |acc|
      invariant !FailsBefore(fault, 3 * |acc|) && ProductsExist(start.prods, acc)
      invariant tx == ApplyReceipts(start, acc, orderId, actor, now)
      invariant tx.prods.Keys == start.prods.Keys
    {
      AcceptedStep(orderItems, orderId, lines, i);
      var l := lines[i];
      if InOrder(orderItems, orderId, l.itemId) {
        processed := processed + 1;
        if ValidQuantity(l.quantity) && l.quantity.value > 0 {
          var rc := Receipt(l.itemId.value, orderItems[l.itemId.value].productId, l.quantity.value);
          if FailsBefore(fault, 3 * stockUpdated + 3) || rc.productId !in tx.prods {
            FailureIsFinal(orderItems, start.prods, orderId, lines, i, rc, fault);
            return false, processed, stockUpdated, tx;
          }
          ApplyReceiptsStep(start, acc, rc, orderId, actor, now);
          ProductsExistStep(start.prods, acc, rc);
          tx := ApplyReceipt(tx, rc, orderId, actor, now);
          acc := acc + [rc];
          stockUpdated := stockUpdated + 1;
        }
      }
    }
    assert lines[..|lines|] == lines;
    ok := true;
  }

  /** The whole receipt transaction on a copy of the tables: the line writes, then the status update. */
  method WriteReception(t: Tables, orderId: Id, lines: seq<SubmittedLine>, actor: int, now: int, fault: Fault)
    returns (ok: bool, processed: nat, stockUpdated: nat, after: Tables)
    requires orderId in t.orders
    ensures ok <==> ReceiptCommits(t, Accepted(t.orderItems, orderId, lines), fault)
    ensures ok ==> processed == ProcessedCount(t.orderItems, orderId, lines)
    ensures ok ==> stockUpdated == |Accepted(t.orderItems, orderId, lines)|
    ensures ok ==> after == CommittedReceipt(t, orderId, Accepted(t.orderItems, orderId, lines), actor, now)
  {
    var tx;
    ok, processed, stockUpdated, tx :=
      WriteReceptionLines(Tx(t.orderItems, t.products, t.movements), t.orderItems, orderId, lines, actor, now, fault);
    if !ok {
      return false, processed, stockUpdated, t;
    }
    if FailsAt(fault, 3 * stockUpdated) {
      return false, processed, stockUpdated, t;
    }
    ApplyReceiptsIsLedger(Tx(t.orderItems, t.products, t.movements), Accepted(t.orderItems, orderId, lines), orderId, actor, now);
    after := t.(orderItems := tx.items, products := tx.prods, movements := tx.moves,
                orders := t.orders[orderId := t.orders[orderId].(status := Received)]);
  }

  /**
   * finalize_reception. Rejects an unparsable order id and an empty or missing quantity map, then an
   * unknown order; the order's current status is never consulted. Every accepted line raises its
   * item's quantity_received and its product's stock and appends a movement; the order then becomes
   * Received. Any failed write rolls everything back.
   */
  method FinalizeReception(db: Database, poId: Option<int>, submission: Option<seq<SubmittedLine>>, actor: int, now: int, fault: Fault)
    returns (r: ReceptionOutcome)
    requires db.Valid()
    modifies db
    ensures db.Valid()
    ensures r == InvalidOrderId <==> poId.None?
    ensures r == NothingSubmitted <==> poId.Some? && (submission.None? || submission.value == [])
    ensures r == OrderNotFound <==> poId.Some? && submission.Some? && submission.value != [] && poId.value !in old(db.tables.orders)
    ensures r != OrderClosed
    ensures r == ReceptionStorageError <==>
      && poId.Some? && submission.Some? && submission.value != [] && poId.value in old(db.tables.orders)
      && !ReceiptCommits(old(db.tables), Accepted(old(db.tables.orderItems), poId.value, submission.value), fault)
    ensures !r.Completed? ==> db.tables == old(db.tables)
    ensures r.Completed? ==>
      var rs := Accepted(old(db.tables.orderItems), poId.value, submission.value);
      && poId.value in old(db.tables.orders)
      && r == Completed(ProcessedCount(old(db.tables.orderItems), poId.value, submission.value), |rs|)
      && db.tables == CommittedReceipt(old(db.tables), poId.value, rs, actor, now)
      && db.tables.orders[poId.value].status == Received
  {
    if poId.None? {
      return InvalidOrderId;
    }
    if submission.None? || submission.value == [] {
      return NothingSubmitted;
    }
    var id := poId.value;
    var t := db.tables;
    var check := CheckOrder(t.orders, id);
    if !check.Proceed? {
      return if check.NotFound? then OrderNotFound else OrderClosed;
    }
    var ok, processed, stockUpdated, after := WriteReception(t, id, submission.value, actor, now, fault);
    if !ok {
      return ReceptionStorageError;
    }
    db.tables := after;
    r := Completed(processed, stockUpdated);
  }

  // ---------------------------------------------------------------------------
  // The receive page's gate

  datatype PageOutcome =
    | MissingId
    | PageOrderNotFound
    | PageOrderClosed(status: PoStatus)
    | NoItems
    | ShowForm(itemIds: set<Id>)

  /** The items listed on the receive page: the order's items whose product still exists (an inner join). */
  function ListedItems(t: Tables, orderId: Id): set<Id> {
    set k | k in t.orderItems && t.orderItems[k].orderId == orderId && t.orderItems[k].productId in t.products
  }

  /**
   * Loading the receive page: the order is fetched joined with its supplier (no supplier, no row);
   * Received and Cancelled orders are turned away; an order with no listed items is turned away.
   */
  function ReceptionPage(t: Tables, poId: Option<int>): (r: PageOutcome)
    ensures r == MissingId <==> poId.None?
    ensures r == PageOrderNotFound <==>
      poId.Some? && (poId.value !in t.orders || t.orders[poId.value].supplierId !in t.suppliers)
    ensures r.PageOrderClosed? <==>
      && poId.Some? && poId.value in t.orders && t.orders[poId.value].supplierId in t.suppliers
      && (t.orders[poId.value].status == Received || t.orders[poId.value].status == Cancelled)
    ensures r.PageOrderClosed? ==> r.status == t.orders[poId.value].status
    ensures r == NoItems <==>
      && poId.Some? && poId.value in t.orders && t.orders[poId.value].supplierId in t.suppliers
      && (t.orders[poId.value].status.Pending? || t.orders[poId.value].status.Sent?)
      && ListedItems(t, poId.value) == {}
    ensures r.ShowForm? <==>
      && poId.Some? && poId.value in t.orders && t.orders[poId.value].supplierId in t.suppliers
      && (t.orders[poId.value].status.Pending? || t.orders[poId.value].status.Sent?)
      && ListedItems(t, poId.value) != {}
    ensures r.ShowForm? ==>
      && poId.Some? && poId.value in t.orders
      && (t.orders[poId.value].status.Pending? || t.orders[poId.value].status.Sent?)
      && r.itemIds != {}
      && forall k :: k in r.itemIds <==> k in t.orderItems && t.orderItems[k].orderId == poId.value && t.orderItems[k].productId in t.products
  {
    if poId.None? then MissingId
    else if poId.value !in t.orders || t.orders[poId.value].supplierId !in t.suppliers then PageOrderNotFound
    else
      var po := t.orders[poId.value];
      if po.status == Received || po.status == Cancelled then PageOrderClosed(po.status)
      else
        var listed := ListedItems(t, poId.value);
        if listed == {} then NoItems else ShowForm(listed)
  }

  /**
   * The only working status gate is the page: an order that is already Received or Cancelled is
   * turned away by the page, yet the handler's own check lets a direct submission through.
   */
  lemma ClosedOrderBypassesHandlerCheck(t: Tables, id: Id)
    requires id in t.orders && t.orders[id].supplierId in t.suppliers
    requires t.orders[id].status == Received || t.orders[id].status == Cancelled
    ensures ReceptionPage(t, Some(id)) == PageOrderClosed(t.orders[id].status)
    ensures CheckOrder(t.orders, id) == Proceed
  {
  }

  // ---------------------------------------------------------------------------
  // Properties of a committed receipt

  /** Total quantity received for item `itemId` over the receipts. */
  function ReceivedFor(rs: seq<Receipt>, itemId: Id): int {
    if rs == [] then 0
    else ReceivedFor(rs[..|rs| - 1], itemId) + (if rs[|rs| - 1].itemId == itemId then rs[|rs| - 1].quantity else 0)
  }

  /** Total quantity received of product `productId` over the receipts. */
  function ReceivedOf(rs: seq<Receipt>, productId: Id): int {
    if rs == [] then 0
    else ReceivedOf(rs[..|rs| - 1], productId) + (if rs[|rs| - 1].productId == productId then rs[|rs| - 1].quantity else 0)
  }

  /** Each item's quantity_received grows by exactly what was received for it; nothing else about the item changes. */
  lemma {:induction false} ReceivedQuantityGrows(items: map<Id, PoItem>, rs: seq<Receipt>, itemId: Id)
    requires itemId in items
    ensures itemId in ReceiveItems(items, rs)
    ensures ReceiveItems(items, rs)[itemId].quantityReceived == items[itemId].quantityReceived + ReceivedFor(rs, itemId)
    ensures ReceiveItems(items, rs)[itemId] == items[itemId].(quantityReceived := ReceiveItems(items, rs)[itemId].quantityReceived)
  {
    if rs != [] {
      ReceivedQuantityGrows(items, rs[..|rs| - 1], itemId);
    }
  }

  /** The receipt's ledger entries for a product add up to what was received of it. */
  lemma {:induction false} ReceiptLedgerSum(rs: seq<Receipt>, orderId: Id, actor: int, now: int, productId: Id)
    ensures LedgerSum(ReceiptMovements(rs, orderId, actor, now), productId) == ReceivedOf(rs, productId)
  {
    if rs != [] {
      ReceiptLedgerSum(rs[..|rs| - 1], orderId, actor, now, productId);
      var ms := ReceiptMovements(rs, orderId, actor, now);
      assert ms[..|ms| - 1] == ReceiptMovements(rs[..|rs| - 1], orderId, actor, now);
    }
  }

  /**
   * The ledger property of a receipt: each product's stock grows by exactly what was received
   * of it, which is the sum of the receipt's ledger entries for it.
   */
  lemma ReceiptStockMatchesLedger(t: Tables, orderId: Id, rs: seq<Receipt>, actor: int, now: int, productId: Id)
    requires orderId in t.orders && productId in t.products
    ensures var after := CommittedReceipt(t, orderId, rs, actor, now);
      && productId in after.products
      && after.products[productId].currentStock == t.products[productId].currentStock + ReceivedOf(rs, productId)
      && after.products[productId].currentStock == t.products[productId].currentStock + LedgerSum(after.movements[|t.movements|..], productId)
  {
    var ms := ReceiptMovements(rs, orderId, actor, now);
    LedgerDelta(t.products, ms, productId);
    ReceiptLedgerSum(rs, orderId, actor, now, productId);
    assert (t.movements + ms)[|t.movements|..] == ms;
  }

  /** A line with quantity 0 is counted as processed but produces no receipt, so it writes nothing. */
  lemma ZeroQuantityLineWritesNothing(items: map<Id, PoItem>, orderId: Id, lines: seq<SubmittedLine>, itemId: Option<int>)
    ensures Accepted(items, orderId, lines + [SubmittedLine(itemId, Some(0))]) == Accepted(items, orderId, lines)
    ensures ProcessedCount(items, orderId, lines + [SubmittedLine(itemId, Some(0))])
         == ProcessedCount(items, orderId, lines) + (if InOrder(items, orderId, itemId) then 1 else 0)
  {
    var all := lines + [SubmittedLine(itemId, Some(0))];
    assert all[..|all| - 1] == lines;
  }

  /**
   * Acceptance never consults quantity_ordered or quantity_received: two item tables that agree on
   * which order and product each item belongs to accept exactly the same receipts, so a line may
   * receive more than was ordered.
   */
  lemma {:induction false} AcceptanceIgnoresQuantities(items: map<Id, PoItem>, other: map<Id, PoItem>, orderId: Id, lines: seq<SubmittedLine>)
    requires items.Keys == other.Keys
    requires forall k :: k in items ==> other[k].orderId == items[k].orderId && other[k].productId == items[k].productId
    ensures Accepted(items, orderId, lines) == Accepted(other, orderId, lines)
  {
    if lines != [] {
      AcceptanceIgnoresQuantities(items, other, orderId, lines[..|lines| - 1]);
    }
  }

  /** Receipts whose items all exist keep the item table's keys and its auto-increment invariant. */
  lemma CommittedReceiptWellKeyed(t: Tables, orderId: Id, rs: seq<Receipt>, actor: int, now: int)
    requires WellKeyed(t) && orderId in t.orders
    ensures WellKeyed(CommittedReceipt(t, orderId, rs, actor, now))
    ensures CommittedReceipt(t, orderId, rs, actor, now).orders.Keys == t.orders.Keys
  {
  }
}
