/**
 * Purchase orders: the per-session order cart, saving it as a Pending order with one item per
 * line, and the status machine Pending → Sent → Received, with cancellation of open orders.
 */
module PurchaseOrders {
  import opened Wrappers
  import opened Store
  import Php

  /** One order-cart line; `unitPrice` is the purchase price frozen when the product was first added. */
  datatype PoLine = PoLine(productId: Id, name: string, quantity: int, unitPrice: real, lineTotal: real)

  function LineKey(l: PoLine): Id {
    l.productId
  }

  /** One line per product, positive quantities, and every line total equal to quantity times frozen unit price. */
  ghost predicate WellFormedOrderCart(lines: seq<PoLine>) {
    && DistinctKeys(lines, LineKey)
    && forall i :: 0 <= i < |lines| ==>
         lines[i].quantity >= 1 && lines[i].lineTotal == LineAmount(lines[i].quantity, lines[i].unitPrice)
  }

  datatype AddOutcome = Added | QuantityUpdated | InvalidSelection | ProductNotFound
  {
    predicate IsError() {
      InvalidSelection? || ProductNotFound?
    }
  }

  datatype RemoveOutcome = Removed | NotInCart

  /** `$_SESSION['po_cart']`; an unset cart is the empty sequence. */
  class PoCart {
    var lines: seq<PoLine>

    ghost predicate Valid()
      reads this
    {
      WellFormedOrderCart(lines)
    }

    constructor ()
      ensures Valid() && lines == []
    {
      lines := [];
    }

    /**
     * add_to_po_cart. `productId` and `quantity` are the results of FILTER_VALIDATE_INT, the
     * quantity with a minimum of 1. There is no stock test: any existing product can be ordered.
     */
    method Add(products: map<Id, Product>, productId: Option<int>, quantity: Option<int>) returns (r: AddOutcome)
      requires Valid()
      modifies this
      ensures Valid()
      ensures r == InvalidSelection <==> productId.None? || quantity.None? || quantity.value < 1
      ensures r == ProductNotFound <==> r != InvalidSelection && productId.value !in products
      ensures r.IsError() ==> lines == old(lines)
      ensures r == Added ==>
        && IndexOfKey(old(lines), LineKey, productId.value).None?
        && var p := products[productId.value];
           lines == old(lines) + [PoLine(productId.value, p.name, quantity.value, p.purchasePrice, LineAmount(quantity.value, p.purchasePrice))]
      ensures r == QuantityUpdated ==>
        && IndexOfKey(old(lines), LineKey, productId.value).Some?
        && var i := IndexOfKey(old(lines), LineKey, productId.value).value;
           var q := old(lines)[i].quantity + quantity.value;
           lines == old(lines)[i := old(lines)[i].(quantity := q, lineTotal := LineAmount(q, old(lines)[i].unitPrice))]
    {
      if productId.None? || quantity.None? || quantity.value < 1 {
        return InvalidSelection;
      }
      var id, q := productId.value, quantity.value;
      if id !in products {
        return ProductNotFound;
      }
      var p := products[id];
      var at := IndexOfKey(lines, LineKey, id);
      if at.Some? {
        var i := at.value;
        var newQuantity := lines[i].quantity + q;
        lines := lines[i := lines[i].(quantity := newQuantity, lineTotal := LineAmount(newQuantity, lines[i].unitPrice))];
        r := QuantityUpdated;
      } else {
        lines := lines + [PoLine(id, p.name, q, p.purchasePrice, LineAmount(q, p.purchasePrice))];
        r := Added;
      }
    }

    /** remove_po_item: unsets the product's line; nothing changes when the id does not parse or has no line. */
    method RemoveItem(productId: Option<int>) returns (r: RemoveOutcome)
      requires Valid()
      modifies this
      ensures Valid()
      ensures r == Removed <==> productId.Some? && IndexOfKey(old(lines), LineKey, productId.value).Some?
      ensures r == NotInCart ==> lines == old(lines)
      ensures r == Removed ==> lines == RemoveAt(old(lines), IndexOfKey(old(lines), LineKey, productId.value).value)
      ensures r == Removed ==> forall i :: 0 <= i < |lines| ==> lines[i] in old(lines) && lines[i].productId != productId.value
    {
      if productId.None? {
        return NotInCart;
      }
      var at := IndexOfKey(lines, LineKey, productId.value);
      if at.None? {
        return NotInCart;
      }
      var i := at.value;
      ghost var before := lines;
      lines := RemoveAt(lines, i);
      forall k | 0 <= k < |lines|
        ensures lines[k] in before && lines[k].productId != productId.value
      {
        if k < i {
          assert lines[k] == before[k];
        } else {
          assert lines[k] == before[k + 1];
        }
      }
      r := Removed;
    }

    /** clear_po_cart. */
    method Clear()
      modifies this
      ensures Valid() && lines == []
    {
      lines := [];
    }
  }

  // ---------------------------------------------------------------------------
  // Totals

  function SumLineTotals(lines: seq<PoLine>): real {
    if lines == [] then 0.0 else SumLineTotals(lines[..|lines| - 1]) + lines[|lines| - 1].lineTotal
  }

  /** Σ quantity × unit price, computed from scratch rather than from the stored line totals. */
  function SumQuantityTimesPrice(lines: seq<PoLine>): real {
    if lines == [] then 0.0
    else SumQuantityTimesPrice(lines[..|lines| - 1]) + lines[|lines| - 1].quantity as real * lines[|lines| - 1].unitPrice
  }

  /** In a well-formed order cart the stored line totals add up to Σ quantity × frozen purchase price. */
  lemma {:induction false} OrderTotalIsQuantityTimesPrice(lines: seq<PoLine>)
    requires WellFormedOrderCart(lines)
    ensures SumLineTotals(lines) == SumQuantityTimesPrice(lines)
  {
    if lines != [] {
      var init := lines[..|lines| - 1];
      assert WellFormedOrderCart(init) by {
        forall i, j | 0 <= i < j < |init| ensures LineKey(init[i]) != LineKey(init[j]) {
          assert init[i] == lines[i] && init[j] == lines[j];
        }
      }
      OrderTotalIsQuantityTimesPrice(init);
    }
  }

  /** The order-cart summary shown on the page: Σ line_total and the number of lines. */
  method CartSummary(lines: seq<PoLine>) returns (total: real, count: nat)
    ensures total == SumLineTotals(lines) && count == |lines|
  {
    total, count := 0.0, 0;
    for i := 0 to |lines|
      invariant total == SumLineTotals(lines[..i]) && count == i
    {
      assert lines[..i + 1][..i] == lines[..i];
      total, count := total + lines[i].lineTotal, count + 1;
    }
    assert lines[..|lines|] == lines;
  }

  // ---------------------------------------------------------------------------
  // Saving the order

  function OrderItemOf(l: PoLine, orderId: Id): PoItem {
    PoItem(orderId, l.productId, l.quantity, l.unitPrice, l.lineTotal, 0)
  }

  /** The item rows of the order, with ids handed out from `next` in cart order. */
  function OrderItems(items: map<Id, PoItem>, next: Id, lines: seq<PoLine>, orderId: Id): map<Id, PoItem> {
    if lines == [] then items
    else OrderItems(items, next, lines[..|lines| - 1], orderId)[next + |lines| - 1 := OrderItemOf(lines[|lines| - 1], orderId)]
  }

  /**
   * The new item rows take exactly the ids `next` .. `next + |lines| - 1`, one per cart line in
   * order, and every existing row below `next` is kept as it was.
   */
  lemma {:induction false} OrderItemsSpec(items: map<Id, PoItem>, next: Id, lines: seq<PoLine>, orderId: Id)
    ensures var r := OrderItems(items, next, lines, orderId);
      && (forall k :: k in r <==> k in items || next <= k < next + |lines|)
      && (forall i :: 0 <= i < |lines| ==> r[next + i] == OrderItemOf(lines[i], orderId))
      && (forall k :: k in items && k < next ==> r[k] == items[k])
  {
    if lines != [] {
      OrderItemsSpec(items, next, lines[..|lines| - 1], orderId);
    }
  }

  lemma OrderItemsStep(items: map<Id, PoItem>, next: Id, lines: seq<PoLine>, k: nat, orderId: Id)
    requires k < |lines|
    ensures OrderItems(items, next, lines[..k + 1], orderId)
         == OrderItems(items, next, lines[..k], orderId)[next + k := OrderItemOf(lines[k], orderId)]
  {
    assert lines[..k + 1][..k] == lines[..k];
  }

  /** Writes issued by saving an order of n lines: the order row, then one item row per line. */
  function OrderWrites(n: nat): nat {
    1 + n
  }

  /** The store after a committed save of `lines` for `supplierId`. */
  function CommittedOrder(t: Tables, supplierId: Id, lines: seq<PoLine>, notes: string, actor: int): Tables {
    var id := t.nextOrderId;
    t.(orders := t.orders[id := PurchaseOrder(supplierId, SumLineTotals(lines), Pending, actor, Php.OrNull(Php.Trim(notes)))],
       nextOrderId := id + 1,
       orderItems := OrderItems(t.orderItems, t.nextItemId, lines, id),
       nextItemId := t.nextItemId + |lines|)
  }

  /** A saved order keeps every auto-increment key below its counter, and adds exactly the new order. */
  lemma CommittedOrderWellKeyed(t: Tables, supplierId: Id, lines: seq<PoLine>, notes: string, actor: int)
    requires WellKeyed(t)
    ensures WellKeyed(CommittedOrder(t, supplierId, lines, notes, actor))
    ensures CommittedOrder(t, supplierId, lines, notes, actor).orders.Keys == t.orders.Keys + {t.nextOrderId}
    ensures t.nextOrderId !in t.orders
  {
    OrderItemsSpec(t.orderItems, t.nextItemId, lines, t.nextOrderId);
  }

  datatype SaveOutcome = InvalidSupplier | EmptyOrder | UnknownSupplier | SaveStorageError | Saved(orderId: Id)

  /** The item-row inserts of the save transaction, on a copy of the item table. */
  method WriteOrderItems(orderItems: map<Id, PoItem>, nextItemId: Id, lines: seq<PoLine>, orderId: Id, fault: Fault)
    returns (ok: bool, items: map<Id, PoItem>)
    requires !FailsAt(fault, 0)
    ensures ok <==> !FailsBefore(fault, OrderWrites(|lines|))
    ensures ok ==> items == OrderItems(orderItems, nextItemId, lines, orderId)
  {
    items := orderItems;
    for k := 0 to |lines|
      invariant !FailsBefore(fault, OrderWrites(k))
      invariant items == OrderItems(orderItems, nextItemId, lines[..k], orderId)
    {
      if FailsAt(fault, OrderWrites(k)) {
        return false, items;
      }
      OrderItemsStep(orderItems, nextItemId, lines, k, orderId);
      items := items[nextItemId + k := OrderItemOf(lines[k], orderId)];
    }
    assert lines[..|lines|] == lines;
    ok := true;
  }

  /**
   * save_purchase_order (purchase_orders.php, duplicated in compar.php). Rejects a supplier id that
   * does not parse, then an empty cart, then a supplier that does not exist. Otherwise sums the
   * line totals, inserts a Pending order and one item per line in one transaction, and clears the
   * cart. A failed write rolls back and keeps the cart.
   */
  method SavePurchaseOrder(db: Database, cart: PoCart, supplierId: Option<int>, notes: string, actor: int, fault: Fault)
    returns (r: SaveOutcome)
    requires db.Valid() && cart.Valid()
    modifies db, cart
    ensures db.Valid() && cart.Valid()
    ensures r == InvalidSupplier <==> supplierId.None?
    ensures r == EmptyOrder <==> supplierId.Some? && old(cart.lines) == []
    ensures r == UnknownSupplier <==> supplierId.Some? && old(cart.lines) != [] && supplierId.value !in old(db.tables.suppliers)
    ensures r == SaveStorageError <==>
      && supplierId.Some? && old(cart.lines) != [] && supplierId.value in old(db.tables.suppliers)
      && FailsBefore(fault, OrderWrites(|old(cart.lines)|))
    ensures !r.Saved? ==> db.tables == old(db.tables) && cart.lines == old(cart.lines)
    ensures r.Saved? ==>
      && supplierId.Some? && r.orderId == old(db.tables.nextOrderId) && cart.lines == []
      && db.tables == CommittedOrder(old(db.tables), supplierId.value, old(cart.lines), notes, actor)
  {
    if supplierId.None? {
      return InvalidSupplier;
    }
    var lines := cart.lines;
    if lines == [] {
      return EmptyOrder;
    }
    var t := db.tables;
    if supplierId.value !in t.suppliers {
      return UnknownSupplier;
    }
    var total, _ := CartSummary(lines);
    var orderId := t.nextOrderId;
    if FailsAt(fault, 0) {
      return SaveStorageError;
    }
    var orders := t.orders[orderId := PurchaseOrder(supplierId.value, total, Pending, actor, Php.OrNull(Php.Trim(notes)))];
    var ok, items := WriteOrderItems(t.orderItems, t.nextItemId, lines, orderId, fault);
    if !ok {
      return SaveStorageError;
    }
    CommittedOrderWellKeyed(t, supplierId.value, lines, notes, actor);
    db.tables := t.(orders := orders, nextOrderId := orderId + 1, orderItems := items, nextItemId := t.nextItemId + |lines|);
    cart.lines := [];
    r := Saved(orderId);
  }

  /** Every item of a freshly saved order belongs to it, orders its cart quantity, and has received nothing yet. */
  lemma SavedItemsMatchCart(t: Tables, supplierId: Id, lines: seq<PoLine>, notes: string, actor: int, i: nat)
    requires i < |lines|
    ensures t.nextItemId + i in CommittedOrder(t, supplierId, lines, notes, actor).orderItems
    ensures var after := CommittedOrder(t, supplierId, lines, notes, actor);
      var item := after.orderItems[t.nextItemId + i];
      && item.orderId == t.nextOrderId && item.productId == lines[i].productId
      && item.quantityOrdered == lines[i].quantity && item.quantityReceived == 0
      && after.orders[t.nextOrderId].status == Pending
      && after.orders[t.nextOrderId].totalAmount == SumLineTotals(lines)
  {
    OrderItemsSpec(t.orderItems, t.nextItemId, lines, t.nextOrderId);
  }

  // ---------------------------------------------------------------------------
  // The status machine

  datatype Action = MarkSent | MarkReceived | MarkCancelled

  /** `in_array($action, $valid_status_actions)`. */
  function ParseAction(s: string): (r: Option<Action>)
    ensures r == Some(MarkSent) <==> s == "mark_as_sent"
    ensures r == Some(MarkReceived) <==> s == "mark_as_received"
    ensures r == Some(MarkCancelled) <==> s == "mark_as_cancelled"
  {
    if s == "mark_as_sent" then Some(MarkSent)
    else if s == "mark_as_received" then Some(MarkReceived)
    else if s == "mark_as_cancelled" then Some(MarkCancelled)
    else None
  }

  /** The status an action moves an order to. */
  function Target(a: Action): PoStatus {
    match a
    case MarkSent => Sent
    case MarkReceived => Received
    case MarkCancelled => Cancelled
  }

  /** An order that is neither Received nor Cancelled. */
  predicate Open(s: PoStatus) {
    s == Pending || s == Sent
  }

  /** The switch on the action: the new status, or None when the current status refuses the action. */
  function Transition(a: Action, s: PoStatus): (r: Option<PoStatus>)
    ensures r.Some? ==> r.value == Target(a) && r.value != s
    ensures r.Some? <==> (if a == MarkSent then s == Pending else Open(s))
  {
    match a
    case MarkSent => if s == Pending then Some(Sent) else None
    case MarkReceived => if s == Sent || s == Pending then Some(Received) else None
    case MarkCancelled => if s == Pending || s == Sent then Some(Cancelled) else None
  }

  /** Received and Cancelled are terminal: no action leaves them. */
  lemma TerminalStatesRefuseEveryAction(a: Action, s: PoStatus)
    requires !Open(s)
    ensures Transition(a, s).None?
  {
  }

  /** One action applied: the new status if the action is accepted, otherwise the status as it is. */
  function Step(a: Action, s: PoStatus): PoStatus {
    Transition(a, s).GetOr(s)
  }

  /** How many of the actions, applied in turn, are accepted. */
  function AcceptedCount(s: PoStatus, actions: seq<Action>): nat
    decreases |actions|
  {
    if actions == [] then 0
    else (if Transition(actions[0], s).Some? then 1 else 0) + AcceptedCount(Step(actions[0], s), actions[1..])
  }

  /** Whatever actions arrive, an order changes status at most twice, an order already Sent at most once, a closed one never. */
  lemma {:induction false} AtMostTwoTransitions(s: PoStatus, actions: seq<Action>)
    ensures var n := AcceptedCount(s, actions); n <= 2 && (s != Pending ==> n <= 1) && (!Open(s) ==> n == 0)
    decreases |actions|
  {
    if actions != [] {
      AtMostTwoTransitions(Step(actions[0], s), actions[1..]);
    }
  }

  /** `rowCount()` of `UPDATE purchase_orders SET status = :new WHERE id = :id`: rows whose value changed. */
  function RowsChanged(orders: map<Id, PurchaseOrder>, id: Id, newStatus: PoStatus): nat {
    if id in orders && orders[id].status != newStatus then 1 else 0
  }

  datatype StatusOutcome =
    | NotAStatusAction
    | OrderNotFound
    | TransitionRefused(current: PoStatus)
    | StatusStorageError
    | NothingChanged
    | StatusUpdated(newStatus: PoStatus)

  /**
   * The status handler of compar.php. Only an integer id with one of the three actions enters it;
   * an unknown order is an error; the switch decides whether the current status allows the action,
   * and a single UPDATE writes the new status. Receiving through this path touches neither the
   * items nor the stock.
   */
  method UpdateStatus(db: Database, orderId: Option<int>, action: string, fault: Fault) returns (r: StatusOutcome)
    requires db.Valid()
    modifies db
    ensures db.Valid()
    ensures r == NotAStatusAction <==> orderId.None? || ParseAction(action).None?
    ensures r == OrderNotFound <==> orderId.Some? && ParseAction(action).Some? && orderId.value !in old(db.tables.orders)
    ensures r.TransitionRefused? <==>
      && orderId.Some? && ParseAction(action).Some? && orderId.value in old(db.tables.orders)
      && Transition(ParseAction(action).value, old(db.tables.orders)[orderId.value].status).None?
    ensures r.TransitionRefused? ==> r.current == old(db.tables.orders)[orderId.value].status
    ensures r == StatusStorageError <==>
      && orderId.Some? && ParseAction(action).Some? && orderId.value in old(db.tables.orders)
      && Transition(ParseAction(action).value, old(db.tables.orders)[orderId.value].status).Some?
      && FailsAt(fault, 0)
    ensures r != NothingChanged
    ensures !r.StatusUpdated? ==> db.tables == old(db.tables)
    ensures r.StatusUpdated? ==>
      && orderId.Some? && ParseAction(action).Some? && orderId.value in old(db.tables.orders)
      && Transition(ParseAction(action).value, old(db.tables.orders)[orderId.value].status) == Some(r.newStatus)
      && db.tables == old(db.tables).(orders := old(db.tables.orders)[orderId.value := old(db.tables.orders)[orderId.value].(status := r.newStatus)])
  {
    var a := ParseAction(action);
    if orderId.None? || a.None? {
      return NotAStatusAction;
    }
    var id := orderId.value;
    var t := db.tables;
    if id !in t.orders {
      return OrderNotFound;
    }
    var next := Transition(a.value, t.orders[id].status);
    if next.None? {
      return TransitionRefused(t.orders[id].status);
    }
    if FailsAt(fault, 0) {
      return StatusStorageError;
    }
    var rows := RowsChanged(t.orders, id, next.value);
    db.tables := t.(orders := t.orders[id := t.orders[id].(status := next.value)]);
    r := if rows > 0 then StatusUpdated(next.value) else NothingChanged;
  }
}
