/**
 * Point of sale: the per-session sales cart, its totals, and checkout, which turns the
 * cart into a sale, its items, stock decrements and one ledger entry per line, atomically.
 */
module Sales {
  import opened Wrappers
  import opened Store
  import Php

  /** Value-added tax rate applied to every sale. */
  const TAX_RATE: real := 0.18

  /** One cart line; `unitPrice` is the sale price frozen when the product was first added. */
  datatype CartLine = CartLine(productId: Id, name: string, quantity: int, unitPrice: real, lineTotal: real, stockAtAdd: int)

  function LineKey(l: CartLine): Id {
    l.productId
  }

  /** One line per product, positive quantities, and every line total equal to quantity times frozen unit price. */
  ghost predicate WellFormedCart(lines: seq<CartLine>) {
    && DistinctKeys(lines, LineKey)
    && forall i :: 0 <= i < |lines| ==>
         lines[i].quantity >= 1 && lines[i].lineTotal == LineAmount(lines[i].quantity, lines[i].unitPrice)
  }

  datatype AddOutcome =
    | Added
    | QuantityUpdated
    | InvalidSelection
    | ProductNotFound
    | InsufficientStock(available: int)
    | ExceedsStock(available: int)
  {
    predicate IsError() {
      !Added? && !QuantityUpdated?
    }
  }

  datatype RemoveOutcome = Removed | NotInCart

  /** `$_SESSION['cart']`; an unset cart is the empty sequence. */
  class SaleCart {
    var lines: seq<CartLine>

    ghost predicate Valid()
      reads this
    {
      WellFormedCart(lines)
    }

    constructor ()
      ensures Valid() && lines == []
    {
      lines := [];
    }

    /**
     * add_to_cart. `productId` and `quantity` are the results of FILTER_VALIDATE_INT (None when the field
     * does not parse); the quantity must also be at least 1. The stock test uses the product's
     * current_stock; a product already in the cart keeps its position and its frozen unit price.
     */
    method Add(products: map<Id, Product>, productId: Option<int>, quantity: Option<int>) returns (r: AddOutcome)
      requires Valid()
      modifies this
      ensures Valid()
      ensures r == InvalidSelection <==> productId.None? || quantity.None? || quantity.value < 1
      ensures r == ProductNotFound <==> r != InvalidSelection && productId.value !in products
      ensures r.InsufficientStock? <==>
        && r != InvalidSelection && productId.value in products
        && products[productId.value].currentStock < quantity.value
      ensures r.InsufficientStock? || r.ExceedsStock? ==> r.available == products[productId.value].currentStock
      ensures r.ExceedsStock? <==>
        && r != InvalidSelection && productId.value in products
        && products[productId.value].currentStock >= quantity.value
        && IndexOfKey(old(lines), LineKey, productId.value).Some?
        && products[productId.value].currentStock
           < old(lines)[IndexOfKey(old(lines), LineKey, productId.value).value].quantity + quantity.value
      ensures r.IsError() ==> lines == old(lines)
      ensures r == Added ==>
        && IndexOfKey(old(lines), LineKey, productId.value).None?
        && var p := products[productId.value];
           lines == old(lines) + [CartLine(productId.value, p.name, quantity.value, p.salePrice,
                                           LineAmount(quantity.value, p.salePrice), p.currentStock)]
      ensures r == QuantityUpdated ==>
        && IndexOfKey(old(lines), LineKey, productId.value).Some?
        && var i := IndexOfKey(old(lines), LineKey, productId.value).value;
           var q := old(lines)[i].quantity + quantity.value;
           lines == old(lines)[i := old(lines)[i].(quantity := q, lineTotal := LineAmount(q, old(lines)[i].unitPrice))]
    {
      if productId.None? || quantity.None? || quantity.value < 1 {
        return InvalidSelection;
      }
      var id, q := productId.value, quantity.value;
      if id !in products {
        return ProductNotFound;
      }
      var p := products[id];
      if p.currentStock < q {
        return InsufficientStock(p.currentStock);
      }
      var at := IndexOfKey(lines, LineKey, id);
      if at.Some? {
        var i := at.value;
        var newQuantity := lines[i].quantity + q;
        if p.currentStock < newQuantity {
          return ExceedsStock(p.currentStock);
        }
        lines := lines[i := lines[i].(quantity := newQuantity, lineTotal := LineAmount(newQuantity, lines[i].unitPrice))];
        r := QuantityUpdated;
      } else {
        lines := lines + [CartLine(id, p.name, q, p.salePrice, LineAmount(q, p.salePrice), p.currentStock)];
        r := Added;
      }
    }

    /** remove_item: unsets the product's line; nothing changes when the id does not parse or has no line. */
    method RemoveItem(productId: Option<int>) returns (r: RemoveOutcome)
      requires Valid()
      modifies this
      ensures Valid()
      ensures r == Removed <==> productId.Some? && IndexOfKey(old(lines), LineKey, productId.value).Some?
      ensures r == NotInCart ==> lines == old(lines)
      ensures r == Removed ==> lines == RemoveAt(old(lines), IndexOfKey(old(lines), LineKey, productId.value).value)
      ensures r == Removed ==> forall i :: 0 <= i < |lines| ==> lines[i] in old(lines) && lines[i].productId != productId.value
    {
      if productId.None? {
        return NotInCart;
      }
      var at := IndexOfKey(lines, LineKey, productId.value);
      if at.None? {
        return NotInCart;
      }
      var i := at.value;
      ghost var before := lines;
      lines := RemoveAt(lines, i);
      forall k | 0 <= k < |lines|
        ensures lines[k] in before && lines[k].productId != productId.value
      {
        if k < i {
          assert lines[k] == before[k];
        } else {
          assert lines[k] == before[k + 1];
        }
      }
      r := Removed;
    }

    /** clear_cart. */
    method Clear()
      modifies this
      ensures Valid() && lines == []
    {
      lines := [];
    }
  }

  // ---------------------------------------------------------------------------
  // Totals

  function SumLineTotals(lines: seq<CartLine>): real {
    if lines == [] then 0.0 else SumLineTotals(lines[..|lines| - 1]) + lines[|lines| - 1].lineTotal
  }

  /** Σ quantity × unit price: the subtotal computed from scratch, independent of the stored line totals. */
  function SumQuantityTimesPrice(lines: seq<CartLine>): real {
    if lines == [] then 0.0
    else SumQuantityTimesPrice(lines[..|lines| - 1]) + lines[|lines| - 1].quantity as real * lines[|lines| - 1].unitPrice
  }

  /** In a well-formed cart the stored line totals add up to Σ quantity × frozen unit price. */
  lemma {:induction false} SubtotalIsQuantityTimesPrice(lines: seq<CartLine>)
    requires WellFormedCart(lines)
    ensures SumLineTotals(lines) == SumQuantityTimesPrice(lines)
  {
    if lines != [] {
      var init := lines[..|lines| - 1];
      assert WellFormedCart(init) by {
        forall i, j | 0 <= i < j < |init| ensures LineKey(init[i]) != LineKey(init[j]) {
          assert init[i] == lines[i] && init[j] == lines[j];
        }
      }
      SubtotalIsQuantityTimesPrice(init);
    }
  }

  /** The foreach that adds up `line_total` over the cart. */
  method Subtotal(lines: seq<CartLine>) returns (s: real)
    ensures s == SumLineTotals(lines)
  {
    s := 0.0;
    for i := 0 to |lines|
      invariant s == SumLineTotals(lines[..i])
    {
      assert lines[..i + 1][..i] == lines[..i];
      s := s + lines[i].lineTotal;
    }
    assert lines[..|lines|] == lines;
  }

  datatype CartTotals = CartTotals(subtotal: real, tax: real, discount: real, finalTotal: real, itemCount: nat)

  /** The cart summary shown on the page: subtotal Σ line_total, tax at TAX_RATE, no discount, and the line count. */
  method Totals(lines: seq<CartLine>) returns (t: CartTotals)
    ensures t.subtotal == SumLineTotals(lines) && t.itemCount == |lines|
    ensures t.discount == 0.0 && t.tax == t.subtotal * TAX_RATE
    ensures t.finalTotal == t.subtotal + t.tax - t.discount
  {
    var subtotal, count := 0.0, 0;
    for i := 0 to |lines|
      invariant subtotal == SumLineTotals(lines[..i]) && count == i
    {
      assert lines[..i + 1][..i] == lines[..i];
      subtotal, count := subtotal + lines[i].lineTotal, count + 1;
    }
    assert lines[..|lines|] == lines;
    var tax := subtotal * TAX_RATE;
    t := CartTotals(subtotal, tax, 0.0, subtotal + tax - 0.0, count);
  }

  // ---------------------------------------------------------------------------
  // Checkout

  /** The line cannot be served: its product is gone, or has less stock than the line's quantity. */
  predicate Short(products: map<Id, Product>, l: CartLine) {
    l.productId !in products || products[l.productId].currentStock < l.quantity
  }

  /** The first line that cannot be served: the one the pre-commit stock re-check stops at. */
  function FirstShort(products: map<Id, Product>, lines: seq<CartLine>): (r: Option<nat>)
    ensures r.Some? ==> r.value < |lines| && Short(products, lines[r.value])
    ensures r.Some? ==> forall j :: 0 <= j < r.value ==> !Short(products, lines[j])
    ensures r.None? <==> forall j :: 0 <= j < |lines| ==> !Short(products, lines[j])
  {
    if lines == [] then None
    else if Short(products, lines[0]) then Some(0)
    else
      match FirstShort(products, lines[1..])
      case None => None
      case Some(i) => Some(i + 1)
  }

  /** `$current_stocks_db[$id]['current_stock'] ?? 0`. */
  function Available(products: map<Id, Product>, id: Id): int {
    if id in products then products[id].currentStock else 0
  }

  function SaleMovement(l: CartLine, saleId: Id, actor: int, now: int): Movement {
    Movement(l.productId, SALE_OUT, -l.quantity, SaleNote(saleId, l.quantity, l.name), actor, now)
  }

  function SaleMovements(lines: seq<CartLine>, saleId: Id, actor: int, now: int): (r: seq<Movement>)
    ensures |r| == |lines|
  {
    if lines == [] then []
    else SaleMovements(lines[..|lines| - 1], saleId, actor, now) + [SaleMovement(lines[|lines| - 1], saleId, actor, now)]
  }

  function SaleItemOf(l: CartLine, saleId: Id): SaleItem {
    SaleItem(saleId, l.productId, l.quantity, l.unitPrice, l.lineTotal)
  }

  function SaleItemsOf(lines: seq<CartLine>, saleId: Id): (r: seq<SaleItem>)
    ensures |r| == |lines|
  {
    if lines == [] then [] else SaleItemsOf(lines[..|lines| - 1], saleId) + [SaleItemOf(lines[|lines| - 1], saleId)]
  }

  /** The sales row: subtotal, tax at TAX_RATE, zero discount, final = subtotal + tax − discount. */
  function SaleRecord(subtotal: real, actor: int, customerName: string, notes: string, now: int): Sale {
    Sale(subtotal, subtotal * TAX_RATE, 0.0, subtotal + subtotal * TAX_RATE - 0.0, actor,
         Php.OrNull(Php.Trim(customerName)), Php.OrNull(Php.Trim(notes)), now)
  }

  /** Writes issued by a checkout of n lines: the sale row, then item, stock update and movement per line. */
  function SaleWrites(n: nat): nat {
    1 + 3 * n
  }

  /** The store after a committed checkout of `lines`. */
  function CommittedSale(t: Tables, lines: seq<CartLine>, customerName: string, notes: string, actor: int, now: int): Tables {
    var id := t.nextSaleId;
    var ms := SaleMovements(lines, id, actor, now);
    t.(sales := t.sales[id := SaleRecord(SumLineTotals(lines), actor, customerName, notes, now)],
       nextSaleId := id + 1,
       saleItems := t.saleItems + SaleItemsOf(lines, id),
       products := ApplyMovements(t.products, ms),
       movements := t.movements + ms)
  }

  /** A committed sale keeps every auto-increment key below its counter. */
  lemma CommittedSaleWellKeyed(t: Tables, lines: seq<CartLine>, customerName: string, notes: string, actor: int, now: int)
    requires WellKeyed(t)
    ensures WellKeyed(CommittedSale(t, lines, customerName, notes, actor, now))
    ensures CommittedSale(t, lines, customerName, notes, actor, now).sales.Keys == t.sales.Keys + {t.nextSaleId}
    ensures t.nextSaleId !in t.sales
  {
  }

  datatype SaleOutcome =
    | EmptyCart
    | OutOfStock(productId: Id, name: string, available: int)
    | SaleStorageError
    | Completed(saleId: Id)

  /** The stock re-check loop of finalize_sale: the first line that cannot be served, if any. */
  method CheckStock(products: map<Id, Product>, lines: seq<CartLine>) returns (short: Option<nat>)
    ensures short == FirstShort(products, lines)
  {
    for i := 0 to |lines|
      invariant forall j :: 0 <= j < i ==> !Short(products, lines[j])
    {
      if Short(products, lines[i]) {
        return Some(i);
      }
    }
    return None;
  }

  /**
   * The checkout transaction on a copy of the tables: subtotal, the sale row, then the per-line
   * writes. `ok` is false when one of the writes throws, in which case `after` is to be discarded.
   */
  method WriteSale(t: Tables, lines: seq<CartLine>, customerName: string, notes: string, actor: int, now: int, fault: Fault)
    returns (ok: bool, after: Tables)
    ensures ok <==> !FailsBefore(fault, SaleWrites(|lines|))
    ensures ok ==> after == CommittedSale(t, lines, customerName, notes, actor, now)
  {
    var subtotal := Subtotal(lines);
    var saleId := t.nextSaleId;
    if FailsAt(fault, 0) {
      return false, t;
    }
    assert subtotal == SumLineTotals(lines);
    var sales := t.sales[saleId := SaleRecord(subtotal, actor, customerName, notes, now)];
    var items, prods, moves;
    ok, items, prods, moves := WriteSaleLines(t.saleItems, t.products, t.movements, lines, saleId, actor, now, fault);
    after := t.(sales := sales, nextSaleId := saleId + 1, saleItems := items, products := prods, movements := moves);
  }

  /** The tables a checkout writes per line, as the transaction sees them. */
  datatype SaleTx = SaleTx(items: seq<SaleItem>, prods: map<Id, Product>, moves: seq<Movement>)

  /** One line written: its item row, its stock decrement and its 'Sortie - Vente' movement. */
  function ApplySaleLine(tx: SaleTx, l: CartLine, saleId: Id, actor: int, now: int): SaleTx {
    SaleTx(tx.items + [SaleItemOf(l, saleId)], WithDelta(tx.prods, l.productId, -l.quantity),
           tx.moves + [SaleMovement(l, saleId, actor, now)])
  }

  function ApplySaleLines(tx: SaleTx, lines: seq<CartLine>, saleId: Id, actor: int, now: int): SaleTx {
    if lines == [] then tx
    else ApplySaleLine(ApplySaleLines(tx, lines[..|lines| - 1], saleId, actor, now), lines[|lines| - 1], saleId, actor, now)
  }

  /** Writing the lines one by one appends their item rows ... */
  lemma {:induction false} ApplySaleLinesItems(tx: SaleTx, lines: seq<CartLine>, saleId: Id, actor: int, now: int)
    ensures ApplySaleLines(tx, lines, saleId, actor, now).items == tx.items + SaleItemsOf(lines, saleId)
  {
    if lines != [] {
      var init := lines[..|lines| - 1];
      ApplySaleLinesItems(tx, init, saleId, actor, now);
      assert SaleItemsOf(lines, saleId) == SaleItemsOf(init, saleId) + [SaleItemOf(lines[|lines| - 1], saleId)];
    }
  }

  /** ... appends their movements ... */
  lemma {:induction false} ApplySaleLinesMoves(tx: SaleTx, lines: seq<CartLine>, saleId: Id, actor: int, now: int)
    ensures ApplySaleLines(tx, lines, saleId, actor, now).moves == tx.moves + SaleMovements(lines, saleId, actor, now)
  {
    if lines != [] {
      var init := lines[..|lines| - 1];
      ApplySaleLinesMoves(tx, init, saleId, actor, now);
      assert SaleMovements(lines, saleId, actor, now)
          == SaleMovements(init, saleId, actor, now) + [SaleMovement(lines[|lines| - 1], saleId, actor, now)];
    }
  }

  /** ... and applies those movements to the stock. */
  lemma {:induction false} ApplySaleLinesStock(tx: SaleTx, lines: seq<CartLine>, saleId: Id, actor: int, now: int)
    ensures ApplySaleLines(tx, lines, saleId, actor, now).prods == ApplyMovements(tx.prods, SaleMovements(lines, saleId, actor, now))
  {
    if lines != [] {
      var init := lines[..|lines| - 1];
      ApplySaleLinesStock(tx, init, saleId, actor, now);
      var ms := SaleMovements(lines, saleId, actor, now);
      assert ms == SaleMovements(init, saleId, actor, now) + [SaleMovement(lines[|lines| - 1], saleId, actor, now)];
      assert ms[..|ms| - 1] == SaleMovements(init, saleId, actor, now);
    }
  }

  /**
   * The per-line writes of the checkout transaction: item row, stock decrement and 'Sortie - Vente'
   * movement for each line, on copies of the tables. `ok` is false when one of those writes throws.
   */
  method WriteSaleLines(saleItems: seq<SaleItem>, products: map<Id, Product>, movements: seq<Movement>,
                        lines: seq<CartLine>, saleId: Id, actor: int, now: int, fault: Fault)
    returns (ok: bool, items: seq<SaleItem>, prods: map<Id, Product>, moves: seq<Movement>)
    requires !FailsAt(fault, 0)
    ensures ok <==> !FailsBefore(fault, SaleWrites(|lines|))
    ensures ok ==> items == saleItems + SaleItemsOf(lines, saleId)
    ensures ok ==> moves == movements + SaleMovements(lines, saleId, actor, now)
    ensures ok ==> prods == ApplyMovements(products, SaleMovements(lines, saleId, actor, now))
  {
    var start := SaleTx(saleItems, products, movements);
    var tx := start;
    for k := 0 to |lines|
      invariant !FailsBefore(fault, SaleWrites(k))
      invariant tx == ApplySaleLines(start, lines[..k], saleId, actor, now)
    {
      if FailsBefore(fault, SaleWrites(k + 1)) {
        return false, tx.items, tx.prods, tx.moves;
      }
      assert lines[..k + 1][..k] == lines[..k];
      tx := ApplySaleLine(tx, lines[k], saleId, actor, now);
    }
    assert lines[..|lines|] == lines;
    ApplySaleLinesItems(start, lines, saleId, actor, now);
    ApplySaleLinesMoves(start, lines, saleId, actor, now);
    ApplySaleLinesStock(start, lines, saleId, actor, now);
    ok, items, prods, moves := true, tx.items, tx.prods, tx.moves;
  }

  /**
   * finalize_sale. Rejects an empty cart; re-checks every line against current stock and stops at
   * the first line that cannot be served; otherwise writes the sale, its items, the stock decrements
   * and one 'Sortie - Vente' movement per line in one transaction, then clears the cart. Any failed
   * write rolls the whole transaction back and keeps the cart.
   */
  method FinalizeSale(db: Database, cart: SaleCart, customerName: string, notes: string, actor: int, now: int, fault: Fault)
    returns (r: SaleOutcome)
    requires db.Valid() && cart.Valid()
    modifies db, cart
    ensures db.Valid() && cart.Valid()
    ensures r == EmptyCart <==> old(cart.lines) == []
    ensures r.OutOfStock? <==> old(cart.lines) != [] && FirstShort(old(db.tables.products), old(cart.lines)).Some?
    ensures r.OutOfStock? ==>
      var l := old(cart.lines)[FirstShort(old(db.tables.products), old(cart.lines)).value];
      r == OutOfStock(l.productId, l.name, Available(old(db.tables.products), l.productId))
    ensures r == SaleStorageError <==>
      && old(cart.lines) != [] && FirstShort(old(db.tables.products), old(cart.lines)).None?
      && FailsBefore(fault, SaleWrites(|old(cart.lines)|))
    ensures !r.Completed? ==> db.tables == old(db.tables) && cart.lines == old(cart.lines)
    ensures r.Completed? ==>
      && r.saleId == old(db.tables.nextSaleId) && cart.lines == []
      && db.tables == CommittedSale(old(db.tables), old(cart.lines), customerName, notes, actor, now)
  {
    var lines := cart.lines;
    if lines == [] {
      return EmptyCart;
    }
    var t := db.tables;
    var short := CheckStock(t.products, lines);
    if short.Some? {
      var l := lines[short.value];
      return OutOfStock(l.productId, l.name, Available(t.products, l.productId));
    }
    var ok, after := WriteSale(t, lines, customerName, notes, actor, now, fault);
    if !ok {
      return SaleStorageError;
    }
    CommittedSaleWellKeyed(t, lines, customerName, notes, actor, now);
    db.tables := after;
    cart.lines := [];
    r := Completed(t.nextSaleId);
  }

  // ---------------------------------------------------------------------------
  // Properties of a committed sale

  /** Total quantity of product `id` over the cart lines. */
  function CartQuantity(lines: seq<CartLine>, id: Id): int {
    if lines == [] then 0
    else CartQuantity(lines[..|lines| - 1], id) + (if lines[|lines| - 1].productId == id then lines[|lines| - 1].quantity else 0)
  }

  /** The sale's ledger entries for a product add up to minus the quantity sold of it. */
  lemma {:induction false} SaleLedgerSum(lines: seq<CartLine>, saleId: Id, actor: int, now: int, id: Id)
    ensures LedgerSum(SaleMovements(lines, saleId, actor, now), id) == -CartQuantity(lines, id)
  {
    if lines != [] {
      var init := lines[..|lines| - 1];
      SaleLedgerSum(init, saleId, actor, now, id);
      assert SaleMovements(lines, saleId, actor, now)[..|lines| - 1] == SaleMovements(init, saleId, actor, now);
    }
  }

  /** With one line per product, the quantity sold of a product is that of its line, or 0. */
  lemma {:induction false} CartQuantityOfDistinct(lines: seq<CartLine>, id: Id)
    requires DistinctKeys(lines, LineKey)
    ensures IndexOfKey(lines, LineKey, id).None? ==> CartQuantity(lines, id) == 0
    ensures IndexOfKey(lines, LineKey, id).Some? ==> CartQuantity(lines, id) == lines[IndexOfKey(lines, LineKey, id).value].quantity
  {
    if lines != [] {
      var init := lines[..|lines| - 1];
      assert DistinctKeys(init, LineKey) by {
        forall i, j | 0 <= i < j < |init| ensures LineKey(init[i]) != LineKey(init[j]) {
          assert init[i] == lines[i] && init[j] == lines[j];
        }
      }
      CartQuantityOfDistinct(init, id);
      if lines[|lines| - 1].productId == id {
        assert IndexOfKey(init, LineKey, id).None? by {
          forall i | 0 <= i < |init| ensures LineKey(init[i]) != id {
            assert init[i] == lines[i];
          }
        }
      } else {
        assert IndexOfKey(lines, LineKey, id) == IndexOfKey(init, LineKey, id);
        if IndexOfKey(init, LineKey, id).Some? {
          assert init[IndexOfKey(init, LineKey, id).value] == lines[IndexOfKey(init, LineKey, id).value];
        }
      }
    }
  }

  /**
   * The ledger property of checkout: each product's stock drops by exactly the quantity sold of it,
   * which is also the sum of the sale's ledger entries for it; nothing else about a product changes.
   */
  lemma SaleStockMatchesLedger(t: Tables, lines: seq<CartLine>, customerName: string, notes: string, actor: int, now: int, id: Id)
    requires id in t.products
    ensures var after := CommittedSale(t, lines, customerName, notes, actor, now);
      && id in after.products
      && after.products[id].currentStock == t.products[id].currentStock - CartQuantity(lines, id)
      && after.products[id].currentStock == t.products[id].currentStock + LedgerSum(after.movements[|t.movements|..], id)
      && after.products[id] == t.products[id].(currentStock := after.products[id].currentStock)
  {
    var ms := SaleMovements(lines, t.nextSaleId, actor, now);
    LedgerDelta(t.products, ms, id);
    SaleLedgerSum(lines, t.nextSaleId, actor, now, id);
    assert (t.movements + ms)[|t.movements|..] == ms;
  }

  /**
   * No oversell: after a checkout that passed the stock re-check, every product in the cart has
   * its old stock minus its line's quantity, which is never negative.
   */
  lemma SaleNeverOversells(t: Tables, lines: seq<CartLine>, customerName: string, notes: string, actor: int, now: int)
    requires WellFormedCart(lines) && FirstShort(t.products, lines).None?
    ensures var after := CommittedSale(t, lines, customerName, notes, actor, now);
      forall i :: 0 <= i < |lines| ==>
        && lines[i].productId in after.products
        && after.products[lines[i].productId].currentStock == t.products[lines[i].productId].currentStock - lines[i].quantity >= 0
  {
    forall i | 0 <= i < |lines|
      ensures var after := CommittedSale(t, lines, customerName, notes, actor, now);
        && lines[i].productId in after.products
        && after.products[lines[i].productId].currentStock == t.products[lines[i].productId].currentStock - lines[i].quantity >= 0
    {
      var id := lines[i].productId;
      assert !Short(t.products, lines[i]);
      SaleStockMatchesLedger(t, lines, customerName, notes, actor, now, id);
      CartQuantityOfDistinct(lines, id);
      assert IndexOfKey(lines, LineKey, id).value == i;
    }
  }

  /** The worked example: 2 units at 1000 give subtotal 2000, tax 360, final 2360 and one movement of −2. */
  lemma TwoUnitsAtOneThousand(t: Tables, actor: int, now: int, id: Id)
    requires id in t.products
    ensures var lines := [CartLine(id, t.products[id].name, 2, 1000.0, 2000.0, t.products[id].currentStock)];
      var after := CommittedSale(t, lines, "", "", actor, now);
      && after.sales[t.nextSaleId].totalAmount == 2000.0
      && after.sales[t.nextSaleId].taxAmount == 360.0
      && after.sales[t.nextSaleId].finalAmount == 2360.0
      && after.movements == t.movements + [Movement(id, SALE_OUT, -2, SaleNote(t.nextSaleId, 2, t.products[id].name), actor, now)]
  {
    var lines := [CartLine(id, t.products[id].name, 2, 1000.0, 2000.0, t.products[id].currentStock)];
    assert SumLineTotals(lines) == 2000.0 by {
      assert lines[..0] == [];
    }
  }
}
