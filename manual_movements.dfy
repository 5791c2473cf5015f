/**
 * Manual stock movements: an adjustment, a breakage or an internal use entered by hand. The
 * handler resolves the movement type, signs the quantity from the type's prefix, and in one
 * transaction appends the movement and adds the same signed quantity to the product's stock.
 */
module ManualMovements {
  import opened Wrappers
  import opened Store
  import Php

  /** The ENUM values a manual movement may carry. */
  predicate ManualType(t: string) {
    t == ADJUSTMENT_IN || t == BREAKAGE_OUT || t == INTERNAL_USE_OUT
  }

  /**
   * The movement type from the posted `movement_type_base` and `manual_movement_enum_type`:
   * 'Entree' always means an adjustment, 'Sortie' takes the enum field when it is a manual value,
   * and anything else leaves the type empty.
   */
  function ResolveType(base: string, enumType: string): (r: string)
    ensures base == "Entree" ==> r == ADJUSTMENT_IN
    ensures base == "Sortie" && ManualType(enumType) ==> r == enumType
    ensures base == "Sortie" && !ManualType(enumType) ==> r == ""
    ensures base != "Entree" && base != "Sortie" ==> r == ""
  {
    if base == "Entree" then ADJUSTMENT_IN
    else if base == "Sortie" then (if ManualType(enumType) then enumType else "")
    else ""
  }

  /** The signed quantity written: negative exactly for the 'Sortie - ' types. */
  function RecordedQuantity(movementType: string, quantity: int): int {
    if Php.StartsWith(movementType, "Sortie - ") then -quantity else quantity
  }

  /** Every resolved type is empty or one of the manual values, and its sign follows the ENUM value. */
  lemma ResolvedTypeSign(base: string, enumType: string, quantity: int)
    ensures var t := ResolveType(base, enumType);
      && (t == "" || ManualType(t))
      && (t == ADJUSTMENT_IN ==> RecordedQuantity(t, quantity) == quantity)
      && (t == BREAKAGE_OUT || t == INTERNAL_USE_OUT ==> RecordedQuantity(t, quantity) == -quantity)
  {
    assert !Php.StartsWith(ADJUSTMENT_IN, "Sortie - ") by {
      assert ADJUSTMENT_IN[0] != "Sortie - "[0];
    }
    assert BREAKAGE_OUT[..9] == "Sortie - ";
    assert INTERNAL_USE_OUT[..9] == "Sortie - ";
  }

  /**
   * The page's form posts `manual_movement_enum_type` but no `movement_type_base`, which the
   * handler then reads as "": whatever type the user picks, the resolved type is empty.
   */
  lemma FormSubmissionNeverResolves(enumType: string)
    ensures ResolveType("", enumType) == ""
  {
  }

  /** The stored note: the trimmed text, or NULL when it is empty. */
  function ManualNote(notes: string): (r: Note)
    ensures Php.Empty(Php.Trim(notes)) <==> r == NoNote
  {
    var text := Php.Trim(notes);
    if Php.Empty(text) then NoNote else UserNote(text)
  }

  function ManualMovement(productId: Id, movementType: string, recorded: int, notes: string, actor: int, now: int): Movement {
    Movement(productId, movementType, recorded, ManualNote(notes), actor, now)
  }

  /** The store after a committed manual movement `m`: the ledger grows by `m` and the stock by its quantity. */
  function CommittedMovement(t: Tables, m: Movement): Tables {
    t.(movements := t.movements + [m], products := ApplyMovements(t.products, [m]))
  }

  datatype ManualOutcome =
    | InvalidType
    | InvalidRequest
    | MovementStorageError
    | Recorded(quantity: int)

  /**
   * add_manual_movement. An empty resolved type is reported as such; otherwise a product id or a
   * quantity that does not parse, or a quantity below 1, is rejected. Then the movement is
   * inserted (its product must exist) and the stock updated; if either write fails both are
   * rolled back. Nothing checks that the stock stays non-negative.
   */
  method AddManualMovement(db: Database, productId: Option<int>, base: string, enumType: string, quantity: Option<int>,
                           notes: string, actor: int, now: int, fault: Fault)
    returns (r: ManualOutcome)
    requires db.Valid()
    modifies db
    ensures db.Valid()
    ensures r == InvalidType <==> ResolveType(base, enumType) == ""
    ensures r == InvalidRequest <==>
      ResolveType(base, enumType) != "" && (productId.None? || quantity.None? || quantity.value < 1)
    ensures r == MovementStorageError <==>
      && ResolveType(base, enumType) != "" && productId.Some? && quantity.Some? && quantity.value >= 1
      && (FailsBefore(fault, 2) || productId.value !in old(db.tables.products))
    ensures !r.Recorded? ==> db.tables == old(db.tables)
    ensures base == "" ==> r == InvalidType && db.tables == old(db.tables)
    ensures r.Recorded? ==>
      var movementType := ResolveType(base, enumType);
      && productId.Some? && quantity.Some? && quantity.value >= 1
      && r.quantity == RecordedQuantity(movementType, quantity.value)
      && db.tables == CommittedMovement(old(db.tables), ManualMovement(productId.value, movementType, r.quantity, notes, actor, now))
  {
    var movementType := ResolveType(base, enumType);
    if productId.None? || movementType == "" || quantity.None? || quantity.value < 1 {
      return if movementType == "" then InvalidType else InvalidRequest;
    }
    var id := productId.value;
    var recorded := RecordedQuantity(movementType, quantity.value);
    var t := db.tables;
    // 1. INSERT INTO stock_movements: fails on a storage error or a dangling product_id.
    if FailsAt(fault, 0) || id !in t.products {
      return MovementStorageError;
    }
    var m := ManualMovement(id, movementType, recorded, notes, actor, now);
    var movements := t.movements + [m];
    // 2. UPDATE products SET current_stock = current_stock + recorded.
    if FailsAt(fault, 1) {
      return MovementStorageError;
    }
    var products := WithDelta(t.products, id, recorded);
    assert [m][..0] == [];
    assert ApplyMovements(t.products, [m]) == products;
    db.tables := t.(movements := movements, products := products);
    r := Recorded(recorded);
  }

  /**
   * The ledger property of a manual movement: the product's stock changes by the recorded
   * quantity, which is the sum of the movements appended for it; every other product is untouched.
   */
  lemma ManualStockMatchesLedger(t: Tables, m: Movement, id: Id)
    requires id in t.products
    ensures var after := CommittedMovement(t, m);
      && id in after.products
      && after.products[id].currentStock == t.products[id].currentStock + (if m.productId == id then m.quantity else 0)
      && after.products[id].currentStock == t.products[id].currentStock + LedgerSum(after.movements[|t.movements|..], id)
      && after.products[id] == t.products[id].(currentStock := after.products[id].currentStock)
  {
    LedgerDelta(t.products, [m], id);
    assert (t.movements + [m])[|t.movements|..] == [m];
    assert [m][..0] == [];
  }

  /** A breakage larger than the stock is recorded all the same and leaves a negative stock. */
  lemma BreakageCanDriveStockNegative(t: Tables, id: Id, q: int, actor: int, now: int)
    requires id in t.products && q >= 1 && t.products[id].currentStock < q
    ensures var m := ManualMovement(id, BREAKAGE_OUT, RecordedQuantity(BREAKAGE_OUT, q), "", actor, now);
      CommittedMovement(t, m).products[id].currentStock < 0
  {
    ResolvedTypeSign("Sortie", BREAKAGE_OUT, q);
    var m := ManualMovement(id, BREAKAGE_OUT, RecordedQuantity(BREAKAGE_OUT, q), "", actor, now);
    ManualStockMatchesLedger(t, m, id);
  }
}
