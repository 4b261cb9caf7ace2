/** `InventoryItem` (inventory/models.py): one stock row per business and product, and the
    `restock_needed` field of its serializer. */
module Inventory {
  import opened Common

  /** Inventory rows are unique per (inventory, product), and each business has one inventory. */
  datatype StockKey = StockKey(business: BusinessId, product: ProductId)

  datatype InventoryRow = InventoryRow(
    location: LocationId,
    quantity: int,
    quantityOnHand: Option<int>,
    unitCost: Option<real>,
    trackCode: Option<string>,
    notes: Option<string>,
    reorderLevel: Option<int>,
    lastTransaction: Option<nat>)

  /** A reorder level that Python treats as false: NULL or 0. */
  predicate NoReorderLevel(row: InventoryRow) {
    row.reorderLevel.None? || row.reorderLevel.value == 0
  }

  /** `get_restock_needed`: no answer without a (non-zero) reorder level; otherwise whether the
      stock on hand is at or below it. Comparing a NULL stock on hand raises TypeError. */
  function RestockNeeded(row: InventoryRow): (r: Result<Option<bool>>)
    ensures r == Ok(None) <==> NoReorderLevel(row)
    ensures r.Fail? <==> !NoReorderLevel(row) && row.quantityOnHand.None?
    ensures r == Ok(Some(true)) <==>
              !NoReorderLevel(row) && row.quantityOnHand.Some? && row.quantityOnHand.value <= row.reorderLevel.value
    ensures r == Ok(Some(false)) <==>
              !NoReorderLevel(row) && row.quantityOnHand.Some? && row.quantityOnHand.value > row.reorderLevel.value
  {
    if row.reorderLevel.None? || row.reorderLevel.value == 0 then Ok(None)
    else if row.quantityOnHand.None? then Fail(NullArithmetic)
    else if row.quantityOnHand.value > row.reorderLevel.value then Ok(Some(false))
    else Ok(Some(true))
  }

  /** `restock_needed` reads the reorder level and the stock on hand, nothing else. */
  lemma RestockNeededReadsTwoFields(a: InventoryRow, b: InventoryRow)
    requires a.reorderLevel == b.reorderLevel && a.quantityOnHand == b.quantityOnHand
    ensures RestockNeeded(a) == RestockNeeded(b)
  {
  }

  /** Selling from a row that already needs restocking keeps it needing restocking, and restocking a
      row that does not need it keeps it that way. */
  lemma RestockNeededMonotone(row: InventoryRow, onHand: int)
    requires row.quantityOnHand.Some?
    ensures onHand <= row.quantityOnHand.value && RestockNeeded(row) == Ok(Some(true))
            ==> RestockNeeded(row.(quantityOnHand := Some(onHand))) == Ok(Some(true))
    ensures onHand >= row.quantityOnHand.value && RestockNeeded(row) == Ok(Some(false))
            ==> RestockNeeded(row.(quantityOnHand := Some(onHand))) == Ok(Some(false))
  {
  }

  /** The `InventoryItem` table. */
  class InventoryTable {
    var rows: map<StockKey, InventoryRow>

    constructor (rows: map<StockKey, InventoryRow>)
      ensures this.rows == rows
    {
      this.rows := rows;
    }
  }
}
