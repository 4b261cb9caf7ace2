/** `RestockSerializer.save` (sales/serializers.py): receiving a purchase invoice into the stock
    of a business, line by line, with no ledger and no flags. */
module RestockSerializer {
  import opened Common
  import opened InvoiceLines
  import opened Inventory
  import opened PurchaseInvoices

  /** The stock row of `business` for the product of `l`. */
  function KeyOf(l: Line, business: BusinessId): StockKey
  {
    StockKey(business, l.product)
  }

  /** The stock keys of the invoice's products. */
  function StockKeys(lines: seq<Line>, business: BusinessId): (keys: set<StockKey>)
    ensures forall i | 0 <= i < |lines| :: KeyOf(lines[i], business) in keys
    ensures forall k | k in keys :: exists i | 0 <= i < |lines| :: KeyOf(lines[i], business) == k
  {
    set i | 0 <= i < |lines| :: KeyOf(lines[i], business)
  }

  /** An existing stock row after a restock of `l`: the ordered quantity is added to the quantity
      and the stock on hand, and location, unit cost and notes are overwritten. */
  function Bumped(row: InventoryRow, l: Line, location: LocationId): (r: InventoryRow)
    requires row.quantityOnHand.Some?
    ensures r.quantity == row.quantity + l.quantity
    ensures r.quantityOnHand == Some(row.quantityOnHand.value + l.quantity)
    ensures r == row.(location := location, quantity := r.quantity, quantityOnHand := r.quantityOnHand,
                      unitCost := Some(l.price), notes := l.notes)
  {
    row.(location := location, quantity := row.quantity + l.quantity,
         quantityOnHand := Some(row.quantityOnHand.value + l.quantity), unitCost := Some(l.price), notes := l.notes)
  }

  /** A stock row created by a restock of `l`: quantity and stock on hand are both the ordered
      quantity; no reorder level, no transaction. */
  function Created(l: Line, location: LocationId): (r: InventoryRow)
    ensures r.quantity == l.quantity && r.quantityOnHand == Some(l.quantity)
  {
    InventoryRow(location, l.quantity, Some(l.quantity), Some(l.price), l.trackCode, l.notes, None, None)
  }

  /** Restocking one line: adding `+=` to a NULL stock on hand raises TypeError. */
  function RestockLine(rows: map<StockKey, InventoryRow>, l: Line, business: BusinessId, location: LocationId)
    : Result<map<StockKey, InventoryRow>>
  {
    var k := KeyOf(l, business);
    if k !in rows then Ok(rows[k := Created(l, location)])
    else if rows[k].quantityOnHand.None? then Fail(NullArithmetic)
    else Ok(rows[k := Bumped(rows[k], l, location)])
  }

  /** The stock table after restocking the invoice's lines, in order. */
  function RestockedRows(rows: map<StockKey, InventoryRow>, lines: seq<Line>, business: BusinessId, location: LocationId)
    : Result<map<StockKey, InventoryRow>>
  {
    if lines == [] then Ok(rows)
    else
      match RestockedRows(rows, lines[..|lines| - 1], business, location)
      case Fail(e) => Fail(e)
      case Ok(m) => RestockLine(m, lines[|lines| - 1], business, location)
  }

  /** Once a prefix of the lines raises, the whole restock raises. */
  lemma {:induction false} RestockedRowsPrefixFails(rows: map<StockKey, InventoryRow>, lines: seq<Line>,
                                                    business: BusinessId, location: LocationId, i: nat)
    requires i <= |lines| && RestockedRows(rows, lines[..i], business, location).Fail?
    ensures RestockedRows(rows, lines, business, location) == RestockedRows(rows, lines[..i], business, location)
    decreases |lines| - i
  {
    if i < |lines| {
      assert lines[..i + 1][..i] == lines[..i];
      RestockedRowsPrefixFails(rows, lines, business, location, i + 1);
    } else {
      assert lines[..i] == lines;
    }
  }

  /** Some existing stock row of an invoice product has a NULL stock on hand. */
  predicate NullOnHand(rows: map<StockKey, InventoryRow>, lines: seq<Line>, business: BusinessId) {
    exists i | 0 <= i < |lines| :: KeyOf(lines[i], business) in rows && rows[KeyOf(lines[i], business)].quantityOnHand.None?
  }

  lemma StockKeysSnoc(lines: seq<Line>, business: BusinessId)
    requires lines != []
    ensures StockKeys(lines, business) == StockKeys(lines[..|lines| - 1], business) + {KeyOf(lines[|lines| - 1], business)}
  {
    var pre := lines[..|lines| - 1];
    forall key | key in StockKeys(lines, business)
      ensures key in StockKeys(pre, business) + {KeyOf(lines[|lines| - 1], business)}
    {
      var j :| 0 <= j < |lines| && KeyOf(lines[j], business) == key;
      if j < |pre| {
        assert pre[j] == lines[j];
      }
    }
  }

  /** Under distinct products, the last line's stock key is not one of the earlier lines' keys. */
  lemma LastKeyIsNew(lines: seq<Line>, business: BusinessId)
    requires lines != [] && DistinctProducts(lines)
    ensures KeyOf(lines[|lines| - 1], business) !in StockKeys(lines[..|lines| - 1], business)
  {
  }

  /** The restock of a non-empty invoice is the restock of its last line on top of the others'. */
  lemma RestockedRowsSnoc(rows: map<StockKey, InventoryRow>, lines: seq<Line>, business: BusinessId, location: LocationId)
    requires lines != [] && RestockedRows(rows, lines, business, location).Ok?
    ensures RestockedRows(rows, lines[..|lines| - 1], business, location).Ok?
    ensures RestockLine(RestockedRows(rows, lines[..|lines| - 1], business, location).value, lines[|lines| - 1], business, location)
            == RestockedRows(rows, lines, business, location)
  {
  }

  /** A restock that does not raise keeps every row and adds one for each invoice product. */
  lemma {:induction false} RestockedRowsKeys(rows: map<StockKey, InventoryRow>, lines: seq<Line>,
                                             business: BusinessId, location: LocationId)
    requires RestockedRows(rows, lines, business, location).Ok?
    ensures RestockedRows(rows, lines, business, location).value.Keys == rows.Keys + StockKeys(lines, business)
  {
    if lines != [] {
      RestockedRowsSnoc(rows, lines, business, location);
      RestockedRowsKeys(rows, lines[..|lines| - 1], business, location);
      StockKeysSnoc(lines, business);
    }
  }

  /** A restock that does not raise leaves the rows of other products (and other businesses) as
      they were. */
  lemma {:induction false} RestockedRowsUntouched(rows: map<StockKey, InventoryRow>, lines: seq<Line>,
                                                  business: BusinessId, location: LocationId)
    requires RestockedRows(rows, lines, business, location).Ok?
    ensures forall k | k in rows && k !in StockKeys(lines, business) ::
              k in RestockedRows(rows, lines, business, location).value
              && RestockedRows(rows, lines, business, location).value[k] == rows[k]
  {
    if lines != [] {
      RestockedRowsSnoc(rows, lines, business, location);
      RestockedRowsUntouched(rows, lines[..|lines| - 1], business, location);
      StockKeysSnoc(lines, business);
    }
  }

  /** Some invoice product has a NULL stock row iff one of the earlier ones has, or the last one has. */
  lemma NullOnHandSnoc(rows: map<StockKey, InventoryRow>, lines: seq<Line>, business: BusinessId)
    requires lines != []
    ensures var k := KeyOf(lines[|lines| - 1], business);
            NullOnHand(rows, lines, business)
            <==> NullOnHand(rows, lines[..|lines| - 1], business) || (k in rows && rows[k].quantityOnHand.None?)
  {
    var pre := lines[..|lines| - 1];
    if NullOnHand(rows, pre, business) {
      var j :| 0 <= j < |pre| && KeyOf(pre[j], business) in rows && rows[KeyOf(pre[j], business)].quantityOnHand.None?;
      assert lines[j] == pre[j];
    }
    if NullOnHand(rows, lines, business) {
      var j :| 0 <= j < |lines| && KeyOf(lines[j], business) in rows && rows[KeyOf(lines[j], business)].quantityOnHand.None?;
      if j < |pre| {
        assert pre[j] == lines[j];
      }
    }
  }

  /** When the earlier lines restock without raising, the last line raises exactly when its
      product has an existing row of the business with a NULL stock on hand. */
  lemma RestockLastFails(rows: map<StockKey, InventoryRow>, lines: seq<Line>, business: BusinessId, location: LocationId)
    requires lines != [] && DistinctProducts(lines)
    requires RestockedRows(rows, lines[..|lines| - 1], business, location).Ok?
    ensures var k := KeyOf(lines[|lines| - 1], business);
            RestockedRows(rows, lines, business, location).Fail? <==> k in rows && rows[k].quantityOnHand.None?
  {
    var pre := lines[..|lines| - 1];
    RestockedRowsKeys(rows, pre, business, location);
    RestockedRowsUntouched(rows, pre, business, location);
    LastKeyIsNew(lines, business);
  }

  /** A restock of invoice lines with distinct products raises exactly when an existing row of an
      invoice product has a NULL stock on hand. */
  lemma {:induction false} RestockedRowsFails(rows: map<StockKey, InventoryRow>, lines: seq<Line>,
                                              business: BusinessId, location: LocationId)
    requires DistinctProducts(lines)
    ensures RestockedRows(rows, lines, business, location).Fail? <==> NullOnHand(rows, lines, business)
  {
    if lines != [] {
      var pre := lines[..|lines| - 1];
      assert DistinctProducts(pre);
      RestockedRowsFails(rows, pre, business, location);
      NullOnHandSnoc(rows, lines, business);
      if !NullOnHand(rows, pre, business) {
        RestockLastFails(rows, lines, business, location);
      }
    }
  }

  /** What a restock that does not raise does to each invoice product's row, for an invoice whose
      products are distinct: bumped if the row existed, created if not. */
  lemma {:induction false} RestockedRowsMeaning(rows: map<StockKey, InventoryRow>, lines: seq<Line>,
                                                business: BusinessId, location: LocationId)
    requires DistinctProducts(lines)
    requires RestockedRows(rows, lines, business, location).Ok?
    ensures var r := RestockedRows(rows, lines, business, location).value;
            forall i | 0 <= i < |lines| :: var k := KeyOf(lines[i], business);
              k in r && (k in rows ==> rows[k].quantityOnHand.Some?)
              && r[k] == if k in rows then Bumped(rows[k], lines[i], location) else Created(lines[i], location)
  {
    if lines != [] {
      var n := |lines| - 1;
      var pre := lines[..n];
      var l := lines[n];
      var k := KeyOf(l, business);
      assert DistinctProducts(pre);
      RestockedRowsSnoc(rows, lines, business, location);
      RestockedRowsMeaning(rows, pre, business, location);
      RestockedRowsKeys(rows, pre, business, location);
      RestockedRowsUntouched(rows, pre, business, location);
      LastKeyIsNew(lines, business);
      var m := RestockedRows(rows, pre, business, location).value;
      var r := RestockedRows(rows, lines, business, location).value;
      assert k in m <==> k in rows;
      assert k in rows ==> m[k] == rows[k];
      forall i | 0 <= i < |lines|
        ensures var key := KeyOf(lines[i], business);
                key in r && (key in rows ==> rows[key].quantityOnHand.Some?)
                && r[key] == if key in rows then Bumped(rows[key], lines[i], location) else Created(lines[i], location)
      {
        if i < n {
          assert pre[i] == lines[i];
          assert lines[i].product != l.product;
        }
      }
    }
  }

  /** Restocking is not idempotent: a second restock of the same invoice adds every ordered
      quantity once more, to the quantity and to the stock on hand. */
  lemma RestockTwiceAddsTwice(rows: map<StockKey, InventoryRow>, lines: seq<Line>, business: BusinessId, location: LocationId)
    requires DistinctProducts(lines)
    requires RestockedRows(rows, lines, business, location).Ok?
    ensures var once := RestockedRows(rows, lines, business, location).value;
            RestockedRows(once, lines, business, location).Ok?
            && var twice := RestockedRows(once, lines, business, location).value;
               forall i | 0 <= i < |lines| :: var k := KeyOf(lines[i], business);
                 k in once && k in twice && once[k].quantityOnHand.Some?
                 && twice[k].quantity == once[k].quantity + lines[i].quantity
                 && twice[k].quantityOnHand == Some(once[k].quantityOnHand.value + lines[i].quantity)
  {
    RestockedRowsMeaning(rows, lines, business, location);
    var once := RestockedRows(rows, lines, business, location).value;
    forall i | 0 <= i < |lines|
      ensures KeyOf(lines[i], business) in once && once[KeyOf(lines[i], business)].quantityOnHand.Some?
    {
    }
    RestockedRowsFails(once, lines, business, location);
    RestockedRowsMeaning(once, lines, business, location);
  }

  /** `RestockSerializer.save`: returns False for an invoice without lines; otherwise restocks every
      line into the stock of `business` at `location` and returns True. */
  method Restock(table: InventoryTable, invoice: PurchaseInvoice, business: BusinessId, location: LocationId)
    returns (r: Result<bool>)
    requires invoice.Valid()
    modifies table`rows
    ensures invoice.items == [] ==> r == Ok(false) && table.rows == old(table.rows)
    ensures invoice.items != [] ==>
              match RestockedRows(old(table.rows), invoice.items, business, location)
              case Ok(m) => r == Ok(true) && table.rows == m
              case Fail(e) => r == Fail(e) && table.rows == old(table.rows)
  {
    var lines := invoice.items;
    if |lines| == 0 {
      return Ok(false);
    }
    var rows := table.rows;
    var i := 0;
    while i < |lines|
      invariant 0 <= i <= |lines|
      invariant RestockedRows(table.rows, lines[..i], business, location) == Ok(rows)
    {
      assert lines[..i + 1][..i] == lines[..i];
      var l := lines[i];
      var k := StockKey(business, l.product);
      if k in rows {
        if rows[k].quantityOnHand.None? {
          assert RestockedRows(table.rows, lines[..i + 1], business, location) == Fail(NullArithmetic);
          RestockedRowsPrefixFails(table.rows, lines, business, location, i + 1);
          return Fail(NullArithmetic);
        }
        rows := rows[k := Bumped(rows[k], l, location)];
      } else {
        rows := rows[k := Created(l, location)];
      }
      i := i + 1;
    }
    assert lines[..i] == lines;
    table.rows := rows;
    r := Ok(true);
  }
}
