/** The helpers of sales/utils.py: the restock field, the split of products into stocked and new,
    the ledger append, the input validators and the deduction pass run when a sale completes. */
module SalesUtils {
  import opened Common
  import opened Ledger
  import opened InvoiceLines
  import opened Inventory
  import opened PurchaseInvoices
  import opened SalesInvoices

  /** The two line columns a restocked amount can be read from. */
  datatype QuantityField = Quantity | QuantityReceived

  /** `getRestockField`: a partial restock counts what was received, a full one what was ordered. */
  function RestockField(isPartial: bool): (f: QuantityField)
    ensures f == QuantityReceived <==> isPartial
  {
    if isPartial then QuantityReceived else Quantity
  }

  /** `getattr(item, field)` for one of the two quantity columns. */
  function QuantityIn(l: Line, f: QuantityField): int
  {
    match f
    case Quantity => l.quantity
    case QuantityReceived => l.quantityReceived
  }

  /** `spiltNewAndOldProducts`: the business's stock rows for the products, the products they
      cover, and the products without one. */
  function SplitNewAndOld(productIds: set<ProductId>, business: BusinessId, stock: map<StockKey, InventoryRow>)
    : (r: (map<ProductId, InventoryRow>, set<ProductId>, set<ProductId>))
    ensures r.1 <= productIds && r.2 == productIds - r.1
    ensures r.1 !! r.2 && r.1 + r.2 == productIds
    ensures forall p :: p in r.1 <==> p in productIds && StockKey(business, p) in stock
    ensures r.0.Keys == r.1 && forall p | p in r.1 :: r.0[p] == stock[StockKey(business, p)]
  {
    var existing := map p | p in productIds && StockKey(business, p) in stock :: stock[StockKey(business, p)];
    (existing, existing.Keys, productIds - existing.Keys)
  }

  /** `logRestockEvent`: one more ledger row of `quantity` against `line`; the rows already there
      are kept. */
  function LogRestockEvent(ledger: seq<LedgerRow>, line: LineId, quantity: nat): (r: seq<LedgerRow>)
    ensures |r| == |ledger| + 1 && r[..|ledger|] == ledger
    ensures LedgerSum(r, line) == LedgerSum(ledger, line) + quantity
    ensures forall other | other != line :: LedgerSum(r, other) == LedgerSum(ledger, other)
  {
    LedgerSumAppendRow(ledger, LedgerRow(line, quantity));
    assert (ledger + [LedgerRow(line, quantity)])[..|ledger|] == ledger;
    ledger + [LedgerRow(line, quantity)]
  }

  /** The stock row `createInventoryItemFromRestock` builds for a line: the chosen quantity is both
      the quantity and the stock on hand. */
  function InventoryRowFromRestock(l: Line, f: QuantityField, location: LocationId, transaction: Option<nat>): (r: InventoryRow)
    ensures r.quantityOnHand == Some(r.quantity)
    ensures r.quantity == (if f == Quantity then l.quantity else l.quantityReceived)
    ensures r.unitCost == Some(l.price) && r.trackCode == l.trackCode && r.notes == l.notes && r.location == location
  {
    var q := QuantityIn(l, f);
    InventoryRow(location, q, Some(q), Some(l.price), l.trackCode, l.notes, None, transaction)
  }

  /** `checkPurchaseInvoiceItemFields`: more received than ordered is refused first, then any line
      for an invoice already RECEIVED (`status` is None when the invoice does not exist). */
  function CheckPurchaseInvoiceItemFields(quantityReceived: int, quantity: int, status: Option<PurchaseStatus>): (o: Outcome)
    ensures o == Pass <==> quantityReceived <= quantity && status != Some(Received)
    ensures quantityReceived > quantity ==> o == Raise(QuantityReceivedTooHigh)
    ensures quantityReceived <= quantity && status == Some(Received) ==> o == Raise(InvoiceAlreadyReceived)
  {
    if quantityReceived > quantity then Raise(QuantityReceivedTooHigh)
    else if status == Some(Received) then Raise(InvoiceAlreadyReceived)
    else Pass
  }

  /** A purchase line accepted by the validator is fully restocked exactly when everything ordered
      was received, and partially restocked otherwise. */
  lemma AcceptedLineFlags(l: Line, status: Option<PurchaseStatus>)
    requires CheckPurchaseInvoiceItemFields(l.quantityReceived, l.quantity, status) == Pass
    ensures l.WithRestockFlags().fulfilled <==> l.quantityReceived == l.quantity
    ensures l.WithRestockFlags().partiallyFulfilled <==> l.quantityReceived < l.quantity
  {
  }

  /** `checkPurchaseInvoiceCreateFields`: an invoice cannot be created already (partially) received. */
  function CheckPurchaseInvoiceCreateFields(status: Option<PurchaseStatus>): (o: Outcome)
    ensures o.Raise? <==> status == Some(Received) || status == Some(PartiallyReceived)
    ensures o.Raise? ==> o.error == ReceivedStatusOnCreate
  {
    if status == Some(Received) || status == Some(PartiallyReceived) then Raise(ReceivedStatusOnCreate) else Pass
  }

  /** Some stock row for `product`, in any business, holds at least `quantity` on hand (a NULL
      stock on hand never matches the `__gte` filter). */
  predicate InStock(product: ProductId, quantity: int, stock: map<StockKey, InventoryRow>) {
    exists k | k in stock :: k.product == product && stock[k].quantityOnHand.Some? && stock[k].quantityOnHand.value >= quantity
  }

  /** `checkSalesInvoiceItemCreateFields`: positive quantity, then positive unit price, then
      enough stock on hand in a single row. */
  function CheckSalesInvoiceItemCreateFields(quantity: int, unitPrice: real, product: ProductId,
                                             stock: map<StockKey, InventoryRow>): (o: Outcome)
    ensures o == Pass <==> quantity > 0 && unitPrice > 0.0 && InStock(product, quantity, stock)
    ensures quantity <= 0 ==> o == Raise(NonPositiveQuantity)
    ensures quantity > 0 && unitPrice <= 0.0 ==> o == Raise(NonPositiveUnitPrice)
    ensures quantity > 0 && unitPrice > 0.0 && !InStock(product, quantity, stock) ==> o == Raise(InsufficientStock)
  {
    if quantity <= 0 then Raise(NonPositiveQuantity)
    else if unitPrice <= 0.0 then Raise(NonPositiveUnitPrice)
    else if !InStock(product, quantity, stock) then Raise(InsufficientStock)
    else Pass
  }

  /** The stock check does not filter by business: a row of any business that covers the quantity
      lets the line through. */
  lemma StockCheckIgnoresBusiness(quantity: int, unitPrice: real, product: ProductId,
                                  stock: map<StockKey, InventoryRow>, other: BusinessId, row: InventoryRow)
    requires quantity > 0 && unitPrice > 0.0
    requires row.quantityOnHand.Some? && row.quantityOnHand.value >= quantity
    ensures CheckSalesInvoiceItemCreateFields(quantity, unitPrice, product, stock[StockKey(other, product) := row]) == Pass
  {
    var s := stock[StockKey(other, product) := row];
    assert StockKey(other, product) in s;
  }

  /** `apply_restock_delta(True, delta, …)` on the stock row of `product`: the call is recorded, its
      effect on the row is not part of this model. */
  datatype StockMovement = StockMovement(product: ProductId, delta: int)

  /** The pass deducts line `l`: its product has a stock row in `business` and the ledger still
      leaves something to deduct. */
  predicate Deducts(l: Line, ledger: seq<LedgerRow>, stock: map<StockKey, InventoryRow>, business: BusinessId) {
    StockKey(business, l.product) in stock && RestockDelta(l.id, l.quantity, ledger) > 0
  }

  datatype PassResult = PassResult(lines: seq<Line>, ledger: seq<LedgerRow>, moves: seq<StockMovement>)

  /** One line of the pass: a deducted line gets one ledger row for its delta, one stock movement and
      its flags recomputed; any other line gets nothing. */
  function VisitLine(l: Line, ledger: seq<LedgerRow>, stock: map<StockKey, InventoryRow>, business: BusinessId): PassResult
  {
    if Deducts(l, ledger, stock, business) then
      var d := RestockDelta(l.id, l.quantity, ledger);
      PassResult([l.WithRestockFlags()], LogRestockEvent(ledger, l.id, d), [StockMovement(l.product, d)])
    else PassResult([l], ledger, [])
  }

  /** The loop of `updateInventoryOnSale` over the invoice's lines, in order. */
  function DeductLines(lines: seq<Line>, ledger: seq<LedgerRow>, stock: map<StockKey, InventoryRow>, business: BusinessId)
    : (r: PassResult)
    ensures |r.lines| == |lines|
    ensures forall i | 0 <= i < |lines| :: SameExceptFlags(lines[i], r.lines[i])
    ensures |r.ledger| >= |ledger| && r.ledger[..|ledger|] == ledger
  {
    if lines == [] then PassResult([], ledger, [])
    else
      var front := DeductLines(lines[..|lines| - 1], ledger, stock, business);
      var v := VisitLine(lines[|lines| - 1], front.ledger, stock, business);
      assert v.ledger[..|front.ledger|] == front.ledger;
      assert v.ledger[..|ledger|] == front.ledger[..|ledger|];
      PassResult(front.lines + v.lines, v.ledger, front.moves + v.moves)
  }

  lemma DistinctIdsPrefix(lines: seq<Line>, n: nat)
    requires DistinctIds(lines) && n <= |lines|
    ensures DistinctIds(lines[..n])
    ensures forall i | n <= i < |lines| :: lines[i].id !in Ids(lines[..n])
  {
  }

  /** What the pass does to each line: a line it deducts ends fully recorded in the ledger (its
      ledger sum is its quantity) with its flags recomputed; any other line and its ledger sum are
      left alone, as are the ledger sums of lines not on the invoice. */
  lemma {:induction false} DeductLinesMeaning(lines: seq<Line>, ledger: seq<LedgerRow>,
                                              stock: map<StockKey, InventoryRow>, business: BusinessId)
    requires DistinctIds(lines)
    ensures var r := DeductLines(lines, ledger, stock, business);
            forall i | 0 <= i < |lines| ::
              (Deducts(lines[i], ledger, stock, business) ==>
                 r.lines[i] == lines[i].WithRestockFlags() && LedgerSum(r.ledger, lines[i].id) == lines[i].quantity)
              && (!Deducts(lines[i], ledger, stock, business) ==>
                 r.lines[i] == lines[i] && LedgerSum(r.ledger, lines[i].id) == LedgerSum(ledger, lines[i].id))
    ensures var r := DeductLines(lines, ledger, stock, business);
            forall id | id !in Ids(lines) :: LedgerSum(r.ledger, id) == LedgerSum(ledger, id)
  {
    if lines != [] {
      var n := |lines| - 1;
      var pre := lines[..n];
      var l := lines[n];
      DistinctIdsPrefix(lines, n);
      DeductLinesMeaning(pre, ledger, stock, business);
      var front := DeductLines(pre, ledger, stock, business);
      var v := VisitLine(l, front.ledger, stock, business);
      var r := DeductLines(lines, ledger, stock, business);
      assert r.lines == front.lines + v.lines && r.ledger == v.ledger;
      assert LedgerSum(front.ledger, l.id) == LedgerSum(ledger, l.id);
      assert Deducts(l, front.ledger, stock, business) == Deducts(l, ledger, stock, business);
      forall i | 0 <= i < |lines|
        ensures (Deducts(lines[i], ledger, stock, business) ==>
                   r.lines[i] == lines[i].WithRestockFlags() && LedgerSum(r.ledger, lines[i].id) == lines[i].quantity)
                && (!Deducts(lines[i], ledger, stock, business) ==>
                   r.lines[i] == lines[i] && LedgerSum(r.ledger, lines[i].id) == LedgerSum(ledger, lines[i].id))
      {
        if i < n {
          assert lines[i] == pre[i] && r.lines[i] == front.lines[i];
          assert lines[i].id != l.id;
          assert LedgerSum(r.ledger, lines[i].id) == LedgerSum(front.ledger, lines[i].id);
        }
      }
      forall id | id !in Ids(lines)
        ensures LedgerSum(r.ledger, id) == LedgerSum(ledger, id)
      {
        assert id != l.id;
        assert id !in Ids(pre);
      }
    }
  }

  /** A pass over lines with nothing to deduct writes nothing. */
  lemma {:induction false} NothingToDeduct(lines: seq<Line>, ledger: seq<LedgerRow>,
                                           stock: map<StockKey, InventoryRow>, business: BusinessId)
    requires forall i | 0 <= i < |lines| :: !Deducts(lines[i], ledger, stock, business)
    ensures DeductLines(lines, ledger, stock, business) == PassResult(lines, ledger, [])
  {
    if lines != [] {
      var n := |lines| - 1;
      NothingToDeduct(lines[..n], ledger, stock, business);
      assert lines[..n] + [lines[n]] == lines;
    }
  }

  /** A second pass right after the first adds no ledger row, moves no stock and flips no flag. */
  lemma SecondPassWritesNothing(lines: seq<Line>, ledger: seq<LedgerRow>,
                                stock: map<StockKey, InventoryRow>, business: BusinessId)
    requires DistinctIds(lines)
    ensures var r := DeductLines(lines, ledger, stock, business);
            DeductLines(r.lines, r.ledger, stock, business) == PassResult(r.lines, r.ledger, [])
  {
    DeductLinesMeaning(lines, ledger, stock, business);
    var r := DeductLines(lines, ledger, stock, business);
    forall i | 0 <= i < |r.lines|
      ensures !Deducts(r.lines[i], r.ledger, stock, business)
    {
      assert SameExceptFlags(lines[i], r.lines[i]);
    }
    NothingToDeduct(r.lines, r.ledger, stock, business);
  }

  /** The pass over one more line continues from where the shorter pass stopped. */
  lemma DeductLinesStep(lines: seq<Line>, i: nat, ledger: seq<LedgerRow>,
                        stock: map<StockKey, InventoryRow>, business: BusinessId)
    requires i < |lines|
    ensures var p := DeductLines(lines[..i], ledger, stock, business);
            var v := VisitLine(lines[i], p.ledger, stock, business);
            DeductLines(lines[..i + 1], ledger, stock, business) == PassResult(p.lines + v.lines, v.ledger, p.moves + v.moves)
  {
    assert lines[..i + 1][..i] == lines[..i];
  }

  /** The part of a sales invoice `updateInventoryOnSale` reads and writes. */
  datatype SaleState = SaleState(items: seq<Line>, restocks: seq<LedgerRow>, flags: SaleFlags)

  /** The pass runs only on an invoice not yet deducted whose status is COMPLETED or
      PARTIALLY_COMPLETED. */
  predicate PassRuns(f: SaleFlags) {
    !f.isDeducted && (f.status == Completed || f.status == PartiallyCompleted)
  }

  /** `updateInventoryOnSale`: the lines, ledger and flags it leaves. */
  function SalePass(s: SaleState, stock: map<StockKey, InventoryRow>, business: BusinessId): (r: SaleState)
    ensures !PassRuns(s.flags) ==> r == s
    ensures |r.items| == |s.items|
  {
    if !PassRuns(s.flags) then s
    else
      var p := DeductLines(s.items, s.restocks, stock, business);
      SaleState(p.lines, p.ledger, DeductionFlags(p.lines, s.flags))
  }

  /** The stock movements `updateInventoryOnSale` asks for. */
  function SaleMoves(s: SaleState, stock: map<StockKey, InventoryRow>, business: BusinessId): seq<StockMovement>
  {
    if !PassRuns(s.flags) then [] else DeductLines(s.items, s.restocks, stock, business).moves
  }

  /** Running the sale pass twice leaves the same invoice as running it once, and the second run
      asks for no stock movement. */
  lemma SalePassIdempotent(s: SaleState, stock: map<StockKey, InventoryRow>, business: BusinessId)
    requires DistinctIds(s.items)
    ensures SalePass(SalePass(s, stock, business), stock, business) == SalePass(s, stock, business)
    ensures SaleMoves(SalePass(s, stock, business), stock, business) == []
  {
    if PassRuns(s.flags) {
      var p := DeductLines(s.items, s.restocks, stock, business);
      SecondPassWritesNothing(s.items, s.restocks, stock, business);
      DeductionFlagsIdempotent(p.lines, s.flags);
    }
  }

  /** `updateInventoryOnSale`: the lines' ids, products and quantities never change, so the
      invoice keeps its keys and its unique products. */
  lemma SalePassKeepsKeys(s: SaleState, stock: map<StockKey, InventoryRow>, business: BusinessId)
    requires DistinctIds(s.items) && DistinctProducts(s.items)
    ensures var r := SalePass(s, stock, business);
            DistinctIds(r.items) && DistinctProducts(r.items) && Ids(r.items) == Ids(s.items)
  {
    var r := SalePass(s, stock, business);
    if PassRuns(s.flags) {
      assert forall i | 0 <= i < |s.items| :: SameExceptFlags(s.items[i], r.items[i]);
    }
  }

  /** The loop of `updateInventoryOnSale` over the invoice's lines, in invoice order: for each line
      whose product the business stocks and whose delta is positive, the stock movement is
      recorded, a ledger row logged and the line's flags recomputed. */
  method DeductInvoiceLines(invoice: SalesInvoice, stock: InventoryTable) returns (moves: seq<StockMovement>)
    modifies invoice`items, invoice`restocks
    ensures var p := DeductLines(old(invoice.items), old(invoice.restocks), stock.rows, invoice.business);
            invoice.items == p.lines && invoice.restocks == p.ledger && moves == p.moves
  {
    var business, rows := invoice.business, stock.rows;
    var items, ledger := invoice.items, invoice.restocks;
    ghost var lines, ledger0 := items, ledger;
    moves := [];
    var i := 0;
    assert lines[..0] == [] && items[..0] == [];
    while i < |items|
      invariant 0 <= i <= |lines| && |items| == |lines|
      invariant DeductLines(lines[..i], ledger0, rows, business) == PassResult(items[..i], ledger, moves)
      invariant items[i..] == lines[i..]
    {
      var line, ledger', move := VisitItem(items[i], ledger, rows, business);
      DeductLoopStep(lines, i, ledger0, rows, business, items, ledger, moves, line, ledger', move);
      items, ledger, moves := items[i := line], ledger', moves + move;
      i := i + 1;
    }
    assert lines[..i] == lines && items[..i] == items;
    invoice.items, invoice.restocks := items, ledger;
  }

  /** One turn of that loop: the line visited is replaced in place, and the pass over one more
      line is what the loop now holds. */
  lemma DeductLoopStep(lines: seq<Line>, i: nat, ledger0: seq<LedgerRow>, rows: map<StockKey, InventoryRow>,
                       business: BusinessId, items: seq<Line>, ledger: seq<LedgerRow>, moves: seq<StockMovement>,
                       line: Line, ledger': seq<LedgerRow>, move: seq<StockMovement>)
    requires i < |lines| && |items| == |lines| && items[i..] == lines[i..]
    requires DeductLines(lines[..i], ledger0, rows, business) == PassResult(items[..i], ledger, moves)
    requires VisitLine(items[i], ledger, rows, business) == PassResult([line], ledger', move)
    ensures DeductLines(lines[..i + 1], ledger0, rows, business) == PassResult(items[i := line][..i + 1], ledger', moves + move)
    ensures items[i := line][i + 1..] == lines[i + 1..]
  {
    DeductLinesStep(lines, i, ledger0, rows, business);
    assert items[i] == items[i..][0] == lines[i..][0] == lines[i];
    assert items[i := line][..i + 1] == items[..i] + [line];
    assert items[i := line][i + 1..] == items[i + 1..] == items[i..][1..];
  }

  /** The body of that loop for one line: the line's delta is computed only when the business
      stocks its product, and acted on only when it is positive. */
  method VisitItem(item: Line, ledger: seq<LedgerRow>, rows: map<StockKey, InventoryRow>, business: BusinessId)
    returns (line: Line, ledger': seq<LedgerRow>, move: seq<StockMovement>)
    ensures VisitLine(item, ledger, rows, business) == PassResult([line], ledger', move)
  {
    line, ledger', move := item, ledger, [];
    if StockKey(business, item.product) in rows {
      var delta := RestockDelta(item.id, item.quantity, ledger);
      if delta > 0 {
        move := [StockMovement(item.product, delta)];   // apply_restock_delta
        ledger' := LogRestockEvent(ledger, item.id, delta);
        line := item.WithRestockFlags();
      }
    }
  }

  /** `updateInventoryOnSale`: nothing at all happens to an invoice already deducted or not
      COMPLETED / PARTIALLY_COMPLETED; otherwise its lines are deducted and its own flags
      recomputed. */
  method UpdateInventoryOnSale(invoice: SalesInvoice, stock: InventoryTable) returns (moves: seq<StockMovement>)
    requires invoice.Valid()
    modifies invoice`items, invoice`restocks, invoice`isDeducted, invoice`isPartiallyDeducted, invoice`status
    ensures SaleState(invoice.items, invoice.restocks, invoice.Flags())
            == SalePass(SaleState(old(invoice.items), old(invoice.restocks), old(invoice.Flags())), stock.rows, invoice.business)
    ensures moves == SaleMoves(SaleState(old(invoice.items), old(invoice.restocks), old(invoice.Flags())), stock.rows, invoice.business)
    ensures invoice.Valid()
  {
    ghost var s := SaleState(invoice.items, invoice.restocks, invoice.Flags());
    SalePassKeepsKeys(s, stock.rows, invoice.business);
    if invoice.isDeducted || (invoice.status != Completed && invoice.status != PartiallyCompleted) {
      return [];
    }
    // `quantity_field` is chosen here in the source but never read.
    moves := DeductInvoiceLines(invoice, stock);
    ghost var done := DeductLines(s.items, s.restocks, stock.rows, invoice.business);
    assert SalePass(s, stock.rows, invoice.business) == SaleState(done.lines, done.ledger, DeductionFlags(done.lines, s.flags));
    invoice.UpdateDeductionFlags();
  }
}
