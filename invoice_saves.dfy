/** Saving an invoice together with its lines: `PurchaseInvoiceAndItemsCreateSerializer`,
    `PurchaseInvoiceAndItemsUpdateSerializer`, `SalesInvoiceAndItemsCreateSerializer` and
    `SalesInvoiceAndItemsUpdateSerializer`. Each `save` answers the invoice, or None once anything
    raised; `returned` below says which. */
module InvoiceSaves {
  import opened Common
  import opened Ledger
  import opened InvoiceLines
  import opened Totals
  import opened Inventory
  import opened PurchaseInvoices
  import opened SalesInvoices
  import opened SalesUtils
  import opened LineSync

  /** The line synchronisation as written, computed on values: where the line table and the ledger
      end up. The final delete re-runs the "lines of this invoice" query after the inserts. */
  method ComputeSync(lines: seq<Line>, restocks: seq<LedgerRow>, reqs: seq<LineRequest>, freshIds: seq<LineId>)
    returns (s: SyncState, ledger: seq<LedgerRow>)
    requires |freshIds| >= |reqs|
    ensures s == SyncLinesAsWritten(lines, reqs, freshIds)
    ensures ledger == Cascade(restocks, s.gone)
    ensures s.outcome.Raise? ==> ledger == restocks
  {
    var plan := PlanSync(lines, reqs);
    if plan.Fail? {
      s := SyncState(lines, {}, Raise(plan.error));
    } else {
      var p := plan.value;
      var created := CreatedLines(p.created, freshIds);
      if !DistinctProducts(lines + created) {
        s := SyncState(lines, {}, Raise(DuplicateProduct));
      } else if !DistinctProducts(p.lines + created) {
        s := SyncState(lines + created, {}, Raise(DuplicateProduct));
      } else {
        // `existing_items.exclude(id__in=updated_ids).delete()`, evaluated after the inserts
        var all := p.lines + created;
        s := SyncState(KeepIds(all, UpdatedSet(p)), Ids(lines + created) - UpdatedSet(p), Pass);
      }
    }
    ledger := Cascade(restocks, s.gone);
  }

  /** `PurchaseInvoiceAndItemsUpdateSerializer.save`: header, lines and delete in one transaction,
      so anything raised there leaves the invoice as it was; then `adjust_totals`, whose error
      makes the call answer None after the lines are committed. */
  method UpdatePurchaseInvoiceWithItems(invoice: PurchaseInvoice, status: PurchaseStatus, tax: Charge,
                                        reqs: seq<LineRequest>, freshIds: seq<LineId>)
    returns (returned: bool)
    requires invoice.Valid() && FreshIds(invoice.items, reqs, freshIds)
    modifies invoice`status, invoice`tax, invoice`items, invoice`restocks, invoice`subTotal, invoice`total
    ensures var s := SyncLinesAsWritten(old(invoice.items), reqs, freshIds);
            s.outcome.Raise? ==>
              !returned && invoice.status == old(invoice.status) && invoice.tax == old(invoice.tax)
              && invoice.items == old(invoice.items) && invoice.restocks == old(invoice.restocks)
              && invoice.subTotal == old(invoice.subTotal) && invoice.total == old(invoice.total)
    ensures var s := SyncLinesAsWritten(old(invoice.items), reqs, freshIds);
            s.outcome == Pass ==>
              invoice.status == status && invoice.tax == tax && invoice.items == s.lines
              && invoice.restocks == Cascade(old(invoice.restocks), s.gone)
              && match PurchaseTotals(s.lines, tax)
                 case Ok(t) => returned && invoice.subTotal == Some(t.subTotal) && invoice.total == Some(t.total)
                 case Fail(_) => !returned && invoice.subTotal == old(invoice.subTotal) && invoice.total == old(invoice.total)
    ensures invoice.Valid()
  {
    assert CleanLines(invoice.items);
    SyncAsWrittenKeepsKeys(invoice.items, reqs, freshIds);
    var s, ledger := ComputeSync(invoice.items, invoice.restocks, reqs, freshIds);
    if s.outcome.Raise? {
      return false;
    }
    invoice.status, invoice.tax := status, tax;
    invoice.items, invoice.restocks := s.lines, ledger;
    var outcome := invoice.AdjustTotals();
    returned := outcome == Pass;
  }

  /** `SalesInvoiceAndItemsUpdateSerializer.save`, which runs without a transaction: the header is
      saved first and stays saved; new lines already inserted stay when the updates are refused;
      then `adjust_totals` and, if it did not raise, the sale pass. */
  method UpdateSalesInvoiceWithItems(invoice: SalesInvoice, stock: InventoryTable, status: SalesStatus, tax: Charge,
                                     discount: Charge, reqs: seq<LineRequest>, freshIds: seq<LineId>)
    returns (returned: bool, moves: seq<StockMovement>)
    requires invoice.Valid() && FreshIds(invoice.items, reqs, freshIds)
    modifies invoice`status, invoice`tax, invoice`discount, invoice`items, invoice`restocks
    modifies invoice`subTotal, invoice`total, invoice`isDeducted, invoice`isPartiallyDeducted
    ensures invoice.tax == tax && invoice.discount == discount
    ensures var s := SyncLinesAsWritten(old(invoice.items), reqs, freshIds);
            s.outcome.Raise? ==>
              !returned && moves == [] && invoice.status == status
              && invoice.items == s.lines && invoice.restocks == old(invoice.restocks)
              && invoice.subTotal == old(invoice.subTotal) && invoice.total == old(invoice.total)
              && invoice.isDeducted == old(invoice.isDeducted) && invoice.isPartiallyDeducted == old(invoice.isPartiallyDeducted)
    ensures var s := SyncLinesAsWritten(old(invoice.items), reqs, freshIds);
            s.outcome == Pass && s.lines != [] && SalesTotals(s.lines, discount, tax).Fail? ==>
              !returned && moves == [] && invoice.status == status
              && invoice.items == s.lines && invoice.restocks == Cascade(old(invoice.restocks), s.gone)
              && invoice.subTotal == old(invoice.subTotal) && invoice.total == old(invoice.total)
              && invoice.isDeducted == old(invoice.isDeducted) && invoice.isPartiallyDeducted == old(invoice.isPartiallyDeducted)
    ensures var s := SyncLinesAsWritten(old(invoice.items), reqs, freshIds);
            var before := SaleState(s.lines, Cascade(old(invoice.restocks), s.gone),
                                    SaleFlags(old(invoice.isDeducted), old(invoice.isPartiallyDeducted), status));
            s.outcome == Pass && (s.lines == [] || SalesTotals(s.lines, discount, tax).Ok?) ==>
              returned
              && (s.lines == [] ==> invoice.subTotal == old(invoice.subTotal) && invoice.total == old(invoice.total))
              && (s.lines != [] ==> invoice.subTotal == Some(SalesTotals(s.lines, discount, tax).value.subTotal)
                                    && invoice.total == Some(SalesTotals(s.lines, discount, tax).value.total))
              && SaleState(invoice.items, invoice.restocks, invoice.Flags()) == SalePass(before, stock.rows, invoice.business)
              && moves == SaleMoves(before, stock.rows, invoice.business)
    ensures invoice.Valid()
  {
    invoice.status, invoice.tax, invoice.discount := status, tax, discount;
    SyncAsWrittenKeepsKeys(invoice.items, reqs, freshIds);
    var s, ledger := ComputeSync(invoice.items, invoice.restocks, reqs, freshIds);
    invoice.items, invoice.restocks := s.lines, ledger;
    if s.outcome.Raise? {
      return false, [];
    }
    returned, moves := FinishSalesUpdate(invoice, stock);
  }

  /** The tail of `SalesInvoiceAndItemsUpdateSerializer.save` once the lines are stored:
      `adjust_totals`, then the sale pass when it did not raise. */
  method FinishSalesUpdate(invoice: SalesInvoice, stock: InventoryTable) returns (returned: bool, moves: seq<StockMovement>)
    requires invoice.Valid()
    modifies invoice`items, invoice`restocks, invoice`subTotal, invoice`total
    modifies invoice`isDeducted, invoice`isPartiallyDeducted, invoice`status
    ensures var lines := old(invoice.items);
            lines != [] && SalesTotals(lines, invoice.discount, invoice.tax).Fail? ==>
              !returned && moves == [] && invoice.status == old(invoice.status)
              && invoice.items == lines && invoice.restocks == old(invoice.restocks)
              && invoice.subTotal == old(invoice.subTotal) && invoice.total == old(invoice.total)
              && invoice.isDeducted == old(invoice.isDeducted) && invoice.isPartiallyDeducted == old(invoice.isPartiallyDeducted)
    ensures var lines := old(invoice.items);
            var before := SaleState(lines, old(invoice.restocks), old(invoice.Flags()));
            lines == [] || SalesTotals(lines, invoice.discount, invoice.tax).Ok? ==>
              returned
              && (lines == [] ==> invoice.subTotal == old(invoice.subTotal) && invoice.total == old(invoice.total))
              && (lines != [] ==> invoice.subTotal == Some(SalesTotals(lines, invoice.discount, invoice.tax).value.subTotal)
                                  && invoice.total == Some(SalesTotals(lines, invoice.discount, invoice.tax).value.total))
              && SaleState(invoice.items, invoice.restocks, invoice.Flags()) == SalePass(before, stock.rows, invoice.business)
              && moves == SaleMoves(before, stock.rows, invoice.business)
    ensures invoice.Valid()
  {
    var outcome := invoice.AdjustTotals();
    if outcome.Raise? {
      return false, [];
    }
    moves := UpdateInventoryOnSale(invoice, stock);
    returned := true;
  }

  /** `PurchaseInvoiceAndItemsCreateSerializer.save`: the invoice and its lines are created in one
      transaction (the unique (invoice, product) constraint refuses a product twice, and then
      nothing is stored); then `adjust_totals`, whose error makes the call answer None although the
      invoice is stored. */
  method CreatePurchaseInvoiceWithItems(business: BusinessId, status: PurchaseStatus, tax: Charge,
                                        reqs: seq<LineRequest>, freshIds: seq<LineId>)
    returns (stored: PurchaseInvoice?, returned: bool)
    requires FreshIds([], reqs, freshIds)
    ensures var created := CreatedLines(reqs, freshIds);
            !DistinctProducts(created) ==> stored == null && !returned
    ensures var created := CreatedLines(reqs, freshIds);
            DistinctProducts(created) ==>
              stored != null && fresh(stored) && stored.Valid()
              && stored.business == business && stored.status == status && stored.tax == tax
              && stored.items == created && stored.restocks == []
              && !stored.isRestocked && !stored.isPartiallyRestocked
              && match PurchaseTotals(created, tax)
                 case Ok(t) => returned && stored.subTotal == Some(t.subTotal) && stored.total == Some(t.total)
                 case Fail(_) => !returned && stored.subTotal == None && stored.total == None
  {
    var created := CreatedLines(reqs, freshIds);
    if !DistinctProducts(created) {
      return null, false;
    }
    CreatedLinesValid(reqs, freshIds);
    stored := new PurchaseInvoice(business, status, tax);
    stored.items := created;
    var outcome := stored.AdjustTotals();
    returned := outcome == Pass;
  }

  /** `SalesInvoiceAndItemsCreateSerializer.save`: as for purchase invoices, then the sale pass on
      the new invoice when `adjust_totals` did not raise. */
  method CreateSalesInvoiceWithItems(stock: InventoryTable, business: BusinessId, status: SalesStatus, tax: Charge,
                                     discount: Charge, reqs: seq<LineRequest>, freshIds: seq<LineId>)
    returns (stored: SalesInvoice?, returned: bool, moves: seq<StockMovement>)
    requires FreshIds([], reqs, freshIds)
    ensures var created := CreatedLines(reqs, freshIds);
            !DistinctProducts(created) ==> stored == null && !returned && moves == []
    ensures var created := CreatedLines(reqs, freshIds);
            DistinctProducts(created) && created != [] && SalesTotals(created, discount, tax).Fail? ==>
              stored != null && fresh(stored) && !returned && moves == []
              && stored.items == created && stored.restocks == [] && stored.subTotal == None && stored.total == None
              && stored.Flags() == SaleFlags(false, false, status)
    ensures var created := CreatedLines(reqs, freshIds);
            var before := SaleState(created, [], SaleFlags(false, false, status));
            DistinctProducts(created) && (created == [] || SalesTotals(created, discount, tax).Ok?) ==>
              stored != null && fresh(stored) && returned && stored.Valid()
              && stored.business == business && stored.tax == tax && stored.discount == discount
              && (created == [] ==> stored.subTotal == None && stored.total == None)
              && (created != [] ==> stored.subTotal == Some(SalesTotals(created, discount, tax).value.subTotal)
                                    && stored.total == Some(SalesTotals(created, discount, tax).value.total))
              && SaleState(stored.items, stored.restocks, stored.Flags()) == SalePass(before, stock.rows, business)
              && moves == SaleMoves(before, stock.rows, business)
  {
    var created := CreatedLines(reqs, freshIds);
    if !DistinctProducts(created) {
      return null, false, [];
    }
    CreatedLinesValid(reqs, freshIds);
    stored := new SalesInvoice(business, status, tax, discount);
    stored.items := created;
    var outcome := stored.AdjustTotals();
    if outcome.Raise? {
      return stored, false, [];
    }
    moves := UpdateInventoryOnSale(stored, stock);
    returned := true;
  }

  /** Lines created from a request list with distinct database ids have distinct ids, pass the
      check constraint and carry no discount. */
  lemma CreatedLinesValid(reqs: seq<LineRequest>, freshIds: seq<LineId>)
    requires FreshIds([], reqs, freshIds)
    ensures DistinctIds(CreatedLines(reqs, freshIds)) && CleanLines(CreatedLines(reqs, freshIds))
  {
  }
}
