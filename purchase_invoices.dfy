/** `PurchaseInvoice` (sales/models.py): its restock flags and its totals. */
module PurchaseInvoices {
  import opened Common
  import opened Ledger
  import opened InvoiceLines
  import opened Totals

  datatype PurchaseStatus = Draft | Received | PartiallyReceived | Cancelled | Overdue

  /** The three columns the restock state machine writes. */
  datatype PurchaseFlags = PurchaseFlags(isRestocked: bool, isPartiallyRestocked: bool, status: PurchaseStatus)

  ghost predicate AllRestocked(lines: seq<Line>) {
    forall i | 0 <= i < |lines| :: lines[i].fulfilled
  }

  ghost predicate AnyPartial(lines: seq<Line>) {
    exists i | 0 <= i < |lines| :: lines[i].partiallyFulfilled
  }

  /** What `update_restock_flags` leaves in the invoice's flags: nothing changes for no lines; a
      partially restocked line sets the partial flag; if every line is restocked the invoice becomes
      restocked, not partial, RECEIVED. `is_restocked` is never cleared. */
  function RestockFlags(lines: seq<Line>, f: PurchaseFlags): (r: PurchaseFlags)
    ensures lines == [] ==> r == f
    ensures lines != [] && AllRestocked(lines) ==> r == PurchaseFlags(true, false, Received)
    ensures lines != [] && !AllRestocked(lines) ==>
              r == f.(isPartiallyRestocked := f.isPartiallyRestocked || AnyPartial(lines))
  {
    if lines == [] then f
    else if forall i | 0 <= i < |lines| :: lines[i].fulfilled then PurchaseFlags(true, false, Received)
    else f.(isPartiallyRestocked := f.isPartiallyRestocked || exists i | 0 <= i < |lines| :: lines[i].partiallyFulfilled)
  }

  /** What `is_fulfilled` leaves in the invoice's flags: RECEIVED when every line is restocked
      (vacuously so for no lines), otherwise not restocked and partial with the status kept. */
  function FulfilledFlags(lines: seq<Line>, f: PurchaseFlags): (r: PurchaseFlags)
    ensures r.isRestocked != r.isPartiallyRestocked
    ensures r.isRestocked <==> AllRestocked(lines)
    ensures r.status == if AllRestocked(lines) then Received else f.status
  {
    if forall i | 0 <= i < |lines| :: lines[i].fulfilled then PurchaseFlags(true, false, Received)
    else PurchaseFlags(false, true, f.status)
  }

  /** A restocked invoice whose line later turns partial ends up with both flags set:
      `update_restock_flags` sets the partial flag but never clears `is_restocked`. */
  lemma StaleRestockedFlag(l: Line)
    requires l.partiallyFulfilled && !l.fulfilled
    ensures var r := RestockFlags([l], PurchaseFlags(true, false, Received));
            r.isRestocked && r.isPartiallyRestocked && r.status == Received
  {
    var lines := [l];
    assert !lines[0].fulfilled && lines[0].partiallyFulfilled;
  }

  /** For an invoice not yet marked restocked whose lines each carry exactly one flag, the two flag
      methods agree. They differ on an invoice without lines, which `is_fulfilled` marks RECEIVED and
      `update_restock_flags` leaves alone. */
  lemma RestockFlagsAgreeWithFulfilled(lines: seq<Line>, f: PurchaseFlags)
    requires !f.isRestocked
    requires forall i | 0 <= i < |lines| :: lines[i].fulfilled != lines[i].partiallyFulfilled
    ensures lines != [] ==> RestockFlags(lines, f) == FulfilledFlags(lines, f)
    ensures FulfilledFlags([], f) == PurchaseFlags(true, false, Received) && RestockFlags([], f) == f
  {
    if lines != [] && !AllRestocked(lines) {
      var i :| 0 <= i < |lines| && !lines[i].fulfilled;
      assert lines[i].partiallyFulfilled;
    }
  }

  class PurchaseInvoice {
    var business: BusinessId
    var status: PurchaseStatus
    var tax: Charge
    var subTotal: Option<real>
    var total: Option<real>
    var isRestocked: bool
    var isPartiallyRestocked: bool
    var items: seq<Line>           // `invoice_items`
    var restocks: seq<LedgerRow>   // `restocks`: the restock ledger of this invoice

    /** Primary keys, the unique (purchase_invoice, product) constraint and the check constraint
        on the restock flags of the line table; purchase lines carry no discount. */
    ghost predicate Valid()
      reads this
    {
      DistinctIds(items) && DistinctProducts(items) && CleanLines(items)
    }

    function Flags(): PurchaseFlags
      reads this
    {
      PurchaseFlags(isRestocked, isPartiallyRestocked, status)
    }

    constructor (business: BusinessId, status: PurchaseStatus, tax: Charge)
      ensures this.business == business && this.status == status && this.tax == tax
      ensures subTotal == None && total == None && !isRestocked && !isPartiallyRestocked
      ensures items == [] && restocks == [] && Valid()
    {
      this.business := business;
      this.status := status;
      this.tax := tax;
      subTotal, total := None, None;
      isRestocked, isPartiallyRestocked := false, false;
      items, restocks := [], [];
    }

    /** `adjust_totals`: sub_total = Σ quantity × unit_cost (0 for no lines) and
        total = sub_total + tax; on an unknown tax type it raises and writes nothing. */
    method AdjustTotals() returns (outcome: Outcome)
      modifies this`subTotal, this`total
      ensures match PurchaseTotals(items, tax)
              case Ok(t) => outcome == Pass && subTotal == Some(t.subTotal) && total == Some(t.total)
              case Fail(e) => outcome == Raise(e) && subTotal == old(subTotal) && total == old(total)
    {
      var sub := 0.0;
      var i := 0;
      while i < |items|
        invariant 0 <= i <= |items|
        invariant sub == Subtotal(items[..i])
      {
        assert items[..i + 1][..i] == items[..i];
        sub := sub + LineAmount(items[i]);
        i := i + 1;
      }
      assert items[..|items|] == items;

      var t := 0.0;
      if tax.Given? {
        match tax.kind {
          case Percentage => t := PercentOf(tax.value, sub);
          case Amount => t := t + tax.value;
          case Unrecognized => return Raise(IncorrectValue);
        }
      }
      assert TaxOn(tax, sub) == Ok(t);
      subTotal := Some(sub);
      total := Some(sub + t);
      outcome := Pass;
    }

    /** `is_fulfilled`: stops at the first line that is not restocked. */
    method IsFulfilled()
      modifies this`isRestocked, this`isPartiallyRestocked, this`status
      ensures Flags() == FulfilledFlags(items, old(Flags()))
    {
      var i := 0;
      while i < |items|
        invariant 0 <= i <= |items|
        invariant forall k | 0 <= k < i :: items[k].fulfilled
        invariant Flags() == old(Flags())
      {
        if !items[i].fulfilled {
          isRestocked := false;
          isPartiallyRestocked := true;
          return;
        }
        i := i + 1;
      }
      isRestocked := true;
      isPartiallyRestocked := false;
      status := Received;
    }

    /** `update_restock_flags`: counts the restocked lines, raising the partial flag on the way. */
    method UpdateRestockFlags()
      modifies this`isRestocked, this`isPartiallyRestocked, this`status
      ensures Flags() == RestockFlags(items, old(Flags()))
    {
      if |items| == 0 {
        return;
      }
      var restocked := 0;
      var i := 0;
      while i < |items|
        invariant 0 <= i <= |items|
        invariant restocked <= i && (restocked == i <==> forall k | 0 <= k < i :: items[k].fulfilled)
        invariant isRestocked == old(isRestocked) && status == old(status)
        invariant isPartiallyRestocked == (old(isPartiallyRestocked) || exists k | 0 <= k < i :: items[k].partiallyFulfilled)
      {
        if items[i].partiallyFulfilled {
          isPartiallyRestocked := true;
        }
        if items[i].fulfilled {
          restocked := restocked + 1;
        }
        i := i + 1;
      }
      if restocked == |items| {
        isPartiallyRestocked := false;
        isRestocked := true;
        status := Received;
      }
    }
  }
}
