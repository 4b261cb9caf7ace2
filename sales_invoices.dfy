/** `SalesInvoice` (sales/models.py): its deduction flags and its totals. */
module SalesInvoices {
  import opened Common
  import opened Ledger
  import opened InvoiceLines
  import opened Totals

  datatype SalesStatus = Draft | Sent | Overdue | Cancelled | Completed | PartiallyCompleted

  /** The three columns the deduction state machine writes. */
  datatype SaleFlags = SaleFlags(isDeducted: bool, isPartiallyDeducted: bool, status: SalesStatus)

  /** What `update_deduction_flags` leaves in the invoice's flags:
      - any partially deducted line forces partial, not deducted, status PARTIALLY_COMPLETED;
      - otherwise, when every line is deducted (vacuously so for no lines): deducted, not partial,
        status COMPLETED;
      - otherwise the flags and status are left as they were. */
  function DeductionFlags(lines: seq<Line>, f: SaleFlags): SaleFlags
  {
    if exists i | 0 <= i < |lines| :: lines[i].partiallyFulfilled then SaleFlags(false, true, PartiallyCompleted)
    else if forall i | 0 <= i < |lines| :: lines[i].fulfilled then SaleFlags(true, false, Completed)
    else f
  }

  /** Recomputing the flags from unchanged lines changes nothing. */
  lemma DeductionFlagsIdempotent(lines: seq<Line>, f: SaleFlags)
    ensures DeductionFlags(lines, DeductionFlags(lines, f)) == DeductionFlags(lines, f)
  {
  }

  /** Once the line flags are each exactly one of full/partial, the invoice state follows the lines:
      COMPLETED iff every line is deducted, PARTIALLY_COMPLETED iff some line is not. */
  lemma DeductionFlagsFollowLines(lines: seq<Line>, f: SaleFlags)
    requires lines != []
    requires forall i | 0 <= i < |lines| :: lines[i].fulfilled != lines[i].partiallyFulfilled
    ensures var r := DeductionFlags(lines, f);
            (r.status == Completed <==> forall i | 0 <= i < |lines| :: lines[i].fulfilled)
            && (r.status == PartiallyCompleted <==> exists i | 0 <= i < |lines| :: !lines[i].fulfilled)
            && r.isDeducted != r.isPartiallyDeducted
  {
    if forall i | 0 <= i < |lines| :: lines[i].fulfilled {
    } else {
      var i :| 0 <= i < |lines| && !lines[i].fulfilled;
      assert lines[i].partiallyFulfilled;
    }
  }

  class SalesInvoice {
    var business: BusinessId
    var status: SalesStatus
    var tax: Charge
    var discount: Charge
    var subTotal: Option<real>     // NULL until first computed
    var total: Option<real>
    var isDeducted: bool
    var isPartiallyDeducted: bool
    var items: seq<Line>           // `invoice_items`
    var restocks: seq<LedgerRow>   // `restocks`: the deduction ledger of this invoice

    /** Primary keys and the unique (sales_invoice, product) constraint of the line table. */
    ghost predicate Valid()
      reads this
    {
      DistinctIds(items) && DistinctProducts(items)
    }

    function Flags(): SaleFlags
      reads this
    {
      SaleFlags(isDeducted, isPartiallyDeducted, status)
    }

    /** A freshly created invoice: no lines, no ledger, NULL totals, neither flag. */
    constructor (business: BusinessId, status: SalesStatus, tax: Charge, discount: Charge)
      ensures this.business == business && this.status == status && this.tax == tax && this.discount == discount
      ensures subTotal == None && total == None && !isDeducted && !isPartiallyDeducted
      ensures items == [] && restocks == [] && Valid()
    {
      this.business := business;
      this.status := status;
      this.tax := tax;
      this.discount := discount;
      subTotal, total := None, None;
      isDeducted, isPartiallyDeducted := false, false;
      items, restocks := [], [];
    }

    /** `update_deduction_flags`: scans the lines, stopping at the first partially deducted one. */
    method UpdateDeductionFlags()
      modifies this`isDeducted, this`isPartiallyDeducted, this`status
      ensures Flags() == DeductionFlags(items, old(Flags()))
    {
      var deducted := 0;
      var i := 0;
      while i < |items|
        invariant 0 <= i <= |items|
        invariant forall k | 0 <= k < i :: !items[k].partiallyFulfilled
        invariant deducted <= i && (deducted == i <==> forall k | 0 <= k < i :: items[k].fulfilled)
        invariant Flags() == old(Flags())
      {
        if items[i].partiallyFulfilled {
          isPartiallyDeducted := true;
          isDeducted := false;
          status := PartiallyCompleted;
          return;
        }
        if items[i].fulfilled {
          deducted := deducted + 1;
        }
        i := i + 1;
      }
      if deducted == |items| {
        isPartiallyDeducted := false;
        isDeducted := true;
        status := Completed;
      }
    }

    /** `adjust_totals`: nothing at all happens for an invoice without lines; otherwise sub_total and
        total are recomputed and written, or the call raises and writes nothing. */
    method AdjustTotals() returns (outcome: Outcome)
      modifies this`subTotal, this`total
      ensures items == [] ==> outcome == Pass && subTotal == old(subTotal) && total == old(total)
      ensures items != [] ==>
                match SalesTotals(items, discount, tax)
                case Ok(t) => outcome == Pass && subTotal == Some(t.subTotal) && total == Some(t.total)
                case Fail(e) => outcome == Raise(e) && subTotal == old(subTotal) && total == old(total)
    {
      if items == [] {
        return Pass;
      }
      var sub := 0.0;
      var i := 0;
      while i < |items|
        invariant 0 <= i <= |items|
        invariant sub == Subtotal(items[..i])
      {
        assert items[..i + 1][..i] == items[..i];
        sub := sub + LineAmount(items[i]);
        i := i + 1;
      }
      assert items[..|items|] == items;

      // the discount on the order
      var disc := 0.0;
      if discount.Given? {
        match discount.kind {
          case Percentage => disc := disc + PercentOf(discount.value, sub);
          case Amount => disc := disc + discount.value;
          case Unrecognized => return Raise(IncorrectValue);
        }
      } else {
        i := 0;
        while i < |items|
          invariant 0 <= i <= |items|
          invariant LineDiscountsAsWritten(items[..i]) == Ok(disc)
        {
          var l := items[i];
          assert items[..i + 1][..i] == items[..i];
          var x := 0.0;
          if l.discount.Given? {
            if l.discount.kind == Percentage {
              x := PercentOf(l.discount.value, l.price);
            } else {
              // the next test reads `item.tax`, which a sales line does not have
              SumDiscountsPrefixFails(items, LineDiscountAsWritten, i + 1);
              return Raise(MissingAttribute);
            }
          }
          assert LineDiscountAsWritten(l) == Ok(x);
          disc := disc + x;
          i := i + 1;
        }
        assert items[..|items|] == items;
      }

      // the tax on the invoice
      var t := 0.0;
      if tax.Given? {
        match tax.kind {
          case Percentage => t := PercentOf(tax.value, sub);
          case Amount => t := t + tax.value;
          case Unrecognized => return Raise(IncorrectValue);
        }
      }
      assert InvoiceDiscount(discount, items, sub) == Ok(disc);
      assert TaxOn(tax, sub) == Ok(t);
      subTotal := Some(sub);
      total := Some(sub + t - disc);
      outcome := Pass;
    }
  }
}
