/** The totals engine of `SalesInvoice.adjust_totals` and `PurchaseInvoice.adjust_totals`:
    subtotal, discount (invoice-level overriding line-level) and tax (percentage or flat amount). */
module Totals {
  import opened Common
  import opened InvoiceLines

  /** The two columns `adjust_totals` writes. */
  datatype Totals = Totals(subTotal: real, total: real)

  /** What one line adds to the subtotal: quantity × price. */
  function LineAmount(l: Line): real
  {
    (l.quantity as real) * l.price
  }

  /** Σ quantity × price over the lines, summed in line order. */
  function Subtotal(lines: seq<Line>): real
  {
    if lines == [] then 0.0
    else Subtotal(lines[..|lines| - 1]) + LineAmount(lines[|lines| - 1])
  }

  /** One more line adds its own amount to the subtotal. */
  lemma SubtotalAppend(lines: seq<Line>, l: Line)
    ensures Subtotal(lines + [l]) == Subtotal(lines) + LineAmount(l)
  {
    assert (lines + [l])[..|lines|] == lines;
  }

  /** Two line lists that agree on every quantity and price (they may differ in discounts, flags,
      ids ...). */
  ghost predicate SamePricing(a: seq<Line>, b: seq<Line>) {
    |a| == |b| && forall i | 0 <= i < |a| :: a[i].quantity == b[i].quantity && a[i].price == b[i].price
  }

  /** The subtotal reads nothing but quantities and prices. */
  lemma {:induction false} SubtotalOnlyPricing(a: seq<Line>, b: seq<Line>)
    requires SamePricing(a, b)
    ensures Subtotal(a) == Subtotal(b)
  {
    if a != [] {
      SubtotalOnlyPricing(a[..|a| - 1], b[..|b| - 1]);
    }
  }

  /** Lines whose quantities and prices are not negative give a subtotal that is not negative. */
  lemma {:induction false} SubtotalNonNegative(lines: seq<Line>)
    requires forall i | 0 <= i < |lines| :: lines[i].quantity >= 0 && lines[i].price >= 0.0
    ensures Subtotal(lines) >= 0.0
  {
    if lines != [] {
      SubtotalNonNegative(lines[..|lines| - 1]);
    }
  }

  /** `rate` per cent of `base` (the source writes it `rate/100 * base` and `base * (rate/100)`). */
  function PercentOf(rate: real, base: real): real
  {
    rate / 100.0 * base
  }

  /** An invoice-level discount or a tax applied to `base`: a percentage of it, or a flat amount;
      any other type raises "incorrect value". */
  function ChargeOn(c: Charge, base: real): (r: Result<real>)
    requires c.Given?
    ensures r.Fail? <==> c.kind == Unrecognized
    ensures c.kind == Percentage ==> r == Ok(PercentOf(c.value, base))
    ensures c.kind == Amount ==> r == Ok(c.value)
  {
    match c.kind
    case Percentage => Ok(PercentOf(c.value, base))
    case Amount => Ok(c.value)
    case Unrecognized => Fail(IncorrectValue)
  }

  /** The tax on an invoice: none when the column is empty. */
  function TaxOn(tax: Charge, subtotal: real): (r: Result<real>)
    ensures tax == Unset ==> r == Ok(0.0)
    ensures r.Fail? <==> tax.Given? && tax.kind == Unrecognized
  {
    if tax.Given? then ChargeOn(tax, subtotal) else Ok(0.0)
  }

  /** One line's own discount, as the line-discount branch is evidently meant to read: a percentage
      of the line's unit price (not multiplied by its quantity), or a flat amount. */
  function LineDiscount(l: Line): Result<real>
  {
    match l.discount
    case Unset => Ok(0.0)
    case Given(v, Percentage) => Ok(PercentOf(v, l.price))
    case Given(v, Amount) => Ok(v)
    case Given(_, Unrecognized) => Fail(IncorrectValue)
  }

  /** The line-discount branch as written at sales/models.py:190-197: the amount branch tests
      `item.tax`, an attribute sales lines do not have, so every non-percentage discount raises
      AttributeError. */
  function LineDiscountAsWritten(l: Line): Result<real>
  {
    match l.discount
    case Unset => Ok(0.0)
    case Given(v, Percentage) => Ok(PercentOf(v, l.price))
    case Given(_, _) => Fail(MissingAttribute)
  }

  /** Adds up a per-line discount over the lines in order; the first line that raises stops it. */
  function SumDiscounts(lines: seq<Line>, per: Line -> Result<real>): Result<real>
  {
    if lines == [] then Ok(0.0)
    else
      match SumDiscounts(lines[..|lines| - 1], per)
      case Fail(e) => Fail(e)
      case Ok(d) =>
        match per(lines[|lines| - 1])
        case Fail(e) => Fail(e)
        case Ok(x) => Ok(d + x)
  }

  /** Once a prefix of the lines raises, the whole sum raises the same error. */
  lemma {:induction false} SumDiscountsPrefixFails(lines: seq<Line>, per: Line -> Result<real>, i: nat)
    requires i <= |lines| && SumDiscounts(lines[..i], per).Fail?
    ensures SumDiscounts(lines, per) == SumDiscounts(lines[..i], per)
    decreases |lines| - i
  {
    if i < |lines| {
      var next := lines[..i + 1];
      assert next[..i] == lines[..i];
      SumDiscountsPrefixFails(lines, per, i + 1);
    } else {
      assert lines[..i] == lines;
    }
  }

  function LineDiscounts(lines: seq<Line>): Result<real>
  {
    SumDiscounts(lines, LineDiscount)
  }

  function LineDiscountsAsWritten(lines: seq<Line>): Result<real>
  {
    SumDiscounts(lines, LineDiscountAsWritten)
  }

  ghost predicate RecognisedDiscounts(lines: seq<Line>) {
    forall i | 0 <= i < |lines| :: lines[i].discount.Unset? || lines[i].discount.kind != Unrecognized
  }

  /** Line discounts of a known type never raise, and each line contributes its own discount. */
  lemma {:induction false} LineDiscountsNeverRaise(lines: seq<Line>)
    requires RecognisedDiscounts(lines)
    ensures LineDiscounts(lines).Ok?
    ensures lines != [] ==>
              (LineDiscounts(lines).value
               == LineDiscounts(lines[..|lines| - 1]).value + LineDiscount(lines[|lines| - 1]).value)
  {
    if lines != [] {
      LineDiscountsNeverRaise(lines[..|lines| - 1]);
    }
  }

  /** As written, one line with a flat-amount discount makes the whole discount raise
      AttributeError, whatever the other lines say. */
  lemma {:induction false} AmountLineDiscountRaisesAsWritten(lines: seq<Line>, k: nat)
    requires k < |lines| && lines[k].discount.Given? && lines[k].discount.kind == Amount
    ensures LineDiscountsAsWritten(lines).Fail?
    ensures LineDiscounts([lines[k]]) == Ok(lines[k].discount.value)
  {
    if k < |lines| - 1 {
      AmountLineDiscountRaisesAsWritten(lines[..|lines| - 1], k);
    }
    var l := [lines[k]];
    assert l[..0] == [];
    assert SumDiscounts(l[..0], LineDiscount) == Ok(0.0);
    assert LineDiscount(lines[k]) == Ok(lines[k].discount.value);
  }

  /** The line-level discount reads each line's price and discount, never its quantity. */
  lemma {:induction false} LineDiscountsIgnoreQuantity(a: seq<Line>, b: seq<Line>)
    requires |a| == |b|
    requires forall i | 0 <= i < |a| :: a[i].price == b[i].price && a[i].discount == b[i].discount
    ensures LineDiscountsAsWritten(a) == LineDiscountsAsWritten(b)
  {
    if a != [] {
      LineDiscountsIgnoreQuantity(a[..|a| - 1], b[..|b| - 1]);
    }
  }

  /** The discount of a sales invoice: an invoice-level discount overrides every line discount;
      the line discounts are those of the code as written. */
  function InvoiceDiscount(discount: Charge, lines: seq<Line>, subtotal: real): Result<real>
  {
    if discount.Given? then ChargeOn(discount, subtotal) else LineDiscountsAsWritten(lines)
  }

  /** `SalesInvoice.adjust_totals` for an invoice with lines: sub_total, and
      total = sub_total + tax − discount, or the error it raises. */
  function SalesTotals(lines: seq<Line>, discount: Charge, tax: Charge): Result<Totals>
  {
    var sub := Subtotal(lines);
    match InvoiceDiscount(discount, lines, sub)
    case Fail(e) => Fail(e)
    case Ok(d) =>
      match TaxOn(tax, sub)
      case Fail(e) => Fail(e)
      case Ok(t) => Ok(Totals(sub, sub + t - d))
  }

  /** With an invoice-level discount, the totals depend on the lines' quantities and prices only:
      line discounts are ignored. */
  lemma InvoiceDiscountOverridesLines(a: seq<Line>, b: seq<Line>, discount: Charge, tax: Charge)
    requires discount.Given? && SamePricing(a, b)
    ensures SalesTotals(a, discount, tax) == SalesTotals(b, discount, tax)
  {
    SubtotalOnlyPricing(a, b);
  }

  /** An unrecognised discount or tax type always raises. */
  lemma UnknownKindRaises(lines: seq<Line>, discount: Charge, tax: Charge)
    requires (discount.Given? && discount.kind == Unrecognized) || (tax.Given? && tax.kind == Unrecognized)
    ensures SalesTotals(lines, discount, tax).Fail?
    ensures PurchaseTotals(lines, tax).Fail? <==> tax.Given? && tax.kind == Unrecognized
  {
  }

  /** When nothing raises, total − sub_total is exactly tax − discount, and sub_total is the sum
      of quantity × price. */
  lemma SalesTotalsMeaning(lines: seq<Line>, discount: Charge, tax: Charge)
    requires SalesTotals(lines, discount, tax).Ok?
    ensures var t := SalesTotals(lines, discount, tax).value;
            t.subTotal == Subtotal(lines)
            && t.total - t.subTotal == TaxOn(tax, Subtotal(lines)).value - InvoiceDiscount(discount, lines, Subtotal(lines)).value
  {
  }

  /** With a flat invoice-level discount and no tax or a flat one, total − sub_total is the same
      for any lines at all: the quantities, prices and line discounts only move the subtotal. */
  lemma FlatChargesFixMargin(a: seq<Line>, b: seq<Line>, discount: Charge, tax: Charge)
    requires discount.Given? && discount.kind == Amount
    requires tax.Unset? || tax.kind == Amount
    ensures SalesTotals(a, discount, tax).Ok? && SalesTotals(b, discount, tax).Ok?
    ensures SalesTotals(a, discount, tax).value.total - SalesTotals(a, discount, tax).value.subTotal
            == SalesTotals(b, discount, tax).value.total - SalesTotals(b, discount, tax).value.subTotal
  {
  }

  /** A percentage line discount comes off each unit price once: doubling every quantity doubles
      the subtotal but leaves the line-level discount as it was. */
  lemma {:induction false} DoubledQuantitiesKeepLineDiscount(a: seq<Line>, b: seq<Line>)
    requires |a| == |b|
    requires forall i | 0 <= i < |a| :: b[i] == a[i].(quantity := 2 * a[i].quantity)
    ensures Subtotal(b) == 2.0 * Subtotal(a)
    ensures LineDiscountsAsWritten(b) == LineDiscountsAsWritten(a)
  {
    if a != [] {
      DoubledQuantitiesKeepLineDiscount(a[..|a| - 1], b[..|b| - 1]);
    }
    LineDiscountsIgnoreQuantity(a, b);
  }

  /** `PurchaseInvoice.adjust_totals`: no discount at all, and an invoice without lines still
      gets a subtotal of 0. */
  function PurchaseTotals(lines: seq<Line>, tax: Charge): (r: Result<Totals>)
    ensures r.Ok? <==> TaxOn(tax, Subtotal(lines)).Ok?
    ensures r.Ok? ==> r.value.subTotal == Subtotal(lines)
    ensures r.Ok? ==> r.value.total == r.value.subTotal + TaxOn(tax, Subtotal(lines)).value
    ensures lines == [] && r.Ok? ==> r.value.subTotal == 0.0
  {
    var sub := Subtotal(lines);
    match TaxOn(tax, sub)
    case Fail(e) => Fail(e)
    case Ok(t) => Ok(Totals(sub, sub + t))
  }
}
