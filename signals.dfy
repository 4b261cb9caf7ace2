/** The post-save signal on sales lines (sales/signals.py): a newly created line adds its amount
    to its invoice's running totals. */
module Signals {
  import opened Common
  import opened InvoiceLines
  import opened Totals
  import opened SalesInvoices

  /** `update_totals_for_new_si_item`: acts only when the line was just created; `+=` on a NULL
      `sub_total` or `total` raises TypeError before anything is saved. */
  method UpdateTotalsForNewItem(invoice: SalesInvoice, item: Line, created: bool) returns (outcome: Outcome)
    modifies invoice`subTotal, invoice`total
    ensures !created || old(invoice.subTotal).None? || old(invoice.total).None? ==>
              invoice.subTotal == old(invoice.subTotal) && invoice.total == old(invoice.total)
    ensures outcome.Raise? <==> created && (old(invoice.subTotal).None? || old(invoice.total).None?)
    ensures outcome.Raise? ==> outcome.error == NullArithmetic
    ensures created && outcome == Pass ==>
              invoice.subTotal == Some(old(invoice.subTotal).value + LineAmount(item))
              && invoice.total == Some(old(invoice.total).value + LineAmount(item))
              && invoice.total.value - invoice.subTotal.value == old(invoice.total).value - old(invoice.subTotal).value
  {
    if !created {
      return Pass;
    }
    if invoice.subTotal.None? || invoice.total.None? {
      return Raise(NullArithmetic);
    }
    var amount := LineAmount(item);
    invoice.subTotal := Some(invoice.subTotal.value + amount);
    invoice.total := Some(invoice.total.value + amount);
    outcome := Pass;
  }
}
