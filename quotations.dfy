/** `PurchaseQuotationSupplier` (sales/models.py): the suppliers a purchase quotation was sent to,
    of which at most one is confirmed. */
module Quotations {

  datatype QuotationSupplier = QuotationSupplier(quotation: nat, supplier: nat, isConfirmed: bool)

  /** No quotation has two confirmed suppliers. */
  ghost predicate AtMostOneConfirmed(rows: map<nat, QuotationSupplier>) {
    forall a, b | a in rows && b in rows && rows[a].isConfirmed && rows[b].isConfirmed
                  && rows[a].quotation == rows[b].quotation :: a == b
  }

  /** The confirmed rows of `quotation`. */
  function ConfirmedOf(rows: map<nat, QuotationSupplier>, quotation: nat): set<nat>
  {
    set k | k in rows && rows[k].isConfirmed && rows[k].quotation == quotation
  }

  /** The table after `save` of row `pk`: a confirmed row first unconfirms every other row of its
      quotation; rows of other quotations and the suppliers of all rows are left as they were. */
  function SavedRows(rows: map<nat, QuotationSupplier>, pk: nat, row: QuotationSupplier): (r: map<nat, QuotationSupplier>)
    ensures r.Keys == rows.Keys + {pk} && r[pk] == row
    ensures forall k | k in rows && k != pk ::
              r[k].quotation == rows[k].quotation && r[k].supplier == rows[k].supplier
              && (r[k].isConfirmed ==> rows[k].isConfirmed)
    ensures forall k | k in rows && k != pk && rows[k].quotation != row.quotation :: r[k] == rows[k]
    ensures !row.isConfirmed ==> forall k | k in rows && k != pk :: r[k] == rows[k]
    ensures row.isConfirmed ==> ConfirmedOf(r, row.quotation) == {pk}
  {
    var cleared := map k | k in rows ::
      if row.isConfirmed && k != pk && rows[k].quotation == row.quotation then rows[k].(isConfirmed := false)
      else rows[k];
    cleared[pk := row]
  }

  /** Saving any row keeps at most one confirmed supplier per quotation. */
  lemma SavePreservesAtMostOneConfirmed(rows: map<nat, QuotationSupplier>, pk: nat, row: QuotationSupplier)
    requires AtMostOneConfirmed(rows)
    ensures AtMostOneConfirmed(SavedRows(rows, pk, row))
  {
    var r := SavedRows(rows, pk, row);
    forall a, b | a in r && b in r && r[a].isConfirmed && r[b].isConfirmed && r[a].quotation == r[b].quotation
      ensures a == b
    {
      if a == pk || b == pk {
        if row.isConfirmed {
          assert a in ConfirmedOf(r, row.quotation) && b in ConfirmedOf(r, row.quotation);
        } else {
          assert a == b;
        }
      } else {
        assert rows[a].isConfirmed && rows[b].isConfirmed;
      }
    }
  }

  class QuotationSupplierTable {
    var rows: map<nat, QuotationSupplier>

    ghost predicate Valid()
      reads this
    {
      AtMostOneConfirmed(rows)
    }

    constructor ()
      ensures rows == map[] && Valid()
    {
      rows := map[];
    }

    /** `PurchaseQuotationSupplier.save`: the bulk update of the other confirmed rows of the
        quotation, then the row itself. */
    method Save(pk: nat, row: QuotationSupplier)
      modifies this`rows
      ensures rows == SavedRows(old(rows), pk, row)
      ensures old(Valid()) ==> Valid()
    {
      if Valid() {
        SavePreservesAtMostOneConfirmed(rows, pk, row);
      }
      if row.isConfirmed {
        rows := map k | k in rows ::
          if k != pk && rows[k].quotation == row.quotation && rows[k].isConfirmed then rows[k].(isConfirmed := false)
          else rows[k];
      }
      rows := rows[pk := row];
    }
  }
}
