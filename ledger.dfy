/** The restock/deduction ledger (`PurchaseInvoiceItemRestock`, `SalesInvoiceItemDeduction`): an
    append-only list of quantities applied against invoice lines, and the delta computed from it. */
module Ledger {
  import opened Common

  /** One ledger row: `quantity` units applied against the invoice line `line`
      (`quantity` is a PositiveIntegerField). */
  datatype LedgerRow = LedgerRow(line: LineId, quantity: nat)

  /** The sum of the quantities recorded for `line`; 0 when it has no rows. */
  function LedgerSum(rows: seq<LedgerRow>, line: LineId): (sum: int)
    ensures sum >= 0
  {
    if rows == [] then 0
    else (if rows[0].line == line then rows[0].quantity else 0) + LedgerSum(rows[1..], line)
  }

  lemma {:induction false} LedgerSumAppend(rows: seq<LedgerRow>, extra: seq<LedgerRow>, line: LineId)
    ensures LedgerSum(rows + extra, line) == LedgerSum(rows, line) + LedgerSum(extra, line)
  {
    if rows != [] {
      assert (rows + extra)[1..] == rows[1..] + extra;
      LedgerSumAppend(rows[1..], extra, line);
    } else {
      assert rows + extra == extra;
    }
  }

  /** Appending one row adds its quantity to its own line and nothing to the others. */
  lemma LedgerSumAppendRow(rows: seq<LedgerRow>, row: LedgerRow)
    ensures forall line :: LedgerSum(rows + [row], line)
                           == LedgerSum(rows, line) + (if row.line == line then row.quantity else 0)
  {
    forall line
      ensures LedgerSum(rows + [row], line) == LedgerSum(rows, line) + (if row.line == line then row.quantity else 0)
    {
      LedgerSumAppend(rows, [row], line);
      assert [row][1..] == [];
    }
  }

  /** Rows recorded for other lines do not count towards `line`. */
  lemma {:induction false} LedgerSumNoRows(rows: seq<LedgerRow>, line: LineId)
    ensures (forall k | 0 <= k < |rows| :: rows[k].line != line) ==> LedgerSum(rows, line) == 0
  {
    if rows != [] {
      LedgerSumNoRows(rows[1..], line);
    }
  }

  /** `compute_restock_delta` (identical on sales and purchase lines): the ordered `quantity`
      minus what the ledger already holds for the line. */
  function RestockDelta(line: LineId, quantity: int, rows: seq<LedgerRow>): (delta: int)
    ensures delta <= quantity
    ensures (forall k | 0 <= k < |rows| :: rows[k].line != line) ==> delta == quantity
  {
    LedgerSumNoRows(rows, line);
    quantity - LedgerSum(rows, line)
  }

  /** Recording the delta as one more ledger row closes it: the delta computed next is 0, so a
      repeated pass writes nothing. */
  lemma DeltaClosedByLogging(line: LineId, quantity: int, rows: seq<LedgerRow>)
    requires RestockDelta(line, quantity, rows) > 0
    ensures RestockDelta(line, quantity, rows + [LedgerRow(line, RestockDelta(line, quantity, rows) as nat)]) == 0
  {
    var d := RestockDelta(line, quantity, rows);
    LedgerSumAppend(rows, [LedgerRow(line, d as nat)], line);
    assert LedgerSum([LedgerRow(line, d as nat)], line) == d;
  }

  /** The rows that survive deleting the lines `gone`: the ledger's foreign key to the line is
      ON DELETE CASCADE, so exactly their rows go, and the survivors keep their order. */
  function Cascade(rows: seq<LedgerRow>, gone: set<LineId>): (r: seq<LedgerRow>)
    ensures |r| <= |rows|
    ensures forall k | 0 <= k < |r| :: r[k].line !in gone
    ensures forall line | line !in gone :: LedgerSum(r, line) == LedgerSum(rows, line)
    ensures (forall k | 0 <= k < |rows| :: rows[k].line !in gone) ==> r == rows
  {
    if rows == [] then []
    else
      var tail := Cascade(rows[1..], gone);
      if rows[0].line in gone then tail else [rows[0]] + tail
  }
}
