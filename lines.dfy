/** Invoice lines (`SalesInvoiceItem`, `PurchaseInvoiceItem`): one product entry of an invoice with
    its ordered and received quantities and its two fulfilment flags. */
module InvoiceLines {
  import opened Common

  /** One invoice line. Both kinds of line share this shape:
      - on a sales line `price` is `unit_price`, `fulfilled`/`partiallyFulfilled` are
        `is_deducted`/`is_partially_deducted`, and `discount` is the line's own discount;
      - on a purchase line `price` is `unit_cost`, the flags are `is_restocked`/`is_partially_restocked`,
        and `discount` is always `Unset` (purchase lines have no discount column). */
  datatype Line = Line(
    id: LineId,
    product: ProductId,
    quantity: int,
    price: real,
    discount: Charge,
    quantityReceived: int,
    fulfilled: bool,
    partiallyFulfilled: bool,
    trackCode: Option<string>,
    notes: Option<string>)
  {
    /** `update_restock_flags` (identical on both kinds of line): exactly one flag is set, the full
        one iff what was received covers what was ordered; no other field is written. */
    function WithRestockFlags(): (r: Line)
      ensures r.fulfilled != r.partiallyFulfilled
      ensures r.fulfilled <==> quantityReceived >= quantity
      ensures r.(fulfilled := fulfilled, partiallyFulfilled := partiallyFulfilled) == this
    {
      var full := quantityReceived >= quantity;
      this.(fulfilled := full, partiallyFulfilled := !full)
    }

    /** `PurchaseInvoiceItem.clean` and its check constraint: both flags set is rejected. */
    function Clean(): (o: Outcome)
      ensures o.Raise? <==> fulfilled && partiallyFulfilled
    {
      if fulfilled && partiallyFulfilled then Raise(CheckConstraintViolated) else Pass
    }
  }

  /** `b` is `a` with at most its two flags changed. */
  predicate SameExceptFlags(a: Line, b: Line) {
    b.(fulfilled := a.fulfilled, partiallyFulfilled := a.partiallyFulfilled) == a
  }

  /** A line as freshly created from a request: nothing received, neither flag set. */
  function NewLine(id: LineId, product: ProductId, quantity: int, price: real): (l: Line)
    ensures l.Clean() == Pass && l.quantityReceived == 0
  {
    Line(id, product, quantity, price, Unset, 0, false, false, None, None)
  }

  /** Line ids are primary keys. */
  predicate DistinctIds(lines: seq<Line>) {
    forall i, j | 0 <= i < j < |lines| :: lines[i].id != lines[j].id
  }

  /** The unique (invoice, product) constraint. */
  predicate DistinctProducts(lines: seq<Line>) {
    forall i, j | 0 <= i < j < |lines| :: lines[i].product != lines[j].product
  }

  /** The check constraint holds on every line, and no line carries a discount (the shape of a
      purchase invoice's lines). */
  predicate CleanLines(lines: seq<Line>) {
    forall i | 0 <= i < |lines| :: lines[i].Clean() == Pass && lines[i].discount == Unset
  }

  function Ids(lines: seq<Line>): (ids: set<LineId>)
    ensures forall i | 0 <= i < |lines| :: lines[i].id in ids
  {
    set i | 0 <= i < |lines| :: lines[i].id
  }

  function Products(lines: seq<Line>): (ps: set<ProductId>)
    ensures forall i | 0 <= i < |lines| :: lines[i].product in ps
  {
    set i | 0 <= i < |lines| :: lines[i].product
  }

  /** `{item.product_id: item for item in lines}`: the last line for product `p`, since later
      entries of the comprehension overwrite earlier ones. */
  function LineForProduct(lines: seq<Line>, p: ProductId): (r: Option<Line>)
    ensures r.Some? <==> p in Products(lines)
    ensures r.Some? ==> r.value.product == p && r.value in lines
  {
    if lines == [] then None
    else if lines[|lines| - 1].product == p then Some(lines[|lines| - 1])
    else
      var r := LineForProduct(lines[..|lines| - 1], p);
      assert forall i | 0 <= i < |lines| - 1 :: lines[..|lines| - 1][i] == lines[i];
      r
  }

  /** Under the unique (invoice, product) constraint the product map returns the line itself. */
  lemma {:induction false} LineForProductUnique(lines: seq<Line>, i: nat)
    requires DistinctProducts(lines) && i < |lines|
    ensures LineForProduct(lines, lines[i].product) == Some(lines[i])
  {
    if i < |lines| - 1 {
      var prefix := lines[..|lines| - 1];
      assert prefix[i] == lines[i];
      LineForProductUnique(prefix, i);
    }
  }

  /** The line with id `id`, if any. */
  function IndexOfId(lines: seq<Line>, id: LineId): (k: int)
    ensures -1 <= k < |lines|
    ensures k >= 0 ==> lines[k].id == id
    ensures k < 0 <==> id !in Ids(lines)
  {
    if lines == [] then -1
    else if lines[0].id == id then 0
    else
      var k := IndexOfId(lines[1..], id);
      assert forall i | 0 <= i < |lines| - 1 :: lines[1..][i] == lines[i + 1];
      if k < 0 then -1 else k + 1
  }

  /** The line for product `p`, if any (the lookup by product the item-create code evidently
      intends). */
  function IndexOfProduct(lines: seq<Line>, p: ProductId): (k: int)
    ensures -1 <= k < |lines|
    ensures k >= 0 ==> lines[k].product == p
    ensures k < 0 <==> p !in Products(lines)
  {
    if lines == [] then -1
    else if lines[0].product == p then 0
    else
      var k := IndexOfProduct(lines[1..], p);
      assert forall i | 0 <= i < |lines| - 1 :: lines[1..][i] == lines[i + 1];
      if k < 0 then -1 else k + 1
  }

  /** The restock flags never violate the purchase lines' check constraint. */
  lemma RestockFlagsPassClean(l: Line)
    ensures l.WithRestockFlags().Clean() == Pass
  {
  }
}
