/** `PurchaseInvoiceItemCreateSerializer`: adding one line to a purchase invoice. The request is
    validated, then the invoice's line is looked up and either topped up or created. */
module ItemCreate {
  import opened Common
  import opened InvoiceLines
  import opened PurchaseInvoices
  import opened SalesUtils

  /** The validated body of the request: product, quantity, unit cost, quantity received, track
      code and notes. */
  datatype ItemRequest = ItemRequest(product: ProductId, quantity: int, price: real, quantityReceived: int,
                                     trackCode: Option<string>, notes: Option<string>)

  /** The line created from the request: no discount, neither restock flag. */
  function CreatedItem(req: ItemRequest, id: LineId): Line
  {
    Line(id, req.product, req.quantity, req.price, Unset, req.quantityReceived, false, false, req.trackCode, req.notes)
  }

  /** An existing line topped up from the request: the quantities are added, the unit cost is
      replaced. */
  function MergedItem(l: Line, req: ItemRequest): Line
  {
    l.(quantity := l.quantity + req.quantity, price := req.price, quantityReceived := l.quantityReceived + req.quantityReceived)
  }

  /** `validate` then `create` as written: the lookup filters on the invoice and the business only,
      so it finds every line of the invoice. With no line the item is created; with one line that
      line is topped up, whatever its product; with two or more the lookup raises. */
  function AddItemAsWritten(lines: seq<Line>, status: PurchaseStatus, req: ItemRequest, freshId: LineId)
    : (r: Result<seq<Line>>)
    ensures r.Fail? <==> req.quantityReceived > req.quantity || status == Received || |lines| >= 2
    ensures r.Ok? ==> |r.value| == 1
  {
    match CheckPurchaseInvoiceItemFields(req.quantityReceived, req.quantity, Some(status))
    case Raise(e) => Fail(e)
    case Pass =>
      if |lines| == 0 then Ok([CreatedItem(req, freshId)])
      else if |lines| == 1 then Ok([MergedItem(lines[0], req)])
      else Fail(MultipleObjectsReturned)
  }

  /** `validate` then `create` with the lookup the code evidently intends, by invoice and product:
      the line of that product is topped up, or a new line is created. This is the corrected half
      of the lookup finding; `CreatePurchaseItem` runs the code as written. */
  function AddItem(lines: seq<Line>, status: PurchaseStatus, req: ItemRequest, freshId: LineId): (r: Result<seq<Line>>)
    ensures r.Fail? <==> req.quantityReceived > req.quantity || status == Received
    ensures r.Fail? ==> r == Fail(if req.quantityReceived > req.quantity then QuantityReceivedTooHigh else InvoiceAlreadyReceived)
  {
    match CheckPurchaseInvoiceItemFields(req.quantityReceived, req.quantity, Some(status))
    case Raise(e) => Fail(e)
    case Pass =>
      var k := IndexOfProduct(lines, req.product);
      if k < 0 then Ok(lines + [CreatedItem(req, freshId)])
      else Ok(lines[k := MergedItem(lines[k], req)])
  }

  /** A line with a new id and a new product appended to the invoice keeps its keys. */
  lemma AppendKeepsKeys(lines: seq<Line>, x: Line)
    requires DistinctIds(lines) && DistinctProducts(lines)
    requires x.id !in Ids(lines) && x.product !in Products(lines)
    ensures DistinctIds(lines + [x]) && DistinctProducts(lines + [x])
  {
    var r := lines + [x];
    forall i, j | 0 <= i < j < |r|
      ensures r[i].id != r[j].id && r[i].product != r[j].product
    {
      assert r[i] == lines[i];
      if j < |lines| {
        assert r[j] == lines[j];
      } else {
        assert lines[i].id in Ids(lines) && lines[i].product in Products(lines);
      }
    }
  }

  /** Appending a line adds its product to the invoice's products. */
  lemma AppendProducts(lines: seq<Line>, x: Line)
    ensures Products(lines + [x]) == Products(lines) + {x.product}
  {
    var r := lines + [x];
    forall p | p in Products(r)
      ensures p in Products(lines) + {x.product}
    {
      var i :| 0 <= i < |r| && r[i].product == p;
      if i < |lines| {
        assert r[i] == lines[i];
      }
    }
    forall p | p in Products(lines)
      ensures p in Products(r)
    {
      var i :| 0 <= i < |lines| && lines[i].product == p;
      assert r[i] == lines[i];
    }
    assert r[|lines|] == x;
  }

  /** A line rewritten in place under the same id and product keeps the invoice's keys. */
  lemma ReplaceKeepsKeys(lines: seq<Line>, k: nat, x: Line)
    requires k < |lines| && x.id == lines[k].id && x.product == lines[k].product
    requires DistinctIds(lines) && DistinctProducts(lines)
    ensures DistinctIds(lines[k := x]) && DistinctProducts(lines[k := x])
  {
    assert forall i | 0 <= i < |lines| :: lines[k := x][i].product == lines[i].product && lines[k := x][i].id == lines[i].id;
  }

  /** A line rewritten in place under the same product leaves the invoice's products as they were. */
  lemma ReplaceProducts(lines: seq<Line>, k: nat, x: Line)
    requires k < |lines| && x.product == lines[k].product
    ensures Products(lines[k := x]) == Products(lines)
  {
    var r := lines[k := x];
    assert forall i | 0 <= i < |lines| :: r[i].product == lines[i].product;
    forall p | p in Products(r)
      ensures p in Products(lines)
    {
      var i :| 0 <= i < |r| && r[i].product == p;
    }
    forall p | p in Products(lines)
      ensures p in Products(r)
    {
      var i :| 0 <= i < |lines| && lines[i].product == p;
    }
  }

  /** With the intended lookup, an accepted request adds its product to the invoice's products and
      keeps the invoice's keys and its check constraint, when the new id is fresh. */
  lemma AddItemKeepsKeys(lines: seq<Line>, status: PurchaseStatus, req: ItemRequest, freshId: LineId)
    requires DistinctIds(lines) && DistinctProducts(lines) && freshId !in Ids(lines) && CleanLines(lines)
    requires AddItem(lines, status, req, freshId).Ok?
    ensures DistinctIds(AddItem(lines, status, req, freshId).value)
    ensures DistinctProducts(AddItem(lines, status, req, freshId).value)
    ensures CleanLines(AddItem(lines, status, req, freshId).value)
    ensures Products(AddItem(lines, status, req, freshId).value) == Products(lines) + {req.product}
  {
    var k := IndexOfProduct(lines, req.product);
    assert CheckPurchaseInvoiceItemFields(req.quantityReceived, req.quantity, Some(status)) == Pass;
    if k < 0 {
      assert AddItem(lines, status, req, freshId) == Ok(lines + [CreatedItem(req, freshId)]);
      CreatedItemKeepsKeys(lines, req, freshId);
    } else {
      assert AddItem(lines, status, req, freshId) == Ok(lines[k := MergedItem(lines[k], req)]);
      MergedItemKeepsKeys(lines, k, req);
    }
  }

  lemma CreatedItemKeepsKeys(lines: seq<Line>, req: ItemRequest, freshId: LineId)
    requires DistinctIds(lines) && DistinctProducts(lines) && freshId !in Ids(lines) && CleanLines(lines)
    requires req.product !in Products(lines)
    ensures var r := lines + [CreatedItem(req, freshId)];
            DistinctIds(r) && DistinctProducts(r) && CleanLines(r) && Products(r) == Products(lines) + {req.product}
  {
    var x := CreatedItem(req, freshId);
    AppendKeepsKeys(lines, x);
    AppendProducts(lines, x);
    assert forall i | 0 <= i < |lines| :: (lines + [x])[i] == lines[i];
  }

  lemma MergedItemKeepsKeys(lines: seq<Line>, k: nat, req: ItemRequest)
    requires DistinctIds(lines) && DistinctProducts(lines) && CleanLines(lines)
    requires k < |lines| && lines[k].product == req.product
    ensures var r := lines[k := MergedItem(lines[k], req)];
            DistinctIds(r) && DistinctProducts(r) && CleanLines(r) && Products(r) == Products(lines) + {req.product}
  {
    var x := MergedItem(lines[k], req);
    ReplaceKeepsKeys(lines, k, x);
    ReplaceProducts(lines, k, x);
  }

  /** With the intended lookup, what an accepted request does to each line: the line of the
      requested product gains the request's quantities and takes its unit cost, or is created with
      them at the end; every other line is unchanged. */
  lemma {:induction false} AddItemMeaning(lines: seq<Line>, status: PurchaseStatus, req: ItemRequest, freshId: LineId)
    requires DistinctProducts(lines)
    requires AddItem(lines, status, req, freshId).Ok?
    ensures var r := AddItem(lines, status, req, freshId).value;
            var k := IndexOfProduct(r, req.product);
            k >= 0
            && (if req.product in Products(lines)
                then |r| == |lines| && r[k] == MergedItem(lines[k], req)
                else |r| == |lines| + 1 && r[k] == CreatedItem(req, freshId))
            && (forall i | 0 <= i < |lines| && i != k :: r[i] == lines[i])
  {
    var r := AddItem(lines, status, req, freshId).value;
    var k := IndexOfProduct(lines, req.product);
    if k < 0 {
      assert r == lines + [CreatedItem(req, freshId)];
      assert r[|lines|].product == req.product;
      var j := IndexOfProduct(r, req.product);
    } else {
      assert r == lines[k := MergedItem(lines[k], req)];
      assert r[k].product == req.product;
      var j := IndexOfProduct(r, req.product);
      assert r[j].product == lines[j].product;
    }
  }

  /** As written, adding a product to an invoice whose one line is another product tops up that
      line instead: the requested product never reaches the invoice. With two lines or more the
      request raises, while the intended lookup accepts it. */
  lemma AddItemWrongLineAsWritten(lines: seq<Line>, status: PurchaseStatus, req: ItemRequest, freshId: LineId)
    requires req.quantityReceived <= req.quantity && status != Received
    ensures |lines| == 1 && lines[0].product != req.product ==>
              AddItemAsWritten(lines, status, req, freshId) == Ok([MergedItem(lines[0], req)])
              && req.product !in Products(AddItemAsWritten(lines, status, req, freshId).value)
              && req.product in Products(AddItem(lines, status, req, freshId).value)
    ensures |lines| >= 2 ==>
              AddItemAsWritten(lines, status, req, freshId) == Fail(MultipleObjectsReturned)
              && AddItem(lines, status, req, freshId).Ok?
  {
    if |lines| == 1 && lines[0].product != req.product {
      var k := IndexOfProduct(lines, req.product);
      assert lines + [CreatedItem(req, freshId)] == AddItem(lines, status, req, freshId).value;
      assert (lines + [CreatedItem(req, freshId)])[1].product == req.product;
    }
  }

  /** What an accepted request leaves as written: the invoice ends with one line, so its keys and
      check constraint hold. An invoice without lines gains a line of the requested product with
      the new id; otherwise the one line keeps its id and product, so the requested product reaches
      the invoice only if it already was that line's product. */
  lemma AddItemAsWrittenKeepsKeys(lines: seq<Line>, status: PurchaseStatus, req: ItemRequest, freshId: LineId)
    requires AddItemAsWritten(lines, status, req, freshId).Ok?
    ensures var r := AddItemAsWritten(lines, status, req, freshId).value;
            DistinctIds(r) && DistinctProducts(r) && (CleanLines(lines) ==> CleanLines(r))
            && (lines == [] ==> r == [CreatedItem(req, freshId)] && Ids(r) == {freshId} && Products(r) == {req.product})
            && (lines != [] ==> Ids(r) == Ids(lines) && Products(r) == Products(lines)
                                && r[0].quantity == lines[0].quantity + req.quantity
                                && r[0].quantityReceived == lines[0].quantityReceived + req.quantityReceived
                                && r[0].price == req.price)
  {
    var r := AddItemAsWritten(lines, status, req, freshId).value;
    OneLineKeys(r);
    if lines != [] {
      OneLineKeys(lines);
    }
  }

  /** The ids and products of a one-line list are those of its line. */
  lemma OneLineKeys(lines: seq<Line>)
    requires |lines| == 1
    ensures Ids(lines) == {lines[0].id} && Products(lines) == {lines[0].product}
  {
    forall id | id in Ids(lines)
      ensures id == lines[0].id
    {
      var i :| 0 <= i < |lines| && lines[i].id == id;
    }
    forall p | p in Products(lines)
      ensures p == lines[0].product
    {
      var i :| 0 <= i < |lines| && lines[i].product == p;
    }
  }

  /** The code as written does what the intended lookup does exactly when the request is refused by
      validation, the invoice has no line yet, or its one line is of the requested product. */
  lemma AddItemAsWrittenAgrees(lines: seq<Line>, status: PurchaseStatus, req: ItemRequest, freshId: LineId)
    ensures AddItemAsWritten(lines, status, req, freshId) == AddItem(lines, status, req, freshId)
            <==> req.quantityReceived > req.quantity || status == Received || lines == []
                 || (|lines| == 1 && lines[0].product == req.product)
  {
    if req.quantityReceived <= req.quantity && status != Received {
      if lines == [] {
        assert [] + [CreatedItem(req, freshId)] == [CreatedItem(req, freshId)];
      } else if |lines| == 1 && lines[0].product == req.product {
        assert IndexOfProduct(lines, req.product) == 0;
        assert lines[0 := MergedItem(lines[0], req)] == [MergedItem(lines[0], req)];
      } else if |lines| == 1 {
        assert |AddItem(lines, status, req, freshId).value| == 2;
      } else if |lines| >= 2 {
        assert AddItem(lines, status, req, freshId).Ok?;
      }
    }
  }

  /** `PurchaseInvoiceItemCreateSerializer.validate` and `create` on an invoice, as written: returns
      the line written, or the error raised, and changes nothing else. */
  method CreatePurchaseItem(invoice: PurchaseInvoice, req: ItemRequest, freshId: LineId) returns (r: Result<Line>)
    modifies invoice`items
    ensures var added := AddItemAsWritten(old(invoice.items), invoice.status, req, freshId);
            (added.Fail? ==> r == Fail(added.error) && invoice.items == old(invoice.items))
            && (added.Ok? ==> invoice.items == added.value && r == Ok(added.value[0]))
    ensures old(invoice.Valid()) ==> invoice.Valid()
  {
    var lines, status := invoice.items, invoice.status;
    var check := CheckPurchaseInvoiceItemFields(req.quantityReceived, req.quantity, Some(status));
    if check.Raise? {
      return Fail(check.error);
    }
    // the `get` filters on the invoice and the business, not on the product
    if |lines| >= 2 {
      return Fail(MultipleObjectsReturned);
    }
    var item := if |lines| == 0 then CreatedItem(req, freshId) else MergedItem(lines[0], req);
    if CleanLines(lines) {
      assert CleanLines([item]) by {
        AddItemAsWrittenKeepsKeys(lines, status, req, freshId);
      }
    }
    invoice.items := [item];
    r := Ok(item);
  }
}
