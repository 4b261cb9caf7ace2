/** The line synchronisation shared by `PurchaseInvoiceAndItemsUpdateSerializer.save` and
    `SalesInvoiceAndItemsUpdateSerializer.save`: request items naming an existing line overwrite its
    product, quantity and price; the others become new lines; every line not named is deleted. */
module LineSync {
  import opened Common
  import opened InvoiceLines

  /** The "id" of a request item: the key may be missing, null, or a number. */
  datatype RequestId = Absent | Null | Id(id: LineId)

  /** One request item: `id`, `product_id`, `quantity` and the price (`unit_cost` or `unit_price`). */
  datatype LineRequest = LineRequest(id: RequestId, product: ProductId, quantity: int, price: real)

  /** What the loop over the request items builds: the invoice's lines with the updates applied in
      memory (`existing_items_map`), the ids of the updated lines in request order, and the items
      that become new lines. */
  datatype SyncPlan = SyncPlan(lines: seq<Line>, updatedIds: seq<LineId>, created: seq<LineRequest>)

  /** A line overwritten from a request item: product, quantity and price, nothing else. */
  function Updated(l: Line, req: LineRequest): Line
  {
    l.(product := req.product, quantity := req.quantity, price := req.price)
  }

  /** `b` is `a` with at most its product, quantity and price changed. */
  predicate SameExceptPricing(a: Line, b: Line) {
    b == a.(product := b.product, quantity := b.quantity, price := b.price)
  }

  /** The ids of the updated lines, as the set the final delete excludes. */
  function UpdatedSet(p: SyncPlan): set<LineId>
  {
    set x | x in p.updatedIds
  }

  /** One request item on top of the plan built so far; membership is tested against the ids the
      invoice had before the loop. */
  function PlanStep(lines: seq<Line>, p: SyncPlan, req: LineRequest): Result<SyncPlan>
    requires |p.lines| == |lines|
  {
    match req.id
    case Absent => Fail(MissingKey)
    case Null => Ok(p.(created := p.created + [req]))
    case Id(x) =>
      var k := IndexOfId(lines, x);
      if k < 0 then Ok(p.(created := p.created + [req]))
      else Ok(SyncPlan(p.lines[k := Updated(p.lines[k], req)], p.updatedIds + [x], p.created))
  }

  /** The loop over the request items, in order; a missing "id" key raises KeyError. */
  function Plan(lines: seq<Line>, reqs: seq<LineRequest>): (r: Result<SyncPlan>)
    ensures r.Fail? ==> r.error == MissingKey
    ensures r.Ok? ==> |r.value.lines| == |lines| && |r.value.created| <= |reqs|
    ensures r.Ok? ==> forall i | 0 <= i < |lines| :: SameExceptPricing(lines[i], r.value.lines[i])
    ensures r.Ok? ==> UpdatedSet(r.value) <= Ids(lines)
    decreases |reqs|
  {
    if reqs == [] then Ok(SyncPlan(lines, [], []))
    else
      match Plan(lines, reqs[..|reqs| - 1])
      case Fail(e) => Fail(e)
      case Ok(p) => PlanStep(lines, p, reqs[|reqs| - 1])
  }

  /** The loop raises exactly when some request item has no "id" key. */
  lemma {:induction false} PlanFails(lines: seq<Line>, reqs: seq<LineRequest>)
    ensures Plan(lines, reqs).Fail? <==> exists i | 0 <= i < |reqs| :: reqs[i].id.Absent?
  {
    if reqs != [] {
      var n := |reqs| - 1;
      PlanFails(lines, reqs[..n]);
      if exists i | 0 <= i < n :: reqs[..n][i].id.Absent? {
        var i :| 0 <= i < n && reqs[..n][i].id.Absent?;
        assert reqs[i].id.Absent?;
      }
      if exists i | 0 <= i < |reqs| :: reqs[i].id.Absent? {
        var i :| 0 <= i < |reqs| && reqs[i].id.Absent?;
        if i < n {
          assert reqs[..n][i].id.Absent?;
        }
      }
    }
  }

  /** Once a prefix of the request items raises, the whole loop raises the same error. */
  lemma {:induction false} PlanPrefixFails(lines: seq<Line>, reqs: seq<LineRequest>, i: nat)
    requires i <= |reqs| && Plan(lines, reqs[..i]).Fail?
    ensures Plan(lines, reqs) == Plan(lines, reqs[..i])
    decreases |reqs| - i
  {
    if i < |reqs| {
      assert reqs[..i + 1][..i] == reqs[..i];
      PlanPrefixFails(lines, reqs, i + 1);
    } else {
      assert reqs[..i] == reqs;
    }
  }

  /** The loop over the request items, building the updated lines, the updated ids and the new
      items in one pass. */
  method PlanSync(lines: seq<Line>, reqs: seq<LineRequest>) returns (r: Result<SyncPlan>)
    ensures r == Plan(lines, reqs)
  {
    var updated, updatedIds, created := lines, [], [];
    var i := 0;
    while i < |reqs|
      invariant 0 <= i <= |reqs|
      invariant Plan(lines, reqs[..i]) == Ok(SyncPlan(updated, updatedIds, created))
    {
      assert reqs[..i + 1][..i] == reqs[..i];
      var req := reqs[i];
      match req.id {
        case Absent =>
          assert Plan(lines, reqs[..i + 1]) == Fail(MissingKey);
          PlanPrefixFails(lines, reqs, i + 1);
          return Fail(MissingKey);
        case Null =>
          created := created + [req];
        case Id(x) =>
          var k := IndexOfId(lines, x);
          if k >= 0 {
            updated := updated[k := Updated(updated[k], req)];
            updatedIds := updatedIds + [x];
          } else {
            created := created + [req];
          }
      }
      i := i + 1;
    }
    assert reqs[..i] == reqs;
    r := Ok(SyncPlan(updated, updatedIds, created));
  }

  /** The last request item naming line `id`, if any: the one whose values stick. */
  function LastRequestFor(reqs: seq<LineRequest>, id: LineId): (r: Option<LineRequest>)
    ensures r.Some? ==> r.value in reqs && r.value.id == Id(id)
    ensures r.None? <==> forall i | 0 <= i < |reqs| :: reqs[i].id != Id(id)
  {
    if reqs == [] then None
    else if reqs[|reqs| - 1].id == Id(id) then Some(reqs[|reqs| - 1])
    else
      var r := LastRequestFor(reqs[..|reqs| - 1], id);
      assert forall i | 0 <= i < |reqs| - 1 :: reqs[..|reqs| - 1][i] == reqs[i];
      r
  }

  /** The request items that become new lines: a null id, or an id that is not one of the
      invoice's lines. */
  predicate MakesNewLine(lines: seq<Line>, req: LineRequest) {
    req.id.Null? || (req.id.Id? && req.id.id !in Ids(lines))
  }

  /** What the loop does to the invoice's lines, for an invoice whose line ids are distinct: each
      named line ends with the values of the last item naming it and is among the updated ids;
      each line not named is unchanged and not among them. */
  lemma {:induction false} PlanLinesMeaning(lines: seq<Line>, reqs: seq<LineRequest>)
    requires DistinctIds(lines)
    requires Plan(lines, reqs).Ok?
    ensures var p := Plan(lines, reqs).value;
            forall i | 0 <= i < |lines| ::
              (p.lines[i] == match LastRequestFor(reqs, lines[i].id)
                             case None => lines[i]
                             case Some(q) => Updated(lines[i], q))
              && (lines[i].id in UpdatedSet(p) <==> LastRequestFor(reqs, lines[i].id).Some?)
  {
    if reqs != [] {
      var n := |reqs| - 1;
      var req := reqs[n];
      PlanLinesMeaning(lines, reqs[..n]);
      var p := Plan(lines, reqs[..n]).value;
      var r := Plan(lines, reqs).value;
      assert r == PlanStep(lines, p, req).value;
      forall i | 0 <= i < |lines|
        ensures (r.lines[i] == match LastRequestFor(reqs, lines[i].id)
                               case None => lines[i]
                               case Some(q) => Updated(lines[i], q))
                && (lines[i].id in UpdatedSet(r) <==> LastRequestFor(reqs, lines[i].id).Some?)
      {
        if req.id == Id(lines[i].id) {
          assert IndexOfId(lines, lines[i].id) == i;
          assert r.updatedIds[|r.updatedIds| - 1] == lines[i].id;
        } else {
          assert LastRequestFor(reqs, lines[i].id) == LastRequestFor(reqs[..n], lines[i].id);
          if req.id.Id? && IndexOfId(lines, req.id.id) >= 0 {
            var k := IndexOfId(lines, req.id.id);
            assert k != i;
            assert r.updatedIds == p.updatedIds + [req.id.id];
          } else {
            assert r.lines == p.lines && r.updatedIds == p.updatedIds;
          }
        }
      }
    }
  }

  /** The items that become new lines are exactly those that name no line of the invoice. */
  lemma {:induction false} PlanCreatedMeaning(lines: seq<Line>, reqs: seq<LineRequest>)
    requires Plan(lines, reqs).Ok?
    ensures forall q :: q in Plan(lines, reqs).value.created <==> q in reqs && MakesNewLine(lines, q)
  {
    if reqs != [] {
      var n := |reqs| - 1;
      var req := reqs[n];
      assert reqs == reqs[..n] + [req];
      PlanCreatedMeaning(lines, reqs[..n]);
      var p := Plan(lines, reqs[..n]).value;
      var r := Plan(lines, reqs).value;
      if MakesNewLine(lines, req) {
        assert r.created == p.created + [req];
      } else {
        assert r.created == p.created;
      }
    }
  }

  /** The new lines created from the request items, with the ids the database assigns. */
  function CreatedLines(reqs: seq<LineRequest>, ids: seq<LineId>): seq<Line>
    requires |ids| >= |reqs|
  {
    seq(|reqs|, i requires 0 <= i < |reqs| => NewLine(ids[i], reqs[i].product, reqs[i].quantity, reqs[i].price))
  }

  /** The lines whose id is in `keep`, in order. */
  function KeepIds(lines: seq<Line>, keep: set<LineId>): (r: seq<Line>)
    ensures forall l :: l in r <==> l in lines && l.id in keep
    ensures |r| <= |lines|
  {
    if lines == [] then []
    else if lines[0].id in keep then [lines[0]] + KeepIds(lines[1..], keep)
    else KeepIds(lines[1..], keep)
  }

  /** A line in front of distinct lines keeps them distinct when its id and product are new. */
  lemma ConsDistinct(x: Line, s: seq<Line>)
    ensures DistinctProducts(s) && (forall i | 0 <= i < |s| :: s[i].product != x.product) ==> DistinctProducts([x] + s)
    ensures DistinctIds(s) && (forall i | 0 <= i < |s| :: s[i].id != x.id) ==> DistinctIds([x] + s)
  {
    forall i, j | 0 < i < j < |[x] + s|
      ensures ([x] + s)[i] == s[i - 1] && ([x] + s)[j] == s[j - 1]
    {
    }
  }

  /** The first line of a list with distinct ids or products differs from every later line in
      that field, and the rest of the list stays distinct. */
  lemma DistinctTail(s: seq<Line>)
    requires s != []
    ensures DistinctIds(s) ==> DistinctIds(s[1..]) && forall k | 1 <= k < |s| :: s[k].id != s[0].id
    ensures DistinctProducts(s) ==> DistinctProducts(s[1..]) && forall k | 1 <= k < |s| :: s[k].product != s[0].product
  {
    assert forall k | 0 <= k < |s| - 1 :: s[1..][k] == s[k + 1];
  }

  /** The kept lines of `a[1..]`, followed by `c`, are all lines of `(a + c)[1..]`. */
  lemma KeptTailMembers(a: seq<Line>, c: seq<Line>, keep: set<LineId>)
    requires a != []
    ensures forall y | y in KeepIds(a[1..], keep) + c :: exists k | 1 <= k < |a + c| :: (a + c)[k] == y
  {
    forall y | y in KeepIds(a[1..], keep) + c
      ensures exists k | 1 <= k < |a + c| :: (a + c)[k] == y
    {
      assert a[1..] + c == (a + c)[1..];
      assert y in (a + c)[1..];
      var k :| 0 <= k < |(a + c)[1..]| && (a + c)[1..][k] == y;
      assert (a + c)[k + 1] == y;
    }
  }

  /** Keeping the first line in front of the kept rest keeps products distinct. */
  lemma KeepFrontDistinctProducts(a: seq<Line>, c: seq<Line>, keep: set<LineId>)
    requires a != [] && DistinctProducts(a + c) && DistinctProducts(KeepIds(a[1..], keep) + c)
    ensures DistinctProducts([a[0]] + (KeepIds(a[1..], keep) + c))
  {
    var s := KeepIds(a[1..], keep) + c;
    DistinctTail(a + c);
    KeptTailMembers(a, c, keep);
    forall i | 0 <= i < |s|
      ensures s[i].product != a[0].product
    {
      assert s[i] in s;
    }
    ConsDistinct(a[0], s);
  }

  /** Keeping the first line in front of the kept rest keeps ids distinct. */
  lemma KeepFrontDistinctIds(a: seq<Line>, c: seq<Line>, keep: set<LineId>)
    requires a != [] && DistinctIds(a + c) && DistinctIds(KeepIds(a[1..], keep) + c)
    ensures DistinctIds([a[0]] + (KeepIds(a[1..], keep) + c))
  {
    var s := KeepIds(a[1..], keep) + c;
    DistinctTail(a + c);
    KeptTailMembers(a, c, keep);
    forall i | 0 <= i < |s|
      ensures s[i].id != a[0].id
    {
      assert s[i] in s;
    }
    ConsDistinct(a[0], s);
  }

  /** Dropping lines keeps products distinct. */
  lemma {:induction false} KeepIdsDistinctProducts(a: seq<Line>, c: seq<Line>, keep: set<LineId>)
    requires DistinctProducts(a + c)
    ensures DistinctProducts(KeepIds(a, keep) + c)
  {
    if a != [] {
      DistinctTail(a + c);
      assert a[1..] + c == (a + c)[1..];
      KeepIdsDistinctProducts(a[1..], c, keep);
      if a[0].id in keep {
        assert KeepIds(a, keep) + c == [a[0]] + (KeepIds(a[1..], keep) + c);
        KeepFrontDistinctProducts(a, c, keep);
      } else {
        assert KeepIds(a, keep) == KeepIds(a[1..], keep);
      }
    }
  }

  /** Dropping lines keeps ids distinct. */
  lemma {:induction false} KeepIdsDistinctIds(a: seq<Line>, c: seq<Line>, keep: set<LineId>)
    requires DistinctIds(a + c)
    ensures DistinctIds(KeepIds(a, keep) + c)
  {
    if a != [] {
      DistinctTail(a + c);
      assert a[1..] + c == (a + c)[1..];
      KeepIdsDistinctIds(a[1..], c, keep);
      if a[0].id in keep {
        assert KeepIds(a, keep) + c == [a[0]] + (KeepIds(a[1..], keep) + c);
        KeepFrontDistinctIds(a, c, keep);
      } else {
        assert KeepIds(a, keep) == KeepIds(a[1..], keep);
      }
    }
  }

  datatype SyncState = SyncState(lines: seq<Line>, gone: set<LineId>, outcome: Outcome)

  /** The synchronisation with the delete the code evidently intends (of the lines that existed
      before the call and were not named), step by step as the database sees it: the loop; the new
      lines, inserted beside the old ones (the unique (invoice, product) constraint may refuse them);
      the updates (which it may refuse too); the delete. */
  function SyncLines(lines: seq<Line>, reqs: seq<LineRequest>, freshIds: seq<LineId>): (r: SyncState)
    requires |freshIds| >= |reqs|
    ensures r.outcome.Raise? ==> r.gone == {}
    ensures r.outcome == Raise(MissingKey) || r.outcome == Raise(DuplicateProduct) || r.outcome == Pass
  {
    match Plan(lines, reqs)
    case Fail(e) => SyncState(lines, {}, Raise(e))
    case Ok(p) =>
      var created := CreatedLines(p.created, freshIds);
      if !DistinctProducts(lines + created) then SyncState(lines, {}, Raise(DuplicateProduct))
      else if !DistinctProducts(p.lines + created) then SyncState(lines + created, {}, Raise(DuplicateProduct))
      else SyncState(KeepIds(p.lines, UpdatedSet(p)) + created, Ids(lines) - UpdatedSet(p), Pass)
  }

  /** The synchronisation as written: the final delete re-runs the "lines of this invoice" query
      after the new lines were inserted, so it deletes every line not updated, new ones included.
      Until the delete it is the same as the intended one. */
  function SyncLinesAsWritten(lines: seq<Line>, reqs: seq<LineRequest>, freshIds: seq<LineId>): (r: SyncState)
    requires |freshIds| >= |reqs|
    ensures r.outcome == SyncLines(lines, reqs, freshIds).outcome
    ensures r.outcome.Raise? ==> r == SyncLines(lines, reqs, freshIds)
  {
    var s := SyncLines(lines, reqs, freshIds);
    if s.outcome.Raise? then s
    else
      var p := Plan(lines, reqs).value;
      var created := CreatedLines(p.created, freshIds);
      SyncState(KeepIds(p.lines + created, UpdatedSet(p)), Ids(lines + created) - UpdatedSet(p), Pass)
  }

  /** The ids the database hands out to new lines are distinct and not those of existing lines. */
  predicate FreshIds(lines: seq<Line>, reqs: seq<LineRequest>, freshIds: seq<LineId>) {
    |freshIds| >= |reqs|
    && (forall i, j | 0 <= i < j < |freshIds| :: freshIds[i] != freshIds[j])
    && (forall i | 0 <= i < |freshIds| :: freshIds[i] !in Ids(lines))
  }

  /** As written, a synchronisation that succeeds keeps none of the lines it created: every
      surviving line is an old one. */
  lemma SyncDropsCreatedLinesAsWritten(lines: seq<Line>, reqs: seq<LineRequest>, freshIds: seq<LineId>)
    requires FreshIds(lines, reqs, freshIds)
    requires SyncLines(lines, reqs, freshIds).outcome == Pass
    ensures SyncLinesAsWritten(lines, reqs, freshIds).outcome == Pass
    ensures forall l | l in SyncLinesAsWritten(lines, reqs, freshIds).lines :: l.id in Ids(lines)
  {
    var p := Plan(lines, reqs).value;
    var created := CreatedLines(p.created, freshIds);
    forall l | l in KeepIds(p.lines + created, UpdatedSet(p))
      ensures l.id in Ids(lines)
    {
      assert l.id in UpdatedSet(p);
    }
  }

  /** What the intended synchronisation keeps when it succeeds: a new line for every item naming no
      line, every line some item updated; it deletes exactly the old lines no item named, and no
      line it keeps is one it deletes. */
  lemma SyncKeepsRequestedLines(lines: seq<Line>, reqs: seq<LineRequest>, freshIds: seq<LineId>)
    requires FreshIds(lines, reqs, freshIds)
    requires SyncLines(lines, reqs, freshIds).outcome == Pass
    ensures var p := Plan(lines, reqs).value;
            var r := SyncLines(lines, reqs, freshIds);
            (forall i | 0 <= i < |p.created| ::
               NewLine(freshIds[i], p.created[i].product, p.created[i].quantity, p.created[i].price) in r.lines)
            && (forall i | 0 <= i < |lines| :: lines[i].id in UpdatedSet(p) ==> p.lines[i] in r.lines)
            && (forall i | 0 <= i < |lines| :: lines[i].id in r.gone <==> lines[i].id !in UpdatedSet(p))
            && (forall l | l in r.lines :: l.id !in r.gone)
  {
    var p := Plan(lines, reqs).value;
    var created := CreatedLines(p.created, freshIds);
    var kept := KeepIds(p.lines, UpdatedSet(p));
    var s := kept + created;
    assert SyncLines(lines, reqs, freshIds).lines == s;
    forall i | 0 <= i < |p.created|
      ensures NewLine(freshIds[i], p.created[i].product, p.created[i].quantity, p.created[i].price) in s
    {
      assert s[|kept| + i] == created[i];
    }
    forall i | 0 <= i < |lines| && lines[i].id in UpdatedSet(p)
      ensures p.lines[i] in s
    {
      assert p.lines[i].id == lines[i].id;
      assert p.lines[i] in kept;
    }
    forall l | l in s
      ensures l.id !in Ids(lines) - UpdatedSet(p)
    {
      if l in kept {
        assert l.id in UpdatedSet(p);
      } else {
        var i :| 0 <= i < |created| && created[i] == l;
        assert l.id == freshIds[i];
      }
    }
  }

  /** `KeepIds` over two lists joined is the two filtered lists joined. */
  lemma {:induction false} KeepIdsAppend(a: seq<Line>, c: seq<Line>, keep: set<LineId>)
    ensures KeepIds(a + c, keep) == KeepIds(a, keep) + KeepIds(c, keep)
  {
    if a != [] {
      assert (a + c)[1..] == a[1..] + c;
      KeepIdsAppend(a[1..], c, keep);
    } else {
      assert a + c == c;
    }
  }

  /** No line kept: `KeepIds` of lines none of whose ids is kept. */
  lemma {:induction false} KeepIdsNone(c: seq<Line>, keep: set<LineId>)
    requires forall i | 0 <= i < |c| :: c[i].id !in keep
    ensures KeepIds(c, keep) == []
  {
    if c != [] {
      KeepIdsNone(c[1..], keep);
    }
  }

  /** The ids of two lists joined. */
  lemma IdsAppend(a: seq<Line>, c: seq<Line>)
    ensures Ids(a + c) == Ids(a) + Ids(c)
  {
    forall id | id in Ids(a + c)
      ensures id in Ids(a) + Ids(c)
    {
      var i :| 0 <= i < |a + c| && (a + c)[i].id == id;
      if i >= |a| {
        assert c[i - |a|].id == id;
      }
    }
    forall id | id in Ids(a)
      ensures id in Ids(a + c)
    {
      var i :| 0 <= i < |a| && a[i].id == id;
      assert (a + c)[i] == a[i];
    }
    forall id | id in Ids(c)
      ensures id in Ids(a + c)
    {
      var i :| 0 <= i < |c| && c[i].id == id;
      assert (a + c)[|a| + i] == c[i];
    }
  }

  /** A prefix of a line list keeps its keys and its check constraint. */
  lemma PrefixKeepsKeys(a: seq<Line>, c: seq<Line>)
    ensures DistinctIds(a + c) ==> DistinctIds(a)
    ensures DistinctProducts(a + c) ==> DistinctProducts(a)
    ensures CleanLines(a + c) ==> CleanLines(a)
  {
    assert forall i | 0 <= i < |a| :: (a + c)[i] == a[i];
  }

  /** When it succeeds, the synchronisation as written ends with exactly the lines the intended one
      keeps minus the new ones, and deletes exactly what the intended one deletes plus the new
      ones. */
  lemma SyncAsWrittenDropsCreated(lines: seq<Line>, reqs: seq<LineRequest>, freshIds: seq<LineId>)
    requires FreshIds(lines, reqs, freshIds)
    requires SyncLines(lines, reqs, freshIds).outcome == Pass
    ensures var created := CreatedLines(Plan(lines, reqs).value.created, freshIds);
            var r := SyncLinesAsWritten(lines, reqs, freshIds);
            SyncLines(lines, reqs, freshIds).lines == r.lines + created
            && r.gone == SyncLines(lines, reqs, freshIds).gone + Ids(created)
  {
    var p := Plan(lines, reqs).value;
    var created := CreatedLines(p.created, freshIds);
    var u := UpdatedSet(p);
    KeepIdsAppend(p.lines, created, u);
    forall i | 0 <= i < |created|
      ensures created[i].id !in u
    {
      assert created[i].id == freshIds[i];
    }
    KeepIdsNone(created, u);
    assert KeepIds(p.lines + created, u) == KeepIds(p.lines, u);
    IdsAppend(lines, created);
    forall id | id in Ids(created)
      ensures id !in u
    {
      var i :| 0 <= i < |created| && created[i].id == id;
      assert id == freshIds[i];
    }
  }

  /** As written, the synchronisation keeps the line table's keys, and its check constraint and
      the absence of discounts, whether it succeeds or stops half-way. */
  lemma SyncAsWrittenKeepsKeys(lines: seq<Line>, reqs: seq<LineRequest>, freshIds: seq<LineId>)
    requires DistinctIds(lines) && DistinctProducts(lines)
    requires FreshIds(lines, reqs, freshIds)
    ensures DistinctIds(SyncLinesAsWritten(lines, reqs, freshIds).lines)
    ensures DistinctProducts(SyncLinesAsWritten(lines, reqs, freshIds).lines)
    ensures CleanLines(lines) ==> CleanLines(SyncLinesAsWritten(lines, reqs, freshIds).lines)
  {
    SyncKeepsKeys(lines, reqs, freshIds);
    if CleanLines(lines) {
      SyncKeepsClean(lines, reqs, freshIds);
    }
    if SyncLines(lines, reqs, freshIds).outcome == Pass {
      SyncAsWrittenDropsCreated(lines, reqs, freshIds);
      PrefixKeepsKeys(SyncLinesAsWritten(lines, reqs, freshIds).lines,
                      CreatedLines(Plan(lines, reqs).value.created, freshIds));
    }
  }

  /** The smallest case: an invoice without lines and one request item with a null id. As written
      the call succeeds and the invoice is left without lines; the intended delete keeps the new
      line. */
  lemma NewLineLostAsWritten(product: ProductId, quantity: int, price: real)
    ensures var reqs := [LineRequest(Null, product, quantity, price)];
            SyncLinesAsWritten([], reqs, [7]) == SyncState([], {7}, Pass)
            && SyncLines([], reqs, [7]) == SyncState([NewLine(7, product, quantity, price)], {}, Pass)
  {
    var reqs := [LineRequest(Null, product, quantity, price)];
    assert reqs[..0] == [];
    assert Plan([], reqs[..0]) == Ok(SyncPlan([], [], []));
    assert PlanStep([], SyncPlan([], [], []), reqs[0]) == Ok(SyncPlan([], [], [] + [reqs[0]]));
    assert [] + [reqs[0]] == reqs;
    assert Plan([], reqs) == Ok(SyncPlan([], [], reqs));
    var p := SyncPlan([], [], reqs);
    assert UpdatedSet(p) == {};
    var created := [NewLine(7, product, quantity, price)];
    assert CreatedLines(reqs, [7]) == created;
    assert created[1..] == [];
    forall id | id in Ids(created)
      ensures id == 7
    {
      var i :| 0 <= i < |created| && created[i].id == id;
    }
    assert created[0].id in Ids(created);
    assert Ids(created) == {7};
  }

  /** The intended synchronisation keeps the line table's keys: ids and products stay distinct,
      whether it succeeds or stops half-way. */
  lemma SyncKeepsKeys(lines: seq<Line>, reqs: seq<LineRequest>, freshIds: seq<LineId>)
    requires DistinctIds(lines) && DistinctProducts(lines)
    requires FreshIds(lines, reqs, freshIds)
    ensures DistinctIds(SyncLines(lines, reqs, freshIds).lines)
    ensures DistinctProducts(SyncLines(lines, reqs, freshIds).lines)
  {
    match Plan(lines, reqs)
    case Fail(_) =>
    case Ok(p) =>
      var created := CreatedLines(p.created, freshIds);
      if DistinctProducts(lines + created) {
        CreatedIdsDistinct(lines, p, created, freshIds);
        if DistinctProducts(p.lines + created) {
          KeepIdsDistinctProducts(p.lines, created, UpdatedSet(p));
          KeepIdsDistinctIds(p.lines, created, UpdatedSet(p));
        }
      }
  }

  /** The new lines' ids are distinct from each other and from the old ones, which the loop does
      not change. */
  lemma CreatedIdsDistinct(lines: seq<Line>, p: SyncPlan, created: seq<Line>, freshIds: seq<LineId>)
    requires DistinctIds(lines)
    requires |p.lines| == |lines| && forall i | 0 <= i < |lines| :: SameExceptPricing(lines[i], p.lines[i])
    requires |freshIds| >= |p.created| && created == CreatedLines(p.created, freshIds)
    requires (forall i, j | 0 <= i < j < |freshIds| :: freshIds[i] != freshIds[j])
    requires forall i | 0 <= i < |freshIds| :: freshIds[i] !in Ids(lines)
    ensures DistinctIds(lines + created) && DistinctIds(p.lines + created)
  {
    forall i, j | 0 <= i < j < |p.lines + created|
      ensures (p.lines + created)[i].id != (p.lines + created)[j].id
      ensures (lines + created)[i].id != (lines + created)[j].id
    {
      if j >= |lines| && i < |lines| {
        assert created[j - |lines|].id == freshIds[j - |lines|];
        assert lines[i].id in Ids(lines);
      }
    }
  }

  /** The intended synchronisation keeps the check constraint and the absence of discounts: the
      updates touch neither, and new lines have neither flag nor discount. */
  lemma SyncKeepsClean(lines: seq<Line>, reqs: seq<LineRequest>, freshIds: seq<LineId>)
    requires |freshIds| >= |reqs| && CleanLines(lines)
    ensures CleanLines(SyncLines(lines, reqs, freshIds).lines)
  {
    match Plan(lines, reqs)
    case Fail(_) =>
    case Ok(p) =>
      var created := CreatedLines(p.created, freshIds);
      assert CleanLines(created);
      assert CleanLines(p.lines);
      var kept := KeepIds(p.lines, UpdatedSet(p));
      forall i | 0 <= i < |kept|
        ensures kept[i].Clean() == Pass && kept[i].discount == Unset
      {
        assert kept[i] in p.lines;
      }
      assert forall i | 0 <= i < |lines + created| :: (lines + created)[i] in lines || (lines + created)[i] in created;
      assert forall i | 0 <= i < |kept + created| :: (kept + created)[i] in kept || (kept + created)[i] in created;
  }
}
