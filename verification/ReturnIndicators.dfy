/** Two ways to total an order's returns (backend/src/lib/order-return-indicators.ts): a fold
    over loaded records, and one aggregate over the return/item LEFT JOIN. */
module ReturnIndicators {
  import opened Common

  datatype Status = Requested | Approved | Rejected | InTransit | Received | Refunded | Cancelled

  /** Rows of the two tables. */
  datatype ReturnRow = ReturnRow(id: int, orderID: int, status: Status)
  datatype ItemRow = ItemRow(returnID: int, quantity: int, refundCents: int, refundedCents: Option<int>)

  /** A return with its items, as an order's details load it. */
  datatype Return = Return(status: Status, items: seq<ItemRow>)

  datatype Totals = Totals(activeReturns: int, inProgressReturns: int, inProgressUnits: int, pendingRefundCents: int,
                           physicallyReturnedUnits: int, awaitingMarkingReturns: int, awaitingMarkingCents: int,
                           markedReturns: int, markedUnits: int, markedRefundCents: int)

  const ZERO := Totals(0, 0, 0, 0, 0, 0, 0, 0, 0, 0)

  function Units(items: seq<ItemRow>): int { Sum(Map((i: ItemRow) => i.quantity, items)) }

  /** A marked return counts what was paid out, and what was calculated where nothing was recorded. */
  function CentsOf(status: Status, i: ItemRow): int {
    if status == Refunded && i.refundedCents.Some? then i.refundedCents.value else i.refundCents
  }

  function Cents(status: Status, items: seq<ItemRow>): int { Sum(Map((i: ItemRow) => CentsOf(status, i), items)) }

  predicate InProgress(s: Status) { s == Requested || s == Approved || s == InTransit }

  // --- The fold ------------------------------------------------------------------------------

  /** One turn of the loop over the returns. */
  function AddReturn(t: Totals, r: Return): Totals {
    if r.status == Rejected || r.status == Cancelled then t
    else
      var units, cents := Units(r.items), Cents(r.status, r.items);
      var active := t.(activeReturns := t.activeReturns + 1);
      if InProgress(r.status) then
        active.(inProgressReturns := t.inProgressReturns + 1, inProgressUnits := t.inProgressUnits + units,
                pendingRefundCents := t.pendingRefundCents + cents)
      else
        var back := active.(physicallyReturnedUnits := t.physicallyReturnedUnits + units);
        if r.status == Received then
          back.(awaitingMarkingReturns := t.awaitingMarkingReturns + 1,
            awaitingMarkingCents := t.awaitingMarkingCents + cents)
        else
          back.(markedReturns := t.markedReturns + 1, markedUnits := t.markedUnits + units,
                markedRefundCents := t.markedRefundCents + cents)
  }

  function Fold(records: seq<Return>): Totals {
    if records == [] then ZERO else AddReturn(Fold(records[..|records| - 1]), records[|records| - 1])
  }

  /** The counters, updated in place. */
  class Counters {
    var activeReturns: int
    var inProgressReturns: int
    var inProgressUnits: int
    var pendingRefundCents: int
    var physicallyReturnedUnits: int
    var awaitingMarkingReturns: int
    var awaitingMarkingCents: int
    var markedReturns: int
    var markedUnits: int
    var markedRefundCents: int

    function Value(): Totals
      reads this
    {
      Totals(activeReturns, inProgressReturns, inProgressUnits, pendingRefundCents, physicallyReturnedUnits,
        awaitingMarkingReturns, awaitingMarkingCents, markedReturns, markedUnits, markedRefundCents)
    }

    constructor ()
      ensures Value() == ZERO
    {
      activeReturns, inProgressReturns, inProgressUnits, pendingRefundCents, physicallyReturnedUnits := 0, 0, 0, 0, 0;
      awaitingMarkingReturns, awaitingMarkingCents, markedReturns, markedUnits, markedRefundCents := 0, 0, 0, 0, 0;
    }

    method Count(r: Return)
      modifies this
      ensures Value() == AddReturn(old(Value()), r)
    {
      if r.status == Rejected || r.status == Cancelled { return; }
      activeReturns := activeReturns + 1;
      var units, cents := Units(r.items), Cents(r.status, r.items);
      if InProgress(r.status) {
        inProgressReturns := inProgressReturns + 1;
        inProgressUnits := inProgressUnits + units;
        pendingRefundCents := pendingRefundCents + cents;
      } else {
        physicallyReturnedUnits := physicallyReturnedUnits + units;
        if r.status == Received {
          awaitingMarkingReturns := awaitingMarkingReturns + 1;
          awaitingMarkingCents := awaitingMarkingCents + cents;
        }
        if r.status == Refunded {
          markedReturns := markedReturns + 1;
          markedUnits := markedUnits + units;
          markedRefundCents := markedRefundCents + cents;
        }
      }
    }
  }

  method FoldRecords(records: seq<Return>) returns (t: Totals)
    ensures t == Fold(records)
  {
    var counters := new Counters();
    for i := 0 to |records|
      invariant counters.Value() == Fold(records[..i])
    {
      assert records[..i + 1][..i] == records[..i];
      counters.Count(records[i]);
    }
    assert records[..|records|] == records;
    t := counters.Value();
  }

  datatype Goodwill = Goodwill(owed: bool, amountCents: int)

  /** An order with everything its details page loads. */
  datatype Details = Details(subtotalCents: int, discountCents: int, quantities: seq<int>, records: seq<Return>,
                             goodwill: seq<Goodwill>)

  /** The totals together with what was ordered and what is owed besides. */
  datatype Summary = Summary(orderedUnits: int, originalCents: int, totals: Totals, owedCount: int, owedCents: int)

  function Owed(goodwill: seq<Goodwill>): seq<int> {
    if goodwill == [] then []
    else (if goodwill[0].owed then [goodwill[0].amountCents] else []) + Owed(goodwill[1..])
  }

  function Summarize(d: Details): Summary {
    Summary(Sum(d.quantities), d.subtotalCents - d.discountCents, Fold(d.records), |Owed(d.goodwill)|,
      Sum(Owed(d.goodwill)))
  }

  method IndicatorsFromRecords(d: Details) returns (s: Summary)
    ensures s == Summarize(d)
  {
    var totals := FoldRecords(d.records);
    var owed := Owed(d.goodwill);
    s := Summary(Sum(d.quantities), d.subtotalCents - d.discountCents, totals, |owed|, Sum(owed));
  }

  // --- The join ------------------------------------------------------------------------------

  /** One row of the LEFT JOIN; a return without items has one row with no item. */
  datatype JoinRow = JoinRow(ret: ReturnRow, item: Option<ItemRow>)

  function ItemsOfReturn(items: seq<ItemRow>, returnID: int): seq<ItemRow> {
    if items == [] then []
    else (if items[0].returnID == returnID then [items[0]] else []) + ItemsOfReturn(items[1..], returnID)
  }

  /** The rows of one return after the WHERE clause. */
  function RowsOf(r: ReturnRow, items: seq<ItemRow>): seq<JoinRow> {
    if r.status == Rejected || r.status == Cancelled then []
    else if ItemsOfReturn(items, r.id) == [] then [JoinRow(r, None)]
    else Map((i: ItemRow) => JoinRow(r, Some(i)), ItemsOfReturn(items, r.id))
  }

  function Joined(records: seq<ReturnRow>, items: seq<ItemRow>): seq<JoinRow> {
    if records == [] then [] else Joined(records[..|records| - 1], items) + RowsOf(records[|records| - 1], items)
  }

  /** A FILTER clause on the status, within one group. */
  type Filter = Status -> bool

  /** `COUNT(DISTINCT r."id") FILTER (...)` over the group of one order. */
  function CountDistinct(rows: seq<JoinRow>, orderID: int, p: Filter): int {
    |set row | row in rows && row.ret.orderID == orderID && p(row.ret.status) :: row.ret.id|
  }

  /** `COALESCE(SUM(...) FILTER (...), 0)` over the group of one order: rows without an item add nothing. */
  function SumOver(rows: seq<JoinRow>, orderID: int, p: Filter, f: ItemRow -> int): int {
    if rows == [] then 0
    else
      var row := rows[0];
      (if row.ret.orderID == orderID && p(row.ret.status) && row.item.Some? then f(row.item.value) else 0)
      + SumOver(rows[1..], orderID, p, f)
  }

  function Quantity(): ItemRow -> int { (i: ItemRow) => i.quantity }

  function Calculated(): ItemRow -> int { (i: ItemRow) => i.refundCents }

  /** `COALESCE(ri."refundedAmount", ri."refundAmount")` */
  function Paid(): ItemRow -> int { (i: ItemRow) => match i.refundedCents case Some(c) => c case None => i.refundCents }

  function Any(): Filter { (s: Status) => true }

  function Progressing(): Filter { (s: Status) => s in [Requested, Approved, InTransit] }

  function Back(): Filter { (s: Status) => s in [Received, Refunded] }

  function Is(status: Status): Filter { (s: Status) => s == status }

  /** The aggregate of one order, zero where the order has no group at all. */
  function Aggregate(rows: seq<JoinRow>, orderID: int): Totals {
    Totals(CountDistinct(rows, orderID, Any()),
           CountDistinct(rows, orderID, Progressing()), SumOver(rows, orderID, Progressing(), Quantity()),
           SumOver(rows, orderID, Progressing(), Calculated()),
           SumOver(rows, orderID, Back(), Quantity()),
           CountDistinct(rows, orderID, Is(Received)), SumOver(rows, orderID, Is(Received), Calculated()),
           CountDistinct(rows, orderID, Is(Refunded)), SumOver(rows, orderID, Is(Refunded), Quantity()),
           SumOver(rows, orderID, Is(Refunded), Paid()))
  }

  /** The order's details: its returns with their items. */
  function Load(records: seq<ReturnRow>, items: seq<ItemRow>, orderID: int): seq<Return> {
    if records == [] then []
    else
      var r := records[|records| - 1];
      Load(records[..|records| - 1], items, orderID)
      + if r.orderID == orderID then [Return(r.status, ItemsOfReturn(items, r.id))] else []
  }

  // --- They agree ------------------------------------------------------------------------------

  lemma {:induction false} SumOverAppend(a: seq<JoinRow>, b: seq<JoinRow>, orderID: int, p: Filter, f: ItemRow -> int)
    ensures SumOver(a + b, orderID, p, f) == SumOver(a, orderID, p, f) + SumOver(b, orderID, p, f)
  {
    if a == [] {
      assert a + b == b;
    } else {
      assert (a + b)[1..] == a[1..] + b;
      SumOverAppend(a[1..], b, orderID, p, f);
    }
  }

  /** Whether a return's own rows pass a filter. */
  predicate Passes(r: ReturnRow, orderID: int, p: Filter) {
    r.orderID == orderID && p(r.status) && r.status != Rejected && r.status != Cancelled
  }

  lemma {:induction false} SumOverItems(r: ReturnRow, items: seq<ItemRow>, orderID: int, p: Filter, f: ItemRow -> int)
    ensures SumOver(Map((i: ItemRow) => JoinRow(r, Some(i)), items), orderID, p, f)
      == if r.orderID == orderID && p(r.status) then Sum(Map(f, items)) else 0
  {
    if items != [] {
      var g := (i: ItemRow) => JoinRow(r, Some(i));
      SumOverItems(r, items[1..], orderID, p, f);
      assert Map(g, items) == [g(items[0])] + Map(g, items[1..]);
      assert Map(f, items) == [f(items[0])] + Map(f, items[1..]);
    }
  }

  lemma SumOverReturn(r: ReturnRow, items: seq<ItemRow>, orderID: int, p: Filter, f: ItemRow -> int)
    ensures SumOver(RowsOf(r, items), orderID, p, f)
      == if Passes(r, orderID, p) then Sum(Map(f, ItemsOfReturn(items, r.id))) else 0
  {
    SumOverItems(r, ItemsOfReturn(items, r.id), orderID, p, f);
  }

  lemma {:induction false} JoinedIds(records: seq<ReturnRow>, items: seq<ItemRow>)
    ensures forall row :: row in Joined(records, items) ==> row.ret in records
  {
    if records != [] {
      var front, last := records[..|records| - 1], records[|records| - 1];
      JoinedIds(front, items);
      assert records == front + [last];
      forall row | row in RowsOf(last, items) ensures row.ret == last {}
    }
  }

  ghost predicate Keyed(records: seq<ReturnRow>) {
    forall i, j :: 0 <= i < j < |records| ==> records[i].id != records[j].id
  }

  lemma CountAppend(rows: seq<JoinRow>, r: ReturnRow, items: seq<ItemRow>, orderID: int, p: Filter)
    requires forall row :: row in rows ==> row.ret.id != r.id
    ensures CountDistinct(rows + RowsOf(r, items), orderID, p)
      == CountDistinct(rows, orderID, p) + if Passes(r, orderID, p) then 1 else 0
  {
    var before := set row | row in rows && row.ret.orderID == orderID && p(row.ret.status) :: row.ret.id;
    var all := rows + RowsOf(r, items);
    var after := set row | row in all && row.ret.orderID == orderID && p(row.ret.status) :: row.ret.id;
    if Passes(r, orderID, p) {
      assert RowsOf(r, items)[0] in all && RowsOf(r, items)[0].ret == r;
      assert after == before + {r.id};
    } else {
      assert after == before;
    }
  }

  lemma SumAppendReturn(rows: seq<JoinRow>, r: ReturnRow, items: seq<ItemRow>, orderID: int, p: Filter,
                        f: ItemRow -> int)
    ensures SumOver(rows + RowsOf(r, items), orderID, p, f)
      == SumOver(rows, orderID, p, f) + if Passes(r, orderID, p) then Sum(Map(f, ItemsOfReturn(items, r.id))) else 0
  {
    SumOverAppend(rows, RowsOf(r, items), orderID, p, f);
    SumOverReturn(r, items, orderID, p, f);
  }

  function One(r: ReturnRow, orderID: int, p: Filter): int { if Passes(r, orderID, p) then 1 else 0 }

  function Share(r: ReturnRow, items: seq<ItemRow>, orderID: int, p: Filter, f: ItemRow -> int): int {
    if Passes(r, orderID, p) then Sum(Map(f, items)) else 0
  }

  /** The counts of `u` are those of `t` and one more where the return passes. */
  ghost predicate CountsGrow(t: Totals, u: Totals, r: ReturnRow, orderID: int) {
    && u.activeReturns == t.activeReturns + One(r, orderID, Any())
    && u.inProgressReturns == t.inProgressReturns + One(r, orderID, Progressing())
    && u.awaitingMarkingReturns == t.awaitingMarkingReturns + One(r, orderID, Is(Received))
    && u.markedReturns == t.markedReturns + One(r, orderID, Is(Refunded))
  }

  /** ... and the sums grow by what its own items add up to. */
  ghost predicate SumsGrow(t: Totals, u: Totals, r: ReturnRow, own: seq<ItemRow>, orderID: int) {
    && u.inProgressUnits == t.inProgressUnits + Share(r, own, orderID, Progressing(), Quantity())
    && u.pendingRefundCents == t.pendingRefundCents + Share(r, own, orderID, Progressing(), Calculated())
    && u.physicallyReturnedUnits == t.physicallyReturnedUnits + Share(r, own, orderID, Back(), Quantity())
    && u.awaitingMarkingCents == t.awaitingMarkingCents + Share(r, own, orderID, Is(Received), Calculated())
    && u.markedUnits == t.markedUnits + Share(r, own, orderID, Is(Refunded), Quantity())
    && u.markedRefundCents == t.markedRefundCents + Share(r, own, orderID, Is(Refunded), Paid())
  }

  lemma CountsOfRows(rows: seq<JoinRow>, r: ReturnRow, items: seq<ItemRow>, orderID: int)
    requires forall row :: row in rows ==> row.ret.id != r.id
    ensures CountsGrow(Aggregate(rows, orderID), Aggregate(rows + RowsOf(r, items), orderID), r, orderID)
  {
    CountAppend(rows, r, items, orderID, Any());
    CountAppend(rows, r, items, orderID, Progressing());
    CountAppend(rows, r, items, orderID, Is(Received));
    CountAppend(rows, r, items, orderID, Is(Refunded));
  }

  lemma SumsOfRows(rows: seq<JoinRow>, r: ReturnRow, items: seq<ItemRow>, orderID: int)
    ensures SumsGrow(Aggregate(rows, orderID), Aggregate(rows + RowsOf(r, items), orderID), r,
      ItemsOfReturn(items, r.id), orderID)
  {
    SumAppendReturn(rows, r, items, orderID, Progressing(), Quantity());
    SumAppendReturn(rows, r, items, orderID, Progressing(), Calculated());
    SumAppendReturn(rows, r, items, orderID, Back(), Quantity());
    SumAppendReturn(rows, r, items, orderID, Is(Received), Calculated());
    SumAppendReturn(rows, r, items, orderID, Is(Refunded), Quantity());
    SumAppendReturn(rows, r, items, orderID, Is(Refunded), Paid());
  }

  lemma ItemTotals(status: Status, own: seq<ItemRow>)
    ensures Units(own) == Sum(Map(Quantity(), own))
    ensures Cents(status, own) == Sum(Map(if status == Refunded then Paid() else Calculated(), own))
  {
    assert Map((i: ItemRow) => i.quantity, own) == Map(Quantity(), own);
    assert Map((i: ItemRow) => CentsOf(status, i), own)
      == Map(if status == Refunded then Paid() else Calculated(), own);
  }

  /** Growing the counts and the sums so is what one turn of the fold does. */
  lemma TurnOfFold(t: Totals, u: Totals, r: ReturnRow, own: seq<ItemRow>, orderID: int)
    requires CountsGrow(t, u, r, orderID) && SumsGrow(t, u, r, own, orderID)
    ensures u == if r.orderID == orderID then AddReturn(t, Return(r.status, own)) else t
  {
    ItemTotals(r.status, own);
  }

  /** One more return changes the aggregate as one turn of the fold does. */
  lemma OneMoreReturn(front: seq<ReturnRow>, r: ReturnRow, items: seq<ItemRow>, orderID: int)
    requires Keyed(front + [r])
    ensures Aggregate(Joined(front + [r], items), orderID)
      == if r.orderID == orderID
         then AddReturn(Aggregate(Joined(front, items), orderID), Return(r.status, ItemsOfReturn(items, r.id)))
         else Aggregate(Joined(front, items), orderID)
  {
    var rows := Joined(front, items);
    assert (front + [r])[..|front|] == front;
    JoinedIds(front, items);
    forall row | row in rows ensures row.ret.id != r.id {
      var i :| 0 <= i < |front| && front[i] == row.ret;
      assert (front + [r])[i].id != (front + [r])[|front|].id;
    }
    CountsOfRows(rows, r, items, orderID);
    SumsOfRows(rows, r, items, orderID);
    TurnOfFold(Aggregate(rows, orderID), Aggregate(rows + RowsOf(r, items), orderID), r, ItemsOfReturn(items, r.id),
      orderID);
  }

  lemma FoldSnoc(loaded: seq<Return>, r: Return)
    ensures Fold(loaded + [r]) == AddReturn(Fold(loaded), r)
  {
    assert (loaded + [r])[..|loaded|] == loaded;
  }

  lemma LoadSnoc(front: seq<ReturnRow>, r: ReturnRow, items: seq<ItemRow>, orderID: int)
    ensures Fold(Load(front + [r], items, orderID)) ==
      if r.orderID == orderID
      then AddReturn(Fold(Load(front, items, orderID)), Return(r.status, ItemsOfReturn(items, r.id)))
      else Fold(Load(front, items, orderID))
  {
    assert (front + [r])[..|front|] == front;
    FoldSnoc(Load(front, items, orderID), Return(r.status, ItemsOfReturn(items, r.id)));
    assert Load(front, items, orderID) + [] == Load(front, items, orderID);
  }

  lemma CountNone(orderID: int, p: Filter)
    ensures CountDistinct([], orderID, p) == 0
  {
    var rows: seq<JoinRow> := [];
    assert (set row | row in rows && row.ret.orderID == orderID && p(row.ret.status) :: row.ret.id) == {};
  }

  lemma NoGroup(orderID: int)
    ensures Aggregate([], orderID) == ZERO
  {
    CountNone(orderID, Any());
    CountNone(orderID, Progressing());
    CountNone(orderID, Is(Received));
    CountNone(orderID, Is(Refunded));
  }

  /** For every table of returns and items and every order, returns without items and orders
      without returns included, both ways give the same totals. */
  lemma {:induction false} FoldIsAggregate(records: seq<ReturnRow>, items: seq<ItemRow>, orderID: int)
    requires Keyed(records)
    ensures Fold(Load(records, items, orderID)) == Aggregate(Joined(records, items), orderID)
  {
    if records == [] {
      NoGroup(orderID);
    } else {
      var front, r := records[..|records| - 1], records[|records| - 1];
      assert records == front + [r];
      FoldIsAggregate(front, items, orderID);
      OneMoreReturn(front, r, items, orderID);
      LoadSnoc(front, r, items, orderID);
    }
  }

  // --- Row order ---------------------------------------------------------------------------------

  function Contribution(orderID: int, p: Filter, f: ItemRow -> int): JoinRow -> int {
    (row: JoinRow) => if row.ret.orderID == orderID && p(row.ret.status) && row.item.Some? then f(row.item.value) else 0
  }

  lemma {:induction false} SumOverIsSum(rows: seq<JoinRow>, orderID: int, p: Filter, f: ItemRow -> int)
    ensures SumOver(rows, orderID, p, f) == Sum(Map(Contribution(orderID, p, f), rows))
  {
    if rows != [] {
      SumOverIsSum(rows[1..], orderID, p, f);
      var g := Contribution(orderID, p, f);
      assert Map(g, rows) == [g(rows[0])] + Map(g, rows[1..]);
    }
  }

  lemma SumReordered(a: seq<JoinRow>, b: seq<JoinRow>, orderID: int, p: Filter, f: ItemRow -> int)
    requires Permuted(a, b)
    ensures SumOver(a, orderID, p, f) == SumOver(b, orderID, p, f)
  {
    var g := Contribution(orderID, p, f);
    SumOverIsSum(a, orderID, p, f);
    SumOverIsSum(b, orderID, p, f);
    MapPermuted(g, a, b);
    SumPermuted(Map(g, a), Map(g, b));
  }

  lemma CountReordered(a: seq<JoinRow>, b: seq<JoinRow>, orderID: int, p: Filter)
    requires Permuted(a, b)
    ensures CountDistinct(a, orderID, p) == CountDistinct(b, orderID, p)
  {
    SameElements(a, b);
    assert (set row | row in a && row.ret.orderID == orderID && p(row.ret.status) :: row.ret.id)
      == (set row | row in b && row.ret.orderID == orderID && p(row.ret.status) :: row.ret.id);
  }

  /** The database may list the joined rows in any order. */
  lemma RowOrderIrrelevant(a: seq<JoinRow>, b: seq<JoinRow>, orderID: int)
    requires Permuted(a, b)
    ensures Aggregate(a, orderID) == Aggregate(b, orderID)
  {
    CountReordered(a, b, orderID, Any());
    CountReordered(a, b, orderID, Progressing());
    CountReordered(a, b, orderID, Is(Received));
    CountReordered(a, b, orderID, Is(Refunded));
    SumReordered(a, b, orderID, Progressing(), Quantity());
    SumReordered(a, b, orderID, Progressing(), Calculated());
    SumReordered(a, b, orderID, Back(), Quantity());
    SumReordered(a, b, orderID, Is(Received), Calculated());
    SumReordered(a, b, orderID, Is(Refunded), Quantity());
    SumReordered(a, b, orderID, Is(Refunded), Paid());
  }

  // --- Whole orders ------------------------------------------------------------------------------

  datatype OrderRow = OrderRow(id: int, subtotalCents: int, discountCents: int)
  datatype OrderItemRow = OrderItemRow(orderID: int, quantity: int)
  datatype GoodwillRow = GoodwillRow(orderID: int, owed: bool, amountCents: int)

  datatype Tables = Tables(orderItems: seq<OrderItemRow>, returnRows: seq<ReturnRow>, itemRows: seq<ItemRow>,
                           goodwill: seq<GoodwillRow>)

  /** `SUM("quantity")` of the order's group, 0 without one. */
  function OrderedUnits(rows: seq<OrderItemRow>, orderID: int): int {
    if rows == [] then 0
    else (if rows[0].orderID == orderID then rows[0].quantity else 0) + OrderedUnits(rows[1..], orderID)
  }

  function Owing(row: GoodwillRow, orderID: int): bool { row.orderID == orderID && row.owed }

  /** `COUNT(*)` and `SUM(amount)` of the order's group among the rows owed, 0 without one. */
  function OwedCount(rows: seq<GoodwillRow>, orderID: int): int {
    if rows == [] then 0 else (if Owing(rows[0], orderID) then 1 else 0) + OwedCount(rows[1..], orderID)
  }

  function OwedCents(rows: seq<GoodwillRow>, orderID: int): int {
    if rows == [] then 0
    else (if Owing(rows[0], orderID) then rows[0].amountCents else 0) + OwedCents(rows[1..], orderID)
  }

  /** The row the list query computes for an order. */
  function Selected(t: Tables, o: OrderRow): Summary {
    Summary(OrderedUnits(t.orderItems, o.id), o.subtotalCents - o.discountCents,
            Aggregate(Joined(t.returnRows, t.itemRows), o.id), OwedCount(t.goodwill, o.id), OwedCents(t.goodwill, o.id))
  }

  function QuantitiesOf(rows: seq<OrderItemRow>, orderID: int): seq<int> {
    if rows == [] then []
    else (if rows[0].orderID == orderID then [rows[0].quantity] else []) + QuantitiesOf(rows[1..], orderID)
  }

  function GoodwillOf(rows: seq<GoodwillRow>, orderID: int): seq<Goodwill> {
    if rows == [] then []
    else
      (if rows[0].orderID == orderID then [Goodwill(rows[0].owed, rows[0].amountCents)] else [])
        + GoodwillOf(rows[1..], orderID)
  }

  function LoadDetails(t: Tables, o: OrderRow): Details {
    Details(o.subtotalCents, o.discountCents, QuantitiesOf(t.orderItems, o.id), Load(t.returnRows, t.itemRows, o.id),
            GoodwillOf(t.goodwill, o.id))
  }

  lemma {:induction false} QuantitiesAddUp(rows: seq<OrderItemRow>, orderID: int)
    ensures Sum(QuantitiesOf(rows, orderID)) == OrderedUnits(rows, orderID)
  {
    if rows != [] {
      QuantitiesAddUp(rows[1..], orderID);
      SumAppend(if rows[0].orderID == orderID then [rows[0].quantity] else [], QuantitiesOf(rows[1..], orderID));
    }
  }

  lemma OwedCons(g: Goodwill, rest: seq<Goodwill>)
    ensures |Owed([g] + rest)| == |Owed(rest)| + if g.owed then 1 else 0
    ensures Sum(Owed([g] + rest)) == Sum(Owed(rest)) + if g.owed then g.amountCents else 0
  {
    assert ([g] + rest)[1..] == rest;
    SumAppend(if g.owed then [g.amountCents] else [], Owed(rest));
  }

  lemma {:induction false} GoodwillAddsUp(rows: seq<GoodwillRow>, orderID: int)
    ensures |Owed(GoodwillOf(rows, orderID))| == OwedCount(rows, orderID)
    ensures Sum(Owed(GoodwillOf(rows, orderID))) == OwedCents(rows, orderID)
  {
    if rows != [] {
      var rest := GoodwillOf(rows[1..], orderID);
      GoodwillAddsUp(rows[1..], orderID);
      if rows[0].orderID == orderID {
        OwedCons(Goodwill(rows[0].owed, rows[0].amountCents), rest);
      } else {
        assert [] + rest == rest;
      }
    }
  }

  /** Both ways summarise every order alike: what was ordered, every return total, what is owed. */
  lemma SummariesAgree(t: Tables, o: OrderRow)
    requires Keyed(t.returnRows)
    ensures Summarize(LoadDetails(t, o)) == Selected(t, o)
  {
    QuantitiesAddUp(t.orderItems, o.id);
    GoodwillAddsUp(t.goodwill, o.id);
    FoldIsAggregate(t.returnRows, t.itemRows, o.id);
  }

  // --- The labels -------------------------------------------------------------------------------

  datatype ReturnStatus = NothingReturned | ReturnInProgress | PartiallyReturned | FullyReturned
  datatype RefundStatus = NothingMarked | AwaitingMarking | PartiallyMarked | FullyMarked

  datatype Indicators = Indicators(returnStatus: ReturnStatus, refundStatus: RefundStatus, hasReturn: bool,
                                   dueCount: int, dueCents: int)

  predicate CoversOrder(s: Summary) {
    if s.originalCents > 0 then s.totals.markedRefundCents >= s.originalCents
    else s.orderedUnits > 0 && s.totals.markedUnits >= s.orderedUnits
         && s.totals.awaitingMarkingReturns == 0 && s.totals.inProgressReturns == 0
  }

  function DeriveIndicators(s: Summary): Indicators {
    var t := s.totals;
    Indicators(
      if t.physicallyReturnedUnits > 0
      then (if t.physicallyReturnedUnits >= s.orderedUnits then FullyReturned else PartiallyReturned)
      else if t.inProgressReturns > 0 then ReturnInProgress else NothingReturned,
      if t.markedReturns > 0 then (if CoversOrder(s) then FullyMarked else PartiallyMarked)
      else if t.awaitingMarkingReturns > 0 then AwaitingMarking else NothingMarked,
      t.activeReturns > 0, t.awaitingMarkingReturns + s.owedCount, t.awaitingMarkingCents + s.owedCents)
  }

  ghost predicate SomeReturn(records: seq<Return>, p: Filter) {
    exists i :: 0 <= i < |records| && p(records[i].status)
  }

  /** Cents paid out, or calculated where nothing was recorded, over the returns marked refunded. */
  function MarkedCents(records: seq<Return>): int {
    if records == [] then 0
    else
      var r := records[|records| - 1];
      MarkedCents(records[..|records| - 1]) + if r.status == Refunded then Cents(Refunded, r.items) else 0
  }

  lemma {:induction false} CountsSeeRecords(records: seq<Return>)
    ensures Fold(records).markedReturns >= 0 && (Fold(records).markedReturns > 0 <==> SomeReturn(records, Is(Refunded)))
    ensures Fold(records).awaitingMarkingReturns >= 0
    ensures Fold(records).awaitingMarkingReturns > 0 <==> SomeReturn(records, Is(Received))
    ensures Fold(records).markedRefundCents == MarkedCents(records)
  {
    if records != [] {
      var n := |records| - 1;
      CountsSeeRecords(records[..n]);
      Extends(records, n, Is(Refunded));
      Extends(records, n, Is(Received));
    }
  }

  lemma Extends(records: seq<Return>, n: nat, p: Filter)
    requires n + 1 == |records|
    ensures SomeReturn(records, p) <==> SomeReturn(records[..n], p) || p(records[n].status)
  {
    if SomeReturn(records[..n], p) {
      var i :| 0 <= i < n && p(records[..n][i].status);
      assert p(records[i].status);
    }
    if SomeReturn(records, p) && !p(records[n].status) {
      var i :| 0 <= i < |records| && p(records[i].status);
      assert p(records[..n][i].status);
    }
  }

  /** The order's marked returns amount to all its merchandise. */
  ghost predicate ReachesValue(d: Details) {
    SomeReturn(d.records, Is(Refunded)) && MarkedCents(d.records) >= d.subtotalCents - d.discountCents
  }

  /** A marking is visible exactly when some return of the order is marked refunded, be it of
      nothing; an order of positive value is fully marked exactly when the cents of those returns
      reach it; and what waits for marking shows exactly until the first marking. */
  lemma MarkingVisible(d: Details)
    ensures var status := DeriveIndicators(Summarize(d)).refundStatus;
      && (status in {PartiallyMarked, FullyMarked} <==> SomeReturn(d.records, Is(Refunded)))
      && (d.subtotalCents - d.discountCents > 0 ==> (status == FullyMarked <==> ReachesValue(d)))
      && (status == AwaitingMarking
          <==> SomeReturn(d.records, Is(Received)) && !SomeReturn(d.records, Is(Refunded)))
  {
    CountsSeeRecords(d.records);
  }

  lemma {:induction false} FoldConsistent(records: seq<Return>)
    ensures var t := Fold(records);
      t.inProgressReturns >= 0 && t.awaitingMarkingReturns >= 0 && t.markedReturns >= 0
      && t.activeReturns == t.inProgressReturns + t.awaitingMarkingReturns + t.markedReturns
  {
    if records != [] { FoldConsistent(records[..|records| - 1]); }
  }

  // --- The fold by what it adds up ----------------------------------------------------------------

  /** One per return of the status. */
  function CountIf(p: Filter): Return -> int { (r: Return) => if p(r.status) then 1 else 0 }

  /** Something of the items of every return of the status. */
  function SumIf(p: Filter, f: ItemRow -> int): Return -> int {
    (r: Return) => if p(r.status) then Sum(Map(f, r.items)) else 0
  }

  function Over(records: seq<Return>, f: Return -> int): int { Sum(Map(f, records)) }

  function Open(): Filter { (s: Status) => s !in [Rejected, Cancelled] }

  lemma OverSnoc(records: seq<Return>, n: nat, f: Return -> int)
    requires n + 1 == |records|
    ensures Over(records, f) == Over(records[..n], f) + f(records[n])
  {
    assert Map(f, records) == Map(f, records[..n]) + [f(records[n])];
    SumAppend(Map(f, records[..n]), [f(records[n])]);
  }

  /** The counts without the loop: one for each return of the statuses. */
  ghost predicate CountsAddUp(records: seq<Return>, t: Totals) {
    && t.activeReturns == Over(records, CountIf(Open()))
    && t.inProgressReturns == Over(records, CountIf(Progressing()))
    && t.awaitingMarkingReturns == Over(records, CountIf(Is(Received)))
    && t.markedReturns == Over(records, CountIf(Is(Refunded)))
  }

  /** ... and the units and cents: plain sums over the items of those returns. */
  ghost predicate SumsAddUp(records: seq<Return>, t: Totals) {
    && t.inProgressUnits == Over(records, SumIf(Progressing(), Quantity()))
    && t.pendingRefundCents == Over(records, SumIf(Progressing(), Calculated()))
    && t.physicallyReturnedUnits == Over(records, SumIf(Back(), Quantity()))
    && t.awaitingMarkingCents == Over(records, SumIf(Is(Received), Calculated()))
    && t.markedUnits == Over(records, SumIf(Is(Refunded), Quantity()))
    && t.markedRefundCents == Over(records, SumIf(Is(Refunded), Paid()))
  }

  lemma {:induction false} FoldAddsUp(records: seq<Return>)
    ensures CountsAddUp(records, Fold(records)) && SumsAddUp(records, Fold(records))
  {
    if records != [] {
      var n := |records| - 1;
      FoldAddsUp(records[..n]);
      TurnCounts(records, n, Fold(records[..n]));
      TurnSums(records, n, Fold(records[..n]));
    }
  }

  lemma TurnCounts(records: seq<Return>, n: nat, t: Totals)
    requires n + 1 == |records| && CountsAddUp(records[..n], t)
    ensures CountsAddUp(records, AddReturn(t, records[n]))
  {
    CountsSnoc(records, n);
  }

  lemma TurnSums(records: seq<Return>, n: nat, t: Totals)
    requires n + 1 == |records| && SumsAddUp(records[..n], t)
    ensures SumsAddUp(records, AddReturn(t, records[n]))
  {
    SumsSnoc(records, n);
    ItemTotals(records[n].status, records[n].items);
  }

  lemma CountsSnoc(records: seq<Return>, n: nat)
    requires n + 1 == |records|
    ensures Over(records, CountIf(Open())) == Over(records[..n], CountIf(Open())) + CountIf(Open())(records[n])
    ensures Over(records, CountIf(Progressing()))
      == Over(records[..n], CountIf(Progressing())) + CountIf(Progressing())(records[n])
    ensures forall s :: Over(records, CountIf(Is(s))) == Over(records[..n], CountIf(Is(s))) + CountIf(Is(s))(records[n])
  {
    OverSnoc(records, n, CountIf(Open()));
    OverSnoc(records, n, CountIf(Progressing()));
    forall s ensures Over(records, CountIf(Is(s))) == Over(records[..n], CountIf(Is(s))) + CountIf(Is(s))(records[n]) {
      OverSnoc(records, n, CountIf(Is(s)));
    }
  }

  lemma SumsSnoc(records: seq<Return>, n: nat)
    requires n + 1 == |records|
    ensures forall p, f ::
      Over(records, SumIf(p, f)) == Over(records[..n], SumIf(p, f)) + SumIf(p, f)(records[n])
  {
    forall p, f ensures Over(records, SumIf(p, f)) == Over(records[..n], SumIf(p, f)) + SumIf(p, f)(records[n]) {
      OverSnoc(records, n, SumIf(p, f));
    }
  }

  lemma {:induction false} CountPositive(records: seq<Return>, p: Filter)
    ensures Over(records, CountIf(p)) >= 0 && (Over(records, CountIf(p)) > 0 <==> SomeReturn(records, p))
  {
    if records != [] {
      var n := |records| - 1;
      CountPositive(records[..n], p);
      OverSnoc(records, n, CountIf(p));
      Extends(records, n, p);
    }
  }

  lemma {:induction false} OwedAddsUp(goodwill: seq<Goodwill>)
    ensures |Owed(goodwill)| == Sum(Map((g: Goodwill) => if g.owed then 1 else 0, goodwill))
    ensures Sum(Owed(goodwill)) == Sum(Map((g: Goodwill) => if g.owed then g.amountCents else 0, goodwill))
  {
    if goodwill != [] {
      var one, cents := (g: Goodwill) => if g.owed then 1 else 0, (g: Goodwill) => if g.owed then g.amountCents else 0;
      OwedAddsUp(goodwill[1..]);
      assert goodwill == [goodwill[0]] + goodwill[1..];
      OwedCons(goodwill[0], goodwill[1..]);
      assert Map(one, goodwill) == [one(goodwill[0])] + Map(one, goodwill[1..]);
      assert Map(cents, goodwill) == [cents(goodwill[0])] + Map(cents, goodwill[1..]);
    }
  }

  /** What the return label says: goods that came back, all or some, go before requests still open. */
  lemma ReturnLabelMeans(d: Details)
    ensures var shown := DeriveIndicators(Summarize(d)).returnStatus;
      var back, ordered := Over(d.records, SumIf(Back(), Quantity())), Sum(d.quantities);
      && (shown == FullyReturned <==> back > 0 && back >= ordered)
      && (shown == PartiallyReturned <==> 0 < back < ordered)
      && (shown == ReturnInProgress <==> back <= 0 && SomeReturn(d.records, Progressing()))
      && (shown == NothingReturned <==> back <= 0 && !SomeReturn(d.records, Progressing()))
    ensures DeriveIndicators(Summarize(d)).hasReturn <==> SomeReturn(d.records, Open())
  {
    FoldAddsUp(d.records);
    CountPositive(d.records, Progressing());
    CountPositive(d.records, Open());
  }

  /** What is due: the received returns not marked yet and the goodwill owed, counted and in cents. */
  lemma DueMeans(d: Details)
    ensures var i := DeriveIndicators(Summarize(d));
      && i.dueCount == Over(d.records, CountIf(Is(Received)))
        + Sum(Map((g: Goodwill) => if g.owed then 1 else 0, d.goodwill))
      && i.dueCents == Over(d.records, SumIf(Is(Received), Calculated()))
        + Sum(Map((g: Goodwill) => if g.owed then g.amountCents else 0, d.goodwill))
  {
    FoldAddsUp(d.records);
    OwedAddsUp(d.goodwill);
  }

  /** All the ordered units are on marked returns and no other return is open. */
  ghost predicate AllUnitsMarked(d: Details) {
    && 0 < Sum(d.quantities) <= Over(d.records, SumIf(Is(Refunded), Quantity()))
    && !SomeReturn(d.records, Is(Received)) && !SomeReturn(d.records, Progressing())
  }

  /** The refund label: nothing, waiting, or marked; in full when the marked cents reach what the goods
      cost, or for goods that cost nothing when all their units are on marked returns. */
  lemma RefundLabelMeans(d: Details)
    ensures var shown, cost := DeriveIndicators(Summarize(d)).refundStatus, d.subtotalCents - d.discountCents;
      var marked := SomeReturn(d.records, Is(Refunded));
      var full := if cost > 0 then Over(d.records, SumIf(Is(Refunded), Paid())) >= cost else AllUnitsMarked(d);
      && (shown == FullyMarked <==> marked && full) && (shown == PartiallyMarked <==> marked && !full)
      && (shown == AwaitingMarking <==> !marked && SomeReturn(d.records, Is(Received)))
      && (shown == NothingMarked <==> !marked && !SomeReturn(d.records, Is(Received)))
  {
    FoldAddsUp(d.records);
    CountPositive(d.records, Progressing());
    CountPositive(d.records, Is(Refunded));
    CountPositive(d.records, Is(Received));
  }
}
