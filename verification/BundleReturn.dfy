/** Refunds of bundle purchases (backend/src/lib/bundle-return-pricing.ts): kept units are
    regrouped into as many complete recipes as they allow, and the refund is what that
    costs less than before. */
module BundleReturn {
  import opened Common
  import opened BundleMath
  import opened RefundAllocation

  datatype BoughtComponent = BoughtComponent(orderItemID: int, quantity: int, requiredQuantity: int,
                                             individualPriceCents: int)

  datatype Purchase = Purchase(instanceCount: int, flatPriceCents: int, originalNetCents: int,
                               components: seq<BoughtComponent>)

  datatype Request = Request(orderItemID: int, quantity: int)

  datatype Allocation = Allocation(orderItemID: int, quantity: int, refundCents: int)

  datatype Calculation = Calculation(beforeKept: map<int, int>, kept: map<int, int>, beforeInstanceCount: int,
                                     keptInstanceCount: int,
                                     keptNetCents: int, lostDiscountCents: int, cumulativeRefundCents: int,
                                     previousRefundCents: int, refundCents: int, allocations: seq<Allocation>)

  // --- The purchase record ----------------------------------------------------------

  function ComponentIds(components: seq<BoughtComponent>): seq<int> {
    Map((c: BoughtComponent) => c.orderItemID, components)
  }

  function RequestIds(requested: seq<Request>): seq<int> { Map((r: Request) => r.orderItemID, requested) }

  function At(m: map<int, int>, id: int): int { if id in m then m[id] else 0 }

  /** The components with the units of each that are in `kept`. */
  function Left(components: seq<BoughtComponent>, kept: map<int, int>): (r: seq<Item>)
    ensures |r| == |components|
    ensures forall i :: 0 <= i < |r| ==>
      r[i].have == At(kept, components[i].orderItemID) && r[i].need == components[i].requiredQuantity
      && r[i].price == components[i].individualPriceCents
  {
    seq(|components|, i requires 0 <= i < |components| =>
      Item(At(kept, components[i].orderItemID), components[i].requiredQuantity, components[i].individualPriceCents))
  }

  function Bought(components: seq<BoughtComponent>): (r: seq<Item>)
    ensures |r| == |components|
    ensures forall i :: 0 <= i < |r| ==>
      r[i] == Item(components[i].quantity, components[i].requiredQuantity, components[i].individualPriceCents)
  {
    seq(|components|, i requires 0 <= i < |components| =>
      Item(components[i].quantity, components[i].requiredQuantity, components[i].individualPriceCents))
  }

  predicate ComponentsValid(p: Purchase) {
    && |p.components| >= 2
    && Distinct(ComponentIds(p.components))
    && forall i :: 0 <= i < |p.components| ==>
      p.components[i].requiredQuantity >= 1 && p.components[i].individualPriceCents >= 0
  }

  /** The stored amounts reconcile: whole recipes at the flat price, the rest at separate
      prices, within the bounds, and with as many instances as the units allow. */
  predicate PurchaseValid(p: Purchase) {
    && ComponentsValid(p)
    && p.instanceCount >= 1 && p.flatPriceCents > 0 && p.originalNetCents >= 0
    && (forall i :: 0 <= i < |p.components| ==>
      p.components[i].quantity >= p.components[i].requiredQuantity * p.instanceCount)
    && PlanCents(Bought(p.components), p.instanceCount, p.flatPriceCents) == p.originalNetCents
    && InBounds(p.flatPriceCents, Bought(p.components))
    && p.instanceCount == Instances(Bought(p.components))
  }

  function FindComponent(components: seq<BoughtComponent>, id: int): BoughtComponent
    requires id in ComponentIds(components)
  {
    if components[0].orderItemID == id then components[0]
    else
      assert ComponentIds(components)[1..] == ComponentIds(components[1..]);
      FindComponent(components[1..], id)
  }

  function KeptAfter(components: seq<BoughtComponent>, returned: map<int, int>): map<int, int> {
    map id | id in ComponentIds(components) :: FindComponent(components, id).quantity - At(returned, id)
  }

  predicate KeptValid(components: seq<BoughtComponent>, kept: map<int, int>) {
    forall i :: 0 <= i < |components| ==> 0 <= At(kept, components[i].orderItemID) <= components[i].quantity
  }

  function Count(p: Purchase, kept: map<int, int>): int
    requires ComponentsValid(p)
  {
    Min(p.instanceCount, Instances(Left(p.components, kept)))
  }

  function Cost(p: Purchase, kept: map<int, int>): int
    requires ComponentsValid(p)
  {
    PlanCents(Left(p.components, kept), Count(p, kept), p.flatPriceCents)
  }

  // --- The requested units ----------------------------------------------------------

  predicate Takes(kept: map<int, int>, r: Request) {
    r.orderItemID in kept && 1 <= r.quantity <= kept[r.orderItemID]
  }

  /** Every request taken out of the kept units in turn, unless one does not fit. */
  function Take(kept: map<int, int>, requested: seq<Request>): Result<map<int, int>> {
    if requested == [] then Ok(kept)
    else if !Takes(kept, requested[0]) then Err(Conflict)
    else
      var r := requested[0];
      Take(kept[r.orderItemID := kept[r.orderItemID] - r.quantity], requested[1..])
  }

  /** All units of one line among the requests. */
  function Asked(requested: seq<Request>, id: int): int {
    if requested == [] then 0
    else (if requested[0].orderItemID == id then requested[0].quantity else 0) + Asked(requested[1..], id)
  }

  predicate Listed(kept: map<int, int>, requested: seq<Request>) {
    forall i :: 0 <= i < |requested| ==> requested[i].orderItemID in kept && requested[i].quantity >= 1
  }

  function PriceOf(components: seq<BoughtComponent>, id: int): int {
    if id in ComponentIds(components) then FindComponent(components, id).individualPriceCents else 0
  }

  function RefundLineOf(components: seq<BoughtComponent>): Request -> RefundLine {
    (r: Request) => RefundLine(r.orderItemID, r.quantity * PriceOf(components, r.orderItemID), r.quantity)
  }

  function RefundLines(components: seq<BoughtComponent>, requested: seq<Request>): (r: seq<RefundLine>)
    requires Distinct(RequestIds(requested))
    ensures DistinctIds(r) && |r| == |requested|
  {
    var r := Map(RefundLineOf(components), requested);
    assert forall i :: 0 <= i < |r| ==> r[i].id == RequestIds(requested)[i];
    r
  }

  /** `allocated.find((a) => a.id === id)!.cents` */
  function FindShare(shares: seq<RefundShare>, id: int): int {
    if shares == [] then 0 else if shares[0].id == id then shares[0].cents else FindShare(shares[1..], id)
  }

  function Allocations(requested: seq<Request>, shares: seq<RefundShare>): seq<Allocation> {
    Map((r: Request) => Allocation(r.orderItemID, r.quantity, FindShare(shares, r.orderItemID)), requested)
  }

  // --- The calculation ---------------------------------------------------------------

  /** What the checks before the subtraction accept. */
  predicate Accepts(p: Purchase, returned: map<int, int>, requested: seq<Request>, previous: int) {
    && PurchaseValid(p)
    && 0 <= previous <= p.originalNetCents
    && requested != [] && Distinct(RequestIds(requested))
    && KeptValid(p.components, KeptAfter(p.components, returned))
  }

  function Cumulative(p: Purchase, kept: map<int, int>): int
    requires ComponentsValid(p)
  {
    Max(0, Min(p.originalNetCents, p.originalNetCents - Cost(p, kept)))
  }

  function RefundCents(p: Purchase, kept: map<int, int>, previous: int): int
    requires ComponentsValid(p)
  {
    Max(0, Cumulative(p, kept) - previous)
  }

  /** The discount of the recipes that the kept units no longer complete. */
  function LostDiscount(p: Purchase, kept: map<int, int>): int
    requires ComponentsValid(p)
  {
    (p.instanceCount - Count(p, kept)) * (FullCents(Left(p.components, kept)) - p.flatPriceCents)
  }

  function Report(p: Purchase, before: map<int, int>, kept: map<int, int>, previous: int,
                  allocations: seq<Allocation>): Calculation
    requires ComponentsValid(p)
  {
    Calculation(before, kept, Count(p, before), Count(p, kept), Cost(p, kept), LostDiscount(p, kept),
      Cumulative(p, kept), previous, RefundCents(p, kept, previous), allocations)
  }

  /** The history reconciles: earlier refunds are the drop in what the kept units cost. */
  predicate Reconciled(p: Purchase, before: map<int, int>, previous: int)
    requires ComponentsValid(p)
  {
    previous == Max(0, p.originalNetCents - Cost(p, before))
  }

  /** The answer once the kept units before and after are known. */
  function Answer(p: Purchase, before: map<int, int>, kept: map<int, int>, requested: seq<Request>,
                  previous: int): Result<Calculation>
    requires ComponentsValid(p) && Distinct(RequestIds(requested))
  {
    if !Reconciled(p, before, previous) || Cost(p, kept) < 0 then Err(Conflict)
    else
      match AllocateRefund(RefundCents(p, kept, previous), RefundLines(p.components, requested))
      case Err(e) => Err(e)
      case Ok(shares) => Ok(Report(p, before, kept, previous, Allocations(requested, shares)))
  }

  function BundleRefund(p: Purchase, returned: map<int, int>, requested: seq<Request>,
                        previous: int): Result<Calculation> {
    if !Accepts(p, returned, requested, previous) then Err(Conflict)
    else
      var before := KeptAfter(p.components, returned);
      match Take(before, requested)
      case Err(e) => Err(e)
      case Ok(kept) => Answer(p, before, kept, requested, previous)
  }

  /** The loop over the requests, taking each out of the kept units. */
  method TakeRequested(before: map<int, int>, requested: seq<Request>) returns (r: Result<map<int, int>>)
    ensures r == Take(before, requested)
  {
    var kept := before;
    for i := 0 to |requested|
      invariant Take(before, requested) == Take(kept, requested[i..])
    {
      var request := requested[i];
      assert requested[i..][0] == request && requested[i..][1..] == requested[i + 1..];
      if request.orderItemID !in kept || request.quantity < 1 || request.quantity > kept[request.orderItemID] {
        return Err(Conflict);
      }
      kept := kept[request.orderItemID := kept[request.orderItemID] - request.quantity];
    }
    r := Ok(kept);
  }

  method Conclude(p: Purchase, before: map<int, int>, kept: map<int, int>, requested: seq<Request>, previous: int)
    returns (r: Result<Calculation>)
    requires ComponentsValid(p) && Distinct(RequestIds(requested))
    ensures r == Answer(p, before, kept, requested, previous)
  {
    if !Reconciled(p, before, previous) || Cost(p, kept) < 0 { return Err(Conflict); }
    var split := AllocateRefundCents(RefundCents(p, kept, previous), RefundLines(p.components, requested));
    match split {
      case Err(e) => r := Err(e);
      case Ok(shares) => r := Ok(Report(p, before, kept, previous, Allocations(requested, shares)));
    }
  }

  method CalculateBundleRefund(p: Purchase, returned: map<int, int>, requested: seq<Request>, previous: int)
    returns (r: Result<Calculation>)
    ensures r == BundleRefund(p, returned, requested, previous)
  {
    if !Accepts(p, returned, requested, previous) { return Err(Conflict); }
    var before := KeptAfter(p.components, returned);
    var kept := TakeRequested(before, requested);
    match kept {
      case Err(e) => r := Err(e);
      case Ok(left) => r := Conclude(p, before, left, requested, previous);
    }
  }

  // --- Taking units ------------------------------------------------------------------

  lemma {:induction false} AskedNonNegative(kept: map<int, int>, requested: seq<Request>, id: int)
    requires Listed(kept, requested)
    ensures Asked(requested, id) >= 0
    ensures id !in kept ==> Asked(requested, id) == 0
    ensures (exists i :: 0 <= i < |requested| && requested[i].orderItemID == id) ==> Asked(requested, id) >= 1
  {
    if requested != [] { AskedNonNegative(kept, requested[1..], id); }
  }

  /** What is left once the requests have been taken. */
  lemma {:induction false} TakeLeaves(kept: map<int, int>, requested: seq<Request>)
    requires Take(kept, requested).Ok?
    ensures Take(kept, requested).value == map id | id in kept :: kept[id] - Asked(requested, id)
  {
    if requested != [] {
      var r, rest := requested[0], requested[1..];
      var less := kept[r.orderItemID := kept[r.orderItemID] - r.quantity];
      TakeLeaves(less, rest);
      assert less.Keys == kept.Keys;
    }
  }

  /** Requests fit one after the other exactly when their totals fit. */
  lemma {:induction false} TakeWorks(kept: map<int, int>, requested: seq<Request>)
    requires forall id :: id in kept ==> kept[id] >= 0
    ensures Take(kept, requested).Ok?
      <==> Listed(kept, requested) && forall id :: id in kept ==> Asked(requested, id) <= kept[id]
  {
    if requested != [] {
      var r, rest := requested[0], requested[1..];
      if Takes(kept, r) {
        var less := kept[r.orderItemID := kept[r.orderItemID] - r.quantity];
        TakeWorks(less, rest);
        assert less.Keys == kept.Keys;
        assert Listed(kept, requested) <==> Listed(less, rest);
        forall id | id in kept ensures Asked(requested, id) <= kept[id] <==> Asked(rest, id) <= less[id] {}
      } else if Listed(kept, requested) {
        AskedNonNegative(kept, rest, r.orderItemID);
      }
    }
  }

  lemma {:induction false} FindsComponent(components: seq<BoughtComponent>, i: int)
    requires Distinct(ComponentIds(components)) && 0 <= i < |components|
    ensures components[i].orderItemID in ComponentIds(components)
    ensures FindComponent(components, components[i].orderItemID) == components[i]
  {
    var ids := ComponentIds(components);
    assert ids[i] == components[i].orderItemID;
    if i > 0 {
      assert ids[1..] == ComponentIds(components[1..]) && ids[0] != ids[i];
      FindsComponent(components[1..], i - 1);
    }
  }

  /** Where an id comes from. */
  lemma ComponentOf(components: seq<BoughtComponent>, id: int) returns (i: nat)
    requires Distinct(ComponentIds(components)) && id in ComponentIds(components)
    ensures i < |components| && components[i].orderItemID == id && FindComponent(components, id) == components[i]
  {
    i :| 0 <= i < |components| && ComponentIds(components)[i] == id;
    FindsComponent(components, i);
  }

  lemma KeptAt(components: seq<BoughtComponent>, returned: map<int, int>, i: int)
    requires Distinct(ComponentIds(components)) && 0 <= i < |components|
    ensures components[i].orderItemID in KeptAfter(components, returned)
    ensures At(KeptAfter(components, returned), components[i].orderItemID)
      == components[i].quantity - At(returned, components[i].orderItemID)
  {
    FindsComponent(components, i);
  }

  // --- What regrouping kept units costs ----------------------------------------------

  lemma LeftWellformed(p: Purchase, kept: map<int, int>)
    requires PurchaseValid(p) && KeptValid(p.components, kept)
    ensures Wellformed(Left(p.components, kept)) && Wellformed(Bought(p.components))
    ensures Grows(Left(p.components, kept), Bought(p.components))
    ensures InBounds(p.flatPriceCents, Left(p.components, kept))
    ensures FullCents(Left(p.components, kept)) == FullCents(Bought(p.components)) > p.flatPriceCents
    ensures Count(p, kept) == Instances(Left(p.components, kept)) >= 0
  {
    var left, bought := Left(p.components, kept), Bought(p.components);
    forall i | 0 <= i < |left| ensures left[i].have >= 0 && left[i].need >= 1 && left[i].price >= 0 {
      assert 0 <= At(kept, p.components[i].orderItemID);
    }
    forall i | 0 <= i < |left|
      ensures left[i].need == bought[i].need && left[i].price == bought[i].price && left[i].have <= bought[i].have
    {
      assert At(kept, p.components[i].orderItemID) <= p.components[i].quantity;
    }
    GrowsKeepsRecipe(left, bought);
    InstancesGrow(left, bought);
    InstancesAreLargest(left, 0);
  }

  /** The kept units cost the least any grouping into recipes and singles would. */
  lemma KeptCostIsLeast(p: Purchase, kept: map<int, int>)
    requires PurchaseValid(p) && KeptValid(p.components, kept)
    ensures Fits(Left(p.components, kept), Count(p, kept))
    ensures forall n :: Fits(Left(p.components, kept), n) ==>
      Cost(p, kept) <= PlanCents(Left(p.components, kept), n, p.flatPriceCents)
  {
    var left := Left(p.components, kept);
    LeftWellformed(p, kept);
    InstancesAreLargest(left, Count(p, kept));
    forall n | Fits(left, n) ensures Cost(p, kept) <= PlanCents(left, n, p.flatPriceCents) {
      BestPlan(left, n, p.flatPriceCents);
    }
  }

  lemma {:induction false} SeparateNonNegative(items: seq<Item>)
    requires forall i :: 0 <= i < |items| ==> items[i].have >= 0 && items[i].price >= 0
    ensures SeparateCents(items) >= 0
  {
    if items != [] {
      SeparateNonNegative(items[1..]);
      MulOrder(0, items[0].have, items[0].price);
    }
  }

  lemma {:induction false} NothingLeft(items: seq<Item>)
    requires Wellformed(items) && forall i :: 0 <= i < |items| ==> items[i].have == 0
    ensures SeparateCents(items) == 0 && Instances(items) == 0
  {
    if |items| > 1 { NothingLeft(items[1..]); }
  }

  lemma {:induction false} PlanNonNegative(items: seq<Item>, n: int, priceCents: int)
    requires Fits(items, n) && priceCents >= 0 && forall i :: 0 <= i < |items| ==> items[i].price >= 0
    ensures PlanCents(items, n, priceCents) >= 0
  {
    MulOrder(0, n, priceCents);
    SurplusNonNegative(items, n);
  }

  lemma {:induction false} SurplusNonNegative(items: seq<Item>, n: int)
    requires Fits(items, n) && forall i :: 0 <= i < |items| ==> items[i].price >= 0
    ensures SurplusCents(items, n) >= 0
  {
    if items != [] {
      MulOrder(0, items[0].have - n * items[0].need, items[0].price);
      SurplusNonNegative(items[1..], n);
    }
  }

  /** Keeping less always costs less: strictly, and never below zero. */
  lemma KeepingLessCostsLess(p: Purchase, less: map<int, int>, more: map<int, int>)
    requires PurchaseValid(p) && KeptValid(p.components, less) && KeptValid(p.components, more)
    requires forall i :: 0 <= i < |p.components| ==>
      At(less, p.components[i].orderItemID) <= At(more, p.components[i].orderItemID)
    ensures 0 <= Cost(p, less) <= Cost(p, more) <= p.originalNetCents
    ensures Left(p.components, less) != Left(p.components, more) ==> Cost(p, less) < Cost(p, more)
  {
    var a, b := Left(p.components, less), Left(p.components, more);
    LeftWellformed(p, less);
    LeftWellformed(p, more);
    assert Grows(a, b);
    BestPlanMonotone(a, b, p.flatPriceCents);
    BestPlanMonotone(b, Bought(p.components), p.flatPriceCents);
    InstancesAreLargest(a, Count(p, less));
    PlanNonNegative(a, Count(p, less), p.flatPriceCents);
  }

  lemma KeepingNothingCostsNothing(p: Purchase, kept: map<int, int>)
    requires PurchaseValid(p) && KeptValid(p.components, kept)
    requires forall i :: 0 <= i < |p.components| ==> At(kept, p.components[i].orderItemID) == 0
    ensures Cost(p, kept) == 0
  {
    LeftWellformed(p, kept);
    NothingLeft(Left(p.components, kept));
    PlanLinear(Left(p.components, kept), 0, p.flatPriceCents);
  }

  // --- One call -----------------------------------------------------------------------

  /** What a caller can check about a request. */
  ghost predicate Fitting(p: Purchase, returned: map<int, int>, requested: seq<Request>) {
    && requested != [] && Distinct(RequestIds(requested))
    && Listed(KeptAfter(p.components, returned), requested)
    && forall id :: id in KeptAfter(p.components, returned) ==>
      Asked(requested, id) <= KeptAfter(p.components, returned)[id]
  }

  lemma KeptNonNegative(p: Purchase, returned: map<int, int>)
    requires PurchaseValid(p) && KeptValid(p.components, KeptAfter(p.components, returned))
    ensures forall id :: id in KeptAfter(p.components, returned) ==> KeptAfter(p.components, returned)[id] >= 0
  {
    var kept := KeptAfter(p.components, returned);
    forall id | id in kept ensures kept[id] >= 0 {
      var i := ComponentOf(p.components, id);
      assert At(kept, p.components[i].orderItemID) >= 0;
    }
  }

  /** After a fitting request: fewer units of some component, more of none. */
  lemma TakenIsLess(p: Purchase, returned: map<int, int>, requested: seq<Request>)
    requires PurchaseValid(p) && KeptValid(p.components, KeptAfter(p.components, returned))
    requires Fitting(p, returned, requested)
    ensures Take(KeptAfter(p.components, returned), requested).Ok?
    ensures var before, kept := KeptAfter(p.components, returned),
      Take(KeptAfter(p.components, returned), requested).value;
      && kept == (map id | id in before :: before[id] - Asked(requested, id))
      && KeptValid(p.components, kept)
      && (forall i :: 0 <= i < |p.components| ==>
        At(kept, p.components[i].orderItemID) <= At(before, p.components[i].orderItemID))
      && Left(p.components, kept) != Left(p.components, before)
  {
    var before := KeptAfter(p.components, returned);
    KeptNonNegative(p, returned);
    TakeWorks(before, requested);
    TakeLeaves(before, requested);
    var kept := Take(before, requested).value;
    forall i | 0 <= i < |p.components|
      ensures 0 <= At(kept, p.components[i].orderItemID) <= At(before, p.components[i].orderItemID)
      ensures At(before, p.components[i].orderItemID) <= p.components[i].quantity
    {
      KeptAt(p.components, returned, i);
      AskedNonNegative(before, requested, p.components[i].orderItemID);
    }
    var id := requested[0].orderItemID;
    AskedNonNegative(before, requested, id);
    var i := ComponentOf(p.components, id);
    assert Left(p.components, kept)[i].have < Left(p.components, before)[i].have;
  }

  lemma RefundLinesAllowed(p: Purchase, requested: seq<Request>, amount: int)
    requires PurchaseValid(p) && requested != [] && Distinct(RequestIds(requested)) && amount >= 0
    requires forall i :: 0 <= i < |requested| ==> requested[i].quantity >= 1
    ensures !Refusable(amount, RefundLines(p.components, requested))
  {
    var lines := RefundLines(p.components, requested);
    forall i | 0 <= i < |lines| ensures lines[i].calculatedCents >= 0 && lines[i].quantity >= 1 {
      assert lines[i] == RefundLineOf(p.components)(requested[i]);
      if requested[i].orderItemID in ComponentIds(p.components) {
        var k := ComponentOf(p.components, requested[i].orderItemID);
        MulOrder(0, requested[i].quantity, p.components[k].individualPriceCents);
      }
    }
  }

  /** With a reconciled history a call is refused exactly when the request does not fit,
      and otherwise refunds a strictly positive amount: the drop in what the kept units cost. */
  lemma CallWorks(p: Purchase, returned: map<int, int>, requested: seq<Request>, previous: int)
    requires PurchaseValid(p) && KeptValid(p.components, KeptAfter(p.components, returned))
    requires previous == p.originalNetCents - Cost(p, KeptAfter(p.components, returned))
    ensures BundleRefund(p, returned, requested, previous).Ok? <==> Fitting(p, returned, requested)
    ensures BundleRefund(p, returned, requested, previous).Ok? ==>
      var c := BundleRefund(p, returned, requested, previous).value;
      && c.refundCents == Cost(p, c.beforeKept) - Cost(p, c.kept) > 0
      && c.cumulativeRefundCents == previous + c.refundCents == p.originalNetCents - Cost(p, c.kept)
      && c.keptNetCents == Cost(p, c.kept) && c.keptInstanceCount == Count(p, c.kept)
      && c.beforeKept == KeptAfter(p.components, returned)
      && c.kept == (map id | id in c.beforeKept :: c.beforeKept[id] - Asked(requested, id))
      && c.previousRefundCents == previous
  {
    var before := KeptAfter(p.components, returned);
    KeptNonNegative(p, returned);
    TakeWorks(before, requested);
    KeepingLessCostsLess(p, before, before);
    if Fitting(p, returned, requested) {
      TakenIsLess(p, returned, requested);
      var kept := Take(before, requested).value;
      KeepingLessCostsLess(p, kept, before);
      RefundLinesAllowed(p, requested, Cost(p, before) - Cost(p, kept));
    }
  }

  /** Conversely, only reconciled histories are accepted. */
  lemma OnlyReconciledAccepted(p: Purchase, returned: map<int, int>, requested: seq<Request>, previous: int)
    requires BundleRefund(p, returned, requested, previous).Ok?
    ensures PurchaseValid(p) && KeptValid(p.components, KeptAfter(p.components, returned))
    ensures Fitting(p, returned, requested)
    ensures previous == p.originalNetCents - Cost(p, KeptAfter(p.components, returned))
  {
    var before := KeptAfter(p.components, returned);
    KeptNonNegative(p, returned);
    TakeWorks(before, requested);
    KeepingLessCostsLess(p, before, before);
  }

  // --- Value of returned units, lost discount, shares ----------------------------------

  /** Separate price of the units that are no longer kept. */
  function ReturnedValue(components: seq<BoughtComponent>, kept: map<int, int>): int {
    if components == [] then 0
    else
      var c := components[0];
      (c.quantity - At(kept, c.orderItemID)) * c.individualPriceCents + ReturnedValue(components[1..], kept)
  }

  lemma {:induction false} ReturnedValueIs(components: seq<BoughtComponent>, kept: map<int, int>)
    ensures ReturnedValue(components, kept) == SeparateCents(Bought(components)) - SeparateCents(Left(components, kept))
  {
    if components != [] {
      ReturnedValueIs(components[1..], kept);
      assert Bought(components)[1..] == Bought(components[1..]);
      assert Left(components, kept)[1..] == Left(components[1..], kept);
      Spread(components[0].quantity, At(kept, components[0].orderItemID), components[0].individualPriceCents);
    }
  }

  lemma Spread(a: int, b: int, c: int)
    ensures (a - b) * c == a * c - b * c
  {
  }

  lemma CostGap(p: Purchase, kept: map<int, int>)
    requires PurchaseValid(p) && KeptValid(p.components, kept)
    ensures p.originalNetCents - Cost(p, kept) == ReturnedValue(p.components, kept) - LostDiscount(p, kept)
    ensures LostDiscount(p, kept) >= 0
  {
    LeftWellformed(p, kept);
    PlanLinear(Left(p.components, kept), Count(p, kept), p.flatPriceCents);
    PlanLinear(Bought(p.components), p.instanceCount, p.flatPriceCents);
    ReturnedValueIs(p.components, kept);
    var saving := FullCents(Bought(p.components)) - p.flatPriceCents;
    Spread(p.instanceCount, Count(p, kept), saving);
    MulOrder(0, p.instanceCount - Count(p, kept), saving);
  }

  /** The running refund is the separate price of everything returned, less the discount
      that broken-up instances no longer earn. */
  lemma RefundIsValueLessLostDiscount(p: Purchase, returned: map<int, int>, requested: seq<Request>, previous: int)
    requires BundleRefund(p, returned, requested, previous).Ok?
    ensures var c := BundleRefund(p, returned, requested, previous).value;
      && c.cumulativeRefundCents == ReturnedValue(p.components, c.kept) - c.lostDiscountCents
      && c.lostDiscountCents >= 0
  {
    OnlyReconciledAccepted(p, returned, requested, previous);
    CallWorks(p, returned, requested, previous);
    TakenIsLess(p, returned, requested);
    CostGap(p, BundleRefund(p, returned, requested, previous).value.kept);
  }

  lemma {:induction false} FindsShare(shares: seq<RefundShare>, i: int)
    requires 0 <= i < |shares| && forall j :: 0 <= j < i ==> shares[j].id != shares[i].id
    ensures FindShare(shares, shares[i].id) == shares[i].cents
  {
    if i > 0 {
      assert shares[0].id != shares[i].id;
      FindsShare(shares[1..], i - 1);
    }
  }

  /** The line shares add up to the group refund, and none is negative. */
  lemma AllocationsExact(p: Purchase, returned: map<int, int>, requested: seq<Request>, previous: int)
    requires BundleRefund(p, returned, requested, previous).Ok?
    ensures var c := BundleRefund(p, returned, requested, previous).value;
      && |c.allocations| == |requested|
      && Sum(Map((a: Allocation) => a.refundCents, c.allocations)) == c.refundCents
      && forall i :: 0 <= i < |requested| ==>
        c.allocations[i].orderItemID == requested[i].orderItemID && c.allocations[i].quantity == requested[i].quantity
        && c.allocations[i].refundCents >= 0
  {
    var c := BundleRefund(p, returned, requested, previous).value;
    var lines := RefundLines(p.components, requested);
    RefundExact(c.refundCents, lines);
    var shares := AllocateRefund(c.refundCents, lines).value;
    var ids := RequestIds(requested);
    forall i | 0 <= i < |shares| ensures shares[i].id == ids[i] {
      assert shares[i].id == lines[i].id == requested[i].orderItemID;
    }
    forall i | 0 <= i < |requested| ensures c.allocations[i].refundCents == shares[i].cents >= 0 {
      assert requested[i].orderItemID == ids[i];
      forall j | 0 <= j < i ensures shares[j].id != shares[i].id { assert ids[j] != ids[i]; }
      FindsShare(shares, i);
    }
    assert Map((a: Allocation) => a.refundCents, c.allocations) == Map((s: RefundShare) => s.cents, shares);
  }

  // --- Whole histories ----------------------------------------------------------------

  /** Units of a line returned over all the batches. */
  function ReturnedOf(batches: seq<seq<Request>>, id: int): int {
    if batches == [] then 0 else ReturnedOf(batches[..|batches| - 1], id) + Asked(batches[|batches| - 1], id)
  }

  function ReturnedSoFar(p: Purchase, batches: seq<seq<Request>>): map<int, int> {
    map id | id in ComponentIds(p.components) :: ReturnedOf(batches, id)
  }

  /** Cents refunded by a history of calls, each given the returned units and the refunds of
      the earlier ones; an error as soon as one call refuses. */
  function Replay(p: Purchase, batches: seq<seq<Request>>): Result<int> {
    if batches == [] then Ok(0)
    else
      var earlier, last := batches[..|batches| - 1], batches[|batches| - 1];
      match Replay(p, earlier)
      case Err(e) => Err(e)
      case Ok(previous) =>
        match BundleRefund(p, ReturnedSoFar(p, earlier), last, previous)
        case Err(e) => Err(e)
        case Ok(c) => Ok(previous + c.refundCents)
  }

  /** A batch names each bought line at most once, and at least one unit of it. */
  ghost predicate Batch(p: Purchase, requested: seq<Request>) {
    && requested != [] && Distinct(RequestIds(requested))
    && forall i :: 0 <= i < |requested| ==>
      requested[i].orderItemID in ComponentIds(p.components) && requested[i].quantity >= 1
  }

  /** Whole histories a customer can ask for: never more of a line than was bought. */
  ghost predicate FittingHistory(p: Purchase, batches: seq<seq<Request>>) {
    && (forall i :: 0 <= i < |batches| ==> Batch(p, batches[i]))
    && forall i :: 0 <= i < |p.components| ==>
      ReturnedOf(batches, p.components[i].orderItemID) <= p.components[i].quantity
  }

  lemma BatchAsked(p: Purchase, requested: seq<Request>, id: int)
    requires Batch(p, requested)
    ensures Asked(requested, id) >= 0
  {
    AskedNonNegative(KeptAfter(p.components, map[]), requested, id);
  }

  lemma {:induction false} HistoryNonNegative(p: Purchase, batches: seq<seq<Request>>, id: int)
    requires forall i :: 0 <= i < |batches| ==> Batch(p, batches[i])
    ensures ReturnedOf(batches, id) >= 0
  {
    if batches != [] {
      HistoryNonNegative(p, batches[..|batches| - 1], id);
      BatchAsked(p, batches[|batches| - 1], id);
    }
  }

  lemma HistoryKept(p: Purchase, batches: seq<seq<Request>>)
    requires PurchaseValid(p) && FittingHistory(p, batches)
    ensures KeptValid(p.components, KeptAfter(p.components, ReturnedSoFar(p, batches)))
  {
    var returned := ReturnedSoFar(p, batches);
    forall i | 0 <= i < |p.components|
      ensures 0 <= At(KeptAfter(p.components, returned), p.components[i].orderItemID) <= p.components[i].quantity
    {
      KeptAt(p.components, returned, i);
      HistoryNonNegative(p, batches, p.components[i].orderItemID);
      assert ReturnedOf(batches, p.components[i].orderItemID) <= p.components[i].quantity;
    }
  }

  /** The next batch fits what is left exactly when the longer history fits what was bought. */
  lemma NextBatchFits(p: Purchase, earlier: seq<seq<Request>>, last: seq<Request>)
    requires PurchaseValid(p) && FittingHistory(p, earlier)
    ensures Fitting(p, ReturnedSoFar(p, earlier), last) <==> FittingHistory(p, earlier + [last])
  {
    var batches, kept := earlier + [last], KeptAfter(p.components, ReturnedSoFar(p, earlier));
    assert batches[..|batches| - 1] == earlier && batches[|batches| - 1] == last;
    assert Listed(kept, last) <==> forall i :: 0 <= i < |last| ==>
      last[i].orderItemID in ComponentIds(p.components) && last[i].quantity >= 1;
    forall i | 0 <= i < |p.components|
      ensures p.components[i].orderItemID in kept
      ensures kept[p.components[i].orderItemID]
        == p.components[i].quantity - ReturnedOf(earlier, p.components[i].orderItemID)
    {
      KeptAt(p.components, ReturnedSoFar(p, earlier), i);
    }
    if Fitting(p, ReturnedSoFar(p, earlier), last) {
      assert forall i :: 0 <= i < |p.components| ==>
        Asked(last, p.components[i].orderItemID) <= kept[p.components[i].orderItemID];
    }
    if FittingHistory(p, batches) {
      forall id | id in kept ensures Asked(last, id) <= kept[id] {
        var i := ComponentOf(p.components, id);
        assert ReturnedOf(batches, p.components[i].orderItemID) <= p.components[i].quantity;
      }
      assert Batch(p, batches[|earlier|]);
    }
  }

  lemma EarlierFits(p: Purchase, batches: seq<seq<Request>>)
    requires FittingHistory(p, batches) && batches != []
    ensures FittingHistory(p, batches[..|batches| - 1])
  {
    var earlier, last := batches[..|batches| - 1], batches[|batches| - 1];
    forall i | 0 <= i < |p.components|
      ensures ReturnedOf(earlier, p.components[i].orderItemID) <= p.components[i].quantity
    {
      BatchAsked(p, last, p.components[i].orderItemID);
      assert ReturnedOf(batches, p.components[i].orderItemID) <= p.components[i].quantity;
    }
  }

  lemma KeptAfterBatch(p: Purchase, earlier: seq<seq<Request>>, last: seq<Request>)
    ensures KeptAfter(p.components, ReturnedSoFar(p, earlier + [last]))
      == map id | id in KeptAfter(p.components, ReturnedSoFar(p, earlier)) ::
         KeptAfter(p.components, ReturnedSoFar(p, earlier))[id] - Asked(last, id)
  {
    var batches := earlier + [last];
    assert batches[..|batches| - 1] == earlier && batches[|batches| - 1] == last;
  }

  /** A history is accepted exactly when it never asks for more than was bought, and then
      the total refunded is what the customer paid less what the kept units cost: no order
      or batching of the returns shows in it. */
  lemma {:induction false} EveryHistoryReconciles(p: Purchase, batches: seq<seq<Request>>)
    requires PurchaseValid(p)
    ensures Replay(p, batches).Ok? <==> FittingHistory(p, batches)
    ensures FittingHistory(p, batches) ==> KeptValid(p.components, KeptAfter(p.components, ReturnedSoFar(p, batches)))
    ensures Replay(p, batches).Ok? ==>
      Replay(p, batches).value == p.originalNetCents - Cost(p, KeptAfter(p.components, ReturnedSoFar(p, batches)))
  {
    if batches == [] {
      forall i | 0 <= i < |p.components|
        ensures ReturnedOf([], p.components[i].orderItemID) <= p.components[i].quantity
      {
        MulOrder(0, p.instanceCount, p.components[i].requiredQuantity);
      }
      HistoryKept(p, []);
      NothingReturnedYet(p);
    } else {
      var earlier, last := batches[..|batches| - 1], batches[|batches| - 1];
      assert batches == earlier + [last];
      EveryHistoryReconciles(p, earlier);
      if FittingHistory(p, batches) { EarlierFits(p, batches); HistoryKept(p, batches); }
      if FittingHistory(p, earlier) {
        NextBatchFits(p, earlier, last);
        CallWorks(p, ReturnedSoFar(p, earlier), last, Replay(p, earlier).value);
        KeptAfterBatch(p, earlier, last);
      }
    }
  }

  lemma NothingReturnedYet(p: Purchase)
    requires PurchaseValid(p) && FittingHistory(p, [])
    ensures Cost(p, KeptAfter(p.components, ReturnedSoFar(p, []))) == p.originalNetCents
  {
    var kept := KeptAfter(p.components, ReturnedSoFar(p, []));
    HistoryKept(p, []);
    LeftWellformed(p, kept);
    forall i | 0 <= i < |p.components| ensures Left(p.components, kept)[i] == Bought(p.components)[i] {
      KeptAt(p.components, ReturnedSoFar(p, []), i);
    }
    assert Left(p.components, kept) == Bought(p.components);
  }

  /** Every further batch a customer can ask for is accepted and refunds something. */
  lemma EveryReturnRefunds(p: Purchase, batches: seq<seq<Request>>, last: seq<Request>)
    requires PurchaseValid(p) && FittingHistory(p, batches + [last])
    ensures Replay(p, batches).Ok? && Replay(p, batches + [last]).Ok?
    ensures Replay(p, batches).value < Replay(p, batches + [last]).value <= p.originalNetCents
  {
    var all := batches + [last];
    assert all[..|all| - 1] == batches;
    EarlierFits(p, all);
    EveryHistoryReconciles(p, batches);
    EveryHistoryReconciles(p, all);
    NextBatchFits(p, batches, last);
    CallWorks(p, ReturnedSoFar(p, batches), last, Replay(p, batches).value);
    var kept := KeptAfter(p.components, ReturnedSoFar(p, all));
    KeepingLessCostsLess(p, kept, kept);
  }

  /** The refund that reconciles with the units returned so far. */
  function RefundOwed(p: Purchase, returned: map<int, int>): int
    requires ComponentsValid(p)
  {
    p.originalNetCents - Cost(p, KeptAfter(p.components, returned))
  }

  lemma ReplayIs(p: Purchase, batches: seq<seq<Request>>, returned: map<int, int>)
    requires PurchaseValid(p) && FittingHistory(p, batches) && returned == ReturnedSoFar(p, batches)
    ensures Replay(p, batches) == Ok(RefundOwed(p, returned))
  {
    EveryHistoryReconciles(p, batches);
  }

  lemma SameReturns(p: Purchase, a: seq<seq<Request>>, b: seq<seq<Request>>)
    requires Distinct(ComponentIds(p.components))
    requires forall i :: 0 <= i < |p.components| ==>
      ReturnedOf(a, p.components[i].orderItemID) == ReturnedOf(b, p.components[i].orderItemID)
    ensures ReturnedSoFar(p, a) == ReturnedSoFar(p, b)
  {
    forall id | id in ComponentIds(p.components) ensures ReturnedOf(a, id) == ReturnedOf(b, id) {
      var i := ComponentOf(p.components, id);
    }
  }

  /** Two histories that return the same units refund the same, whatever their order and batching. */
  lemma OrderAndBatchingIrrelevant(p: Purchase, a: seq<seq<Request>>, b: seq<seq<Request>>)
    requires PurchaseValid(p) && FittingHistory(p, a) && FittingHistory(p, b)
    requires forall i :: 0 <= i < |p.components| ==>
      ReturnedOf(a, p.components[i].orderItemID) == ReturnedOf(b, p.components[i].orderItemID)
    ensures Replay(p, a) == Replay(p, b) && Replay(p, a).Ok?
  {
    SameReturns(p, a, b);
    ReplayIs(p, a, ReturnedSoFar(p, a));
    ReplayIs(p, b, ReturnedSoFar(p, a));
  }

  ghost predicate ReturnsAll(p: Purchase, batches: seq<seq<Request>>) {
    forall i :: 0 <= i < |p.components| ==> ReturnedOf(batches, p.components[i].orderItemID) == p.components[i].quantity
  }

  /** Returning everything refunds exactly what was paid, and nothing less does. */
  lemma FullReturnRefundsNet(p: Purchase, batches: seq<seq<Request>>)
    requires PurchaseValid(p) && FittingHistory(p, batches)
    ensures Replay(p, batches).Ok?
    ensures Replay(p, batches).value == p.originalNetCents <==> ReturnsAll(p, batches)
  {
    EveryHistoryReconciles(p, batches);
    var kept := KeptAfter(p.components, ReturnedSoFar(p, batches));
    forall i | 0 <= i < |p.components|
      ensures At(kept, p.components[i].orderItemID)
        == p.components[i].quantity - ReturnedOf(batches, p.components[i].orderItemID)
    {
      KeptAt(p.components, ReturnedSoFar(p, batches), i);
    }
    if ReturnsAll(p, batches) {
      KeepingNothingCostsNothing(p, kept);
    } else {
      var i :| 0 <= i < |p.components| && ReturnedOf(batches, p.components[i].orderItemID) != p.components[i].quantity;
      KeepingSomethingCosts(p, kept, i);
    }
  }

  lemma KeepingSomethingCosts(p: Purchase, kept: map<int, int>, i: int)
    requires PurchaseValid(p) && KeptValid(p.components, kept)
    requires 0 <= i < |p.components| && At(kept, p.components[i].orderItemID) > 0
    ensures Cost(p, kept) > 0
  {
    var none: map<int, int> := map[];
    assert KeptValid(p.components, none) by {
      forall k | 0 <= k < |p.components|
        ensures 0 <= At(none, p.components[k].orderItemID) <= p.components[k].quantity
      {
        assert At(kept, p.components[k].orderItemID) <= p.components[k].quantity;
      }
    }
    assert Left(p.components, none)[i] != Left(p.components, kept)[i];
    KeepingLessCostsLess(p, none, kept);
  }
}
