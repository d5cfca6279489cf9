/** What a bundle refund comes to, in the units a customer bought, gave back and keeps
    (backend/src/lib/bundle-return-pricing.ts:38-86). */
module RegroupedUnits {
  import opened Common
  import opened BundleMath
  import opened RefundAllocation
  import opened BundleReturn

  // --- Grouping units --------------------------------------------------------------------------

  /** What one recipe costs separately. */
  function RecipeTerms(p: Purchase): seq<int> {
    seq(|p.components|, i requires 0 <= i < |p.components| =>
      p.components[i].requiredQuantity * p.components[i].individualPriceCents)
  }

  function SingleTerms(p: Purchase, units: seq<int>, n: int): seq<int>
    requires |units| == |p.components|
  {
    seq(|units|, i requires 0 <= i < |units| =>
      (units[i] - n * p.components[i].requiredQuantity) * p.components[i].individualPriceCents)
  }

  /** Units as `n` recipes at the flat price and singles at their own. */
  function GroupCost(p: Purchase, units: seq<int>, n: int): int
    requires |units| == |p.components|
  {
    n * p.flatPriceCents + Sum(SingleTerms(p, units, n))
  }

  /** `n` recipes are all that the units allow, and no more than were bought. */
  ghost predicate Grouped(p: Purchase, units: seq<int>, n: int)
    requires |units| == |p.components|
  {
    && 0 <= n <= p.instanceCount
    && (forall i :: 0 <= i < |units| ==> n * p.components[i].requiredQuantity <= units[i])
    && (n == p.instanceCount
        || exists i :: 0 <= i < |units| && units[i] < (n + 1) * p.components[i].requiredQuantity)
  }

  function BoughtUnits(p: Purchase): seq<int> { Map((c: BoughtComponent) => c.quantity, p.components) }

  // --- The purchase ----------------------------------------------------------------------------

  /** A purchase record that adds up: at least two lines, each once, whole recipes at a flat price that
      saves on one but not short of a unit, as many of them as the units allow, and the net paid
      what that grouping costs. */
  ghost predicate Reconciles(p: Purchase) {
    && |p.components| >= 2
    && (forall i, j :: 0 <= i < j < |p.components| ==> p.components[i].orderItemID != p.components[j].orderItemID)
    && (forall i :: 0 <= i < |p.components| ==>
      p.components[i].requiredQuantity >= 1 && p.components[i].individualPriceCents >= 0)
    && p.instanceCount >= 1 && 0 < p.flatPriceCents < Sum(RecipeTerms(p))
    && (forall i :: 0 <= i < |p.components| ==>
      Sum(RecipeTerms(p)) - p.components[i].individualPriceCents < p.flatPriceCents)
    && p.originalNetCents == GroupCost(p, BoughtUnits(p), p.instanceCount)
    && AllRecipes(p)
  }

  /** The units bought make up the recipes bought and not one more. */
  ghost predicate AllRecipes(p: Purchase) {
    && (forall i :: 0 <= i < |p.components| ==>
      p.instanceCount * p.components[i].requiredQuantity <= p.components[i].quantity)
    && exists i :: 0 <= i < |p.components| &&
        p.components[i].quantity < (p.instanceCount + 1) * p.components[i].requiredQuantity
  }

  lemma DistinctComponents(p: Purchase)
    ensures Distinct(ComponentIds(p.components)) <==>
      forall i, j :: 0 <= i < j < |p.components| ==> p.components[i].orderItemID != p.components[j].orderItemID
  {
    var ids := ComponentIds(p.components);
    assert forall i :: 0 <= i < |ids| ==> ids[i] == p.components[i].orderItemID;
  }

  lemma LargestIs(items: seq<Item>, n: int)
    requires Wellformed(items) && n >= 0
    ensures n == Instances(items) <==>
      Fits(items, n) && exists i :: 0 <= i < |items| && items[i].have < (n + 1) * items[i].need
  {
    InstancesAreLargest(items, n);
    InstancesAreLargest(items, n + 1);
  }

  lemma BoughtWellformed(p: Purchase)
    requires |p.components| >= 2 && p.instanceCount >= 1
    requires forall i :: 0 <= i < |p.components| ==>
      && p.components[i].requiredQuantity >= 1 && p.components[i].individualPriceCents >= 0
      && p.components[i].quantity >= p.components[i].requiredQuantity * p.instanceCount
    ensures Wellformed(Bought(p.components))
  {
    forall i | 0 <= i < |p.components| ensures p.components[i].quantity >= 0 {
      MulOrder(0, p.components[i].requiredQuantity, p.instanceCount);
    }
  }

  lemma PlanOfUnits(p: Purchase, items: seq<Item>, units: seq<int>, n: int)
    requires |items| == |units| == |p.components|
    requires forall i :: 0 <= i < |items| ==>
      items[i] == Item(units[i], p.components[i].requiredQuantity, p.components[i].individualPriceCents)
    ensures PlanCents(items, n, p.flatPriceCents) == GroupCost(p, units, n)
    ensures FullCents(items) == Sum(RecipeTerms(p))
  {
    AmountsAreSums(items, n);
    assert Map(SurplusTerm(n), items) == SingleTerms(p, units, n);
    assert Map(FullTerm(), items) == RecipeTerms(p);
  }

  lemma BoundsMean(p: Purchase)
    requires p.components != []
    ensures InBounds(p.flatPriceCents, Bought(p.components)) <==>
      && p.flatPriceCents < Sum(RecipeTerms(p))
      && forall i :: 0 <= i < |p.components| ==>
        Sum(RecipeTerms(p)) - p.components[i].individualPriceCents < p.flatPriceCents
  {
    InBoundsMeans(p.flatPriceCents, Bought(p.components));
    assert Map(FullTerm(), Bought(p.components)) == RecipeTerms(p);
    assert forall i :: 0 <= i < |p.components| ==>
      Bought(p.components)[i].price == p.components[i].individualPriceCents;
  }

  lemma RecipesMean(p: Purchase)
    requires Wellformed(Bought(p.components)) && p.instanceCount >= 1
    ensures p.instanceCount == Instances(Bought(p.components)) <==> AllRecipes(p)
  {
    var items := Bought(p.components);
    LargestIs(items, p.instanceCount);
    assert forall i :: 0 <= i < |items| ==>
      items[i].have == p.components[i].quantity && items[i].need == p.components[i].requiredQuantity;
  }

  lemma NetNonNegative(p: Purchase)
    requires Wellformed(Bought(p.components)) && p.instanceCount >= 1 && p.flatPriceCents > 0
    requires forall i :: 0 <= i < |p.components| ==>
      p.instanceCount * p.components[i].requiredQuantity <= p.components[i].quantity
    ensures PlanCents(Bought(p.components), p.instanceCount, p.flatPriceCents) >= 0
  {
    PlanNonNegative(Bought(p.components), p.instanceCount, p.flatPriceCents);
  }

  /** The checks of the record accept exactly the purchases that add up. */
  lemma PurchaseMeans(p: Purchase)
    ensures PurchaseValid(p) <==> Reconciles(p)
  {
    DistinctComponents(p);
    if |p.components| >= 2 {
      BoundsMean(p);
      PlanOfUnits(p, Bought(p.components), BoughtUnits(p), p.instanceCount);
    }
    if PurchaseValid(p) || Reconciles(p) {
      BoughtWellformed(p);
      RecipesMean(p);
      NetNonNegative(p);
    }
  }

  // --- One refund ------------------------------------------------------------------------------

  ghost predicate UnitsIn(p: Purchase, kept: map<int, int>, units: seq<int>) {
    |units| == |p.components| && forall i :: 0 <= i < |units| ==> units[i] == At(kept, p.components[i].orderItemID)
  }

  /** The count and the cost the calculation works with. */
  lemma CostMeans(p: Purchase, kept: map<int, int>, units: seq<int>, n: int)
    requires PurchaseValid(p) && KeptValid(p.components, kept) && UnitsIn(p, kept, units)
    ensures Count(p, kept) == n <==> Grouped(p, units, n)
    ensures Cost(p, kept) == GroupCost(p, units, Count(p, kept))
  {
    var left := Left(p.components, kept);
    LeftWellformed(p, kept);
    PlanOfUnits(p, left, units, Count(p, kept));
    if n >= 0 {
      LargestIs(left, n);
      InstancesAreLargest(left, n);
    }
    assert forall i :: 0 <= i < |left| ==> left[i].have == units[i] && left[i].need == p.components[i].requiredQuantity;
  }

  /** A request that can be read: of some lines, each once and of the purchase, at least a unit each. */
  ghost predicate Readable(p: Purchase, requested: seq<Request>) {
    && requested != []
    && (forall k, m :: 0 <= k < m < |requested| ==> requested[k].orderItemID != requested[m].orderItemID)
    && forall k :: 0 <= k < |requested| ==> requested[k].quantity >= 1 && Names(p, requested[k].orderItemID)
  }

  ghost predicate Names(p: Purchase, id: int) {
    exists i :: 0 <= i < |p.components| && p.components[i].orderItemID == id
  }

  /** The units of every line before and after the request. */
  ghost predicate UnitsAround(p: Purchase, returned: map<int, int>, requested: seq<Request>, before: seq<int>,
                              kept: seq<int>)
  {
    && |before| == |kept| == |p.components|
    && forall i :: 0 <= i < |p.components| ==>
      var c := p.components[i];
      && before[i] == c.quantity - (if c.orderItemID in returned then returned[c.orderItemID] else 0)
      && TakenFrom(requested, c.orderItemID, before[i] - kept[i])
  }

  /** So many units of the line are requested. */
  ghost predicate TakenFrom(requested: seq<Request>, id: int, units: int) {
    if exists k :: 0 <= k < |requested| && requested[k].orderItemID == id
    then exists k :: 0 <= k < |requested| && requested[k].orderItemID == id && requested[k].quantity == units
    else units == 0
  }

  /** Nobody keeps less than nothing, or more than was bought. */
  ghost predicate InRange(p: Purchase, before: seq<int>, kept: seq<int>)
    requires |before| == |kept| == |p.components|
  {
    forall i :: 0 <= i < |kept| ==> 0 <= kept[i] <= before[i] <= p.components[i].quantity
  }

  lemma {:induction false} AskedMeans(requested: seq<Request>, id: int, units: int)
    requires Distinct(RequestIds(requested))
    ensures Asked(requested, id) == units <==> TakenFrom(requested, id, units)
  {
    var ids := RequestIds(requested);
    assert forall k :: 0 <= k < |requested| ==> ids[k] == requested[k].orderItemID;
    if k :| 0 <= k < |requested| && requested[k].orderItemID == id {
      AskedOnce(requested, id, k);
      assert forall m :: 0 <= m < |requested| && requested[m].orderItemID == id ==> ids[m] == ids[k];
    } else {
      AskedNever(requested, id);
    }
  }

  lemma {:induction false} AskedNever(requested: seq<Request>, id: int)
    requires forall k :: 0 <= k < |requested| ==> requested[k].orderItemID != id
    ensures Asked(requested, id) == 0
  {
    if requested != [] { AskedNever(requested[1..], id); }
  }

  lemma {:induction false} AskedOnce(requested: seq<Request>, id: int, k: nat)
    requires Distinct(RequestIds(requested)) && k < |requested| && requested[k].orderItemID == id
    ensures Asked(requested, id) == requested[k].quantity
  {
    var ids := RequestIds(requested);
    assert forall m :: 0 <= m < |requested| ==> ids[m] == requested[m].orderItemID;
    assert RequestIds(requested[1..]) == ids[1..];
    if k == 0 {
      forall m | 0 <= m < |requested[1..]| ensures requested[1..][m].orderItemID != id { assert ids[m + 1] != ids[0]; }
      AskedNever(requested[1..], id);
    } else {
      assert ids[0] != ids[k];
      AskedOnce(requested[1..], id, k - 1);
    }
  }

  lemma DistinctRequests(requested: seq<Request>)
    ensures Distinct(RequestIds(requested)) <==>
      forall k, m :: 0 <= k < m < |requested| ==> requested[k].orderItemID != requested[m].orderItemID
  {
    var ids := RequestIds(requested);
    assert forall k :: 0 <= k < |requested| ==> ids[k] == requested[k].orderItemID;
  }

  lemma NamedIn(p: Purchase, id: int)
    ensures id in ComponentIds(p.components) <==> Names(p, id)
  {
    var ids := ComponentIds(p.components);
    assert forall i :: 0 <= i < |ids| ==> ids[i] == p.components[i].orderItemID;
  }

  lemma KeptUnits(p: Purchase, returned: map<int, int>, requested: seq<Request>, before: seq<int>, kept: seq<int>)
    requires PurchaseValid(p) && UnitsAround(p, returned, requested, before, kept)
    ensures UnitsIn(p, KeptAfter(p.components, returned), before)
  {
    forall i | 0 <= i < |p.components|
      ensures before[i] == At(KeptAfter(p.components, returned), p.components[i].orderItemID)
    {
      KeptAt(p.components, returned, i);
    }
  }

  lemma ReadableMeans(p: Purchase, returned: map<int, int>, requested: seq<Request>)
    ensures Readable(p, requested) <==>
      requested != [] && Distinct(RequestIds(requested)) && Listed(KeptAfter(p.components, returned), requested)
  {
    DistinctRequests(requested);
    forall k | 0 <= k < |requested|
      ensures requested[k].orderItemID in KeptAfter(p.components, returned) <==> Names(p, requested[k].orderItemID)
    {
      NamedIn(p, requested[k].orderItemID);
    }
  }

  /** What is left of a line. */
  lemma LineLeft(p: Purchase, returned: map<int, int>, requested: seq<Request>, before: seq<int>, kept: seq<int>,
                 i: nat)
    requires PurchaseValid(p) && Distinct(RequestIds(requested)) && i < |p.components|
    requires UnitsAround(p, returned, requested, before, kept)
    ensures p.components[i].orderItemID in KeptAfter(p.components, returned)
    ensures KeptAfter(p.components, returned)[p.components[i].orderItemID] == before[i]
    ensures kept[i] == before[i] - Asked(requested, p.components[i].orderItemID)
  {
    FindsComponent(p.components, i);
    AskedMeans(requested, p.components[i].orderItemID, before[i] - kept[i]);
  }

  lemma RangeMeans(p: Purchase, returned: map<int, int>, requested: seq<Request>, before: seq<int>, kept: seq<int>)
    requires PurchaseValid(p) && UnitsAround(p, returned, requested, before, kept) && Readable(p, requested)
    ensures InRange(p, before, kept) <==>
      && KeptValid(p.components, KeptAfter(p.components, returned))
      && forall id :: id in KeptAfter(p.components, returned) ==>
        Asked(requested, id) <= KeptAfter(p.components, returned)[id]
  {
    var all := KeptAfter(p.components, returned);
    ReadableMeans(p, returned, requested);
    AskedNowhereNegative(p, returned, requested);
    forall i: nat | i < |p.components|
      ensures p.components[i].orderItemID in all && all[p.components[i].orderItemID] == before[i]
      ensures kept[i] == before[i] - Asked(requested, p.components[i].orderItemID)
    {
      LineLeft(p, returned, requested, before, kept, i);
    }
    forall id | id in all ensures Names(p, id) { NamedIn(p, id); }
  }

  /** A request fits exactly when it can be read and leaves no line short. */
  lemma FittingMeans(p: Purchase, returned: map<int, int>, requested: seq<Request>, before: seq<int>, kept: seq<int>)
    requires PurchaseValid(p) && UnitsAround(p, returned, requested, before, kept)
    ensures KeptValid(p.components, KeptAfter(p.components, returned)) && Fitting(p, returned, requested)
      <==> Readable(p, requested) && InRange(p, before, kept)
  {
    ReadableMeans(p, returned, requested);
    if Readable(p, requested) { RangeMeans(p, returned, requested, before, kept); }
  }

  lemma AskedNowhereNegative(p: Purchase, returned: map<int, int>, requested: seq<Request>)
    ensures Listed(KeptAfter(p.components, returned), requested) ==>
      forall i :: 0 <= i < |p.components| ==> Asked(requested, p.components[i].orderItemID) >= 0
  {
    if Listed(KeptAfter(p.components, returned), requested) {
      forall i | 0 <= i < |p.components| ensures Asked(requested, p.components[i].orderItemID) >= 0 {
        AskedNonNegative(KeptAfter(p.components, returned), requested, p.components[i].orderItemID);
      }
    }
  }

  /** What a refund reports: the counts and costs of the two groupings, the refund their difference. */
  ghost predicate Reports(p: Purchase, c: Calculation, before: seq<int>, kept: seq<int>, previous: int)
    requires |before| == |kept| == |p.components|
  {
    && UnitsIn(p, c.beforeKept, before) && UnitsIn(p, c.kept, kept)
    && Grouped(p, before, c.beforeInstanceCount) && Grouped(p, kept, c.keptInstanceCount)
    && c.keptNetCents == GroupCost(p, kept, c.keptInstanceCount)
    && c.lostDiscountCents == (p.instanceCount - c.keptInstanceCount) * (Sum(RecipeTerms(p)) - p.flatPriceCents)
    && c.cumulativeRefundCents == p.originalNetCents - c.keptNetCents && c.previousRefundCents == previous
    && c.refundCents == c.cumulativeRefundCents - previous > 0
  }

  /** Exactly which requests are answered for a purchase that adds up, and with what. */
  lemma RefundMeans(p: Purchase, returned: map<int, int>, requested: seq<Request>, previous: int, before: seq<int>,
                    kept: seq<int>)
    requires Reconciles(p) && UnitsAround(p, returned, requested, before, kept)
    ensures BundleRefund(p, returned, requested, previous).Ok? <==>
      && Readable(p, requested) && InRange(p, before, kept)
      && exists n :: Grouped(p, before, n) && previous == p.originalNetCents - GroupCost(p, before, n)
    ensures match BundleRefund(p, returned, requested, previous)
      case Ok(c) => Reports(p, c, before, kept, previous)
      case Err(e) => e == Conflict
  {
    PurchaseMeans(p);
    var all := KeptAfter(p.components, returned);
    KeptUnits(p, returned, requested, before, kept);
    FittingMeans(p, returned, requested, before, kept);
    if KeptValid(p.components, all) {
      forall n ensures Count(p, all) == n <==> Grouped(p, before, n) { CostMeans(p, all, before, n); }
      CostMeans(p, all, before, Count(p, all));
    }
    if BundleRefund(p, returned, requested, previous).Ok? {
      OnlyReconciledAccepted(p, returned, requested, previous);
      ReportMeans(p, returned, requested, previous, before, kept);
    } else {
      RefusedWithConflict(p, returned, requested, previous);
      if KeptValid(p.components, all) && previous == p.originalNetCents - Cost(p, all) {
        CallWorks(p, returned, requested, previous);
      }
    }
  }

  /** The units of a refund, as recorded. */
  lemma UnitsReported(p: Purchase, returned: map<int, int>, requested: seq<Request>, previous: int, before: seq<int>,
                      kept: seq<int>)
    requires UnitsAround(p, returned, requested, before, kept)
    requires BundleRefund(p, returned, requested, previous).Ok?
    ensures var c := BundleRefund(p, returned, requested, previous).value;
      && PurchaseValid(p) && KeptValid(p.components, c.beforeKept) && KeptValid(p.components, c.kept)
      && UnitsIn(p, c.beforeKept, before) && UnitsIn(p, c.kept, kept)
  {
    var c := BundleRefund(p, returned, requested, previous).value;
    OnlyReconciledAccepted(p, returned, requested, previous);
    CallWorks(p, returned, requested, previous);
    KeptUnits(p, returned, requested, before, kept);
    TakenIsLess(p, returned, requested);
    forall i: nat | i < |kept| ensures kept[i] == At(c.kept, p.components[i].orderItemID) {
      LineLeft(p, returned, requested, before, kept, i);
    }
  }

  lemma DiscountReported(p: Purchase, returned: map<int, int>, requested: seq<Request>, previous: int)
    requires BundleRefund(p, returned, requested, previous).Ok?
    ensures var c := BundleRefund(p, returned, requested, previous).value;
      && PurchaseValid(p) && KeptValid(p.components, c.beforeKept)
      && c.beforeInstanceCount == Count(p, c.beforeKept) && c.keptInstanceCount == Count(p, c.kept)
      && c.lostDiscountCents == (p.instanceCount - c.keptInstanceCount) * (Sum(RecipeTerms(p)) - p.flatPriceCents)
  {
    var c := ReportedAs(p, returned, requested, previous);
    LostTo(p, c.kept);
  }

  lemma ReportedAs(p: Purchase, returned: map<int, int>, requested: seq<Request>, previous: int)
    returns (c: Calculation)
    requires BundleRefund(p, returned, requested, previous).Ok?
    ensures c == BundleRefund(p, returned, requested, previous).value && PurchaseValid(p)
    ensures KeptValid(p.components, c.beforeKept) && c == Report(p, c.beforeKept, c.kept, previous, c.allocations)
  {
    c := BundleRefund(p, returned, requested, previous).value;
  }

  lemma LostTo(p: Purchase, kept: map<int, int>)
    requires ComponentsValid(p)
    ensures LostDiscount(p, kept) == (p.instanceCount - Count(p, kept)) * (Sum(RecipeTerms(p)) - p.flatPriceCents)
  {
    AmountsAreSums(Left(p.components, kept), 0);
    assert Map(FullTerm(), Left(p.components, kept)) == RecipeTerms(p);
  }

  lemma ReportMeans(p: Purchase, returned: map<int, int>, requested: seq<Request>, previous: int, before: seq<int>,
                    kept: seq<int>)
    requires UnitsAround(p, returned, requested, before, kept)
    requires BundleRefund(p, returned, requested, previous).Ok?
    ensures Reports(p, BundleRefund(p, returned, requested, previous).value, before, kept, previous)
  {
    var c := BundleRefund(p, returned, requested, previous).value;
    OnlyReconciledAccepted(p, returned, requested, previous);
    CallWorks(p, returned, requested, previous);
    UnitsReported(p, returned, requested, previous, before, kept);
    DiscountReported(p, returned, requested, previous);
    CostMeans(p, c.beforeKept, before, c.beforeInstanceCount);
    CostMeans(p, c.kept, kept, c.keptInstanceCount);
  }

  lemma RefusedWithConflict(p: Purchase, returned: map<int, int>, requested: seq<Request>, previous: int)
    requires BundleRefund(p, returned, requested, previous).Err?
    ensures BundleRefund(p, returned, requested, previous) == Err(Conflict)
  {
    var before := KeptAfter(p.components, returned);
    if Accepts(p, returned, requested, previous) && Take(before, requested).Ok? {
      KeptNonNegative(p, returned);
      TakeWorks(before, requested);
      RefundLinesAllowed(p, requested, RefundCents(p, Take(before, requested).value, previous));
    } else if Accepts(p, returned, requested, previous) {
      TakeRefusesWith(before, requested);
    }
  }

  lemma {:induction false} TakeRefusesWith(kept: map<int, int>, requested: seq<Request>)
    requires Take(kept, requested).Err?
    ensures Take(kept, requested) == Err(Conflict)
  {
    if Takes(kept, requested[0]) {
      var r := requested[0];
      TakeRefusesWith(kept[r.orderItemID := kept[r.orderItemID] - r.quantity], requested[1..]);
    }
  }

  /** Whatever does not add up, or cannot be read, is refused as a conflict. */
  lemma OtherwiseRefused(p: Purchase, returned: map<int, int>, requested: seq<Request>, previous: int)
    requires !Reconciles(p) || !Readable(p, requested)
    ensures BundleRefund(p, returned, requested, previous) == Err(Conflict)
  {
    PurchaseMeans(p);
    DistinctRequests(requested);
    if BundleRefund(p, returned, requested, previous).Ok? {
      OnlyReconciledAccepted(p, returned, requested, previous);
      forall k | 0 <= k < |requested| ensures Names(p, requested[k].orderItemID) {
        NamedIn(p, requested[k].orderItemID);
      }
      assert false;
    }
    RefusedWithConflict(p, returned, requested, previous);
  }

  // --- The lines of a refund -------------------------------------------------------------------

  /** The requests as the splitter weighs them: units times the individual price of the line. */
  ghost predicate Weighed(p: Purchase, requested: seq<Request>, lines: seq<RefundLine>) {
    && |lines| == |requested|
    && forall k, i :: 0 <= k < |requested| && 0 <= i < |p.components| ==>
      p.components[i].orderItemID == requested[k].orderItemID ==>
        lines[k] == RefundLine(requested[k].orderItemID, requested[k].quantity * p.components[i].individualPriceCents,
                               requested[k].quantity)
  }

  lemma WeighedLines(p: Purchase, requested: seq<Request>, lines: seq<RefundLine>)
    requires PurchaseValid(p) && Distinct(RequestIds(requested)) && Weighed(p, requested, lines)
    requires forall k :: 0 <= k < |requested| ==> requested[k].orderItemID in ComponentIds(p.components)
    ensures lines == RefundLines(p.components, requested)
  {
    forall k | 0 <= k < |requested| ensures lines[k] == RefundLines(p.components, requested)[k] {
      var i := ComponentOf(p.components, requested[k].orderItemID);
      assert RefundLines(p.components, requested)[k] == RefundLineOf(p.components)(requested[k]);
    }
  }

  /** The refund goes to the requested lines in proportion to units times individual price, or to
      units where no requested line is worth anything, rounded to the cent by the largest remainder. */
  lemma LineSharesProRata(p: Purchase, returned: map<int, int>, requested: seq<Request>, previous: int,
                          lines: seq<RefundLine>)
    requires BundleRefund(p, returned, requested, previous).Ok? && Weighed(p, requested, lines)
    ensures var c := BundleRefund(p, returned, requested, previous).value;
      RefundProRata(c.refundCents, lines,
        Map((a: Allocation) => RefundShare(a.orderItemID, a.refundCents), c.allocations))
  {
    var c := BundleRefund(p, returned, requested, previous).value;
    OnlyReconciledAccepted(p, returned, requested, previous);
    CallWorks(p, returned, requested, previous);
    WeighedLines(p, requested, lines);
    RefundLinesAllowed(p, requested, c.refundCents);
    AnswerIsProRata(c.refundCents, lines);
    var shares := AllocateRefund(c.refundCents, lines).value;
    SharesFound(requested, shares);
    assert c.allocations == Allocations(requested, shares);
    assert Map((a: Allocation) => RefundShare(a.orderItemID, a.refundCents), c.allocations) == shares;
  }

  lemma SharesFound(requested: seq<Request>, shares: seq<RefundShare>)
    requires |shares| == |requested| && Distinct(RequestIds(requested))
    requires forall k :: 0 <= k < |shares| ==> shares[k].id == requested[k].orderItemID
    ensures forall k :: 0 <= k < |shares| ==>
      Allocations(requested, shares)[k] == Allocation(requested[k].orderItemID, requested[k].quantity, shares[k].cents)
  {
    var ids := RequestIds(requested);
    forall k | 0 <= k < |shares|
      ensures Allocations(requested, shares)[k]
        == Allocation(requested[k].orderItemID, requested[k].quantity, shares[k].cents)
    {
      assert forall m :: 0 <= m < |shares| ==> ids[m] == shares[m].id;
      forall m | 0 <= m < k ensures shares[m].id != shares[k].id { assert ids[m] != ids[k]; }
      FindsShare(shares, k);
    }
  }
}
