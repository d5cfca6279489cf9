/** From checkout to the last return of an order: what was applied in the cart is what a
    bundle return accepts, and returning everything gives back exactly what was paid. */
module OrderReturns {
  import opened Common
  import opened BundleMath
  import opened VolumePricing
  import opened BundlePricing
  import opened Placements
  import opened Ledger
  import opened CartLedger
  import opened PriceMerchandise
  import CheckoutPricing
  import opened CartCheckout
  import ReturnPricing
  import BundleReturn

  type ItemPrices = CheckoutPricing.ItemPrices

  // --- The purchase record of an applied bundle ---------------------------------------------

  function QuantityOf(lines: seq<Line>, id: int): int {
    if id in LineIds(lines) then LineById(lines, id).quantity else 0
  }

  function BoughtBy(lines: seq<Line>): AppliedComponent -> BundleReturn.BoughtComponent {
    (c: AppliedComponent) =>
      BundleReturn.BoughtComponent(c.lineId, QuantityOf(lines, c.lineId), c.quantity, c.individualPriceCents)
  }

  function NetOf(items: seq<ItemPrices>, id: int): int {
    if items == [] then 0 else if items[0].lineId == id then items[0].lineTotalCents else NetOf(items[1..], id)
  }

  function NetBy(items: seq<ItemPrices>): AppliedComponent -> int { (c: AppliedComponent) => NetOf(items, c.lineId) }

  /** The applied bundle with its lines' quantities and what they cost. */
  function PurchaseOf(a: AppliedBundle, lines: seq<Line>, items: seq<ItemPrices>): BundleReturn.Purchase {
    BundleReturn.Purchase(a.instanceCount, a.priceCents, Sum(Map(NetBy(items), a.components)),
      Map(BoughtBy(lines), a.components))
  }

  lemma CheapestAtMost(a: seq<Item>, b: seq<Item>)
    requires Permuted(a, b) && a != [] && b != []
    ensures CheapestCents(a) <= CheapestCents(b)
  {
    SameElements(a, b);
    var i := CheapestAt(b);
    assert b[i] in a;
    var k :| 0 <= k < |a| && a[k] == b[i];
    CheapestIsLeast(a);
  }

  lemma InstancesAtMost(a: seq<Item>, b: seq<Item>)
    requires Permuted(a, b) && Wellformed(a) && Wellformed(b)
    ensures Instances(a) <= Instances(b)
  {
    SameElements(a, b);
    InstancesAreLargest(a, Instances(a));
    forall i | 0 <= i < |b| ensures Instances(a) * b[i].need <= b[i].have {
      assert b[i] in a;
      var k :| 0 <= k < |a| && a[k] == b[i];
    }
    assert Fits(b, Instances(a));
    InstancesAreLargest(b, Instances(a));
  }

  /** Reordering components changes neither the bounds nor the instances nor any plan. */
  lemma ReorderedRecipe(a: seq<Item>, b: seq<Item>, n: int)
    requires Permuted(a, b) && Wellformed(a) && Wellformed(b)
    ensures PriceBounds(a) == PriceBounds(b) && Instances(a) == Instances(b)
    ensures SurplusCents(a, n) == SurplusCents(b, n)
  {
    AmountsPermuted(a, b, n);
    CheapestAtMost(a, b);
    CheapestAtMost(b, a);
    InstancesAtMost(a, b);
    InstancesAtMost(b, a);
  }

  lemma OrderedItems(b: BundleCandidate, lines: seq<Line>, rules: seq<ComboRule>)
    requires Applicable(b, lines, rules) && Cart(lines)
    ensures var items := ItemsOf(Ordered(b, lines));
      && Wellformed(items) && PriceBounds(items) == PriceBounds(BundleItems(b, lines))
      && Instances(items) == InstanceCount(b, lines)
      && SurplusCents(items, InstanceCount(b, lines)) == SurplusCents(BundleItems(b, lines), InstanceCount(b, lines))
  {
    var unsorted, sorted, g := PartsOf(b.components, lines), Ordered(b, lines), (p: Part) => ItemOf(p);
    OrderedFacts(b, lines, rules);
    ItemsWellformed(b, lines);
    MapPermuted(g, sorted, unsorted);
    assert Map(g, sorted) == ItemsOf(sorted) && Map(g, unsorted) == ItemsOf(unsorted);
    forall i | 0 <= i < |sorted|
      ensures ItemOf(sorted[i]).have >= 0 && ItemOf(sorted[i]).need >= 1 && ItemOf(sorted[i]).price >= 0
    {
      assert sorted[i].line in lines;
    }
    ReorderedRecipe(ItemsOf(sorted), ItemsOf(unsorted), InstanceCount(b, lines));
  }

  lemma LineOfPart(b: BundleCandidate, lines: seq<Line>, rules: seq<ComboRule>, i: nat)
    requires Applicable(b, lines, rules) && Cart(lines) && i < |Ordered(b, lines)|
    ensures QuantityOf(lines, Ordered(b, lines)[i].line.lineId) == Ordered(b, lines)[i].line.quantity
  {
    OrderedFacts(b, lines, rules);
    var l := Ordered(b, lines)[i].line;
    var k :| 0 <= k < |lines| && lines[k] == l;
    LineByIdFinds(lines, k);
    LineIdIn(lines, l);
  }

  /** The stored components are the recipe's parts, with the quantities of their lines. */
  lemma PurchasedComponents(b: BundleCandidate, lines: seq<Line>, rules: seq<ComboRule>, items: seq<ItemPrices>)
    requires Applicable(b, lines, rules) && Cart(lines)
    ensures var p := PurchaseOf(AppliedOf(b, lines, rules), lines, items);
      && BundleReturn.Bought(p.components) == ItemsOf(Ordered(b, lines))
      && |p.components| == |b.components| >= 2 && Distinct(BundleReturn.ComponentIds(p.components))
  {
    var parts, p := Ordered(b, lines), PurchaseOf(AppliedOf(b, lines, rules), lines, items);
    OrderedFacts(b, lines, rules);
    OrderedDistinct(b, lines, rules);
    forall i | 0 <= i < |parts|
      ensures p.components[i] ==
        BundleReturn.BoughtComponent(parts[i].line.lineId, parts[i].line.quantity, parts[i].quantity,
          parts[i].line.individualCents)
    {
      LineOfPart(b, lines, rules, i);
    }
  }

  ghost predicate Frozen(bundles: seq<BundleCandidate>, lines: seq<Line>, rules: seq<ComboRule>, discount: int) {
    && Recipes(bundles) && Cart(lines) && GoodTiers(lines, rules)
    && CheckoutPricing.Tagged(PricedCart(bundles, lines, rules).lines)
    && CheckoutPricing.CheckoutItemPrices(PricedCart(bundles, lines, rules), discount).Ok?
  }

  function ItemsOfOrder(bundles: seq<BundleCandidate>, lines: seq<Line>, rules: seq<ComboRule>,
                        discount: int): seq<ItemPrices>
    requires Frozen(bundles, lines, rules, discount)
  {
    CheckoutPricing.CheckoutItemPrices(PricedCart(bundles, lines, rules), discount).value
  }

  /** Any priced cart can be frozen without a coupon. */
  lemma EveryCartChecksOut(bundles: seq<BundleCandidate>, lines: seq<Line>, rules: seq<ComboRule>)
    requires Recipes(bundles) && Cart(lines) && GoodTiers(lines, rules)
    ensures Frozen(bundles, lines, rules, 0)
  {
    GoodTiersPrices(lines, rules);
    CartLines(bundles, lines, rules);
    CartCents(bundles, lines, rules);
    var priced := PricedCart(bundles, lines, rules).lines;
    var cents := CheckoutPricing.LineCents(priced);
    forall i | 0 <= i < |cents| ensures cents[i] >= 0 { SumNonNegative(priced[i].units); }
    SumNonNegative(cents);
    CartAccepted(bundles, lines, rules, 0);
  }

  /** Each frozen item belongs to its line; without a coupon it costs what its units cost. */
  lemma ItemOfLine(bundles: seq<BundleCandidate>, lines: seq<Line>, rules: seq<ComboRule>, discount: int, i: nat)
    requires Frozen(bundles, lines, rules, discount) && i < |lines|
    ensures |ItemsOfOrder(bundles, lines, rules, discount)| == |lines|
    ensures var item, at := ItemsOfOrder(bundles, lines, rules, discount)[i], Placed(bundles, lines, rules);
      && item.lineId == lines[i].lineId
      && (discount == 0 ==> item.lineTotalCents == Sum(UnitsAt(at, lines[i].lineId)))
      && (item.breakdown.UnitRates? <==> lines[i].lineId !in at.identities)
      && item.lineTotalCents >= 0
  {
    var p := PricedCart(bundles, lines, rules);
    CheckoutPricing.CheckoutExact(p, discount);
    var discounts := CheckoutPricing.Discounts(p, discount);
    assert CheckoutPricing.ItemExact(p.lines[i], discounts[i], ItemsOfOrder(bundles, lines, rules, discount)[i]);
    if discount == 0 {
      assert NonNegative(discounts) by {
        forall k | 0 <= k < |discounts| ensures discounts[k] >= 0 {
          assert CheckoutPricing.ItemExact(p.lines[k], discounts[k], ItemsOfOrder(bundles, lines, rules, discount)[k]);
        }
      }
      SumNonNegative(discounts);
    }
  }

  lemma {:induction false} NetFound(items: seq<ItemPrices>, i: nat)
    requires i < |items| && forall k :: 0 <= k < i ==> items[k].lineId != items[i].lineId
    ensures NetOf(items, items[i].lineId) == items[i].lineTotalCents
  {
    if i > 0 {
      assert items[0].lineId != items[i].lineId;
      NetFound(items[1..], i - 1);
    }
  }

  lemma NetOfLine(bundles: seq<BundleCandidate>, lines: seq<Line>, rules: seq<ComboRule>, l: Line)
    requires Frozen(bundles, lines, rules, 0) && l in lines
    ensures NetOf(ItemsOfOrder(bundles, lines, rules, 0), l.lineId)
      == Sum(UnitsAt(Placed(bundles, lines, rules), l.lineId))
  {
    var items := ItemsOfOrder(bundles, lines, rules, 0);
    var i :| 0 <= i < |lines| && lines[i] == l;
    ItemOfLine(bundles, lines, rules, 0, i);
    forall k | 0 <= k < i ensures items[k].lineId != items[i].lineId {
      ItemOfLine(bundles, lines, rules, 0, k);
      assert LineIds(lines)[k] != LineIds(lines)[i];
    }
    NetFound(items, i);
  }

  lemma {:induction false} NetsArePartCents(at: Placement, parts: seq<Part>, items: seq<ItemPrices>, count: nat)
    requires forall i :: 0 <= i < |parts| ==>
      NetOf(items, parts[i].line.lineId) == Sum(UnitsAt(at, parts[i].line.lineId))
    ensures Sum(Map(NetBy(items), Map(AppliedPart(count), parts))) == PartsCents(at, parts)
  {
    if parts != [] {
      NetsArePartCents(at, parts[1..], items, count);
      var f, g := NetBy(items), AppliedPart(count);
      assert Map(f, Map(g, parts)) == [f(g(parts[0]))] + Map(f, Map(g, parts[1..]));
    }
  }

  /** What the lines of an applied bundle cost is what its plan says. */
  lemma PurchasePaid(bundles: seq<BundleCandidate>, lines: seq<Line>, rules: seq<ComboRule>, b: BundleCandidate)
    requires Frozen(bundles, lines, rules, 0) && b in Chosen(bundles, lines, rules)
    ensures Applicable(b, lines, rules)
    ensures PurchaseOf(AppliedOf(b, lines, rules), lines, ItemsOfOrder(bundles, lines, rules, 0)).originalNetCents
      == BundlePlanCents(b, lines, InstanceCount(b, lines))
  {
    BundleLinesCost(bundles, lines, rules, b);
    OrderedFacts(b, lines, rules);
    InstancesNonNegative(b, lines);
    var parts, items, at := Ordered(b, lines), ItemsOfOrder(bundles, lines, rules, 0), Placed(bundles, lines, rules);
    forall i | 0 <= i < |parts| ensures NetOf(items, parts[i].line.lineId) == Sum(UnitsAt(at, parts[i].line.lineId)) {
      NetOfLine(bundles, lines, rules, parts[i].line);
    }
    NetsArePartCents(at, parts, items, InstanceCount(b, lines));
  }

  lemma ComponentChecks(p: BundleReturn.Purchase, i: nat)
    requires i < |p.components| && Wellformed(BundleReturn.Bought(p.components))
    requires Fits(BundleReturn.Bought(p.components), p.instanceCount)
    ensures p.components[i].requiredQuantity >= 1 && p.components[i].individualPriceCents >= 0
    ensures p.components[i].quantity >= p.components[i].requiredQuantity * p.instanceCount
  {
    var item := BundleReturn.Bought(p.components)[i];
    assert item.need >= 1 && item.price >= 0 && p.instanceCount * item.need <= item.have;
  }

  lemma PurchaseChecks(p: BundleReturn.Purchase)
    requires |p.components| >= 2 && Wellformed(BundleReturn.Bought(p.components))
    requires Distinct(BundleReturn.ComponentIds(p.components))
    requires p.instanceCount == Instances(BundleReturn.Bought(p.components)) >= 1
    requires InBounds(p.flatPriceCents, BundleReturn.Bought(p.components))
    requires p.originalNetCents == PlanCents(BundleReturn.Bought(p.components), p.instanceCount, p.flatPriceCents)
    ensures BundleReturn.PurchaseValid(p)
  {
    var items := BundleReturn.Bought(p.components);
    InstancesAreLargest(items, p.instanceCount);
    FullAtLeastCheapest(items);
    forall i | 0 <= i < |p.components|
      ensures p.components[i].requiredQuantity >= 1 && p.components[i].individualPriceCents >= 0
      ensures p.components[i].quantity >= p.components[i].requiredQuantity * p.instanceCount
    {
      ComponentChecks(p, i);
    }
    assert Wellformed(items) && forall i :: 0 <= i < |items| ==> items[i].price >= 0;
    BundleReturn.PlanNonNegative(items, p.instanceCount, p.flatPriceCents);
  }

  /** The record of an applied bundle satisfies all the checks but that of the amount paid. */
  lemma RecordedRecipe(b: BundleCandidate, lines: seq<Line>, rules: seq<ComboRule>, items: seq<ItemPrices>)
    requires Applicable(b, lines, rules) && Cart(lines)
    ensures var p := PurchaseOf(AppliedOf(b, lines, rules), lines, items);
      && |p.components| >= 2 && Wellformed(BundleReturn.Bought(p.components))
      && Distinct(BundleReturn.ComponentIds(p.components))
      && p.instanceCount == Instances(BundleReturn.Bought(p.components)) >= 1
      && InBounds(p.flatPriceCents, BundleReturn.Bought(p.components))
      && PlanCents(BundleReturn.Bought(p.components), p.instanceCount, p.flatPriceCents)
         == BundlePlanCents(b, lines, InstanceCount(b, lines))
  {
    PurchasedComponents(b, lines, rules, items);
    OrderedItems(b, lines, rules);
    OrderedCountFits(b, lines, rules);
  }

  /** Every applied bundle passes the purchase checks of a bundle return as it stands. */
  lemma AppliedBundleIsValidPurchase(bundles: seq<BundleCandidate>, lines: seq<Line>, rules: seq<ComboRule>,
                                     discount: int, b: BundleCandidate)
    requires Frozen(bundles, lines, rules, discount) && b in Chosen(bundles, lines, rules)
    ensures Applicable(b, lines, rules)
    ensures BundleReturn.PurchaseValid(
      PurchaseOf(AppliedOf(b, lines, rules), lines, ItemsOfOrder(bundles, lines, rules, discount)))
  {
    PurchasePaid(bundles, lines, rules, b);
    var items := ItemsOfOrder(bundles, lines, rules, discount);
    RecordedRecipe(b, lines, rules, items);
    PurchaseChecks(PurchaseOf(AppliedOf(b, lines, rules), lines, items));
  }

  // --- What each line and bundle contributes to the amount paid -----------------------------

  /** The cents of a line that no bundle claimed. */
  function OpenMeasure(): Measure { (units: seq<int>, tags: seq<BundleUnit>) => if tags == [] then Sum(units) else 0 }

  lemma OpenAt(at: Placement, p: Part, rules: seq<ComboRule>)
    requires OrdinaryAt(at, p.line, rules) && p.line.quantity >= 0
    ensures OpenMeasure()(UnitsAt(at, p.line.lineId), TagsAt(at, p.line.lineId)) == PartTotalBy(rules)(p)
  {
    SumFill(p.line.quantity, Rate(p.line, rules));
    assert TagsAt(at, p.line.lineId) == [];
  }

  lemma {:induction false} OldOpen(at: Placement, parts: seq<Part>, rules: seq<ComboRule>)
    requires forall i :: 0 <= i < |parts| ==> OrdinaryAt(at, parts[i].line, rules) && parts[i].line.quantity >= 0
    ensures OldMeasure(at, parts, OpenMeasure()) == OrdinaryPartsCents(parts, rules)
  {
    if parts != [] {
      OldOpen(at, parts[1..], rules);
      OpenAt(at, parts[0], rules);
      var f := PartTotalBy(rules);
      assert Map(f, parts) == [f(parts[0])] + Map(f, parts[1..]);
    }
  }

  lemma {:induction false} NewOpen(bundleID: int, count: nat, parts: seq<Part>, shares: seq<int>)
    requires Covers(parts, shares) && count >= 1
    ensures NewMeasure(bundleID, count, parts, shares, OpenMeasure()) == 0
    decreases parts
  {
    if parts != [] {
      CoversNext(parts, shares);
      NewOpen(bundleID, count, parts[1..], shares[parts[0].quantity..]);
      var tags := PartTags(bundleID, parts[0], count);
      assert |InstanceTags(bundleID, parts[0].quantity, 0, count)| >= parts[0].quantity >= 1;
      assert tags != [];
    }
  }

  lemma {:induction false} BaseOpen(order: seq<int>, lines: seq<Line>, rules: seq<ComboRule>)
    ensures LedgerSum(order, Base(lines, rules), OpenMeasure()) == LedgerSum(order, Base(lines, rules), CentsMeasure())
  {
    var at := Base(lines, rules);
    forall i | 0 <= i < |order|
      ensures MeasureAt(at, OpenMeasure())(order[i]) == MeasureAt(at, CentsMeasure())(order[i])
    {
      assert TagsAt(at, order[i]) == [];
    }
    assert Map(MeasureAt(at, OpenMeasure()), order) == Map(MeasureAt(at, CentsMeasure()), order);
  }

  /** What the applied bundles cost in all. */
  ghost function PlanSum(bs: seq<BundleCandidate>, lines: seq<Line>, rules: seq<ComboRule>): int
    requires AllApplicable(bs, lines, rules)
  {
    if bs == [] then 0
    else
      var b := bs[|bs| - 1];
      PlanSum(bs[..|bs| - 1], lines, rules) + BundlePlanCents(b, lines, InstanceCount(b, lines))
  }

  /** Unclaimed lines and bundle plans together are the subtotal. */
  lemma {:induction false} OpenLedger(bs: seq<BundleCandidate>, lines: seq<Line>, rules: seq<ComboRule>)
    requires AllApplicable(bs, lines, rules) && Disjoint(bs) && Cart(lines)
    ensures LedgerSum(LineIds(lines), PlaceAll(Base(lines, rules), bs, lines, rules), OpenMeasure())
      + PlanSum(bs, lines, rules)
      == OrdinarySubtotal(lines, rules) - Savings(bs, lines, rules)
  {
    if bs == [] {
      BaseCents(lines, lines, rules);
      BaseOpen(LineIds(lines), lines, rules);
    } else {
      var front, b := bs[..|bs| - 1], bs[|bs| - 1];
      assert bs == front + [b];
      OpenLedger(front, lines, rules);
      BundleReady(b, lines, rules);
      LinesReady(front, b, lines, rules);
      BundleLedger(front, b, lines, rules, OpenMeasure());
      OldOpen(PlaceAll(Base(lines, rules), front, lines, rules), Ordered(b, lines), rules);
      NewOpen(b.id, InstanceCount(b, lines), Ordered(b, lines), Split(b, lines));
      SortPartsAmounts(PartsOf(b.components, lines), 0, rules);
      SavingsSnoc(front, b, lines, rules);
    }
  }

  function OpenNet(): ItemPrices -> int {
    (item: ItemPrices) => if item.breakdown.UnitRates? then item.lineTotalCents else 0
  }

  function OpenNets(items: seq<ItemPrices>): int { Sum(Map(OpenNet(), items)) }

  lemma IdentitiesPresent(bundles: seq<BundleCandidate>, lines: seq<Line>, rules: seq<ComboRule>, i: nat)
    requires Recipes(bundles) && Cart(lines) && GoodTiers(lines, rules) && i < |lines|
    ensures var at := Placed(bundles, lines, rules);
      lines[i].lineId in at.identities <==> TagsAt(at, lines[i].lineId) != []
  {
    CartLines(bundles, lines, rules);
    assert PricedCart(bundles, lines, rules).lines[i] == PricedBy(Placed(bundles, lines, rules), rules)(lines[i]);
  }

  lemma OpenItem(bundles: seq<BundleCandidate>, lines: seq<Line>, rules: seq<ComboRule>, i: nat)
    requires Frozen(bundles, lines, rules, 0) && i < |lines|
    ensures |ItemsOfOrder(bundles, lines, rules, 0)| == |lines|
    ensures OpenNet()(ItemsOfOrder(bundles, lines, rules, 0)[i])
      == MeasureAt(Placed(bundles, lines, rules), OpenMeasure())(lines[i].lineId)
  {
    ItemOfLine(bundles, lines, rules, 0, i);
    IdentitiesPresent(bundles, lines, rules, i);
  }

  lemma OpenNetsUncouponed(bundles: seq<BundleCandidate>, lines: seq<Line>, rules: seq<ComboRule>)
    requires Frozen(bundles, lines, rules, 0)
    ensures OpenNets(ItemsOfOrder(bundles, lines, rules, 0))
      == LedgerSum(LineIds(lines), Placed(bundles, lines, rules), OpenMeasure())
  {
    var items, m := ItemsOfOrder(bundles, lines, rules, 0), MeasureAt(Placed(bundles, lines, rules), OpenMeasure());
    CheckoutPricing.CheckoutExact(PricedCart(bundles, lines, rules), 0);
    forall i | 0 <= i < |lines| ensures OpenNet()(items[i]) == m(LineIds(lines)[i]) {
      OpenItem(bundles, lines, rules, i);
    }
    assert Map(OpenNet(), items) == Map(m, LineIds(lines));
  }

  lemma OpenNetsNoBundles(bundles: seq<BundleCandidate>, lines: seq<Line>, rules: seq<ComboRule>, discount: int)
    requires Frozen(bundles, lines, rules, discount) && Chosen(bundles, lines, rules) == []
    ensures OpenNets(ItemsOfOrder(bundles, lines, rules, discount)) == Subtotal(bundles, lines, rules) - discount
  {
    var items := ItemsOfOrder(bundles, lines, rules, discount);
    CheckoutPricing.CheckoutExact(PricedCart(bundles, lines, rules), discount);
    forall i | 0 <= i < |items| ensures items[i].breakdown.UnitRates? {
      ItemOfLine(bundles, lines, rules, discount, i);
    }
    assert Map(OpenNet(), items) == CheckoutPricing.NetCents(items);
  }

  /** The amount paid, line by line and bundle by bundle. */
  lemma PaidInParts(bundles: seq<BundleCandidate>, lines: seq<Line>, rules: seq<ComboRule>, discount: int)
    requires Frozen(bundles, lines, rules, discount)
    ensures AllApplicable(Chosen(bundles, lines, rules), lines, rules)
    ensures OpenNets(ItemsOfOrder(bundles, lines, rules, discount))
      + PlanSum(Chosen(bundles, lines, rules), lines, rules)
      == Subtotal(bundles, lines, rules) - discount
  {
    ChosenApplicable(bundles, lines, rules);
    if Chosen(bundles, lines, rules) == [] {
      OpenNetsNoBundles(bundles, lines, rules, discount);
    } else {
      OpenNetsUncouponed(bundles, lines, rules);
      OpenLedger(Chosen(bundles, lines, rules), lines, rules);
    }
  }

  // --- Every return of an order --------------------------------------------------------------

  /** The returns of an order: for each line the units of every return, for each applied
      bundle the requests of every return. */
  datatype Returns = Returns(units: seq<seq<int>>, batches: seq<seq<seq<BundleReturn.Request>>>)

  function LineRefund(item: ItemPrices, units: seq<int>): int {
    if item.breakdown.UnitRates? && ReturnPricing.SchemaValid(item.breakdown.snapshot)
    then ReturnPricing.Refunded(item.breakdown.snapshot, units)
    else 0
  }

  function LineRefunds(items: seq<ItemPrices>, units: seq<seq<int>>): int
    requires |items| == |units|
  {
    if items == [] then 0 else LineRefund(items[0], units[0]) + LineRefunds(items[1..], units[1..])
  }

  function BundleRefund(p: BundleReturn.Purchase, batches: seq<seq<BundleReturn.Request>>): int {
    match BundleReturn.Replay(p, batches)
    case Ok(cents) => cents
    case Err(_) => 0
  }

  /** Refunds over the applied bundles, latest last. */
  ghost function BundleRefunds(bs: seq<BundleCandidate>, lines: seq<Line>, rules: seq<ComboRule>,
                               items: seq<ItemPrices>,
                         batches: seq<seq<seq<BundleReturn.Request>>>): int
    requires AllApplicable(bs, lines, rules) && Cart(lines) && |bs| == |batches|
  {
    if bs == [] then 0
    else
      BundleRefunds(bs[..|bs| - 1], lines, rules, items, batches[..|bs| - 1])
      + BundleRefund(PurchaseOf(AppliedOf(bs[|bs| - 1], lines, rules), lines, items), batches[|bs| - 1])
  }

  /** Every return asks for at least one unit and never for more than was bought. */
  ghost predicate LineReturns(item: ItemPrices, units: seq<int>) {
    item.breakdown.UnitRates? ==> ReturnPricing.History(item.breakdown.snapshot, units)
  }

  ghost predicate AllLineReturns(items: seq<ItemPrices>, units: seq<seq<int>>) {
    |items| == |units| && forall i :: 0 <= i < |items| ==> LineReturns(items[i], units[i])
  }

  ghost predicate AllBundleReturns(bs: seq<BundleCandidate>, lines: seq<Line>, rules: seq<ComboRule>,
                                   items: seq<ItemPrices>,
                                   batches: seq<seq<seq<BundleReturn.Request>>>)
    requires AllApplicable(bs, lines, rules) && Cart(lines)
  {
    |bs| == |batches| && forall i :: 0 <= i < |bs| ==>
      BundleReturn.FittingHistory(PurchaseOf(AppliedOf(bs[i], lines, rules), lines, items), batches[i])
  }

  ghost predicate LinesAllBack(items: seq<ItemPrices>, units: seq<seq<int>>)
    requires |items| == |units|
  {
    forall i :: 0 <= i < |items| && items[i].breakdown.UnitRates? ==>
      Sum(units[i]) == items[i].breakdown.snapshot.quantity
  }

  ghost predicate BundlesAllBack(bs: seq<BundleCandidate>, lines: seq<Line>, rules: seq<ComboRule>,
                                 items: seq<ItemPrices>,
                                 batches: seq<seq<seq<BundleReturn.Request>>>)
    requires AllApplicable(bs, lines, rules) && Cart(lines) && |bs| == |batches|
  {
    forall i :: 0 <= i < |bs| ==>
      BundleReturn.ReturnsAll(PurchaseOf(AppliedOf(bs[i], lines, rules), lines, items), batches[i])
  }

  /** Volume lines as later returns read them. */
  ghost predicate Readable(items: seq<ItemPrices>) {
    forall i :: 0 <= i < |items| && items[i].breakdown.UnitRates? ==>
      && ReturnPricing.SchemaValid(items[i].breakdown.snapshot)
      && items[i].breakdown.snapshot.netCents == items[i].lineTotalCents
  }

  lemma {:induction false} LineRefundsBounded(items: seq<ItemPrices>, units: seq<seq<int>>)
    requires AllLineReturns(items, units) && Readable(items)
    ensures LineRefunds(items, units) <= OpenNets(items)
    ensures LinesAllBack(items, units) ==> LineRefunds(items, units) == OpenNets(items)
  {
    if items != [] {
      var item := items[0];
      assert forall i :: 0 <= i < |items[1..]| ==> items[1..][i] == items[i + 1] && units[1..][i] == units[i + 1];
      LineRefundsBounded(items[1..], units[1..]);
      assert LineReturns(items[0], units[0]);
      if item.breakdown.UnitRates? {
        ReturnPricing.RefundedIsRunningMaximum(item.breakdown.snapshot, units[0]);
        if Sum(units[0]) == item.breakdown.snapshot.quantity {
          ReturnPricing.FullReturnRefundsNet(item.breakdown.snapshot, units[0]);
        }
      }
      assert Map(OpenNet(), items) == [OpenNet()(item)] + Map(OpenNet(), items[1..]);
    }
  }

  /** Applied bundles as later returns read them. */
  ghost predicate Purchasable(bs: seq<BundleCandidate>, lines: seq<Line>, rules: seq<ComboRule>, items: seq<ItemPrices>)
    requires AllApplicable(bs, lines, rules) && Cart(lines)
  {
    forall i :: 0 <= i < |bs| ==> Purchased(bs[i], lines, rules, items)
  }

  ghost predicate Purchased(b: BundleCandidate, lines: seq<Line>, rules: seq<ComboRule>, items: seq<ItemPrices>)
    requires Applicable(b, lines, rules) && Cart(lines)
  {
    && BundleReturn.PurchaseValid(PurchaseOf(AppliedOf(b, lines, rules), lines, items))
    && PurchaseOf(AppliedOf(b, lines, rules), lines, items).originalNetCents
      == BundlePlanCents(b, lines, InstanceCount(b, lines))
  }

  lemma OneBundleBounded(p: BundleReturn.Purchase, batches: seq<seq<BundleReturn.Request>>)
    requires BundleReturn.PurchaseValid(p) && BundleReturn.FittingHistory(p, batches)
    ensures BundleRefund(p, batches) <= p.originalNetCents
    ensures BundleReturn.ReturnsAll(p, batches) ==> BundleRefund(p, batches) == p.originalNetCents
  {
    BundleReturn.EveryHistoryReconciles(p, batches);
    BundleReturn.FullReturnRefundsNet(p, batches);
    var kept := BundleReturn.KeptAfter(p.components, BundleReturn.ReturnedSoFar(p, batches));
    BundleReturn.KeepingLessCostsLess(p, kept, kept);
  }

  lemma {:induction false} BundleRefundsBounded(bs: seq<BundleCandidate>, lines: seq<Line>, rules: seq<ComboRule>,
                                                items: seq<ItemPrices>,
                                                batches: seq<seq<seq<BundleReturn.Request>>>)
    requires AllApplicable(bs, lines, rules) && Cart(lines) && Purchasable(bs, lines, rules, items)
    requires AllBundleReturns(bs, lines, rules, items, batches)
    ensures BundleRefunds(bs, lines, rules, items, batches) <= PlanSum(bs, lines, rules)
    ensures BundlesAllBack(bs, lines, rules, items, batches) ==>
      BundleRefunds(bs, lines, rules, items, batches) == PlanSum(bs, lines, rules)
  {
    if bs != [] {
      var n := |bs| - 1;
      BundleRefundsBounded(bs[..n], lines, rules, items, batches[..n]);
      assert Purchased(bs[n], lines, rules, items);
      OneBundleBounded(PurchaseOf(AppliedOf(bs[n], lines, rules), lines, items), batches[n]);
    }
  }

  lemma OrderReadable(bundles: seq<BundleCandidate>, lines: seq<Line>, rules: seq<ComboRule>, discount: int)
    requires Frozen(bundles, lines, rules, discount)
    ensures |ItemsOfOrder(bundles, lines, rules, discount)| == |lines|
    ensures Readable(ItemsOfOrder(bundles, lines, rules, discount))
  {
    var items := ItemsOfOrder(bundles, lines, rules, discount);
    CheckoutPricing.CheckoutExact(PricedCart(bundles, lines, rules), discount);
    forall i | 0 <= i < |items| && items[i].breakdown.UnitRates?
      ensures ReturnPricing.SchemaValid(items[i].breakdown.snapshot)
      ensures items[i].breakdown.snapshot.netCents == items[i].lineTotalCents
    {
      SnapshotsWork(bundles, lines, rules, discount, i);
    }
  }

  lemma OrderPurchase(bundles: seq<BundleCandidate>, lines: seq<Line>, rules: seq<ComboRule>, discount: int,
                      b: BundleCandidate)
    requires Frozen(bundles, lines, rules, discount) && b in Chosen(bundles, lines, rules)
    ensures Applicable(b, lines, rules) && Purchased(b, lines, rules, ItemsOfOrder(bundles, lines, rules, discount))
  {
    AppliedBundleIsValidPurchase(bundles, lines, rules, discount, b);
    PurchasePaid(bundles, lines, rules, b);
  }

  lemma OrderPurchasable(bundles: seq<BundleCandidate>, lines: seq<Line>, rules: seq<ComboRule>, discount: int)
    requires Frozen(bundles, lines, rules, discount)
    ensures AllApplicable(Chosen(bundles, lines, rules), lines, rules)
    ensures Purchasable(Chosen(bundles, lines, rules), lines, rules, ItemsOfOrder(bundles, lines, rules, discount))
  {
    ChosenApplicable(bundles, lines, rules);
    var chosen := Chosen(bundles, lines, rules);
    forall i | 0 <= i < |chosen|
      ensures Purchased(chosen[i], lines, rules, ItemsOfOrder(bundles, lines, rules, discount))
    {
      OrderPurchase(bundles, lines, rules, discount, chosen[i]);
    }
  }

  /** End to end: whatever the cart, the active bundles and the coupon, no sequence of returns
      refunds more than subtotal minus coupon, and returning every unit, in any sequences of
      returns, refunds exactly that. */
  lemma WholeOrderRefund(bundles: seq<BundleCandidate>, lines: seq<Line>, rules: seq<ComboRule>, discount: int,
                         all: Returns)
    requires Frozen(bundles, lines, rules, discount)
    requires AllApplicable(Chosen(bundles, lines, rules), lines, rules)
    requires AllLineReturns(ItemsOfOrder(bundles, lines, rules, discount), all.units)
    requires AllBundleReturns(Chosen(bundles, lines, rules), lines, rules,
      ItemsOfOrder(bundles, lines, rules, discount), all.batches)
    ensures var items, chosen := ItemsOfOrder(bundles, lines, rules, discount), Chosen(bundles, lines, rules);
      var refunded := LineRefunds(items, all.units) + BundleRefunds(chosen, lines, rules, items, all.batches);
      && refunded <= Subtotal(bundles, lines, rules) - discount
      && (LinesAllBack(items, all.units) && BundlesAllBack(chosen, lines, rules, items, all.batches) ==>
           refunded == Subtotal(bundles, lines, rules) - discount)
  {
    var items := ItemsOfOrder(bundles, lines, rules, discount);
    PaidInParts(bundles, lines, rules, discount);
    OrderReadable(bundles, lines, rules, discount);
    OrderPurchasable(bundles, lines, rules, discount);
    LineRefundsBounded(items, all.units);
    BundleRefundsBounded(Chosen(bundles, lines, rules), lines, rules, items, all.batches);
  }
}
