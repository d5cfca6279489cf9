/** The prices frozen at checkout (backend/src/lib/checkout-pricing.ts): the coupon is spread
    over the lines and then over the units of each line. */
module CheckoutPricing {
  import opened Common
  import opened AllocateCents
  import opened VolumePricing
  import opened BundlePricing
  import opened ReturnPricing

  /** One priced cart line; `identities` only for a line that a bundle claimed. */
  datatype PricedLine = PricedLine(lineId: int, units: seq<int>, basis: Basis, identities: Option<seq<BundleUnit>>)

  datatype Priced = Priced(lines: seq<PricedLine>, subtotal: int, appliedBundles: nat)

  datatype BundleLine = BundleLine(bundleID: int, quantity: int, individualCents: int, beforeCouponCents: int,
                                   netCents: int,
                                   unitPrices: seq<int>, units: seq<BundleUnit>)

  datatype Breakdown = UnitRates(snapshot: Snapshot) | Bundled(record: BundleLine)

  datatype ItemPrices = ItemPrices(lineId: int, lineTotalCents: int, breakdown: Breakdown)

  function LineCents(lines: seq<PricedLine>): seq<int> { Map((l: PricedLine) => Sum(l.units), lines) }

  function Minus(units: seq<int>, discounts: seq<int>): (r: seq<int>)
    requires |units| == |discounts|
    ensures |r| == |units| && forall i :: 0 <= i < |r| ==> r[i] == units[i] - discounts[i]
  {
    seq(|units|, i requires 0 <= i < |units| => units[i] - discounts[i])
  }

  /** A claimed line has an identity for each of its units, and it has units. */
  predicate Tagged(lines: seq<PricedLine>) {
    forall i :: 0 <= i < |lines| && lines[i].identities.Some? ==> lines[i].identities.value != []
  }

  function BreakdownOf(l: PricedLine, discount: int, unitPrices: seq<int>): Breakdown
    requires l.identities.Some? ==> l.identities.value != []
  {
    var cents := Sum(l.units);
    match l.identities
    case Some(tags) =>
      Bundled(BundleLine(tags[0].bundleID, |l.units|, l.basis.individualCents, cents, cents, unitPrices, tags))
    case None =>
      UnitRates(Snapshot(l.basis.quantity, l.basis.individualCents, l.basis.tiers, l.basis.rule, cents, discount,
        cents - discount, unitPrices))
  }

  function ItemOf(l: PricedLine, discount: int, unitDiscounts: seq<int>): ItemPrices
    requires |unitDiscounts| == |l.units| && (l.identities.Some? ==> l.identities.value != [])
  {
    ItemPrices(l.lineId, Sum(l.units) - discount, BreakdownOf(l, discount, Minus(l.units, unitDiscounts)))
  }

  /** The item of this line at this discount. */
  predicate Names(item: ItemPrices, l: PricedLine, discount: int) {
    && item.lineId == l.lineId && item.lineTotalCents == Sum(l.units) - discount
    && (item.breakdown.Bundled? <==> l.identities.Some?)
  }

  function PriceItems(lines: seq<PricedLine>, discounts: seq<int>): (r: Result<seq<ItemPrices>>)
    requires |discounts| == |lines| && Tagged(lines)
    ensures r.Ok? ==> |r.value| == |lines| && forall i :: 0 <= i < |lines| ==> Names(r.value[i], lines[i], discounts[i])
  {
    if lines == [] then Ok([])
    else
      match Allocate(discounts[0], lines[0].units)
      case Err(e) => Err(e)
      case Ok(unitDiscounts) =>
        AllocationExact(discounts[0], lines[0].units);
        assert forall i :: 0 <= i < |lines[1..]| ==>
          lines[1..][i] == lines[i + 1] && discounts[1..][i] == discounts[i + 1];
        match PriceItems(lines[1..], discounts[1..])
        case Err(e) => Err(e)
        case Ok(rest) => Ok([ItemOf(lines[0], discounts[0], unitDiscounts)] + rest)
  }

  function CheckoutItemPrices(p: Priced, discount: int): Result<seq<ItemPrices>>
    requires Tagged(p.lines)
  {
    var cents := LineCents(p.lines);
    if Sum(cents) != p.subtotal then Err(Unreconciled)
    else if discount < 0 || discount > p.subtotal then Err(CouponTooLarge)
    else if p.appliedBundles > 0 && discount != 0 then Err(BundlesExcludeCoupons)
    else
      match Allocate(discount, cents)
      case Err(e) => Err(e)
      case Ok(discounts) =>
        AllocationExact(discount, cents);
        PriceItems(p.lines, discounts)
  }

  // --- When checkout refuses -----------------------------------------------------------

  ghost predicate UnitsNonNegative(lines: seq<PricedLine>) {
    forall i :: 0 <= i < |lines| ==> NonNegative(lines[i].units)
  }

  /** Discounts that no line outgrows: what the first allocation hands down. */
  ghost predicate Affordable(lines: seq<PricedLine>, discounts: seq<int>) {
    |lines| == |discounts| && forall i :: 0 <= i < |lines| ==> 0 <= discounts[i] <= Sum(lines[i].units)
  }

  lemma UnitsTakeDiscount(units: seq<int>, discount: int)
    requires 0 <= discount <= Sum(units)
    ensures Allocate(discount, units).Ok? <==> NonNegative(units)
  {
    AllocationRefusal(discount, units);
  }

  lemma {:induction false} ItemsAccepted(lines: seq<PricedLine>, discounts: seq<int>)
    requires Affordable(lines, discounts) && Tagged(lines)
    ensures PriceItems(lines, discounts).Ok? <==> UnitsNonNegative(lines)
  {
    if lines != [] {
      assert forall i :: 0 <= i < |lines[1..]| ==>
        lines[1..][i] == lines[i + 1] && discounts[1..][i] == discounts[i + 1];
      UnitsTakeDiscount(lines[0].units, discounts[0]);
      ItemsAccepted(lines[1..], discounts[1..]);
      assert UnitsNonNegative(lines) <==> NonNegative(lines[0].units) && UnitsNonNegative(lines[1..]);
    }
  }

  lemma LinesAffordDiscounts(lines: seq<PricedLine>, discount: int)
    requires 0 <= discount <= Sum(LineCents(lines)) && Allocate(discount, LineCents(lines)).Ok?
    ensures Affordable(lines, Allocate(discount, LineCents(lines)).value)
    ensures Sum(Allocate(discount, LineCents(lines)).value) == discount
  {
    var cents := LineCents(lines);
    AllocationExact(discount, cents);
    forall i | 0 <= i < |lines| ensures 0 <= Allocate(discount, cents).value[i] <= Sum(lines[i].units) {
      AllocationCapped(discount, cents, i);
    }
  }

  /** Checkout goes through exactly when the subtotal reconciles, the coupon fits and does
      not meet a bundle, and no unit has a negative price. */
  lemma CheckoutAcceptance(p: Priced, discount: int)
    requires Tagged(p.lines)
    ensures CheckoutItemPrices(p, discount).Ok? <==>
      && Sum(LineCents(p.lines)) == p.subtotal && 0 <= discount <= p.subtotal
      && (p.appliedBundles > 0 ==> discount == 0)
      && UnitsNonNegative(p.lines)
  {
    var cents := LineCents(p.lines);
    if UnitsNonNegative(p.lines) {
      forall i | 0 <= i < |cents| ensures cents[i] >= 0 { SumNonNegative(p.lines[i].units); }
    }
    AllocationRefusal(discount, cents);
    if 0 <= discount <= Sum(cents) && Allocate(discount, cents).Ok? {
      LinesAffordDiscounts(p.lines, discount);
      ItemsAccepted(p.lines, Allocate(discount, cents).value);
    }
  }

  // --- What the items say ----------------------------------------------------------------

  /** One line's frozen prices: nothing negative, nothing above the pre-coupon price, and
      the units add up to the line. */
  ghost predicate ItemExact(l: PricedLine, discount: int, item: ItemPrices) {
    && (l.identities.Some? ==> l.identities.value != [])
    && item.lineId == l.lineId && item.lineTotalCents == Sum(l.units) - discount && 0 <= discount <= Sum(l.units)
    && exists unitPrices ::
         item.breakdown == BreakdownOf(l, discount, unitPrices)
         && UnitsWithin(unitPrices, l.units, Sum(l.units) - discount)
  }

  ghost predicate UnitsWithin(unitPrices: seq<int>, units: seq<int>, net: int) {
    && |unitPrices| == |units| && Sum(unitPrices) == net
    && forall i :: 0 <= i < |units| ==> 0 <= unitPrices[i] <= units[i]
  }

  lemma DiscountedUnits(units: seq<int>, discount: int)
    requires 0 <= discount <= Sum(units) && Allocate(discount, units).Ok?
    ensures |Allocate(discount, units).value| == |units|
    ensures UnitsWithin(Minus(units, Allocate(discount, units).value), units, Sum(units) - discount)
  {
    AllocationExact(discount, units);
    var shares := Allocate(discount, units).value;
    forall i | 0 <= i < |units| ensures 0 <= shares[i] <= units[i] { AllocationCapped(discount, units, i); }
    SumPlus(units, Minus(units, shares), shares);
  }

  lemma {:induction false} ItemsExact(lines: seq<PricedLine>, discounts: seq<int>, i: int)
    requires Affordable(lines, discounts) && Tagged(lines) && PriceItems(lines, discounts).Ok? && 0 <= i < |lines|
    ensures ItemExact(lines[i], discounts[i], PriceItems(lines, discounts).value[i])
  {
    assert forall k :: 0 <= k < |lines[1..]| ==> lines[1..][k] == lines[k + 1] && discounts[1..][k] == discounts[k + 1];
    if i == 0 {
      DiscountedUnits(lines[0].units, discounts[0]);
      var unitPrices := Minus(lines[0].units, Allocate(discounts[0], lines[0].units).value);
      assert PriceItems(lines, discounts).value[0].breakdown == BreakdownOf(lines[0], discounts[0], unitPrices);
    } else {
      ItemsExact(lines[1..], discounts[1..], i - 1);
      assert PriceItems(lines, discounts).value[i] == PriceItems(lines[1..], discounts[1..]).value[i - 1];
    }
  }

  function NetCents(items: seq<ItemPrices>): seq<int> { Map((item: ItemPrices) => item.lineTotalCents, items) }

  function Discounts(p: Priced, discount: int): seq<int>
    requires Tagged(p.lines) && CheckoutItemPrices(p, discount).Ok?
  {
    Allocate(discount, LineCents(p.lines)).value
  }

  /** Every frozen line is exact, and the lines' net totals sum to subtotal minus coupon. */
  lemma CheckoutExact(p: Priced, discount: int)
    requires Tagged(p.lines) && CheckoutItemPrices(p, discount).Ok?
    ensures var items, discounts := CheckoutItemPrices(p, discount).value, Discounts(p, discount);
      && |items| == |p.lines| == |discounts|
      && (forall i :: 0 <= i < |items| ==> ItemExact(p.lines[i], discounts[i], items[i]))
      && Sum(discounts) == discount && Sum(NetCents(items)) == p.subtotal - discount
  {
    LinesAffordDiscounts(p.lines, discount);
    var items, discounts := CheckoutItemPrices(p, discount).value, Discounts(p, discount);
    forall i | 0 <= i < |items| ensures ItemExact(p.lines[i], discounts[i], items[i]) {
      ItemsExact(p.lines, discounts, i);
    }
    SumPlus(LineCents(p.lines), NetCents(items), discounts);
  }

  // --- The answer by what it gives ---------------------------------------------------------

  /** How much less than `whole` is asked, entry by entry. */
  function Reductions(whole: seq<int>, asked: seq<int>): seq<int>
    requires |whole| == |asked|
  {
    seq(|whole|, i requires 0 <= i < |whole| => whole[i] - asked[i])
  }

  function UnitPricesOf(item: ItemPrices): seq<int> {
    match item.breakdown
    case UnitRates(s) => s.unitPrices
    case Bundled(r) => r.unitPrices
  }

  /** The item's share of the coupon is split over its units in proportion to their prices. */
  ghost predicate UnitsMean(l: PricedLine, item: ItemPrices) {
    && |UnitPricesOf(item)| == |l.units|
    && SplitsProRata(Sum(l.units) - item.lineTotalCents, l.units, Reductions(l.units, UnitPricesOf(item)))
  }

  /** The item of a line, field by field. */
  ghost predicate FieldsMean(l: PricedLine, item: ItemPrices) {
    && item.lineId == l.lineId
    && match item.breakdown
       case UnitRates(s) =>
         && l.identities.None?
         && s.quantity == l.basis.quantity && s.individualCents == l.basis.individualCents
         && s.tiers == l.basis.tiers && s.rule == l.basis.rule
         && s.beforeCouponCents == Sum(l.units) && s.netCents == item.lineTotalCents
         && s.couponCents == Sum(l.units) - item.lineTotalCents
       case Bundled(r) =>
         && l.identities == Some(r.units) && r.units != [] && r.bundleID == r.units[0].bundleID
         && r.quantity == |l.units| && r.individualCents == l.basis.individualCents
         && r.beforeCouponCents == Sum(l.units) && r.netCents == Sum(l.units)
  }

  lemma FieldsHold(l: PricedLine, discount: int, shares: seq<int>)
    requires |shares| == |l.units| && (l.identities.Some? ==> l.identities.value != [])
    ensures FieldsMean(l, ItemOf(l, discount, shares))
    ensures UnitPricesOf(ItemOf(l, discount, shares)) == Minus(l.units, shares)
    ensures Sum(l.units) - ItemOf(l, discount, shares).lineTotalCents == discount
  {
  }

  lemma UnitsHold(l: PricedLine, discount: int, shares: seq<int>, item: ItemPrices)
    requires SplitsProRata(discount, l.units, shares)
    requires |shares| == |l.units| && UnitPricesOf(item) == Minus(l.units, shares)
    requires Sum(l.units) - item.lineTotalCents == discount
    ensures UnitsMean(l, item)
  {
    assert Reductions(l.units, UnitPricesOf(item)) == shares;
  }

  lemma ItemOfMeans(l: PricedLine, discount: int)
    requires l.identities.Some? ==> l.identities.value != []
    requires 0 <= discount && AllNonNegative(l.units) && Allocate(discount, l.units).Ok?
    ensures |Allocate(discount, l.units).value| == |l.units|
    ensures FieldsMean(l, ItemOf(l, discount, Allocate(discount, l.units).value))
    ensures UnitsMean(l, ItemOf(l, discount, Allocate(discount, l.units).value))
  {
    AllocationExact(discount, l.units);
    AllocatedProRata(discount, l.units);
    var shares := Allocate(discount, l.units).value;
    FieldsHold(l, discount, shares);
    UnitsHold(l, discount, shares, ItemOf(l, discount, shares));
  }

  lemma {:induction false} ItemsMean(lines: seq<PricedLine>, discounts: seq<int>, i: int)
    requires |discounts| == |lines| && Tagged(lines) && PriceItems(lines, discounts).Ok? && 0 <= i < |lines|
    requires forall k :: 0 <= k < |discounts| ==> discounts[k] >= 0
    ensures FieldsMean(lines[i], PriceItems(lines, discounts).value[i])
    ensures UnitsMean(lines[i], PriceItems(lines, discounts).value[i])
  {
    ItemsCons(lines, discounts);
    if i == 0 {
      AllocationRefusal(discounts[0], lines[0].units);
      ItemOfMeans(lines[0], discounts[0]);
    } else {
      ItemsMean(lines[1..], discounts[1..], i - 1);
    }
  }

  lemma ItemsCons(lines: seq<PricedLine>, discounts: seq<int>)
    requires |discounts| == |lines| > 0 && Tagged(lines) && PriceItems(lines, discounts).Ok?
    ensures Tagged(lines[1..]) && PriceItems(lines[1..], discounts[1..]).Ok?
    ensures Allocate(discounts[0], lines[0].units).Ok?
    ensures |Allocate(discounts[0], lines[0].units).value| == |lines[0].units|
    ensures PriceItems(lines, discounts).value[0]
      == ItemOf(lines[0], discounts[0], Allocate(discounts[0], lines[0].units).value)
    ensures PriceItems(lines, discounts).value[1..] == PriceItems(lines[1..], discounts[1..]).value
  {
    AllocationExact(discounts[0], lines[0].units);
    assert forall k :: 0 <= k < |lines[1..]| ==> lines[1..][k] == lines[k + 1] && discounts[1..][k] == discounts[k + 1];
  }

  lemma DiscountsAreReductions(p: Priced, discount: int)
    requires Tagged(p.lines) && CheckoutItemPrices(p, discount).Ok?
    ensures |CheckoutItemPrices(p, discount).value| == |p.lines|
    ensures Discounts(p, discount) == Reductions(LineCents(p.lines), NetCents(CheckoutItemPrices(p, discount).value))
  {
    LinesAffordDiscounts(p.lines, discount);
    NamedReductions(p.lines, Discounts(p, discount), CheckoutItemPrices(p, discount).value);
  }

  lemma NamedReductions(lines: seq<PricedLine>, discounts: seq<int>, items: seq<ItemPrices>)
    requires |lines| == |discounts| == |items|
    requires forall i :: 0 <= i < |items| ==> Names(items[i], lines[i], discounts[i])
    ensures discounts == Reductions(LineCents(lines), NetCents(items))
  {
  }

  /** Checkout by its result alone: the coupon is split over the lines in proportion to their
      cents, each line's share over its units in proportion to theirs, both to the cent with
      remainders to the largest and ties to the earlier, and every field says what it should. */
  lemma CheckoutMeans(p: Priced, discount: int)
    requires Tagged(p.lines) && CheckoutItemPrices(p, discount).Ok?
    ensures var items := CheckoutItemPrices(p, discount).value;
      && |items| == |p.lines|
      && SplitsProRata(discount, LineCents(p.lines), Reductions(LineCents(p.lines), NetCents(items)))
      && forall i :: 0 <= i < |items| ==> FieldsMean(p.lines[i], items[i]) && UnitsMean(p.lines[i], items[i])
  {
    var items, discounts := CheckoutItemPrices(p, discount).value, Discounts(p, discount);
    CheckoutAcceptance(p, discount);
    CheckoutExact(p, discount);
    DiscountsAreReductions(p, discount);
    AllocationRefusal(discount, LineCents(p.lines));
    AllocationIsProRata(discount, LineCents(p.lines), discounts);
    LinesAffordDiscounts(p.lines, discount);
    forall i | 0 <= i < |items| ensures FieldsMean(p.lines[i], items[i]) && UnitsMean(p.lines[i], items[i]) {
      ItemsMean(p.lines, discounts, i);
    }
  }

  /** A dearer line never bears less of the coupon, and of equal lines the earlier one no less. */
  lemma DearerLineBearsNoLess(p: Priced, discount: int, i: nat, j: nat)
    requires Tagged(p.lines) && CheckoutItemPrices(p, discount).Ok? && i < |p.lines| && j < |p.lines|
    requires Sum(p.lines[i].units) > Sum(p.lines[j].units) || (Sum(p.lines[i].units) == Sum(p.lines[j].units) && i <= j)
    ensures var items := CheckoutItemPrices(p, discount).value;
      && |items| == |p.lines|
      && Sum(p.lines[i].units) - items[i].lineTotalCents >= Sum(p.lines[j].units) - items[j].lineTotalCents
  {
    DiscountsAreReductions(p, discount);
    var items, discounts := CheckoutItemPrices(p, discount).value, Discounts(p, discount);
    assert discounts[i] == LineCents(p.lines)[i] - NetCents(items)[i];
    assert discounts[j] == LineCents(p.lines)[j] - NetCents(items)[j];
    AllocationMonotone(discount, LineCents(p.lines), i, j);
  }

  // --- Snapshots and the returns that read them -------------------------------------------

  ghost predicate BasisStorable(b: Basis) {
    && b.quantity > 0 && b.individualCents >= 0
    && forall i :: 0 <= i < |b.tiers| ==> b.tiers[i].minQty > 0 && b.tiers[i].priceCents >= 0
  }

  lemma ItemReadable(l: PricedLine, discount: int, item: ItemPrices)
    requires ItemExact(l, discount, item) && l.identities.None?
    ensures item.breakdown.UnitRates?
    ensures var s := item.breakdown.snapshot;
      && (ReadPurchasePricing(UnitRateBands(s)) == Ok(Some(s))
          <==> BasisStorable(l.basis) && |l.units| == l.basis.quantity)
      && s.couponCents + s.netCents == s.beforeCouponCents
      && Sum(s.unitPrices) == s.netCents && NonNegative(s.unitPrices)
  {
  }

  /** A frozen volume line is readable by a later return exactly when its pricing basis is
      storable and has a price for every unit; the amounts themselves always reconcile. */
  lemma SnapshotReadable(p: Priced, discount: int, i: nat)
    requires Tagged(p.lines) && CheckoutItemPrices(p, discount).Ok? && i < |p.lines| && p.lines[i].identities.None?
    ensures i < |CheckoutItemPrices(p, discount).value| && CheckoutItemPrices(p, discount).value[i].breakdown.UnitRates?
    ensures var s := CheckoutItemPrices(p, discount).value[i].breakdown.snapshot;
      && (ReadPurchasePricing(UnitRateBands(s)) == Ok(Some(s)) <==>
           BasisStorable(p.lines[i].basis) && |p.lines[i].units| == p.lines[i].basis.quantity)
      && s.couponCents + s.netCents == s.beforeCouponCents
      && Sum(s.unitPrices) == s.netCents && NonNegative(s.unitPrices)
  {
    CheckoutExact(p, discount);
    ItemReadable(p.lines[i], Discounts(p, discount)[i], CheckoutItemPrices(p, discount).value[i]);
  }

  /** The basis prices the whole line at what its units cost before the coupon. */
  ghost predicate BasisPrices(l: PricedLine) {
    && |l.units| == l.basis.quantity
    && Sum(l.units) == Total(l.basis.quantity, l.basis.individualCents, l.basis.tiers)
  }

  /** Nothing is owed before anything is returned. */
  lemma FreshSnapshotOwesNothing(p: Priced, discount: int, i: nat)
    requires Tagged(p.lines) && CheckoutItemPrices(p, discount).Ok? && i < |p.lines| && p.lines[i].identities.None?
    requires BasisStorable(p.lines[i].basis) && BasisPrices(p.lines[i])
    ensures i < |CheckoutItemPrices(p, discount).value| && CheckoutItemPrices(p, discount).value[i].breakdown.UnitRates?
    ensures var s := CheckoutItemPrices(p, discount).value[i].breakdown.snapshot;
      && SchemaValid(s) && Reconciles(s) && s.beforeCouponCents == KeptGross(s, s.quantity)
      && Entitlement(s, 0) == 0
  {
    SnapshotReadable(p, discount, i);
    CheckoutExact(p, discount);
    var s := CheckoutItemPrices(p, discount).value[i].breakdown.snapshot;
    assert ItemExact(p.lines[i], Discounts(p, discount)[i], CheckoutItemPrices(p, discount).value[i]);
    assert s.beforeCouponCents == Sum(p.lines[i].units);
    NothingReturnedNothingOwed(s);
  }
}
